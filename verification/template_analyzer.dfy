/**
  The newer `SendEmailUsingTemplateAnalyzer`: the configured plain-text and
  HTML templates, and the configured subject, are rendered for every row with
  the row's template values; a row with an unusable address is skipped
  before any rendering, and the dispatcher's answer for the others is
  tallied as in the value analyzer, with one execution-log message per
  failure.
 */
module TemplateAnalyzer {

  import opened Wrappers
  import opened Mail
  import opened TemplateSubstitution

  /** How a call of `run` ended. */
  datatype RunStatus =
    | RowSkipped
    | RowSent(request: MailRequest)
    | RenderingStopped(cause: Rendering)  // an exception or a loop that does not stop, out of `buildBodyFromTemplate`

  class SendEmailUsingTemplateAnalyzer {
    const from: string
    const subject: Option<string>
    const smtp: SmtpSettings
    const sleepTimeInMillis: int
    const htmlTemplate: Option<Resource>
    const plainTextTemplate: Option<Resource>
    const templateKeys: Option<seq<string>>
    const templateEncoding: string

    var htmlTemplateString: Option<string>
    var plainTextTemplateString: Option<string>
    var successCount: nat
    var skipCount: nat
    var failures: seq<EmailResult>
    /** The messages this analyzer has published to the host's execution log since `init`. */
    var log: seq<string>
    /** What each completed `run` did, in order. */
    ghost var history: seq<RowOutcome>

    /**
      The counters and the failures are the tally of the rows run; the log has
      one message per failure; every failed row carries an unsuccessful result.
     */
    ghost predicate Valid()
      reads this
    {
      successCount == Successes(history) && skipCount == Skips(history) &&
      failures == Failures(history) && log == FailureLog(failures) &&
      FailedRowsUnsuccessful(history)
    }

    /** A configured analyzer before `init`: no template text loaded yet. */
    constructor(from: string, subject: Option<string>, smtp: SmtpSettings, sleepTimeInMillis: int,
                htmlTemplate: Option<Resource>, plainTextTemplate: Option<Resource>,
                templateKeys: Option<seq<string>>, templateEncoding: string)
      ensures this.from == from && this.subject == subject && this.smtp == smtp
      ensures this.sleepTimeInMillis == sleepTimeInMillis
      ensures this.htmlTemplate == htmlTemplate && this.plainTextTemplate == plainTextTemplate
      ensures this.templateKeys == templateKeys && this.templateEncoding == templateEncoding
      ensures htmlTemplateString == None && plainTextTemplateString == None
      ensures Valid() && history == []
    {
      this.from := from;
      this.subject := subject;
      this.smtp := smtp;
      this.sleepTimeInMillis := sleepTimeInMillis;
      this.htmlTemplate := htmlTemplate;
      this.plainTextTemplate := plainTextTemplate;
      this.templateKeys := templateKeys;
      this.templateEncoding := templateEncoding;
      htmlTemplateString, plainTextTemplateString := None, None;
      successCount, skipCount, failures, log := 0, 0, [], [];
      history := [];
    }

    /** `validate`: an IllegalStateException exactly when neither template is configured. */
    function Validate(): (error: Option<Throwable>)
      ensures error.Some? <==> htmlTemplate.None? && plainTextTemplate.None?
      ensures error.Some? ==> error.value == IllegalState("At least one template needs to be provided")
    {
      if htmlTemplate.None? && plainTextTemplate.None?
      then Some(IllegalState("At least one template needs to be provided"))
      else None
    }

    /** `init`: loads both templates with `read` and starts an empty tally. */
    method Init(read: Resource -> string)
      modifies this
      ensures htmlTemplateString == LoadTemplate(htmlTemplate, read)
      ensures plainTextTemplateString == LoadTemplate(plainTextTemplate, read)
      ensures successCount == 0 && skipCount == 0 && failures == [] && log == []
      ensures history == [] && Valid()
    {
      htmlTemplateString := LoadTemplate(htmlTemplate, read);
      plainTextTemplateString := LoadTemplate(plainTextTemplate, read);
      successCount := 0;
      skipCount := 0;
      failures := [];
      log := [];
      history := [];
    }

    /**
      The three renderings of `run`, in its order: the plain-text body, the
      HTML body, then the subject, all with the same keys and values; the
      first one that stops the row is the answer.
     */
    method Prepare(values: Option<seq<Option<string>>>, fuel: nat) returns (p: Prepared)
      ensures p == PrepareMessage(plainTextTemplateString, htmlTemplateString, subject, templateKeys, values, fuel)
    {
      var plainTextBody := BuildBodyFromTemplate(plainTextTemplateString, templateKeys, values, fuel);
      if !plainTextBody.Rendered? {
        return NotPrepared(plainTextBody);
      }
      var htmlBody := BuildBodyFromTemplate(htmlTemplateString, templateKeys, values, fuel);
      if !htmlBody.Rendered? {
        return NotPrepared(htmlBody);
      }
      var preparedSubject := BuildBodyFromTemplate(subject, templateKeys, values, fuel);
      if !preparedSubject.Rendered? {
        return NotPrepared(preparedSubject);
      }
      p := Prepared(plainTextBody.text, htmlBody.text, preparedSubject.text);
    }

    /** Counts one completed row in its bucket, publishing a log message for a failure. */
    method Record(o: RowOutcome)
      requires Valid()
      requires o.Failed? ==> !o.result.successful
      modifies this
      ensures Valid() && history == old(history) + [o]
      ensures htmlTemplateString == old(htmlTemplateString) && plainTextTemplateString == old(plainTextTemplateString)
      ensures skipCount == old(skipCount) + (if o.Skipped? then 1 else 0)
      ensures successCount == old(successCount) + (if o.Succeeded? then 1 else 0)
      ensures failures == old(failures) + (if o.Failed? then [o.result] else [])
      ensures log == old(log) + (if o.Failed? then [FailureLogMessage(o.result)] else [])
    {
      TallyAppend(history, o);
      FailedRowsAppend(history, o);
      ghost var h := history + [o];
      match o {
        case Skipped =>
          assert Skips(h) == skipCount + 1 && Successes(h) == successCount && Failures(h) == failures;
          skipCount := skipCount + 1;
        case Succeeded =>
          assert Successes(h) == successCount + 1 && Skips(h) == skipCount && Failures(h) == failures;
          successCount := successCount + 1;
        case Failed(result) =>
          assert Failures(h) == failures + [result] && Successes(h) == successCount && Skips(h) == skipCount;
          FailureLogAppend(failures, result);
          failures := failures + [result];
          log := log + [FailureLogMessage(result)];
      }
      history := h;
    }

    /**
      `run` for one row with recipient `address` and template values
      `values`; `reply` is what the dispatcher answers if it is asked, and
      every substitution is allowed `fuel` passes. The address is checked
      first; then the plain-text body, the HTML body and the subject are
      rendered with the same keys and values, and the request is made with
      the template encoding as charset. When a rendering stops the row,
      nothing is counted.
     */
    method Run(address: Option<string>, values: Option<seq<Option<string>>>, reply: EmailResult, fuel: nat)
      returns (status: RunStatus)
      requires Valid()
      modifies this
      ensures Valid()
      ensures htmlTemplateString == old(htmlTemplateString) && plainTextTemplateString == old(plainTextTemplateString)
      ensures !ValidAddress(address) ==>
        status == RowSkipped && history == old(history) + [Skipped] &&
        skipCount == old(skipCount) + 1 && successCount == old(successCount) && failures == old(failures) && log == old(log)
      ensures ValidAddress(address) ==>
        match PrepareMessage(old(plainTextTemplateString), old(htmlTemplateString), subject, templateKeys, values, fuel)
        case NotPrepared(cause) =>
          status == RenderingStopped(cause) && history == old(history) &&
          successCount == old(successCount) && skipCount == old(skipCount) && failures == old(failures) && log == old(log)
        case Prepared(plain, html, subj) =>
          status == RowSent(MailRequest(address.value, subj, templateEncoding, plain, html, sleepTimeInMillis)) &&
          history == old(history) + [Classify(address, reply)] && skipCount == old(skipCount) &&
          (reply.successful ==> successCount == old(successCount) + 1 && failures == old(failures) && log == old(log)) &&
          (!reply.successful ==> successCount == old(successCount) && failures == old(failures) + [reply] &&
                                 log == old(log) + [FailureLogMessage(reply)])
    {
      if address.None? || address.value == [] || '@' !in address.value {
        Record(Skipped);
        return RowSkipped;
      }
      var prepared := Prepare(values, fuel);
      match prepared
      case NotPrepared(cause) =>
        status := RenderingStopped(cause);
      case Prepared(plain, html, subj) =>
        status := RowSent(MailRequest(address.value, subj, templateEncoding, plain, html, sleepTimeInMillis));
        Record(if reply.successful then Succeeded else Failed(reply));
    }

    /** `getResult`: the counts and failures, which between them account for every row run. */
    method GetResult() returns (r: AnalyzerResult)
      requires Valid()
      ensures r == AnalyzerResult(successCount, skipCount, failures)
      ensures r.successCount + r.skipCount + |r.failures| == |history|
      ensures forall e :: e in r.failures ==> !e.successful
    {
      TallyAddsUp(history);
      FailuresAreUnsuccessful(history);
      r := AnalyzerResult(successCount, skipCount, failures);
    }
  }
}
