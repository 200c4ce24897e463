/**
  The newer `SendEmailUsingValueAnalyzer`: every row carries its own subject,
  recipient and body. A row with an unusable address is skipped; otherwise the
  row's values are handed to the dispatcher, and its answer is counted as a
  success or kept as a failure, with one execution-log message per failure.
 */
module ValueAnalyzer {

  import opened Wrappers
  import opened Mail

  class SendEmailUsingValueAnalyzer {
    const from: string
    const htmlEmail: bool
    const smtp: SmtpSettings
    const sleepTimeInMillis: int

    var successCount: nat
    var skipCount: nat
    var failures: seq<EmailResult>
    /** The messages this analyzer has published to the host's execution log since `initialize`. */
    var log: seq<string>
    /** What each completed `run` did, in order. */
    ghost var history: seq<RowOutcome>

    /**
      The counters and the failures are the tally of the rows run; the log has
      one message per failure; every failed row carries an unsuccessful result.
     */
    ghost predicate Valid()
      reads this
    {
      successCount == Successes(history) && skipCount == Skips(history) &&
      failures == Failures(history) && log == FailureLog(failures) &&
      FailedRowsUnsuccessful(history)
    }

    /** A configured analyzer before `initialize`. */
    constructor(from: string, htmlEmail: bool, smtp: SmtpSettings, sleepTimeInMillis: int)
      ensures this.from == from && this.htmlEmail == htmlEmail && this.smtp == smtp
      ensures this.sleepTimeInMillis == sleepTimeInMillis
      ensures Valid() && history == []
    {
      this.from := from;
      this.htmlEmail := htmlEmail;
      this.smtp := smtp;
      this.sleepTimeInMillis := sleepTimeInMillis;
      successCount, skipCount, failures, log := 0, 0, [], [];
      history := [];
    }

    /** `initialize`: both counts at zero, no failures. */
    method Initialize()
      modifies this
      ensures successCount == 0 && skipCount == 0 && failures == [] && log == []
      ensures history == [] && Valid()
    {
      successCount := 0;
      skipCount := 0;
      failures := [];
      log := [];
      history := [];
    }

    /** Counts one completed row in its bucket, publishing a log message for a failure. */
    method Record(o: RowOutcome)
      requires Valid()
      requires o.Failed? ==> !o.result.successful
      modifies this
      ensures Valid() && history == old(history) + [o]
      ensures skipCount == old(skipCount) + (if o.Skipped? then 1 else 0)
      ensures successCount == old(successCount) + (if o.Succeeded? then 1 else 0)
      ensures failures == old(failures) + (if o.Failed? then [o.result] else [])
      ensures log == old(log) + (if o.Failed? then [FailureLogMessage(o.result)] else [])
    {
      TallyAppend(history, o);
      FailedRowsAppend(history, o);
      ghost var h := history + [o];
      match o {
        case Skipped =>
          assert Skips(h) == skipCount + 1 && Successes(h) == successCount && Failures(h) == failures;
          skipCount := skipCount + 1;
        case Succeeded =>
          assert Successes(h) == successCount + 1 && Skips(h) == skipCount && Failures(h) == failures;
          successCount := successCount + 1;
        case Failed(result) =>
          assert Failures(h) == failures + [result] && Successes(h) == successCount && Skips(h) == skipCount;
          FailureLogAppend(failures, result);
          failures := failures + [result];
          log := log + [FailureLogMessage(result)];
      }
      history := h;
    }

    /**
      `run` for one row. `reply` is what the dispatcher answers if it is
      asked; `sent` is the request made, None for a skipped row. The request
      carries the row's subject, its body as the plain-text body, no HTML
      body and the charset "UTF-8", whatever `htmlEmail` says.
     */
    method Run(subject: Option<string>, address: Option<string>, body: Option<string>, reply: EmailResult)
      returns (sent: Option<MailRequest>)
      requires Valid()
      modifies this
      ensures Valid()
      ensures sent.Some? <==> ValidAddress(address)
      ensures sent.Some? ==> sent.value == MailRequest(address.value, subject, "UTF-8", body, None, sleepTimeInMillis)
      ensures history == old(history) + [Classify(address, reply)]
      ensures !ValidAddress(address) ==>
        skipCount == old(skipCount) + 1 && successCount == old(successCount) && failures == old(failures) && log == old(log)
      ensures ValidAddress(address) && reply.successful ==>
        successCount == old(successCount) + 1 && skipCount == old(skipCount) && failures == old(failures) && log == old(log)
      ensures ValidAddress(address) && !reply.successful ==>
        failures == old(failures) + [reply] && log == old(log) + [FailureLogMessage(reply)] &&
        successCount == old(successCount) && skipCount == old(skipCount)
    {
      if address.None? || address.value == [] || '@' !in address.value {
        Record(Skipped);
        return None;
      }
      sent := Some(MailRequest(address.value, subject, "UTF-8", body, None, sleepTimeInMillis));
      Record(if reply.successful then Succeeded else Failed(reply));
    }

    /** `getResult`: the counts and failures, which between them account for every row run. */
    method GetResult() returns (r: AnalyzerResult)
      requires Valid()
      ensures r == AnalyzerResult(successCount, skipCount, failures)
      ensures r.successCount + r.skipCount + |r.failures| == |history|
      ensures forall e :: e in r.failures ==> !e.successful
    {
      TallyAddsUp(history);
      FailuresAreUnsuccessful(history);
      r := AnalyzerResult(successCount, skipCount, failures);
    }
  }
}
