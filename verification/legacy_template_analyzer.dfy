/**
  The legacy `SendEmailUsingTemplateAnalyzer`: every row's templates and
  subject are rendered with the row's template values and sent through a
  legacy `EmailDispatcher` made afresh for the row. There is no address
  check and no tally: `getResult` reports an empty result whatever ran.
 */
module LegacyTemplateAnalyzer {

  import opened Wrappers
  import opened Mail
  import opened TemplateSubstitution
  import opened Dispatcher

  /** How a call of `run` ended. */
  datatype RunStatus =
    | RenderingStopped(cause: Rendering)  // an exception or a loop that does not stop, out of `buildBodyFromTemplate`
    | Dispatched(message: MimeMessage, outcome: SendOutcome)  // the message built and how `sendMail` ended

  /** The message the legacy dispatcher built from these settings sends for a prepared row. */
  function DispatchedMessage(smtp: SmtpSettings, from: string, to: Option<string>, charset: string, p: Prepared): MimeMessage
    requires p.Prepared?
  {
    MessageFor(SmtpProperties(smtp.host, smtp.port, smtp.username, smtp.password, smtp.tls, smtp.ssl),
               smtp.username, smtp.password, from, to, p.subject, charset, p.plain, p.html)
  }

  class SendEmailUsingTemplateAnalyzer {
    const from: string
    const subject: Option<string>
    const smtp: SmtpSettings
    const htmlTemplate: Option<Resource>
    const plainTextTemplate: Option<Resource>
    const templateKeys: Option<seq<string>>
    const templateEncoding: string

    var htmlTemplateString: Option<string>
    var plainTextTemplateString: Option<string>

    /** A configured analyzer before `init`: no template text loaded yet. */
    constructor(from: string, subject: Option<string>, smtp: SmtpSettings,
                htmlTemplate: Option<Resource>, plainTextTemplate: Option<Resource>,
                templateKeys: Option<seq<string>>, templateEncoding: string)
      ensures this.from == from && this.subject == subject && this.smtp == smtp
      ensures this.htmlTemplate == htmlTemplate && this.plainTextTemplate == plainTextTemplate
      ensures this.templateKeys == templateKeys && this.templateEncoding == templateEncoding
      ensures htmlTemplateString == None && plainTextTemplateString == None
    {
      this.from := from;
      this.subject := subject;
      this.smtp := smtp;
      this.htmlTemplate := htmlTemplate;
      this.plainTextTemplate := plainTextTemplate;
      this.templateKeys := templateKeys;
      this.templateEncoding := templateEncoding;
      htmlTemplateString, plainTextTemplateString := None, None;
    }

    /** `validate`: an IllegalStateException exactly when neither template is configured. */
    function Validate(): (error: Option<Throwable>)
      ensures error.Some? <==> htmlTemplate.None? && plainTextTemplate.None?
      ensures error.Some? ==> error.value == IllegalState("At least one template needs to be provided")
    {
      if htmlTemplate.None? && plainTextTemplate.None?
      then Some(IllegalState("At least one template needs to be provided"))
      else None
    }

    /** `init`: loads both templates with `read`; there is nothing else to reset. */
    method Init(read: Resource -> string)
      modifies this
      ensures htmlTemplateString == LoadTemplate(htmlTemplate, read)
      ensures plainTextTemplateString == LoadTemplate(plainTextTemplate, read)
    {
      htmlTemplateString := LoadTemplate(htmlTemplate, read);
      plainTextTemplateString := LoadTemplate(plainTextTemplate, read);
    }

    /**
      `run` for one row with recipient `address` and template values
      `values`; `transport` is what the mail library does with a message,
      and every substitution is allowed `fuel` passes. The plain-text body
      and the HTML body are rendered, a dispatcher is made from the
      connection settings, the subject is rendered with the same keys and
      values, and the message is sent to `address` as it is, valid or not,
      with the template encoding as charset.
     */
    method Run(address: Option<string>, values: Option<seq<Option<string>>>, transport: MimeMessage -> Delivery,
               fuel: nat) returns (status: RunStatus)
      ensures var p := PrepareMessage(plainTextTemplateString, htmlTemplateString, subject, templateKeys, values, fuel);
        (p.NotPrepared? ==> status == RenderingStopped(p.cause)) &&
        (p.Prepared? ==>
          var message := DispatchedMessage(smtp, from, address, templateEncoding, p);
          status == Dispatched(message, OutcomeOf(transport(message))))
      ensures status.Dispatched? ==>
        status.message.to == address &&
        status.message.session.properties == SmtpProperties(smtp.host, smtp.port, smtp.username, smtp.password, smtp.tls, smtp.ssl) &&
        (status.outcome.Threw? ==> status.outcome.error.kind != Checked)
    {
      ghost var prepared := PrepareMessage(plainTextTemplateString, htmlTemplateString, subject, templateKeys, values, fuel);
      var plainTextBody := BuildBodyFromTemplate(plainTextTemplateString, templateKeys, values, fuel);
      if !plainTextBody.Rendered? {
        assert prepared == NotPrepared(plainTextBody);
        return RenderingStopped(plainTextBody);
      }
      var htmlBody := BuildBodyFromTemplate(htmlTemplateString, templateKeys, values, fuel);
      if !htmlBody.Rendered? {
        assert prepared == NotPrepared(htmlBody);
        return RenderingStopped(htmlBody);
      }
      var dispatcher := new EmailDispatcher(smtp.host, smtp.port, smtp.username, smtp.password, from, smtp.tls, smtp.ssl);
      var preparedSubject := BuildBodyFromTemplate(subject, templateKeys, values, fuel);
      if !preparedSubject.Rendered? {
        assert prepared == NotPrepared(preparedSubject);
        return RenderingStopped(preparedSubject);
      }
      assert prepared == Prepared(plainTextBody.text, htmlBody.text, preparedSubject.text);
      var message, outcome := dispatcher.SendMail(address, preparedSubject.text, templateEncoding,
                                                  plainTextBody.text, htmlBody.text, transport);
      status := Dispatched(message, outcome);
    }

    /** `getResult`: an empty result, with no successes, no skips and no failures, whatever was run. */
    method GetResult() returns (r: AnalyzerResult)
      ensures r.successCount == 0 && r.skipCount == 0 && r.failures == []
    {
      r := AnalyzerResult(0, 0, []);
    }
  }
}
