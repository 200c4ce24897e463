/**
  Values shared by the emailing analyzers: the result of one send, the
  exceptions the analyzers see, the check on the recipient address, and the
  skip/success/failure tally kept over the rows an analyzer has run.
 */
module Mail {

  import opened Wrappers

  /**
    Where a throwable sits in Java's hierarchy: a checked `Exception`, a
    `RuntimeException`, or an `Error`. Only the first two are `Exception`s.
   */
  datatype ThrowableKind = Checked | Runtime | Error

  /** A Java throwable: its class, its message (null is None), its kind and the throwable that caused it. */
  datatype Throwable = Throwable(className: string, message: Option<string>, kind: ThrowableKind, cause: Option<Throwable>)

  /** `new IllegalStateException(message)`. */
  function IllegalState(message: string): (e: Throwable)
    ensures e.kind == Runtime && e.message == Some(message) && e.cause.None?
  {
    Throwable("java.lang.IllegalStateException", Some(message), Runtime, None)
  }

  /** `EmailResult`: who the email was for, whether it went out, and the exception if one was caught. */
  datatype EmailResult = EmailResult(recipient: string, successful: bool, error: Option<Throwable>)

  /** The arguments of the six-argument `sendMail(to, subject, charset, plain, html, sleep)` of the newer dispatcher. */
  datatype MailRequest = MailRequest(to: string, subject: Option<string>, charset: string,
                                     plainBody: Option<string>, htmlBody: Option<string>, sleepMillis: int)

  /** What `getResult` hands to the host: the two counts and the failed results. */
  datatype AnalyzerResult = AnalyzerResult(successCount: nat, skipCount: nat, failures: seq<EmailResult>)

  /** The connection settings an analyzer is configured with. */
  datatype SmtpSettings = SmtpSettings(host: string, port: int, username: Option<string>, password: Option<string>,
                                       tls: bool, ssl: bool)

  /**
    The address check of the value analyzers and the newer template analyzer:
    a row is sent only when `Strings.isNullOrEmpty(address)` is false and
    `address.indexOf('@')` is not -1.
   */
  predicate ValidAddress(address: Option<string>)
  {
    address.Some? && address.value != [] && '@' in address.value
  }

  /**
    An `@` anywhere makes an address valid; nothing else about its syntax is
    looked at, and the emptiness test adds nothing to the `@` test.
   */
  lemma ValidAddressIsAtSign()
    ensures forall a: string :: ValidAddress(Some(a)) <==> '@' in a
  {
  }

  /** What one completed `run` did with its row. */
  datatype RowOutcome = Skipped | Succeeded | Failed(result: EmailResult)

  /**
    The outcome of a row: skipped when the address check fails, otherwise
    decided by the dispatcher's answer `reply`.
   */
  function Classify(address: Option<string>, reply: EmailResult): (o: RowOutcome)
    ensures o.Skipped? <==> !ValidAddress(address)
    ensures o.Succeeded? <==> ValidAddress(address) && reply.successful
    ensures o.Failed? <==> ValidAddress(address) && !reply.successful
    ensures o.Failed? ==> o.result == reply
  {
    if !ValidAddress(address) then Skipped
    else if reply.successful then Succeeded
    else Failed(reply)
  }

  /** The number of rows in `h` that were sent successfully. */
  function Successes(h: seq<RowOutcome>): nat
    decreases |h|
  {
    if h == [] then 0 else Successes(h[..|h| - 1]) + (if h[|h| - 1].Succeeded? then 1 else 0)
  }

  /** The number of rows in `h` that were skipped. */
  function Skips(h: seq<RowOutcome>): nat
    decreases |h|
  {
    if h == [] then 0 else Skips(h[..|h| - 1]) + (if h[|h| - 1].Skipped? then 1 else 0)
  }

  /** The failed results in `h`, in the order the rows were run. */
  function Failures(h: seq<RowOutcome>): seq<EmailResult>
    decreases |h|
  {
    if h == [] then []
    else Failures(h[..|h| - 1]) + (if h[|h| - 1].Failed? then [h[|h| - 1].result] else [])
  }

  /** Every row run lands in exactly one of the three buckets. */
  lemma {:induction false} TallyAddsUp(h: seq<RowOutcome>)
    ensures Successes(h) + Skips(h) + |Failures(h)| == |h|
    decreases |h|
  {
    if h != [] {
      TallyAddsUp(h[..|h| - 1]);
    }
  }

  /** One more row moves exactly one bucket by one. */
  lemma TallyAppend(h: seq<RowOutcome>, o: RowOutcome)
    ensures Successes(h + [o]) == Successes(h) + (if o.Succeeded? then 1 else 0)
    ensures Skips(h + [o]) == Skips(h) + (if o.Skipped? then 1 else 0)
    ensures Failures(h + [o]) == Failures(h) + (if o.Failed? then [o.result] else [])
  {
    assert (h + [o])[..|h|] == h;
  }

  /** Every failed row in `h` carries a result the dispatcher reported as unsuccessful, as `run` files them. */
  ghost predicate FailedRowsUnsuccessful(h: seq<RowOutcome>)
  {
    forall i :: 0 <= i < |h| ==> h[i].Failed? ==> !h[i].result.successful
  }

  /** A row filed as `run` files it keeps every failed row unsuccessful. */
  lemma FailedRowsAppend(h: seq<RowOutcome>, o: RowOutcome)
    requires FailedRowsUnsuccessful(h) && (o.Failed? ==> !o.result.successful)
    ensures FailedRowsUnsuccessful(h + [o])
  {
    assert forall i :: 0 <= i < |h| ==> (h + [o])[i] == h[i];
  }

  /** Every failure recorded is a result the dispatcher reported as unsuccessful. */
  lemma {:induction false} FailuresAreUnsuccessful(h: seq<RowOutcome>)
    requires FailedRowsUnsuccessful(h)
    ensures forall r :: r in Failures(h) ==> !r.successful
    decreases |h|
  {
    if h != [] {
      FailuresAreUnsuccessful(h[..|h| - 1]);
    }
  }

  const FailurePrefix := "Sending of email to '"

  /**
    The execution-log message published for a failed result:
    "Sending of email to '" + recipient + " failed! " followed by the
    error's message, where Java writes a null message as "null", and
    nothing when the result carries no error.
   */
  function FailureLogMessage(result: EmailResult): string
  {
    FailurePrefix + result.recipient + " failed! " +
    (if result.error.None? then ""
     else if result.error.value.message.None? then "null"
     else result.error.value.message.value)
  }

  /** The message names the recipient right after the fixed prefix and ends with the error's message. */
  lemma FailureLogMessageNamesRecipient(result: EmailResult)
    ensures var m := FailureLogMessage(result);
      var n := |FailurePrefix| + |result.recipient|;
      n + 9 <= |m| && m[..|FailurePrefix|] == FailurePrefix && m[|FailurePrefix|..n] == result.recipient &&
      m[n..n + 9] == " failed! " &&
      (result.error.None? ==> |m| == n + 9) &&
      (result.error.Some? && result.error.value.message.Some? ==> m[n + 9..] == result.error.value.message.value)
  {
  }

  /** The log of the newer analyzers: one message per failure, in the same order. */
  function FailureLog(failures: seq<EmailResult>): seq<string>
    decreases |failures|
  {
    if failures == [] then []
    else FailureLog(failures[..|failures| - 1]) + [FailureLogMessage(failures[|failures| - 1])]
  }

  /** The log has exactly one entry per failure, the i-th naming the i-th failure. */
  lemma {:induction false} FailureLogEntries(failures: seq<EmailResult>)
    ensures |FailureLog(failures)| == |failures|
    ensures forall i :: 0 <= i < |failures| ==> FailureLog(failures)[i] == FailureLogMessage(failures[i])
    decreases |failures|
  {
    if failures != [] {
      FailureLogEntries(failures[..|failures| - 1]);
    }
  }

  /** A new failure adds its message at the end of the log. */
  lemma FailureLogAppend(failures: seq<EmailResult>, result: EmailResult)
    ensures FailureLog(failures + [result]) == FailureLog(failures) + [FailureLogMessage(result)]
  {
    assert (failures + [result])[..|failures|] == failures;
  }
}
