# DataCleaner emailing analyzers, modelled in Dafny

This project models the core of the DataCleaner emailing extension. That core is made of four row analyzers and one mail dispatcher:

- the newer `SendEmailUsingTemplateAnalyzer` and `SendEmailUsingValueAnalyzer` (package `org.datacleaner.extension.emailing`);
- their legacy counterparts (package `org.eobjects.datacleaner.extension.emailing`);
- the legacy `EmailDispatcher`.

The template analyzers render a plain-text body, an HTML body and a subject for every row. They substitute configured keys by the row's values, using a literal search-and-replace loop (`replaceAll`). The value analyzers take the subject, recipient and body straight from the row. The newer analyzers and the legacy value analyzer skip rows whose recipient is null, empty or has no `@`. They count the rows skipped and the rows sent successfully, and they keep the failed results. The newer ones also publish one execution-log message per failure. The legacy template analyzer checks no address and keeps no tally. It builds a fresh legacy `EmailDispatcher` for every row. The dispatcher turns its settings into SMTP session properties, builds one MIME message per call and hands it to the mail library.

Files, one module each:

- `wrappers.dfy` (`Wrappers`): the `Option` type, which stands for Java's null.
- `java_strings.dfy` (`JavaStrings`): `String.trim` and the blank-key test, `indexOf(key, from)`, `String.replace`, and `Integer.toString` with its parse partner.
- `template.dfy` (`TemplateSubstitution`): `replaceAll` and `buildBodyFromTemplate`. Both template analyzers hold the same text of these two methods, so they are modelled once.
- `mail.dfy` (`Mail`): the shared values, the address check, the skip/success/failure tally and the failure log message.
- `dispatcher.dfy` (`Dispatcher`): the legacy `EmailDispatcher`.
- `template_analyzer.dfy`, `legacy_template_analyzer.dfy`, `value_analyzer.dfy`, `legacy_value_analyzer.dfy`: one class per analyzer.

How the Java code is represented:

- **Loops that may not stop.** `replaceAll` is a `while (true)` loop. Each pass replaces every occurrence of the key in the whole template, then searches again from the position found plus the length of the value. A value no longer than its key always lets the loop stop. A value longer than its key that contains it can keep the loop going: with key `A`, value `AA` and template `AA`, every pass doubles the text, so in Java the call does not return normally and ends with an `OutOfMemoryError` once the text outgrows what a Java string can hold. Other such values still stop, for example key `KEY` and value `KEYVALUE` in the template `KEY`, which ends after one pass. The model has unbounded strings and gives the loop a budget `fuel` of passes. A result of `None` (or `Diverged` for a rendering) means the loop had not stopped after `fuel` passes. The proofs show both sides:
  - with a value no longer than its key, `FuelBound(template)` passes always suffice;
  - with key `A`, value `AA` and a template of at least two `A`s, no budget suffices.
- **The dispatcher's answer is an input.** For the newer analyzers it is the `EmailResult` the newer dispatcher would return. For the legacy dispatcher it is a function `transport` from the message built to what the mail library did with it.
- **Exceptions inside rendering.** `values.get(i)` with too few values throws `IndexOutOfBoundsException`. This is a `Rendering` outcome, and the row then leaves every counter unchanged.

Each pass replaces every occurrence in the whole text (`String.replace`); the search does not resume after the inserted value, so a value that contains its key can keep the loop going.

## Model

| member | source | states |
|---|---|---|
| JavaStrings.BlankIsTrimmedEmpty | src/main/java/org/datacleaner/extension/emailing/SendEmailUsingTemplateAnalyzer.java:192 | a key is blank (every character at most the space) exactly when `trim` leaves it empty |
| JavaStrings.IndexOfFirst | src/main/java/org/datacleaner/extension/emailing/SendEmailUsingTemplateAnalyzer.java:202 | `indexOf(key, from)` finds an occurrence at or after `from`, and no occurrence lies between `from` and it; when it finds nothing, there is no occurrence at or after `from` |
| JavaStrings.ReplaceAbsent | src/main/java/org/datacleaner/extension/emailing/SendEmailUsingTemplateAnalyzer.java:207 | `String.replace` of a text that does not occur leaves the string unchanged |
| JavaStrings.ReplaceSelf | src/main/java/org/datacleaner/extension/emailing/SendEmailUsingTemplateAnalyzer.java:207 | replacing a text by itself leaves the string unchanged |
| JavaStrings.ReplaceLength | src/main/java/org/datacleaner/extension/emailing/SendEmailUsingTemplateAnalyzer.java:207 | a value no longer than the key never lengthens the string; an equally long one keeps its length; a shorter one shortens it whenever the key occurs |
| JavaStrings.DigitsRoundTrip | src/main/java/org/eobjects/datacleaner/extension/emailing/EmailDispatcher.java:55 | the decimal numeral of a natural number parses back to that number |
| JavaStrings.DecimalRoundTrip | src/main/java/org/eobjects/datacleaner/extension/emailing/EmailDispatcher.java:55 | `smtpPort + ""` is a well-formed, optionally signed numeral that parses back to the port |
| TemplateSubstitution.ReplaceAll | src/main/java/org/datacleaner/extension/emailing/SendEmailUsingTemplateAnalyzer.java:191-212 | the loop returns what the replace-loop specification `Substituted` gives: the template for a blank key, otherwise the text after the passes, or None when `fuel` passes do not end the loop; the legacy analyzer's copy (lines 148-169 of its file) is the same text |
| TemplateSubstitution.ReplaceLoopExit | src/main/java/org/datacleaner/extension/emailing/SendEmailUsingTemplateAnalyzer.java:200-209 | when the loop stops, the key occurs nowhere at or after the final `fromIndex` |
| TemplateSubstitution.BlankKeyUnchanged | src/main/java/org/datacleaner/extension/emailing/SendEmailUsingTemplateAnalyzer.java:192-194 | a key that trims to nothing returns the template unchanged, whatever the budget |
| TemplateSubstitution.NullValueIsLiteral | src/main/java/org/datacleaner/extension/emailing/SendEmailUsingTemplateAnalyzer.java:196-198 | a null value is substituted exactly like the text `<null>` |
| TemplateSubstitution.AbsentKeyUnchanged | src/main/java/org/datacleaner/extension/emailing/SendEmailUsingTemplateAnalyzer.java:200-205 | a key that does not occur returns the template unchanged, with no pass needed |
| TemplateSubstitution.PassDecreases | src/main/java/org/datacleaner/extension/emailing/SendEmailUsingTemplateAnalyzer.java:202-208 | one pass with a value no longer than the key strictly decreases the measure (squared length, then distance of `fromIndex` to the end) and never lengthens the text |
| TemplateSubstitution.LoopTerminates | src/main/java/org/datacleaner/extension/emailing/SendEmailUsingTemplateAnalyzer.java:200-209 | with a value no longer than the key, the loop stops within the measure's number of passes, with a text no longer than before |
| TemplateSubstitution.SubstitutionTerminates | src/main/java/org/datacleaner/extension/emailing/SendEmailUsingTemplateAnalyzer.java:191-212 | a blank key, or a value no longer than the key, makes `replaceAll` return within `FuelBound(template)` passes, with a result no longer than the template |
| TemplateSubstitution.ReplaceDoubles | src/main/java/org/datacleaner/extension/emailing/SendEmailUsingTemplateAnalyzer.java:207 | replacing `A` by `AA` in n letters `A` gives 2n letters `A` |
| TemplateSubstitution.FoundAtOnce | src/main/java/org/datacleaner/extension/emailing/SendEmailUsingTemplateAnalyzer.java:202 | inside a run of `A`s, the search for `A` finds the position it starts from |
| TemplateSubstitution.LoopDiverges | src/main/java/org/datacleaner/extension/emailing/SendEmailUsingTemplateAnalyzer.java:200-209 | with key `A` and value `AA`, on a run of at least two `A`s no number of passes ends the loop (each pass doubles the text, so in Java it ends in an `OutOfMemoryError`) |
| TemplateSubstitution.SubstitutionDiverges | src/main/java/org/datacleaner/extension/emailing/SendEmailUsingTemplateAnalyzer.java:191-212 | `replaceAll("AA", "A", "AA")` does not return normally for any budget of passes |
| TemplateSubstitution.ExampleAllOccurrences | src/main/java/org/datacleaner/extension/emailing/SendEmailUsingTemplateAnalyzer.java:207 | one pass replaces every occurrence: `A-A` with `A` replaced by `B` becomes `B-B` in one pass |
| TemplateSubstitution.ExampleValueContainsKey | src/main/java/org/datacleaner/extension/emailing/SendEmailUsingTemplateAnalyzer.java:202-208 | a value containing its key that ends the template is not substituted again: `KEY` becomes `KEYVALUE` |
| TemplateSubstitution.ExampleUntrimmedKey | src/main/java/org/datacleaner/extension/emailing/SendEmailUsingTemplateAnalyzer.java:192-202 | the key is trimmed only for the blank test; the search uses it with its spaces |
| TemplateSubstitution.ApplyPairsStopped | src/main/java/org/datacleaner/extension/emailing/SendEmailUsingTemplateAnalyzer.java:170-174 | once a pair has thrown or not stopped, the later pairs leave the outcome as it is |
| TemplateSubstitution.BuildBodyFromTemplate | src/main/java/org/datacleaner/extension/emailing/SendEmailUsingTemplateAnalyzer.java:166-176 | a null template, key array or value list passes the template through; otherwise the pairs are applied in order, and a missing value is an out-of-range index; the legacy analyzer's copy (lines 123-133 of its file) is the same text |
| TemplateSubstitution.ApplyPairsFirstGroup | src/main/java/org/datacleaner/extension/emailing/SendEmailUsingTemplateAnalyzer.java:170-174 | applying the first pairs of a longer list is the same as applying them on their own |
| TemplateSubstitution.ApplyPairsSecondGroup | src/main/java/org/datacleaner/extension/emailing/SendEmailUsingTemplateAnalyzer.java:170-174 | the pairs after the first group act on the first group's result, with indices shifted by the group's size |
| TemplateSubstitution.RenderSequential | src/main/java/org/datacleaner/extension/emailing/SendEmailUsingTemplateAnalyzer.java:166-176 | rendering with two groups of pairs is rendering with the first group, then with the second on its result |
| TemplateSubstitution.ExampleSequentialPairs | src/main/java/org/datacleaner/extension/emailing/SendEmailUsingTemplateAnalyzer.java:170-174 | pairs act in turn on each other's output: `AB` with `A`→`B`, then `B`→`C`, renders `CC` |
| TemplateSubstitution.ApplyPairsTerminates | src/main/java/org/datacleaner/extension/emailing/SendEmailUsingTemplateAnalyzer.java:170-174 | with enough values, and every value no longer than its non-blank key, every prefix of the pairs renders within the budget to a text no longer than the template |
| TemplateSubstitution.RenderTerminates | src/main/java/org/datacleaner/extension/emailing/SendEmailUsingTemplateAnalyzer.java:166-176 | under the same conditions, `buildBodyFromTemplate` returns a text |
| TemplateSubstitution.SubjectUsesSameBindings | src/main/java/org/datacleaner/extension/emailing/SendEmailUsingTemplateAnalyzer.java:146-150 | a prepared message's subject, plain body and HTML body are the renderings of the subject and the two templates with the same keys and values |
| Mail.ValidAddressIsAtSign | src/main/java/org/datacleaner/extension/emailing/SendEmailUsingValueAnalyzer.java:94 | a non-null address passes the check exactly when it contains `@`; the emptiness test adds nothing |
| Mail.Classify | src/main/java/org/datacleaner/extension/emailing/SendEmailUsingValueAnalyzer.java:94-111 | a row is skipped exactly when its address fails the check, succeeds exactly when it passes and the dispatcher reports success, and otherwise fails with the dispatcher's result |
| Mail.TallyAddsUp | src/main/java/org/datacleaner/extension/emailing/SendEmailUsingValueAnalyzer.java:114-117 | successes + skips + failures equals the number of rows run |
| Mail.TallyAppend | src/main/java/org/datacleaner/extension/emailing/SendEmailUsingValueAnalyzer.java:94-111 | one more row moves exactly one of the three buckets, by one |
| Mail.FailedRowsAppend | src/main/java/org/datacleaner/extension/emailing/SendEmailUsingValueAnalyzer.java:102-105 | filing a row as `run` does, a result as a failure only when it is unsuccessful, keeps every failed row in the history unsuccessful |
| Mail.FailuresAreUnsuccessful | src/main/java/org/datacleaner/extension/emailing/SendEmailUsingValueAnalyzer.java:102-105 | in a history where every failed row is unsuccessful, which each analyzer's invariant maintains, every failure kept is a result the dispatcher reported as unsuccessful |
| Mail.FailureLogMessageNamesRecipient | src/main/java/org/datacleaner/extension/emailing/SendEmailUsingValueAnalyzer.java:108-110 | the log message is the fixed prefix, the recipient, ` failed! ` and the error's message (nothing without an error) |
| Mail.FailureLogEntries | src/main/java/org/datacleaner/extension/emailing/SendEmailUsingValueAnalyzer.java:104-110 | the log holds one message per failure, the i-th for the i-th failure |
| Mail.FailureLogAppend | src/main/java/org/datacleaner/extension/emailing/SendEmailUsingValueAnalyzer.java:105-110 | a new failure appends its message at the end of the log |
| Dispatcher.SmtpPropertiesEntries | src/main/java/org/eobjects/datacleaner/extension/emailing/EmailDispatcher.java:53-68 | host and port are always set; `auth` is set iff both credentials are non-null; the socket-factory pair is set iff SSL; STARTTLS is set iff TLS; no other key |
| Dispatcher.SmtpPortReadsBack | src/main/java/org/eobjects/datacleaner/extension/emailing/EmailDispatcher.java:55 | the port entry reads back as the configured port |
| Dispatcher.RethrownIsUnchecked | src/main/java/org/eobjects/datacleaner/extension/emailing/EmailDispatcher.java:101-106 | `sendMail` lets out only unchecked throwables: a runtime exception or an `Error` unchanged (`catch (Exception e)` does not catch an `Error`), a checked exception wrapped as `IllegalStateException("Failed to send email")` with it as cause |
| Dispatcher.AuthenticatedIffCredentials | src/main/java/org/eobjects/datacleaner/extension/emailing/EmailDispatcher.java:73-83 | the session has an authenticator iff both credentials are non-null, and it answers with those credentials |
| Dispatcher.HtmlBodyWins | src/main/java/org/eobjects/datacleaner/extension/emailing/EmailDispatcher.java:92-98 | the HTML body wins; the plain body is used only without one; with neither the message has no content |
| Dispatcher.EmailDispatcher.FillProperties | src/main/java/org/eobjects/datacleaner/extension/emailing/EmailDispatcher.java:53-68 | the properties filled one `setProperty`/`put` at a time are the map `SmtpProperties` of the settings |
| Dispatcher.EmailDispatcher.constructor | src/main/java/org/eobjects/datacleaner/extension/emailing/EmailDispatcher.java:47-69 | the authenticated dispatcher keeps the credentials and sender, and its properties are those of its settings |
| Dispatcher.EmailDispatcher.Unauthenticated | src/main/java/org/eobjects/datacleaner/extension/emailing/EmailDispatcher.java:32-34 | the five-argument dispatcher is the seven-argument one with null credentials, so it never sets `auth` |
| Dispatcher.EmailDispatcher.SendMail | src/main/java/org/eobjects/datacleaner/extension/emailing/EmailDispatcher.java:71-107 | the message built is `MessageFor` the dispatcher's session, sender, recipient, subject and bodies; the call ends as the transport's delivery says, and anything it throws is unchecked: a checked exception comes out wrapped, a runtime exception or `Error` unchanged |
| TemplateAnalyzer.SendEmailUsingTemplateAnalyzer.Validate | src/main/java/org/datacleaner/extension/emailing/SendEmailUsingTemplateAnalyzer.java:105-110 | `validate` throws `IllegalStateException("At least one template needs to be provided")` exactly when both templates are null |
| TemplateAnalyzer.SendEmailUsingTemplateAnalyzer.Init | src/main/java/org/datacleaner/extension/emailing/SendEmailUsingTemplateAnalyzer.java:112-120 | `init` loads both templates and starts an empty tally and log |
| TemplateAnalyzer.SendEmailUsingTemplateAnalyzer.Prepare | src/main/java/org/datacleaner/extension/emailing/SendEmailUsingTemplateAnalyzer.java:146-150 | the plain body, the HTML body and the subject are rendered in that order; the first rendering that throws or does not stop is the answer |
| TemplateAnalyzer.SendEmailUsingTemplateAnalyzer.Record | src/main/java/org/datacleaner/extension/emailing/SendEmailUsingTemplateAnalyzer.java:138-163 | counting one row, a failure only for an unsuccessful result, moves exactly its bucket, logs a failure's message, and keeps the tally invariant |
| TemplateAnalyzer.SendEmailUsingTemplateAnalyzer.Run | src/main/java/org/datacleaner/extension/emailing/SendEmailUsingTemplateAnalyzer.java:134-164 | an invalid address is skipped before any rendering; a rendering that stops the row changes nothing; otherwise the request has the rendered parts and the template encoding, and the dispatcher's answer is tallied and, on failure, logged |
| TemplateAnalyzer.SendEmailUsingTemplateAnalyzer.GetResult | src/main/java/org/datacleaner/extension/emailing/SendEmailUsingTemplateAnalyzer.java:178-181 | the result holds the two counts and the failures, which together account for every row run; every failure in it is an unsuccessful result |
| LegacyTemplateAnalyzer.SendEmailUsingTemplateAnalyzer.Validate | src/main/java/org/eobjects/datacleaner/extension/emailing/SendEmailUsingTemplateAnalyzer.java:81-86 | `validate` throws exactly when both templates are null |
| LegacyTemplateAnalyzer.SendEmailUsingTemplateAnalyzer.Init | src/main/java/org/eobjects/datacleaner/extension/emailing/SendEmailUsingTemplateAnalyzer.java:88-92 | `init` sets the two template strings and nothing else |
| LegacyTemplateAnalyzer.SendEmailUsingTemplateAnalyzer.Run | src/main/java/org/eobjects/datacleaner/extension/emailing/SendEmailUsingTemplateAnalyzer.java:106-121 | with no address check, a rendered row is sent to the address as given, through a dispatcher made from this analyzer's settings; a rendering that stops the row sends nothing; what the dispatcher throws is unchecked |
| LegacyTemplateAnalyzer.SendEmailUsingTemplateAnalyzer.GetResult | src/main/java/org/eobjects/datacleaner/extension/emailing/SendEmailUsingTemplateAnalyzer.java:135-138 | the result is empty: no successes, no skips, no failures |
| ValueAnalyzer.SendEmailUsingValueAnalyzer.Initialize | src/main/java/org/datacleaner/extension/emailing/SendEmailUsingValueAnalyzer.java:80-86 | `initialize` starts with both counts at zero, no failures and an empty log |
| ValueAnalyzer.SendEmailUsingValueAnalyzer.Record | src/main/java/org/datacleaner/extension/emailing/SendEmailUsingValueAnalyzer.java:94-111 | counting one row, a failure only for an unsuccessful result, moves exactly its bucket, logs a failure's message, and keeps the tally invariant |
| ValueAnalyzer.SendEmailUsingValueAnalyzer.Run | src/main/java/org/datacleaner/extension/emailing/SendEmailUsingValueAnalyzer.java:88-112 | a request is made exactly when the address passes the check, with the row's subject and body, charset UTF-8 and no HTML body; the row lands in exactly one bucket; a failure is kept and logged |
| ValueAnalyzer.SendEmailUsingValueAnalyzer.GetResult | src/main/java/org/datacleaner/extension/emailing/SendEmailUsingValueAnalyzer.java:114-117 | the result holds the two counts and the failures, which together account for every row run; every failure in it is an unsuccessful result |
| LegacyValueAnalyzer.SendEmailUsingValueAnalyzer.Initialize | src/main/java/org/eobjects/datacleaner/extension/emailing/SendEmailUsingValueAnalyzer.java:71-77 | `initialize` starts with both counts at zero and no failures |
| LegacyValueAnalyzer.SendEmailUsingValueAnalyzer.Record | src/main/java/org/eobjects/datacleaner/extension/emailing/SendEmailUsingValueAnalyzer.java:85-97 | counting one row, a failure only for an unsuccessful result, moves exactly its bucket and keeps the tally invariant |
| LegacyValueAnalyzer.SendEmailUsingValueAnalyzer.Run | src/main/java/org/eobjects/datacleaner/extension/emailing/SendEmailUsingValueAnalyzer.java:79-98 | a request is made exactly when the address passes the check; the row lands in exactly one bucket; a failure is kept and never logged |
| LegacyValueAnalyzer.SendEmailUsingValueAnalyzer.GetResult | src/main/java/org/eobjects/datacleaner/extension/emailing/SendEmailUsingValueAnalyzer.java:100-103 | the result holds the two counts and the failures, which together account for every row run; every failure in it is an unsuccessful result |

## Left out

- Text positions. Dafny's `char` is a Unicode scalar value, while Java's `indexOf` positions and `length()`, and so `fromIndex = index + valueStr.length()`, count UTF-16 code units. On text with supplementary characters the model's positions differ from Java's, and lone surrogates cannot be represented.
- Counter overflow. `successCount` and `skipCount` are unbounded naturals, while Java's `AtomicInteger` wraps around past 2^31 - 1 rows.
- Concurrency. The counters are `AtomicInteger`s and the failures a `ConcurrentLinkedQueue`, and the host may call `run` from several threads. The model runs rows one at a time, so the tally invariant is stated for sequential runs only.
- The sleep throttle (`sleepTimeInMillis`). It is only passed through in the request; no waiting is modelled.
- I/O. Reading a template resource is a parameter `read` of `Init`; the charset used for decoding is not modelled.
- Logging. SLF4J `logger.info` for skipped rows is not modelled. The execution-log messages of the newer analyzers are modelled as the `log` field.
- The newer `EmailDispatcher` and its six-argument `sendMail` are not part of this model. The newer analyzers see only the `EmailResult` it returns, which is an input of `Run`. The legacy value analyzer calls a six-argument `sendMail` that the legacy dispatcher modelled here does not have, so it is modelled like the newer one.
- The mail library (`Session.getDefaultInstance`, `InternetAddress` parsing, `Transport.send`) is abstracted into `transport`. This includes the caching of the default session, so a later dispatcher's properties may in reality be ignored.
- `SendEmailAnalyzerResult` is not part of this model. Its no-argument constructor, used by the legacy template analyzer, is taken to be an empty result.
- `toString` of row values. Values are taken to be strings already, and a null value is `None`.
- Null entries in `templateKeys` (a `NullPointerException` in `trim`) and a null SMTP host (a `NullPointerException` in `Properties`) are not modelled. Keys are non-null strings and the host is a string.
- Calling `run` before `init`/`initialize` (a `NullPointerException` on the unset dispatcher and counters) is not modelled.
- The failures collection is handed to the result by reference in Java. The model returns its current value, so later aliasing effects are not captured.
- TemplateSubstitution.ReplaceAll: the unbounded `while (true)` loop is bounded by `fuel` passes, and None (`Diverged` for a rendering) stands for "does not return normally". Strings are unbounded in the model, so a loop that does not stop is shown as one that never stops. In Java the same loop grows the text on every pass until `template.replace` fails with an `OutOfMemoryError`, which nothing catches; that error and the limit on a Java string's length are not modelled. The termination and non-termination lemmas relate the bound to the loop.
- The Swing result renderer and `toString` of the analyzers are outside the modelled core.
