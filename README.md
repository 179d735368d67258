# Crash-report hook: a verified model

The crate installs a panic hook through `watch(method)`. When the program
panics, the hook asks on the console whether to send a report. If the answer
is not exactly `n` and a line break, it asks for a short
description. It then builds a
`DebugInfo` record from four things: the git tree id, the description, the
panic message and the panic location. It hands the record to the embedder's
`SubmitMethod::submit`. Depending on the answer, it then calls exactly one of
two callbacks. By default, `submission_succeeded` prints a thank-you line and
`submission_failed` prints an apology followed by the whole report. The
report's text form (`Display for DebugInfo`) is a fixed six-line layout.

The model has four modules:

- `Text` (text.dfy): splitting text into lines, splitting at the last
  separator, and the decimal rendering of numbers. These are the pieces that
  reading a report back needs.
- `Io` (io.dfy): the console.
  - Standard input is a script of line reads still to come. Each read is a
    line or an I/O error, and an exhausted script reads as end of input (an
    empty line).
  - Standard output is the text printed so far.
  - `read_line` appends to the caller's buffer.
- `Debug` (debug.dfy): the `DebugInfo` record and `DebugInfo::new`.
  - The rendering is the function `Render`. The method `Fmt` builds the same
    text step by step, as the crate does.
  - A parser `ParseReport` reads a rendering back. It is proved to invert
    the rendering for every report whose tree id, message and file name are
    single lines.
  - The submitter capability is the class `Submitter`. Its `verdict` field is
    what its `submit` answers, and its `calls` field logs every call made on
    it. Its two callbacks behave like the crate's default implementations.
- `Crash` (crash.dfy): the hook body.
  - `Run` is a specification function. It gives the whole run from the input
    script, the tree id, the payload, the location and the submitter's
    verdict.
  - The method `Handle` does the same thing on a `Console` and a `Submitter`,
    and is proved equal to `Run`.
  - `PanicHooks` is the process's single hook slot, which `watch` fills.

Three details of the code shape the model:

- The marker for a missing location is spelt `<UNKOWN>` (src/debug.rs:82).
- The second `read_line` appends to the same buffer as the first. A
  successful description is therefore the first answer followed by the
  second line (src/lib.rs:19,23,30-31).
- Only a `&str` payload gets through `downcast_ref::<&str>().unwrap()`. A
  formatted `panic!` carries a `String`, and such a payload ends in the
  `Aborted` outcome just like any other non-text payload.

## Model

| member | source | states |
|---|---|---|
| Debug.New | src/debug.rs:60-67 | The tree id, description, message and location are each stored unchanged in their own field. |
| Debug.Fmt | src/debug.rs:70-96 | The buffer built push by push is exactly `Render`: `tree: `+sha, break, `at: `+location or `<UNKOWN>`, break, `Panic details: `, break, message, break, `Summary: `, break, description, with no trailing break. |
| Text.Decimal | src/debug.rs:81 | A line or column number is displayed as a canonical decimal: digits only, with no sign and no leading zero. |
| Text.DecimalRoundTrip | src/debug.rs:81 | Reading a displayed number back gives the number. |
| Text.CanonicalRoundTrip | src/debug.rs:81 | Every canonical digit string is the display of exactly the number it denotes. |
| Debug.RenderByLines | src/debug.rs:72-94 | The rendering is the five head lines joined by breaks, then a break, then the description. |
| Debug.RenderFirstLine | src/debug.rs:74-76 | When the tree id has no line break, the first line of the report is `tree: ` plus the tree id, and dropping the tag gives the tree id back. |
| Debug.RenderLines | src/debug.rs:72-94 | For a report with single-line fields, the report's lines are the tree line, the location line, `Panic details: `, the message, `Summary: `, and then the description's own lines. |
| Debug.RenderSixLines | src/debug.rs:91-94 | With a one-line description the report has exactly six lines and the last one is the description. When that description is also non-empty, the text does not end in a line break; an empty one leaves `Summary: ` and its break last. |
| Debug.RenderHeadersInOrder | src/debug.rs:87-92 | For any field contents, `Panic details: ` plus a break sits right after the location line. `Summary: ` plus a break comes after the message. The text ends with the description verbatim. |
| Debug.LocTextRoundTrip | src/debug.rs:80-83 | The text after `at: ` determines the location: `<UNKOWN>` reads back as no location, and `file:line:column` reads back as the location, even when the file name contains colons. |
| Debug.ReportRoundTrip | src/debug.rs:70-96 | Every report whose tree id, message and file name are single lines is read back from its rendering unchanged. |
| Debug.ParsedReportRenders | src/debug.rs:70-96 | Conversely, any text that reads as a report is exactly the rendering of the report it reads as, and that report has single-line fields. |
| Debug.RenderInjective | src/debug.rs:70-96 | Two reports with single-line fields that render alike are equal. The other direction holds because the rendering depends only on the four fields. |
| Debug.MessageLineBreakIsAmbiguous | src/debug.rs:87-92 | Without the single-line condition, two different reports can render to the same text: a message containing a line break and `Summary: ` looks like a description. |
| Debug.FailedOutputKeepsReport | src/debug.rs:45-47 | The default failure output is the apology line, a break, the full report and a final break. The report reads back unchanged from between the apology line and the final break. |
| Debug.Submitter.Submit | src/debug.rs:22 | `submit` answers the submitter's verdict and logs one call carrying the report. |
| Debug.Submitter.SubmissionSucceeded | src/debug.rs:33-35 | The default success callback prints the thank-you line and a break, the same text whatever the report, and reads nothing. |
| Debug.Submitter.SubmissionFailed | src/debug.rs:45-47 | The default failure callback prints the apology line, a break, the report's rendering and a break. |
| Io.Console.ReadLine | src/lib.rs:30 | `read_line` consumes one scripted read. A line is appended to the caller's buffer; an error leaves the buffer as it was. |
| Io.Console.PrintLine | src/lib.rs:21 | `println!` appends the text and a line break to the output, and nothing else changes. |
| Crash.Confirm | src/lib.rs:19-26 | Prints the question and reads the first answer into a fresh buffer. The result is "declined" exactly when that read succeeded and the buffer is exactly `n` followed by a break. |
| Crash.Describe | src/lib.rs:28-33 | Prints the second question. The description is the buffer with the second line appended, or `Error while describing bug.` when the read fails. |
| Crash.Dispatch | src/lib.rs:47-50 | Calls `submit` once, then the success callback when it answered true and the failure callback when it answered false, each with the same report. |
| Crash.Handle | src/lib.rs:18-51 | The hook body's outcome, calls on the submitter, printed text and remaining input are exactly those of `Run`. The submitter's verdict is untouched. |
| Crash.DeclinesOnlyOnExactAnswer | src/lib.rs:23-24 | The hook declines if and only if the first read succeeds with exactly `n` and a break. Declining makes no call on the submitter, prints only the first question and consumes one read. |
| Crash.OtherAnswersProceed | src/lib.rs:23-26 | A read error, `y`, `N`, `n` without a break, `n` with a carriage return, a blank line and end of input all go on to ask for a description. |
| Crash.NonTextPayloadAborts | src/lib.rs:40-45 | A payload that is not a `&str` stops the hook after both questions, before anything is submitted. |
| Crash.ReportedRecord | src/lib.rs:30-45 | The record holds: the tree id from `git::sha()` or `None`; the first answer followed by the second line (or the error text); the payload's text; and the panic location unchanged. |
| Crash.SubmitsOnceThenOneCallback | src/lib.rs:47-50 | On the reporting path the calls are exactly `submit` and then the one callback the answer selects, both with the same record. The printed text is the two questions followed by that callback's output. |
| Crash.DeliveredExample | src/lib.rs:18-51 | Answers `y` and `clicked` for a panic at `main.rs:42:5` with no repository: the description is `y`, break, `clicked`, break; the location displays as `main.rs:42:5`; `submit` and then the success callback run, once each. |
| Crash.PanicHooks.Watch | src/lib.rs:17-18 | `watch` puts its submitter in the process's hook slot, replacing whatever was there. |
| Crash.PanicHooks.Panic | src/lib.rs:18-51 | With no hook installed the crate does nothing. Otherwise the installed submitter's hook runs exactly as `Run` says, and the slot and that submitter's verdict are unchanged. |
| Crash.WatchTwiceUsesLast | src/lib.rs:17-18 | After two calls of `watch`, a panic reaches only the second submitter, and the first is never called. |

## Left out

- `git::sha()` (src/git.rs) is not part of this model. The tree id is an input that may be absent. Its repository lookup, its message when no repository is found and its `(dirty)` suffix are not modelled. Neither is any panic inside `git::sha()` (when listing remotes, finding or peeling the head, or computing the diff fails), which would end the hook after both questions and before `submit`; the reporting path of `Run` assumes the lookup returns. Because that message is left out, when the tree id is absent `Run`'s printed text lacks the line `git::sha()` prints between the description prompt and the callback's output.
- build_scripts/release.rs is not part of this model. It is build-time tooling.
- `panic::set_hook` is modelled only as a single slot that `watch` fills. The standard library's default hook, which runs when none is installed, is not modelled.
- Callback overrides: an embedder may override `submission_succeeded` and `submission_failed`. The model has only the default bodies, but every call is logged in `calls`, so the sequence of calls holds for any override.
- An embedder's `submit` is reduced to a fixed answer (`verdict`). Any other side effects it has are not modelled.
- Io.Console.PrintLine: every print succeeds. A failed write to standard output, on which `println!` panics and the hook ends before `submit` or before the callback finishes, is not modelled; neither is the `fmt::Result` error that src/debug.rs:94 passes on, which only such a failed write can produce.
- Io.Console.ReadLine: a read that fails is taken to leave the buffer unchanged. Partial data that `read_line` may have appended before the error is not modelled.
- The process abort after the `Aborted` outcome, meaning the panic inside the hook, is not modelled. The model stops at that outcome.
- Standard input and output are the `Console` script and output log. Buffering, interleaving with other threads, and `Send`/`Sync` are not modelled.
- Line and column numbers are unbounded naturals. The model does not limit them to `u32`, which only matters for values that the standard library never produces.
- The `it_works` test in src/lib.rs asserts nothing about the crate and is not modelled.
