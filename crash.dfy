/**
 * The panic hook installed by `watch`: ask whether to report, collect a
 * description, build the report and hand it to the submitter, then call
 * exactly one of its two callbacks.
 */
module Crash {
  import opened Options
  import opened Io
  import opened Debug
  import opened Text

  /**
   * A panic payload. Only a `&str` payload (a panic on a string literal)
   * downcasts to text; a `String` payload (a formatted panic message) and
   * any other value do not, so their contents play no part.
   */
  datatype Payload = StrPayload(text: string) | StringPayload | OtherPayload

  /** How one run of the hook ended. */
  datatype Outcome =
    | Declined                                   // the user answered exactly "n"
    | Aborted                                    // the payload was not a `&str`: the hook panics inside a panic
    | Reported(info: DebugInfo, delivered: bool) // the report was submitted; `delivered` is what `submit` answered

  /** What a run of the hook did: its outcome, the calls on the submitter, what it printed, and the input left unread. */
  datatype Trace = Trace(outcome: Outcome, calls: seq<Call>, printed: string, unread: seq<ReadResult>)

  const ConfirmPrompt := "Program crashed unexpectedly! Would you like to submit a report [Y/n]?"
  const DescribePrompt := "Please describe briefly what happened."
  /** The one answer that declines: a lower-case `n` and a line feed, nothing else. */
  const DeclineAnswer := "n\n"
  /** The description used when the second read fails. */
  const DescribeError := "Error while describing bug."
  /** The tree id used when no repository is found. */
  const NoTree := "None"

  /** The text the first read leaves in the buffer. */
  function FirstAnswer(script: seq<ReadResult>): string {
    Appended("", NextRead(script))
  }

  /**
   * The hook's behaviour, given the reads standard input will answer, what
   * `git::sha()` returns, the panic's payload and location, and what the
   * submitter's `submit` answers.
   */
  function Run(script: seq<ReadResult>, sha: Option<string>, payload: Payload,
               location: Option<Location>, verdict: bool): Trace
  {
    var first := NextRead(script);
    var input := FirstAnswer(script);
    var asked := ConfirmPrompt + "\n";
    if first.Line? && input == DeclineAnswer then
      Trace(Declined, [], asked, AfterRead(script))
    else
      var second := NextRead(AfterRead(script));
      var unread := AfterRead(AfterRead(script));
      var prompted := asked + (DescribePrompt + "\n");
      var desc := if second.Line? then Appended(input, second) else DescribeError;
      var tree := match sha case Some(tree) => tree case None => NoTree;
      match payload
      case StrPayload(message) =>
        var info := New(tree, desc, message, location);
        if verdict then
          Trace(Reported(info, true), [SubmitCall(info), SucceededCall(info)], prompted + (ThankYou + "\n"), unread)
        else
          Trace(Reported(info, false), [SubmitCall(info), FailedCall(info)], prompted + FailedOutput(info), unread)
      case _ =>
        Trace(Aborted, [], prompted, unread)
  }

  /** Only a successful first read of exactly "n\n" declines, and declining submits nothing and asks nothing more. */
  lemma DeclinesOnlyOnExactAnswer(script: seq<ReadResult>, sha: Option<string>, payload: Payload,
                                  location: Option<Location>, verdict: bool)
    ensures var t := Run(script, sha, payload, location, verdict);
      (t.outcome == Declined <==> NextRead(script) == Line(DeclineAnswer))
      && (t.outcome == Declined ==>
            t.calls == [] && t.printed == ConfirmPrompt + "\n" && t.unread == AfterRead(script))
  {
  }

  /**
   * A failed read, an upper-case `N`, an `n` without its line feed, an `n`
   * with a carriage return, an empty line and end of input all go on to
   * ask for a description.
   */
  lemma OtherAnswersProceed(script: seq<ReadResult>, sha: Option<string>, payload: Payload,
                            location: Option<Location>, verdict: bool)
    requires NextRead(script) in {Failure, Line("y\n"), Line("N\n"), Line("n"), Line("n\r\n"), Line("\n"), Line("")}
    ensures var t := Run(script, sha, payload, location, verdict);
      t.outcome != Declined
      && ConfirmPrompt + "\n" + (DescribePrompt + "\n") <= t.printed
      && t.unread == AfterRead(AfterRead(script))
  {
    var first := NextRead(script);
    assert first != Line(DeclineAnswer) by {
      assert DeclineAnswer == "n\n";
      assert "n\r\n" != "n\n" by { assert "n\r\n"[1] != "n\n"[1]; }
      assert "\n" != "n\n" && "" != "n\n" && "n" != "n\n";
    }
    assert first.Line? ==> FirstAnswer(script) == first.text;
  }

  /** A payload that is not a `&str` stops the hook after both questions and before anything is submitted. */
  lemma NonTextPayloadAborts(script: seq<ReadResult>, sha: Option<string>, payload: Payload,
                             location: Option<Location>, verdict: bool)
    requires NextRead(script) != Line(DeclineAnswer) && !payload.StrPayload?
    ensures var t := Run(script, sha, payload, location, verdict);
      t.outcome == Aborted && t.calls == [] && t.printed == ConfirmPrompt + "\n" + (DescribePrompt + "\n")
  {
  }

  /**
   * The submitted report: the tree id or "None"; the whole buffer, first
   * answer then second line, or the error text when the second read fails;
   * the payload's text; the panic location unchanged.
   */
  lemma ReportedRecord(script: seq<ReadResult>, sha: Option<string>, payload: Payload,
                       location: Option<Location>, verdict: bool)
    requires NextRead(script) != Line(DeclineAnswer) && payload.StrPayload?
    ensures var t := Run(script, sha, payload, location, verdict);
      var second := NextRead(AfterRead(script));
      t.outcome.Reported?
      && t.outcome.info.sha == (if sha.Some? then sha.value else NoTree)
      && t.outcome.info.description
         == (if second.Line? then FirstAnswer(script) + second.text else DescribeError)
      && t.outcome.info.info == payload.text
      && t.outcome.info.location == location
  {
  }

  /** One submit, then exactly the callback its answer selects, each given the same report, and what the default callbacks print. */
  lemma SubmitsOnceThenOneCallback(script: seq<ReadResult>, sha: Option<string>, payload: Payload,
                                   location: Option<Location>, verdict: bool)
    requires NextRead(script) != Line(DeclineAnswer) && payload.StrPayload?
    ensures var t := Run(script, sha, payload, location, verdict);
      var info := t.outcome.info;
      t.outcome.Reported? && t.outcome.delivered == verdict
      && t.calls == [SubmitCall(info), if verdict then SucceededCall(info) else FailedCall(info)]
      && t.printed == ConfirmPrompt + "\n" + (DescribePrompt + "\n")
                      + (if verdict then ThankYou + "\n" else FailedOutput(info))
  {
  }

  /** Asks whether to report and reads the answer into a fresh buffer; `declined` when it reads exactly "n\n". */
  method Confirm(console: Console) returns (declined: bool, input: string)
    modifies console
    ensures declined <==> NextRead(old(console.input)) == Line(DeclineAnswer)
    ensures input == FirstAnswer(old(console.input))
    ensures console.output == old(console.output) + (ConfirmPrompt + "\n")
    ensures console.input == AfterRead(old(console.input))
  {
    input := "";
    console.PrintLine(ConfirmPrompt);
    var first;
    first, input := console.ReadLine(input);
    declined := first.Line? && input == DeclineAnswer;
    Associative(old(console.output), ConfirmPrompt, "\n");
  }

  /** Asks for a description and reads it onto the end of the same buffer; the error text when the read fails. */
  method Describe(console: Console, input: string) returns (desc: string)
    modifies console
    ensures var second := NextRead(old(console.input));
      desc == if second.Line? then input + second.text else DescribeError
    ensures console.output == old(console.output) + (DescribePrompt + "\n")
    ensures console.input == AfterRead(old(console.input))
  {
    console.PrintLine(DescribePrompt);
    var second, buffer := console.ReadLine(input);
    desc := if second.Line? then buffer else DescribeError;
    Associative(old(console.output), DescribePrompt, "\n");
  }

  /** Submits the report once, then calls the one callback the answer selects. */
  method Dispatch(submitter: Submitter, console: Console, dbg: DebugInfo) returns (delivered: bool)
    modifies submitter, console
    ensures delivered == submitter.verdict && submitter.verdict == old(submitter.verdict)
    ensures submitter.calls
      == old(submitter.calls) + [SubmitCall(dbg), if delivered then SucceededCall(dbg) else FailedCall(dbg)]
    ensures console.output
      == old(console.output) + (if delivered then ThankYou + "\n" else FailedOutput(dbg))
    ensures console.input == old(console.input)
  {
    delivered := submitter.Submit(dbg);
    if delivered {
      submitter.SubmissionSucceeded(dbg, console);
      Associative(old(console.output), ThankYou, "\n");
    } else {
      submitter.SubmissionFailed(dbg, console);
    }
  }

  /**
   * The hook body. Standard input and output are `console`; the submitter is
   * the one `watch` captured.
   */
  method Handle(submitter: Submitter, console: Console, sha: Option<string>,
                payload: Payload, location: Option<Location>) returns (outcome: Outcome)
    modifies submitter, console
    ensures var t := Run(old(console.input), sha, payload, location, old(submitter.verdict));
      outcome == t.outcome
      && submitter.calls == old(submitter.calls) + t.calls
      && console.output == old(console.output) + t.printed
      && console.input == t.unread
    ensures submitter.verdict == old(submitter.verdict)
  {
    ghost var out0, script, verdict := console.output, console.input, submitter.verdict;
    var declined, input := Confirm(console);
    if declined {
      assert Run(script, sha, payload, location, verdict)
        == Trace(Declined, [], ConfirmPrompt + "\n", AfterRead(script));
      return Declined;
    }

    var desc := Describe(console, input);
    ghost var prompted := ConfirmPrompt + "\n" + (DescribePrompt + "\n");
    Associative(out0, ConfirmPrompt + "\n", DescribePrompt + "\n");

    var tree := match sha case Some(tree) => tree case None => NoTree;

    if !payload.StrPayload? {
      assert Run(script, sha, payload, location, verdict)
        == Trace(Aborted, [], prompted, AfterRead(AfterRead(script)));
      return Aborted;
    }
    var dbg := New(tree, desc, payload.text, location);

    var delivered := Dispatch(submitter, console, dbg);
    Associative(out0, prompted, if delivered then ThankYou + "\n" else FailedOutput(dbg));
    assert Run(script, sha, payload, location, verdict)
      == Trace(Reported(dbg, delivered),
               [SubmitCall(dbg), if delivered then SucceededCall(dbg) else FailedCall(dbg)],
               prompted + (if delivered then ThankYou + "\n" else FailedOutput(dbg)),
               AfterRead(AfterRead(script)));
    outcome := Reported(dbg, delivered);
  }

  /**
   * A user who answers "y" and then describes the crash, on a panic at
   * `main.rs:42:5` outside any repository, with a submitter that delivers:
   * the description holds both answers and the success callback runs once.
   */
  lemma DeliveredExample()
    ensures var location := Some(Location("main.rs", 42, 5));
      var t := Run([Line("y\n"), Line("clicked\n")], None, StrPayload("index out of range"), location, true);
      var info := DebugInfo(NoTree, "y\nclicked\n", "index out of range", location);
      t.outcome == Reported(info, true)
      && t.calls == [SubmitCall(info), SucceededCall(info)]
      && t.unread == []
      && LocText(info.location) == "main.rs:42:5"
  {
    var script := [Line("y\n"), Line("clicked\n")];
    assert NextRead(script) != Line(DeclineAnswer) by {
      assert "y\n"[0] != DeclineAnswer[0];
    }
    assert AfterRead(script) == [Line("clicked\n")] && AfterRead(AfterRead(script)) == [];
    assert FirstAnswer(script) + "clicked\n" == "y\nclicked\n";
    assert Decimal(42) == "42" by {
      assert Decimal(4) == "4";
    }
  }

  /**
   * The process-wide hook slot. `watch` puts a submitter in it, replacing any
   * earlier one; a panic runs the hook with whichever submitter is there.
   */
  class PanicHooks {
    var installed: Submitter?

    constructor ()
      ensures installed == null
    {
      installed := null;
    }

    /** `watch`: the last submitter installed is the one used. */
    method Watch(submitter: Submitter)
      modifies this
      ensures installed == submitter
    {
      installed := submitter;
    }

    /** A panic: the installed hook runs, or nothing of this crate does when none is installed. */
    method Panic(console: Console, sha: Option<string>, payload: Payload, location: Option<Location>)
      returns (outcome: Option<Outcome>)
      modifies installed, console
      ensures installed == old(installed)
      ensures installed != null ==> installed.verdict == old(installed.verdict)
      ensures installed == null ==>
        outcome == None && console.output == old(console.output) && console.input == old(console.input)
      ensures installed != null ==>
        var t := Run(old(console.input), sha, payload, location, old(installed.verdict));
        outcome == Some(t.outcome)
        && installed.calls == old(installed.calls) + t.calls
        && console.output == old(console.output) + t.printed
        && console.input == t.unread
    {
      if installed == null {
        return None;
      }
      var o := Handle(installed, console, sha, payload, location);
      outcome := Some(o);
    }
  }

  /**
   * Watching twice: only the second submitter hears about the crash; the
   * first one is never called.
   */
  method WatchTwiceUsesLast(script: seq<ReadResult>, sha: Option<string>, payload: Payload,
                            location: Option<Location>)
    returns (firstCalls: seq<Call>, lastCalls: seq<Call>, outcome: Option<Outcome>)
    ensures var t := Run(script, sha, payload, location, true);
      firstCalls == [] && lastCalls == t.calls && outcome == Some(t.outcome)
  {
    var hooks := new PanicHooks();
    var first := new Submitter(false);
    var last := new Submitter(true);
    hooks.Watch(first);
    hooks.Watch(last);
    var console := new Console(script);
    outcome := hooks.Panic(console, sha, payload, location);
    firstCalls, lastCalls := first.calls, last.calls;
  }
}
