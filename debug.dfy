/**
 * The crash report (`DebugInfo`), its fixed six-line text rendering, and the
 * submitter capability with its two default callbacks.
 */
module Debug {
  import opened Options
  import opened Text
  import Io

  // ---------------------------------------------------------------------
  // The report record
  // ---------------------------------------------------------------------

  /** A panic's source location; Rust displays it as `file:line:column`. */
  datatype Location = Location(file: string, line: nat, column: nat)

  /** Postmortem information about one crash. */
  datatype DebugInfo = DebugInfo(sha: string, description: string, info: string, location: Option<Location>)

  /** `DebugInfo::new`: keeps every argument, unchanged, in its own field. */
  function New(sha: string, desc: string, message: string, panicLocation: Option<Location>): (d: DebugInfo)
    ensures d.sha == sha && d.description == desc && d.info == message && d.location == panicLocation
  {
    DebugInfo(sha, desc, message, panicLocation)
  }

  // ---------------------------------------------------------------------
  // The rendering
  // ---------------------------------------------------------------------

  const TreeTag := "tree: "
  const AtTag := "at: "
  const DetailsHeader := "Panic details: "
  const SummaryHeader := "Summary: "
  /** Shown for a missing location; the spelling is the crate's own. */
  const Unknown := "<UNKOWN>"

  function LocationText(l: Location): string {
    l.file + ":" + Decimal(l.line) + ":" + Decimal(l.column)
  }

  /** The text after `at: `: the location as displayed, or the unknown marker. */
  function LocText(location: Option<Location>): string {
    match location
    case Some(l) => LocationText(l)
    case None => Unknown
  }

  /** The `Display` rendering of a report; there is no line break after the description. */
  function Render(d: DebugInfo): string {
    (TreeTag + d.sha) + "\n"
    + (AtTag + LocText(d.location)) + "\n"
    + DetailsHeader + "\n" + d.info + "\n"
    + SummaryHeader + "\n" + d.description
  }

  /** `fmt`: builds the rendering piece by piece in a local buffer, as the crate does. */
  method Fmt(d: DebugInfo) returns (s: string)
    ensures s == Render(d)
  {
    s := TreeTag;
    s := s + d.sha;
    s := s + "\n";
    ghost var line := s;
    s := s + AtTag;
    match d.location {
      case Some(l) => s := s + LocationText(l);
      case None => s := s + Unknown;
    }
    Associative(line, AtTag, LocText(d.location));
    s := s + "\n";
    s := s + DetailsHeader + "\n";
    s := s + d.info;
    s := s + "\n";
    s := s + SummaryHeader + "\n";
    s := s + d.description;
  }

  /** The five lines of a report that come before the description. */
  function HeadLines(d: DebugInfo): seq<string> {
    [TreeTag + d.sha, AtTag + LocText(d.location), DetailsHeader, d.info, SummaryHeader]
  }

  /** The rendering is the five head lines and the description, separated by line breaks. */
  lemma RenderByLines(d: DebugInfo)
    ensures Render(d) == Join(HeadLines(d)) + "\n" + d.description
  {
    JoinFive(TreeTag + d.sha, AtTag + LocText(d.location), DetailsHeader, d.info, SummaryHeader);
  }

  /**
   * The fields the layout relies on to keep one field per line: the tree id,
   * the panic message and the location's file name hold no line break. The
   * description, being last, may hold any text.
   */
  predicate WellFormed(d: DebugInfo) {
    NoNewline(d.sha) && NoNewline(d.info)
    && (d.location.Some? ==> NoNewline(d.location.value.file))
  }

  /** The fixed texts of the layout are one line each. */
  lemma FixedTextsOneLine()
    ensures NoNewline(TreeTag) && NoNewline(AtTag) && NoNewline(Unknown)
    ensures NoNewline(DetailsHeader) && NoNewline(SummaryHeader)
  {
  }

  lemma LocTextNoNewline(location: Option<Location>)
    requires location.Some? ==> NoNewline(location.value.file)
    ensures NoNewline(LocText(location))
  {
    match location {
      case None =>
      case Some(l) =>
        var line, column := Decimal(l.line), Decimal(l.column);
        assert '\n' !in line && '\n' !in column by {
          assert forall i :: 0 <= i < |line| ==> IsDigit(line[i]);
          assert forall i :: 0 <= i < |column| ==> IsDigit(column[i]);
        }
    }
  }

  lemma HeadLinesOneLine(d: DebugInfo)
    requires WellFormed(d)
    ensures forall i :: 0 <= i < |HeadLines(d)| ==> NoNewline(HeadLines(d)[i])
  {
    FixedTextsOneLine();
    LocTextNoNewline(d.location);
  }

  /** The first line of a report is the tree line, so the tree id can be read back from it. */
  lemma RenderFirstLine(d: DebugInfo)
    requires NoNewline(d.sha)
    ensures FirstLine(Render(d)) == TreeTag + d.sha
    ensures FirstLine(Render(d))[|TreeTag|..] == d.sha
  {
    FixedTextsOneLine();
    var h := HeadLines(d);
    RenderByLines(d);
    var rest := Join(h[1..]) + "\n" + d.description;
    assert Render(d) == h[0] + "\n" + rest by {
      Associative(h[0] + "\n", Join(h[1..]), "\n" + d.description);
    }
    NextLineOf(h[0], rest);
  }

  /**
   * The layout line by line: tree, location, the details header, the message,
   * the summary header, then the description's own lines.
   */
  lemma RenderLines(d: DebugInfo)
    requires WellFormed(d)
    ensures Lines(Render(d))
      == [TreeTag + d.sha, AtTag + LocText(d.location), DetailsHeader, d.info, SummaryHeader]
         + Lines(d.description)
  {
    RenderByLines(d);
    HeadLinesOneLine(d);
    LinesAfterJoin(HeadLines(d), d.description);
  }

  /** With a one-line description the report is exactly six lines, and ends in the description, not a line break. */
  lemma RenderSixLines(d: DebugInfo)
    requires WellFormed(d) && NoNewline(d.description)
    ensures |Lines(Render(d))| == 6
    ensures Lines(Render(d))[5] == d.description
    ensures d.description != [] ==> Render(d)[|Render(d)| - 1] != '\n'
  {
    RenderLines(d);
    assert Lines(d.description) == [d.description];
    var r := Render(d);
    if d.description != [] {
      assert r[|r| - 1] == d.description[|d.description| - 1];
    }
  }

  /**
   * Wherever the fields hold line breaks, the report still carries the two
   * fixed headers in order, after the location line, and ends with the
   * description verbatim.
   */
  lemma RenderHeadersInOrder(d: DebugInfo)
    ensures var r := Render(d);
      var p := |TreeTag + d.sha + "\n" + AtTag + LocText(d.location) + "\n"|;
      var q := p + |DetailsHeader| + 1 + |d.info| + 1;
      q + |SummaryHeader| + 1 + |d.description| == |r|
      && r[p..p + |DetailsHeader| + 1] == DetailsHeader + "\n"
      && r[q..q + |SummaryHeader| + 1] == SummaryHeader + "\n"
      && r[|r| - |d.description|..] == d.description
  {
  }

  // ---------------------------------------------------------------------
  // Reading a report back
  // ---------------------------------------------------------------------

  /** Reads a location back from its `file:line:column` text; file names may themselves hold colons. */
  function ParseLocation(t: string): Option<Location> {
    match SplitLast(t, ':')
    case None => None
    case Some((front, column)) =>
      match SplitLast(front, ':')
      case None => None
      case Some((file, line)) =>
        if IsCanonicalDecimal(line) && IsCanonicalDecimal(column)
        then Some(Location(file, DigitsValue(line), DigitsValue(column)))
        else None
  }

  /** Reads back the text after `at: `. */
  function ParseLocText(t: string): Option<Option<Location>> {
    if t == Unknown then Some(None)
    else match ParseLocation(t)
      case None => None
      case Some(l) => Some(Some(l))
  }

  /** Reads a rendered report back into its record; `None` when the text does not have the report layout. */
  function ParseReport(s: string): Option<DebugInfo> {
    var ls := Lines(s);
    if |ls| >= 6 && TreeTag <= ls[0] && AtTag <= ls[1] && ls[2] == DetailsHeader && ls[4] == SummaryHeader
    then
      match ParseLocText(ls[1][|AtTag|..])
      case None => None
      case Some(location) => Some(DebugInfo(ls[0][|TreeTag|..], Join(ls[5..]), ls[3], location))
    else None
  }

  lemma {:induction false} LocationRoundTrip(l: Location)
    ensures ParseLocation(LocationText(l)) == Some(l)
  {
    var line, column := Decimal(l.line), Decimal(l.column);
    assert ':' !in column by {
      assert forall i :: 0 <= i < |column| ==> IsDigit(column[i]);
    }
    assert ':' !in line by {
      assert forall i :: 0 <= i < |line| ==> IsDigit(line[i]);
    }
    assert LocationText(l) == (l.file + ":" + line) + [':'] + column;
    SplitLastOf(l.file + ":" + line, ':', column);
    assert l.file + ":" + line == l.file + [':'] + line;
    SplitLastOf(l.file, ':', line);
    DecimalRoundTrip(l.line);
    DecimalRoundTrip(l.column);
  }

  lemma LocTextRoundTrip(location: Option<Location>)
    ensures ParseLocText(LocText(location)) == Some(location)
  {
    match location {
      case None =>
      case Some(l) =>
        var t := LocationText(l);
        assert t != Unknown by {
          assert ':' in t by { assert t[|l.file|] == ':'; }
          assert ':' !in Unknown;
        }
        LocationRoundTrip(l);
    }
  }

  lemma ParsedLocText(t: string, location: Option<Location>)
    requires ParseLocText(t) == Some(location)
    ensures LocText(location) == t
  {
    if t != Unknown {
      var Some((front, column)) := SplitLast(t, ':');
      var Some((file, line)) := SplitLast(front, ':');
      CanonicalRoundTrip(line);
      CanonicalRoundTrip(column);
      assert t == file + ":" + line + ":" + column;
    }
  }

  /** Every well-formed report can be read back from its rendering: nothing in it is lost. */
  lemma ReportRoundTrip(d: DebugInfo)
    requires WellFormed(d)
    ensures ParseReport(Render(d)) == Some(d)
  {
    var h, tail := HeadLines(d), Lines(d.description);
    RenderLines(d);
    var ls := Lines(Render(d));
    assert ls == h + tail;
    assert ls[5..] == tail;
    JoinLines(d.description);
    assert ls[0][|TreeTag|..] == d.sha;
    assert ls[1][|AtTag|..] == LocText(d.location);
    LocTextRoundTrip(d.location);
  }

  /** What a successful parse read: the first five lines are the report's head lines, the rest its description. */
  lemma ParsedReportLines(s: string, d: DebugInfo)
    requires ParseReport(s) == Some(d)
    ensures |Lines(s)| >= 6
    ensures Lines(s)[..5] == HeadLines(d) && Join(Lines(s)[5..]) == d.description
  {
    var ls := Lines(s);
    ParsedLocText(ls[1][|AtTag|..], d.location);
    assert ls[0] == TreeTag + d.sha;
    assert ls[1] == AtTag + LocText(d.location);
  }

  /** Head lines that hold no line break come only from a well-formed report. */
  lemma OneLineHeadIsWellFormed(d: DebugInfo)
    requires forall i :: 0 <= i < |HeadLines(d)| ==> NoNewline(HeadLines(d)[i])
    ensures WellFormed(d)
  {
    var h := HeadLines(d);
    assert NoNewline(h[0]) && NoNewline(h[3]);
    NoNewlineParts(TreeTag, d.sha);
    if d.location.Some? {
      var l := d.location.value;
      var rest := ":" + Decimal(l.line) + ":" + Decimal(l.column);
      assert h[1] == (AtTag + l.file) + rest;
      NoNewlineParts(AtTag + l.file, rest);
      NoNewlineParts(AtTag, l.file);
    }
  }

  /** Conversely, any text that reads as a report is exactly the rendering of what it reads as. */
  lemma ParsedReportRenders(s: string, d: DebugInfo)
    requires ParseReport(s) == Some(d)
    ensures WellFormed(d) && Render(d) == s
  {
    var ls := Lines(s);
    ParsedReportLines(s, d);
    JoinLines(s);
    JoinSplit(ls, 5);
    RenderByLines(d);
    assert forall i :: 0 <= i < 5 ==> HeadLines(d)[i] == ls[i];
    OneLineHeadIsWellFormed(d);
  }

  /** Two well-formed reports with the same rendering are the same report. */
  lemma RenderInjective(d1: DebugInfo, d2: DebugInfo)
    requires WellFormed(d1) && WellFormed(d2)
    requires Render(d1) == Render(d2)
    ensures d1 == d2
  {
    ReportRoundTrip(d1);
    ReportRoundTrip(d2);
  }

  /** Without the one-line guard on the message, two different reports render alike. */
  lemma MessageLineBreakIsAmbiguous()
    ensures var d1 := DebugInfo("a", "", "x\n" + SummaryHeader, None);
      var d2 := DebugInfo("a", SummaryHeader + "\n", "x", None);
      d1 != d2 && Render(d1) == Render(d2)
  {
  }

  // ---------------------------------------------------------------------
  // The submitter capability
  // ---------------------------------------------------------------------

  /** One call the crash handler made on a submitter, with the report it passed. */
  datatype Call = SubmitCall(info: DebugInfo) | SucceededCall(info: DebugInfo) | FailedCall(info: DebugInfo)

  const ThankYou := "Thank you for your submission. We will investigate what happened A.S.A.P."
  const Apology := "Something went wrong." + " Our apologies for the inconvenience."
    + " This information could not be sent:"

  lemma ApologyOneLine()
    ensures NoNewline(Apology)
  {
  }

  /** What the default `submission_failed` prints: the apology line, then the whole report. */
  function FailedOutput(d: DebugInfo): string {
    Apology + "\n" + Render(d) + "\n"
  }

  /** The default failure output keeps the report: it is read back from between the apology line and the final break. */
  lemma FailedOutputKeepsReport(d: DebugInfo)
    requires WellFormed(d)
    ensures var out := FailedOutput(d);
      |out| == |Apology| + 1 + |Render(d)| + 1
      && FirstLine(out) == Apology
      && ParseReport(out[|Apology| + 1..|out| - 1]) == Some(d)
  {
    ApologyOneLine();
    HeadingAndBody(Apology, Render(d));
    ReportRoundTrip(d);
  }

  /**
   * An embedder's submission strategy. `verdict` is what its `submit` answers;
   * `calls` records every call made on it. The two callbacks behave as the
   * crate's default implementations.
   */
  class Submitter {
    var verdict: bool
    var calls: seq<Call>

    constructor (verdict: bool)
      ensures this.verdict == verdict && calls == []
    {
      this.verdict := verdict;
      calls := [];
    }

    /** `submit`: one delivery attempt, answering whether it succeeded. */
    method Submit(info: DebugInfo) returns (delivered: bool)
      modifies this
      ensures delivered == verdict && verdict == old(verdict)
      ensures calls == old(calls) + [SubmitCall(info)]
    {
      calls := calls + [SubmitCall(info)];
      delivered := verdict;
    }

    /** Default `submission_succeeded`: prints the thank-you line, whatever the report. */
    method SubmissionSucceeded(info: DebugInfo, console: Io.Console)
      modifies this, console
      ensures calls == old(calls) + [SucceededCall(info)] && verdict == old(verdict)
      ensures console.output == old(console.output) + ThankYou + "\n"
      ensures console.input == old(console.input)
    {
      calls := calls + [SucceededCall(info)];
      console.PrintLine(ThankYou);
    }

    /** Default `submission_failed`: prints the apology line and the full report. */
    method SubmissionFailed(info: DebugInfo, console: Io.Console)
      modifies this, console
      ensures calls == old(calls) + [FailedCall(info)] && verdict == old(verdict)
      ensures console.output == old(console.output) + FailedOutput(info)
      ensures console.input == old(console.input)
    {
      calls := calls + [FailedCall(info)];
      var report := Fmt(info);
      console.PrintLine(Apology + "\n" + report);
    }
  }
}
