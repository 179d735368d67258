/** The conventional optional value, used for `Option<T>` in the crate. */
module Options {
  datatype Option<+T> = None | Some(value: T)
}

/**
 * Text helpers shared by the report format: splitting at line breaks,
 * splitting at the last occurrence of a separator, and the decimal
 * rendering of line and column numbers.
 */
module Text {
  import opened Options

  predicate NoNewline(s: string) {
    '\n' !in s
  }

  lemma NoNewlineParts(a: string, b: string)
    requires NoNewline(a + b)
    ensures NoNewline(a) && NoNewline(b)
  {
  }

  // ---------------------------------------------------------------------
  // Lines
  // ---------------------------------------------------------------------

  /** Splits `s` at its first line break: the line before it and everything after it. */
  function NextLine(s: string): (r: Option<(string, string)>)
    ensures r.None? <==> NoNewline(s)
    ensures r.Some? ==> NoNewline(r.value.0) && s == r.value.0 + "\n" + r.value.1
  {
    if s == [] then None
    else if s[0] == '\n' then Some(([], s[1..]))
    else match NextLine(s[1..])
      case None => None
      case Some((line, rest)) => Some(([s[0]] + line, rest))
  }

  /** Text up to (not including) the first line break, or all of `s` when it has none. */
  function FirstLine(s: string): string {
    match NextLine(s)
    case None => s
    case Some((line, _)) => line
  }

  /** The lines of `s`, as split at every line break; the last one may be empty. */
  function Lines(s: string): (ls: seq<string>)
    ensures |ls| >= 1
    ensures forall i :: 0 <= i < |ls| ==> NoNewline(ls[i])
    decreases |s|
  {
    match NextLine(s)
    case None => [s]
    case Some((line, rest)) => [line] + Lines(rest)
  }

  /** Lines put back together, with a line break between each two. */
  function Join(ls: seq<string>): string
    requires |ls| >= 1
    decreases |ls|
  {
    if |ls| == 1 then ls[0] else ls[0] + "\n" + Join(ls[1..])
  }

  lemma Associative<T>(a: seq<T>, b: seq<T>, c: seq<T>)
    ensures (a + b) + c == a + (b + c)
  {
  }

  lemma ConsTail<T>(s: seq<T>)
    requires |s| >= 1
    ensures [s[0]] + s[1..] == s
  {
  }

  /** A line followed by a break is split off exactly, whatever follows. */
  lemma {:induction false} NextLineOf(line: string, rest: string)
    requires NoNewline(line)
    ensures NextLine(line + "\n" + rest) == Some((line, rest))
  {
    var s := line + "\n" + rest;
    if line != [] {
      assert s[0] == line[0];
      assert s[1..] == line[1..] + "\n" + rest;
      NextLineOf(line[1..], rest);
      assert [line[0]] + line[1..] == line;
    } else {
      assert s[1..] == rest;
    }
  }

  /** A one-line heading, a break, a body and a final break: the heading is the first line and the body sits between. */
  lemma HeadingAndBody(heading: string, body: string)
    requires NoNewline(heading)
    ensures var out := heading + "\n" + body + "\n";
      |out| == |heading| + 1 + |body| + 1
      && FirstLine(out) == heading
      && out[|heading| + 1..|out| - 1] == body
  {
    var out := heading + "\n" + body + "\n";
    assert out == heading + "\n" + (body + "\n");
    NextLineOf(heading, body + "\n");
  }

  /** Joining the lines of a text gives the text back. */
  lemma {:induction false} JoinLines(s: string)
    ensures Join(Lines(s)) == s
    decreases |s|
  {
    match NextLine(s) {
      case None =>
      case Some((line, rest)) =>
        JoinLines(rest);
        var ls := Lines(s);
        assert ls == [line] + Lines(rest);
        assert ls[1..] == Lines(rest);
    }
  }

  /** Lines that hold no break, joined and followed by a break and more text, split back into those lines first. */
  lemma {:induction false} LinesAfterJoin(ls: seq<string>, rest: string)
    requires |ls| >= 1 && forall i :: 0 <= i < |ls| ==> NoNewline(ls[i])
    ensures Lines(Join(ls) + "\n" + rest) == ls + Lines(rest)
    decreases |ls|
  {
    var s := Join(ls) + "\n" + rest;
    if |ls| == 1 {
      NextLineOf(ls[0], rest);
    } else {
      var tail := Join(ls[1..]) + "\n" + rest;
      assert s == ls[0] + "\n" + tail by {
        assert Join(ls) == ls[0] + "\n" + Join(ls[1..]);
      }
      NextLineOf(ls[0], tail);
      assert Lines(s) == [ls[0]] + Lines(tail);
      LinesAfterJoin(ls[1..], rest);
      ConsTail(ls);
      Associative([ls[0]], ls[1..], Lines(rest));
    }
  }

  lemma JoinFive(a: string, b: string, c: string, d: string, e: string)
    ensures Join([a, b, c, d, e]) == a + "\n" + b + "\n" + c + "\n" + d + "\n" + e
  {
    var ls := [a, b, c, d, e];
    assert Join(ls[3..]) == d + "\n" + e by { assert ls[3..][1..] == ls[4..]; }
    assert Join(ls[2..]) == c + "\n" + Join(ls[3..]) by { assert ls[2..][1..] == ls[3..]; }
    assert Join(ls[1..]) == b + "\n" + Join(ls[2..]) by { assert ls[1..][1..] == ls[2..]; }
  }

  /** Joining splits at any line boundary. */
  lemma {:induction false} JoinSplit(ls: seq<string>, k: nat)
    requires 1 <= k < |ls|
    ensures Join(ls) == Join(ls[..k]) + "\n" + Join(ls[k..])
    decreases k
  {
    if k > 1 {
      JoinSplit(ls[1..], k - 1);
      assert ls[1..][..k - 1] == ls[..k][1..];
      assert ls[1..][k - 1..] == ls[k..];
    }
  }

  // ---------------------------------------------------------------------
  // Splitting at the last separator
  // ---------------------------------------------------------------------

  /** Splits `s` at the last occurrence of `c`: what precedes it and what follows it. */
  function SplitLast(s: string, c: char): (r: Option<(string, string)>)
    ensures r.None? <==> c !in s
    ensures r.Some? ==> c !in r.value.1 && s == r.value.0 + [c] + r.value.1
  {
    if s == [] then None
    else if s[|s| - 1] == c then Some((s[..|s| - 1], []))
    else match SplitLast(s[..|s| - 1], c)
      case None =>
        assert s == s[..|s| - 1] + [s[|s| - 1]];
        None
      case Some((before, after)) =>
        assert s == s[..|s| - 1] + [s[|s| - 1]];
        Some((before, after + [s[|s| - 1]]))
  }

  /** A separator with no further occurrence after it is the one `SplitLast` finds. */
  lemma {:induction false} SplitLastOf(before: string, c: char, after: string)
    requires c !in after
    ensures SplitLast(before + [c] + after, c) == Some((before, after))
  {
    var s := before + [c] + after;
    if after == [] {
      assert s[..|s| - 1] == before;
    } else {
      var last := after[|after| - 1];
      var shorter := after[..|after| - 1];
      assert shorter + [last] == after;
      assert s[..|s| - 1] == before + [c] + shorter;
      SplitLastOf(before, c, shorter);
    }
  }

  // ---------------------------------------------------------------------
  // Decimal numbers
  // ---------------------------------------------------------------------

  predicate IsDigit(ch: char) {
    '0' <= ch <= '9'
  }

  predicate AllDigits(s: string) {
    forall i :: 0 <= i < |s| ==> IsDigit(s[i])
  }

  /** The shape of a number as Rust's `Display` for integers writes it: no sign, no leading zero. */
  predicate IsCanonicalDecimal(s: string) {
    |s| >= 1 && AllDigits(s) && (s[0] != '0' || |s| == 1)
  }

  function DigitChar(d: nat): (ch: char)
    requires d < 10
    ensures IsDigit(ch)
  {
    ('0' as int + d) as char
  }

  function DigitValue(ch: char): (d: nat)
    requires IsDigit(ch)
    ensures d < 10
  {
    ch as int - '0' as int
  }

  /** Decimal rendering of a natural number. */
  function Decimal(n: nat): (r: string)
    ensures IsCanonicalDecimal(r)
    ensures r[0] == '0' <==> n == 0
  {
    if n < 10 then [DigitChar(n)] else Decimal(n / 10) + [DigitChar(n % 10)]
  }

  /** The number a string of decimal digits denotes. */
  function DigitsValue(s: string): nat
    requires AllDigits(s)
  {
    if s == [] then 0 else DigitsValue(s[..|s| - 1]) * 10 + DigitValue(s[|s| - 1])
  }

  /** Reading back a rendered number gives the number. */
  lemma {:induction false} DecimalRoundTrip(n: nat)
    ensures DigitsValue(Decimal(n)) == n
  {
    var r := Decimal(n);
    if n < 10 {
      assert r[..0] == [];
    } else {
      assert r[..|r| - 1] == Decimal(n / 10);
      DecimalRoundTrip(n / 10);
    }
  }

  /** Rendering the value of a canonical digit string gives that string back. */
  lemma {:induction false} CanonicalRoundTrip(s: string)
    requires IsCanonicalDecimal(s)
    ensures Decimal(DigitsValue(s)) == s
  {
    var init := s[..|s| - 1];
    var d := DigitValue(s[|s| - 1]);
    if |s| == 1 {
      assert init == [];
      assert DigitChar(d) == s[0];
    } else {
      assert IsCanonicalDecimal(init) by {
        assert init[0] == s[0];
      }
      CanonicalRoundTrip(init);
      var v := DigitsValue(init);
      assert v != 0 by {
        assert Decimal(v)[0] == s[0];
      }
      assert (v * 10 + d) / 10 == v && (v * 10 + d) % 10 == d;
      assert DigitChar(d) == s[|s| - 1];
      assert init + [s[|s| - 1]] == s;
    }
  }
}
