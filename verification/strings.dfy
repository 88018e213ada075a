/**
 * The string primitives the client relies on, as JavaScript defines them:
 * `startsWith`, `indexOf`, `split('\n')` with its inverse `join('\n')`,
 * and the decimal rendering of an integer inside a template literal.
 */
module Strings {

  /** `p` occurs in `s` starting at position `i`. */
  predicate OccursAt(s: string, p: string, i: nat) {
    i + |p| <= |s| && s[i..i + |p|] == p
  }

  /** `s.startsWith(p)`. */
  predicate StartsWith(s: string, p: string) {
    |p| <= |s| && s[..|p|] == p
  }

  /** `s.indexOf(p, from)`: the first position at or after `from` where `p` occurs, or -1. */
  function IndexOfFrom(s: string, p: string, from: nat): (r: int)
    ensures r == -1 || (from <= r && OccursAt(s, p, r))
    ensures r == -1 ==> forall i: nat :: from <= i ==> !OccursAt(s, p, i)
    ensures r != -1 ==> forall i: nat :: from <= i < r ==> !OccursAt(s, p, i)
    decreases |s| - from
  {
    if from + |p| > |s| then -1
    else if s[from..from + |p|] == p then from
    else IndexOfFrom(s, p, from + 1)
  }

  /** `s.indexOf(p)`. */
  function IndexOf(s: string, p: string): (r: int)
    ensures r == -1 <==> forall i: nat :: !OccursAt(s, p, i)
    ensures r != -1 ==> 0 <= r && OccursAt(s, p, r) && forall i: nat :: i < r ==> !OccursAt(s, p, i)
  {
    IndexOfFrom(s, p, 0)
  }

  /** `s.includes(p)`, equivalently a regular expression test for the literal `p`. */
  predicate Contains(s: string, p: string) {
    IndexOf(s, p) != -1
  }

  // ---------------------------------------------------------------------------
  // split('\n') and join('\n')

  const NewLine: char := '\n'

  /** No newline occurs in `s`. */
  predicate IsLine(s: string) {
    NewLine !in s
  }

  /** `ls.join('\n')`. */
  function Join(ls: seq<string>): (s: string)
  {
    if |ls| == 0 then ""
    else if |ls| == 1 then ls[0]
    else ls[0] + [NewLine] + Join(ls[1..])
  }

  /**
   * `s.split('\n')`: the maximal newline-free segments of `s`, in order.
   * There is always at least one segment (see JoinSplit for the way back).
   */
  function Split(s: string): (r: seq<string>)
    ensures |r| >= 1
  {
    if |s| == 0 then [""]
    else if s[0] == NewLine then [""] + Split(s[1..])
    else
      var t := Split(s[1..]);
      [[s[0]] + t[0]] + t[1..]
  }

  /** No segment of `s.split('\n')` contains a newline. */
  lemma {:induction false} SplitSegmentsAreLines(s: string)
    ensures forall k :: 0 <= k < |Split(s)| ==> IsLine(Split(s)[k])
  {
    if |s| > 0 {
      SplitSegmentsAreLines(s[1..]);
      var t := Split(s[1..]);
      if s[0] != NewLine {
        assert IsLine(t[0]);
        assert Split(s)[0] == [s[0]] + t[0];
      }
    }
  }

  /** Joining the segments of `s` gives `s` back: splitting loses no text. */
  lemma {:induction false} JoinSplit(s: string)
    ensures Join(Split(s)) == s
  {
    if |s| > 0 {
      var t := Split(s[1..]);
      JoinSplit(s[1..]);
      assert s == [s[0]] + s[1..];
      if s[0] != NewLine && |t| > 1 {
        var r := Split(s);
        assert r[1..] == t[1..];
      }
    }
  }

  /** Splitting undoes joining, for newline-free segments. */
  lemma {:induction false} SplitJoin(ls: seq<string>)
    requires |ls| >= 1
    requires forall k :: 0 <= k < |ls| ==> IsLine(ls[k])
    ensures Split(Join(ls)) == ls
  {
    if |ls| == 1 {
      SplitLine(ls[0]);
    } else {
      SplitJoin(ls[1..]);
      SplitPrefixedLine(ls[0], Join(ls[1..]));
      assert ls == [ls[0]] + ls[1..];
    }
  }

  /** A newline-free string splits into itself. */
  lemma {:induction false} SplitLine(s: string)
    requires IsLine(s)
    ensures Split(s) == [s]
  {
    if |s| > 0 {
      SplitLine(s[1..]);
      assert [s[0]] + s[1..] == s;
    }
  }

  /** Splitting `line + "\n" + rest` yields `line` followed by the segments of `rest`. */
  lemma {:induction false} SplitPrefixedLine(line: string, rest: string)
    requires IsLine(line)
    ensures Split(line + [NewLine] + rest) == [line] + Split(rest)
  {
    var s := line + [NewLine] + rest;
    if |line| == 0 {
      assert s[1..] == rest;
    } else {
      assert s[0] == line[0];
      assert s[1..] == line[1..] + [NewLine] + rest;
      SplitPrefixedLine(line[1..], rest);
      assert [line[0]] + line[1..] == line;
    }
  }

  /** All segments of `s` but the last: the newline-terminated ones. */
  function CompleteLines(s: string): (ls: seq<string>)
  {
    var parts := Split(s);
    parts[..|parts| - 1]
  }

  /** The last segment of `s`: the text after its last newline. */
  function Remainder(s: string): (rest: string)
  {
    var parts := Split(s);
    parts[|parts| - 1]
  }

  /** The segments after a leading character that is not a newline: it joins the first segment. */
  function PrependChar(c: char, parts: seq<string>): (r: seq<string>)
    requires |parts| >= 1
    ensures |r| == |parts| && r[0] == [c] + parts[0] && r[1..] == parts[1..]
  {
    [[c] + parts[0]] + parts[1..]
  }

  /** Prepending a character touches only the first segment. */
  lemma {:induction false} PrependCharAppend(c: char, front: seq<string>, back: seq<string>)
    requires |front| >= 1
    ensures PrependChar(c, front + back) == PrependChar(c, front) + back
  {
    assert (front + back)[1..] == front[1..] + back;
  }

  /** How `split` treats the first character of a string. */
  lemma {:induction false} SplitCons(c: char, s: string)
    ensures c == NewLine ==> Split([c] + s) == [""] + Split(s)
    ensures c != NewLine ==> Split([c] + s) == PrependChar(c, Split(s))
  {
    assert ([c] + s)[1..] == s;
  }

  /** Reading the complete lines and the remainder off a known split. */
  lemma {:induction false} SplitParts(s: string, lines: seq<string>, rest: string)
    requires Split(s) == lines + [rest]
    ensures CompleteLines(s) == lines && Remainder(s) == rest
  {
  }

  /** The segments of `s` are its complete lines followed by its remainder. */
  lemma {:induction false} SplitIsLinesThenRemainder(s: string)
    ensures Split(s) == CompleteLines(s) + [Remainder(s)]
  {
    var parts := Split(s);
    assert parts == parts[..|parts| - 1] + [parts[|parts| - 1]];
  }

  /** The complete lines, a newline, and the remainder make up the whole text again. */
  lemma {:induction false} LinesAndRemainderRestoreText(s: string)
    ensures IsLine(Remainder(s))
    ensures forall k :: 0 <= k < |CompleteLines(s)| ==> IsLine(CompleteLines(s)[k])
    ensures Join(CompleteLines(s) + [Remainder(s)]) == s
  {
    var parts := Split(s);
    assert CompleteLines(s) + [Remainder(s)] == parts;
    SplitSegmentsAreLines(s);
    JoinSplit(s);
  }

  /** Joining one more segment puts a newline before it. */
  lemma {:induction false} JoinSnoc(ls: seq<string>, last: string)
    requires |ls| >= 1
    ensures Join(ls + [last]) == Join(ls) + [NewLine] + last
  {
    if |ls| > 1 {
      JoinSnoc(ls[1..], last);
      assert (ls + [last])[1..] == ls[1..] + [last];
    }
  }

  /** Text made of newline-terminated lines has exactly those lines as its complete lines. */
  lemma {:induction false} TerminatedLines(ls: seq<string>)
    requires |ls| >= 1
    requires forall k :: 0 <= k < |ls| ==> IsLine(ls[k])
    ensures CompleteLines(Join(ls) + [NewLine]) == ls
    ensures Remainder(Join(ls) + [NewLine]) == ""
  {
    JoinSnoc(ls, "");
    assert Join(ls) + [NewLine] + "" == Join(ls) + [NewLine];
    SplitJoin(ls + [""]);
    assert (ls + [""])[..|ls|] == ls;
  }

  /** A text that is empty or ends in a newline leaves nothing to carry. */
  lemma {:induction false} TerminatedTextLeavesNoRemainder(s: string)
    requires s == [] || s[|s| - 1] == NewLine
    ensures Remainder(s) == ""
  {
    if s != [] {
      var front := s[..|s| - 1];
      assert s == front + [NewLine];
      SplitAppend(front, [NewLine]);
      LinesAndRemainderRestoreText(front);
      SplitPrefixedLine(Remainder(front), "");
      assert Remainder(front) + [NewLine] + "" == Remainder(front) + [NewLine];
    }
  }

  /**
   * Appending `b` to `a` leaves the complete lines of `a` alone and continues
   * its last segment: this is what lets a decoder carry only that segment.
   */
  lemma {:induction false} SplitAppend(a: string, b: string)
    ensures Split(a + b) == CompleteLines(a) + Split(Remainder(a) + b)
  {
    if |a| == 0 {
      assert a + b == b;
    } else {
      var c, a' := a[0], a[1..];
      assert a == [c] + a';
      assert a + b == [c] + (a' + b);
      SplitAppend(a', b);
      var lines, rest := CompleteLines(a'), Remainder(a');
      SplitIsLinesThenRemainder(a');
      if c == NewLine {
        PrependNewLine(a', b, lines, rest);
      } else if lines == [] {
        PrependOneSegment(c, a', b, rest);
      } else {
        PrependManySegments(c, a', b, lines, rest);
      }
    }
  }

  /** The newline case of SplitAppend: an empty line comes first. */
  lemma {:induction false} PrependNewLine(a': string, b: string, lines: seq<string>, rest: string)
    requires Split(a') == lines + [rest]
    requires Split(a' + b) == lines + Split(rest + b)
    ensures Split([NewLine] + (a' + b)) == CompleteLines([NewLine] + a') + Split(Remainder([NewLine] + a') + b)
  {
    SplitCons(NewLine, a');
    assert Split([NewLine] + a') == ([""] + lines) + [rest];
    SplitParts([NewLine] + a', [""] + lines, rest);
    SplitCons(NewLine, a' + b);
  }

  /** The character case of SplitAppend when `a'` has no newline. */
  lemma {:induction false} PrependOneSegment(c: char, a': string, b: string, rest: string)
    requires c != NewLine
    requires Split(a') == [rest]
    requires Split(a' + b) == Split(rest + b)
    ensures Split([c] + (a' + b)) == CompleteLines([c] + a') + Split(Remainder([c] + a') + b)
  {
    SplitCons(c, a');
    assert PrependChar(c, [rest]) == [[c] + rest];
    assert Split([c] + a') == [] + [[c] + rest];
    SplitParts([c] + a', [], [c] + rest);
    SplitCons(c, a' + b);
    SplitCons(c, rest + b);
    assert Split([c] + (a' + b)) == Split([c] + (rest + b));
    assert [c] + rest + b == [c] + (rest + b);
    assert Split([c] + (a' + b)) == Split([c] + rest + b);
  }

  /** The character case of SplitAppend when `a'` has a newline: only the first line changes. */
  lemma {:induction false} PrependManySegments(c: char, a': string, b: string, lines: seq<string>, rest: string)
    requires c != NewLine && lines != []
    requires Split(a') == lines + [rest]
    requires Split(a' + b) == lines + Split(rest + b)
    ensures Split([c] + (a' + b)) == CompleteLines([c] + a') + Split(Remainder([c] + a') + b)
  {
    SplitCons(c, a');
    PrependCharAppend(c, lines, [rest]);
    SplitParts([c] + a', PrependChar(c, lines), rest);
    SplitCons(c, a' + b);
    PrependCharAppend(c, lines, Split(rest + b));
  }

  // ---------------------------------------------------------------------------
  // decimal rendering of integers

  predicate IsDigit(c: char) {
    '0' <= c <= '9'
  }

  function DigitChar(d: nat): (c: char)
    requires d < 10
    ensures IsDigit(c) && c as int - '0' as int == d
  {
    (d + '0' as int) as char
  }

  /** The decimal digits of `n`, most significant first, without leading zeros. */
  function NatToDecimal(n: nat): (s: string)
    ensures |s| >= 1 && forall i :: 0 <= i < |s| ==> IsDigit(s[i])
    ensures |s| > 1 ==> s[0] != '0'
  {
    if n < 10 then [DigitChar(n)] else NatToDecimal(n / 10) + [DigitChar(n % 10)]
  }

  /** The number a string of decimal digits denotes. */
  function DecimalValue(s: string): (v: int)
    requires forall i :: 0 <= i < |s| ==> IsDigit(s[i])
  {
    if |s| == 0 then 0
    else DecimalValue(s[..|s| - 1]) * 10 + (s[|s| - 1] as int - '0' as int)
  }

  /** Reading the decimal rendering back gives the number. */
  lemma {:induction false} DecimalRoundTrip(n: nat)
    ensures DecimalValue(NatToDecimal(n)) == n
  {
    if n >= 10 {
      DecimalRoundTrip(n / 10);
      var s := NatToDecimal(n);
      assert s[..|s| - 1] == NatToDecimal(n / 10);
    }
  }

  /** `${n}` for an integer `n`: a minus sign before the digits of a negative number. */
  function IntToDecimal(n: int): (s: string)
    ensures |s| >= 1
    ensures n >= 0 ==> s == NatToDecimal(n)
    ensures n < 0 ==> s == "-" + NatToDecimal(-n)
  {
    if n < 0 then "-" + NatToDecimal(-n) else NatToDecimal(n)
  }
}
