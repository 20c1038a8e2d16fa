/**
 * Text helpers shared by the drop resolver and the subtask parser:
 * Swift's `String.split(separator: "\n")` (which omits empty pieces) and
 * the decimal rendering of an integer used by string interpolation.
 * Strings are sequences of `char`; one `char` stands for one Swift `Character`.
 */
module TextLines {

  /** Length of the leading run of non-newline characters of `s`. */
  function LineLength(s: string): (n: nat)
    ensures n <= |s|
    ensures forall k :: 0 <= k < n ==> s[k] != '\n'
    ensures n < |s| ==> s[n] == '\n'
  {
    if s == [] || s[0] == '\n' then 0 else 1 + LineLength(s[1..])
  }

  /**
   * `s.split(separator: "\n")`: the maximal runs of non-newline characters,
   * in order; empty runs (between consecutive newlines, or at either end)
   * are omitted.
   */
  function SplitLines(s: string): (lines: seq<string>)
    ensures forall i :: 0 <= i < |lines| ==> lines[i] != [] && '\n' !in lines[i]
    decreases |s|
  {
    if s == [] then []
    else if s[0] == '\n' then SplitLines(s[1..])
    else
      var n := LineLength(s);
      [s[..n]] + SplitLines(s[n..])
  }

  /** All characters of `s` except the newlines, in order. */
  function WithoutNewlines(s: string): string
  {
    if s == [] then []
    else if s[0] == '\n' then WithoutNewlines(s[1..])
    else [s[0]] + WithoutNewlines(s[1..])
  }

  /** The concatenation of a sequence of strings. */
  function Concat(lines: seq<string>): string
  {
    if lines == [] then [] else lines[0] + Concat(lines[1..])
  }

  /** The lines joined with a single newline between neighbours. */
  function JoinLines(lines: seq<string>): string
  {
    if lines == [] then []
    else if |lines| == 1 then lines[0]
    else lines[0] + "\n" + JoinLines(lines[1..])
  }

  /** A string that `SplitLines` returns as a piece of its own. */
  predicate IsLine(line: string)
  {
    line != [] && '\n' !in line
  }

  lemma {:induction false} WithoutNewlinesAppend(a: string, b: string)
    ensures WithoutNewlines(a + b) == WithoutNewlines(a) + WithoutNewlines(b)
    decreases |a|
  {
    if a == [] {
      assert a + b == b;
    } else {
      assert (a + b)[1..] == a[1..] + b;
      WithoutNewlinesAppend(a[1..], b);
    }
  }

  lemma {:induction false} WithoutNewlinesOfLine(line: string)
    requires '\n' !in line
    ensures WithoutNewlines(line) == line
    decreases |line|
  {
    if line != [] {
      WithoutNewlinesOfLine(line[1..]);
    }
  }

  /** Splitting loses no character other than the newlines, and keeps their order. */
  lemma {:induction false} SplitLinesKeepsText(s: string)
    ensures Concat(SplitLines(s)) == WithoutNewlines(s)
    decreases |s|
  {
    if s == [] {
    } else if s[0] == '\n' {
      SplitLinesKeepsText(s[1..]);
    } else {
      var n := LineLength(s);
      var rest := SplitLines(s[n..]);
      assert SplitLines(s) == [s[..n]] + rest;
      assert ([s[..n]] + rest)[1..] == rest;
      SplitLinesKeepsText(s[n..]);
      assert s == s[..n] + s[n..];
      WithoutNewlinesAppend(s[..n], s[n..]);
      WithoutNewlinesOfLine(s[..n]);
    }
  }

  /** A string yields no line exactly when it consists of newlines only. */
  lemma {:induction false} SplitLinesEmpty(s: string)
    ensures SplitLines(s) == [] <==> forall k :: 0 <= k < |s| ==> s[k] == '\n'
    decreases |s|
  {
    if s != [] && s[0] == '\n' {
      SplitLinesEmpty(s[1..]);
      if SplitLines(s) == [] {
        forall k | 0 <= k < |s| ensures s[k] == '\n' {
          if k > 0 { assert s[k] == s[1..][k - 1]; }
        }
      } else {
        assert SplitLines(s[1..]) != [];
      }
    }
  }

  /** Splitting at a newline: the lines of the two sides, one after the other. */
  lemma {:induction false} SplitLinesAtNewline(a: string, b: string)
    ensures SplitLines(a + "\n" + b) == SplitLines(a) + SplitLines(b)
    decreases |a|
  {
    var s := a + "\n" + b;
    if a == [] {
      assert s[1..] == b;
    } else if a[0] == '\n' {
      assert s[1..] == a[1..] + "\n" + b;
      SplitLinesAtNewline(a[1..], b);
    } else {
      var n := LineLength(a);
      assert forall k :: 0 <= k < |a| ==> s[k] == a[k];
      assert s[n] == '\n' by {
        if n == |a| { assert s[|a|] == '\n'; } else { assert s[n] == a[n]; }
      }
      assert LineLength(s) == n;
      assert s[..n] == a[..n];
      assert s[n..] == a[n..] + "\n" + b;
      SplitLinesAtNewline(a[n..], b);
    }
  }

  /** A line followed by a newline and more text splits into that line first. */
  lemma SplitLinesCons(line: string, rest: string)
    requires IsLine(line)
    ensures SplitLines(line + "\n" + rest) == [line] + SplitLines(rest)
  {
    var s := line + "\n" + rest;
    var n := LineLength(s);
    assert s[|line|] == '\n';
    assert n == |line|;
    assert s[..n] == line;
    assert s[n..] == "\n" + rest;
    assert s[n..][1..] == rest;
  }

  /** A single line splits into itself. */
  lemma SplitLinesSingle(line: string)
    requires IsLine(line)
    ensures SplitLines(line) == [line]
  {
    var n := LineLength(line);
    assert line[..n] == line;
    assert line[n..] == [];
  }

  /** Round trip: splitting lines joined by newlines gives the lines back. */
  lemma {:induction false} SplitJoinLines(lines: seq<string>)
    requires forall i :: 0 <= i < |lines| ==> IsLine(lines[i])
    ensures SplitLines(JoinLines(lines)) == lines
    decreases |lines|
  {
    if |lines| == 1 {
      SplitLinesSingle(lines[0]);
    } else if |lines| > 1 {
      SplitJoinLines(lines[1..]);
      SplitLinesCons(lines[0], JoinLines(lines[1..]));
      assert lines == [lines[0]] + lines[1..];
    }
  }

  /** The character for a decimal digit. */
  function DigitChar(d: nat): (c: char)
    requires d < 10
    ensures '0' <= c <= '9'
  {
    (48 + d) as char
  }

  /** The decimal digits of `n`, most significant first, without leading zeros. */
  function NatToString(n: nat): (r: string)
    ensures r != []
    ensures forall k :: 0 <= k < |r| ==> '0' <= r[k] <= '9'
    ensures |r| == 1 || r[0] != '0'
  {
    if n < 10 then [DigitChar(n)]
    else NatToString(n / 10) + [DigitChar(n % 10)]
  }

  /** Swift's `"\(n)"` for an `Int`. */
  function IntToString(n: int): (r: string)
    ensures r != []
    ensures ' ' !in r && '\n' !in r
  {
    if n < 0 then "-" + NatToString(-n) else NatToString(n)
  }

  /** The number a string of decimal digits denotes. */
  function DecimalValue(s: string): nat
    requires forall k :: 0 <= k < |s| ==> '0' <= s[k] <= '9'
  {
    if s == [] then 0
    else 10 * DecimalValue(s[..|s| - 1]) + (s[|s| - 1] as int - 48)
  }

  /** Reading back the rendered digits gives the number. */
  lemma {:induction false} DecimalRoundTrip(n: nat)
    ensures DecimalValue(NatToString(n)) == n
  {
    if n >= 10 {
      var r := NatToString(n);
      assert r[..|r| - 1] == NatToString(n / 10);
      DecimalRoundTrip(n / 10);
    }
  }
}
