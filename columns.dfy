/**
 * Fixed-width columns (benchutil.go, columnL and columnR).  Both compute
 * the padding as w - len(s); when s is wider than w the padding becomes
 * exactly two spaces instead of being negative.  The functions state the
 * resulting layout; the methods fill a padding buffer space by space as
 * the Go code does and are proved to produce the same strings.
 */
module Columns {

  function Spaces(n: nat): (s: string)
    ensures |s| == n
  {
    seq(n, _ => ' ')
  }

  predicate AllSpaces(s: string) {
    forall i :: 0 <= i < |s| ==> s[i] == ' '
  }

  /** The padding both columns add: w - len, or 2 when the text overflows w. */
  function PadCount(w: int, len: nat): nat {
    if w - len < 0 then 2 else w - len
  }

  /** The width a column of width w takes when it holds text of length len. */
  function CellWidth(w: int, len: nat): nat {
    if len <= w then w else len + 2
  }

  /** columnL: the text padded on the right to width w, or by two spaces when it overflows. */
  function LeftJustified(w: int, s: string): (r: string)
    ensures |r| == CellWidth(w, |s|)
  {
    s + Spaces(PadCount(w, |s|))
  }

  /** columnR: the text padded on the left to width w, or by two spaces when it overflows. */
  function RightJustified(w: int, s: string): (r: string)
    ensures |r| == CellWidth(w, |s|)
  {
    Spaces(PadCount(w, |s|)) + s
  }

  /** A left-justified column is the text followed by spaces only. */
  lemma LeftJustifiedLayout(w: int, s: string)
    ensures var r := LeftJustified(w, s); r[..|s|] == s && AllSpaces(r[|s|..])
  {
    var r := LeftJustified(w, s);
    assert r[|s|..] == Spaces(PadCount(w, |s|));
  }

  /** A right-justified column is spaces only, followed by the text. */
  lemma RightJustifiedLayout(w: int, s: string)
    ensures var r := RightJustified(w, s); r[|r| - |s|..] == s && AllSpaces(r[..|r| - |s|])
  {
    var r := RightJustified(w, s);
    assert r[..|r| - |s|] == Spaces(PadCount(w, |s|));
  }

  /** Strips the trailing spaces of s. */
  function TrimRight(s: string): (r: string)
    ensures |r| <= |s|
  {
    if |s| > 0 && s[|s| - 1] == ' ' then TrimRight(s[..|s| - 1]) else s
  }

  /** Strips the leading spaces of s. */
  function TrimLeft(s: string): (r: string)
    ensures |r| <= |s|
  {
    if |s| > 0 && s[0] == ' ' then TrimLeft(s[1..]) else s
  }

  lemma {:induction false} TrimRightPadding(s: string, n: nat)
    requires |s| == 0 || s[|s| - 1] != ' '
    ensures TrimRight(s + Spaces(n)) == s
    decreases n
  {
    if n > 0 {
      assert (s + Spaces(n))[..|s| + n - 1] == s + Spaces(n - 1);
      TrimRightPadding(s, n - 1);
    }
  }

  lemma {:induction false} TrimLeftPadding(s: string, n: nat)
    requires |s| == 0 || s[0] != ' '
    ensures TrimLeft(Spaces(n) + s) == s
    decreases n
  {
    if n > 0 {
      assert (Spaces(n) + s)[1..] == Spaces(n - 1) + s;
      TrimLeftPadding(s, n - 1);
    }
  }

  /** The text of a left-justified column is recovered by trimming its padding. */
  lemma LeftJustifiedInverse(w: int, s: string)
    requires |s| == 0 || s[|s| - 1] != ' '
    ensures TrimRight(LeftJustified(w, s)) == s
  {
    TrimRightPadding(s, PadCount(w, |s|));
  }

  /** The text of a right-justified column is recovered by trimming its padding. */
  lemma RightJustifiedInverse(w: int, s: string)
    requires |s| == 0 || s[0] != ' '
    ensures TrimLeft(RightJustified(w, s)) == s
  {
    TrimLeftPadding(s, PadCount(w, |s|));
  }

  /** columnR, filling its padding buffer in a loop. */
  method ColumnR(w: int, s: string) returns (r: string)
    ensures r == RightJustified(w, s)
  {
    var pad := w - |s|;
    if pad < 0 {
      pad := 2;
    }
    var padding := new char[pad];
    var i := 0;
    while i < pad
      invariant 0 <= i <= pad
      invariant forall j :: 0 <= j < i ==> padding[j] == ' '
    {
      padding[i] := ' ';
      i := i + 1;
    }
    assert padding[..] == Spaces(pad);
    r := padding[..] + s;
  }

  /** columnL, filling its padding buffer in a loop. */
  method ColumnL(w: int, s: string) returns (r: string)
    ensures r == LeftJustified(w, s)
  {
    var pad := w - |s|;
    if pad < 0 {
      pad := 2;
    }
    var padding := new char[pad];
    var i := 0;
    while i < pad
      invariant 0 <= i <= pad
      invariant forall j :: 0 <= j < i ==> padding[j] == ' '
    {
      padding[i] := ' ';
      i := i + 1;
    }
    assert padding[..] == Spaces(pad);
    r := s + padding[..];
  }
}
