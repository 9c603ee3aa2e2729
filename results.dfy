/**
 * A benchmark's measured result (benchutil.go, type Result) and the ways it
 * is rendered: with unit suffixes in right-justified text columns, and as
 * four bare decimal CSV fields.
 */
module Results {
  import opened Wrappers
  import opened Decimal
  import opened Columns

  /** Go's int64. */
  type Int64 = x: int | -0x8000_0000_0000_0000 <= x < 0x8000_0000_0000_0000

  /** Widths of the four right-justified text columns, in output order. */
  const OpsWidth := 15
  const NsOpWidth := 15
  const BytesOpWidth := 18
  const AllocsOpWidth := 16

  datatype Result = Result(ops: Int64, nsOp: Int64, bytesOp: Int64, allocsOp: Int64)
  {
    function OpsString(): string {
      FormatInt(ops) + " ops"
    }

    function NsOpString(): string {
      FormatInt(nsOp) + " ns/Op"
    }

    function BytesOpString(): string {
      FormatInt(bytesOp) + " bytes/Op"
    }

    function AllocsOpString(): string {
      FormatInt(allocsOp) + " allocs/Op"
    }

    /** The four suffixed values, each right-justified in its column. */
    function String(): (s: string)
      ensures |s| >= OpsWidth + NsOpWidth + BytesOpWidth + AllocsOpWidth
    {
      RightJustified(OpsWidth, OpsString()) + RightJustified(NsOpWidth, NsOpString())
        + RightJustified(BytesOpWidth, BytesOpString()) + RightJustified(AllocsOpWidth, AllocsOpString())
    }

    /** Every formatted value fits its column, so no column overflows. */
    predicate Fits() {
      && |OpsString()| <= OpsWidth
      && |NsOpString()| <= NsOpWidth
      && |BytesOpString()| <= BytesOpWidth
      && |AllocsOpString()| <= AllocsOpWidth
    }

    /** The four values rendered with %d and no unit. */
    function Csv(): (fields: seq<string>)
      ensures |fields| == 4
    {
      [FormatInt(ops), FormatInt(nsOp), FormatInt(bytesOp), FormatInt(allocsOp)]
    }
  }

  /** x rendered with %d followed by unit ends with unit, and its number reads back from the front. */
  lemma WithUnitReadsBack(x: int, unit: string)
    ensures var s := FormatInt(x) + unit;
      |s| > |unit| && s[|s| - |unit|..] == unit && ParseInt(s[..|s| - |unit|]) == Some(x)
  {
    FormatIntRoundTrip(x);
    var s := FormatInt(x) + unit;
    assert s[..|s| - |unit|] == FormatInt(x);
  }

  /**
   * Each suffixed string is the value's %d rendering followed by its unit;
   * the value reads back from the text before the unit.
   */
  lemma UnitStringsReadBack(r: Result)
    ensures var s := r.OpsString(); s[|s| - 4..] == " ops" && ParseInt(s[..|s| - 4]) == Some(r.ops)
    ensures var s := r.NsOpString(); s[|s| - 6..] == " ns/Op" && ParseInt(s[..|s| - 6]) == Some(r.nsOp)
    ensures var s := r.BytesOpString(); s[|s| - 9..] == " bytes/Op" && ParseInt(s[..|s| - 9]) == Some(r.bytesOp)
    ensures var s := r.AllocsOpString(); s[|s| - 10..] == " allocs/Op" && ParseInt(s[..|s| - 10]) == Some(r.allocsOp)
  {
    WithUnitReadsBack(r.ops, " ops");
    WithUnitReadsBack(r.nsOp, " ns/Op");
    WithUnitReadsBack(r.bytesOp, " bytes/Op");
    WithUnitReadsBack(r.allocsOp, " allocs/Op");
  }

  /**
   * The CSV fields are exactly the four %d renderings, in the order Ops,
   * NsOp, BytesOp, AllocsOp, and each parses back to its value.
   */
  lemma CsvReadsBack(r: Result)
    ensures var f := r.Csv();
      && f == [FormatInt(r.ops), FormatInt(r.nsOp), FormatInt(r.bytesOp), FormatInt(r.allocsOp)]
      && ParseInt(f[0]) == Some(r.ops) && ParseInt(f[1]) == Some(r.nsOp)
      && ParseInt(f[2]) == Some(r.bytesOp) && ParseInt(f[3]) == Some(r.allocsOp)
  {
    FormatIntRoundTrip(r.ops);
    FormatIntRoundTrip(r.nsOp);
    FormatIntRoundTrip(r.bytesOp);
    FormatIntRoundTrip(r.allocsOp);
  }

  /** A right-justified cell of width w that t fits, found at offset lo of s. */
  lemma CellAt(s: string, lo: nat, w: nat, t: string)
    requires |t| <= w && lo + w <= |s| && s[lo..lo + w] == RightJustified(w, t)
    ensures s[lo + w - |t|..lo + w] == t && AllSpaces(s[lo..lo + w - |t|])
  {
    var cell := RightJustified(w, t);
    RightJustifiedLayout(w, t);
    assert s[lo + w - |t|..lo + w] == cell[w - |t|..];
    assert s[lo..lo + w - |t|] == cell[..w - |t|];
  }

  /** The layout of four right-justified cells of widths 15, 15, 18 and 16 that their texts fit. */
  lemma {:induction false} FourCells(t0: string, t1: string, t2: string, t3: string)
    requires |t0| <= 15 && |t1| <= 15 && |t2| <= 18 && |t3| <= 16
    ensures var s := RightJustified(15, t0) + RightJustified(15, t1) + RightJustified(18, t2) + RightJustified(16, t3);
      && |s| == 64
      && s[15 - |t0|..15] == t0 && AllSpaces(s[..15 - |t0|])
      && s[30 - |t1|..30] == t1 && AllSpaces(s[15..30 - |t1|])
      && s[48 - |t2|..48] == t2 && AllSpaces(s[30..48 - |t2|])
      && s[64 - |t3|..64] == t3 && AllSpaces(s[48..64 - |t3|])
  {
    var s := RightJustified(15, t0) + RightJustified(15, t1) + RightJustified(18, t2) + RightJustified(16, t3);
    assert s[0..15] == RightJustified(15, t0);
    assert s[15..30] == RightJustified(15, t1);
    assert s[30..48] == RightJustified(18, t2);
    assert s[48..64] == RightJustified(16, t3);
    CellAt(s, 0, 15, t0);
    CellAt(s, 15, 15, t1);
    CellAt(s, 30, 18, t2);
    CellAt(s, 48, 16, t3);
  }

  /**
   * When every value fits its column, the text is exactly 64 characters and
   * each value ends at a fixed column (15, 30, 48, 64), so results of
   * different benchmarks line up under each other.
   */
  lemma StringLayout(r: Result)
    requires r.Fits()
    ensures var s, o, n, b, a := r.String(), r.OpsString(), r.NsOpString(), r.BytesOpString(), r.AllocsOpString();
      && |s| == 64
      && s[15 - |o|..15] == o && AllSpaces(s[..15 - |o|])
      && s[30 - |n|..30] == n && AllSpaces(s[15..30 - |n|])
      && s[48 - |b|..48] == b && AllSpaces(s[30..48 - |b|])
      && s[64 - |a|..64] == a && AllSpaces(s[48..64 - |a|])
  {
    FourCells(r.OpsString(), r.NsOpString(), r.BytesOpString(), r.AllocsOpString());
  }
}
