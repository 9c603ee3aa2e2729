/**
 * Benchmarks and sets of them (benchutil.go, types Bench and Benches): the
 * per-record text and CSV row builders, and the set that records are
 * appended to and that tracks the widest Name, Desc and Note.
 */
module Benchmarks {
  import opened Columns
  import opened Results

  function Max(a: int, b: int): int {
    if a < b then b else a
  }

  /** [x] when the column takes part, nothing otherwise. */
  function Optional<T>(present: bool, x: T): seq<T> {
    if present then [x] else []
  }

  /** Count of CSV fields: the four result values plus each optional text column that takes part. */
  function ColumnCount(nameLen: int, descLen: int, noteLen: int): nat {
    |Optional(nameLen > 0, 0)| + |Optional(descLen > 0, 0)| + 4 + |Optional(noteLen > 0, 0)|
  }

  /** Index of the first result field in a CSV row. */
  function ResultIndex(nameLen: int, descLen: int): nat {
    |Optional(nameLen > 0, 0)| + |Optional(descLen > 0, 0)|
  }

  /** Text column at which the result columns start, when Name and Desc fit their widths. */
  function TextOffset(nameLen: int, descLen: int): nat {
    (if nameLen > 0 then nameLen + 2 else 0) + (if descLen > 0 then descLen + 2 else 0)
  }

  /** Where each of four concatenated sequences, and each of their ends, sits in the concatenation; p is where c starts. */
  lemma Parts<T>(a: seq<T>, b: seq<T>, c: seq<T>, d: seq<T>, p: int)
    requires p == |a| + |b|
    ensures var s := a + b + c + d;
      && s[..|a|] == a && s[|a|..|a| + |b|] == b
      && s[|a| + |b|..|a| + |b| + |c|] == c && s[|a| + |b| + |c|..] == d
      && (|a| > 0 ==> s[0] == a[0])
      && (|b| > 0 ==> s[p - 1] == b[|b| - 1])
      && (forall i :: 0 <= i < |c| ==> s[p + i] == c[i])
      && (|d| > 0 ==> s[|s| - 1] == d[|d| - 1])
  {
  }

  /** The first part of a + b + c + d, split at k. */
  lemma FirstPart<T>(a: seq<T>, b: seq<T>, c: seq<T>, d: seq<T>, k: nat)
    requires k <= |a|
    ensures var s := a + b + c + d; s[..k] == a[..k] && s[k..|a|] == a[k..]
  {
  }

  /** The second part of a + b + c + d, split at k. */
  lemma SecondPart<T>(a: seq<T>, b: seq<T>, c: seq<T>, d: seq<T>, k: nat)
    requires k <= |b|
    ensures var s := a + b + c + d; s[|a|..|a| + k] == b[..k] && s[|a| + k..|a| + |b|] == b[k..]
  {
    var s := a + b + c + d;
    assert s[|a|..|a| + |b|] == b;
  }

  /** The text columns whose widths a set tracks. */
  datatype Field = NameField | DescField | NoteField

  datatype Bench = Bench(name: string, desc: string, note: string, result: Result)
  {
    function Text(f: Field): string {
      match f
      case NameField => name
      case DescField => desc
      case NoteField => note
    }

    /**
     * Bench.txt: Name and Desc left-justified two characters wider than
     * their widths, then the result columns, then the bare Note; a text
     * column is present only when its width is positive.
     */
    function Txt(nameLen: int, descLen: int, noteLen: int): (s: string)
      ensures |s| >= TextOffset(nameLen, descLen) + 64
    {
      TextRow(name, desc, result.String(), note, nameLen, descLen, noteLen)
    }

    /**
     * Bench.csv: the fields Name, Desc, the four result values and Note,
     * in that order, each text field only when its width is positive.
     */
    function Csv(nameLen: int, descLen: int, noteLen: int): (fields: seq<string>)
      ensures |fields| == ColumnCount(nameLen, descLen, noteLen)
    {
      Optional(nameLen > 0, name) + Optional(descLen > 0, desc) + result.Csv() + Optional(noteLen > 0, note)
    }
  }

  /** The text row of Bench.txt over plain strings, r being the rendered result columns. */
  function TextRow(name: string, desc: string, r: string, note: string, nameLen: int, descLen: int, noteLen: int): (s: string)
    ensures |s| >= TextOffset(nameLen, descLen) + |r|
  {
    var nameCol := if nameLen > 0 then LeftJustified(nameLen + 2, name) else "";
    var descCol := if descLen > 0 then LeftJustified(descLen + 2, desc) else "";
    var noteCol := if noteLen > 0 then note else "";
    nameCol + descCol + r + noteCol
  }

  /** The CSV header row: the column names, chosen as Bench.Csv chooses its fields. */
  function CsvHeader(nameLen: int, descLen: int, noteLen: int): (fields: seq<string>)
    ensures |fields| == ColumnCount(nameLen, descLen, noteLen)
  {
    Optional(nameLen > 0, "Name") + Optional(descLen > 0, "Description")
      + ["Operations", "Ns/Op", "Bytes/Op", "Allocs/Op"] + Optional(noteLen > 0, "Note")
  }

  /**
   * A record's CSV fields and the header agree column by column: Name,
   * Description, the four result values in order, Note, each present only
   * when its width is positive.
   */
  lemma CsvColumnsAgree(b: Bench, nameLen: int, descLen: int, noteLen: int)
    ensures var h, f, k := CsvHeader(nameLen, descLen, noteLen), b.Csv(nameLen, descLen, noteLen), ResultIndex(nameLen, descLen);
      && |h| == |f|
      && f[k..k + 4] == b.result.Csv() && h[k..k + 4] == ["Operations", "Ns/Op", "Bytes/Op", "Allocs/Op"]
      && (nameLen > 0 ==> f[0] == b.name && h[0] == "Name")
      && (descLen > 0 ==> f[ResultIndex(nameLen, 0)] == b.desc && h[ResultIndex(nameLen, 0)] == "Description")
      && (noteLen > 0 ==> f[|f| - 1] == b.note && h[|h| - 1] == "Note")
  {
    Parts(Optional(nameLen > 0, b.name), Optional(descLen > 0, b.desc), b.result.Csv(), Optional(noteLen > 0, b.note),
          ResultIndex(nameLen, descLen));
    Parts(Optional(nameLen > 0, "Name"), Optional(descLen > 0, "Description"),
      ["Operations", "Ns/Op", "Bytes/Op", "Allocs/Op"], Optional(noteLen > 0, "Note"), ResultIndex(nameLen, descLen));
  }

  /** The length of the longest text of field f among bs (0 when there is none). */
  function Widest(bs: seq<Bench>, f: Field): nat
    decreases |bs|
  {
    if bs == [] then 0 else Max(Widest(bs[..|bs| - 1], f), |bs[|bs| - 1].Text(f)|)
  }

  /** No text of field f is longer than Widest. */
  lemma {:induction false} WidestIsUpperBound(bs: seq<Bench>, f: Field)
    ensures forall i :: 0 <= i < |bs| ==> |bs[i].Text(f)| <= Widest(bs, f)
    decreases |bs|
  {
    if bs != [] {
      var prefix := bs[..|bs| - 1];
      WidestIsUpperBound(prefix, f);
      assert forall i :: 0 <= i < |prefix| ==> bs[i] == prefix[i];
    }
  }

  /** Widest is the length of some text of field f, or 0: it is the maximum, not just a bound. */
  lemma {:induction false} WidestIsAttained(bs: seq<Bench>, f: Field)
    ensures Widest(bs, f) == 0 || exists i :: 0 <= i < |bs| && |bs[i].Text(f)| == Widest(bs, f)
    decreases |bs|
  {
    if bs != [] && Widest(bs, f) != 0 {
      var prefix := bs[..|bs| - 1];
      if Widest(bs, f) == Widest(prefix, f) {
        WidestIsAttained(prefix, f);
        var i :| 0 <= i < |prefix| && |prefix[i].Text(f)| == Widest(prefix, f);
        assert bs[i] == prefix[i];
      } else {
        assert |bs[|bs| - 1].Text(f)| == Widest(bs, f);
      }
    }
  }

  /** The widths cover every record's Name, Desc and Note. */
  predicate Covers(bs: seq<Bench>, nameLen: int, descLen: int, noteLen: int) {
    && Widest(bs, NameField) <= nameLen
    && Widest(bs, DescField) <= descLen
    && Widest(bs, NoteField) <= noteLen
  }

  /**
   * The layout of a text row: with Name and Desc no wider than their
   * widths, the result columns r start at TextOffset, and the row ends with
   * Note when the note column takes part, with r otherwise.
   */
  lemma RowLayout(name: string, desc: string, r: string, note: string, nameLen: int, descLen: int, noteLen: int)
    requires nameLen > 0 ==> |name| <= nameLen
    requires descLen > 0 ==> |desc| <= descLen
    ensures var s, off := TextRow(name, desc, r, note, nameLen, descLen, noteLen), TextOffset(nameLen, descLen);
      && |s| >= off + |r| && s[off..off + |r|] == r
      && (noteLen > 0 ==> |s| == off + |r| + |note| && s[off + |r|..] == note)
      && (noteLen <= 0 ==> |s| == off + |r|)
  {
    var nameCol := if nameLen > 0 then LeftJustified(nameLen + 2, name) else "";
    var descCol := if descLen > 0 then LeftJustified(descLen + 2, desc) else "";
    var noteCol := if noteLen > 0 then note else "";
    Parts(nameCol, descCol, r, noteCol, |nameCol| + |descCol|);
    assert |nameCol| + |descCol| == TextOffset(nameLen, descLen);
  }

  /**
   * The text cells of a row: with Name and Desc no wider than their
   * widths, Name is padded with spaces to nameLen + 2, and Desc, which
   * starts right after the name cell, likewise to descLen + 2.
   */
  lemma RowCells(name: string, desc: string, r: string, note: string, nameLen: int, descLen: int, noteLen: int)
    requires nameLen > 0 ==> |name| <= nameLen
    requires descLen > 0 ==> |desc| <= descLen
    ensures var s, off := TextRow(name, desc, r, note, nameLen, descLen, noteLen), TextOffset(nameLen, descLen);
      && |s| >= off
      && (nameLen > 0 ==> s[..|name|] == name && AllSpaces(s[|name|..nameLen + 2]))
      && (descLen > 0 ==> var lo := TextOffset(nameLen, 0);
            s[lo..lo + |desc|] == desc && AllSpaces(s[lo + |desc|..off]))
  {
    var nameCol := if nameLen > 0 then LeftJustified(nameLen + 2, name) else "";
    var descCol := if descLen > 0 then LeftJustified(descLen + 2, desc) else "";
    var noteCol := if noteLen > 0 then note else "";
    assert |nameCol| == TextOffset(nameLen, 0);
    if nameLen > 0 {
      LeftJustifiedLayout(nameLen + 2, name);
      FirstPart(nameCol, descCol, r, noteCol, |name|);
    }
    if descLen > 0 {
      LeftJustifiedLayout(descLen + 2, desc);
      SecondPart(nameCol, descCol, r, noteCol, |desc|);
      assert |nameCol| + descLen + 2 == TextOffset(nameLen, descLen);
    }
  }

  /**
   * A set of benchmarks (type Benches).  Name, Desc and Note describe the
   * set; nameLen, descLen and noteLen cache the widest Name, Desc and Note
   * seen by the last SetLens.
   */
  class Benches {
    var name: string
    var desc: string
    var note: string
    var benchmarks: seq<Bench>
    var nameLen: nat
    var descLen: nat
    var noteLen: nat

    /** A set with the given description and no benchmarks (Go's zero value with Name, Desc, Note set). */
    constructor (name: string, desc: string, note: string)
      ensures this.name == name && this.desc == desc && this.note == note
      ensures benchmarks == [] && nameLen == 0 && descLen == 0 && noteLen == 0
    {
      this.name, this.desc, this.note := name, desc, note;
      benchmarks := [];
      nameLen, descLen, noteLen := 0, 0, 0;
    }

    /** A copy of other, as Go makes when a Benches is passed by value. */
    constructor Copy(other: Benches)
      ensures name == other.name && desc == other.desc && note == other.note
      ensures benchmarks == other.benchmarks
      ensures nameLen == other.nameLen && descLen == other.descLen && noteLen == other.noteLen
    {
      name, desc, note := other.name, other.desc, other.note;
      benchmarks := other.benchmarks;
      nameLen, descLen, noteLen := other.nameLen, other.descLen, other.noteLen;
    }

    /** Add appends bench; nothing else changes. */
    method Add(bench: Bench)
      modifies this`benchmarks
      ensures benchmarks == old(benchmarks) + [bench]
      ensures |benchmarks| == old(|benchmarks|) + 1 && benchmarks[|benchmarks| - 1] == bench
      ensures nameLen == old(nameLen) && descLen == old(descLen) && noteLen == old(noteLen)
    {
      benchmarks := benchmarks + [bench];
    }

    /**
     * setLens: raises each cached width to the widest text of its field.
     * The widths never decrease and, starting from 0, become the maxima.
     */
    method SetLens()
      modifies this`nameLen, this`descLen, this`noteLen
      ensures nameLen == Max(old(nameLen), Widest(benchmarks, NameField))
      ensures descLen == Max(old(descLen), Widest(benchmarks, DescField))
      ensures noteLen == Max(old(noteLen), Widest(benchmarks, NoteField))
      ensures Covers(benchmarks, nameLen, descLen, noteLen)
    {
      var i := 0;
      while i < |benchmarks|
        invariant 0 <= i <= |benchmarks|
        invariant nameLen == Max(old(nameLen), Widest(benchmarks[..i], NameField))
        invariant descLen == Max(old(descLen), Widest(benchmarks[..i], DescField))
        invariant noteLen == Max(old(noteLen), Widest(benchmarks[..i], NoteField))
      {
        var v := benchmarks[i];
        if |v.name| > nameLen {
          nameLen := |v.name|;
        }
        if |v.desc| > descLen {
          descLen := |v.desc|;
        }
        if |v.note| > noteLen {
          noteLen := |v.note|;
        }
        assert benchmarks[..i + 1][..i] == benchmarks[..i];
        i := i + 1;
      }
      assert benchmarks[..i] == benchmarks;
    }
  }
}
