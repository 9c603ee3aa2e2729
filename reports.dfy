/**
 * The outputs of a set of benchmarks (benchutil.go): the lines that
 * StringBench.Out prints, and the CSV records that csvOut hands to its
 * writer for CSVBench.Out and, as an intermediate table, for MDBench.Out.
 */
module Reports {
  import opened Wrappers
  import opened Columns
  import opened Benchmarks

  function Min(a: int, b: int): int {
    if a < b then a else b
  }

  // ---------------------------------------------------------------- text

  /** The text rows of bs, in insertion order. */
  function TxtLines(bs: seq<Bench>, nameLen: int, descLen: int, noteLen: int): seq<string> {
    seq(|bs|, i requires 0 <= i < |bs| => bs[i].Txt(nameLen, descLen, noteLen))
  }

  lemma TxtLinesAt(bs: seq<Bench>, nameLen: int, descLen: int, noteLen: int)
    ensures |TxtLines(bs, nameLen, descLen, noteLen)| == |bs|
    ensures forall i :: 0 <= i < |bs| ==> TxtLines(bs, nameLen, descLen, noteLen)[i] == bs[i].Txt(nameLen, descLen, noteLen)
  {
  }

  /**
   * The lines StringBench.Out prints, as written: the set's Name when it
   * has one; then, when the set has a Desc, the set's Name again; one row
   * per benchmark; and, again when the set has a Desc, the set's Name.
   * The set's Desc and Note themselves are never printed.
   */
  function TextReport(setName: string, setDesc: string, bs: seq<Bench>, nameLen: int, descLen: int, noteLen: int): seq<string> {
    Optional(|setName| > 0, setName) + Optional(|setDesc| > 0, setName)
      + TxtLines(bs, nameLen, descLen, noteLen) + Optional(|setDesc| > 0, setName)
  }

  /** Number of lines TextReport puts before the benchmark rows. */
  function Preamble(setName: string, setDesc: string): nat {
    |Optional(|setName| > 0, setName)| + |Optional(|setDesc| > 0, setName)|
  }

  /**
   * TextReport holds one row per benchmark, in insertion order, between the
   * preamble and the closing line; the lines meant for Desc and Note repeat
   * the set's Name.
   */
  lemma TextReportLines(setName: string, setDesc: string, bs: seq<Bench>, nameLen: int, descLen: int, noteLen: int)
    ensures var lines, p := TextReport(setName, setDesc, bs, nameLen, descLen, noteLen), Preamble(setName, setDesc);
      && |lines| == p + |bs| + (if |setDesc| > 0 then 1 else 0)
      && (forall i :: 0 <= i < |bs| ==> lines[p + i] == bs[i].Txt(nameLen, descLen, noteLen))
      && (|setName| > 0 ==> lines[0] == setName)
      && (|setDesc| > 0 ==> lines[p - 1] == setName && lines[|lines| - 1] == setName)
  {
    TxtLinesAt(bs, nameLen, descLen, noteLen);
    Parts(Optional(|setName| > 0, setName), Optional(|setDesc| > 0, setName),
          TxtLines(bs, nameLen, descLen, noteLen), Optional(|setDesc| > 0, setName), Preamble(setName, setDesc));
  }

  /**
   * After SetLens every benchmark's row has its result columns at the same
   * offset, and its Name is followed by spaces up to column nameLen + 2, so
   * by at least two of them.
   */
  lemma TextRowsAligned(bs: seq<Bench>, nameLen: int, descLen: int, noteLen: int)
    requires Covers(bs, nameLen, descLen, noteLen)
    ensures forall i :: 0 <= i < |bs| ==>
      var s, r, off := TxtLines(bs, nameLen, descLen, noteLen)[i], bs[i].result.String(), TextOffset(nameLen, descLen);
      && |s| >= off + |r| && s[off..off + |r|] == r
      && (nameLen > 0 ==> |bs[i].name| <= nameLen && s[..|bs[i].name|] == bs[i].name
                          && AllSpaces(s[|bs[i].name|..nameLen + 2]))
  {
    TxtLinesAt(bs, nameLen, descLen, noteLen);
    WidestIsUpperBound(bs, NameField);
    WidestIsUpperBound(bs, DescField);
    forall i | 0 <= i < |bs|
      ensures var s, r, off := TxtLines(bs, nameLen, descLen, noteLen)[i], bs[i].result.String(), TextOffset(nameLen, descLen);
        && |s| >= off + |r| && s[off..off + |r|] == r
        && (nameLen > 0 ==> |bs[i].name| <= nameLen && s[..|bs[i].name|] == bs[i].name
                            && AllSpaces(s[|bs[i].name|..nameLen + 2]))
    {
      var b := bs[i];
      assert |b.Text(NameField)| <= nameLen && |b.Text(DescField)| <= descLen;
      RowLayout(b.name, b.desc, b.result.String(), b.note, nameLen, descLen, noteLen);
      RowCells(b.name, b.desc, b.result.String(), b.note, nameLen, descLen, noteLen);
    }
  }

  /** StringBench.Out: SetLens, then the lines of TextReport, one benchmark row at a time. */
  method StringOut(b: Benches) returns (lines: seq<string>)
    modifies b`nameLen, b`descLen, b`noteLen
    ensures b.nameLen == Max(old(b.nameLen), Widest(b.benchmarks, NameField))
    ensures b.descLen == Max(old(b.descLen), Widest(b.benchmarks, DescField))
    ensures b.noteLen == Max(old(b.noteLen), Widest(b.benchmarks, NoteField))
    ensures Covers(b.benchmarks, b.nameLen, b.descLen, b.noteLen)
    ensures lines == TextReport(b.name, b.desc, b.benchmarks, b.nameLen, b.descLen, b.noteLen)
  {
    b.SetLens();
    var name, desc, bs := b.name, b.desc, b.benchmarks;
    var nameLen, descLen, noteLen := b.nameLen, b.descLen, b.noteLen;
    lines := [];
    if |name| > 0 {
      lines := lines + [name];
    }
    if |desc| > 0 {
      lines := lines + [name];
    }
    ghost var preamble := lines;
    assert preamble == Optional(|name| > 0, name) + Optional(|desc| > 0, name);
    lines := PrintRows(lines, bs, nameLen, descLen, noteLen);
    ghost var closing := Optional(|desc| > 0, name);
    if |desc| > 0 {
      lines := lines + [name];
    }
    assert lines == preamble + TxtLines(bs, nameLen, descLen, noteLen) + closing;
  }

  /** The loop of StringBench.Out: after the lines printed so far, one text row per benchmark, in order. */
  method PrintRows(printed: seq<string>, bs: seq<Bench>, nameLen: int, descLen: int, noteLen: int)
    returns (lines: seq<string>)
    ensures lines == printed + TxtLines(bs, nameLen, descLen, noteLen)
  {
    ghost var rows := TxtLines(bs, nameLen, descLen, noteLen);
    TxtLinesAt(bs, nameLen, descLen, noteLen);
    NothingTaken(printed, rows);
    lines := printed;
    var i := 0;
    while i < |bs|
      invariant 0 <= i <= |bs|
      invariant lines == printed + rows[..i]
    {
      var line := bs[i].Txt(nameLen, descLen, noteLen);
      AppendNext(lines, printed, rows, i, line);
      lines := lines + [line];
      i := i + 1;
    }
    AllTaken(printed, rows);
  }

  /** Appending x == t[i] to base + t[..i] gives base + t[..i + 1]. */
  lemma AppendNext<T>(s: seq<T>, base: seq<T>, t: seq<T>, i: nat, x: T)
    requires i < |t| && x == t[i] && s == base + t[..i]
    ensures s + [x] == base + t[..i + 1]
  {
    assert t[..i + 1] == t[..i] + [t[i]];
  }

  /** A prefix of t taken up to |t| is t. */
  lemma AllTaken<T>(base: seq<T>, t: seq<T>)
    ensures base + t[..|t|] == base + t
  {
    assert t[..|t|] == t;
  }

  // ---------------------------------------------------------------- CSV

  /** The CSV records of bs, in insertion order. */
  function CsvRows(bs: seq<Bench>, nameLen: int, descLen: int, noteLen: int): seq<seq<string>> {
    seq(|bs|, i requires 0 <= i < |bs| => bs[i].Csv(nameLen, descLen, noteLen))
  }

  lemma CsvRowsAt(bs: seq<Bench>, nameLen: int, descLen: int, noteLen: int)
    ensures |CsvRows(bs, nameLen, descLen, noteLen)| == |bs|
    ensures forall i :: 0 <= i < |bs| ==> CsvRows(bs, nameLen, descLen, noteLen)[i] == bs[i].Csv(nameLen, descLen, noteLen)
  {
  }

  /** The records csvOut writes when no write fails: the header, then one record per benchmark. */
  function CsvTable(bs: seq<Bench>, nameLen: int, descLen: int, noteLen: int): seq<seq<string>> {
    [CsvHeader(nameLen, descLen, noteLen)] + CsvRows(bs, nameLen, descLen, noteLen)
  }

  /**
   * The CSV table has 1 + |bs| records: the header first, then each
   * benchmark's record in insertion order, every record as wide as the header.
   */
  lemma CsvTableShape(bs: seq<Bench>, nameLen: int, descLen: int, noteLen: int)
    ensures var t := CsvTable(bs, nameLen, descLen, noteLen);
      && |t| == 1 + |bs|
      && t[0] == CsvHeader(nameLen, descLen, noteLen)
      && (forall i :: 0 <= i < |bs| ==> t[i + 1] == bs[i].Csv(nameLen, descLen, noteLen))
      && (forall i :: 0 <= i < |t| ==> |t[i]| == |t[0]| == ColumnCount(nameLen, descLen, noteLen))
  {
    CsvRowsAt(bs, nameLen, descLen, noteLen);
    ConsIndex(CsvHeader(nameLen, descLen, noteLen), CsvRows(bs, nameLen, descLen, noteLen));
    CsvColumnCounts(bs, nameLen, descLen, noteLen);
  }

  /** Where the elements of [x] + r sit. */
  lemma ConsIndex<T>(x: T, r: seq<T>)
    ensures |[x] + r| == 1 + |r| && ([x] + r)[0] == x
    ensures forall i :: 0 <= i < |r| ==> ([x] + r)[i + 1] == r[i]
  {
  }

  /** Every benchmark's record has as many fields as the header. */
  lemma CsvColumnCounts(bs: seq<Bench>, nameLen: int, descLen: int, noteLen: int)
    ensures forall i :: 0 <= i < |bs| ==> |bs[i].Csv(nameLen, descLen, noteLen)| == ColumnCount(nameLen, descLen, noteLen)
  {
  }

  datatype WriteError = WriteError

  /**
   * The csv.Writer a CSV report is written to, seen as the sequence of
   * records handed to it.  The stream below it accepts `capacity` more
   * records; a write beyond that fails and changes nothing.
   */
  class CsvWriter {
    var rows: seq<seq<string>>
    var capacity: nat

    constructor (capacity: nat)
      ensures rows == [] && this.capacity == capacity
    {
      rows := [];
      this.capacity := capacity;
    }

    method Write(record: seq<string>) returns (err: Option<WriteError>)
      modifies this
      ensures err.None? <==> old(capacity) > 0
      ensures err.None? ==> rows == old(rows) + [record] && capacity == old(capacity) - 1
      ensures err.Some? ==> rows == old(rows) && capacity == old(capacity)
    {
      if capacity == 0 {
        return Some(WriteError);
      }
      rows := rows + [record];
      capacity := capacity - 1;
      err := None;
    }
  }

  /**
   * csvOut: on its own copy of the set (Go passes Benches by value), runs
   * SetLens, writes the header record, then one record per benchmark, and
   * returns at the first write that fails.  The caller's set is unchanged.
   */
  method CsvOut(w: CsvWriter, benches: Benches) returns (err: Option<WriteError>)
    modifies w
    ensures var t := CsvTable(benches.benchmarks,
                              Max(benches.nameLen, Widest(benches.benchmarks, NameField)),
                              Max(benches.descLen, Widest(benches.benchmarks, DescField)),
                              Max(benches.noteLen, Widest(benches.benchmarks, NoteField)));
      && w.rows == old(w.rows) + t[..Min(|t|, old(w.capacity))]
      && (err.None? <==> |t| <= old(w.capacity))
  {
    var copy := new Benches.Copy(benches);
    copy.SetLens();
    var bs, nameLen, descLen, noteLen := copy.benchmarks, copy.nameLen, copy.descLen, copy.noteLen;
    assert bs == benches.benchmarks && nameLen == Max(benches.nameLen, Widest(bs, NameField))
      && descLen == Max(benches.descLen, Widest(bs, DescField)) && noteLen == Max(benches.noteLen, Widest(bs, NoteField));
    var header := CsvHeader(nameLen, descLen, noteLen);
    ghost var rows := CsvRows(bs, nameLen, descLen, noteLen);
    ghost var cap, before := w.capacity, w.rows;
    err := w.Write(header);
    if err.Some? {
      NothingTaken(before, [header] + rows);
      return;
    }
    err := WriteBenchRecords(w, bs, nameLen, descLen, noteLen);
    HeadThenTaken(before, header, rows, Min(|rows|, cap - 1));
  }

  /**
   * The loop of csvOut: one record per benchmark, in order, stopping at the
   * first write that fails.
   */
  method WriteBenchRecords(w: CsvWriter, bs: seq<Bench>, nameLen: int, descLen: int, noteLen: int)
    returns (err: Option<WriteError>)
    modifies w
    ensures var rows := CsvRows(bs, nameLen, descLen, noteLen);
      && w.rows == old(w.rows) + rows[..Min(|rows|, old(w.capacity))]
      && (err.None? <==> |rows| <= old(w.capacity))
  {
    ghost var rows := CsvRows(bs, nameLen, descLen, noteLen);
    CsvRowsAt(bs, nameLen, descLen, noteLen);
    err := None;
    var i := 0;
    while i < |bs|
      invariant 0 <= i <= |bs|
      invariant w.rows == old(w.rows) + rows[..i]
      invariant w.capacity + i == old(w.capacity)
      invariant err.None?
    {
      var line := bs[i].Csv(nameLen, descLen, noteLen);
      ghost var before := w.rows;
      err := w.Write(line);
      if err.Some? {
        assert Min(|rows|, old(w.capacity)) == i;
        return;
      }
      PrefixGrows(rows, i);
      i := i + 1;
    }
    assert rows[..i] == rows;
  }

  /** Appending an empty prefix of t changes nothing. */
  lemma NothingTaken<T>(base: seq<T>, t: seq<T>)
    ensures base == base + t[..0]
  {
    assert t[..0] == [];
  }

  /** x written, then k elements of rest, is the first k + 1 elements of [x] + rest. */
  lemma HeadThenTaken<T>(base: seq<T>, x: T, rest: seq<T>, k: nat)
    requires k <= |rest|
    ensures base + [x] + rest[..k] == base + ([x] + rest)[..k + 1]
  {
    assert ([x] + rest)[..k + 1] == [x] + rest[..k];
  }

  /** A prefix one element longer. */
  lemma PrefixGrows<T>(t: seq<T>, k: nat)
    requires k < |t|
    ensures t[..k + 1] == t[..k] + [t[k]]
  {
  }

  /**
   * The CSV stage of MDBench.Out: SetLens on the set itself, then csvOut
   * into an in-memory buffer, which accepts every record.  The buffer's
   * records are what the Markdown converter receives.
   */
  method MarkdownCsv(b: Benches) returns (rows: seq<seq<string>>, err: Option<WriteError>)
    modifies b`nameLen, b`descLen, b`noteLen
    ensures b.nameLen == Max(old(b.nameLen), Widest(b.benchmarks, NameField))
    ensures b.descLen == Max(old(b.descLen), Widest(b.benchmarks, DescField))
    ensures b.noteLen == Max(old(b.noteLen), Widest(b.benchmarks, NoteField))
    ensures err.None?
    ensures rows == CsvTable(b.benchmarks, b.nameLen, b.descLen, b.noteLen)
  {
    b.SetLens();
    var buffer := new CsvWriter(|b.benchmarks| + 1);
    ghost var t := CsvTable(b.benchmarks, b.nameLen, b.descLen, b.noteLen);
    assert |t| == |b.benchmarks| + 1;
    assert Max(b.nameLen, Widest(b.benchmarks, NameField)) == b.nameLen
      && Max(b.descLen, Widest(b.benchmarks, DescField)) == b.descLen
      && Max(b.noteLen, Widest(b.benchmarks, NoteField)) == b.noteLen;
    err := CsvOut(buffer, b);
    rows := buffer.rows;
    assert Min(|t|, |b.benchmarks| + 1) == |t|;
    AllTaken([], t);
  }


  /** The field alignments MDBench.Out gives the Markdown converter: fixed, whatever columns take part. */
  const MarkdownAlignment: seq<string> := ["l", "r", "r", "r", "r"]
}
