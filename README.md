# benchutil in Dafny

A model of the layout engine of `benchutil` (mohae/benchutil, Go). The package collects benchmark records in a set and renders them in three ways:

- aligned text lines (`StringBench.Out`);
- CSV records (`CSVBench.Out`, through `csvOut`);
- the CSV table that `MDBench.Out` hands to a Markdown converter.

The model covers:

- the set itself, with `Add` and `setLens`;
- the fixed-width padding helpers `columnL` and `columnR`;
- the per-record builders `Bench.txt`, `Bench.csv`, `Result.String`, `Result.CSV` and the unit-suffix formatters;
- the CSV header;
- the record sequence `csvOut` writes;
- the line sequence `StringBench.Out` prints.

Modules, one file each:

- `Wrappers` (`wrappers.dfy`): `Option`.
- `Decimal` (`decimal.dfy`): Go's `%d` rendering of an integer, as `FormatInt`. A reference parser, `ParseInt`, is used to prove the rendering lossless. The parser is not part of the package.
- `Columns` (`columns.dfy`):
  - `LeftJustified` and `RightJustified` state the layout of `columnL` and `columnR`.
  - `ColumnL` and `ColumnR` fill a padding buffer space by space, as the Go code does, and are proved equal to those functions.
  - When the text is wider than the column, the padding is exactly two spaces, as in the source.
- `Results` (`results.dfy`): `Result` with four `Int64` values, its suffixed strings, its 64-column text rendering and its four CSV fields.
- `Benchmarks` (`benches.dfy`):
  - the `Bench` record with its text row and CSV fields, and the CSV header;
  - `Widest`, the reference maximum of a text field over a sequence of records;
  - the `Benches` class, whose `Add` and `SetLens` update its fields in place.
- `Reports` (`reports.dfy`):
  - `StringOut`, the lines `StringBench.Out` prints;
  - `CsvWriter`, the record sink that a `csv.Writer` becomes here;
  - `CsvOut`, the records `csvOut` writes;
  - `MarkdownCsv`, the CSV stage of `MDBench.Out`.

`StringBench.Out` is modelled as written.

- When the set has a Desc, it prints the set's Name again after the Name line (benchutil.go:77-79).
- It prints the Name a third time after the rows, again guarded by Desc rather than Note (benchutil.go:84-86).
- The set's Desc and Note are never printed.

`TextReport` and `TextReportLines` state this behaviour.

`csvOut` takes its `Benches` by value. `CsvOut` therefore runs `SetLens` on a fresh copy (`Benches.Copy`), and the caller's widths stay unchanged.

## Model

| member | source | states |
|---|---|---|
| Decimal.Digits | benchutil.go:227 | the decimal digits of a natural number: at least one character, digits only, leading '0' exactly for 0 |
| Decimal.FormatIntShape | benchutil.go:227 | `%d` of x starts with '-' exactly when x is negative, and every other character is a digit |
| Decimal.FormatIntRoundTrip | benchutil.go:227 | parsing the `%d` rendering of any integer gives that integer back |
| Decimal.FormatIntInjective | benchutil.go:227 | distinct integers have distinct `%d` renderings |
| Columns.LeftJustified | benchutil.go:280-290 | columnL's result is w wide when the text fits, otherwise the text's length plus 2 |
| Columns.RightJustified | benchutil.go:267-277 | columnR's result is w wide when the text fits, otherwise the text's length plus 2 |
| Columns.LeftJustifiedLayout | benchutil.go:280-290 | columnL's result is the text followed by spaces only |
| Columns.RightJustifiedLayout | benchutil.go:267-277 | columnR's result is spaces only followed by the text |
| Columns.LeftJustifiedInverse | benchutil.go:280-290 | trimming trailing spaces from columnL's result gives back a text that does not end in a space |
| Columns.RightJustifiedInverse | benchutil.go:267-277 | trimming leading spaces from columnR's result gives back a text that does not start with a space |
| Columns.ColumnL | benchutil.go:280-290 | the buffer-filling loop of columnL produces exactly the left-justified column |
| Columns.ColumnR | benchutil.go:267-277 | the buffer-filling loop of columnR produces exactly the right-justified column |
| Results.UnitStringsReadBack | benchutil.go:198-219 | each suffixed string ends with its unit (" ops", " ns/Op", " bytes/Op", " allocs/Op"), and the text before the unit parses back to the value |
| Results.Result.String | benchutil.go:221-223 | the text rendering is at least 15+15+18+16 = 64 characters |
| Results.StringLayout | benchutil.go:221-223 | when every suffixed string fits its column, the rendering is exactly 64 characters, and the four strings end at columns 15, 30, 48 and 64 with only spaces before each |
| Results.Result.Csv | benchutil.go:225-228 | a result has exactly four CSV fields |
| Results.CsvReadsBack | benchutil.go:225-228 | the CSV fields are the `%d` renderings of Ops, NsOp, BytesOp and AllocsOp in that order, and each parses back to its value |
| Benchmarks.TextRow | benchutil.go:149-162 | a text row is at least as long as the Name and Desc columns plus the result text |
| Benchmarks.Bench.Txt | benchutil.go:149-162 | a record's text row is at least as long as its text columns plus the 64 result columns |
| Benchmarks.RowLayout | benchutil.go:149-162 | when Name and Desc fit their widths, the result text starts right after the Name and Desc columns; the row ends with Note when the note column takes part, and ends with the result text otherwise |
| Benchmarks.RowCells | benchutil.go:149-156 | when Name and Desc fit their widths, the row starts with Name padded by spaces to nameLen+2, then Desc padded by spaces to descLen+2 |
| Benchmarks.Bench.Csv | benchutil.go:164-178 | a record has 4 fields plus one for each of nameLen, descLen and noteLen that is positive |
| Benchmarks.CsvHeader | benchutil.go:315-325 | the header has as many fields as every record |
| Benchmarks.CsvColumnsAgree | benchutil.go:165-178 | record and header agree column by column: Name/"Name" first, Desc/"Description" next, the four result fields under "Operations", "Ns/Op", "Bytes/Op" and "Allocs/Op", and Note/"Note" last, each text column only when its width is positive |
| Benchmarks.WidestIsUpperBound | benchutil.go:44-57 | no record's Name, Desc or Note is longer than the widest of its field |
| Benchmarks.WidestIsAttained | benchutil.go:44-57 | the widest length is 0 or the length of some record's text, so it is the maximum |
| Benchmarks.Benches.constructor | benchutil.go:28-37 | a new set has the given Name, Desc and Note, no records, and zero widths |
| Benchmarks.Benches.Copy | benchutil.go:312 | the copy made when a set is passed by value has the same records, texts and widths |
| Benchmarks.Benches.Add | benchutil.go:39-42 | Add appends the record last; earlier records and the cached widths are unchanged |
| Benchmarks.Benches.SetLens | benchutil.go:44-57 | each width becomes the larger of its old value and the widest text of its field; widths never decrease, every record's texts fit them, and widths starting from 0 become the maxima |
| Reports.TextReportLines | benchutil.go:70-88 | the printed lines are: Name (when non-empty); Name again when Desc is non-empty; one row per record in insertion order; and Name once more when Desc is non-empty |
| Reports.TextRowsAligned | benchutil.go:80-82 | once the widths cover the records, every row has its result text at the same offset, and every row starts with its Name followed by spaces only up to column nameLen+2, so by at least two of them |
| Reports.StringOut | benchutil.go:70-88 | StringBench.Out runs setLens on the set and then prints exactly the lines of TextReport for the new widths |
| Reports.PrintRows | benchutil.go:80-82 | the row loop appends one text row per record, in insertion order, after the lines already printed |
| Reports.CsvTableShape | benchutil.go:316-337 | the CSV table is the header followed by one record per benchmark in insertion order, and every record is as wide as the header |
| Reports.CsvWriter.Write | benchutil.go:326-335 | a write succeeds exactly while the sink has room; on success the record is appended; a failed write changes nothing |
| Reports.CsvOut | benchutil.go:312-338 | the writer receives the header and then the records in order, up to the first failed Write, and returns that Write's error; with the record sink's capacity standing for the failing writer, the result is an error exactly when the table exceeds that capacity; the caller's set is not changed |
| Reports.WriteBenchRecords | benchutil.go:330-336 | the record loop writes the records in order and stops at the first failed write |
| Reports.MarkdownCsv | benchutil.go:120-130 | MDBench.Out runs setLens on the set; the intermediate CSV never fails and is exactly the header plus one record per benchmark |

## Left out

- `Dot` (benchutil.go:293-309) is left out. It is a ticker, a channel select and output to stderr: concurrency and I/O.
- `SeedVal`, `RandString`, `RandBytes` and `RandBool` (benchutil.go:232-264) are left out. They are random generation, not layout.
- `ResultFromBenchmarkResult` (benchutil.go:189-196) is left out. It wraps `testing.BenchmarkResult`, which is not part of this model.
- The Markdown conversion in `MDBench.Out` (benchutil.go:131-134) is a foreign library. Only its fixed alignment list is kept, as the constant `Reports.MarkdownAlignment`. Its error wrapping (benchutil.go:128-130) cannot occur, because the in-memory CSV never fails.
- CSV quoting, `Flush` and the bytes a `csv.Writer` sends to its `io.Writer` are foreign I/O. They are modelled as the sequence of records handed to the writer.
- Reports.CsvOut: the deferred `Flush` (benchutil.go:313) is not modelled, and the source never reads its error. A `csv.Writer` buffers records and reports a sink failure from `Write` only when it passes data on, so a failure at the end of the table goes unreported by `csvOut` and `CSVBench.Out` (benchutil.go:103-105). The model's "error exactly when the table exceeds the capacity" holds for the capacity abstraction only, not for a real buffered writer.
- Reports.CsvWriter.Write: write failure is an abstract capacity, the number of records the sink still accepts. Real `csv.Writer` errors depend on buffering and the underlying writer.
- Reports.StringOut: it returns the printed lines instead of writing them to an `io.Writer`. The errors of `fmt.Fprintln`, which the source ignores, are not modelled.
- Go's `len` of a string counts bytes. The model counts the characters of a `seq<char>`, so widths agree only for single-byte (ASCII) text.
- `SystemInfo`, which the test file calls, is not part of this model.
- The `Benchmarker` interface and the `NewStringBench`, `NewCSVBench` and `NewMDBench` constructors only wire a writer to a set, so they are left out. `Benches.constructor` stands for the set they create.
- Results.Result.String: its own contract gives only the minimum length. The column layout is stated by `Results.StringLayout`, for results whose values fit their columns.
- Benchmarks.Bench.Txt: its own contract gives only a minimum length. The layout is stated by `Benchmarks.RowLayout` and `Benchmarks.RowCells`.
