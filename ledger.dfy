/** The CSV ledgers as the pipeline sees them through pandas: a file is a
    list of lines of fields, `to_csv` appends or overwrites lines, and
    `read_csv` takes the first line as the header. */
module Ledger {
  import opened Common
  import Seqs
  import Text

  /** One field, as pandas reads it back: a string, an integer, a float, or
      an empty field (NaN; `None` is written as an empty field too). */
  datatype Cell = Str(s: string) | Int(i: int) | Real(x: real) | Nan

  type Row = seq<Cell>

  /** The lines of a CSV file, each split into its fields. */
  type Lines = seq<Row>

  /** The files of the output directory, by path. Absent paths do not exist. */
  type Fs = map<string, Lines>

  /** The strings that `read_csv` turns into NaN by default. */
  const NaStrings: set<string> := {
    "", "#N/A", "#N/A N/A", "#NA", "-1.#IND", "-1.#QNAN", "-NaN", "-nan",
    "1.#IND", "1.#QNAN", "<NA>", "N/A", "NA", "NULL", "NaN", "None", "n/a",
    "nan", "null"
  }

  /** What a written field reads back as. */
  function Stored(c: Cell): (r: Cell)
    ensures c.Str? && c.s in NaStrings ==> r == Nan
    ensures !(c.Str? && c.s in NaStrings) ==> r == c
  {
    if c.Str? && c.s in NaStrings then Nan else c
  }

  function StoredRow(r: Row): (o: Row)
    ensures |o| == |r|
    ensures forall i :: 0 <= i < |r| ==> o[i] == Stored(r[i])
  {
    seq(|r|, i requires 0 <= i < |r| => Stored(r[i]))
  }

  function StoredRows(rows: seq<Row>): (o: seq<Row>)
    ensures |o| == |rows|
    ensures forall i :: 0 <= i < |rows| ==> o[i] == StoredRow(rows[i])
  {
    seq(|rows|, i requires 0 <= i < |rows| => StoredRow(rows[i]))
  }

  function StrCells(s: seq<string>): (r: Row)
    ensures |r| == |s|
    ensures forall i :: 0 <= i < |s| ==> r[i] == Str(s[i])
  {
    seq(|s|, i requires 0 <= i < |s| => Str(s[i]))
  }

  function IntCells(s: seq<int>): (r: Row)
    ensures |r| == |s|
    ensures forall i :: 0 <= i < |s| ==> r[i] == Int(s[i])
  {
    seq(|s|, i requires 0 <= i < |s| => Int(s[i]))
  }

  /** The header line `to_csv` writes for the given column names. */
  function HeaderRow(cols: seq<string>): Row
  {
    StrCells(cols)
  }

  function Contents(fs: Fs, path: string): Lines
  {
    if path in fs then fs[path] else []
  }

  /** `df.to_csv(path, mode='a', header=header, index=False)`: the lines go
      after whatever the file already holds, creating it if need be. */
  function Append(fs: Fs, path: string, cols: seq<string>, rows: seq<Row>, header: bool): (r: Fs)
  {
    fs[path := Contents(fs, path) + (if header then [HeaderRow(cols)] else []) + StoredRows(rows)]
  }

  /** `df.to_csv(path, index=False)`: the file is replaced. */
  function Write(fs: Fs, path: string, cols: seq<string>, rows: seq<Row>): (r: Fs)
  {
    fs[path := [HeaderRow(cols)] + StoredRows(rows)]
  }

  /** The `header=not os.path.exists(path)` idiom: a header only when the
      file is created. */
  function AppendHeaderOnce(fs: Fs, path: string, cols: seq<string>, rows: seq<Row>): Fs
  {
    Append(fs, path, cols, rows, path !in fs)
  }

  /** Two header-once appends write what one append of both batches writes:
      the header is written at most once, before the first batch. */
  lemma AppendHeaderOnceTwice(fs: Fs, path: string, cols: seq<string>, a: seq<Row>, b: seq<Row>)
    ensures AppendHeaderOnce(AppendHeaderOnce(fs, path, cols, a), path, cols, b)
         == AppendHeaderOnce(fs, path, cols, a + b)
  {
    var once := AppendHeaderOnce(fs, path, cols, a);
    var h: Lines := if path !in fs then [HeaderRow(cols)] else [];
    assert StoredRows(a + b) == StoredRows(a) + StoredRows(b);
    assert path in once;
    var twice := AppendHeaderOnce(once, path, cols, b);
    var both := AppendHeaderOnce(fs, path, cols, a + b);
    assert twice[path] == Contents(fs, path) + h + StoredRows(a) + StoredRows(b);
    assert both[path] == Contents(fs, path) + h + (StoredRows(a) + StoredRows(b));
    assert twice.Keys == both.Keys;
    assert forall p :: p in twice ==> twice[p] == both[p];
  }

  /** Header-once appends to two different files do not interfere. */
  lemma AppendHeaderOnceCommute(fs: Fs, p: string, pc: seq<string>, pr: seq<Row>, q: string, qc: seq<string>, qr: seq<Row>)
    requires p != q
    ensures AppendHeaderOnce(AppendHeaderOnce(fs, p, pc, pr), q, qc, qr)
         == AppendHeaderOnce(AppendHeaderOnce(fs, q, qc, qr), p, pc, pr)
  {
    var l := AppendHeaderOnce(AppendHeaderOnce(fs, p, pc, pr), q, qc, qr);
    var r := AppendHeaderOnce(AppendHeaderOnce(fs, q, qc, qr), p, pc, pr);
    assert l.Keys == r.Keys;
    assert forall x :: x in l ==> l[x] == r[x];
  }

  // ---------------------------------------------------------------- reading

  /** A data frame: column names and rows of fields. */
  datatype Frame = Frame(columns: seq<string>, rows: seq<Row>)

  predicate Rectangular(f: Frame)
  {
    forall i :: 0 <= i < |f.rows| ==> |f.rows[i]| == |f.columns|
  }

  /** The column name pandas gives header field `k`. */
  function HeaderName(c: Cell, k: nat): string
  {
    match c
    case Str(s) => s
    case Int(n) => if n < 0 then "-" + Text.Decimal(-n) else Text.Decimal(n)
    case _ => "Unnamed: " + Text.Decimal(k)
  }

  function HeaderNames(h: Row): (r: seq<string>)
    ensures |r| == |h|
  {
    seq(|h|, k requires 0 <= k < |h| => HeaderName(h[k], k))
  }

  /** A short line is padded with empty fields. */
  function Pad(r: Row, width: nat): (o: Row)
    requires |r| <= width
    ensures |o| == width
    ensures forall i :: 0 <= i < width ==> o[i] == (if i < |r| then r[i] else Nan)
  {
    r + seq(width - |r|, _ => Nan)
  }

  lemma HeaderNamesOfHeaderRow(cols: seq<string>)
    ensures HeaderNames(HeaderRow(cols)) == cols
  {
  }

  /** `pd.read_csv(path)` */
  function ReadCsv(fs: Fs, path: string): (r: Result<Frame>)
    ensures r.Ok? ==> Rectangular(r.value)
    ensures r.Ok? <==> path in fs && fs[path] != [] && forall i :: 1 <= i < |fs[path]| ==> |fs[path][i]| <= |fs[path][0]|
    ensures r.Ok? ==> r.value.columns == HeaderNames(fs[path][0]) && |r.value.rows| == |fs[path]| - 1
  {
    if path !in fs then Err(FileNotFound(path))
    else
      var lines := fs[path];
      if lines == [] then Err(EmptyData(path))
      else if exists i :: 1 <= i < |lines| && |lines[i]| > |lines[0]| then Err(ParserError(path))
      else
        var w := |lines[0]|;
        Ok(Frame(HeaderNames(lines[0]), seq(|lines| - 1, i requires 0 <= i < |lines| - 1 => Pad(lines[i + 1], w))))
  }

  /** `df[name].tolist()` */
  function Column(f: Frame, name: string): (r: Result<seq<Cell>>)
    requires Rectangular(f)
    ensures r.Err? <==> name !in f.columns
    ensures r.Err? ==> r.error == KeyError(name)
    ensures r.Ok? ==> |r.value| == |f.rows|
    ensures r.Ok? ==> forall i :: 0 <= i < |f.rows| ==> r.value[i] == f.rows[i][Seqs.FirstIndex(f.columns, name)]
  {
    if name !in f.columns then Err(KeyError(name))
    else
      var k := Seqs.FirstIndex(f.columns, name);
      Ok(seq(|f.rows|, i requires 0 <= i < |f.rows| => f.rows[i][k]))
  }

  /** `df[name] = values`: a column of that name is overwritten, otherwise
      one is added after the others; a list of another length than the
      frame raises `ValueError`. */
  function SetColumn(f: Frame, name: string, values: seq<Cell>): (r: Result<Frame>)
    requires Rectangular(f)
    ensures r.Err? <==> |values| != |f.rows|
    ensures r.Err? ==> r.error == ValueError
    ensures r.Ok? ==> Rectangular(r.value) && |r.value.rows| == |f.rows|
    ensures r.Ok? ==> r.value.columns == if name in f.columns then f.columns else f.columns + [name]
  {
    if |values| != |f.rows| then Err(ValueError)
    else if name in f.columns then
      var k := Seqs.FirstIndex(f.columns, name);
      Ok(Frame(f.columns, seq(|f.rows|, i requires 0 <= i < |f.rows| => f.rows[i][k := values[i]])))
    else
      Ok(Frame(f.columns + [name], seq(|f.rows|, i requires 0 <= i < |f.rows| => f.rows[i] + [values[i]])))
  }

  /** The column then reads back as the values, and every other column is
      as it was. */
  lemma SetColumnFields(f: Frame, name: string, values: seq<Cell>)
    requires Rectangular(f) && |values| == |f.rows|
    ensures Column(SetColumn(f, name, values).value, name) == Ok(values)
    ensures forall i, j :: 0 <= i < |f.rows| && 0 <= j < |f.columns| && f.columns[j] != name ==>
              SetColumn(f, name, values).value.rows[i][j] == f.rows[i][j]
  {
    var g := SetColumn(f, name, values).value;
    if name !in f.columns {
      assert g.columns[|f.columns|] == name;
      assert Seqs.FirstIndex(g.columns, name) == |f.columns|;
    }
    var c := Column(g, name).value;
    assert c == values;
  }

  /** `pd.read_csv(path)[name].tolist()` */
  function ReadColumn(fs: Fs, path: string, name: string): Result<seq<Cell>>
  {
    match ReadCsv(fs, path)
    case Err(e) => Err(e)
    case Ok(f) => Column(f, name)
  }

  /** `pd.read_csv(path, usecols=[name])[name].tolist()`: a column missing
      from the header is a `ValueError` raised by the reader. */
  function ReadUsecol(fs: Fs, path: string, name: string): Result<seq<Cell>>
  {
    match ReadCsv(fs, path)
    case Err(e) => Err(e)
    case Ok(f) => if name !in f.columns then Err(ValueError) else Column(f, name)
  }

  /** Reading a column fails only with a reader error. */
  predicate ReaderError(e: PyError)
  {
    e.FileNotFound? || e.EmptyData? || e.ParserError? || e.KeyError? || e == ValueError
  }

  lemma ReadUsecolErrors(fs: Fs, path: string, name: string)
    ensures ReadUsecol(fs, path, name).Err? ==> ReaderError(ReadUsecol(fs, path, name).error)
  {
  }

  /** The `try: ... except FileNotFoundError: [] ` idiom. */
  function ReadUsecolOrEmpty(fs: Fs, path: string, name: string): (r: Result<seq<Cell>>)
    ensures path !in fs ==> r == Ok([])
    ensures path in fs ==> r == ReadUsecol(fs, path, name)
  {
    if path !in fs then Ok([]) else ReadUsecol(fs, path, name)
  }

  function ReadColumnOrEmpty(fs: Fs, path: string, name: string): (r: Result<seq<Cell>>)
    ensures path !in fs ==> r == Ok([])
    ensures path in fs ==> r == ReadColumn(fs, path, name)
  {
    if path !in fs then Ok([]) else ReadColumn(fs, path, name)
  }

  predicate RowsOfWidth(rows: seq<Row>, w: nat)
  {
    forall i :: 0 <= i < |rows| ==> |rows[i]| == w
  }

  /** The rows of a one-column frame. */
  function SingleRows(cs: seq<Cell>): (rows: seq<Row>)
    ensures |rows| == |cs| && RowsOfWidth(rows, 1)
    ensures forall i :: 0 <= i < |cs| ==> rows[i] == [cs[i]]
  {
    seq(|cs|, i requires 0 <= i < |cs| => [cs[i]])
  }

  /** What a file holding exactly a header and rows reads back as. */
  lemma ReadBack(fs: Fs, path: string, cols: seq<string>, rows: seq<Row>)
    requires path in fs && fs[path] == [HeaderRow(cols)] + rows
    requires RowsOfWidth(rows, |cols|)
    ensures ReadCsv(fs, path) == Ok(Frame(cols, rows))
  {
    var lines := fs[path];
    assert forall i :: 1 <= i < |lines| ==> lines[i] == rows[i - 1];
    var f := ReadCsv(fs, path).value;
    assert f.columns == cols by { HeaderNamesOfHeaderRow(cols); }
    assert f.rows == rows by {
      forall i | 0 <= i < |rows| ensures f.rows[i] == rows[i] {
        assert f.rows[i] == Pad(lines[i + 1], |cols|);
      }
    }
  }

  /** A file created by a header-once append, and only ever appended to that
      way, reads back as one frame with every batch's rows in write order. */
  lemma HeaderOnceReadBack(fs: Fs, path: string, cols: seq<string>, old_rows: seq<Row>, rows: seq<Row>)
    requires path !in fs || fs[path] == [HeaderRow(cols)] + old_rows
    requires path !in fs ==> old_rows == []
    requires RowsOfWidth(old_rows, |cols|) && RowsOfWidth(rows, |cols|)
    ensures ReadCsv(AppendHeaderOnce(fs, path, cols, rows), path) == Ok(Frame(cols, old_rows + StoredRows(rows)))
  {
    var fs' := AppendHeaderOnce(fs, path, cols, rows);
    assert fs'[path] == [HeaderRow(cols)] + (old_rows + StoredRows(rows));
    ReadBack(fs', path, cols, old_rows + StoredRows(rows));
  }

  /** `pd.DataFrame({c: data[c] ...})` rows: column lists of unequal length
      are a `ValueError`. */
  function RowsOf(data: seq<seq<Cell>>): (r: Result<seq<Row>>)
    ensures r.Ok? <==> forall j :: 0 <= j < |data| ==> |data[j]| == |data[0]|
    ensures r.Ok? && |data| > 0 ==> |r.value| == |data[0]| && RowsOfWidth(r.value, |data|)
    ensures r.Ok? && |data| > 0 ==> forall i, j :: 0 <= i < |r.value| && 0 <= j < |data| ==> r.value[i][j] == data[j][i]
    ensures r.Ok? && |data| == 0 ==> r.value == []
  {
    if |data| == 0 then Ok([])
    else if exists j :: 0 <= j < |data| && |data[j]| != |data[0]| then Err(ValueError)
    else
      var n := |data[0]|;
      Ok(seq(n, i requires 0 <= i < n => seq(|data|, j requires 0 <= j < |data| => data[j][i])))
  }
}
