/** `Monthly_Listeners_webscraper.py`: adds a monthly-listener count to
    every row of the artist-info ledger, 100 rows at a time, and appends the
    rows to the monthly-listener ledger. Its `scrape_monthly_listeners` is
    the one of `Webscrapers.py`. */
module MonthlyListenersWebscraper {
  import opened Common
  import Seqs
  import opened Ledger
  import Webscrapers

  const OutputDir: string := "/n/holystore01/LABS/itc_lab/Users/sjeffreson/serch/artist-database/"

  function InfoPath(): string { OutputDir + "Spotify_artist_info.csv" }

  function ListenersPath(): string { OutputDir + "Spotify_artist_info_Mnth-Lstnrs.csv" }

  const ChunkSize: nat := 100

  const ChunkPause: nat := 30

  const CountColumn: string := "monthly_listeners"

  /** One row's count: −1 for the id "missing" (no page is requested) and
      for a page that did not load, the number the page shows otherwise. */
  function RowCount(id: Cell, fetch: Cell -> Webscrapers.Page): (r: Result<int>)
    ensures id == Str("missing") ==> r == Ok(-1)
    ensures id != Str("missing") && fetch(id).status != 200 ==> r == Ok(-1)
    ensures id != Str("missing") && fetch(id).status == 200 && fetch(id).element.None? ==> r == Ok(0)
    ensures r.Err? ==> r.error == ValueError && id != Str("missing")
  {
    if id == Str("missing") then Ok(-1)
    else
      match Webscrapers.ScrapeMonthlyListeners(fetch(id))
      case Err(e) => Err(e)
      case Ok(None) => Ok(-1)
      case Ok(Some(n)) => Ok(n)
  }

  /** A page showing `n` listeners counts `n`. */
  lemma RowCountOfLabel(id: Cell, fetch: Cell -> Webscrapers.Page, n: nat)
    requires id != Str("missing") && fetch(id) == Webscrapers.Page(200, Some(Webscrapers.Label(n)))
    ensures RowCount(id, fetch) == Ok(n)
  {
    Webscrapers.LabelRoundTrip(n);
  }

  function Counter(fetch: Cell -> Webscrapers.Page): Cell -> Result<int>
  {
    id => RowCount(id, fetch)
  }

  /** `chunk["monthly_listeners"] = batch`: an existing column of that name
      is overwritten, otherwise the column is added at the end. */
  function WithCount(cols: seq<string>, row: Row, c: int): (o: Row)
    requires |row| == |cols|
    ensures |o| == |OutColumns(cols)|
  {
    if CountColumn in cols then row[Seqs.FirstIndex(cols, CountColumn) := Int(c)]
    else row + [Int(c)]
  }

  /** The count lands in the count column, and every other field stays. */
  lemma WithCountFields(cols: seq<string>, row: Row, c: int)
    requires |row| == |cols|
    ensures WithCount(cols, row, c)[Seqs.FirstIndex(OutColumns(cols), CountColumn)] == Int(c)
    ensures forall j :: 0 <= j < |cols| && cols[j] != CountColumn ==> WithCount(cols, row, c)[j] == row[j]
  {
    if CountColumn !in cols {
      FirstIndexAppended(cols);
    }
  }

  function OutColumns(cols: seq<string>): (o: seq<string>)
    ensures CountColumn in o
  {
    if CountColumn in cols then cols else cols + [CountColumn]
  }

  lemma FirstIndexAppended(cols: seq<string>)
    requires CountColumn !in cols
    ensures Seqs.FirstIndex(cols + [CountColumn], CountColumn) == |cols|
  {
    assert (cols + [CountColumn])[|cols|] == CountColumn;
  }

  /** The rows of a chunk with their counts. */
  function WithCounts(cols: seq<string>, rows: seq<Row>, counts: seq<int>): (o: seq<Row>)
    requires |counts| == |rows| && RowsOfWidth(rows, |cols|)
    ensures |o| == |rows| && RowsOfWidth(o, |OutColumns(cols)|)
    ensures forall i :: 0 <= i < |rows| ==> o[i] == WithCount(cols, rows[i], counts[i])
  {
    seq(|rows|, i requires 0 <= i < |rows| => WithCount(cols, rows[i], counts[i]))
  }

  /** The rows from `lo` to `hi`, with their counts, or the error the first
      bad label raises. */
  function ChunkRows(cols: seq<string>, rows: seq<Row>, ids: seq<Cell>, count: Cell -> Result<int>, lo: nat, hi: nat): Result<seq<Row>>
    requires lo <= hi <= |rows| == |ids| && RowsOfWidth(rows, |cols|)
  {
    match Seqs.AllOk(ids[lo..hi], count)
    case Err(e) => Err(e)
    case Ok(c) => Ok(WithCounts(cols, rows[lo..hi], c))
  }

  /** The ledgers after the chunks from row `lo` on, with the error that
      ended the script, if any: each chunk is appended with a header only
      when the ledger does not exist yet. */
  function FromChunk(fs: Fs, cols: seq<string>, rows: seq<Row>, ids: seq<Cell>, count: Cell -> Result<int>, lo: nat): (Fs, Option<PyError>)
    requires lo <= |rows| == |ids| && RowsOfWidth(rows, |cols|)
    decreases |rows| - lo
  {
    if lo == |rows| then (fs, None)
    else
      var hi := Seqs.Min(lo + ChunkSize, |rows|);
      match ChunkRows(cols, rows, ids, count, lo, hi)
      case Err(e) => (fs, Some(e))
      case Ok(out) => FromChunk(AppendHeaderOnce(fs, ListenersPath(), OutColumns(cols), out), cols, rows, ids, count, hi)
  }

  /** The whole script on the ledgers: reading the artist-info ledger or its
      'ids' and 'names' columns can fail before any chunk is written. */
  function Script(fs: Fs, fetch: Cell -> Webscrapers.Page): (Fs, Option<PyError>)
  {
    match ReadCsv(fs, InfoPath())
    case Err(e) => (fs, Some(e))
    case Ok(f) =>
      if f.rows == [] then (fs, None)
      else if "ids" !in f.columns then (fs, Some(KeyError("ids")))
      else if "names" !in f.columns then (fs, Some(KeyError("names")))
      else FromChunk(fs, f.columns, f.rows, Column(f, "ids").value, Counter(fetch), 0)
  }

  /** The `__main__` loop: one chunk of at most 100 rows at a time, each
      followed by a 30 s pause; the error that ends it is returned with the
      ledgers as they were left. */
  method RunChunks(fs: Fs, fetch: Cell -> Webscrapers.Page) returns (out: Fs, failure: Option<PyError>, pauses: seq<nat>)
    ensures (out, failure) == Script(fs, fetch)
    ensures forall i :: 0 <= i < |pauses| ==> pauses[i] == ChunkPause
    ensures failure.None? && ReadCsv(fs, InfoPath()).Ok? ==> |pauses| == |Seqs.Chunks(ReadCsv(fs, InfoPath()).value.rows, ChunkSize)|
  {
    out := fs;
    failure := None;
    pauses := [];
    var read := ReadCsv(fs, InfoPath());
    if read.Err? {
      failure := Some(read.error);
      return;
    }
    var f := read.value;
    if f.rows == [] {
      return;
    }
    if "ids" !in f.columns {
      failure := Some(KeyError("ids"));
      return;
    }
    if "names" !in f.columns {
      failure := Some(KeyError("names"));
      return;
    }
    out, failure, pauses := WriteChunks(fs, f.columns, f.rows, Column(f, "ids").value, Counter(fetch));
  }

  /** The chunk loop itself, for any way `count` of counting a row. */
  method WriteChunks(fs: Fs, cols: seq<string>, rows: seq<Row>, ids: seq<Cell>, count: Cell -> Result<int>)
      returns (out: Fs, failure: Option<PyError>, pauses: seq<nat>)
    requires |rows| == |ids| && RowsOfWidth(rows, |cols|)
    ensures (out, failure) == FromChunk(fs, cols, rows, ids, count, 0)
    ensures forall i :: 0 <= i < |pauses| ==> pauses[i] == ChunkPause
    ensures failure.None? ==> |pauses| == |Seqs.Chunks(rows, ChunkSize)|
  {
    out := fs;
    failure := None;
    pauses := [];
    var lo := 0;
    while lo < |rows|
      invariant lo <= |rows|
      invariant FromChunk(fs, cols, rows, ids, count, 0) == FromChunk(out, cols, rows, ids, count, lo)
      invariant forall i :: 0 <= i < |pauses| ==> pauses[i] == ChunkPause
      invariant |pauses| + |Seqs.Chunks(rows[lo..], ChunkSize)| == |Seqs.Chunks(rows, ChunkSize)|
      decreases |rows| - lo
    {
      var hi := Seqs.Min(lo + ChunkSize, |rows|);
      ChunksStep(rows, lo, hi);
      var err;
      out, err := OneChunk(out, cols, rows, ids, count, lo, hi);
      if err.Some? {
        failure := err;
        return;
      }
      pauses := pauses + [ChunkPause];
      lo := hi;
    }
    assert rows[lo..] == [];
  }

  /** One pass of the loop body: count the chunk's rows and append them. */
  method OneChunk(fs: Fs, cols: seq<string>, rows: seq<Row>, ids: seq<Cell>, count: Cell -> Result<int>, lo: nat, hi: nat)
      returns (out: Fs, err: Option<PyError>)
    requires lo < |rows| == |ids| && RowsOfWidth(rows, |cols|) && hi == Seqs.Min(lo + ChunkSize, |rows|)
    ensures err.Some? ==> out == fs && FromChunk(fs, cols, rows, ids, count, lo) == (fs, err)
    ensures err.None? ==> FromChunk(fs, cols, rows, ids, count, lo) == FromChunk(out, cols, rows, ids, count, hi)
  {
    var counts := Seqs.Collect(ids[lo..hi], count);
    FromChunkStep(fs, cols, rows, ids, count, lo, hi);
    if counts.Err? {
      return fs, Some(counts.error);
    }
    out := AppendHeaderOnce(fs, ListenersPath(), OutColumns(cols), WithCounts(cols, rows[lo..hi], counts.value));
    err := None;
  }

  /** One chunk: it raises, or it is appended and the rest follows. */
  lemma FromChunkStep(fs: Fs, cols: seq<string>, rows: seq<Row>, ids: seq<Cell>, count: Cell -> Result<int>, lo: nat, hi: nat)
    requires lo < |rows| == |ids| && RowsOfWidth(rows, |cols|) && hi == Seqs.Min(lo + ChunkSize, |rows|)
    ensures Seqs.AllOk(ids[lo..hi], count).Err? ==>
              FromChunk(fs, cols, rows, ids, count, lo) == (fs, Some(Seqs.AllOk(ids[lo..hi], count).error))
    ensures Seqs.AllOk(ids[lo..hi], count).Ok? ==>
              FromChunk(fs, cols, rows, ids, count, lo)
              == FromChunk(AppendHeaderOnce(fs, ListenersPath(), OutColumns(cols),
                             WithCounts(cols, rows[lo..hi], Seqs.AllOk(ids[lo..hi], count).value)), cols, rows, ids, count, hi)
  {
  }

  /** `read_csv(chunksize=100)` yields the next 100 rows, or the rest. */
  lemma ChunksStep(rows: seq<Row>, lo: nat, hi: nat)
    requires lo < |rows| && hi == Seqs.Min(lo + ChunkSize, |rows|)
    ensures |Seqs.Chunks(rows[lo..], ChunkSize)| == 1 + |Seqs.Chunks(rows[hi..], ChunkSize)|
  {
    if hi < |rows| {
      assert rows[lo..][ChunkSize..] == rows[hi..];
    } else {
      assert rows[hi..] == [];
    }
  }

  // ---------------------------------------------------------------- what the ledger ends up holding

  /** The counts of all rows from `lo` on, when every page reads. */
  function CountsFrom(ids: seq<Cell>, count: Cell -> Result<int>, lo: nat): Result<seq<int>>
    requires lo <= |ids|
  {
    Seqs.AllOk(ids[lo..], count)
  }

  lemma WithCountsConcat(cols: seq<string>, a: seq<Row>, b: seq<Row>, ca: seq<int>, cb: seq<int>)
    requires |ca| == |a| && |cb| == |b| && RowsOfWidth(a, |cols|) && RowsOfWidth(b, |cols|)
    ensures RowsOfWidth(a + b, |cols|)
    ensures WithCounts(cols, a + b, ca + cb) == WithCounts(cols, a, ca) + WithCounts(cols, b, cb)
  {
    var l := WithCounts(cols, a + b, ca + cb);
    var r := WithCounts(cols, a, ca) + WithCounts(cols, b, cb);
    forall i | 0 <= i < |l| ensures l[i] == r[i] {
      if i < |a| {
        assert (a + b)[i] == a[i] && (ca + cb)[i] == ca[i];
      } else {
        assert (a + b)[i] == b[i - |a|] && (ca + cb)[i] == cb[i - |a|];
      }
    }
  }

  /** A chunk's rows are the first rows of what is left, with the same
      counts. */
  lemma ChunkOfRest(cols: seq<string>, rows: seq<Row>, ids: seq<Cell>, count: Cell -> Result<int>, lo: nat, hi: nat)
    requires lo < hi <= |rows| == |ids| && RowsOfWidth(rows, |cols|)
    requires CountsFrom(ids, count, lo).Ok?
    ensures ChunkRows(cols, rows, ids, count, lo, hi).Ok?
    ensures hi < |rows| ==> CountsFrom(ids, count, hi).Ok?
    ensures var rest := WithCounts(cols, rows[lo..], CountsFrom(ids, count, lo).value);
            ChunkRows(cols, rows, ids, count, lo, hi).value
              + (if hi < |rows| then WithCounts(cols, rows[hi..], CountsFrom(ids, count, hi).value) else [])
            == rest
  {
    if hi < |rows| {
      assert ids[lo..] == ids[lo..hi] + ids[hi..];
      assert rows[lo..] == rows[lo..hi] + rows[hi..];
      Seqs.AllOkConcat(ids[lo..hi], ids[hi..], count);
      WithCountsConcat(cols, rows[lo..hi], rows[hi..],
        Seqs.AllOk(ids[lo..hi], count).value, Seqs.AllOk(ids[hi..], count).value);
    } else {
      assert ids[lo..hi] == ids[lo..] && rows[lo..hi] == rows[lo..];
    }
  }

  /** When every page reads, writing chunk by chunk is one header-once
      append of all rows with their counts. */
  lemma {:induction false} ChunkedWrite(fs: Fs, cols: seq<string>, rows: seq<Row>, ids: seq<Cell>, count: Cell -> Result<int>, lo: nat)
    requires lo < |rows| == |ids| && RowsOfWidth(rows, |cols|)
    requires CountsFrom(ids, count, lo).Ok?
    ensures FromChunk(fs, cols, rows, ids, count, lo)
         == (AppendHeaderOnce(fs, ListenersPath(), OutColumns(cols), WithCounts(cols, rows[lo..], CountsFrom(ids, count, lo).value)), None)
    decreases |rows| - lo
  {
    var path := ListenersPath();
    var oc := OutColumns(cols);
    var hi := Seqs.Min(lo + ChunkSize, |rows|);
    ChunkOfRest(cols, rows, ids, count, lo, hi);
    var out := ChunkRows(cols, rows, ids, count, lo, hi).value;
    var fs' := AppendHeaderOnce(fs, path, oc, out);
    if hi < |rows| {
      ChunkedWrite(fs', cols, rows, ids, count, hi);
      AppendHeaderOnceTwice(fs, path, oc, out, WithCounts(cols, rows[hi..], CountsFrom(ids, count, hi).value));
    } else {
      assert out + [] == out;
    }
  }

  /** A script that reads every page leaves the new ledger holding the
      header once and then every artist-info row with its count, in order. */
  lemma ScriptReadBack(fs: Fs, fetch: Cell -> Webscrapers.Page)
    requires ReadCsv(fs, InfoPath()).Ok? && ListenersPath() !in fs
    requires var f := ReadCsv(fs, InfoPath()).value;
             f.rows != [] && "ids" in f.columns && "names" in f.columns
             && CountsFrom(Column(f, "ids").value, Counter(fetch), 0).Ok?
    ensures var f := ReadCsv(fs, InfoPath()).value;
            var counts := CountsFrom(Column(f, "ids").value, Counter(fetch), 0).value;
            Script(fs, fetch).1 == None
            && ReadCsv(Script(fs, fetch).0, ListenersPath())
               == Ok(Frame(OutColumns(f.columns), StoredRows(WithCounts(f.columns, f.rows, counts))))
  {
    var f := ReadCsv(fs, InfoPath()).value;
    var ids := Column(f, "ids").value;
    var counts := CountsFrom(ids, Counter(fetch), 0).value;
    assert f.rows[0..] == f.rows;
    ChunkedWrite(fs, f.columns, f.rows, ids, Counter(fetch), 0);
    HeaderOnceReadBack(fs, ListenersPath(), OutColumns(f.columns), [], WithCounts(f.columns, f.rows, counts));
    assert [] + StoredRows(WithCounts(f.columns, f.rows, counts)) == StoredRows(WithCounts(f.columns, f.rows, counts));
  }
}
