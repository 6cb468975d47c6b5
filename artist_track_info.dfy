/** `MusicBrainz_artist_track_info.py`: the stages that grow the Spotify
    ledgers one after another — artist info for new ids, monthly listeners
    for new info rows, the cleaned ledger, one random track per artist, the
    tracks' info, and genres read off artist bios. The Spotify calls and
    page fetches are parameters; each stage is a function from the files
    to the files, or to the error the script raises. */
module ArtistTrackInfo {
  import opened Common
  import Seqs
  import Text
  import opened Ledger
  import Webscrapers

  /** The paths read from `config.json`. */
  datatype Config = Config(
    outputDir: string, artistIdsFile: string, artistFile: string, mnthLstnrsFile: string,
    cleanMnthLstnrsFile: string, bioGenresFile: string, missingBioGenresFile: string,
    randTrackIdsFile: string)
  {
    function ArtistIdsPath(): string { outputDir + artistIdsFile }
    function ArtistPath(): string { outputDir + artistFile }
    function MnthLstnrsPath(): string { outputDir + mnthLstnrsFile }
    function CleanPath(): string { outputDir + cleanMnthLstnrsFile }
    function BioGenresPath(): string { outputDir + bioGenresFile }
    function MissingBioGenresPath(): string { outputDir + missingBioGenresFile }
    function RandTrackIdsPath(): string { outputDir + randTrackIdsFile }
    /** The track stage names its two files itself rather than through the
        configuration. */
    function TracksInfoPath(): string { outputDir + TracksInfoFile }
    function TracksIdPath(): string { outputDir + TracksIdFile }
  }

  const TracksInfoFile: string := "Spotify_artist_info_tracks.csv"

  const TracksIdFile: string := "Spotify_artist_info_Random-Track-IDs.csv"

  const ListenersColumn: string := "monthly_listeners"

  // ---------------------------------------------------------------- work sets

  /** `[x for x in todo if x not in done]`, cut to `num_to_scrape`: the ids
      of one ledger that another does not hold yet, in the first one's
      order. */
  function WorkSet(todo: seq<Cell>, done: seq<Cell>, num: Option<int>): (r: seq<Cell>)
    ensures forall x :: x in r ==> x in todo && x !in done
    ensures r <= Seqs.NotIn(todo, done)
    ensures num.None? ==> forall x :: x in todo && x !in done ==> x in r
    ensures num.Some? && num.value >= 0 ==> |r| == Seqs.Min(num.value, |Seqs.NotIn(todo, done)|)
  {
    Seqs.Truncate(Seqs.NotIn(todo, done), num)
  }

  /** Adding ids to the ledger of done ones only shrinks the work set of an
      untruncated run. */
  lemma WorkSetShrinks(todo: seq<Cell>, done: seq<Cell>, more: seq<Cell>)
    ensures forall x :: x in WorkSet(todo, done + more, None) ==> x in WorkSet(todo, done, None)
    ensures forall x :: x in more ==> x !in WorkSet(todo, done + more, None)
  {
  }

  /** `get_artist_info(num_to_scrape)`: the ids of the id ledger that the
      info ledger lacks are looked up, and the rows `build` makes for them
      (the undefined `aih` helpers) are appended to the info ledger; the
      append never writes a header. */
  function ArtistInfoStage(fs: Fs, idsPath: string, infoPath: string, num: Option<int>, build: seq<Cell> -> seq<Row>): (r: Result<Fs>)
    ensures r.Ok? <==> ReadUsecol(fs, idsPath, "ids").Ok? && ReadUsecol(fs, infoPath, "ids").Ok?
    ensures r.Err? ==> ReaderError(r.error)
    ensures r.Ok? ==> infoPath in fs && r.value == fs[infoPath := fs[infoPath] +
              StoredRows(build(WorkSet(ReadUsecol(fs, idsPath, "ids").value, ReadUsecol(fs, infoPath, "ids").value, num)))]
  {
    ReadUsecolErrors(fs, idsPath, "ids");
    ReadUsecolErrors(fs, infoPath, "ids");
    match ReadUsecol(fs, idsPath, "ids")
    case Err(e) => Err(e)
    case Ok(total) =>
      match ReadUsecol(fs, infoPath, "ids")
      case Err(e) => Err(e)
      case Ok(info) =>
        var rows := build(WorkSet(total, info, num));
        assert Append(fs, infoPath, [], rows, false) == fs[infoPath := fs[infoPath] + StoredRows(rows)] by {
          assert Contents(fs, infoPath) + [] == fs[infoPath];
        }
        Ok(Append(fs, infoPath, [], rows, false))
  }

  // ---------------------------------------------------------------- get_artist_monthly_listeners

  /** Field `k` of a row. */
  function FieldAt(k: nat): Row -> Cell
  {
    row => if k < |row| then row[k] else Nan
  }

  /** `df[df[name].isin(ids)]` on rows whose field `k` is that column. */
  function FieldIn(k: nat, ids: seq<Cell>): Row -> bool
  {
    row => FieldAt(k)(row) in ids
  }

  /** The column read by name is field `k` of every row. */
  lemma ColumnIsField(f: Frame, name: string)
    requires Rectangular(f) && name in f.columns
    ensures Column(f, name).value == Seqs.Map(f.rows, FieldAt(Seqs.FirstIndex(f.columns, name)))
  {
  }

  /** What one listener count is written as: `None` becomes an empty field. */
  function ListenerCell(v: Option<int>): Cell
  {
    match v
    case None => Nan
    case Some(n) => Int(n)
  }

  /** One scrape of the artist page fetched for an id. */
  function Listeners(fetch: Cell -> Webscrapers.Page): Cell -> Result<Cell>
  {
    id =>
      match Webscrapers.ScrapeMonthlyListeners(fetch(id))
      case Err(e) => Err(e)
      case Ok(v) => Ok(ListenerCell(v))
  }

  /** The ids the listener ledger lacks, in info-ledger order. */
  function Todo(f: Frame, done: seq<Cell>): seq<Cell>
    requires Rectangular(f) && "ids" in f.columns
  {
    Seqs.NotIn(Column(f, "ids").value, done)
  }

  /** The info rows whose id the listener ledger lacks. */
  function Kept(f: Frame, done: seq<Cell>): (r: seq<Row>)
    requires Rectangular(f) && "ids" in f.columns
    ensures RowsOfWidth(r, |f.columns|)
  {
    var k := Seqs.FirstIndex(f.columns, "ids");
    var r := Seqs.Filter(f.rows, row => FieldAt(k)(row) !in done);
    assert forall i :: 0 <= i < |r| ==> r[i] in f.rows;
    r
  }

  /** `df[df["ids"].isin(todo)]` with `df["monthly_listeners"] = counts`. */
  function NewListenerRows(f: Frame, todo: seq<Cell>, counts: seq<Cell>): Result<Frame>
    requires Rectangular(f) && "ids" in f.columns
  {
    var k := Seqs.FirstIndex(f.columns, "ids");
    var rows := Seqs.Filter(f.rows, FieldIn(k, todo));
    assert forall i :: 0 <= i < |rows| ==> rows[i] in f.rows;
    SetColumn(Frame(f.columns, rows), ListenersColumn, counts)
  }

  /** `get_artist_monthly_listeners()` on the ledgers at `infoPath` and
      `mnthPath`: every scrape happens before anything is written, so a
      label that raises leaves the files as they were. */
  function MonthlyListenersStage(fs: Fs, infoPath: string, mnthPath: string, fetch: Cell -> Webscrapers.Page): Result<Fs>
  {
    match ReadCsv(fs, infoPath)
    case Err(e) => Err(e)
    case Ok(f) =>
      if "ids" !in f.columns then Err(KeyError("ids"))
      else
        match ReadUsecol(fs, mnthPath, "ids")
        case Err(e) => Err(e)
        case Ok(done) =>
          var todo := Todo(f, done);
          match Seqs.AllOk(todo, Listeners(fetch))
          case Err(e) => Err(e)
          case Ok(counts) =>
            match NewListenerRows(f, todo, counts)
            case Err(e) => Err(e)
            case Ok(g) => Ok(Append(fs, mnthPath, g.columns, g.rows, false))
  }

  /** The rows kept by `isin` are exactly those whose id is not yet in the
      listener ledger, and their ids are the work list itself. */
  lemma KeptRowsAreWorkList(f: Frame, done: seq<Cell>)
    requires Rectangular(f) && "ids" in f.columns
    ensures var k := Seqs.FirstIndex(f.columns, "ids");
            && Seqs.Filter(f.rows, FieldIn(k, Todo(f, done))) == Kept(f, done)
            && Seqs.Map(Kept(f, done), FieldAt(k)) == Todo(f, done)
  {
    var k := Seqs.FirstIndex(f.columns, "ids");
    var col := Column(f, "ids").value;
    var todo := Todo(f, done);
    var notDone := (row: Row) => FieldAt(k)(row) !in done;
    ColumnIsField(f, "ids");
    forall i | 0 <= i < |f.rows| ensures FieldIn(k, todo)(f.rows[i]) == notDone(f.rows[i]) {
      assert FieldAt(k)(f.rows[i]) == col[i];
      assert col[i] in col;
    }
    Seqs.FilterCongruence(f.rows, FieldIn(k, todo), notDone);
    Seqs.MapFilter(f.rows, FieldAt(k), c => c !in done, notDone);
  }

  /** So a list of one count per work-list id always fits the kept rows:
      each gets its count in the 'monthly_listeners' column and keeps its
      id and its other fields. */
  lemma ListenerRowsFit(f: Frame, done: seq<Cell>, counts: seq<Cell>)
    requires Rectangular(f) && "ids" in f.columns && |counts| == |Todo(f, done)|
    ensures var k := Seqs.FirstIndex(f.columns, "ids");
            var g := NewListenerRows(f, Todo(f, done), counts);
            var kept := Kept(f, done);
            && g.Ok? && Rectangular(g.value) && |g.value.rows| == |kept|
            && Column(g.value, ListenersColumn) == Ok(counts)
            && (forall i :: 0 <= i < |kept| ==> g.value.rows[i][k] == Todo(f, done)[i])
            && (forall i, j :: 0 <= i < |kept| && 0 <= j < |f.columns| && f.columns[j] != ListenersColumn ==> g.value.rows[i][j] == kept[i][j])
  {
    var k := Seqs.FirstIndex(f.columns, "ids");
    KeptRowsAreWorkList(f, done);
    var kept := Kept(f, done);
    var h := Frame(f.columns, kept);
    SetColumnFields(h, ListenersColumn, counts);
    forall i | 0 <= i < |kept| ensures kept[i][k] == Todo(f, done)[i] {
      assert Seqs.Map(kept, FieldAt(k))[i] == Todo(f, done)[i];
    }
  }

  /** When every page reads, the listener ledger gains exactly those rows,
      with no header. */
  lemma MonthlyListenersAppendsNew(fs: Fs, infoPath: string, mnthPath: string, fetch: Cell -> Webscrapers.Page)
    requires ReadCsv(fs, infoPath).Ok? && "ids" in ReadCsv(fs, infoPath).value.columns
    requires ReadUsecol(fs, mnthPath, "ids").Ok?
    requires Seqs.AllOk(Todo(ReadCsv(fs, infoPath).value, ReadUsecol(fs, mnthPath, "ids").value), Listeners(fetch)).Ok?
    ensures var f := ReadCsv(fs, infoPath).value;
            var todo := Todo(f, ReadUsecol(fs, mnthPath, "ids").value);
            var g := NewListenerRows(f, todo, Seqs.AllOk(todo, Listeners(fetch)).value);
            && g.Ok? && mnthPath in fs
            && MonthlyListenersStage(fs, infoPath, mnthPath, fetch) == Ok(fs[mnthPath := fs[mnthPath] + StoredRows(g.value.rows)])
  {
    var f := ReadCsv(fs, infoPath).value;
    var done := ReadUsecol(fs, mnthPath, "ids").value;
    var todo := Todo(f, done);
    var counts := Seqs.AllOk(todo, Listeners(fetch)).value;
    ListenerRowsFit(f, done, counts);
    var g := NewListenerRows(f, todo, counts).value;
    assert Append(fs, mnthPath, g.columns, g.rows, false) == fs[mnthPath := fs[mnthPath] + StoredRows(g.rows)] by {
      assert Contents(fs, mnthPath) + [] == fs[mnthPath];
    }
  }

  /** `get_artist_monthly_listeners()`, with its scrape loop: one count
      per new id, in order, then the rows appended. */
  method GetArtistMonthlyListeners(fs: Fs, infoPath: string, mnthPath: string, fetch: Cell -> Webscrapers.Page)
    returns (r: Result<Fs>)
    ensures r == MonthlyListenersStage(fs, infoPath, mnthPath, fetch)
  {
    var info := ReadCsv(fs, infoPath);
    if info.Err? {
      return Err(info.error);
    }
    var f := info.value;
    if "ids" !in f.columns {
      return Err(KeyError("ids"));
    }
    var done := ReadUsecol(fs, mnthPath, "ids");
    if done.Err? {
      return Err(done.error);
    }
    var todo := Todo(f, done.value);
    var counts := Seqs.Collect(todo, Listeners(fetch));
    if counts.Err? {
      return Err(counts.error);
    }
    var g := NewListenerRows(f, todo, counts.value);
    if g.Err? {
      return Err(g.error);
    }
    r := Ok(Append(fs, mnthPath, g.value.columns, g.value.rows, false));
  }

  // ---------------------------------------------------------------- clean_artist_info_mnth_lstnrs

  /** pandas' `field == -1`, true of an integer or a float field. */
  predicate MinusOne(c: Cell)
  {
    c == Int(-1) || c == Real(-1 as real)
  }

  /** A row with no empty field and no −1 in any required column. */
  function Complete(cols: seq<string>, req: seq<string>): Row -> bool
  {
    row => forall j :: 0 <= j < |cols| && cols[j] in req ==> j < |row| && row[j] != Nan && !MinusOne(row[j])
  }

  /** The first required feature the ledger lacks: `df[req_features]`
      raises `KeyError` for it. */
  function MissingFeature(cols: seq<string>, req: seq<string>): (r: Option<string>)
    ensures r.None? <==> forall c :: c in req ==> c in cols
    ensures r.Some? ==> r.value in req && r.value !in cols
  {
    var absent := Seqs.Filter(req, c => c !in cols);
    if absent == [] then None
    else
      assert absent[0] in absent;
      Some(absent[0])
  }

  /** Column `k` moved to the front: what `set_index` followed by
      `reset_index` does to the 'ids' column. */
  function IdsFirst<T>(s: seq<T>, k: nat): (r: seq<T>)
    requires k < |s|
    ensures |r| == |s|
  {
    [s[k]] + s[..k] + s[k + 1..]
  }

  /** Where field `j` of a row lands once field `k` is moved to the front. */
  function Moved(k: nat, j: nat): nat
  {
    if j == k then 0 else if j < k then j + 1 else j
  }

  lemma IdsFirstAt<T>(s: seq<T>, k: nat, j: nat)
    requires k < |s| && j < |s|
    ensures Moved(k, j) < |s| && IdsFirst(s, k)[Moved(k, j)] == s[j]
  {
  }

  /** `bio_genres_df.set_index('ids')['genres']` at an id: the genres of
      the first bio row with that id, or nothing. */
  function BioGenre(bio: Frame, id: Cell): Cell
    requires Rectangular(bio) && "ids" in bio.columns && "genres" in bio.columns
  {
    var ids := Column(bio, "ids").value;
    if id in ids then bio.rows[Seqs.FirstIndex(ids, id)][Seqs.FirstIndex(bio.columns, "genres")] else Nan
  }

  /** `combine_first`: only an empty field takes the other value. */
  function Fill(row: Row, kg: nat, c: Cell): (r: Row)
    requires kg < |row|
    ensures |r| == |row|
  {
    if row[kg] == Nan then row[kg := c] else row
  }

  /** One ledger row with the bio genres `c` filled in and its id moved to
      the front. */
  function FilledRow(row: Row, k: nat, kg: nat, c: Cell): (r: Row)
    requires k < |row| && kg < |row|
    ensures |r| == |row|
  {
    IdsFirst(Fill(row, kg, c), k)
  }

  /** An existing genres field is never overwritten; an empty one takes
      `c`; every other field stays, moved only by the id going to the
      front. */
  lemma FilledRowAt(row: Row, k: nat, kg: nat, c: Cell, j: nat)
    requires k < |row| && kg < |row| && j < |row|
    ensures Moved(k, j) < |row|
    ensures FilledRow(row, k, kg, c)[Moved(k, j)] == if j == kg && row[kg] == Nan then c else row[j]
  {
    IdsFirstAt(Fill(row, kg, c), k, j);
  }

  /** The ledger with the bio genres filled in, ids first. */
  function Backfill(f: Frame, bio: Frame): (g: Frame)
    requires Rectangular(f) && "ids" in f.columns && "genres" in f.columns
    requires Rectangular(bio) && "ids" in bio.columns && "genres" in bio.columns
    ensures Rectangular(g) && |g.rows| == |f.rows|
    ensures g.columns == IdsFirst(f.columns, Seqs.FirstIndex(f.columns, "ids"))
    ensures var k := Seqs.FirstIndex(f.columns, "ids");
            var kg := Seqs.FirstIndex(f.columns, "genres");
            forall i :: 0 <= i < |f.rows| ==> g.rows[i] == FilledRow(f.rows[i], k, kg, BioGenre(bio, f.rows[i][k]))
  {
    var k := Seqs.FirstIndex(f.columns, "ids");
    var kg := Seqs.FirstIndex(f.columns, "genres");
    Frame(IdsFirst(f.columns, k), seq(|f.rows|, i requires 0 <= i < |f.rows| => FilledRow(f.rows[i], k, kg, BioGenre(bio, f.rows[i][k]))))
  }

  /** The frame written to the cleaned ledger, or the error raised first:
      the complete rows of the listeners ledger, after the bio genres are
      filled in when 'genres' is required. */
  function Cleaned(fs: Fs, mnthPath: string, bioPath: string, req: seq<string>): (r: Result<Frame>)
    ensures r.Ok? ==> Rectangular(r.value)
    ensures r.Ok? ==> forall i :: 0 <= i < |r.value.rows| ==> Complete(r.value.columns, req)(r.value.rows[i])
    ensures r.Ok? <==>
              && ReadCsv(fs, mnthPath).Ok? && (forall c :: c in req ==> c in ReadCsv(fs, mnthPath).value.columns)
              && ("genres" in req ==>
                    && ReadCsv(fs, bioPath).Ok? && "ids" in ReadCsv(fs, mnthPath).value.columns
                    && "ids" in ReadCsv(fs, bioPath).value.columns && "genres" in ReadCsv(fs, bioPath).value.columns)
    ensures r.Ok? && "genres" !in req ==> r.value == CleanFrame(ReadCsv(fs, mnthPath).value, req)
    ensures r.Ok? && "genres" in req ==> r.value == CleanFrame(Backfill(ReadCsv(fs, mnthPath).value, ReadCsv(fs, bioPath).value), req)
  {
    match ReadCsv(fs, mnthPath)
    case Err(e) => Err(e)
    case Ok(f) =>
      match MissingFeature(f.columns, req)
      case Some(c) => Err(KeyError(c))
      case None =>
        if "genres" !in req then Ok(CleanFrame(f, req))
        else
          match ReadCsv(fs, bioPath)
          case Err(e) => Err(e)
          case Ok(bio) =>
            if "ids" !in f.columns || "ids" !in bio.columns then Err(KeyError("ids"))
            else if "genres" !in bio.columns then Err(KeyError("genres"))
            else Ok(CleanFrame(Backfill(f, bio), req))
  }

  /** `dropna` on the required columns, then dropping rows with −1 in any of
      them: the rows that are complete, in order. */
  function CleanFrame(f: Frame, req: seq<string>): (g: Frame)
    requires Rectangular(f)
    ensures Rectangular(g) && g.columns == f.columns
    ensures forall row :: row in g.rows <==> row in f.rows && Complete(f.columns, req)(row)
  {
    var rows := Seqs.Filter(f.rows, Complete(f.columns, req));
    assert forall i :: 0 <= i < |rows| ==> rows[i] in f.rows;
    Frame(f.columns, rows)
  }

  /** `clean_artist_info_mnth_lstnrs(req_features)`: the cleaned ledger is
      rewritten, with a header. */
  function CleanStage(fs: Fs, mnthPath: string, bioPath: string, cleanPath: string, req: seq<string>): (r: Result<Fs>)
    ensures r.Ok? <==> Cleaned(fs, mnthPath, bioPath, req).Ok?
    ensures r.Ok? ==> r.value == Write(fs, cleanPath, Cleaned(fs, mnthPath, bioPath, req).value.columns, Cleaned(fs, mnthPath, bioPath, req).value.rows)
  {
    match Cleaned(fs, mnthPath, bioPath, req)
    case Err(e) => Err(e)
    case Ok(g) => Ok(Write(fs, cleanPath, g.columns, g.rows))
  }

  /** Without 'genres' among the required features the bio ledger is not
      read, and a row is kept exactly when it is complete. */
  lemma CleanWithoutGenres(fs: Fs, mnthPath: string, bioPath: string, req: seq<string>)
    requires "genres" !in req
    requires ReadCsv(fs, mnthPath).Ok? && forall c :: c in req ==> c in ReadCsv(fs, mnthPath).value.columns
    ensures var f := ReadCsv(fs, mnthPath).value;
            Cleaned(fs, mnthPath, bioPath, req) == Ok(Frame(f.columns, Seqs.Filter(f.rows, Complete(f.columns, req))))
  {
  }

  /** With 'genres' required, a row whose genres field was empty survives
      only if the bio ledger gave its id genres; a row with genres of its
      own keeps them. */
  lemma GenresNeverOverwritten(f: Frame, bio: Frame, req: seq<string>, i: nat)
    requires Rectangular(f) && "ids" in f.columns && "genres" in f.columns
    requires Rectangular(bio) && "ids" in bio.columns && "genres" in bio.columns
    requires "genres" in req && i < |f.rows|
    ensures var k := Seqs.FirstIndex(f.columns, "ids");
            var kg := Seqs.FirstIndex(f.columns, "genres");
            var g := Backfill(f, bio);
            && (f.rows[i][kg] != Nan ==> g.rows[i][Moved(k, kg)] == f.rows[i][kg])
            && (f.rows[i][kg] == Nan && BioGenre(bio, f.rows[i][k]) == Nan ==> g.rows[i] !in CleanFrame(g, req).rows)
  {
    var k := Seqs.FirstIndex(f.columns, "ids");
    var kg := Seqs.FirstIndex(f.columns, "genres");
    var g := Backfill(f, bio);
    FilledRowAt(f.rows[i], k, kg, BioGenre(bio, f.rows[i][k]), kg);
    if f.rows[i][kg] == Nan && BioGenre(bio, f.rows[i][k]) == Nan {
      IdsFirstAt(f.columns, k, kg);
      assert g.columns[Moved(k, kg)] == "genres";
      assert !Complete(g.columns, req)(g.rows[i]);
    }
  }

  // ---------------------------------------------------------------- get_artist_random_track_ids

  /** Whether a pair's id is not yet in the ledger. */
  function PairNotIn(done: seq<Cell>): ((Cell, Cell)) -> bool
  {
    (p: (Cell, Cell)) => p.0 !in done
  }

  function First(p: (Cell, Cell)): Cell { p.0 }

  function Second(p: (Cell, Cell)): Cell { p.1 }

  /** `[x for _, x in zip(ids, names) if _ not in done]` */
  function NamesNotIn(ids: seq<Cell>, names: seq<Cell>, done: seq<Cell>): seq<Cell>
  {
    Seqs.Map(Seqs.Filter(Seqs.Zip(ids, names), PairNotIn(done)), Second)
  }

  /** The ids and the names to look up: the names through the zip, the ids
      on their own, each cut to `num_to_scrape`. */
  function TrackWork(ids: seq<Cell>, names: seq<Cell>, done: seq<Cell>, num: Option<int>): (seq<Cell>, seq<Cell>)
  {
    (WorkSet(ids, done, num), Seqs.Truncate(NamesNotIn(ids, names, done), num))
  }

  /** Cutting two lists of one length to the same `num` keeps them zipped. */
  lemma ZipTruncate(a: seq<Cell>, b: seq<Cell>, num: Option<int>)
    requires |a| == |b|
    ensures |Seqs.Truncate(a, num)| == |Seqs.Truncate(b, num)|
    ensures Seqs.Zip(Seqs.Truncate(a, num), Seqs.Truncate(b, num)) == Seqs.Truncate(Seqs.Zip(a, b), num)
  {
    var z := Seqs.Zip(a, b);
    var ta, tb, tz := Seqs.Truncate(a, num), Seqs.Truncate(b, num), Seqs.Truncate(z, num);
    assert |ta| == |tb| == |tz|;
    forall i | 0 <= i < |tz| ensures Seqs.Zip(ta, tb)[i] == tz[i] {
      assert ta[i] == a[i] && tb[i] == b[i] && tz[i] == z[i];
    }
  }

  /** Names and ids are filtered by the same test on the id and cut
      together, so zipped back they are exactly the ledger's (id, name)
      pairs whose id is new, in order, cut to `num_to_scrape`: every name
      stays with its own id. */
  lemma TrackWorkAligned(ids: seq<Cell>, names: seq<Cell>, done: seq<Cell>, num: Option<int>)
    requires |ids| == |names|
    ensures |TrackWork(ids, names, done, num).0| == |TrackWork(ids, names, done, num).1|
    ensures Seqs.Zip(TrackWork(ids, names, done, num).0, TrackWork(ids, names, done, num).1)
         == Seqs.Truncate(Seqs.Filter(Seqs.Zip(ids, names), PairNotIn(done)), num)
  {
    var z := Seqs.Zip(ids, names);
    var kept := Seqs.Filter(z, PairNotIn(done));
    assert Seqs.Map(z, First) == ids;
    Seqs.MapFilter(z, First, x => x !in done, PairNotIn(done));
    assert Seqs.Map(kept, First) == Seqs.NotIn(ids, done);
    var a, b := Seqs.Map(kept, First), Seqs.Map(kept, Second);
    assert Seqs.Zip(a, b) == kept;
    ZipTruncate(a, b, num);
  }

  /** `get_artist_random_track_ids(num_to_scrape)` with the undefined
      `aih.get_artist_random_track_id` as `track`: no cleaned ledger means
      nothing to do, an absent track ledger counts as empty, and a header is
      written only when the track ledger is created. */
  function RandomTrackStage(fs: Fs, cleanPath: string, randPath: string, num: Option<int>, track: Cell -> Result<Cell>): (r: Result<Fs>)
    ensures cleanPath !in fs ==> r == Ok(fs)
    ensures r.Ok? && cleanPath in fs ==> randPath in r.value
  {
    if cleanPath !in fs then Ok(fs)
    else
      match ReadCsv(fs, cleanPath)
      case Err(e) => Err(e)
      case Ok(f) =>
        if "ids" !in f.columns then Err(KeyError("ids"))
        else if "names" !in f.columns then Err(KeyError("names"))
        else
          match ReadUsecolOrEmpty(fs, randPath, "ids")
          case Err(e) => Err(e)
          case Ok(done) =>
            var work := TrackWork(Column(f, "ids").value, Column(f, "names").value, done, num);
            match Seqs.AllOk(work.0, track)
            case Err(e) => Err(e)
            case Ok(tracks) =>
              match RowsOf([work.0, work.1, tracks])
              case Err(e) => Err(e)
              case Ok(rows) => Ok(AppendHeaderOnce(fs, randPath, RandColumns, rows))
  }

  const RandColumns: seq<string> := ["ids", "names", "track_ids"]

  /** Every (id, name) pair looked up is one of the ledger's own pairs. */
  lemma TrackPairsFromLedger(ids: seq<Cell>, names: seq<Cell>, done: seq<Cell>, num: Option<int>)
    requires |ids| == |names|
    ensures var work := TrackWork(ids, names, done, num);
            |work.0| == |work.1| &&
            forall i :: 0 <= i < |work.0| ==> (work.0[i], work.1[i]) in Seqs.Zip(ids, names) && work.0[i] !in done
  {
    var work := TrackWork(ids, names, done, num);
    TrackWorkAligned(ids, names, done, num);
    var z := Seqs.Zip(work.0, work.1);
    var kept := Seqs.Filter(Seqs.Zip(ids, names), PairNotIn(done));
    forall i | 0 <= i < |work.0|
      ensures (work.0[i], work.1[i]) in Seqs.Zip(ids, names) && work.0[i] !in done
    {
      assert z[i] == (work.0[i], work.1[i]);
      assert z[i] in kept;
    }
  }

  /** `pd.DataFrame({'ids': a, 'names': b, 'track_ids': c})` over three
      lists of one length: row `i` is `[a[i], b[i], c[i]]`. */
  lemma ThreeColumnRows(a: seq<Cell>, b: seq<Cell>, c: seq<Cell>)
    requires |a| == |b| == |c|
    ensures RowsOf([a, b, c]).Ok? && |RowsOf([a, b, c]).value| == |a|
    ensures forall i :: 0 <= i < |a| ==> RowsOf([a, b, c]).value[i] == [a[i], b[i], c[i]]
  {
    var data := [a, b, c];
    assert |data[1]| == |data[0]| && |data[2]| == |data[0]|;
    var rows := RowsOf(data).value;
    forall i | 0 <= i < |a| ensures rows[i] == [a[i], b[i], c[i]] {
      assert rows[i][0] == a[i] && rows[i][1] == b[i] && rows[i][2] == c[i];
    }
  }

  /** The rows appended to the track ledger. */
  function TrackRows(work: (seq<Cell>, seq<Cell>), tracks: seq<Cell>): seq<Row>
  {
    if |work.0| == |work.1| == |tracks| then RowsOf([work.0, work.1, tracks]).value else []
  }

  /** When every lookup answers, the frame is always built (its three lists
      have one length), and the track ledger gains one row per new id with
      that id's own name and track. */
  lemma RandomTracksAppended(fs: Fs, cleanPath: string, randPath: string, num: Option<int>, track: Cell -> Result<Cell>)
    requires ReadCsv(fs, cleanPath).Ok?
    requires var f := ReadCsv(fs, cleanPath).value; "ids" in f.columns && "names" in f.columns
    requires ReadUsecolOrEmpty(fs, randPath, "ids").Ok?
    requires var f := ReadCsv(fs, cleanPath).value;
             Seqs.AllOk(TrackWork(Column(f, "ids").value, Column(f, "names").value, ReadUsecolOrEmpty(fs, randPath, "ids").value, num).0, track).Ok?
    ensures var f := ReadCsv(fs, cleanPath).value;
            var work := TrackWork(Column(f, "ids").value, Column(f, "names").value, ReadUsecolOrEmpty(fs, randPath, "ids").value, num);
            var tracks := Seqs.AllOk(work.0, track).value;
            var rows := TrackRows(work, tracks);
            && RandomTrackStage(fs, cleanPath, randPath, num, track) == Ok(AppendHeaderOnce(fs, randPath, RandColumns, rows))
            && |rows| == |work.0| == |work.1| == |tracks|
            && forall i :: 0 <= i < |rows| ==> rows[i] == [work.0[i], work.1[i], tracks[i]] && track(work.0[i]) == Ok(tracks[i])
  {
    var f := ReadCsv(fs, cleanPath).value;
    var ids, names := Column(f, "ids").value, Column(f, "names").value;
    var done := ReadUsecolOrEmpty(fs, randPath, "ids").value;
    var work := TrackWork(ids, names, done, num);
    var tracks := Seqs.AllOk(work.0, track).value;
    TrackWorkAligned(ids, names, done, num);
    ThreeColumnRows(work.0, work.1, tracks);
  }

  /** `get_artist_random_track_ids(num_to_scrape)`, with its lookup loop:
      one track per id, in order, then the rows appended. */
  method GetArtistRandomTrackIds(fs: Fs, cleanPath: string, randPath: string, num: Option<int>, track: Cell -> Result<Cell>)
    returns (r: Result<Fs>)
    ensures r == RandomTrackStage(fs, cleanPath, randPath, num, track)
  {
    if cleanPath !in fs {
      return Ok(fs);
    }
    var info := ReadCsv(fs, cleanPath);
    if info.Err? {
      return Err(info.error);
    }
    var f := info.value;
    if "ids" !in f.columns {
      return Err(KeyError("ids"));
    }
    if "names" !in f.columns {
      return Err(KeyError("names"));
    }
    var done := ReadUsecolOrEmpty(fs, randPath, "ids");
    if done.Err? {
      return Err(done.error);
    }
    var work := TrackWork(Column(f, "ids").value, Column(f, "names").value, done.value, num);
    var tracks := Seqs.Collect(work.0, track);
    if tracks.Err? {
      return Err(tracks.error);
    }
    var rows := RowsOf([work.0, work.1, tracks.value]);
    if rows.Err? {
      return Err(rows.error);
    }
    r := Ok(AppendHeaderOnce(fs, randPath, RandColumns, rows.value));
  }

  // ---------------------------------------------------------------- generate_track_info_for_artists

  /** `[x for x in track_ids if x == x]`: NaN is the one value unequal to
      itself. */
  function Present(cs: seq<Cell>): (r: seq<Cell>)
    ensures Nan !in r
    ensures forall c :: c in r <==> c in cs && c != Nan
  {
    Seqs.Filter(cs, c => c != Nan)
  }

  /** The track ids to look up, `None` when the track-id ledger repeats one
      (an error is logged and nothing is written). */
  function TrackIdsToScrape(fs: Fs, idsPath: string, infoPath: string, num: Option<int>): (r: Result<Option<seq<Cell>>>)
    ensures r.Ok? ==> ReadUsecol(fs, idsPath, "track_ids").Ok?
    ensures r == Ok(None) <==> ReadUsecol(fs, idsPath, "track_ids").Ok? && !Seqs.Distinct(Present(ReadUsecol(fs, idsPath, "track_ids").value))
    ensures r.Ok? && r.value.Some? ==> ReadColumnOrEmpty(fs, infoPath, "ids").Ok?
    ensures r.Ok? && r.value.Some? ==>
              && Seqs.Distinct(r.value.value) && Nan !in r.value.value
              && forall x :: x in r.value.value ==> x in ReadUsecol(fs, idsPath, "track_ids").value && x !in ReadColumnOrEmpty(fs, infoPath, "ids").value
    ensures r.Ok? && r.value.Some? ==>
              r.value.value == WorkSet(Present(ReadUsecol(fs, idsPath, "track_ids").value), ReadColumnOrEmpty(fs, infoPath, "ids").value, num)
  {
    match ReadUsecol(fs, idsPath, "track_ids")
    case Err(e) => Err(e)
    case Ok(col) =>
      var ids := Present(col);
      if !Seqs.Distinct(ids) then Ok(None)
      else
        match ReadColumnOrEmpty(fs, infoPath, "ids")
        case Err(e) => Err(e)
        case Ok(scraped) =>
          var w := WorkSet(ids, scraped, num);
          WorkSetDistinct(ids, scraped, num);
          Ok(Some(w))
  }

  lemma WorkSetDistinct(ids: seq<Cell>, done: seq<Cell>, num: Option<int>)
    requires Seqs.Distinct(ids)
    ensures Seqs.Distinct(WorkSet(ids, done, num))
  {
    Seqs.FilterDistinct(ids, x => x !in done);
    assert Seqs.NotIn(ids, done) == Seqs.Filter(ids, x => x !in done);
    var w := WorkSet(ids, done, num);
    assert forall i :: 0 <= i < |w| ==> w[i] == Seqs.NotIn(ids, done)[i];
  }

  /** `generate_track_info_for_artists(num_to_scrape)` with the Spotify
      lookups and the `TrackInfoDict` as `build`, which fails with the
      exception they raise (the `sys.exit` after an alarm, the `TypeError`
      of a track returned as `None`): a repeated track id leaves the files
      as they were, a failed build writes nothing, and the append never
      writes a header. */
  function TrackInfoStage(fs: Fs, idsPath: string, infoPath: string, num: Option<int>, build: seq<Cell> -> Result<seq<Row>>)
    : (r: Result<Fs>)
    ensures TrackIdsToScrape(fs, idsPath, infoPath, num).Err? ==> r == Err(TrackIdsToScrape(fs, idsPath, infoPath, num).error)
    ensures TrackIdsToScrape(fs, idsPath, infoPath, num) == Ok(None) ==> r == Ok(fs)
    ensures var t := TrackIdsToScrape(fs, idsPath, infoPath, num);
            t.Ok? && t.value.Some? ==>
              && (build(t.value.value).Err? ==> r == Err(build(t.value.value).error))
              && (build(t.value.value).Ok? ==> r == Ok(fs[infoPath := Contents(fs, infoPath) + StoredRows(build(t.value.value).value)]))
  {
    match TrackIdsToScrape(fs, idsPath, infoPath, num)
    case Err(e) => Err(e)
    case Ok(None) => Ok(fs)
    case Ok(Some(ids)) =>
      match build(ids)
      case Err(e) => Err(e)
      case Ok(rows) =>
        assert Contents(fs, infoPath) + [] + StoredRows(rows) == Contents(fs, infoPath) + StoredRows(rows);
        Ok(Append(fs, infoPath, [], rows, false))
  }

  // ---------------------------------------------------------------- generate_artist_genres_from_bio

  /** `pd.read_csv(path, usecols=["ids", "names", "genres"])` */
  function GenreInfo(fs: Fs, path: string): (r: Result<Frame>)
    ensures r.Ok? <==> ReadCsv(fs, path).Ok? && "ids" in ReadCsv(fs, path).value.columns
                       && "names" in ReadCsv(fs, path).value.columns && "genres" in ReadCsv(fs, path).value.columns
    ensures r.Ok? ==> r.value == ReadCsv(fs, path).value
    ensures r.Err? && ReadCsv(fs, path).Ok? ==> r.error == ValueError
  {
    match ReadCsv(fs, path)
    case Err(e) => Err(e)
    case Ok(f) =>
      if "ids" in f.columns && "names" in f.columns && "genres" in f.columns then Ok(f) else Err(ValueError)
  }

  /** Whether a row's field `k` is NaN: `isnull()`. */
  function IsNullAt(k: nat): Row -> bool
  {
    row => k < |row| && row[k] == Nan
  }

  /** `df[df["genres"].isnull()]["ids"].tolist()`: the ids of the rows
      without genres, in row order. */
  function NullGenreIds(f: Frame): (r: seq<Cell>)
    requires Rectangular(f) && "ids" in f.columns && "genres" in f.columns
    ensures |r| <= |f.rows|
    ensures var k := Seqs.FirstIndex(f.columns, "ids");
            forall row :: row in f.rows && IsNullAt(Seqs.FirstIndex(f.columns, "genres"))(row) ==> row[k] in r
  {
    var k, kg := Seqs.FirstIndex(f.columns, "ids"), Seqs.FirstIndex(f.columns, "genres");
    var rows := Seqs.Filter(f.rows, IsNullAt(kg));
    var r := Seqs.Map(rows, FieldAt(k));
    assert forall row :: row in rows ==> row[k] in r by {
      forall row | row in rows ensures row[k] in r {
        var i :| 0 <= i < |rows| && rows[i] == row;
        assert r[i] == row[k];
      }
    }
    r
  }

  /** Every id without genres comes from a row whose genres are missing. */
  lemma NullGenreIdsFromRows(f: Frame, c: Cell)
    requires Rectangular(f) && "ids" in f.columns && "genres" in f.columns
    requires c in NullGenreIds(f)
    ensures exists i :: 0 <= i < |f.rows| && f.rows[i][Seqs.FirstIndex(f.columns, "genres")] == Nan && f.rows[i][Seqs.FirstIndex(f.columns, "ids")] == c
  {
    var k, kg := Seqs.FirstIndex(f.columns, "ids"), Seqs.FirstIndex(f.columns, "genres");
    var rows := Seqs.Filter(f.rows, IsNullAt(kg));
    var r := Seqs.Map(rows, FieldAt(k));
    assert r == NullGenreIds(f);
    var i :| 0 <= i < |r| && r[i] == c;
    assert rows[i] in f.rows;
    var j :| 0 <= j < |f.rows| && f.rows[j] == rows[i];
  }

  /** `[x for x in ids if x not in ledger_ids]` when the ledger exists, and
      `ids` unchanged otherwise. */
  function Without(ids: seq<Cell>, fs: Fs, path: string): (r: Result<seq<Cell>>)
    ensures r.Ok? <==> ReadUsecolOrEmpty(fs, path, "ids").Ok?
    ensures r.Ok? ==> r.value == Seqs.NotIn(ids, ReadUsecolOrEmpty(fs, path, "ids").value)
    ensures path !in fs ==> r == Ok(Seqs.NotIn(ids, []))
  {
    match ReadUsecolOrEmpty(fs, path, "ids")
    case Err(e) => Err(e)
    case Ok(done) => Ok(Seqs.NotIn(ids, done))
  }

  /** The ids whose bio is read: the genre-less ids of the monthly-listener
      ledger that neither the bio ledger nor the missing-bio ledger holds,
      cut to `num_to_scrape`. */
  function BioCandidates(f: Frame, fs: Fs, bioPath: string, missingPath: string, num: Option<int>): (r: Result<seq<Cell>>)
    requires Rectangular(f) && "ids" in f.columns && "genres" in f.columns
    ensures r.Ok? <==> ReadUsecolOrEmpty(fs, bioPath, "ids").Ok? && ReadUsecolOrEmpty(fs, missingPath, "ids").Ok?
    ensures r.Ok? ==> forall x :: x in r.value ==>
              x in NullGenreIds(f) && x !in ReadUsecolOrEmpty(fs, bioPath, "ids").value && x !in ReadUsecolOrEmpty(fs, missingPath, "ids").value
    ensures r.Ok? && num.None? ==> forall x ::
              x in NullGenreIds(f) && x !in ReadUsecolOrEmpty(fs, bioPath, "ids").value && x !in ReadUsecolOrEmpty(fs, missingPath, "ids").value ==> x in r.value
  {
    match Without(NullGenreIds(f), fs, bioPath)
    case Err(e) => Err(e)
    case Ok(a) =>
      match Without(a, fs, missingPath)
      case Err(e) => Err(e)
      case Ok(b) => Ok(Seqs.Truncate(b, num))
  }

  /** The ledger's (id, name) pairs, in row order. */
  function Pairs(f: Frame): (r: seq<(Cell, Cell)>)
    requires Rectangular(f) && "ids" in f.columns && "names" in f.columns
    ensures |r| == |f.rows|
  {
    Seqs.Zip(Column(f, "ids").value, Column(f, "names").value)
  }

  /** `df[df["ids"] == id]["names"].values[0]`: the name on the first row
      whose id equals `id`. NaN equals nothing, and no match raises
      `IndexError`. */
  function NameOf(pairs: seq<(Cell, Cell)>, id: Cell): (r: Result<Cell>)
    ensures r.Err? <==> id == Nan || forall i :: 0 <= i < |pairs| ==> pairs[i].0 != id
    ensures r.Err? ==> r.error == IndexError
    ensures r.Ok? ==> exists i :: 0 <= i < |pairs| && pairs[i] == (id, r.value) && forall j :: 0 <= j < i ==> pairs[j].0 != id
    decreases |pairs|
  {
    if id == Nan || pairs == [] then Err(IndexError)
    else if pairs[0].0 == id then Ok(pairs[0].1)
    else
      var r := NameOf(pairs[1..], id);
      assert r.Ok? ==> exists i :: 0 <= i < |pairs| && pairs[i] == (id, r.value) && forall j :: 0 <= j < i ==> pairs[j].0 != id by {
        if r.Ok? {
          var i :| 0 <= i < |pairs[1..]| && pairs[1..][i] == (id, r.value) && forall j :: 0 <= j < i ==> pairs[1..][j].0 != id;
          assert forall j :: 0 <= j < i + 1 ==> pairs[j].0 != id by {
            forall j | 0 <= j < i + 1 ensures pairs[j].0 != id {
              if j > 0 { assert pairs[j] == pairs[1..][j - 1]; }
            }
          }
        }
      }
      r
  }

  function Namer(pairs: seq<(Cell, Cell)>): Cell -> Result<Cell>
  {
    id => NameOf(pairs, id)
  }

  /** Every candidate but a NaN one has a name: it came from the ids
      column the names are looked up in. */
  lemma CandidateNamed(f: Frame, x: Cell)
    requires Rectangular(f) && "ids" in f.columns && "names" in f.columns && "genres" in f.columns
    requires x in NullGenreIds(f)
    ensures NameOf(Pairs(f), x).Err? <==> x == Nan
  {
    var k, kg := Seqs.FirstIndex(f.columns, "ids"), Seqs.FirstIndex(f.columns, "genres");
    NullGenreIdsFromRows(f, x);
    var i :| 0 <= i < |f.rows| && f.rows[i][kg] == Nan && f.rows[i][k] == x;
    assert Pairs(f)[i].0 == x;
  }

  /** The page `scrape_genres_from_bio` fetches for an id; the name is
      only logged. */
  function BioGenres(fetch: Cell -> Webscrapers.Page, genres: seq<string>, id: Cell): Option<seq<string>>
  {
    Webscrapers.ScrapeGenresFromBio(fetch(id), genres)
  }

  /** `if genres:` fails for `None` and for an empty list. */
  function NoGenres(fetch: Cell -> Webscrapers.Page, genres: seq<string>): Cell -> bool
  {
    id => var g := BioGenres(fetch, genres, id); g.None? || g.value == []
  }

  /** The row an id with genres gets: its id, its name and the genres found,
      joined by commas. */
  function BioEntry(fetch: Cell -> Webscrapers.Page, genres: seq<string>): ((Cell, Cell)) -> Option<Row>
  {
    (p: (Cell, Cell)) =>
      var g := BioGenres(fetch, genres, p.0);
      if g.Some? && g.value != [] then Some([p.0, p.1, Str(Text.Join(g.value, ","))]) else None
  }

  /** One batch's lookups: the name of every id (the first failure is
      raised), the rows of the ids whose bio names a genre, and the ids whose
      bio names none. */
  function BatchResult(pairs: seq<(Cell, Cell)>, fetch: Cell -> Webscrapers.Page, genres: seq<string>, batch: seq<Cell>): (r: Result<(seq<Row>, seq<Cell>)>)
    ensures r.Ok? <==> Seqs.AllOk(batch, Namer(pairs)).Ok?
    ensures r.Err? ==> r.error == IndexError
  {
    match Seqs.AllOk(batch, Namer(pairs))
    case Err(e) => Err(e)
    case Ok(names) =>
      Ok((Seqs.Answers(Seqs.Zip(batch, names), BioEntry(fetch, genres)), Seqs.Filter(batch, NoGenres(fetch, genres))))
  }

  /** Whether the bio names a genre. */
  function HasGenres(fetch: Cell -> Webscrapers.Page, genres: seq<string>): Cell -> bool
  {
    id => var g := BioGenres(fetch, genres, id); g.Some? && g.value != []
  }

  /** An id gets a row exactly when its bio names a genre, and the row
      starts with it. */
  lemma EntryOf(fetch: Cell -> Webscrapers.Page, genres: seq<string>, p: (Cell, Cell))
    ensures BioEntry(fetch, genres)(p).Some? == HasGenres(fetch, genres)(p.0)
    ensures BioEntry(fetch, genres)(p).None? == NoGenres(fetch, genres)(p.0)
    ensures BioEntry(fetch, genres)(p).Some? ==> BioEntry(fetch, genres)(p).value[0] == p.0
  {
  }

  /** Over a batch and its names, the found rows carry exactly the ids with
      genres, in order, and the two lists have one entry per id. */
  lemma FoundAndMissing(batch: seq<Cell>, names: seq<Cell>, fetch: Cell -> Webscrapers.Page, genres: seq<string>)
    requires |names| == |batch|
    ensures Seqs.Map(Seqs.Answers(Seqs.Zip(batch, names), BioEntry(fetch, genres)), FieldAt(0)) == Seqs.Filter(batch, HasGenres(fetch, genres))
    ensures |Seqs.Answers(Seqs.Zip(batch, names), BioEntry(fetch, genres))| + |Seqs.Filter(batch, NoGenres(fetch, genres))| == |batch|
  {
    var z := Seqs.Zip(batch, names);
    var e := BioEntry(fetch, genres);
    forall i | 0 <= i < |z|
      ensures Seqs.Answered(e)(z[i]) == HasGenres(fetch, genres)(First(z[i]))
      ensures Seqs.Unanswered(e)(z[i]) == NoGenres(fetch, genres)(First(z[i]))
      ensures e(z[i]).Some? ==> FieldAt(0)(e(z[i]).value) == First(z[i])
    {
      EntryOf(fetch, genres, z[i]);
    }
    Seqs.AnswersMap(z, e, FieldAt(0), First);
    assert Seqs.Map(z, First) == batch;
    Seqs.MapFilter(z, First, HasGenres(fetch, genres), Seqs.Answered(e));
    Seqs.MapFilter(z, First, NoGenres(fetch, genres), Seqs.Unanswered(e));
    Seqs.PartitionCount(z, e);
  }

  /** Each id of a batch lands in exactly one of the two lists: the found
      rows carry, in order, exactly the ids with genres, the missing list
      holds the others, and together they have one entry per id. */
  lemma BatchPartition(pairs: seq<(Cell, Cell)>, fetch: Cell -> Webscrapers.Page, genres: seq<string>, batch: seq<Cell>)
    requires BatchResult(pairs, fetch, genres, batch).Ok?
    ensures var (found, missing) := BatchResult(pairs, fetch, genres, batch).value;
            && Seqs.Map(found, FieldAt(0)) == Seqs.Filter(batch, HasGenres(fetch, genres))
            && missing == Seqs.Filter(batch, NoGenres(fetch, genres))
            && |found| + |missing| == |batch|
  {
    FoundAndMissing(batch, Seqs.AllOk(batch, Namer(pairs)).value, fetch, genres);
  }

  const BioColumns: seq<string> := ["ids", "names", "genres"]

  /** One batch written: the found rows to the bio ledger, then the missing
      ids to the missing-bio ledger, each with a header only when the file
      is created. */
  function BatchLedgers(fs: Fs, bioPath: string, missingPath: string, found: seq<Row>, missing: seq<Cell>): Fs
  {
    AppendHeaderOnce(AppendHeaderOnce(fs, bioPath, BioColumns, found), missingPath, ["ids"], SingleRows(missing))
  }

  /** A batch's appends leave every other file as it was. */
  lemma BatchLedgersKeep(fs: Fs, bioPath: string, missingPath: string, found: seq<Row>, missing: seq<Cell>)
    ensures var r := BatchLedgers(fs, bioPath, missingPath, found, missing);
            bioPath in r && missingPath in r &&
            forall p :: p in fs && p != bioPath && p != missingPath ==> p in r && r[p] == fs[p]
  {
  }

  /** Two batches written one after the other write what the two batches
      joined write at once: the headers come only before the first. */
  lemma BatchLedgersTwice(fs: Fs, bioPath: string, missingPath: string, f1: seq<Row>, m1: seq<Cell>, f2: seq<Row>, m2: seq<Cell>)
    requires bioPath != missingPath
    ensures BatchLedgers(BatchLedgers(fs, bioPath, missingPath, f1, m1), bioPath, missingPath, f2, m2)
         == BatchLedgers(fs, bioPath, missingPath, f1 + f2, m1 + m2)
  {
    var s1, s2 := SingleRows(m1), SingleRows(m2);
    var s12 := SingleRows(m1 + m2);
    assert s1 + s2 == s12;
    var a := AppendHeaderOnce(fs, bioPath, BioColumns, f1);
    var b := AppendHeaderOnce(a, missingPath, ["ids"], s1);
    var twice := AppendHeaderOnce(AppendHeaderOnce(b, bioPath, BioColumns, f2), missingPath, ["ids"], s2);
    var missingFirst := AppendHeaderOnce(a, missingPath, ["ids"], s12);
    AppendHeaderOnceCommute(b, bioPath, BioColumns, f2, missingPath, ["ids"], s2);
    AppendHeaderOnceTwice(a, missingPath, ["ids"], s1, s2);
    assert twice == AppendHeaderOnce(missingFirst, bioPath, BioColumns, f2);
    AppendHeaderOnceCommute(a, bioPath, BioColumns, f2, missingPath, ["ids"], s12);
    assert twice == AppendHeaderOnce(AppendHeaderOnce(a, bioPath, BioColumns, f2), missingPath, ["ids"], s12);
    AppendHeaderOnceTwice(fs, bioPath, BioColumns, f1, f2);
  }

  /** Two batches whose names are all found are one batch: the found rows
      and the missing ids join up. */
  lemma BatchResultConcat(pairs: seq<(Cell, Cell)>, fetch: Cell -> Webscrapers.Page, genres: seq<string>, a: seq<Cell>, b: seq<Cell>)
    ensures BatchResult(pairs, fetch, genres, a + b).Ok? <==>
              BatchResult(pairs, fetch, genres, a).Ok? && BatchResult(pairs, fetch, genres, b).Ok?
    ensures BatchResult(pairs, fetch, genres, a + b).Ok? ==>
              BatchResult(pairs, fetch, genres, a + b).value ==
              (BatchResult(pairs, fetch, genres, a).value.0 + BatchResult(pairs, fetch, genres, b).value.0,
               BatchResult(pairs, fetch, genres, a).value.1 + BatchResult(pairs, fetch, genres, b).value.1)
  {
    var n := Namer(pairs);
    if Seqs.AllOk(a + b, n).Ok? {
      Seqs.AllOkConcat(a, b, n);
      var na, nb := Seqs.AllOk(a, n).value, Seqs.AllOk(b, n).value;
      Seqs.ZipConcat(a, b, na, nb);
      Seqs.AnswersConcat(Seqs.Zip(a, na), Seqs.Zip(b, nb), BioEntry(fetch, genres));
      Seqs.FilterConcat(a, b, NoGenres(fetch, genres));
    } else if Seqs.AllOk(a, n).Ok? && Seqs.AllOk(b, n).Ok? {
      Seqs.AllOkJoin(a, b, n);
    }
  }

  /** The files, the error that stopped the run if any, and the number of
      10 s pauses made. */
  datatype BioRun = BioRun(fs: Fs, error: Option<PyError>, pauses: nat)

  /** What the batch loop works with: the two ledgers it writes, the
      (id, name) pairs names are looked up in, the page of each id and the
      genres looked for. */
  datatype BioEnv = BioEnv(bioPath: string, missingPath: string, pairs: seq<(Cell, Cell)>,
                           fetch: Cell -> Webscrapers.Page, genres: seq<string>)

  /** One pass of the batch loop: the batch is looked up, written, and
      followed by a pause, or a failing name lookup stops the run with the
      files as they were. */
  function BioStep(run: BioRun, env: BioEnv, batch: seq<Cell>): (r: BioRun)
    ensures r.error.None? <==> BatchResult(env.pairs, env.fetch, env.genres, batch).Ok?
    ensures r.error.Some? ==> r.error == Some(IndexError) && r.fs == run.fs && r.pauses == run.pauses
    ensures r.error.None? ==> r.pauses == run.pauses + 1
  {
    match BatchResult(env.pairs, env.fetch, env.genres, batch)
    case Err(e) => BioRun(run.fs, Some(e), run.pauses)
    case Ok(res) => BioRun(BatchLedgers(run.fs, env.bioPath, env.missingPath, res.0, res.1), None, run.pauses + 1)
  }

  /** What the batch loop does from `run` on: a pause follows every batch
      written, and a stopped run stays stopped. */
  function BioFrom(run: BioRun, env: BioEnv, batches: seq<seq<Cell>>): (r: BioRun)
    ensures run.error.Some? ==> r == run
    ensures run.pauses <= r.pauses <= run.pauses + |batches|
    ensures run.error.None? && r.error.None? ==> r.pauses == run.pauses + |batches|
    ensures run.error.None? && r.error.Some? ==> r.error == Some(IndexError)
    decreases |batches|
  {
    if run.error.Some? || batches == [] then run
    else BioFrom(BioStep(run, env, batches[0]), env, batches[1..])
  }

  /** A pass writes only the two bio ledgers. */
  lemma BioStepKeeps(run: BioRun, env: BioEnv, batch: seq<Cell>, p: string)
    requires p in run.fs && p != env.bioPath && p != env.missingPath
    ensures p in BioStep(run, env, batch).fs && BioStep(run, env, batch).fs[p] == run.fs[p]
  {
    var b := BatchResult(env.pairs, env.fetch, env.genres, batch);
    if b.Ok? {
      BatchLedgersKeep(run.fs, env.bioPath, env.missingPath, b.value.0, b.value.1);
    }
  }

  /** The batch loop writes only the two bio ledgers. */
  lemma {:induction false} BioFromKeeps(run: BioRun, env: BioEnv, batches: seq<seq<Cell>>, p: string)
    requires p in run.fs && p != env.bioPath && p != env.missingPath
    ensures p in BioFrom(run, env, batches).fs && BioFrom(run, env, batches).fs[p] == run.fs[p]
    decreases |batches|
  {
    if run.error.None? && batches != [] {
      BioStepKeeps(run, env, batches[0], p);
      BioFromKeeps(BioStep(run, env, batches[0]), env, batches[1..], p);
    }
  }

  /** A run over batches stops exactly when one of their ids has no name,
      and a run that does not stop writes what one batch of all their ids
      would write. */
  lemma {:induction false} BioFromWrites(run: BioRun, env: BioEnv, batches: seq<seq<Cell>>)
    requires run.error.None? && env.bioPath != env.missingPath && batches != []
    ensures var r := BioFrom(run, env, batches);
            var all := BatchResult(env.pairs, env.fetch, env.genres, Seqs.Flatten(batches));
            && (r.error.None? <==> all.Ok?)
            && (r.error.None? ==> r.fs == BatchLedgers(run.fs, env.bioPath, env.missingPath, all.value.0, all.value.1))
    decreases |batches|
  {
    var step := BioStep(run, env, batches[0]);
    var rest := batches[1..];
    assert Seqs.Flatten(batches) == batches[0] + Seqs.Flatten(rest);
    BatchResultConcat(env.pairs, env.fetch, env.genres, batches[0], Seqs.Flatten(rest));
    if rest == [] {
      assert Seqs.Flatten(rest) == [];
      assert batches[0] + [] == batches[0];
    } else if step.error.None? {
      BioFromWrites(step, env, rest);
      var b0 := BatchResult(env.pairs, env.fetch, env.genres, batches[0]);
      var br := BatchResult(env.pairs, env.fetch, env.genres, Seqs.Flatten(rest));
      if br.Ok? {
        BatchLedgersTwice(run.fs, env.bioPath, env.missingPath, b0.value.0, b0.value.1, br.value.0, br.value.1);
      }
    }
  }

  const BioBatch: nat := 100

  /** The part of the bio stage after the monthly-listener ledger is read
      into `f`: the candidates, then the batch loop. */
  function BioStage(f: Frame, fs: Fs, bioPath: string, missingPath: string, num: Option<int>,
                    genres: seq<string>, fetch: Cell -> Webscrapers.Page): (r: BioRun)
    requires Rectangular(f) && "ids" in f.columns && "names" in f.columns && "genres" in f.columns
    ensures BioCandidates(f, fs, bioPath, missingPath, num).Err? ==>
              r == BioRun(fs, Some(BioCandidates(f, fs, bioPath, missingPath, num).error), 0)
  {
    match BioCandidates(f, fs, bioPath, missingPath, num)
    case Err(e) => BioRun(fs, Some(e), 0)
    case Ok(ids) => BioFrom(BioRun(fs, None, 0), BioEnv(bioPath, missingPath, Pairs(f), fetch, genres), Seqs.Chunks(ids, BioBatch))
  }

  /** `generate_artist_genres_from_bio(num_to_scrape)` with the configured
      genre list as `genres` and the artist-page request as `fetch`. */
  function GenresFromBio(fs: Fs, cfg: Config, num: Option<int>, genres: seq<string>, fetch: Cell -> Webscrapers.Page): (r: BioRun)
    ensures GenreInfo(fs, cfg.MnthLstnrsPath()).Err? ==> r == BioRun(fs, Some(GenreInfo(fs, cfg.MnthLstnrsPath()).error), 0)
    ensures GenreInfo(fs, cfg.MnthLstnrsPath()).Ok? ==>
              r == BioStage(GenreInfo(fs, cfg.MnthLstnrsPath()).value, fs, cfg.BioGenresPath(), cfg.MissingBioGenresPath(), num, genres, fetch)
  {
    match GenreInfo(fs, cfg.MnthLstnrsPath())
    case Err(e) => BioRun(fs, Some(e), 0)
    case Ok(f) => BioStage(f, fs, cfg.BioGenresPath(), cfg.MissingBioGenresPath(), num, genres, fetch)
  }

  /** The names of candidate ids are all found exactly when none is NaN. */
  lemma CandidatesNamed(f: Frame, c: seq<Cell>, fetch: Cell -> Webscrapers.Page, genres: seq<string>)
    requires Rectangular(f) && "ids" in f.columns && "names" in f.columns && "genres" in f.columns
    requires forall x :: x in c ==> x in NullGenreIds(f)
    ensures BatchResult(Pairs(f), fetch, genres, c).Ok? <==> Nan !in c
  {
    forall i | 0 <= i < |c| ensures NameOf(Pairs(f), c[i]).Err? <==> c[i] == Nan {
      assert c[i] in c;
      CandidateNamed(f, c[i]);
    }
  }

  /** The batch loop over the batches of 100 of a list of ids. */
  lemma BioChunksOutcome(fs: Fs, env: BioEnv, c: seq<Cell>)
    requires env.bioPath != env.missingPath
    ensures var r := BioFrom(BioRun(fs, None, 0), env, Seqs.Chunks(c, BioBatch));
            var all := BatchResult(env.pairs, env.fetch, env.genres, c);
            && (r.error.None? <==> all.Ok?)
            && (c == [] ==> r == BioRun(fs, None, 0))
            && (c != [] && all.Ok? ==>
                  r.fs == BatchLedgers(fs, env.bioPath, env.missingPath, all.value.0, all.value.1))
            && (r.error.None? ==> r.pauses == |Seqs.Chunks(c, BioBatch)|)
  {
    var batches := Seqs.Chunks(c, BioBatch);
    if c != [] {
      BioFromWrites(BioRun(fs, None, 0), env, batches);
    }
  }

  /** The bio stage once its candidates are read: it stops exactly when a
      candidate id is NaN (its name lookup raises `IndexError`); no
      candidates means no file is touched; otherwise the bio ledger gains the
      rows of the candidates whose bio names a genre and the missing-bio
      ledger the other candidates, and one pause follows each batch of 100. */
  lemma BioStageOutcome(f: Frame, fs: Fs, bioPath: string, missingPath: string, num: Option<int>,
                        genres: seq<string>, fetch: Cell -> Webscrapers.Page)
    requires Rectangular(f) && "ids" in f.columns && "names" in f.columns && "genres" in f.columns
    requires bioPath != missingPath
    requires BioCandidates(f, fs, bioPath, missingPath, num).Ok?
    ensures var c := BioCandidates(f, fs, bioPath, missingPath, num).value;
            var r := BioStage(f, fs, bioPath, missingPath, num, genres, fetch);
            var all := BatchResult(Pairs(f), fetch, genres, c);
            && (all.Ok? <==> Nan !in c)
            && (r.error.None? <==> all.Ok?)
            && (r.error.Some? ==> r.error == Some(IndexError))
            && (c == [] ==> r == BioRun(fs, None, 0))
            && (c != [] && all.Ok? ==>
                  && r.fs == BatchLedgers(fs, bioPath, missingPath, all.value.0, all.value.1)
                  && r.pauses == |Seqs.Chunks(c, BioBatch)|)
  {
    var c := BioCandidates(f, fs, bioPath, missingPath, num).value;
    var env := BioEnv(bioPath, missingPath, Pairs(f), fetch, genres);
    CandidatesNamed(f, c, fetch, genres);
    BioChunksOutcome(fs, env, c);
  }

  /** Every id of a batch named: the batch's lists are those of the
      (id, name) pairs. */
  lemma AllNamed(env: BioEnv, batch: seq<Cell>, looked: seq<(Cell, Cell)>)
    requires |looked| == |batch|
    requires forall k :: 0 <= k < |batch| ==> looked[k].0 == batch[k] && Namer(env.pairs)(batch[k]) == Ok(looked[k].1)
    ensures BatchResult(env.pairs, env.fetch, env.genres, batch)
         == Ok((Seqs.Answers(looked, BioEntry(env.fetch, env.genres)), Seqs.Filter(batch, NoGenres(env.fetch, env.genres))))
  {
    var names := Seqs.Map(looked, Second);
    Seqs.AllOkOf(batch, Namer(env.pairs), names);
    assert Seqs.Zip(batch, names) == looked;
  }

  /** A name lookup failing after the earlier ones answered fails the batch. */
  lemma FirstUnnamed(env: BioEnv, batch: seq<Cell>, j: nat)
    requires j < |batch| && Namer(env.pairs)(batch[j]).Err?
    requires forall k :: 0 <= k < j ==> Namer(env.pairs)(batch[k]).Ok?
    ensures BatchResult(env.pairs, env.fetch, env.genres, batch) == Err(Namer(env.pairs)(batch[j]).error)
  {
    Seqs.AllOkFirstError(batch, Namer(env.pairs), j);
  }

  /** The body of the loop over a batch, once the id's name is found: the
      bio is read and the id goes to the found rows, with its name and
      genres, or to the missing ids. */
  method ClassifyOne(env: BioEnv, id: Cell, name: Cell, found: seq<Row>, missing: seq<Cell>)
    returns (found': seq<Row>, missing': seq<Cell>)
    ensures var e := BioEntry(env.fetch, env.genres)((id, name));
            found' == found + (if e.Some? then [e.value] else [])
    ensures missing' == missing + (if NoGenres(env.fetch, env.genres)(id) then [id] else [])
  {
    var genres := Webscrapers.ScrapeGenresFromBio(env.fetch(id), env.genres);
    if genres.Some? && genres.value != [] {
      found', missing' := found + [[id, name, Str(Text.Join(genres.value, ","))]], missing;
    } else {
      found', missing' := found, missing + [id];
    }
  }

  /** One more id classified keeps the loop's lists those of the ids so far. */
  lemma ClassifyStep(env: BioEnv, batch: seq<Cell>, j: nat, looked: seq<(Cell, Cell)>, name: Cell,
                     found: seq<Row>, missing: seq<Cell>, found': seq<Row>, missing': seq<Cell>)
    requires j < |batch| && |looked| == j
    requires forall k :: 0 <= k < j ==> looked[k].0 == batch[k] && Namer(env.pairs)(batch[k]) == Ok(looked[k].1)
    requires Namer(env.pairs)(batch[j]) == Ok(name)
    requires found == Seqs.Answers(looked, BioEntry(env.fetch, env.genres))
    requires missing == Seqs.Filter(batch[..j], NoGenres(env.fetch, env.genres))
    requires var e := BioEntry(env.fetch, env.genres)((batch[j], name));
             found' == found + (if e.Some? then [e.value] else [])
    requires missing' == missing + (if NoGenres(env.fetch, env.genres)(batch[j]) then [batch[j]] else [])
    ensures var looked' := looked + [(batch[j], name)];
            forall k :: 0 <= k < j + 1 ==> looked'[k].0 == batch[k] && Namer(env.pairs)(batch[k]) == Ok(looked'[k].1)
    ensures found' == Seqs.Answers(looked + [(batch[j], name)], BioEntry(env.fetch, env.genres))
    ensures missing' == Seqs.Filter(batch[..j + 1], NoGenres(env.fetch, env.genres))
  {
    Seqs.AnswersSnoc(looked, (batch[j], name), BioEntry(env.fetch, env.genres));
    assert batch[..j + 1] == batch[..j] + [batch[j]];
    Seqs.FilterSnoc(batch[..j], batch[j], NoGenres(env.fetch, env.genres));
  }

  /** The loop over one batch: each id's name is looked up (a failed
      lookup raises), its bio read, and the id added to the found rows or to
      the missing ids. */
  method ClassifyBatch(env: BioEnv, batch: seq<Cell>) returns (r: Result<(seq<Row>, seq<Cell>)>)
    ensures r == BatchResult(env.pairs, env.fetch, env.genres, batch)
  {
    var found: seq<Row> := [];
    var missing: seq<Cell> := [];
    ghost var looked: seq<(Cell, Cell)> := [];
    var j := 0;
    while j < |batch|
      invariant 0 <= j <= |batch| && |looked| == j
      invariant forall k :: 0 <= k < j ==> looked[k].0 == batch[k] && Namer(env.pairs)(batch[k]) == Ok(looked[k].1)
      invariant found == Seqs.Answers(looked, BioEntry(env.fetch, env.genres))
      invariant missing == Seqs.Filter(batch[..j], NoGenres(env.fetch, env.genres))
    {
      var id := batch[j];
      var name := Namer(env.pairs)(id);
      if name.Err? {
        FirstUnnamed(env, batch, j);
        return Err(name.error);
      }
      var found', missing' := ClassifyOne(env, id, name.value, found, missing);
      ClassifyStep(env, batch, j, looked, name.value, found, missing, found', missing');
      found, missing := found', missing';
      looked := looked + [(id, name.value)];
      j := j + 1;
    }
    assert batch[..j] == batch;
    AllNamed(env, batch, looked);
    r := Ok((found, missing));
  }

  /** The loop over the batches: each batch is classified, written to the
      two ledgers and followed by `time.sleep(10)`, until a name lookup
      raises. */
  method RunBioBatches(fs: Fs, env: BioEnv, batches: seq<seq<Cell>>) returns (out: Fs, failure: Option<PyError>, pauses: nat)
    ensures BioRun(out, failure, pauses) == BioFrom(BioRun(fs, None, 0), env, batches)
  {
    out, failure, pauses := fs, None, 0;
    var b := 0;
    while b < |batches| && failure.None?
      invariant 0 <= b <= |batches|
      invariant BioFrom(BioRun(out, failure, pauses), env, batches[b..]) == BioFrom(BioRun(fs, None, 0), env, batches)
      decreases |batches| - b
    {
      assert batches[b..][1..] == batches[b + 1..];
      var res := ClassifyBatch(env, batches[b]);
      if res.Err? {
        failure := Some(res.error);
      } else {
        out := AppendHeaderOnce(out, env.bioPath, BioColumns, res.value.0);
        out := AppendHeaderOnce(out, env.missingPath, ["ids"], SingleRows(res.value.1));
        pauses := pauses + 1;
      }
      b := b + 1;
    }
  }

  /** `generate_artist_genres_from_bio(num_to_scrape)`, with its loops. */
  method GenerateArtistGenresFromBio(fs: Fs, cfg: Config, num: Option<int>, genres: seq<string>, fetch: Cell -> Webscrapers.Page)
    returns (out: Fs, failure: Option<PyError>, pauses: nat)
    ensures BioRun(out, failure, pauses) == GenresFromBio(fs, cfg, num, genres, fetch)
  {
    var info := GenreInfo(fs, cfg.MnthLstnrsPath());
    if info.Err? {
      return fs, Some(info.error), 0;
    }
    var f := info.value;
    var ids := BioCandidates(f, fs, cfg.BioGenresPath(), cfg.MissingBioGenresPath(), num);
    if ids.Err? {
      return fs, Some(ids.error), 0;
    }
    var env := BioEnv(cfg.BioGenresPath(), cfg.MissingBioGenresPath(), Pairs(f), fetch, genres);
    out, failure, pauses := RunBioBatches(fs, env, Seqs.Chunks(ids.value, BioBatch));
  }
}
