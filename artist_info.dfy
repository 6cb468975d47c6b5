/** `MusicBrainz_artist_info.py`: the older driver of the artist stages. Its
    files sit under one hard-coded output directory; its artist-info,
    monthly-listener and track-info stages are those of
    `MusicBrainz_artist_track_info.py` on these paths, and its random-track
    stage has no names column and never writes a header. */
module ArtistInfo {
  import opened Common
  import Seqs
  import opened Ledger
  import Webscrapers
  import ArtistTrackInfo

  const OutputDir: string := "/n/holystore01/LABS/itc_lab/Users/sjeffreson/serch/artist-database/"

  const ArtistIdsPath: string := OutputDir + "artist_ids.csv"
  const ArtistPath: string := OutputDir + "Spotify_artist_info.csv"
  const MnthLstnrsPath: string := OutputDir + "Spotify_artist_info_Mnth-Lstnrs.csv"
  const RandTrackIdsPath: string := OutputDir + "Spotify_artist_info_Random-Track-IDs.csv"
  const TracksInfoPath: string := OutputDir + "Spotify_artist_info_tracks.csv"

  /** The random-track stage's columns. */
  const RandColumns: seq<string> := ["ids", "track_ids"]

  /** The five ledgers are five files. */
  lemma PathsDistinct()
    ensures ArtistIdsPath != ArtistPath && ArtistPath != MnthLstnrsPath && MnthLstnrsPath != RandTrackIdsPath
    ensures RandTrackIdsPath != TracksInfoPath && ArtistPath != TracksInfoPath && MnthLstnrsPath != TracksInfoPath
  {
    var n := |OutputDir|;
    assert ArtistIdsPath[n] == 'a' && ArtistPath[n] == 'S';
    assert ArtistPath[n + 19] == '.' && MnthLstnrsPath[n + 19] == '_';
    assert |ArtistPath| < |TracksInfoPath| && |MnthLstnrsPath| > |TracksInfoPath|;
    assert MnthLstnrsPath[n + 20] == 'M' && RandTrackIdsPath[n + 20] == 'R';
    assert |RandTrackIdsPath| != |TracksInfoPath|;
  }

  /** Whether a stage only appended to the file at `path`: every other file
      is as it was, and the old lines of that one are still its first. */
  predicate OnlyAppended(fs: Fs, out: Fs, path: string)
  {
    && path in out
    && Contents(fs, path) <= out[path]
    && (forall p :: p in fs && p != path ==> p in out && out[p] == fs[p])
    && (forall p :: p in out && p != path ==> p in fs)
  }

  // ---------------------------------------------------------------- get_artist_info

  /** The artist ids to look up: those of artist_ids.csv that
      Spotify_artist_info.csv lacks, in order, cut to `num_to_scrape`. */
  function ArtistWork(fs: Fs, num: Option<int>): seq<Cell>
    requires ReadUsecol(fs, ArtistIdsPath, "ids").Ok? && ReadUsecol(fs, ArtistPath, "ids").Ok?
  {
    ArtistTrackInfo.WorkSet(ReadUsecol(fs, ArtistIdsPath, "ids").value, ReadUsecol(fs, ArtistPath, "ids").value, num)
  }

  /** `get_artist_info(num_to_scrape)` with the undefined `aih` helpers as
      `build`: the rows built for the work set are appended, without a
      header, to the info ledger, and no other file changes. */
  function GetArtistInfo(fs: Fs, num: Option<int>, build: seq<Cell> -> seq<Row>): (r: Result<Fs>)
    ensures r.Ok? <==> ReadUsecol(fs, ArtistIdsPath, "ids").Ok? && ReadUsecol(fs, ArtistPath, "ids").Ok?
    ensures r.Ok? ==> r.value == fs[ArtistPath := fs[ArtistPath] + StoredRows(build(ArtistWork(fs, num)))]
    ensures r.Ok? ==> OnlyAppended(fs, r.value, ArtistPath)
  {
    ArtistTrackInfo.ArtistInfoStage(fs, ArtistIdsPath, ArtistPath, num, build)
  }

  // ---------------------------------------------------------------- get_artist_monthly_listeners

  /** `get_artist_monthly_listeners()`: the info rows whose id the listener
      ledger lacks, each with its scraped count, are appended without a
      header; no other file changes. */
  function MonthlyListeners(fs: Fs, fetch: Cell -> Webscrapers.Page): (r: Result<Fs>)
    ensures r.Ok? ==> OnlyAppended(fs, r.value, MnthLstnrsPath)
  {
    var r := ArtistTrackInfo.MonthlyListenersStage(fs, ArtistPath, MnthLstnrsPath, fetch);
    assert r.Ok? ==> MnthLstnrsPath in fs by {
      if r.Ok? {
        assert ReadUsecol(fs, MnthLstnrsPath, "ids").Ok?;
      }
    }
    r
  }

  /** When every page reads, the listener ledger gains one line per info
      row whose id it lacked, in order, each with that id and with the count
      scraped for it. */
  lemma ListenersForNewIds(fs: Fs, fetch: Cell -> Webscrapers.Page)
    requires ReadCsv(fs, ArtistPath).Ok? && "ids" in ReadCsv(fs, ArtistPath).value.columns
    requires ReadUsecol(fs, MnthLstnrsPath, "ids").Ok?
    requires Seqs.AllOk(ArtistTrackInfo.Todo(ReadCsv(fs, ArtistPath).value, ReadUsecol(fs, MnthLstnrsPath, "ids").value),
                        ArtistTrackInfo.Listeners(fetch)).Ok?
    ensures var f := ReadCsv(fs, ArtistPath).value;
            var k := Seqs.FirstIndex(f.columns, "ids");
            var todo := ArtistTrackInfo.Todo(f, ReadUsecol(fs, MnthLstnrsPath, "ids").value);
            var counts := Seqs.AllOk(todo, ArtistTrackInfo.Listeners(fetch)).value;
            var g := ArtistTrackInfo.NewListenerRows(f, todo, counts);
            && g.Ok? && |g.value.rows| == |todo|
            && MonthlyListeners(fs, fetch) == Ok(fs[MnthLstnrsPath := fs[MnthLstnrsPath] + StoredRows(g.value.rows)])
            && Column(g.value, ArtistTrackInfo.ListenersColumn) == Ok(counts)
            && forall i :: 0 <= i < |todo| ==> g.value.rows[i][k] == todo[i]
  {
    var f := ReadCsv(fs, ArtistPath).value;
    var done := ReadUsecol(fs, MnthLstnrsPath, "ids").value;
    var counts := Seqs.AllOk(ArtistTrackInfo.Todo(f, done), ArtistTrackInfo.Listeners(fetch)).value;
    ArtistTrackInfo.ListenerRowsFit(f, done, counts);
    ArtistTrackInfo.MonthlyListenersAppendsNew(fs, ArtistPath, MnthLstnrsPath, fetch);
  }

  /** `get_artist_monthly_listeners()`, with its scrape loop. */
  method GetArtistMonthlyListeners(fs: Fs, fetch: Cell -> Webscrapers.Page) returns (r: Result<Fs>)
    ensures r == MonthlyListeners(fs, fetch)
  {
    r := ArtistTrackInfo.GetArtistMonthlyListeners(fs, ArtistPath, MnthLstnrsPath, fetch);
  }

  // ---------------------------------------------------------------- get_artist_random_track_ids

  /** The rows `pd.DataFrame({"ids": ids, "track_ids": tracks})` holds. */
  function TrackIdRows(ids: seq<Cell>, tracks: seq<Cell>): (r: Result<seq<Row>>)
    ensures r.Ok? <==> |ids| == |tracks|
    ensures r.Ok? ==> |r.value| == |ids| && forall i :: 0 <= i < |ids| ==> r.value[i] == [ids[i], tracks[i]]
  {
    var r := RowsOf([ids, tracks]);
    assert [ids, tracks][0] == ids && [ids, tracks][1] == tracks;
    assert r.Ok? ==> forall i :: 0 <= i < |ids| ==> r.value[i] == [ids[i], tracks[i]] by {
      if r.Ok? {
        forall i | 0 <= i < |ids| ensures r.value[i] == [ids[i], tracks[i]] {
          assert r.value[i][0] == ids[i] && r.value[i][1] == tracks[i];
        }
      }
    }
    r
  }

  /** `get_artist_random_track_ids(num_to_scrape)` with the undefined
      `aih.get_artist_random_track_id` as `track`: the listener ledger must
      exist, an absent track ledger counts as empty, and the rows are always
      appended without a header, even to a file the append creates. */
  function RandomTrackIds(fs: Fs, num: Option<int>, track: Cell -> Result<Cell>): (r: Result<Fs>)
    ensures MnthLstnrsPath !in fs ==> r == Err(FileNotFound(MnthLstnrsPath))
    ensures r.Ok? ==> OnlyAppended(fs, r.value, RandTrackIdsPath)
  {
    match ReadCsv(fs, MnthLstnrsPath)
    case Err(e) => Err(e)
    case Ok(f) =>
      if "ids" !in f.columns then Err(KeyError("ids"))
      else
        match ReadUsecolOrEmpty(fs, RandTrackIdsPath, "ids")
        case Err(e) => Err(e)
        case Ok(done) =>
          var work := ArtistTrackInfo.WorkSet(Column(f, "ids").value, done, num);
          match Seqs.AllOk(work, track)
          case Err(e) => Err(e)
          case Ok(tracks) =>
            match TrackIdRows(work, tracks)
            case Err(e) => Err(e)
            case Ok(rows) => Ok(Append(fs, RandTrackIdsPath, RandColumns, rows, false))
  }

  /** The ids the random-track stage looks up. */
  function RandomTrackWork(fs: Fs, num: Option<int>): seq<Cell>
    requires ReadCsv(fs, MnthLstnrsPath).Ok? && "ids" in ReadCsv(fs, MnthLstnrsPath).value.columns
    requires ReadUsecolOrEmpty(fs, RandTrackIdsPath, "ids").Ok?
  {
    ArtistTrackInfo.WorkSet(Column(ReadCsv(fs, MnthLstnrsPath).value, "ids").value, ReadUsecolOrEmpty(fs, RandTrackIdsPath, "ids").value, num)
  }

  /** When every lookup answers, the track ledger gains one headerless line
      per listener-ledger id it lacked, holding that id and its track; a
      track ledger that was absent is treated as empty. */
  lemma RandomTracksHeaderless(fs: Fs, num: Option<int>, track: Cell -> Result<Cell>)
    requires ReadCsv(fs, MnthLstnrsPath).Ok? && "ids" in ReadCsv(fs, MnthLstnrsPath).value.columns
    requires ReadUsecolOrEmpty(fs, RandTrackIdsPath, "ids").Ok?
    requires Seqs.AllOk(RandomTrackWork(fs, num), track).Ok?
    ensures var work := RandomTrackWork(fs, num);
            var tracks := Seqs.AllOk(work, track).value;
            var rows := TrackIdRows(work, tracks).value;
            && TrackIdRows(work, tracks).Ok?
            && RandomTrackIds(fs, num, track) == Ok(fs[RandTrackIdsPath := Contents(fs, RandTrackIdsPath) + StoredRows(rows)])
            && |rows| == |work|
            && forall i :: 0 <= i < |work| ==> rows[i] == [work[i], tracks[i]] && track(work[i]) == Ok(tracks[i])
    ensures forall x :: x in RandomTrackWork(fs, num) ==>
              x in Column(ReadCsv(fs, MnthLstnrsPath).value, "ids").value && x !in ReadUsecolOrEmpty(fs, RandTrackIdsPath, "ids").value
  {
    var work := RandomTrackWork(fs, num);
    var tracks := Seqs.AllOk(work, track).value;
    var rows := TrackIdRows(work, tracks).value;
    assert Contents(fs, RandTrackIdsPath) + [] + StoredRows(rows) == Contents(fs, RandTrackIdsPath) + StoredRows(rows);
  }

  /** A run that creates the track ledger leaves a file whose first line is
      its first data row: there is no `ids,track_ids` header for the next
      run's `read_csv(..., usecols=["ids"])` to find. */
  lemma CreatedTrackLedgerHasNoHeader(fs: Fs, num: Option<int>, track: Cell -> Result<Cell>)
    requires RandTrackIdsPath !in fs
    requires RandomTrackIds(fs, num, track).Ok?
    requires RandomTrackWork(fs, num) != []
    ensures var work := RandomTrackWork(fs, num);
            var out := RandomTrackIds(fs, num, track).value;
            && out[RandTrackIdsPath] != []
            && out[RandTrackIdsPath][0] == StoredRow([work[0], Seqs.AllOk(work, track).value[0]])
  {
    RandomTracksHeaderless(fs, num, track);
  }

  /** `get_artist_random_track_ids(num_to_scrape)`, with its lookup loop. */
  method GetArtistRandomTrackIds(fs: Fs, num: Option<int>, track: Cell -> Result<Cell>) returns (r: Result<Fs>)
    ensures r == RandomTrackIds(fs, num, track)
  {
    var info := ReadCsv(fs, MnthLstnrsPath);
    if info.Err? {
      return Err(info.error);
    }
    var f := info.value;
    if "ids" !in f.columns {
      return Err(KeyError("ids"));
    }
    var done := ReadUsecolOrEmpty(fs, RandTrackIdsPath, "ids");
    if done.Err? {
      return Err(done.error);
    }
    var work := ArtistTrackInfo.WorkSet(Column(f, "ids").value, done.value, num);
    var tracks := Seqs.Collect(work, track);
    if tracks.Err? {
      return Err(tracks.error);
    }
    var rows := TrackIdRows(work, tracks.value);
    r := Ok(Append(fs, RandTrackIdsPath, RandColumns, rows.value, false));
  }

  // ---------------------------------------------------------------- generate_tracks_for_artists

  /** `generate_tracks_for_artists(num_to_scrape)` with the Spotify lookups
      and the `TrackInfoDict` as `build`, which fails with the exception
      they raise: NaN track ids are dropped, a repeated one leaves every
      file as it was, and otherwise the rows built for the unscraped ids,
      in the track-id ledger's order and cut to `num_to_scrape`, are
      appended to the track-info ledger without a header. */
  function GenerateTracks(fs: Fs, num: Option<int>, build: seq<Cell> -> Result<seq<Row>>): (r: Result<Fs>)
    ensures var t := ArtistTrackInfo.TrackIdsToScrape(fs, RandTrackIdsPath, TracksInfoPath, num);
            r.Ok? <==> t.Ok? && (t.value.Some? ==> build(t.value.value).Ok?)
    ensures ArtistTrackInfo.TrackIdsToScrape(fs, RandTrackIdsPath, TracksInfoPath, num) == Ok(None) ==> r == Ok(fs)
    ensures r.Ok? && r.value != fs ==> OnlyAppended(fs, r.value, TracksInfoPath)
    ensures var t := ArtistTrackInfo.TrackIdsToScrape(fs, RandTrackIdsPath, TracksInfoPath, num);
            r.Ok? && t.value.Some? ==>
              var work := ArtistTrackInfo.WorkSet(ArtistTrackInfo.Present(ReadUsecol(fs, RandTrackIdsPath, "track_ids").value),
                                                  ReadColumnOrEmpty(fs, TracksInfoPath, "ids").value, num);
              r.value == fs[TracksInfoPath := Contents(fs, TracksInfoPath) + StoredRows(build(work).value)]
  {
    ArtistTrackInfo.TrackInfoStage(fs, RandTrackIdsPath, TracksInfoPath, num, build)
  }

  /** The track-info ledger is appended with `header=False` as well, so a
      run that creates it leaves its first built row where a header should
      be. */
  lemma CreatedTrackInfoLedgerHasNoHeader(fs: Fs, num: Option<int>, build: seq<Cell> -> Result<seq<Row>>)
    requires TracksInfoPath !in fs
    requires var t := ArtistTrackInfo.TrackIdsToScrape(fs, RandTrackIdsPath, TracksInfoPath, num);
             t.Ok? && t.value.Some? && build(t.value.value).Ok? && build(t.value.value).value != []
    ensures var rows := build(ArtistTrackInfo.TrackIdsToScrape(fs, RandTrackIdsPath, TracksInfoPath, num).value.value).value;
            var out := GenerateTracks(fs, num, build);
            && out.Ok? && TracksInfoPath in out.value
            && out.value[TracksInfoPath] == StoredRows(rows)
            && out.value[TracksInfoPath][0] == StoredRow(rows[0])
  {
  }
}
