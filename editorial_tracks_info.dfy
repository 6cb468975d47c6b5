/** `Editorial_tracks_info.py`: for every day whose track-id file is in the
    output directory, the track information of that day's distinct tracks,
    written once to the day's info file. The output directory comes from
    the configuration and is a parameter; the Spotify lookups and the
    `TrackInfoDict` they fill are `build`, which turns the ids into the
    frame written or fails with the exception raised; the directory
    listing is a list of file names. */
module EditorialTracksInfo {
  import opened Common
  import Seqs
  import Text
  import opened Ledger

  const IdsMarker: string := "track_ids_last_24hrs_"

  function InfoFile(date: string): string
  {
    "track_info_last_24hrs_" + date + ".csv"
  }

  function IdsFile(date: string): string
  {
    IdsMarker + date + ".csv"
  }

  // ---------------------------------------------------------------- one day

  /** The ids handed to the lookups: each track id of the file, once. */
  function DistinctIds(col: seq<Cell>, listOf: set<Cell> -> seq<Cell>): (ids: seq<Cell>)
    requires Seqs.Lists(listOf)
    ensures Seqs.Distinct(ids)
    ensures forall x :: x in ids <==> x in col
  {
    listOf(set x | x in col)
  }

  /** `generate_track_info_for_date`: nothing when the day's info file
      exists; otherwise the frame built from the day's distinct track ids
      goes to a new info file, header first. `build` fails with the
      exception the lookups or the `TrackInfoDict` raise (the `sys.exit`
      after an alarm, the `TypeError` of a track returned as `None`), and
      then nothing is written. */
  function ForDate(fs: Fs, dir: string, date: string, listOf: set<Cell> -> seq<Cell>, build: seq<Cell> -> Result<Frame>)
    : (r: Result<Fs>)
    requires Seqs.Lists(listOf)
    ensures dir + InfoFile(date) in fs ==> r == Ok(fs)
    ensures var col := ReadUsecol(fs, dir + IdsFile(date), "track_ids");
            dir + InfoFile(date) !in fs ==> (r.Ok? <==> col.Ok? && build(DistinctIds(col.value, listOf)).Ok?)
    ensures var col := ReadUsecol(fs, dir + IdsFile(date), "track_ids");
            r.Err? ==> r == Err(if col.Err? then col.error else build(DistinctIds(col.value, listOf)).error)
    ensures r.Ok? ==> dir + InfoFile(date) in r.value && r.value.Keys == fs.Keys + {dir + InfoFile(date)}
    ensures r.Ok? ==> forall p :: p in fs && p != dir + InfoFile(date) ==> r.value[p] == fs[p]
    ensures r.Ok? && dir + InfoFile(date) !in fs ==>
              var f := build(DistinctIds(ReadUsecol(fs, dir + IdsFile(date), "track_ids").value, listOf)).value;
              r.value[dir + InfoFile(date)] == [HeaderRow(f.columns)] + StoredRows(f.rows)
  {
    var out := dir + InfoFile(date);
    if out in fs then Ok(fs)
    else
      match ReadUsecol(fs, dir + IdsFile(date), "track_ids")
      case Err(e) => Err(e)
      case Ok(col) =>
        match build(DistinctIds(col, listOf))
        case Err(e) => Err(e)
        case Ok(f) =>
          assert Contents(fs, out) == [];
          Ok(Append(fs, out, f.columns, f.rows, true))
  }

  /** Processing a day a second time changes nothing. */
  lemma ForDateOnce(fs: Fs, dir: string, date: string, listOf: set<Cell> -> seq<Cell>, build: seq<Cell> -> Result<Frame>)
    requires Seqs.Lists(listOf)
    requires ForDate(fs, dir, date, listOf, build).Ok?
    ensures var fs' := ForDate(fs, dir, date, listOf, build).value;
            ForDate(fs', dir, date, listOf, build) == Ok(fs')
  {
  }

  /** A frame whose rows fit its columns reads back from the new file. */
  lemma ForDateReadBack(fs: Fs, dir: string, date: string, listOf: set<Cell> -> seq<Cell>, build: seq<Cell> -> Result<Frame>)
    requires Seqs.Lists(listOf)
    requires dir + InfoFile(date) !in fs && ForDate(fs, dir, date, listOf, build).Ok?
    requires var f := build(DistinctIds(ReadUsecol(fs, dir + IdsFile(date), "track_ids").value, listOf)).value;
             RowsOfWidth(f.rows, |f.columns|)
    ensures var f := build(DistinctIds(ReadUsecol(fs, dir + IdsFile(date), "track_ids").value, listOf)).value;
            ReadCsv(ForDate(fs, dir, date, listOf, build).value, dir + InfoFile(date)) == Ok(Frame(f.columns, StoredRows(f.rows)))
  {
    var f := build(DistinctIds(ReadUsecol(fs, dir + IdsFile(date), "track_ids").value, listOf)).value;
    assert RowsOfWidth(StoredRows(f.rows), |f.columns|);
    ReadBack(ForDate(fs, dir, date, listOf, build).value, dir + InfoFile(date), f.columns, StoredRows(f.rows));
  }

  // ---------------------------------------------------------------- every day

  predicate HasMarker(f: string)
  {
    Text.Contains(f, IdsMarker)
  }

  /** `f.split("track_ids_last_24hrs_")[-1].split(".csv")[0]` */
  function DateOf(f: string): string
  {
    Text.BeforeFirst(Text.AfterLast(f, IdsMarker), ".csv")
  }

  /** The dates the listing yields: one per file name holding the marker,
      in listing order. */
  function Dates(listing: seq<string>): (r: seq<string>)
    ensures |r| <= |listing|
  {
    Seqs.Map(Seqs.Filter(listing, HasMarker), DateOf)
  }

  /** A date is processed exactly when some listed file holding the marker
      names it. */
  lemma DatesMembers(listing: seq<string>, d: string)
    ensures d in Dates(listing) <==> exists f :: f in listing && HasMarker(f) && DateOf(f) == d
  {
    Seqs.MapMembers(Seqs.Filter(listing, HasMarker), DateOf, d);
  }

  /** The date read off a day's track-id file is that day. */
  lemma DateRoundTrip(d: string)
    requires Text.DateLike(d)
    ensures HasMarker(IdsFile(d))
    ensures DateOf(IdsFile(d)) == d
  {
    var rest := d + ".csv";
    var s := IdsFile(d);
    assert s == IdsMarker + rest;
    assert Text.Occurs(s, IdsMarker, 0);
    Text.FirstCharAbsent(rest, IdsMarker);
    Text.AfterLeading(IdsMarker, rest);
    assert Text.Occurs(rest, ".csv", |d|) by {
      assert rest[|d|..|d| + 4] == ".csv";
    }
    forall j | 0 <= j < |d| ensures !Text.Occurs(rest, ".csv", j) {
      assert rest[j] == d[j];
      if j + 4 <= |rest| {
        assert rest[j..j + 4][0] == rest[j];
      }
    }
    Text.BeforeFirstAt(rest, ".csv", |d|);
    assert rest[..|d|] == d;
  }

  /** A listing of the track-id files of some days yields those days, in
      order. */
  lemma DatesOfIdsFiles(days: seq<string>)
    requires forall i :: 0 <= i < |days| ==> Text.DateLike(days[i])
    ensures Dates(Seqs.Map(days, IdsFile)) == days
  {
    var listing := Seqs.Map(days, IdsFile);
    forall i | 0 <= i < |listing| ensures HasMarker(listing[i]) && DateOf(listing[i]) == days[i] {
      DateRoundTrip(days[i]);
    }
    Seqs.FilterAll(listing, HasMarker);
  }

  /** The days in turn; an exception ends the run. */
  function AllDates(fs: Fs, dir: string, dates: seq<string>, listOf: set<Cell> -> seq<Cell>, build: seq<Cell> -> Result<Frame>)
    : Result<Fs>
    requires Seqs.Lists(listOf)
    decreases |dates|
  {
    if dates == [] then Ok(fs)
    else
      match ForDate(fs, dir, dates[0], listOf, build)
      case Err(e) => Err(e)
      case Ok(fs') => AllDates(fs', dir, dates[1..], listOf, build)
  }

  /** The run from the `j`-th date on, after that date's step. */
  lemma AllDatesFrom(fs: Fs, dir: string, dates: seq<string>, j: nat, listOf: set<Cell> -> seq<Cell>,
                     build: seq<Cell> -> Result<Frame>)
    requires Seqs.Lists(listOf) && j < |dates|
    ensures var step := ForDate(fs, dir, dates[j], listOf, build);
            AllDates(fs, dir, dates[j..], listOf, build)
            == if step.Err? then Err(step.error) else AllDates(step.value, dir, dates[j + 1..], listOf, build)
  {
    assert dates[j..][0] == dates[j];
    assert dates[j..][1..] == dates[j + 1..];
  }

  /** `generate_track_info_all_dates` */
  method GenerateTrackInfoAllDates(fs: Fs, dir: string, listing: seq<string>, listOf: set<Cell> -> seq<Cell>,
                                   build: seq<Cell> -> Result<Frame>)
    returns (r: Result<Fs>)
    requires Seqs.Lists(listOf)
    ensures r == AllDates(fs, dir, Dates(listing), listOf, build)
  {
    var dates := Dates(listing);
    var cur := fs;
    var j := 0;
    while j < |dates|
      invariant 0 <= j <= |dates|
      invariant AllDates(fs, dir, dates, listOf, build) == AllDates(cur, dir, dates[j..], listOf, build)
    {
      AllDatesFrom(cur, dir, dates, j, listOf, build);
      var step := ForDate(cur, dir, dates[j], listOf, build);
      if step.Err? {
        return Err(step.error);
      }
      cur := step.value;
      j := j + 1;
    }
    r := Ok(cur);
  }

  /** A run that ends normally leaves the info file of every date, keeps
      every file there was, and changes no file it did not create. */
  lemma {:induction false} AllDatesCreates(fs: Fs, dir: string, dates: seq<string>, listOf: set<Cell> -> seq<Cell>,
                                           build: seq<Cell> -> Result<Frame>)
    requires Seqs.Lists(listOf)
    requires AllDates(fs, dir, dates, listOf, build).Ok?
    ensures var fs' := AllDates(fs, dir, dates, listOf, build).value;
            && (forall d :: d in dates ==> dir + InfoFile(d) in fs')
            && (forall p :: p in fs ==> p in fs' && fs'[p] == fs[p])
    decreases |dates|
  {
    if dates != [] {
      var fs1 := ForDate(fs, dir, dates[0], listOf, build).value;
      AllDatesCreates(fs1, dir, dates[1..], listOf, build);
      assert forall d :: d in dates ==> d == dates[0] || d in dates[1..];
    }
  }

  /** Once every date's info file is there, a run changes nothing. */
  lemma {:induction false} AllDatesDone(fs: Fs, dir: string, dates: seq<string>, listOf: set<Cell> -> seq<Cell>,
                                        build: seq<Cell> -> Result<Frame>)
    requires Seqs.Lists(listOf)
    requires forall d :: d in dates ==> dir + InfoFile(d) in fs
    ensures AllDates(fs, dir, dates, listOf, build) == Ok(fs)
    decreases |dates|
  {
    if dates != [] {
      assert dates[0] in dates;
      assert forall d :: d in dates[1..] ==> d in dates;
      AllDatesDone(fs, dir, dates[1..], listOf, build);
    }
  }

  /** Running the whole stage again after a run that ended normally
      changes nothing. */
  lemma RerunChangesNothing(fs: Fs, dir: string, listing: seq<string>, listOf: set<Cell> -> seq<Cell>,
                            build: seq<Cell> -> Result<Frame>)
    requires Seqs.Lists(listOf)
    requires AllDates(fs, dir, Dates(listing), listOf, build).Ok?
    ensures var fs' := AllDates(fs, dir, Dates(listing), listOf, build).value;
            AllDates(fs', dir, Dates(listing), listOf, build) == Ok(fs')
  {
    var fs' := AllDates(fs, dir, Dates(listing), listOf, build).value;
    AllDatesCreates(fs, dir, Dates(listing), listOf, build);
    AllDatesDone(fs', dir, Dates(listing), listOf, build);
  }
}
