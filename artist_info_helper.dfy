/** `artist_info_helper.py`: exact-match artist id lookup, release-year
    parsing, and the `ArtistInfoDict` record of artist columns. */
module ArtistInfoHelper {
  import opened Common
  import Seqs
  import Text
  import opened Ledger
  import Columns

  // ---------------------------------------------------------------- get_artist_spotify_id

  /** One entry of a Spotify artist search, in the order the search returned it. */
  datatype SearchHit = SearchHit(name: string, id: string)

  predicate Matches(h: SearchHit, query: string)
  {
    Text.Lower(h.name) == Text.Lower(query)
  }

  /** The position of the first hit whose name equals the query up to case,
      or `|hits|` when there is none. */
  function FirstMatch(hits: seq<SearchHit>, query: string): (i: nat)
    ensures i <= |hits|
    ensures i < |hits| ==> Matches(hits[i], query)
    ensures forall j :: 0 <= j < i ==> !Matches(hits[j], query)
  {
    if hits == [] then 0
    else if Matches(hits[0], query) then 0
    else 1 + FirstMatch(hits[1..], query)
  }

  /** The id `get_artist_spotify_id` returns for a name and its search hits. */
  function ExactMatch(hits: seq<SearchHit>, query: string): (r: Option<string>)
    ensures r.None? <==> forall i :: 0 <= i < |hits| ==> !Matches(hits[i], query)
    ensures r.Some? ==> exists i :: 0 <= i < |hits| && hits[i].id == r.value && Matches(hits[i], query)
                                    && forall j :: 0 <= j < i ==> !Matches(hits[j], query)
  {
    var i := FirstMatch(hits, query);
    if i < |hits| then Some(hits[i].id) else None
  }

  /** `get_artist_spotify_id(artist_name)`, given what the search returned. */
  method GetArtistSpotifyId(name: string, hits: seq<SearchHit>) returns (r: Option<string>)
    ensures r == ExactMatch(hits, name)
  {
    if |hits| == 0 {
      return None;
    }
    var i := 0;
    while i < |hits|
      invariant 0 <= i <= |hits|
      invariant forall j :: 0 <= j < i ==> !Matches(hits[j], name)
    {
      if Text.Lower(hits[i].name) == Text.Lower(name) {
        assert FirstMatch(hits, name) == i by { FirstMatchAt(hits, name, i); }
        return Some(hits[i].id);
      }
      i := i + 1;
    }
    assert FirstMatch(hits, name) == |hits| by { FirstMatchAt(hits, name, |hits|); }
    return None;
  }

  /** The first match is pinned down by the hits before it. */
  lemma {:induction false} FirstMatchAt(hits: seq<SearchHit>, query: string, i: nat)
    requires i <= |hits|
    requires i < |hits| ==> Matches(hits[i], query)
    requires forall j :: 0 <= j < i ==> !Matches(hits[j], query)
    ensures FirstMatch(hits, query) == i
  {
    if hits != [] && i > 0 {
      FirstMatchAt(hits[1..], query, i - 1);
    }
  }

  // ---------------------------------------------------------------- get_artist_release_dates

  /** One entry of `sp.artist_albums(...)['items']`. */
  datatype Album = Album(id: string, albumType: string, releaseDate: string, totalTracks: int)

  predicate IsRelease(a: Album)
  {
    a.albumType == "album" || a.albumType == "single"
  }

  /** `int(date.split('-')[0])` */
  function Year(date: string): Result<int>
  {
    Text.ParseInt(Text.BeforeFirst(date, "-"))
  }

  /** An ISO date's year is the number before its first '-'. */
  lemma YearOfIsoDate(y: nat, rest: string)
    ensures Year(Text.Decimal(y) + "-" + rest) == Ok(y)
  {
    var d := Text.Decimal(y);
    var s := d + "-" + rest;
    assert Text.Occurs(s, "-", |d|) by { assert s[|d|..|d| + 1] == "-"; }
    var b := Text.BeforeFirst(s, "-");
    assert b <= s;
    assert |b| == |d|;
    assert b == d;
    Text.ParseDecimal(y);
  }

  /** `[int(date.split('-')[0]) for date in release_dates]` */
  function Years(dates: seq<string>): (r: Result<seq<int>>)
    ensures r.Ok? <==> forall i :: 0 <= i < |dates| ==> Year(dates[i]).Ok?
    ensures r.Ok? ==> |r.value| == |dates| && forall i :: 0 <= i < |dates| ==> r.value[i] == Year(dates[i]).value
  {
    Seqs.AllOk(dates, Year)
  }


  /** What `get_artist_release_dates` returns: album ids, years and types of
      the kept entries, and `total_tracks` — the last kept entry's count, or
      `None` for the untouched initial `[]`. */
  datatype Releases = Releases(albumIds: seq<string>, years: seq<int>, albumTypes: seq<string>, lastTotal: Option<int>)

  function LastTotal(kept: seq<Album>): Option<int>
  {
    if kept == [] then None else Some(kept[|kept| - 1].totalTracks)
  }

  /** The catalogue entries that count as releases, in catalogue order. */
  function Kept(albums: seq<Album>): seq<Album>
  {
    Seqs.Filter(albums, IsRelease)
  }

  function DatesOf(kept: seq<Album>): (r: seq<string>)
    ensures |r| == |kept| && forall i :: 0 <= i < |kept| ==> r[i] == kept[i].releaseDate
  {
    seq(|kept|, i requires 0 <= i < |kept| => kept[i].releaseDate)
  }

  function AlbumIdsOf(kept: seq<Album>): (r: seq<string>)
    ensures |r| == |kept| && forall i :: 0 <= i < |kept| ==> r[i] == kept[i].id
  {
    seq(|kept|, i requires 0 <= i < |kept| => kept[i].id)
  }

  function TypesOf(kept: seq<Album>): (r: seq<string>)
    ensures |r| == |kept| && forall i :: 0 <= i < |kept| ==> r[i] == kept[i].albumType
  {
    seq(|kept|, i requires 0 <= i < |kept| => kept[i].albumType)
  }

  function ReleaseDates(albums: seq<Album>): Result<Releases>
  {
    var kept := Kept(albums);
    var ys := Years(DatesOf(kept));
    if ys.Err? then Err(ys.error)
    else Ok(Releases(AlbumIdsOf(kept), ys.value, TypesOf(kept), LastTotal(kept)))
  }

  /** The catalogue raises exactly when a kept entry's date has no year;
      otherwise the lists follow the kept entries in order. */
  lemma ReleaseDatesSpec(albums: seq<Album>)
    ensures var r := ReleaseDates(albums); var kept := Kept(albums);
      && (r.Ok? <==> forall i :: 0 <= i < |kept| ==> Year(kept[i].releaseDate).Ok?)
      && (r.Ok? ==> |r.value.albumIds| == |kept| && |r.value.years| == |kept| && |r.value.albumTypes| == |kept|)
      && (r.Ok? ==> forall i :: 0 <= i < |kept| ==>
              && r.value.albumIds[i] == kept[i].id
              && r.value.years[i] == Year(kept[i].releaseDate).value
              && r.value.albumTypes[i] == kept[i].albumType)
      && (r.Ok? ==> r.value.lastTotal == LastTotal(kept))
  {
    var kept := Kept(albums);
    var dates := DatesOf(kept);
    assert forall i :: 0 <= i < |kept| ==> Year(kept[i].releaseDate) == Year(dates[i]);
  }


  /** Keeping one more entry appends its fields to each list. */
  lemma OfSnoc(kept: seq<Album>, a: Album)
    ensures DatesOf(kept + [a]) == DatesOf(kept) + [a.releaseDate]
    ensures AlbumIdsOf(kept + [a]) == AlbumIdsOf(kept) + [a.id]
    ensures TypesOf(kept + [a]) == TypesOf(kept) + [a.albumType]
    ensures LastTotal(kept + [a]) == Some(a.totalTracks)
  {
  }

  /** `get_artist_release_dates(artist_id)`, given the albums the catalogue returned. */
  method GetArtistReleaseDates(albums: seq<Album>) returns (r: Result<Releases>)
    ensures r == ReleaseDates(albums)
  {
    var releaseDates: seq<string> := [];
    var albumIds: seq<string> := [];
    var albumTypes: seq<string> := [];
    var totalTracks: Option<int> := None;
    var i := 0;
    ghost var kept: seq<Album> := [];
    while i < |albums|
      invariant 0 <= i <= |albums|
      invariant kept == Kept(albums[..i])
      invariant releaseDates == DatesOf(kept) && albumIds == AlbumIdsOf(kept)
      invariant albumTypes == TypesOf(kept) && totalTracks == LastTotal(kept)
    {
      var album := albums[i];
      Seqs.TakeSnoc(albums, i);
      Seqs.FilterSnoc(albums[..i], album, IsRelease);
      if album.albumType == "album" || album.albumType == "single" {
        OfSnoc(kept, album);
        releaseDates := releaseDates + [album.releaseDate];
        albumTypes := albumTypes + [album.albumType];
        totalTracks := Some(album.totalTracks);
        albumIds := albumIds + [album.id];
        kept := kept + [album];
      }
      i := i + 1;
    }
    assert albums[..i] == albums;
    var years := Years(releaseDates);
    if years.Err? {
      return Err(years.error);
    }
    return Ok(Releases(albumIds, years.value, albumTypes, totalTracks));
  }

  // ---------------------------------------------------------------- ArtistInfoDict

  /** The record's columns. */
  datatype Key = Ids | Names | Popularity | Followers | Genres | FirstRelease | LastRelease | NumReleases | NumTracks

  /** The column names, as `self.keys` spells them. */
  function KeyName(k: Key): string
  {
    match k
    case Ids => "ids"
    case Names => "names"
    case Popularity => "popularity"
    case Followers => "followers"
    case Genres => "genres"
    case FirstRelease => "first_release"
    case LastRelease => "last_release"
    case NumReleases => "num_releases"
    case NumTracks => "num_tracks"
  }

  /** The default `self.keys`, in order. */
  const DefaultKeys: seq<Key> := [Ids, Names, Popularity, Followers, Genres, FirstRelease, LastRelease, NumReleases, NumTracks]

  /** The keys whose values come from the release catalogue. */
  predicate IsReleaseKey(k: Key)
  {
    k.FirstRelease? || k.LastRelease? || k.NumReleases? || k.NumTracks?
  }

  /** The keys whose values need the release catalogue. */
  predicate NeedsReleases(keys: seq<Key>)
  {
    FirstRelease in keys || LastRelease in keys || NumReleases in keys || NumTracks in keys
  }

  /** The artist fields `append_artist_info` reads. */
  datatype ArtistRecord = ArtistRecord(id: string, name: string, popularity: int, followers: int, genres: seq<string>)

  function SeqMin(s: seq<int>): (m: int)
    requires s != []
    ensures m in s && forall x :: x in s ==> m <= x
  {
    if |s| == 1 then s[0]
    else
      var m := SeqMin(s[1..]);
      assert forall x :: x in s ==> x == s[0] || x in s[1..] by { assert s == [s[0]] + s[1..]; }
      if s[0] <= m then s[0] else m
  }

  function SeqMax(s: seq<int>): (m: int)
    requires s != []
    ensures m in s && forall x :: x in s ==> x <= m
  {
    if |s| == 1 then s[0]
    else
      var m := SeqMax(s[1..]);
      assert forall x :: x in s ==> x == s[0] || x in s[1..] by { assert s == [s[0]] + s[1..]; }
      if s[0] >= m then s[0] else m
  }

  /** The values stored for the keys that do not need the release catalogue. */
  function ProfileValues(a: ArtistRecord): Columns.Data<Key>
  {
    map[
      Ids := [Str(a.id)],
      Names := [Str(Text.Lower(a.name))],
      Popularity := [Int(a.popularity)],
      Followers := [Int(a.followers)],
      Genres := [Str(Text.Join(a.genres, ", "))]
    ]
  }

  /** first_release, last_release, num_releases and num_tracks. */
  datatype ReleaseSummary = ReleaseSummary(first: int, last: int, num: int, tracks: int)

  /** The release fields: earliest year, latest year, number of releases and
      `np.sum(total_tracks)`; with no release, −1, −1, 0 and 0. */
  function Summarise(rel: Releases): (s: ReleaseSummary)
    ensures rel.years != [] ==> s.first <= s.last && s.num == |rel.years| && s.num >= 1
    ensures rel.years != [] ==> s.first in rel.years && s.last in rel.years
    ensures rel.years != [] ==> forall y :: y in rel.years ==> s.first <= y <= s.last
    ensures rel.years == [] ==> s == ReleaseSummary(-1, -1, 0, 0)
  {
    if |rel.years| > 0 then
      var t := match rel.lastTotal case Some(n) => n case None => 0;
      ReleaseSummary(SeqMin(rel.years), SeqMax(rel.years), |rel.years|, t)
    else ReleaseSummary(-1, -1, 0, 0)
  }

  function ReleaseValues(s: ReleaseSummary): Columns.Data<Key>
  {
    map[
      FirstRelease := [Int(s.first)],
      LastRelease := [Int(s.last)],
      NumReleases := [Int(s.num)],
      NumTracks := [Int(s.tracks)]
    ]
  }

  /** The values `append_missing_info` stores. */
  function MissingValues(name: string): Columns.Data<Key>
  {
    map[
      Ids := [Str("missing")],
      Names := [Str(Text.Lower(name))],
      Popularity := [Int(-1)],
      Followers := [Int(-1)],
      Genres := [Str("missing")],
      FirstRelease := [Int(-1)],
      LastRelease := [Int(-1)],
      NumReleases := [Int(-1)],
      NumTracks := [Int(-1)]
    ]
  }

  /** The error `append_artist_info` raises, if any: only a release date
      that does not parse, and only when some release key is kept. */
  function AppendError(keys: seq<Key>, albums: seq<Album>): Option<PyError>
  {
    ErrorOf(keys, ReleaseDates(albums))
  }

  /** The same error, given the release catalogue's outcome. */
  function ErrorOf(keys: seq<Key>, rel: Result<Releases>): Option<PyError>
  {
    if NeedsReleases(keys) && rel.Err? then Some(rel.error) else None
  }

  /** The values `append_artist_info` stores, key by key. When a date fails
      to parse only the profile keys get a value; the release keys do not. */
  function AppendValues(keys: seq<Key>, a: ArtistRecord, albums: seq<Album>): Columns.Data<Key>
  {
    ValuesOf(keys, a, ReleaseDates(albums))
  }

  /** The same values, given the release catalogue's outcome. */
  function ValuesOf(keys: seq<Key>, a: ArtistRecord, rel: Result<Releases>): Columns.Data<Key>
  {
    if NeedsReleases(keys) && rel.Ok? then ProfileValues(a) + ReleaseValues(Summarise(rel.value))
    else ProfileValues(a)
  }

  /** Without a release key, the catalogue's outcome changes nothing. */
  lemma WithoutReleases(keys: seq<Key>, a: ArtistRecord, r1: Result<Releases>, r2: Result<Releases>)
    requires !NeedsReleases(keys)
    ensures ErrorOf(keys, r1) == ErrorOf(keys, r2) == None
    ensures ValuesOf(keys, a, r1) == ValuesOf(keys, a, r2) == ProfileValues(a)
  {
  }

  /** A successful append adds exactly one value under every kept key, so an
      aligned record stays aligned and gains one row. */
  lemma AppendKeepsAligned(keys: seq<Key>, data: Columns.Data<Key>, a: ArtistRecord, albums: seq<Album>)
    requires Ids in keys
    requires Columns.Aligned(keys, Ids, data)
    requires AppendError(keys, albums).None?
    ensures Columns.Aligned(keys, Ids, Columns.Extend(data, keys, AppendValues(keys, a, albums)))
    ensures |Columns.Extend(data, keys, AppendValues(keys, a, albums))[Ids]| == |data[Ids]| + 1
  {
    ValuesKeepAligned(keys, data, a, ReleaseDates(albums));
  }

  /** The same, for any outcome of the release catalogue that raises nothing. */
  lemma ValuesKeepAligned(keys: seq<Key>, data: Columns.Data<Key>, a: ArtistRecord, rel: Result<Releases>)
    requires Ids in keys
    requires Columns.Aligned(keys, Ids, data)
    requires ErrorOf(keys, rel).None?
    ensures Columns.Aligned(keys, Ids, Columns.Extend(data, keys, ValuesOf(keys, a, rel)))
    ensures |Columns.Extend(data, keys, ValuesOf(keys, a, rel))[Ids]| == |data[Ids]| + 1
  {
    if NeedsReleases(keys) {
      FullValues(keys, a, Summarise(rel.value));
      Columns.ExtendAligned(data, keys, Ids, ProfileValues(a) + ReleaseValues(Summarise(rel.value)), 1);
    } else {
      ProfileValuesCover(keys, a);
      Columns.ExtendAligned(data, keys, Ids, ProfileValues(a), 1);
    }
  }

  /** Without a release key, the profile values cover every kept key. */
  lemma ProfileValuesCover(keys: seq<Key>, a: ArtistRecord)
    requires !NeedsReleases(keys)
    ensures forall k :: k in keys ==> k in ProfileValues(a) && |ProfileValues(a)[k]| == 1
  {
    forall k | k in keys ensures k in ProfileValues(a) && |ProfileValues(a)[k]| == 1 {
      assert !IsReleaseKey(k);
    }
  }

  lemma FullValues(keys: seq<Key>, a: ArtistRecord, s: ReleaseSummary)
    ensures forall k :: k in keys ==> k in ProfileValues(a) + ReleaseValues(s) && |(ProfileValues(a) + ReleaseValues(s))[k]| == 1
  {
    var values := ProfileValues(a) + ReleaseValues(s);
    forall k | k in keys ensures k in values && |values[k]| == 1 {
      KeyCases(k);
    }
  }

  lemma KeyCases(k: Key)
    ensures k in {Ids, Names, Popularity, Followers, Genres, FirstRelease, LastRelease, NumReleases, NumTracks}
  {
  }

  /** `append_missing_info` also adds one value under every kept key. */
  lemma MissingKeepsAligned(keys: seq<Key>, data: Columns.Data<Key>, name: string)
    requires Ids in keys
    requires Columns.Aligned(keys, Ids, data)
    ensures Columns.Aligned(keys, Ids, Columns.Extend(data, keys, MissingValues(name)))
    ensures |Columns.Extend(data, keys, MissingValues(name))[Ids]| == |data[Ids]| + 1
  {
    forall k | k in keys ensures k in MissingValues(name) && |MissingValues(name)[k]| == 1 {
      KeyCases(k);
    }
    Columns.ExtendAligned(data, keys, Ids, MissingValues(name), 1);
  }

  /** A found artist with no releases and a missing artist differ in
      num_releases: 0 for the first, −1 for the second. */
  lemma NoReleasesVersusMissing(a: ArtistRecord, name: string)
    ensures ReleaseValues(Summarise(Releases([], [], [], None)))[NumReleases] == [Int(0)]
    ensures MissingValues(name)[NumReleases] == [Int(-1)]
    ensures ProfileValues(a)[Ids] != MissingValues(name)[Ids] || a.id == "missing"
  {
  }

  class ArtistInfoDict {
    var keys: seq<Key>
    var data: Columns.Data<Key>

    ghost predicate Valid()
      reads this
    {
      && Ids in keys
      && (forall k :: k in data <==> k in keys)
    }

    /** The record with the given keys and no values yet. */
    constructor (keys: seq<Key>)
      requires Ids in keys
      ensures Valid()
      ensures this.keys == keys && data == Columns.EmptyData(keys)
    {
      this.keys := keys;
      data := Columns.EmptyData(keys);
    }

    method AppendArtistInfo(a: ArtistRecord, albums: seq<Album>) returns (err: Option<PyError>)
      requires Valid()
      modifies this
      ensures Valid() && keys == old(keys)
      ensures err == AppendError(keys, albums)
      ensures data == Columns.Extend(old(data), keys, AppendValues(keys, a, albums))
    {
      var rel: Result<Releases> := Ok(Releases([], [], [], None));
      if NeedsReleases(keys) {
        rel := GetArtistReleaseDates(albums);
      } else {
        WithoutReleases(keys, a, rel, ReleaseDates(albums));
      }
      err := ErrorOf(keys, rel);
      data := Columns.Extend(data, keys, ValuesOf(keys, a, rel));
    }

    method AppendMissingInfo(name: string)
      requires Valid()
      modifies this
      ensures Valid() && keys == old(keys)
      ensures data == Columns.Extend(old(data), keys, MissingValues(name))
    {
      data := Columns.Extend(data, keys, MissingValues(name));
    }

    /** `check_equal_length`; the `sys.exit` it calls is never imported in
        this file, so the abort surfaces as a `NameError`. */
    method CheckEqualLength() returns (r: Option<PyError>)
      requires Valid()
      ensures r.None? <==> Columns.Aligned(keys, Ids, data)
      ensures r.Some? ==> r.value == NameError("sys")
    {
      r := Columns.CheckEqualLength(keys, Ids, data, NameError("sys"));
    }
  }

  /** `ArtistInfoDict(artist_info, exclude_keys)`: excluding 'ids' aborts (as
      a `NameError`, see `CheckEqualLength`); otherwise the record starts
      empty and holds the initial artist, if one is given. */
  method NewArtistInfoDict(info: Option<ArtistRecord>, albums: seq<Album>, exclude: seq<string>)
    returns (r: Result<ArtistInfoDict>)
    ensures var ks := Columns.ExcludeKeys(DefaultKeys, KeyName, Ids, exclude, NameError("sys"));
      && (ks.Err? ==> r == Err(NameError("sys")))
      && (ks.Ok? && info.Some? && AppendError(ks.value, albums).Some? ==> r == Err(AppendError(ks.value, albums).value))
      && (ks.Ok? && (info.None? || AppendError(ks.value, albums).None?) ==>
            r.Ok? && fresh(r.value) && r.value.Valid() && r.value.keys == ks.value
            && r.value.data == (if info.None? then Columns.EmptyData(ks.value)
                                else Columns.Extend(Columns.EmptyData(ks.value), ks.value, AppendValues(ks.value, info.value, albums))))
  {
    var ks := Columns.ExcludeKeys(DefaultKeys, KeyName, Ids, exclude, NameError("sys"));
    if ks.Err? {
      return Err(ks.error);
    }
    var d := new ArtistInfoDict(ks.value);
    if info.Some? {
      var err := d.AppendArtistInfo(info.value, albums);
      if err.Some? {
        return Err(err.value);
      }
    }
    return Ok(d);
  }
}
