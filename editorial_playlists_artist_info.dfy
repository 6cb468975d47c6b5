/** `Editorial_playlists_artist_info.py`: the other version of the
    editorial-playlist stages. It reads every page of the 'spotify' user's
    playlists but only the first page when browsing a market, keeps no
    duplicate check on playlists, lists each artist once per playlist, and
    writes no track file. Its two pickled-dictionary stages are the ones
    `EditorialPlaylistsInfo` models. */
module EditorialPlaylistsArtistInfo {
  import opened Common
  import Seqs
  import Text
  import opened Ledger
  import Webscrapers
  import Info = EditorialPlaylistsInfo

  // ---------------------------------------------------------------- playlists

  /** `store_available_spotify_playlists`: the qualifying playlists of the
      first page, then of each next page in turn, all of them kept. */
  method StoreAvailableSpotifyPlaylists(paged: Info.Paged<Info.Playlist>) returns (table: seq<Info.Playlist>)
    ensures table == Seqs.Filter(paged.All(), Info.Qualifies)
  {
    Seqs.FlattenStep(paged.Pages(), 0);
    assert paged.Pages()[..0] == [] && paged.Pages()[0] == paged.first;
    assert Seqs.Flatten(paged.Pages()[..1]) == paged.first;
    table := Info.KeepQualifying(paged.first, []);
    var i := 0;
    while i < |paged.rest|
      invariant 0 <= i <= |paged.rest|
      invariant table == Seqs.Filter(Seqs.Flatten(paged.Pages()[..i + 1]), Info.Qualifies)
    {
      Seqs.FlattenStep(paged.Pages(), i + 1);
      Seqs.FilterConcat(Seqs.Flatten(paged.Pages()[..i + 1]), paged.Pages()[i + 1], Info.Qualifies);
      assert paged.Pages()[i + 1] == paged.rest[i];
      table := Info.KeepQualifying(paged.rest[i], table);
      i := i + 1;
    }
    assert paged.Pages()[..i + 1] == paged.Pages();
  }

  /** This version reads the last page too: its table is the other
      version's recording of the same pages followed by the last page's
      qualifying playlists. */
  lemma AllPagesRead(paged: Info.Paged<Info.Playlist>)
    ensures Seqs.Filter(paged.All(), Info.Qualifies)
         == Seqs.Filter(paged.BeforeLast(), Info.Qualifies) + Seqs.Filter(paged.Last(), Info.Qualifies)
  {
    Info.LastPageUnread(paged);
    Seqs.FilterConcat(paged.BeforeLast(), paged.Last(), Info.Qualifies);
  }

  /** A qualifying playlist seen only on the last page is stored by this
      version and missing from the other version's table. */
  lemma LastPageOnlyHere(paged: Info.Paged<Info.Playlist>, p: Info.Playlist)
    requires p in paged.Last() && Info.Qualifies(p)
    requires forall q :: q in paged.BeforeLast() ==> q.id != p.id
    ensures p in Seqs.Filter(paged.All(), Info.Qualifies)
    ensures p.id !in Seqs.Map(Info.UniqueBy(Seqs.Filter(paged.BeforeLast(), Info.Qualifies), Info.IdOf), Info.IdOf)
  {
    AllPagesRead(paged);
    var found := Seqs.Filter(paged.BeforeLast(), Info.Qualifies);
    var t := Info.UniqueBy(found, Info.IdOf);
    Info.UniqueByFacts(found, Info.IdOf);
    forall k | 0 <= k < |t| ensures Seqs.Map(t, Info.IdOf)[k] != p.id {
      assert t[k] in found;
    }
  }

  // ---------------------------------------------------------------- markets

  /** What the market loop records for one category: the qualifying
      playlists of its first page, tagged with it. */
  function FirstPageEntries(c: Info.Category, playlistsOf: string -> Info.Paged<Info.Playlist>): seq<Info.Entry>
  {
    Seqs.Map(Seqs.Filter(playlistsOf(c.id).first, Info.Qualifies), Info.Tagged(c))
  }

  function MarketEntries(cats: seq<Info.Category>, playlistsOf: string -> Info.Paged<Info.Playlist>): seq<Info.Entry>
  {
    Seqs.Flatten(Seqs.Map(cats, (c: Info.Category) => FirstPageEntries(c, playlistsOf)))
  }

  /** `store_spotify_playlist_selection_for_market`: the qualifying
      playlists of the first page of each category on the first page of
      categories, tagged with their category, duplicates kept. */
  method StoreSpotifyPlaylistSelectionForMarket(date: string, market: string, categories: Info.Paged<Info.Category>,
                                                playlistsOf: string -> Info.Paged<Info.Playlist>)
    returns (path: string, table: seq<Info.Entry>)
    ensures path == Info.MarketFile(date, market)
    ensures table == MarketEntries(categories.first, playlistsOf)
  {
    var cats := categories.first;
    table := [];
    var j := 0;
    while j < |cats|
      invariant 0 <= j <= |cats|
      invariant table == MarketEntries(cats[..j], playlistsOf)
    {
      Seqs.MapFlattenStep(cats, (c: Info.Category) => FirstPageEntries(c, playlistsOf), j);
      table := Info.TagQualifying(playlistsOf(cats[j].id).first, cats[j], table);
      j := j + 1;
    }
    assert cats[..j] == cats;
    path := Info.OutputDir + Text.BeforeFirst(Info.DefaultDataframe(date), ".csv") + "_" + market + ".csv";
  }

  /** Every entry is a qualifying playlist of the first page read for one
      of the categories, tagged with it. */
  lemma {:induction false} MarketEntriesFrom(cats: seq<Info.Category>, playlistsOf: string -> Info.Paged<Info.Playlist>)
    ensures forall e :: e in MarketEntries(cats, playlistsOf) ==>
              Info.Qualifies(e.playlist) && Info.Category(e.categoryId, e.categoryName) in cats
              && e.playlist in playlistsOf(e.categoryId).first
  {
    if cats != [] {
      var n := |cats| - 1;
      MarketEntriesFrom(cats[..n], playlistsOf);
      Seqs.MapFlattenStep(cats, (c: Info.Category) => FirstPageEntries(c, playlistsOf), n);
      assert cats[..n + 1] == cats;
      var c := cats[n];
      var ps := Seqs.Filter(playlistsOf(c.id).first, Info.Qualifies);
      forall e | e in FirstPageEntries(c, playlistsOf)
        ensures Info.Qualifies(e.playlist) && Info.Category(e.categoryId, e.categoryName) == c
                && e.playlist in playlistsOf(c.id).first
      {
        var i :| 0 <= i < |ps| && Seqs.Map(ps, Info.Tagged(c))[i] == e;
        assert ps[i] in ps;
      }
      assert forall x :: x in cats[..n] ==> x in cats;
    }
  }

  // ---------------------------------------------------------------- artists of the last day

  /** The loop over one track's artists, up to a null one. */
  method CreditArtists(artists: seq<Option<string>>, artistIds: seq<string>) returns (artistIds': seq<string>)
    ensures artistIds' == artistIds + Info.Credited(artists)
  {
    var added: seq<string> := [];
    var k := 0;
    while k < |artists|
      invariant 0 <= k <= |artists| && |added| == k
      invariant forall m :: 0 <= m < k ==> artists[m] == Some(added[m])
    {
      if artists[k].None? {
        break;
      }
      added := added + [artists[k].value];
      k := k + 1;
    }
    var r := Info.Credited(artists);
    assert |r| == k;
    assert added == r;
    artistIds' := artistIds + added;
  }

  /** The item loop of `get_artists_last_24hrs`: the artist list the other
      version builds, without the track list. */
  method RecentArtists(items: seq<Info.Item>) returns (artistIds: seq<string>)
    ensures artistIds == Info.Last24(items).0
  {
    artistIds := [];
    var j := 0;
    while j < |items|
      invariant 0 <= j <= |items|
      invariant artistIds == Info.Last24(items[..j]).0
    {
      Info.Last24Snoc(items, j);
      var it := items[j];
      if Info.Recent(it) && it.track.Some? {
        artistIds := CreditArtists(it.track.value.artists, artistIds);
      } else {
        assert Info.ItemIds(it).0 == [];
        assert artistIds + [] == artistIds;
      }
      j := j + 1;
    }
    assert items[..j] == items;
  }

  /** The artists credited on the tracks added in the last day. */
  function ArtistSet(items: seq<Info.Item>): set<string>
  {
    set a | a in Info.Last24(items).0
  }

  /** `get_artists_last_24hrs`: each artist credited on a recent track,
      once. */
  method GetArtistsLast24hrs(items: seq<Info.Item>, listOf: set<string> -> seq<string>) returns (ids: seq<string>)
    requires Seqs.Lists(listOf)
    ensures ids == listOf(ArtistSet(items))
    ensures Seqs.Distinct(ids) && forall a :: a in ids <==> a in Info.Last24(items).0
  {
    var all := RecentArtists(items);
    ids := listOf(set a | a in all);
  }

  // ---------------------------------------------------------------- the pickle

  /** The names this version passes over, without the "Official" test. */
  predicate Skipped(name: string)
  {
    Text.Contains(name, "This Is")
    || Text.Contains(name, "Hits") || Text.Contains(name, "hits")
    || Text.Contains(name, "Top") || Text.Contains(name, "top")
  }

  /** Every playlist this version passes over the other version passes
      over too. */
  lemma ExclusionNarrower(name: string)
    requires Skipped(name)
    ensures Info.Skipped(name)
  {
  }

  /** A name without 'T', 't', 'H' or 'h' is never passed over here. */
  lemma NotSkippedWithout(name: string)
    requires forall i :: 0 <= i < |name| ==> name[i] != 'T' && name[i] != 't' && name[i] != 'H' && name[i] != 'h'
    ensures !Skipped(name)
  {
    Text.FirstCharAbsent(name, "This Is");
    Text.FirstCharAbsent(name, "Hits");
    Text.FirstCharAbsent(name, "hits");
    Text.FirstCharAbsent(name, "Top");
    Text.FirstCharAbsent(name, "top");
  }

  /** A playlist named "official" is entered here and passed over there. */
  lemma OfficialEnteredHere()
    ensures !Skipped("official") && Info.Skipped("official")
  {
    var s := "official";
    forall i | 0 <= i < |s| ensures s[i] != 'T' && s[i] != 't' && s[i] != 'H' && s[i] != 'h' {
      assert s[i] in "ofcial";
    }
    NotSkippedWithout(s);
    assert Text.Occurs(s, "official", 0);
  }

  /** The artist and playlist-name lists the pickling loop builds. */
  function Gather(playlists: seq<(string, string)>, tracksOf: string -> seq<Info.Item>,
                  listOf: set<string> -> seq<string>): (seq<string>, seq<string>)
  {
    if playlists == [] then ([], [])
    else
      var g := Gather(playlists[..|playlists| - 1], tracksOf, listOf);
      var p := playlists[|playlists| - 1];
      if Skipped(p.1) then g
      else
        var add := listOf(ArtistSet(tracksOf(p.0)));
        (g.0 + add, g.1 + Seqs.Copies(p.1, |add|))
  }

  /** The two lists are side by side, and each artist was credited in the
      named playlist on a track added in the last day. */
  lemma {:induction false} GatherAligned(playlists: seq<(string, string)>, tracksOf: string -> seq<Info.Item>,
                                         listOf: set<string> -> seq<string>)
    requires Seqs.Lists(listOf)
    ensures |Gather(playlists, tracksOf, listOf).1| == |Gather(playlists, tracksOf, listOf).0|
    ensures var g := Gather(playlists, tracksOf, listOf);
            forall k :: 0 <= k < |g.0| ==>
              exists i :: 0 <= i < |playlists| && !Skipped(playlists[i].1) && g.1[k] == playlists[i].1
                && g.0[k] in Info.Last24(tracksOf(playlists[i].0)).0
  {
    if playlists != [] {
      var n := |playlists| - 1;
      var init := playlists[..n];
      GatherAligned(init, tracksOf, listOf);
      var p := playlists[n];
      var g := Gather(playlists, tracksOf, listOf);
      var h := Gather(init, tracksOf, listOf);
      forall k | 0 <= k < |g.0|
        ensures exists i :: 0 <= i < |playlists| && !Skipped(playlists[i].1) && g.1[k] == playlists[i].1
                  && g.0[k] in Info.Last24(tracksOf(playlists[i].0)).0
      {
        if k < |h.0| {
          var i :| 0 <= i < |init| && !Skipped(init[i].1) && h.1[k] == init[i].1
                   && h.0[k] in Info.Last24(tracksOf(init[i].0)).0;
          assert playlists[i] == init[i];
        } else {
          var add := listOf(ArtistSet(tracksOf(p.0)));
          assert g.0[k] == add[k - |h.0|];
          assert add[k - |h.0|] in add;
        }
      }
    }
  }

  /** `pickle_1000_artists_last_24hrs`: the distinct artists, each beside
      the first playlist it was found in, and 1000 of them when there are
      more. */
  function Pickle1000(playlists: seq<(string, string)>, tracksOf: string -> seq<Info.Item>,
                      listOf: set<string> -> seq<string>, choose: nat -> seq<nat>): Info.ArtistDict
    requires Seqs.Lists(listOf) && Info.Draws(choose)
  {
    GatherAligned(playlists, tracksOf, listOf);
    var g := Gather(playlists, tracksOf, listOf);
    Info.Selected(g.0, g.1, choose)
  }

  method Pickle1000ArtistsLast24hrs(playlists: seq<(string, string)>, tracksOf: string -> seq<Info.Item>,
                                    listOf: set<string> -> seq<string>, choose: nat -> seq<nat>)
    returns (d: Info.ArtistDict)
    requires Seqs.Lists(listOf) && Info.Draws(choose)
    ensures d == Pickle1000(playlists, tracksOf, listOf, choose)
  {
    var artists, found := [], [];
    var j := 0;
    while j < |playlists|
      invariant 0 <= j <= |playlists|
      invariant (artists, found) == Gather(playlists[..j], tracksOf, listOf)
    {
      assert playlists[..j + 1][..j] == playlists[..j];
      var (id, name) := playlists[j];
      if !Skipped(name) {
        var add := GetArtistsLast24hrs(tracksOf(id), listOf);
        artists, found := artists + add, found + Seqs.Copies(name, |add|);
      }
      j := j + 1;
    }
    assert playlists[..j] == playlists;
    GatherAligned(playlists, tracksOf, listOf);
    d := Info.Selected(artists, found, choose);
  }

  /** The pickled dictionary: distinct artists found in the last day, each
      beside the first playlist it was found in; all of them, ascending,
      when there are at most 1000, and 1000 of them otherwise. */
  lemma PickledArtists(playlists: seq<(string, string)>, tracksOf: string -> seq<Info.Item>,
                       listOf: set<string> -> seq<string>, choose: nat -> seq<nat>)
    requires Seqs.Lists(listOf) && Info.Draws(choose)
    ensures var g := Gather(playlists, tracksOf, listOf);
            var d := Pickle1000(playlists, tracksOf, listOf, choose);
            var u := Text.UniqueIndex(g.0).0;
            && |g.1| == |g.0|
            && |d.ids| == |d.playlistsFound| && Seqs.Distinct(d.ids)
            && (|u| <= Info.SampleSize ==> d.ids == u && Text.StrictlySorted(d.ids))
            && (|u| > Info.SampleSize ==> |d.ids| == Info.SampleSize)
            && forall k :: 0 <= k < |d.ids| ==>
                 d.ids[k] in g.0 && d.playlistsFound[k] == g.1[Seqs.FirstIndex(g.0, d.ids[k])]
  {
    GatherAligned(playlists, tracksOf, listOf);
    var g := Gather(playlists, tracksOf, listOf);
    Info.SelectedArtists(g.0, g.1, choose);
  }

  /** The dictionary this version pickles gets past the length guards of
      the two stages that read it. */
  lemma PickleGetsPast(playlists: seq<(string, string)>, tracksOf: string -> seq<Info.Item>,
                       listOf: set<string> -> seq<string>, choose: nat -> seq<nat>,
                       fetch: Cell -> Webscrapers.Page, build: seq<Cell> -> Info.Pickle)
    requires Seqs.Lists(listOf) && Info.Draws(choose)
    ensures var p := Info.AsPickle(Pickle1000(playlists, tracksOf, listOf, choose));
            && Info.Aligned(p)
            && Info.InfoForPickled(p, build) == Ok(Some(build(p["ids"])))
            && (Info.ListenersForPickled(p, fetch).Ok? ==> Info.ListenersForPickled(p, fetch).value.Some?)
  {
    PickledArtists(playlists, tracksOf, listOf, choose);
    Info.DictAligned(Pickle1000(playlists, tracksOf, listOf, choose));
  }
}
