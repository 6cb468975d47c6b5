/** `Editorial_playlists_info.py`: the public playlists of the 'spotify'
    user, found directly or by browsing a market's categories, and the
    artists of the tracks added to them in the last day. The Spotify
    endpoints are parameters: a paged answer is its list of pages, and a
    playlist's tracks are the items it lists. A table written with
    `to_csv` is returned as the records it holds; the files appended to by
    hand are files of `Ledger`; a pickle is the dictionary it holds. */
module EditorialPlaylistsInfo {
  import opened Common
  import Seqs
  import Text
  import opened Ledger
  import Webscrapers
  import ArtistTrackInfo

  const OutputDir: string := "/n/holystore01/LABS/itc_lab/Users/sjeffreson/serch/artist-database/Editorial-playlists/"
  const UserId: string := "spotify"
  /** How many artists the pickle keeps at most. */
  const SampleSize: nat := 1000

  function DefaultDataframe(date: string): string
  {
    "Playlist_names-IDs_" + date + ".csv"
  }

  // ---------------------------------------------------------------- pages

  /** A paged answer: the first page, then each page `sp.next` returns.
      Every page but the last has a `next` link. */
  datatype Paged<T> = Paged(first: seq<T>, rest: seq<seq<T>>)
  {
    function Pages(): seq<seq<T>>
    {
      [first] + rest
    }

    /** The items of the pages that have a `next` link: the last page is
        fetched but never read. */
    function BeforeLast(): seq<T>
    {
      Seqs.Flatten(Pages()[..|rest|])
    }

    function Last(): seq<T>
    {
      Pages()[|rest|]
    }

    function All(): seq<T>
    {
      Seqs.Flatten(Pages())
    }
  }

  /** Every item but those of the last page is read. */
  lemma LastPageUnread<T>(p: Paged<T>)
    ensures p.All() == p.BeforeLast() + p.Last()
  {
    assert p.Pages() == p.Pages()[..|p.rest|] + [p.Last()];
    Seqs.FlattenSnoc(p.Pages()[..|p.rest|], p.Last());
  }

  // ---------------------------------------------------------------- playlists

  datatype Playlist = Playlist(name: string, id: string, owner: string, public: bool)

  /** The playlists the loops keep: owned by 'spotify' and public. */
  predicate Qualifies(p: Playlist)
  {
    p.owner == UserId && p.public
  }

  function IdOf(p: Playlist): string
  {
    p.id
  }

  /** The loop over one page's items: the qualifying ones, in order. */
  method KeepQualifying(items: seq<Playlist>, found: seq<Playlist>) returns (found': seq<Playlist>)
    ensures found' == found + Seqs.Filter(items, Qualifies)
  {
    found' := found;
    for j := 0 to |items|
      invariant found' == found + Seqs.Filter(items[..j], Qualifies)
    {
      Seqs.FilterTakeStep(items, j, Qualifies);
      if Qualifies(items[j]) {
        found' := found' + [items[j]];
      }
    }
    assert items[..|items|] == items;
  }

  /** `get_category_playlists_for_market`: the qualifying playlists of every
      page that has a `next` link. The same loop opens
      `store_available_spotify_playlists`. */
  method GetCategoryPlaylistsForMarket(paged: Paged<Playlist>) returns (found: seq<Playlist>)
    ensures found == Seqs.Filter(paged.BeforeLast(), Qualifies)
  {
    found := [];
    var i := 0;
    while i < |paged.rest|
      invariant 0 <= i <= |paged.rest|
      invariant found == Seqs.Filter(Seqs.Flatten(paged.Pages()[..i]), Qualifies)
    {
      Seqs.FlattenStep(paged.Pages(), i);
      Seqs.FilterConcat(Seqs.Flatten(paged.Pages()[..i]), paged.Pages()[i], Qualifies);
      found := KeepQualifying(paged.Pages()[i], found);
      i := i + 1;
    }
  }

  /** The table `np.unique` leads to: one record per distinct key, in
      ascending key order, each the first record with that key. */
  function UniqueBy<T>(xs: seq<T>, key: T -> string): seq<T>
  {
    Seqs.Pick(xs, Text.UniqueIndex(Seqs.Map(xs, key)).1)
  }

  lemma UniqueByFacts<T>(xs: seq<T>, key: T -> string)
    ensures Text.StrictlySorted(Seqs.Map(UniqueBy(xs, key), key))
    ensures forall i :: 0 <= i < |xs| ==> key(xs[i]) in Seqs.Map(UniqueBy(xs, key), key)
    ensures forall k :: 0 <= k < |UniqueBy(xs, key)| ==> UniqueBy(xs, key)[k] in xs
    ensures forall k :: 0 <= k < |UniqueBy(xs, key)| ==>
              exists i :: 0 <= i < |xs| && UniqueBy(xs, key)[k] == xs[i] && key(xs[i]) !in Seqs.Map(xs[..i], key)
  {
    var keys := Seqs.Map(xs, key);
    var (u, idx) := Text.UniqueIndex(keys);
    var r := UniqueBy(xs, key);
    assert Seqs.Map(r, key) == u;
    forall i | 0 <= i < |xs| ensures key(xs[i]) in u {
      assert keys[i] in keys;
    }
    forall k | 0 <= k < |r|
      ensures exists i :: 0 <= i < |xs| && r[k] == xs[i] && key(xs[i]) !in Seqs.Map(xs[..i], key)
    {
      var i := idx[k];
      assert Seqs.Map(xs[..i], key) == keys[..i];
    }
    forall k | 0 <= k < |r| ensures r[k] in xs {
      assert r[k] == xs[idx[k]];
    }
  }

  /** `store_available_spotify_playlists`: the qualifying playlists read off
      the 'spotify' user's pages, one per id. The table goes to
      `OutputDir + DefaultDataframe(date)`, replacing it. */
  method StoreAvailableSpotifyPlaylists(paged: Paged<Playlist>) returns (table: seq<Playlist>)
    ensures table == UniqueBy(Seqs.Filter(paged.BeforeLast(), Qualifies), IdOf)
  {
    var found := GetCategoryPlaylistsForMarket(paged);
    table := UniqueBy(found, IdOf);
  }

  /** Every stored playlist qualifies and was read, the ids are distinct
      and ascending, and every qualifying playlist read has its id stored. */
  lemma StoredPlaylists(paged: Paged<Playlist>)
    ensures var table := UniqueBy(Seqs.Filter(paged.BeforeLast(), Qualifies), IdOf);
            && Text.StrictlySorted(Seqs.Map(table, IdOf))
            && Seqs.Distinct(Seqs.Map(table, IdOf))
            && (forall k :: 0 <= k < |table| ==> Qualifies(table[k]) && table[k] in paged.BeforeLast())
            && (forall p :: p in paged.BeforeLast() && Qualifies(p) ==> p.id in Seqs.Map(table, IdOf))
  {
    var found := Seqs.Filter(paged.BeforeLast(), Qualifies);
    var table := UniqueBy(found, IdOf);
    UniqueByFacts(found, IdOf);
    Text.StrictlySortedDistinct(Seqs.Map(table, IdOf));
    forall p | p in paged.BeforeLast() && Qualifies(p) ensures p.id in Seqs.Map(table, IdOf) {
      assert p in found;
      var i :| 0 <= i < |found| && found[i] == p;
      assert IdOf(found[i]) == p.id;
    }
  }

  // ---------------------------------------------------------------- markets

  datatype Category = Category(id: string, name: string)

  function CatId(c: Category): string
  {
    c.id
  }

  function CatName(c: Category): string
  {
    c.name
  }

  /** The loop over one page of categories. */
  method AppendCategories(items: seq<Category>, ids: seq<string>, names: seq<string>)
    returns (ids': seq<string>, names': seq<string>)
    ensures ids' == ids + Seqs.Map(items, CatId)
    ensures names' == names + Seqs.Map(items, CatName)
  {
    ids', names' := ids, names;
    var j := 0;
    while j < |items|
      invariant 0 <= j <= |items|
      invariant ids' == ids + Seqs.Map(items[..j], CatId)
      invariant names' == names + Seqs.Map(items[..j], CatName)
    {
      Seqs.TakeSnoc(items, j);
      Seqs.MapSnoc(items[..j], items[j], CatId);
      Seqs.MapSnoc(items[..j], items[j], CatName);
      ids', names' := ids' + [items[j].id], names' + [items[j].name];
      j := j + 1;
    }
    assert items[..j] == items;
  }

  /** `get_category_ids_for_market`: the ids and names of the categories on
      every page that has a `next` link, side by side. */
  method GetCategoryIdsForMarket(paged: Paged<Category>) returns (ids: seq<string>, names: seq<string>)
    ensures ids == Seqs.Map(paged.BeforeLast(), CatId)
    ensures names == Seqs.Map(paged.BeforeLast(), CatName)
  {
    ids, names := [], [];
    var i := 0;
    while i < |paged.rest|
      invariant 0 <= i <= |paged.rest|
      invariant ids == Seqs.Map(Seqs.Flatten(paged.Pages()[..i]), CatId)
      invariant names == Seqs.Map(Seqs.Flatten(paged.Pages()[..i]), CatName)
    {
      Seqs.FlattenStep(paged.Pages(), i);
      Seqs.MapConcat(Seqs.Flatten(paged.Pages()[..i]), paged.Pages()[i], CatId);
      Seqs.MapConcat(Seqs.Flatten(paged.Pages()[..i]), paged.Pages()[i], CatName);
      ids, names := AppendCategories(paged.Pages()[i], ids, names);
      i := i + 1;
    }
  }

  /** A row of a market's table: a playlist and the category it was found in. */
  datatype Entry = Entry(playlist: Playlist, categoryId: string, categoryName: string)

  function EntryId(e: Entry): string
  {
    e.playlist.id
  }

  function Tagged(c: Category): Playlist -> Entry
  {
    p => Entry(p, c.id, c.name)
  }

  /** What the market loop records for one category: its qualifying
      playlists, filtered a second time, tagged with the category. */
  function CategoryEntries(c: Category, playlistsOf: string -> Paged<Playlist>): seq<Entry>
  {
    Seqs.Map(Seqs.Filter(Seqs.Filter(playlistsOf(c.id).BeforeLast(), Qualifies), Qualifies), Tagged(c))
  }

  function MarketEntries(cats: seq<Category>, playlistsOf: string -> Paged<Playlist>): seq<Entry>
  {
    Seqs.Flatten(Seqs.Map(cats, (c: Category) => CategoryEntries(c, playlistsOf)))
  }

  /** The second owner test changes nothing. */
  lemma RecheckChangesNothing(ps: seq<Playlist>)
    ensures Seqs.Filter(Seqs.Filter(ps, Qualifies), Qualifies) == Seqs.Filter(ps, Qualifies)
  {
    Seqs.FilterAll(Seqs.Filter(ps, Qualifies), Qualifies);
  }

  lemma MarketEntriesSnoc(cats: seq<Category>, j: nat, playlistsOf: string -> Paged<Playlist>)
    requires j < |cats|
    ensures MarketEntries(cats[..j + 1], playlistsOf) == MarketEntries(cats[..j], playlistsOf) + CategoryEntries(cats[j], playlistsOf)
  {
    Seqs.MapFlattenStep(cats, (c: Category) => CategoryEntries(c, playlistsOf), j);
  }

  /** The entries of the qualifying playlists of `ps`, built from the back. */
  function TagsOf(ps: seq<Playlist>, c: Category): seq<Entry>
  {
    if ps == [] then []
    else TagsOf(ps[..|ps| - 1], c) + (if Qualifies(ps[|ps| - 1]) then [Entry(ps[|ps| - 1], c.id, c.name)] else [])
  }

  lemma {:induction false} TagsOfIsMap(ps: seq<Playlist>, c: Category)
    ensures TagsOf(ps, c) == Seqs.Map(Seqs.Filter(ps, Qualifies), Tagged(c))
  {
    if ps != [] {
      var init := ps[..|ps| - 1];
      var x := ps[|ps| - 1];
      assert ps == init + [x];
      TagsOfIsMap(init, c);
      Seqs.FilterSnoc(init, x, Qualifies);
      if Qualifies(x) {
        Seqs.MapSnoc(Seqs.Filter(init, Qualifies), x, Tagged(c));
      }
    }
  }

  /** The tagging loop over one category's playlists. */
  method TagQualifying(ps: seq<Playlist>, c: Category, entries: seq<Entry>) returns (entries': seq<Entry>)
    ensures entries' == entries + Seqs.Map(Seqs.Filter(ps, Qualifies), Tagged(c))
  {
    entries' := entries;
    var j := 0;
    while j < |ps|
      invariant 0 <= j <= |ps|
      invariant entries' == entries + TagsOf(ps[..j], c)
    {
      assert ps[..j + 1][..j] == ps[..j];
      if Qualifies(ps[j]) {
        entries' := entries' + [Entry(ps[j], c.id, c.name)];
      }
      j := j + 1;
    }
    assert ps[..j] == ps;
    TagsOfIsMap(ps, c);
  }

  /** The file a market's table goes to. */
  function MarketFile(date: string, market: string): string
  {
    OutputDir + Text.BeforeFirst(DefaultDataframe(date), ".csv") + "_" + market + ".csv"
  }

  /** `split(".csv")[0]` drops exactly the extension: a market's file is
      the day's file name with `_<market>` before `.csv`. */
  lemma MarketFileName(date: string, market: string)
    requires Text.DateLike(date)
    ensures MarketFile(date, market) == OutputDir + "Playlist_names-IDs_" + date + "_" + market + ".csv"
  {
    var s := DefaultDataframe(date);
    var k := |"Playlist_names-IDs_" + date|;
    assert s[k..k + 4] == ".csv";
    forall j | 0 <= j < k ensures !Text.Occurs(s, ".csv", j) {
      assert s[j + 1] != 'c' by {
        if j + 1 < 19 {
          assert s[j + 1] == "Playlist_names-IDs_"[j + 1];
        } else if j + 1 < k {
          assert s[j + 1] == date[j + 1 - 19];
        } else {
          assert s[j + 1] == '.';
        }
      }
      if j + 4 <= |s| {
        assert s[j..j + 4][1] == s[j + 1];
      }
    }
    Text.BeforeFirstAt(s, ".csv", k);
    assert Text.BeforeFirst(s, ".csv") == "Playlist_names-IDs_" + date;
  }

  /** `store_spotify_playlist_selection_for_market`: every qualifying
      playlist of every category read for the market, tagged with its
      category, one per id; and the file the table replaces. */
  method StoreSpotifyPlaylistSelectionForMarket(date: string, market: string, categories: Paged<Category>,
                                                playlistsOf: string -> Paged<Playlist>)
    returns (path: string, table: seq<Entry>)
    ensures path == MarketFile(date, market)
    ensures table == UniqueBy(MarketEntries(categories.BeforeLast(), playlistsOf), EntryId)
  {
    var ids, names := GetCategoryIdsForMarket(categories);
    ghost var cats := categories.BeforeLast();
    var entries: seq<Entry> := [];
    var j := 0;
    while j < |ids|
      invariant 0 <= j <= |ids|
      invariant entries == MarketEntries(cats[..j], playlistsOf)
    {
      var c := Category(ids[j], names[j]);
      assert c == cats[j];
      var ps := GetCategoryPlaylistsForMarket(playlistsOf(ids[j]));
      entries := TagQualifying(ps, c, entries);
      MarketEntriesSnoc(cats, j, playlistsOf);
      j := j + 1;
    }
    assert cats[..j] == cats;
    path := OutputDir + Text.BeforeFirst(DefaultDataframe(date), ".csv") + "_" + market + ".csv";
    table := UniqueBy(entries, EntryId);
  }

  /** Every entry recorded for a category is a qualifying playlist read
      for it, tagged with it. */
  lemma CategoryEntriesFrom(c: Category, playlistsOf: string -> Paged<Playlist>)
    ensures forall e :: e in CategoryEntries(c, playlistsOf) ==>
              Qualifies(e.playlist) && Category(e.categoryId, e.categoryName) == c
              && e.playlist in playlistsOf(c.id).BeforeLast()
  {
    var ps := Seqs.Filter(playlistsOf(c.id).BeforeLast(), Qualifies);
    RecheckChangesNothing(playlistsOf(c.id).BeforeLast());
    forall e | e in CategoryEntries(c, playlistsOf)
      ensures Qualifies(e.playlist) && Category(e.categoryId, e.categoryName) == c
              && e.playlist in playlistsOf(c.id).BeforeLast()
    {
      var i :| 0 <= i < |ps| && Seqs.Map(ps, Tagged(c))[i] == e;
      assert ps[i] in ps;
    }
  }

  /** Every entry of a market's recording is a qualifying playlist read for
      one of the market's categories, tagged with that category. */
  lemma {:induction false} MarketEntriesFrom(cats: seq<Category>, playlistsOf: string -> Paged<Playlist>)
    ensures forall e :: e in MarketEntries(cats, playlistsOf) ==>
              Qualifies(e.playlist) && Category(e.categoryId, e.categoryName) in cats
              && e.playlist in playlistsOf(e.categoryId).BeforeLast()
  {
    if cats != [] {
      var n := |cats| - 1;
      MarketEntriesFrom(cats[..n], playlistsOf);
      MarketEntriesSnoc(cats, n, playlistsOf);
      assert cats[..n + 1] == cats;
      CategoryEntriesFrom(cats[n], playlistsOf);
      assert forall x :: x in cats[..n] ==> x in cats;
    }
  }

  /** A market's table: one row per playlist id, ascending, each a
      qualifying playlist found in one of the market's categories. */
  lemma MarketTable(categories: Paged<Category>, playlistsOf: string -> Paged<Playlist>)
    ensures var table := UniqueBy(MarketEntries(categories.BeforeLast(), playlistsOf), EntryId);
            && Seqs.Distinct(Seqs.Map(table, EntryId))
            && forall k :: 0 <= k < |table| ==>
                 Qualifies(table[k].playlist) && Category(table[k].categoryId, table[k].categoryName) in categories.BeforeLast()
  {
    var es := MarketEntries(categories.BeforeLast(), playlistsOf);
    var table := UniqueBy(es, EntryId);
    UniqueByFacts(es, EntryId);
    Text.StrictlySortedDistinct(Seqs.Map(table, EntryId));
    MarketEntriesFrom(categories.BeforeLast(), playlistsOf);
    forall k | 0 <= k < |table|
      ensures Qualifies(table[k].playlist) && Category(table[k].categoryId, table[k].categoryName) in categories.BeforeLast()
    {
      var i :| 0 <= i < |es| && table[k] == es[i] && EntryId(es[i]) !in Seqs.Map(es[..i], EntryId);
      assert es[i] in es;
    }
  }

  // ---------------------------------------------------------------- tracks of the last day

  /** A track of a playlist: its id and its artists' ids; a null artist is
      `None`. */
  datatype Track = Track(id: string, artists: seq<Option<string>>)

  /** An item of a playlist: how many whole days ago it was added, and its
      track, `None` when the playlist holds a null track. */
  datatype Item = Item(ageDays: int, track: Option<Track>)

  predicate Recent(it: Item)
  {
    it.ageDays < 1
  }

  /** The artist ids the inner loop appends before `artist['id']` on a null
      artist raises the `TypeError` the `except` catches. */
  function Credited(artists: seq<Option<string>>): (r: seq<string>)
    ensures |r| <= |artists|
    ensures forall k :: 0 <= k < |r| ==> artists[k] == Some(r[k])
    ensures |r| < |artists| ==> artists[|r|].None?
  {
    if artists == [] || artists[0].None? then [] else [artists[0].value] + Credited(artists[1..])
  }

  /** What one item adds to the artist and the track list: each credited
      artist, beside the track's id. */
  function ItemIds(it: Item): (seq<string>, seq<string>)
  {
    if Recent(it) && it.track.Some? then
      var a := Credited(it.track.value.artists);
      (a, Seqs.Copies(it.track.value.id, |a|))
    else ([], [])
  }

  function Last24(items: seq<Item>): (seq<string>, seq<string>)
  {
    if items == [] then ([], [])
    else
      var prev := Last24(items[..|items| - 1]);
      var add := ItemIds(items[|items| - 1]);
      (prev.0 + add.0, prev.1 + add.1)
  }

  lemma Last24Snoc(items: seq<Item>, j: nat)
    requires j < |items|
    ensures Last24(items[..j + 1]) == (Last24(items[..j]).0 + ItemIds(items[j]).0, Last24(items[..j]).1 + ItemIds(items[j]).1)
  {
    assert items[..j + 1][..j] == items[..j];
  }

  /** The inner loop over one track's artists. */
  method CreditTrack(t: Track, artistIds: seq<string>, trackIds: seq<string>)
    returns (artistIds': seq<string>, trackIds': seq<string>)
    ensures artistIds' == artistIds + Credited(t.artists)
    ensures trackIds' == trackIds + Seqs.Copies(t.id, |Credited(t.artists)|)
  {
    var added: seq<string> := [];
    var k := 0;
    while k < |t.artists|
      invariant 0 <= k <= |t.artists| && |added| == k
      invariant forall m :: 0 <= m < k ==> t.artists[m] == Some(added[m])
    {
      if t.artists[k].None? {
        break;
      }
      added := added + [t.artists[k].value];
      k := k + 1;
    }
    var r := Credited(t.artists);
    assert |r| == k;
    assert added == r;
    artistIds' := artistIds + added;
    trackIds' := trackIds + Seqs.Copies(t.id, k);
  }

  /** `get_artists_last_24hrs`: for each item added less than a day ago, its
      credited artists and, beside each, the track's id. */
  method GetArtistsLast24hrs(items: seq<Item>) returns (artistIds: seq<string>, trackIds: seq<string>)
    ensures (artistIds, trackIds) == Last24(items)
  {
    artistIds, trackIds := [], [];
    var j := 0;
    while j < |items|
      invariant 0 <= j <= |items|
      invariant (artistIds, trackIds) == Last24(items[..j])
    {
      Last24Snoc(items, j);
      var it := items[j];
      if Recent(it) && it.track.Some? {
        artistIds, trackIds := CreditTrack(it.track.value, artistIds, trackIds);
      } else {
        assert ItemIds(it) == ([], []);
        assert artistIds + [] == artistIds && trackIds + [] == trackIds;
      }
      j := j + 1;
    }
    assert items[..j] == items;
  }

  /** The two lists stay side by side: each artist id is beside the id of a
      recent track that credits it. */
  lemma {:induction false} Last24Aligned(items: seq<Item>)
    ensures |Last24(items).0| == |Last24(items).1|
    ensures forall k :: 0 <= k < |Last24(items).0| ==>
              exists j :: 0 <= j < |items| && Recent(items[j]) && items[j].track.Some?
                && items[j].track.value.id == Last24(items).1[k]
                && Some(Last24(items).0[k]) in items[j].track.value.artists
  {
    if items != [] {
      var n := |items| - 1;
      var init := items[..n];
      Last24Aligned(init);
      var prev, add := Last24(init), ItemIds(items[n]);
      var r := Last24(items);
      forall k | 0 <= k < |r.0|
        ensures exists j :: 0 <= j < |items| && Recent(items[j]) && items[j].track.Some?
                  && items[j].track.value.id == r.1[k] && Some(r.0[k]) in items[j].track.value.artists
      {
        if k < |prev.0| {
          var j :| 0 <= j < |init| && Recent(init[j]) && init[j].track.Some?
                   && init[j].track.value.id == prev.1[k] && Some(prev.0[k]) in init[j].track.value.artists;
          assert items[j] == init[j];
        } else {
          var m := k - |prev.0|;
          assert r.0[k] == add.0[m] && r.1[k] == add.1[m];
          assert items[n].track.value.artists[m] == Some(add.0[m]);
        }
      }
    }
  }

  // ---------------------------------------------------------------- the pickle of the day

  /** A playlist name the pickling loop passes over: one that highlights an
      artist, or whose songs are popular to begin with. */
  predicate Skipped(name: string)
  {
    Text.Contains(name, "This Is")
    || Text.Contains(name, "Hits") || Text.Contains(name, "hits")
    || Text.Contains(name, "Top") || Text.Contains(name, "top")
    || Text.Contains(name, "Official") || Text.Contains(name, "official")
  }

  /** The three lists the pickling loop builds: artist ids, track ids, and
      the name of the playlist each artist was found in. */
  datatype Gathered = Gathered(artists: seq<string>, tracks: seq<string>, found: seq<string>)

  /** The loop over the stored playlists, as (id, name) pairs. */
  function Gather(playlists: seq<(string, string)>, tracksOf: string -> seq<Item>): Gathered
  {
    if playlists == [] then Gathered([], [], [])
    else
      var g := Gather(playlists[..|playlists| - 1], tracksOf);
      var p := playlists[|playlists| - 1];
      if Skipped(p.1) then g
      else
        var add := Last24(tracksOf(p.0));
        Gathered(g.artists + add.0, g.tracks + add.1, g.found + Seqs.Copies(p.1, |add.0|))
  }

  /** The three lists are side by side, and each artist was found, in the
      named playlist, among the tracks added to it in the last day. */
  lemma {:induction false} GatherAligned(playlists: seq<(string, string)>, tracksOf: string -> seq<Item>)
    ensures var g := Gather(playlists, tracksOf);
            |g.artists| == |g.tracks| && |g.found| == |g.artists|
    ensures var g := Gather(playlists, tracksOf);
            forall k :: 0 <= k < |g.artists| ==>
              exists i :: 0 <= i < |playlists| && !Skipped(playlists[i].1) && g.found[k] == playlists[i].1
                && g.artists[k] in Last24(tracksOf(playlists[i].0)).0
  {
    if playlists != [] {
      var n := |playlists| - 1;
      var init := playlists[..n];
      GatherAligned(init, tracksOf);
      var p := playlists[n];
      var g := Gather(playlists, tracksOf);
      var h := Gather(init, tracksOf);
      if !Skipped(p.1) {
        var add := Last24(tracksOf(p.0));
        Last24Aligned(tracksOf(p.0));
        forall k | 0 <= k < |g.artists|
          ensures exists i :: 0 <= i < |playlists| && !Skipped(playlists[i].1) && g.found[k] == playlists[i].1
                    && g.artists[k] in Last24(tracksOf(playlists[i].0)).0
        {
          if k < |h.artists| {
            var i :| 0 <= i < |init| && !Skipped(init[i].1) && h.found[k] == init[i].1
                     && h.artists[k] in Last24(tracksOf(init[i].0)).0;
            assert playlists[i] == init[i];
          } else {
            assert g.artists[k] == add.0[k - |h.artists|];
          }
        }
      } else {
        forall k | 0 <= k < |g.artists|
          ensures exists i :: 0 <= i < |playlists| && !Skipped(playlists[i].1) && g.found[k] == playlists[i].1
                    && g.artists[k] in Last24(tracksOf(playlists[i].0)).0
        {
          var i :| 0 <= i < |init| && !Skipped(init[i].1) && h.found[k] == init[i].1
                   && h.artists[k] in Last24(tracksOf(init[i].0)).0;
          assert playlists[i] == init[i];
        }
      }
    }
  }

  /** The pickled dictionary `{'ids': ..., 'playlists_found': ...}`. */
  datatype ArtistDict = ArtistDict(ids: seq<string>, playlistsFound: seq<string>)

  /** What `np.random.choice(n, 1000, replace=False)` returns. */
  predicate Sample(idx: seq<nat>, n: nat)
  {
    |idx| == SampleSize && Seqs.Distinct(idx) && Seqs.InRange(idx, n)
  }

  /** The random draws, one for each count of distinct artists over 1000. */
  ghost predicate Draws(choose: nat -> seq<nat>)
  {
    forall n: nat :: n > SampleSize ==> Sample(choose(n), n)
  }

  /** The distinct artists, each with the first playlist it was found in,
      and a random 1000 of them when there are more. */
  function Selected(artists: seq<string>, playlistsFound: seq<string>, choose: nat -> seq<nat>): ArtistDict
    requires |playlistsFound| == |artists| && Draws(choose)
  {
    var (u, idx) := Text.UniqueIndex(artists);
    var found := Seqs.Pick(playlistsFound, idx);
    if |u| > SampleSize then ArtistDict(Seqs.Pick(u, choose(|u|)), Seqs.Pick(found, choose(|u|)))
    else ArtistDict(u, found)
  }

  function TrackIdsFile(date: string): string
  {
    OutputDir + "track_ids_last_24hrs_" + date + ".csv"
  }

  const NumFeaturedFile: string := OutputDir + "num_featured_artists.csv"

  function TrackRows(tracks: seq<string>, artists: seq<string>): seq<Row>
  {
    Seqs.Map(Seqs.Zip(tracks, artists), (p: (string, string)) => [Str(p.0), Str(p.1)])
  }

  /** The files the pickling stage appends to, and the dictionary it pickles. */
  datatype Pickled = Pickled(fs: Fs, dict: ArtistDict)

  /** `pickle_1000_artists_last_24hrs`: the track file of the day gets a
      header line and one line per (track, artist) pair, every run; the
      count file gets the day and the number of distinct artists. */
  function Pickle1000(fs: Fs, date: string, playlists: seq<(string, string)>, tracksOf: string -> seq<Item>,
                      choose: nat -> seq<nat>): Pickled
    requires Draws(choose)
  {
    var g := Gather(playlists, tracksOf);
    GatherAligned(playlists, tracksOf);
    var fs1 := Append(fs, TrackIdsFile(date), ["track_ids", "artist_ids"], TrackRows(g.tracks, g.artists), true);
    var count := |Text.UniqueIndex(g.artists).0|;
    var fs2 := Append(fs1, NumFeaturedFile, [], [[Str(date), Int(count)]], false);
    Pickled(fs2, Selected(g.artists, g.found, choose))
  }

  method Pickle1000ArtistsLast24hrs(fs: Fs, date: string, playlists: seq<(string, string)>,
                                    tracksOf: string -> seq<Item>, choose: nat -> seq<nat>)
    returns (r: Pickled)
    requires Draws(choose)
    ensures r == Pickle1000(fs, date, playlists, tracksOf, choose)
  {
    var artists, tracks, found := [], [], [];
    var j := 0;
    while j < |playlists|
      invariant 0 <= j <= |playlists|
      invariant Gathered(artists, tracks, found) == Gather(playlists[..j], tracksOf)
    {
      assert playlists[..j + 1][..j] == playlists[..j];
      var (id, name) := playlists[j];
      if !Skipped(name) {
        var add, addTracks := GetArtistsLast24hrs(tracksOf(id));
        artists, tracks, found := artists + add, tracks + addTracks, found + Seqs.Copies(name, |add|);
      }
      j := j + 1;
    }
    assert playlists[..j] == playlists;
    var g := Gathered(artists, tracks, found);
    GatherAligned(playlists, tracksOf);
    var fs1 := Append(fs, TrackIdsFile(date), ["track_ids", "artist_ids"], TrackRows(tracks, artists), true);
    var fs2 := Append(fs1, NumFeaturedFile, [], [[Str(date), Int(|Text.UniqueIndex(artists).0|)]], false);
    r := Pickled(fs2, Selected(g.artists, g.found, choose));
  }

  /** What `Selected` keeps: distinct artists of the gathered list, each
      beside the first playlist it was found in; all of them, in ascending
      order, when there are at most 1000, and 1000 of them otherwise. */
  lemma SelectedArtists(artists: seq<string>, playlistsFound: seq<string>, choose: nat -> seq<nat>)
    requires |playlistsFound| == |artists| && Draws(choose)
    ensures var d := Selected(artists, playlistsFound, choose);
            var u := Text.UniqueIndex(artists).0;
            && |d.ids| == |d.playlistsFound| && Seqs.Distinct(d.ids)
            && (|u| <= SampleSize ==> d.ids == u && Text.StrictlySorted(d.ids))
            && (|u| > SampleSize ==> |d.ids| == SampleSize)
            && forall k :: 0 <= k < |d.ids| ==>
                 d.ids[k] in artists && d.playlistsFound[k] == playlistsFound[Seqs.FirstIndex(artists, d.ids[k])]
  {
    var (u, idx) := Text.UniqueIndex(artists);
    var found := Seqs.Pick(playlistsFound, idx);
    var d := Selected(artists, playlistsFound, choose);
    Text.StrictlySortedDistinct(u);
    forall k | 0 <= k < |u| ensures idx[k] == Seqs.FirstIndex(artists, u[k]) && found[k] == playlistsFound[Seqs.FirstIndex(artists, u[k])] {
      UniqueFirst(artists, u[k], idx[k]);
    }
    if |u| > SampleSize {
      var c := choose(|u|);
      assert Sample(c, |u|);
      forall i, j | 0 <= i < j < |d.ids| ensures d.ids[i] != d.ids[j] {
        assert c[i] != c[j];
      }
      forall k | 0 <= k < |d.ids|
        ensures d.ids[k] in artists && d.playlistsFound[k] == playlistsFound[Seqs.FirstIndex(artists, d.ids[k])]
      {
        assert d.ids[k] == u[c[k]] && d.playlistsFound[k] == found[c[k]];
      }
    }
  }

  /** The first index of a value is where it first occurs. */
  lemma UniqueFirst(s: seq<string>, x: string, i: nat)
    requires i < |s| && s[i] == x && x !in s[..i]
    ensures Seqs.FirstIndex(s, x) == i
  {
  }

  /** The pickled dictionary is what `Selected` keeps of the gathered lists. */
  lemma PickledArtists(fs: Fs, date: string, playlists: seq<(string, string)>, tracksOf: string -> seq<Item>,
                       choose: nat -> seq<nat>)
    requires Draws(choose)
    ensures var g := Gather(playlists, tracksOf);
            var d := Pickle1000(fs, date, playlists, tracksOf, choose).dict;
            var u := Text.UniqueIndex(g.artists).0;
            && |g.found| == |g.artists|
            && |d.ids| == |d.playlistsFound| && Seqs.Distinct(d.ids)
            && (|u| <= SampleSize ==> d.ids == u && Text.StrictlySorted(d.ids))
            && (|u| > SampleSize ==> |d.ids| == SampleSize)
            && forall k :: 0 <= k < |d.ids| ==>
                 d.ids[k] in g.artists && d.playlistsFound[k] == g.found[Seqs.FirstIndex(g.artists, d.ids[k])]
  {
    GatherAligned(playlists, tracksOf);
    var g := Gather(playlists, tracksOf);
    assert Pickle1000(fs, date, playlists, tracksOf, choose).dict == Selected(g.artists, g.found, choose);
    SelectedArtists(g.artists, g.found, choose);
  }

  /** The count file gets the day and the number of distinct artists
      before the sample is drawn, which may exceed what the pickle keeps. */
  lemma CountBeforeSample(fs: Fs, date: string, playlists: seq<(string, string)>, tracksOf: string -> seq<Item>,
                          choose: nat -> seq<nat>)
    requires Draws(choose)
    ensures var r := Pickle1000(fs, date, playlists, tracksOf, choose);
            var count := |Text.UniqueIndex(Gather(playlists, tracksOf).artists).0|;
            && NumFeaturedFile in r.fs && |r.fs[NumFeaturedFile]| > 0
            && r.fs[NumFeaturedFile][|r.fs[NumFeaturedFile]| - 1] == StoredRow([Str(date), Int(count)])
            && |r.dict.ids| <= count
  {
    PickledArtists(fs, date, playlists, tracksOf, choose);
  }

  /** Each run writes the header line again: after two runs on one day the
      track file holds two header lines. */
  lemma HeaderEveryRun(fs: Fs, date: string, playlists: seq<(string, string)>, tracksOf: string -> seq<Item>,
                       choose: nat -> seq<nat>)
    requires Draws(choose)
    ensures var once := Pickle1000(fs, date, playlists, tracksOf, choose).fs;
            var twice := Pickle1000(once, date, playlists, tracksOf, choose).fs;
            var g := Gather(playlists, tracksOf);
            var before := |Contents(fs, TrackIdsFile(date))|;
            var n := |TrackRows(g.tracks, g.artists)|;
            && |twice[TrackIdsFile(date)]| == before + 2 * (n + 1)
            && twice[TrackIdsFile(date)][before] == HeaderRow(["track_ids", "artist_ids"])
            && twice[TrackIdsFile(date)][before + n + 1] == HeaderRow(["track_ids", "artist_ids"])
  {
    TrackFileApart(date);
  }

  lemma TrackFileApart(date: string)
    ensures TrackIdsFile(date) != NumFeaturedFile
  {
    var a, b := TrackIdsFile(date), NumFeaturedFile;
    var k := |OutputDir|;
    assert a[k] == 't' && b[k] == 'n';
  }

  // ---------------------------------------------------------------- the pickled dictionaries

  /** A pickled dictionary: a list of values per key. */
  type Pickle = map<string, seq<Cell>>

  function AsPickle(d: ArtistDict): Pickle
  {
    map["ids" := StrCells(d.ids), "playlists_found" := StrCells(d.playlistsFound)]
  }

  /** Every list as long as the id list. */
  predicate Aligned(d: Pickle)
  {
    "ids" in d && forall key :: key in d ==> |d[key]| == |d["ids"]|
  }

  /** The guard `any(len(d['ids']) != len(d[key]) for key in d.keys())`:
      `d['ids']` is only looked up when there is a key to test. */
  function Misaligned(d: Pickle): Result<bool>
  {
    if d.Keys == {} then Ok(false)
    else if "ids" !in d then Err(KeyError("ids"))
    else Ok(exists key :: key in d && |d[key]| != |d["ids"]|)
  }

  /** Every path through the guard and the `d['ids']` after it: a
      dictionary without ids raises, one with lists of another length is
      given up on, and only an aligned one gets past. */
  lemma GuardPaths(d: Pickle)
    ensures "ids" !in d ==> Misaligned(d) != Ok(true)
    ensures "ids" in d ==> (Misaligned(d) == Ok(false) <==> Aligned(d))
    ensures "ids" in d ==> Misaligned(d).Ok?
  {
  }

  const ListenersKey: string := "monthly_listeners"

  /** `scrape_monthly_listeners_for_pickled_artists`: the dictionary with
      the monthly listeners scraped for each id added, or `None` when the
      guard gives up. */
  function ListenersForPickled(d: Pickle, fetch: Cell -> Webscrapers.Page): (r: Result<Option<Pickle>>)
    ensures "ids" !in d ==> r == Err(KeyError("ids"))
    ensures r == Ok(None) <==> "ids" in d && !Aligned(d)
    ensures Aligned(d) ==> (r.Ok? <==> forall i :: 0 <= i < |d["ids"]| ==> ArtistTrackInfo.Listeners(fetch)(d["ids"][i]).Ok?)
    ensures r.Ok? && r.value.Some? ==>
              var o := r.value.value;
              && Aligned(d) && Aligned(o) && o.Keys == d.Keys + {ListenersKey}
              && (forall key :: key in d && key != ListenersKey ==> o[key] == d[key])
              && forall i :: 0 <= i < |d["ids"]| ==> ArtistTrackInfo.Listeners(fetch)(d["ids"][i]) == Ok(o[ListenersKey][i])
  {
    GuardPaths(d);
    match Misaligned(d)
    case Err(e) => Err(e)
    case Ok(bad) =>
      if bad then Ok(None)
      else if "ids" !in d then Err(KeyError("ids"))
      else
        match Seqs.AllOk(d["ids"], ArtistTrackInfo.Listeners(fetch))
        case Err(e) => Err(e)
        case Ok(counts) => Ok(Some(d[ListenersKey := counts]))
  }

  method ScrapeMonthlyListenersForPickledArtists(d: Pickle, fetch: Cell -> Webscrapers.Page)
    returns (r: Result<Option<Pickle>>)
    ensures r == ListenersForPickled(d, fetch)
  {
    var guard := Misaligned(d);
    if guard.Err? {
      return Err(guard.error);
    }
    if guard.value {
      return Ok(None);
    }
    if "ids" !in d {
      return Err(KeyError("ids"));
    }
    var counts := Seqs.Collect(d["ids"], ArtistTrackInfo.Listeners(fetch));
    if counts.Err? {
      return Err(counts.error);
    }
    r := Ok(Some(d[ListenersKey := counts.value]));
  }

  /** `get_artist_info_for_pickled_artists`: what `build` makes of the ids
      of a dictionary that gets past the guard. */
  function InfoForPickled(d: Pickle, build: seq<Cell> -> Pickle): (r: Result<Option<Pickle>>)
    ensures "ids" !in d ==> r == Err(KeyError("ids"))
    ensures "ids" in d ==> (r.Ok? && r.value.Some? <==> Aligned(d))
    ensures Aligned(d) ==> r == Ok(Some(build(d["ids"])))
    ensures "ids" in d && !Aligned(d) ==> r == Ok(None)
  {
    GuardPaths(d);
    match Misaligned(d)
    case Err(e) => Err(e)
    case Ok(bad) =>
      if bad then Ok(None)
      else if "ids" !in d then Err(KeyError("ids"))
      else Ok(Some(build(d["ids"])))
  }

  /** The dictionary the pickling stage writes gets past both guards. */
  lemma PickleGetsPast(fs: Fs, date: string, playlists: seq<(string, string)>, tracksOf: string -> seq<Item>,
                       choose: nat -> seq<nat>, fetch: Cell -> Webscrapers.Page, build: seq<Cell> -> Pickle)
    requires Draws(choose)
    ensures var p := AsPickle(Pickle1000(fs, date, playlists, tracksOf, choose).dict);
            && Aligned(p)
            && InfoForPickled(p, build) == Ok(Some(build(p["ids"])))
            && (ListenersForPickled(p, fetch).Ok? ==> ListenersForPickled(p, fetch).value.Some?)
  {
    PickledArtists(fs, date, playlists, tracksOf, choose);
    DictAligned(Pickle1000(fs, date, playlists, tracksOf, choose).dict);
  }

  lemma DictAligned(d: ArtistDict)
    requires |d.ids| == |d.playlistsFound|
    ensures Aligned(AsPickle(d))
  {
    var p := AsPickle(d);
    assert p.Keys == {"ids", "playlists_found"};
  }
}
