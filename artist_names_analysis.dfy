/** `ArtistNames_analysis.py`: the `ArtistNames` analysis object. It loads the
    pickled MusicBrainz name lists in file-number order, cleans them (without
    lowercasing), optionally samples them, packs the names into
    200-character Spotify `OR` queries, and filters a columnar artist record
    into cohorts (unproductive removed, active, legacy, famous legacy). */
module ArtistNamesAnalysis {
  import opened Common
  import Seqs
  import opened Text
  import ArtistNamesIds
  import ArtistInfoHelper

  // ---------------------------------------------------------------- remove_duplicates_preserve_order

  /** `seen = set(); [x for x in seq if not (x in seen or seen.add(x))]` */
  method RemoveDuplicatesPreserveOrder<T(==,!new)>(s: seq<T>) returns (r: seq<T>)
    ensures r == Seqs.Dedupe(s)
  {
    var seen: set<T> := {};
    r := [];
    var i := 0;
    while i < |s|
      invariant 0 <= i <= |s|
      invariant forall x :: x in seen <==> x in s[..i]
      invariant r == Seqs.Dedupe(s[..i])
    {
      assert s[..i + 1][..i] == s[..i];
      if s[i] !in seen {
        r := r + [s[i]];
      }
      seen := seen + {s[i]};
      i := i + 1;
    }
    assert s[..|s|] == s;
  }

  // ---------------------------------------------------------------- loading the pickles

  /** `int(filename.split('_')[-1].split('.')[0])` */
  function FileNo(filename: string): (r: Result<int>)
    ensures r.Err? ==> r.error == ValueError
  {
    ParseInt(BeforeFirst(AfterLast(filename, "_"), "."))
  }

  /** The file numbers of all files; the first that does not parse raises. */
  function FileNos(filenames: seq<string>): (r: Result<seq<int>>)
    ensures r.Err? ==> r.error == ValueError
  {
    Seqs.AllOk(filenames, FileNo)
  }

  /** Python's order on `(int, str)` tuples: by number, then by name. */
  predicate PairLess(a: (int, string), b: (int, string))
  {
    a.0 < b.0 || (a.0 == b.0 && LexLess(a.1, b.1))
  }

  predicate SortedPairs(s: seq<(int, string)>)
  {
    forall i, j :: 0 <= i < j < |s| ==> !PairLess(s[j], s[i])
  }

  lemma PairTotal(a: (int, string), b: (int, string))
    requires a != b && !PairLess(a, b)
    ensures PairLess(b, a)
  {
    if a.0 == b.0 { LexTotal(a.1, b.1); }
  }

  lemma PairIrreflexive(a: (int, string))
    ensures !PairLess(a, a)
  {
    LexIrreflexive(a.1);
  }

  lemma PairAntisymmetric(a: (int, string), b: (int, string))
    requires !PairLess(a, b) && !PairLess(b, a)
    ensures a == b
  {
    if a != b { PairTotal(a, b); }
  }

  lemma PairNotLessTransitive(a: (int, string), b: (int, string), c: (int, string))
    requires !PairLess(b, a) && !PairLess(c, b)
    ensures !PairLess(c, a)
  {
    if a != b && b != c {
      PairTotal(b, a);
      PairTotal(c, b);
      if a.0 == b.0 && b.0 == c.0 { LexTransitive(a.1, b.1, c.1); }
      if a.0 == c.0 && PairLess(c, a) { LexIrreflexive(a.1); LexTransitive(a.1, c.1, a.1); }
    }
  }

  function InsertPair(x: (int, string), s: seq<(int, string)>): (r: seq<(int, string)>)
    requires SortedPairs(s)
    ensures SortedPairs(r)
    ensures multiset(r) == multiset(s) + multiset{x}
  {
    if s == [] then [x]
    else if !PairLess(s[0], x) then
      InsertFront(x, s);
      [x] + s
    else
      SortedTail(s);
      var rest := InsertPair(x, s[1..]);
      InsertBehind(x, s, rest);
      [s[0]] + rest
  }

  lemma InsertFront(x: (int, string), s: seq<(int, string)>)
    requires SortedPairs(s) && s != [] && !PairLess(s[0], x)
    ensures SortedPairs([x] + s)
    ensures multiset([x] + s) == multiset(s) + multiset{x}
  {
    forall j | 0 < j < |s| ensures !PairLess(s[j], x) {
      PairNotLessTransitive(x, s[0], s[j]);
    }
    var r := [x] + s;
    forall p, q | 0 <= p < q < |r| ensures !PairLess(r[q], r[p]) {
      assert r[q] == s[q - 1];
      if p > 0 { assert r[p] == s[p - 1]; }
    }
  }

  lemma InsertBehind(x: (int, string), s: seq<(int, string)>, rest: seq<(int, string)>)
    requires SortedPairs(s) && s != [] && PairLess(s[0], x)
    requires SortedPairs(rest) && multiset(rest) == multiset(s[1..]) + multiset{x}
    ensures SortedPairs([s[0]] + rest)
    ensures multiset([s[0]] + rest) == multiset(s) + multiset{x}
  {
    assert s == [s[0]] + s[1..];
    forall j | 0 <= j < |rest| ensures !PairLess(rest[j], s[0]) {
      assert rest[j] in multiset(rest);
      if rest[j] == x {
        if PairLess(x, s[0]) && x.0 == s[0].0 { LexTransitive(x.1, s[0].1, x.1); LexIrreflexive(x.1); }
      } else {
        assert rest[j] in multiset(s[1..]);
        var k :| 0 <= k < |s[1..]| && s[1..][k] == rest[j];
        assert s[k + 1] == rest[j];
      }
    }
    var r := [s[0]] + rest;
    forall p, q | 0 <= p < q < |r| ensures !PairLess(r[q], r[p]) {
      assert r[q] == rest[q - 1];
      if p > 0 { assert r[p] == rest[p - 1]; }
    }
  }


  /** `sorted(...)` on `(file number, file name)` tuples. */
  function SortPairs(s: seq<(int, string)>): (r: seq<(int, string)>)
    ensures SortedPairs(r)
    ensures multiset(r) == multiset(s)
  {
    if s == [] then []
    else
      assert s == [s[0]] + s[1..];
      InsertPair(s[0], SortPairs(s[1..]))
  }

  /** Two sorted orderings of the same distinct tuples are the same list:
      the file order does not depend on how the sort is carried out. */
  lemma SortedTail(s: seq<(int, string)>)
    requires SortedPairs(s) && s != []
    ensures SortedPairs(s[1..])
  {
    forall p, q | 0 <= p < q < |s[1..]| ensures !PairLess(s[1..][q], s[1..][p]) {
      assert s[1..][q] == s[q + 1] && s[1..][p] == s[p + 1];
    }
  }

  /** Two sorted lists with the same items start with the same item. */
  lemma SortedHeads(a: seq<(int, string)>, b: seq<(int, string)>)
    requires SortedPairs(a) && SortedPairs(b) && multiset(a) == multiset(b) && a != []
    ensures b != [] && a[0] == b[0]
  {
    assert a[0] in multiset(b);
    assert b != [] && b[0] in multiset(a);
    var i :| 0 <= i < |b| && b[i] == a[0];
    var j :| 0 <= j < |a| && a[j] == b[0];
    PairIrreflexive(a[0]);
    PairIrreflexive(b[0]);
    assert !PairLess(b[0], a[0]) by { if j > 0 { assert !PairLess(a[j], a[0]); } }
    assert !PairLess(a[0], b[0]) by { if i > 0 { assert !PairLess(b[i], b[0]); } }
    PairAntisymmetric(a[0], b[0]);
  }

  lemma {:induction false} SortedUnique(a: seq<(int, string)>, b: seq<(int, string)>)
    requires SortedPairs(a) && SortedPairs(b) && multiset(a) == multiset(b)
    ensures a == b
  {
    if a != [] {
      SortedHeads(a, b);
      assert a == [a[0]] + a[1..] && b == [b[0]] + b[1..];
      MultisetCancel(a[0], multiset(a[1..]), multiset(b[1..]));
      SortedTail(a);
      SortedTail(b);
      SortedUnique(a[1..], b[1..]);
    }
  }


  function Zip(ns: seq<int>, names: seq<string>): (r: seq<(int, string)>)
    requires |ns| == |names|
    ensures |r| == |ns| && forall i :: 0 <= i < |r| ==> r[i] == (ns[i], names[i])
  {
    seq(|ns|, i requires 0 <= i < |ns| => (ns[i], names[i]))
  }

  /** Any reordering of the zipped tuples keeps each name beside its own
      file number. */
  lemma ZipKeys(ns: seq<int>, filenames: seq<string>, sorted: seq<(int, string)>)
    requires |ns| == |filenames| && forall i :: 0 <= i < |filenames| ==> FileNo(filenames[i]) == Ok(ns[i])
    requires multiset(sorted) == multiset(Zip(ns, filenames))
    ensures forall k :: 0 <= k < |sorted| ==> FileNo(sorted[k].1) == Ok(sorted[k].0)
  {
    forall k | 0 <= k < |sorted| ensures FileNo(sorted[k].1) == Ok(sorted[k].0) {
      assert sorted[k] in multiset(Zip(ns, filenames));
      var m :| 0 <= m < |filenames| && Zip(ns, filenames)[m] == sorted[k];
    }
  }

  /** The name of a `(file number, file name)` tuple. */
  function PairName(p: (int, string)): string { p.1 }

  /** Each file's number parses, and the files come by number, equal
      numbers by name. */
  predicate InFileOrder(order: seq<string>)
  {
    && (forall k :: 0 <= k < |order| ==> FileNo(order[k]).Ok?)
    && forall i, j :: 0 <= i < j < |order| ==>
         !PairLess((FileNo(order[j]).value, order[j]), (FileNo(order[i]).value, order[i]))
  }

  /** The names of sorted tuples that pair each name with its number are
      in file order. */
  lemma SortedNamesInOrder(sorted: seq<(int, string)>)
    requires SortedPairs(sorted)
    requires forall k :: 0 <= k < |sorted| ==> FileNo(sorted[k].1) == Ok(sorted[k].0)
    ensures InFileOrder(Seqs.Map(sorted, PairName))
  {
    var order := Seqs.Map(sorted, PairName);
    assert forall k :: 0 <= k < |order| ==> sorted[k] == (FileNo(order[k]).value, order[k]);
  }

  /** `[elem for _, elem in sorted(zip(filenos, filenames))]`: the files
      by file number, equal numbers by name. */
  function FileOrder(filenames: seq<string>): (r: Result<seq<string>>)
    ensures r.Ok? <==> FileNos(filenames).Ok?
    ensures r.Err? ==> r.error == ValueError
    ensures r.Ok? ==> multiset(r.value) == multiset(filenames)
    ensures r.Ok? ==> forall f :: f in r.value <==> f in filenames
    ensures r.Ok? ==> InFileOrder(r.value)
  {
    match FileNos(filenames)
    case Err(e) => Err(e)
    case Ok(ns) =>
      var sorted := SortPairs(Zip(ns, filenames));
      var order := Seqs.Map(sorted, PairName);
      ZipKeys(ns, filenames, sorted);
      SortedNamesInOrder(sorted);
      assert multiset(order) == multiset(filenames) by {
        MapPerm(sorted, Zip(ns, filenames), PairName);
        assert Seqs.Map(Zip(ns, filenames), PairName) == filenames;
      }
      SameFiles(order, filenames);
      Ok(order)
  }

  lemma MapConcat<T, U>(a: seq<T>, b: seq<T>, f: T -> U)
    ensures Seqs.Map(a + b, f) == Seqs.Map(a, f) + Seqs.Map(b, f)
  {
  }

  /** Taking item `k` out of a list, and out of its image. */
  lemma RemoveAt<T, U>(t: seq<T>, k: nat, f: T -> U)
    requires k < |t|
    ensures multiset(t) == multiset{t[k]} + multiset(t[..k] + t[k + 1..])
    ensures multiset(Seqs.Map(t, f)) == multiset{f(t[k])} + multiset(Seqs.Map(t[..k] + t[k + 1..], f))
  {
    assert t == t[..k] + [t[k]] + t[k + 1..];
    MapConcat(t[..k] + [t[k]], t[k + 1..], f);
    MapConcat(t[..k], [t[k]], f);
    MapConcat(t[..k], t[k + 1..], f);
  }

  /** Taking the first item off a non-empty list, and off its image. */
  lemma RemoveHead<T, U>(s: seq<T>, f: T -> U)
    requires s != []
    ensures multiset(s) == multiset{s[0]} + multiset(s[1..])
    ensures multiset(Seqs.Map(s, f)) == multiset{f(s[0])} + multiset(Seqs.Map(s[1..], f))
  {
    assert s == [s[0]] + s[1..];
    assert Seqs.Map(s, f) == [f(s[0])] + Seqs.Map(s[1..], f);
  }

  lemma MultisetCancel<T>(x: T, a: multiset<T>, b: multiset<T>)
    requires multiset{x} + a == multiset{x} + b
    ensures a == b
  {
    assert forall y :: a[y] == b[y] by {
      forall y ensures a[y] == b[y] {
        assert (multiset{x} + a)[y] == (multiset{x} + b)[y];
      }
    }
  }

  lemma {:induction false} MapPerm<T, U>(s: seq<T>, t: seq<T>, f: T -> U)
    requires multiset(s) == multiset(t)
    ensures multiset(Seqs.Map(s, f)) == multiset(Seqs.Map(t, f))
    decreases |s|
  {
    if s != [] {
      assert s[0] in multiset(t);
      var k :| 0 <= k < |t| && t[k] == s[0];
      var t' := t[..k] + t[k + 1..];
      RemoveAt(t, k, f);
      RemoveHead(s, f);
      MultisetCancel(s[0], multiset(s[1..]), multiset(t'));
      MapPerm(s[1..], t', f);
    }
  }

  /** The pickled lists of `order`, concatenated in that order. */
  function PickledNames(order: seq<string>, pickles: map<string, seq<Option<string>>>): seq<Option<string>>
    requires forall f :: f in order ==> f in pickles
  {
    if order == [] then [] else PickledNames(order[..|order| - 1], pickles) + pickles[order[|order| - 1]]
  }

  lemma {:induction false} PickledMembers(order: seq<string>, pickles: map<string, seq<Option<string>>>, x: Option<string>)
    requires forall f :: f in order ==> f in pickles
    ensures x in PickledNames(order, pickles) <==> exists f :: f in order && x in pickles[f]
  {
    if order != [] {
      var init, last := order[..|order| - 1], order[|order| - 1];
      assert order == init + [last];
      PickledMembers(init, pickles, x);
      assert forall f :: f in order <==> f in init || f == last;
    }
  }

  /** `for filename in filenames: artist_names.extend(pickle.load(f))` */
  method ExtendFromFiles(files: seq<string>, pickles: map<string, seq<Option<string>>>) returns (names: seq<Option<string>>)
    requires forall f :: f in files ==> f in pickles
    ensures names == PickledNames(files, pickles)
  {
    names := [];
    var i := 0;
    while i < |files|
      invariant 0 <= i <= |files|
      invariant names == PickledNames(files[..i], pickles)
    {
      assert files[..i + 1][..i] == files[..i];
      names := names + pickles[files[i]];
      i := i + 1;
    }
    assert files[..|files|] == files;
  }

  lemma SameFiles(a: seq<string>, b: seq<string>)
    requires multiset(a) == multiset(b)
    ensures forall f :: f in a <==> f in b
  {
    forall f ensures f in a <==> f in b {
      assert f in a <==> f in multiset(a);
      assert f in b <==> f in multiset(b);
    }
  }

  /** The loading statements of `__init__`: every globbed file's list, in
      file-number order. `pickles` maps each file to the list stored in it. */
  method LoadArtistNames(filenames: seq<string>, pickles: map<string, seq<Option<string>>>)
    returns (r: Result<seq<Option<string>>>)
    requires forall f :: f in filenames ==> f in pickles
    ensures r.Err? <==> FileOrder(filenames).Err?
    ensures r.Err? ==> r.error == ValueError
    ensures r.Ok? ==> r.value == PickledNames(FileOrder(filenames).value, pickles)
  {
    var order := FileOrder(filenames);
    if order.Err? {
      return Err(order.error);
    }
    var names := ExtendFromFiles(order.value, pickles);
    return Ok(names);
  }

  /** Every name of every globbed file is loaded, and nothing else. */
  lemma LoadedFromEveryFile(filenames: seq<string>, pickles: map<string, seq<Option<string>>>, x: Option<string>)
    requires forall f :: f in filenames ==> f in pickles
    requires FileOrder(filenames).Ok?
    ensures forall f :: f in FileOrder(filenames).value ==> f in pickles
    ensures x in PickledNames(FileOrder(filenames).value, pickles) <==>
            exists f :: f in filenames && x in pickles[f]
  {
    var order := FileOrder(filenames).value;
    PickledMembers(order, pickles, x);
  }

  // ---------------------------------------------------------------- cleaning in __init__

  /** The names that are not `None`, in order. */
  function Present(s: seq<Option<string>>): (r: seq<string>)
    ensures forall x :: x in r <==> Some(x) in s
  {
    if s == [] then [] else (if s[0].Some? then [s[0].value] else []) + Present(s[1..])
  }

  lemma {:induction false} PresentDistinct(s: seq<Option<string>>)
    requires Seqs.Distinct(s)
    ensures Seqs.Distinct(Present(s))
  {
    if s != [] {
      assert Seqs.Distinct(s[1..]);
      PresentDistinct(s[1..]);
      assert s[0] !in s[1..];
    }
  }

  predicate NonEmpty(name: string)
  {
    |name| > 0
  }

  /** Dedupe, then drop `None`, empty and bracketed names; no lowercasing. */
  function CleanNames(raw: seq<Option<string>>): (r: seq<string>)
    ensures forall x :: x in r <==> Some(x) in raw && ArtistNamesIds.Keep(x)
    ensures Seqs.Distinct(r)
  {
    var present := Present(Seqs.Dedupe(raw));
    PresentDistinct(Seqs.Dedupe(raw));
    Seqs.FilterDistinct(present, NonEmpty);
    Seqs.FilterDistinct(Seqs.Filter(present, NonEmpty), ArtistNamesIds.NoBrackets);
    Seqs.Filter(Seqs.Filter(present, NonEmpty), ArtistNamesIds.NoBrackets)
  }

  /** The cleaning statements of `__init__`. */
  method CleanArtistNames(raw: seq<Option<string>>) returns (names: seq<string>)
    ensures names == CleanNames(raw)
  {
    var deduped := RemoveDuplicatesPreserveOrder(raw);
    names := Present(deduped);
    names := Seqs.Filter(names, NonEmpty);
    names := Seqs.Filter(names, ArtistNamesIds.NoBrackets);
  }

  /** Unlike `load_clean_artist_names`, the names keep their case, so case
      variants of one name are two different names here. */
  lemma CaseVariantsKept()
    ensures CleanNames([Some("ABBA"), Some("abba")]) == ["ABBA", "abba"]
  {
    var raw := [Some("ABBA"), Some("abba")];
    var present := ["ABBA", "abba"];
    assert "abba"[0] != "ABBA"[0];
    assert Seqs.Distinct(raw);
    Seqs.DedupeDistinct(raw);
    assert Present(raw) == present by {
      assert raw[1..] == [Some("abba")];
      assert raw[1..][1..] == [];
    }
    Seqs.FilterAll(present, NonEmpty);
    assert '[' !in present[0] && ']' !in present[0];
    assert '[' !in present[1] && ']' !in present[1];
    Seqs.FilterAll(present, ArtistNamesIds.NoBrackets);
  }

  // ---------------------------------------------------------------- random.sample

  /** `perm` is a draw of `k` distinct positions below `n` */
  predicate Draw(perm: seq<nat>, k: int, n: nat)
  {
    |perm| == k && Seqs.Distinct(perm) && Seqs.InRange(perm, n)
  }

  /** `random.sample(names, k)` when a sample size is given; the random
      generator's choice of positions is the input `perm`. */
  function Sample(names: seq<string>, k: Option<int>, perm: seq<nat>): (r: Result<seq<string>>)
    requires k.Some? && 0 <= k.value <= |names| ==> Draw(perm, k.value, |names|)
    ensures k.None? ==> r == Ok(names)
    ensures r.Err? <==> k.Some? && (k.value < 0 || k.value > |names|)
    ensures r.Err? ==> r.error == ValueError
    ensures r.Ok? && k.Some? ==> |r.value| == k.value
    ensures r.Ok? ==> forall x :: x in r.value ==> x in names
    ensures r.Ok? && Seqs.Distinct(names) ==> Seqs.Distinct(r.value)
  {
    match k
    case None => Ok(names)
    case Some(n) =>
      if n < 0 || n > |names| then Err(ValueError)
      else Ok(Seqs.Pick(names, perm))
  }

  // ---------------------------------------------------------------- get_artist_spotify_ids

  type SearchHit = ArtistInfoHelper.SearchHit

  /** A search hit counts when its lowercased name occurs anywhere in the
      lowercased query. */
  predicate InQuery(h: SearchHit, query: string)
  {
    Contains(Lower(query), Lower(h.name))
  }

  function InQueryTest(query: string): SearchHit -> bool
  {
    h => InQuery(h, query)
  }

  function IdsOf(hits: seq<SearchHit>): (r: seq<string>)
    ensures |r| == |hits| && forall i :: 0 <= i < |hits| ==> r[i] == hits[i].id
  {
    Seqs.Map(hits, (h: SearchHit) => h.id)
  }

  /** A query of more than 50 ' OR '-separated parts, which the search
      refuses. */
  predicate TooManyParts(query: string)
  {
    SplitCount(query, " OR ") > 50
  }

  /** The result of the check-then-search of `get_artist_spotify_ids` for a
      query and the hits (at most 50) the search returns for it. */
  method GetArtistSpotifyIds(query: string, hits: seq<SearchHit>) returns (r: Result<Option<seq<string>>>)
    ensures r.Err? <==> TooManyParts(query)
    ensures r.Err? ==> r.error == ValueError
    ensures r.Ok? ==> (r.value.None? <==> forall h :: h in hits ==> !InQuery(h, query))
    ensures r.Ok? && r.value.Some? ==> r.value.value == IdsOf(Seqs.Filter(hits, InQueryTest(query)))
    ensures r.Ok? && r.value.None? ==> Seqs.Filter(hits, InQueryTest(query)) == []
  {
    if TooManyParts(query) {
      return Err(ValueError);
    }
    var exact: seq<SearchHit> := [];
    var i := 0;
    while i < |hits|
      invariant 0 <= i <= |hits|
      invariant exact == Seqs.Filter(hits[..i], InQueryTest(query))
    {
      Seqs.FilterSnoc(hits[..i], hits[i], InQueryTest(query));
      Seqs.TakeSnoc(hits, i);
      if InQuery(hits[i], query) {
        exact := exact + [hits[i]];
      }
      i := i + 1;
    }
    assert hits[..|hits|] == hits;
    NoExactHits(hits, query);
    if |exact| == 0 {
      return Ok(None);
    }
    return Ok(Some(IdsOf(exact)));
  }

  /** No hit is kept exactly when no hit's name occurs in the query. */
  lemma NoExactHits(hits: seq<SearchHit>, query: string)
    ensures Seqs.Filter(hits, InQueryTest(query)) == [] <==> forall h :: h in hits ==> !InQuery(h, query)
  {
    var exact := Seqs.Filter(hits, InQueryTest(query));
    if exact != [] {
      assert exact[0] in exact;
    }
  }

  /** The ids a query contributes to `artist_ids` (none for `None`). */
  function QueryIds(search: string -> seq<SearchHit>): string -> seq<string>
  {
    q => IdsFor(search, q)
  }

  function IdsFor(search: string -> seq<SearchHit>, q: string): seq<string>
  {
    IdsOf(Seqs.Filter(search(q), InQueryTest(q)))
  }

  // ---------------------------------------------------------------- query packing in get_artist_info

  const Prefix: string := "artists:"

  const MaxQuery: nat := 200

  /** `f'"{name}"' + ' OR '` */
  function Piece(name: string): string
  {
    "\"" + name + "\"" + " OR "
  }

  function Pieces(names: seq<string>): (r: string)
    ensures |r| >= 6 * |names|
  {
    if names == [] then "" else Piece(names[0]) + Pieces(names[1..])
  }

  lemma {:induction false} PiecesSnoc(names: seq<string>, x: string)
    ensures Pieces(names + [x]) == Pieces(names) + Piece(x)
  {
    if names == [] {
      assert Pieces([x]) == Piece(x) + Pieces([]);
    } else {
      assert (names + [x])[1..] == names[1..] + [x];
      PiecesSnoc(names[1..], x);
    }
  }

  /** The unquoted OR-query the packer means to build: each name in double
      quotes, joined by ' OR '. */
  function Quote(name: string): string
  {
    "\"" + name + "\""
  }

  lemma {:induction false} PiecesJoin(names: seq<string>)
    requires names != []
    ensures Pieces(names) == Join(Seqs.Map(names, Quote), " OR ") + " OR "
  {
    if |names| > 1 {
      PiecesJoin(names[1..]);
      assert Seqs.Map(names, Quote)[1..] == Seqs.Map(names[1..], Quote);
    } else {
      assert Pieces(names[1..]) == "";
    }
  }

  /** The inner `while len(query) <= 200 and names` loop run from `query`
      over `names`: the query it leaves and the number of names it pops. */
  function Fill(query: string, names: seq<string>): (r: (string, nat))
    ensures r.1 <= |names|
    decreases |names|
  {
    if |query| <= MaxQuery && names != [] then
      var inner := Fill(query + Piece(names[0]), names[1..]);
      (inner.0, inner.1 + 1)
    else (query, 0)
  }

  /** The popped names are a prefix that is quoted onto the query; at least
      one is popped when the query starts within the limit; the query was
      within the limit before the last one; and names remain only once the
      query is over the limit. */
  lemma {:induction false} FillFacts(query: string, names: seq<string>)
    ensures var r := Fill(query, names);
      && r.0 == query + Pieces(names[..r.1])
      && (|query| <= MaxQuery && names != [] ==> r.1 >= 1)
      && (r.1 >= 1 ==> |query + Pieces(names[..r.1 - 1])| <= MaxQuery)
      && (r.1 < |names| ==> |r.0| > MaxQuery)
    decreases |names|
  {
    if |query| <= MaxQuery && names != [] {
      var inner := Fill(query + Piece(names[0]), names[1..]);
      FillFacts(query + Piece(names[0]), names[1..]);
      assert names[..inner.1 + 1] == [names[0]] + names[1..][..inner.1];
      if inner.1 >= 1 {
        assert names[..inner.1] == [names[0]] + names[1..][..inner.1 - 1];
      }
    }
  }

  /** One turn of the inner loop. */
  lemma FillStep(query: string, names: seq<string>)
    requires |query| <= MaxQuery && names != []
    ensures var inner := Fill(query + Piece(names[0]), names[1..]);
      Fill(query, names).0 == inner.0 && Fill(query, names).1 == inner.1 + 1
  {
  }

  /** The inner loop's exit. */
  lemma FillStop(query: string, names: seq<string>)
    requires |query| > MaxQuery || names == []
    ensures Fill(query, names) == (query, 0)
  {
  }

  lemma PiecesStep(names: seq<string>, k: nat)
    requires k < |names|
    ensures Pieces(names[..k + 1]) == Pieces(names[..k]) + Piece(names[k])
  {
    Seqs.TakeSnoc(names, k);
    PiecesSnoc(names[..k], names[k]);
  }

  /** A name fits when its query alone, 'artists:"name"', is within the limit. */
  predicate Fits(name: string)
  {
    |Prefix| + |name| + 2 <= MaxQuery
  }

  predicate AllFit(names: seq<string>)
  {
    forall i :: 0 <= i < |names| ==> Fits(names[i])
  }

  /** The query of a group of names: the open query with the last `drop`
      characters removed. The loop drops the final ' OR ' (4 characters)
      when the group is complete; when a name was put back it drops only
      `cut - 2` characters of the ' OR ' before that name. */
  function Render(group: seq<string>, trimmed: bool, cut: nat): string
    requires group != [] && 2 <= cut <= 6
  {
    var open := Prefix + Pieces(group);
    open[..|open| - (if trimmed then cut - 2 else 4)]
  }

  /** The inner loop from 'artists:' pops at least one name, and its
      query ends with the last popped name's piece. */
  lemma FillLast(names: seq<string>)
    requires names != []
    ensures Fill(Prefix, names).1 >= 1
    ensures var f := Fill(Prefix, names); var open := Prefix + Pieces(names[..f.1 - 1]);
      f.0 == open + Piece(names[f.1 - 1])
  {
    FillFacts(Prefix, names);
    var f := Fill(Prefix, names);
    var k := f.1;
    var n := names[k - 1];
    assert names[..k] == names[..k - 1] + [n];
    PiecesSnoc(names[..k - 1], n);
    Seqs.Assoc(Prefix, Pieces(names[..k - 1]), Piece(n));
  }
  /** With the final ' OR ' dropped the query is the pieces of all but the
      last popped name followed by that name in quotes. */
  lemma FillTrim(names: seq<string>)
    requires names != []
    ensures Fill(Prefix, names).1 >= 1
    ensures var f := Fill(Prefix, names); var open := Prefix + Pieces(names[..f.1 - 1]);
      |f.0| >= 4 && f.0[..|f.0| - 4] == open + Quote(names[f.1 - 1])
  {
    FillLast(names);
    var f := Fill(Prefix, names);
    var k := f.1;
    var n := names[k - 1];
    var open := Prefix + Pieces(names[..k - 1]);
    Seqs.Assoc(open, Quote(n), " OR ");
    Seqs.PrefixOfAppend(open + Quote(n), " OR ");
  }
  /** The query before the last popped name is within the limit; it is
      bare 'artists:' when only one name was popped, and otherwise the
      first name fits alone. */
  lemma FillOpen(names: seq<string>)
    requires names != []
    ensures Fill(Prefix, names).1 >= 1
    ensures var f := Fill(Prefix, names); var open := Prefix + Pieces(names[..f.1 - 1]);
      && |open| <= MaxQuery
      && (f.1 == 1 ==> open == Prefix)
      && (f.1 >= 2 ==> Fits(names[0]))
  {
    FillFacts(Prefix, names);
    var f := Fill(Prefix, names);
    var k := f.1;
    var open := Prefix + Pieces(names[..k - 1]);
    if k >= 2 {
      var s := names[..k - 1];
      assert s[0] == names[0];
      assert Pieces(s) == Piece(names[0]) + Pieces(s[1..]);
      assert |open| >= |Prefix| + |names[0]| + 6;
    } else {
      assert names[..k - 1] == [];
    }
  }


  /** One turn of the outer loop with `query[:-len(last_name)-cut]` as the
      trim; the source has `cut` = 4. Its query, the number of names it
      consumes, and whether the last popped name was put back. */
  function Step(names: seq<string>, cut: nat): (r: (string, nat, bool))
    requires names != [] && 4 <= cut <= 6
    ensures r.1 <= |names|
  {
    FillTrim(names);
    FillOpen(names);
    var f := Fill(Prefix, names);
    var q := f.0[..|f.0| - 4];
    var n := names[f.1 - 1];
    if |q| > MaxQuery then (q[..|q| - |n| - cut], f.1 - 1, true)
    else (q, f.1, false)
  }

  /** A turn consumes no name exactly when the first name does not fit
      alone; otherwise its query is the rendering of the names it consumes
      and is within the limit, and a name is put back only when one
      remains. */
  lemma StepFacts(names: seq<string>, cut: nat)
    requires names != [] && 4 <= cut <= 6
    ensures var r := Step(names, cut);
      && (r.1 == 0 <==> !Fits(names[0]))
      && (r.1 >= 1 ==> r.0 == Render(names[..r.1], r.2, cut))
      && (r.2 ==> r.1 < |names|)
      && (r.1 >= 1 ==> |r.0| <= MaxQuery)
  {
    FillTrim(names);
    FillOpen(names);
    var f := Fill(Prefix, names);
    var k := f.1;
    var q := f.0[..|f.0| - 4];
    var n := names[k - 1];
    var open := Prefix + Pieces(names[..k - 1]);
    if |q| > MaxQuery {
      assert q[..|q| - |n| - cut] == open[..|open| - (cut - 2)];
    } else {
      FillFacts(Prefix, names);
      assert k == 1 ==> names[0] == n;
    }
  }



  /** `Step` read as the statements of the outer loop's turn, after the
      inner loop has left the query and number of popped names of `Fill`. */
  lemma StepParts(names: seq<string>)
    requires names != []
    ensures Fill(Prefix, names).1 >= 1
    ensures |Fill(Prefix, names).0| >= |names[Fill(Prefix, names).1 - 1]| + 8
    ensures var f := Fill(Prefix, names); var q := f.0[..|f.0| - 4]; var n := names[f.1 - 1];
      Step(names, 4) == if |q| > MaxQuery then (q[..|q| - |n| - 4], f.1 - 1, true) else (q, f.1, false)
  {
    FillTrim(names);
    FillOpen(names);
    assert Fill(Prefix, names).1 <= |names|;
  }

  /** A name too long to fit alone is popped and put straight back, with
      'artist' as the query: the names do not change, so the outer loop of
      the source never ends. */
  lemma LongNameNoProgress(names: seq<string>)
    requires names != [] && !Fits(names[0])
    ensures Step(names, 4).1 == 0 && Step(names, 4).0 == "artist"
  {
    FillOpen(names);
    var inner := Fill(Prefix + Piece(names[0]), names[1..]);
    assert inner == (Prefix + Piece(names[0]), 0);
  }

  /** With every name fitting, a turn consumes at least one name and the
      rest still fit. */
  lemma StepRestFits(names: seq<string>, cut: nat)
    requires names != [] && AllFit(names) && 4 <= cut <= 6
    ensures Step(names, cut).1 >= 1
    ensures AllFit(names[Step(names, cut).1..])
  {
    StepFacts(names, cut);
    var k := Step(names, cut).1;
    assert Fits(names[0]);
    forall i | 0 <= i < |names[k..]| ensures Fits(names[k..][i]) {
      assert names[k..][i] == names[k + i];
    }
  }

  /** One query of the packing: its text, the names it covers, and whether
      the name after them was put back. */
  datatype Packed = Packed(query: string, group: seq<string>, trimmed: bool)

  /** The queries the outer loop builds, in order, with trim `cut`. */
  function Packing(names: seq<string>, cut: nat): (r: seq<Packed>)
    requires AllFit(names) && 4 <= cut <= 6
    ensures |r| <= |names| && (names != [] ==> r != [])
    decreases |names|
  {
    if names == [] then []
    else
      var st := Step(names, cut);
      StepRestFits(names, cut);
      var rest := Packing(names[st.1..], cut);
      [Packed(st.0, names[..st.1], st.2)] + rest
  }

  /** Each query of the packing covers a non-empty group, is that group's
      rendering, stays within 200 characters, and is followed by another
      query when its last name was put back. */
  lemma {:induction false} PackingShape(names: seq<string>, cut: nat, i: nat)
    requires AllFit(names) && 4 <= cut <= 6 && i < |Packing(names, cut)|
    ensures var p := Packing(names, cut)[i];
      && p.group != [] && p.query == Render(p.group, p.trimmed, cut)
      && |p.query| <= MaxQuery
      && (p.trimmed ==> i + 1 < |Packing(names, cut)|)
    decreases |names|
  {
    StepFacts(names, cut);
    var st := Step(names, cut);
    assert Fits(names[0]);
    assert AllFit(names[st.1..]) by {
      forall j | 0 <= j < |names[st.1..]| ensures Fits(names[st.1..][j]) {
        assert names[st.1..][j] == names[st.1 + j];
      }
    }
    var rest := Packing(names[st.1..], cut);
    assert Packing(names, cut) == [Packed(st.0, names[..st.1], st.2)] + rest;
    if i > 0 {
      PackingShape(names[st.1..], cut, i - 1);
      assert Packing(names, cut)[i] == rest[i - 1];
    }
  }

  /** The first query of a non-empty packing is the outer loop's first turn. */
  lemma PackingCons(names: seq<string>, cut: nat)
    requires names != [] && AllFit(names) && 4 <= cut <= 6
    ensures Step(names, cut).1 >= 1 && AllFit(names[Step(names, cut).1..])
    ensures var st := Step(names, cut);
      Packing(names, cut) == [Packed(st.0, names[..st.1], st.2)] + Packing(names[st.1..], cut)
  {
    StepRestFits(names, cut);
  }

  function Queries(ps: seq<Packed>): (r: seq<string>)
    ensures |r| == |ps| && forall i :: 0 <= i < |ps| ==> r[i] == ps[i].query
  {
    Seqs.Map(ps, (p: Packed) => p.query)
  }

  function GroupsOf(ps: seq<Packed>): (r: seq<seq<string>>)
    ensures |r| == |ps| && forall i :: 0 <= i < |ps| ==> r[i] == ps[i].group
  {
    Seqs.Map(ps, (p: Packed) => p.group)
  }

  lemma GroupsCons(p: Packed, ps: seq<Packed>)
    ensures Seqs.Flatten(GroupsOf([p] + ps)) == p.group + Seqs.Flatten(GroupsOf(ps))
  {
    assert GroupsOf([p] + ps) == [p.group] + GroupsOf(ps);
    assert ([p.group] + GroupsOf(ps))[1..] == GroupsOf(ps);
  }

  /** A group that takes the first `k` names, followed by groups that
      consume the rest, consumes all of them. */
  lemma GroupsSplit(p: Packed, ps: seq<Packed>, names: seq<string>, k: nat)
    requires k <= |names| && p.group == names[..k] && Seqs.Flatten(GroupsOf(ps)) == names[k..]
    ensures Seqs.Flatten(GroupsOf([p] + ps)) == names
  {
    GroupsCons(p, ps);
    assert names == names[..k] + names[k..];
  }

  /** The groups of the packing, read in order, are the names: every name
      is consumed once, from the front. */
  lemma {:induction false} PackingConsumesAll(names: seq<string>, cut: nat)
    requires AllFit(names) && 4 <= cut <= 6
    ensures Seqs.Flatten(GroupsOf(Packing(names, cut))) == names
    decreases |names|
  {
    if names != [] {
      PackingCons(names, cut);
      var st := Step(names, cut);
      var rest := Packing(names[st.1..], cut);
      PackingConsumesAll(names[st.1..], cut);
      GroupsSplit(Packed(st.0, names[..st.1], st.2), rest, names, st.1);
    }
  }

  /** Every query starts with 'artists:'. */
  lemma PackedQueryPrefix(names: seq<string>, cut: nat, i: nat)
    requires AllFit(names) && 4 <= cut <= 6 && i < |Packing(names, cut)|
    ensures |Packing(names, cut)[i].query| >= |Prefix|
    ensures Packing(names, cut)[i].query[..|Prefix|] == Prefix
  {
    PackingShape(names, cut, i);
    var p := Packing(names, cut)[i];
    var open := Prefix + Pieces(p.group);
    assert |Pieces(p.group)| >= 6;
    assert open[..|Prefix|] == Prefix;
  }

  /** As written, a query whose last name was put back ends in the ' O' left
      of the ' OR ' before that name. */
  lemma TrimmedQueryRemnant(group: seq<string>)
    requires group != []
    ensures Render(group, true, 4) == Prefix + Join(Seqs.Map(group, Quote), " OR ") + " O"
  {
    PiecesJoin(group);
  }

  /** With `cut` = 6 every query is exactly the OR of its group, whether or
      not a name was put back. */
  lemma ExactQueries(names: seq<string>, i: nat)
    requires AllFit(names) && i < |Packing(names, 6)|
    ensures Packing(names, 6)[i].query == Prefix + Join(Seqs.Map(Packing(names, 6)[i].group, Quote), " OR ")
  {
    PackingShape(names, 6, i);
    PiecesJoin(Packing(names, 6)[i].group);
  }

  // ---------------------------------------------------------------- the columnar artist record

  /** A value in one of the record's columns. */
  datatype Value = Num(n: int) | Txt(s: string)

  /** `artist_info`: column name to column. */
  type Info = map<string, seq<Value>>

  const InfoKeys: seq<string> := ["ids", "names", "popularity", "followers", "genres",
                                  "first_release", "last_release", "num_releases", "num_tracks"]

  const NumericKeys: seq<string> := ["popularity", "first_release", "last_release", "num_releases", "num_tracks"]

  /** The record `get_artist_info` returns: the nine keys, all empty. */
  function EmptyRecord(): (r: Info)
    ensures forall k :: k in r <==> k in InfoKeys
    ensures forall k :: k in r ==> r[k] == []
  {
    map k | k in InfoKeys :: []
  }

  /** Every column as long as 'num_releases', and the columns the filters
      compare hold numbers. */
  predicate WellFormed(info: Info)
  {
    && "num_releases" in info
    && (forall k :: k in info ==> |info[k]| == |info["num_releases"]|)
    && (forall k :: k in NumericKeys ==> k in info && forall i :: 0 <= i < |info[k]| ==> info[k][i].Num?)
  }

  function Height(info: Info): nat
    requires "num_releases" in info
  {
    |info["num_releases"]|
  }

  lemma EmptyRecordWellFormed()
    ensures WellFormed(EmptyRecord()) && Height(EmptyRecord()) == 0
  {
  }

  /** The numeric fields of one row. */
  datatype Stats = Stats(popularity: int, firstRelease: int, lastRelease: int, numReleases: int, numTracks: int)

  function NumAt(info: Info, key: string, i: nat): int
  {
    if key in info && i < |info[key]| && info[key][i].Num? then info[key][i].n else 0
  }

  function RowOf(info: Info, i: nat): Stats
  {
    Stats(NumAt(info, "popularity", i), NumAt(info, "first_release", i), NumAt(info, "last_release", i),
          NumAt(info, "num_releases", i), NumAt(info, "num_tracks", i))
  }

  function RowTest(info: Info, p: Stats -> bool): nat -> bool
  {
    (i: nat) => p(RowOf(info, i))
  }

  /** The positions whose row passes `p`, in increasing order. */
  function Kept(info: Info, p: Stats -> bool): (r: seq<nat>)
    requires WellFormed(info)
    ensures Seqs.InRange(r, Height(info)) && Seqs.Increasing(r)
    ensures forall i: nat :: i in r <==> i < Height(info) && p(RowOf(info, i))
  {
    Seqs.FilterIndices(Height(info), RowTest(info, p));
    assert forall i: nat :: i in Seqs.Indices(Height(info)) <==> i < Height(info) by {
      forall i: nat | i < Height(info) ensures i in Seqs.Indices(Height(info)) {
        assert Seqs.Indices(Height(info))[i] == i;
      }
    }
    Seqs.Filter<nat>(Seqs.Indices(Height(info)), RowTest(info, p))
  }

  /** Every column indexed by the same positions. */
  function Where(info: Info, idx: seq<nat>): (r: Info)
    requires WellFormed(info) && Seqs.InRange(idx, Height(info))
    ensures r.Keys == info.Keys && WellFormed(r) && Height(r) == |idx|
    ensures forall k :: k in info ==> r[k] == Seqs.Pick(info[k], idx)
  {
    map k | k in info :: Seqs.Pick(info[k], idx)
  }

  lemma RowOfWhere(info: Info, idx: seq<nat>, j: nat)
    requires WellFormed(info) && Seqs.InRange(idx, Height(info)) && j < |idx|
    ensures RowOf(Where(info, idx), j) == RowOf(info, idx[j])
  {
  }

  lemma WhereWhere(info: Info, a: seq<nat>, b: seq<nat>)
    requires WellFormed(info) && Seqs.InRange(a, Height(info)) && Seqs.InRange(b, |a|)
    ensures Seqs.InRange(Seqs.Pick(a, b), Height(info))
    ensures Where(Where(info, a), b) == Where(info, Seqs.Pick(a, b))
  {
    forall k | k in info ensures Where(Where(info, a), b)[k] == Where(info, Seqs.Pick(a, b))[k] {
      Seqs.PickPick(info[k], a, b);
    }
  }

  /** `{key: np.array(info[key])[cnd] for key in info.keys()}` with
      `cnd` the test `p` on each row: one mask applied to every column. */
  function Stage(info: Info, p: Stats -> bool): (r: Info)
    requires WellFormed(info)
    ensures r.Keys == info.Keys && WellFormed(r) && Height(r) == |Kept(info, p)| <= Height(info)
    ensures forall j: nat :: j < Height(r) ==> p(RowOf(r, j))
  {
    var idx := Kept(info, p);
    var r := Where(info, idx);
    assert forall j: nat :: j < Height(r) ==> p(RowOf(r, j)) by {
      forall j: nat | j < Height(r) ensures p(RowOf(r, j)) {
        RowOfWhere(info, idx, j);
        assert idx[j] in idx;
      }
    }
    r
  }

  /** Two masks in a row are one mask on both tests. */
  lemma StageStage(info: Info, p: Stats -> bool, q: Stats -> bool, pq: Stats -> bool)
    requires WellFormed(info)
    requires forall s :: pq(s) == (p(s) && q(s))
    ensures Stage(Stage(info, p), q) == Stage(info, pq)
  {
    var a := Kept(info, p);
    var s1 := Where(info, a);
    var h := Height(info);
    forall j | 0 <= j < |Seqs.Indices(|a|)|
      ensures RowTest(s1, q)(Seqs.Indices(|a|)[j]) == Seqs.Through(a, RowTest(info, q))(Seqs.Indices(|a|)[j])
    {
      RowOfWhere(info, a, j);
    }
    Seqs.FilterCongruence<nat>(Seqs.Indices(|a|), RowTest(s1, q), Seqs.Through(a, RowTest(info, q)));
    Seqs.PickFilter(a, RowTest(info, q));
    forall x: nat ensures RowTest(info, pq)(x) == (RowTest(info, p)(x) && RowTest(info, q)(x)) {
      assert pq(RowOf(info, x)) == (p(RowOf(info, x)) && q(RowOf(info, x)));
    }
    Seqs.FilterFilter<nat>(Seqs.Indices(h), RowTest(info, p), RowTest(info, q), RowTest(info, pq));
    WhereWhere(info, a, Kept(s1, q));
  }

  /** A mask depends only on what its test says about each row. */
  lemma StageCongruence(info: Info, p: Stats -> bool, q: Stats -> bool)
    requires WellFormed(info)
    requires forall s :: p(s) == q(s)
    ensures Stage(info, p) == Stage(info, q)
  {
    forall i | 0 <= i < Height(info)
      ensures RowTest(info, p)(Seqs.Indices(Height(info))[i]) == RowTest(info, q)(Seqs.Indices(Height(info))[i])
    {
      assert p(RowOf(info, i)) == q(RowOf(info, i));
    }
    Seqs.FilterCongruence<nat>(Seqs.Indices(Height(info)), RowTest(info, p), RowTest(info, q));
  }

  // ---------------------------------------------------------------- the cohort filters

  /** cnd0 of every filter: at least one release. */
  function HasReleases(): Stats -> bool
  {
    (s: Stats) => s.numReleases > 0
  }

  /** cnd1 of `clean_unproductive_artists`. */
  function Productive(year: int): Stats -> bool
  {
    (s: Stats) => s.numReleases > 2 || s.lastRelease > year - 5
  }

  /** cnd2 of `clean_unproductive_artists` and `get_active_artists`: not a
      hobbyist with fewer tracks than years since the first release. */
  function NotHobbyist(year: int): Stats -> bool
  {
    (s: Stats) => year - s.firstRelease > 10 || year - s.firstRelease < 2 || s.numTracks > year - s.firstRelease
  }

  /** cnd1 of `get_active_artists`. */
  function Recent(year: int): Stats -> bool
  {
    (s: Stats) => s.lastRelease > year - 5
  }

  /** cnd1 of `get_legacy_artists`. */
  function Retired(year: int): Stats -> bool
  {
    (s: Stats) => s.numReleases > 2 && s.lastRelease < year - 5
  }

  /** cnd1 of `get_famous_legacy_artists`. */
  function FamousRetired(year: int): Stats -> bool
  {
    (s: Stats) => s.numReleases > 2 && s.lastRelease < year - 5 && s.popularity > 50
  }

  function Popular(): Stats -> bool
  {
    (s: Stats) => s.popularity > 50
  }

  function CleanMasks(year: int): seq<Stats -> bool> { [HasReleases(), Productive(year), NotHobbyist(year)] }

  function ActiveMasks(year: int): seq<Stats -> bool> { [HasReleases(), Recent(year), NotHobbyist(year)] }

  function LegacyMasks(year: int): seq<Stats -> bool> { [HasReleases(), Retired(year)] }

  function FamousLegacyMasks(year: int): seq<Stats -> bool> { [HasReleases(), FamousRetired(year)] }

  /** The masks applied one after the other, each computed on the record
      the previous one left; an empty mask selects nothing. */
  function Stages(info: Info, masks: seq<Stats -> bool>): (r: Info)
    requires WellFormed(info)
    ensures r.Keys == info.Keys && WellFormed(r) && Height(r) <= Height(info)
  {
    if masks == [] then info else Stage(Stages(info, masks[..|masks| - 1]), masks[|masks| - 1])
  }

  /** The same with numpy's indexing as the source meets it: a mask built
      from an empty column is `np.array([])`, a float array, and indexing
      with it raises `IndexError`. */
  function StagesAsWritten(info: Info, masks: seq<Stats -> bool>): (r: Result<Info>)
    requires WellFormed(info)
  {
    if masks == [] then Ok(info)
    else
      match StagesAsWritten(info, masks[..|masks| - 1])
      case Err(e) => Err(e)
      case Ok(cut) => if Height(cut) == 0 then Err(IndexError) else Ok(Stage(cut, masks[|masks| - 1]))
  }

  /** A stage never adds rows. */
  lemma StagesShrink(info: Info, masks: seq<Stats -> bool>)
    requires WellFormed(info) && masks != []
    ensures Height(Stages(info, masks)) <= Height(Stages(info, masks[..|masks| - 1]))
  {
  }

  /** As written, the filters raise exactly when the record entering the
      last mask is empty; otherwise they agree with `Stages`. */
  lemma {:induction false} AsWrittenRaisesOnEmpty(info: Info, masks: seq<Stats -> bool>)
    requires WellFormed(info)
    ensures StagesAsWritten(info, masks).Err? <==> masks != [] && Height(Stages(info, masks[..|masks| - 1])) == 0
    ensures StagesAsWritten(info, masks).Err? ==> StagesAsWritten(info, masks).error == IndexError
    ensures StagesAsWritten(info, masks).Ok? ==> StagesAsWritten(info, masks).value == Stages(info, masks)
  {
    if masks != [] {
      var init := masks[..|masks| - 1];
      AsWrittenRaisesOnEmpty(info, init);
      if init != [] {
        StagesShrink(info, init);
      }
    }
  }


  /** The record a constructed `ArtistNames` holds is empty, so as written
      every cohort method raises `IndexError` on it. */
  lemma ConstructedRecordRaises(year: int)
    ensures WellFormed(EmptyRecord())
    ensures StagesAsWritten(EmptyRecord(), CleanMasks(year)) == Err(IndexError)
    ensures StagesAsWritten(EmptyRecord(), ActiveMasks(year)) == Err(IndexError)
    ensures StagesAsWritten(EmptyRecord(), LegacyMasks(year)) == Err(IndexError)
    ensures StagesAsWritten(EmptyRecord(), FamousLegacyMasks(year)) == Err(IndexError)
  {
    var e := EmptyRecord();
    AsWrittenRaisesOnEmpty(e, CleanMasks(year));
    AsWrittenRaisesOnEmpty(e, ActiveMasks(year));
    AsWrittenRaisesOnEmpty(e, LegacyMasks(year));
    AsWrittenRaisesOnEmpty(e, FamousLegacyMasks(year));
  }

  /** The three masks of `clean_unproductive_artists` as one test. */
  function CleanTest(year: int): Stats -> bool
  {
    (s: Stats) => HasReleases()(s) && Productive(year)(s) && NotHobbyist(year)(s)
  }

  /** The three masks of `get_active_artists` as one test. */
  function ActiveTest(year: int): Stats -> bool
  {
    (s: Stats) => s.numReleases > 0 && s.lastRelease > year - 5 && NotHobbyist(year)(s)
  }

  function LegacyTest(year: int): Stats -> bool
  {
    (s: Stats) => s.numReleases > 0 && Retired(year)(s)
  }

  function FamousLegacyTest(year: int): Stats -> bool
  {
    (s: Stats) => s.numReleases > 0 && FamousRetired(year)(s)
  }

  lemma ThreeStages(info: Info, masks: seq<Stats -> bool>, all: Stats -> bool)
    requires WellFormed(info) && |masks| == 3
    requires forall s :: all(s) == (masks[0](s) && masks[1](s) && masks[2](s))
    ensures Stages(info, masks) == Stage(info, all)
  {
    var m01 := (s: Stats) => masks[0](s) && masks[1](s);
    TwoStages(info, masks[..2], m01);
    assert masks[..2] == masks[..|masks| - 1];
    var mid := Stages(info, masks[..2]);
    assert Stages(info, masks) == Stage(mid, masks[2]);
    StageStage(info, m01, masks[2], all);
  }

  lemma TwoStages(info: Info, masks: seq<Stats -> bool>, all: Stats -> bool)
    requires WellFormed(info) && |masks| == 2
    requires forall s :: all(s) == (masks[0](s) && masks[1](s))
    ensures Stages(info, masks) == Stage(info, all)
  {
    var first := masks[..1];
    assert first[..0] == [] && first[0] == masks[0] && first == masks[..|masks| - 1];
    var s0 := Stages(info, first[..0]);
    assert s0 == info;
    var s1 := Stages(info, first);
    assert s1 == Stage(s0, masks[0]);
    assert Stages(info, masks) == Stage(s1, masks[1]);
    StageStage(info, masks[0], masks[1], all);
  }

  /** `clean_unproductive_artists` keeps exactly the rows that pass all of
      its tests, in their order, in every column. */
  lemma CleanIsOneMask(info: Info, year: int)
    requires WellFormed(info)
    ensures Stages(info, CleanMasks(year)) == Where(info, Kept(info, CleanTest(year)))
  {
    ThreeStages(info, CleanMasks(year), CleanTest(year));
  }

  /** Every active row has releases, released within five years, and is no
      hobbyist; and these are all the rows kept. */
  lemma ActiveRows(info: Info, year: int)
    requires WellFormed(info)
    ensures Stages(info, ActiveMasks(year)) == Where(info, Kept(info, ActiveTest(year)))
    ensures forall j: nat :: j < Height(Stages(info, ActiveMasks(year))) ==>
      var s := RowOf(Stages(info, ActiveMasks(year)), j);
      s.numReleases > 0 && s.lastRelease > year - 5 &&
      (year - s.firstRelease > 10 || year - s.firstRelease < 2 || s.numTracks > year - s.firstRelease)
  {
    ThreeStages(info, ActiveMasks(year), ActiveTest(year));
    var r := Stages(info, ActiveMasks(year));
    forall j: nat | j < Height(r)
      ensures RowOf(r, j).numReleases > 0 && RowOf(r, j).lastRelease > year - 5 && NotHobbyist(year)(RowOf(r, j))
    {
      assert ActiveTest(year)(RowOf(r, j));
    }
  }

  /** The active artists are the cleaned artists that released within
      five years: every active row also passes the unproductive filter. */
  lemma ActiveWithinClean(info: Info, year: int)
    requires WellFormed(info)
    ensures Stages(info, ActiveMasks(year)) == Stage(Stages(info, CleanMasks(year)), Recent(year))
  {
    ThreeStages(info, CleanMasks(year), CleanTest(year));
    ThreeStages(info, ActiveMasks(year), ActiveTest(year));
    var both := (s: Stats) => CleanTest(year)(s) && Recent(year)(s);
    StageStage(info, CleanTest(year), Recent(year), both);
    StageCongruence(info, both, ActiveTest(year));
  }

  /** The famous legacy artists are the legacy artists with popularity
      above 50. */
  lemma FamousWithinLegacy(info: Info, year: int)
    requires WellFormed(info)
    ensures Stages(info, FamousLegacyMasks(year)) == Stage(Stages(info, LegacyMasks(year)), Popular())
  {
    TwoStages(info, LegacyMasks(year), LegacyTest(year));
    TwoStages(info, FamousLegacyMasks(year), FamousLegacyTest(year));
    var both := (s: Stats) => LegacyTest(year)(s) && Popular()(s);
    StageStage(info, LegacyTest(year), Popular(), both);
    StageCongruence(info, both, FamousLegacyTest(year));
  }

  /** No row of the record is both active and legacy, and a row whose last
      release is exactly five years back is in neither. */
  lemma ActiveLegacyDisjoint(info: Info, year: int)
    requires WellFormed(info)
    ensures Stages(info, ActiveMasks(year)) == Where(info, Kept(info, ActiveTest(year)))
    ensures Stages(info, LegacyMasks(year)) == Where(info, Kept(info, LegacyTest(year)))
    ensures forall i: nat :: !(i in Kept(info, ActiveTest(year)) && i in Kept(info, LegacyTest(year)))
    ensures forall i: nat :: RowOf(info, i).lastRelease == year - 5 ==>
      i !in Kept(info, ActiveTest(year)) && i !in Kept(info, LegacyTest(year))
  {
    ThreeStages(info, ActiveMasks(year), ActiveTest(year));
    TwoStages(info, LegacyMasks(year), LegacyTest(year));
  }

  // ---------------------------------------------------------------- get_artist_num_tracks

  /** The batching of `get_artist_num_tracks`: albums are requested 20 at a
      time, and `albums` gives each album's `total_tracks` for a batch. */
  method GetArtistNumTracks(albumIds: seq<string>, albums: seq<string> -> seq<int>) returns (numTracks: int)
    ensures numTracks == Seqs.Sum(Seqs.FlatMap(Seqs.Chunks(albumIds, 20), albums))
  {
    var batches := Seqs.Chunks(albumIds, 20);
    numTracks := 0;
    var i := 0;
    while i < |batches|
      invariant 0 <= i <= |batches|
      invariant numTracks == Seqs.Sum(Seqs.FlatMap(batches[..i], albums))
    {
      Seqs.TakeSnoc(batches, i);
      Seqs.FlatMapSnoc(batches[..i], batches[i], albums);
      Seqs.SumConcat(Seqs.FlatMap(batches[..i], albums), albums(batches[i]));
      numTracks := numTracks + Seqs.Sum(albums(batches[i]));
      i := i + 1;
    }
    assert batches[..|batches|] == batches;
  }

  /** When the service answers each album with its own track count, the
      total is the sum over all albums, whatever the batching. */
  lemma NumTracksIsSum(albumIds: seq<string>, tracks: string -> int)
    ensures Seqs.Sum(Seqs.FlatMap(Seqs.Chunks(albumIds, 20), Seqs.MapWith(tracks))) == Seqs.Sum(Seqs.Map(albumIds, tracks))
  {
    Seqs.FlatMapMap(Seqs.Chunks(albumIds, 20), tracks);
  }

  lemma QueriesCons(p: Packed, ps: seq<Packed>)
    ensures Queries([p] + ps) == [p.query] + Queries(ps)
  {
  }

  /** Peeling the first query off the packing. */
  lemma PackingQueriesCons(names: seq<string>)
    requires names != [] && AllFit(names)
    ensures Step(names, 4).1 >= 1
    ensures AllFit(names[Step(names, 4).1..])
    ensures Queries(Packing(names, 4)) == [Step(names, 4).0] + Queries(Packing(names[Step(names, 4).1..], 4))
  {
    PackingCons(names, 4);
    var st := Step(names, 4);
    QueriesCons(Packed(st.0, names[..st.1], st.2), Packing(names[st.1..], 4));
  }

  /** One query of the search loop: the ids `get_artist_spotify_ids`
      returns, with `None` contributing nothing. */
  method QueryArtistIds(query: string, search: string -> seq<SearchHit>) returns (r: Result<seq<string>>)
    ensures r.Err? <==> TooManyParts(query)
    ensures r.Err? ==> r.error == ValueError
    ensures r.Ok? ==> r.value == QueryIds(search)(query)
  {
    var found := GetArtistSpotifyIds(query, search(query));
    if found.Err? {
      return Err(found.error);
    }
    if found.value.Some? {
      return Ok(found.value.value);
    }
    return Ok([]);
  }

  /** The search loop of `get_artist_info`: each query's matched ids in
      turn; the first query with more than 50 ' OR ' parts raises. */
  method SearchQueries(queries: seq<string>, search: string -> seq<SearchHit>) returns (r: Result<seq<string>>)
    ensures r.Ok? <==> forall i :: 0 <= i < |queries| ==> !TooManyParts(queries[i])
    ensures r.Err? ==> r.error == ValueError
    ensures r.Ok? ==> r.value == Seqs.Flatten(Seqs.Map(queries, QueryIds(search)))
  {
    var ids := [];
    var i := 0;
    while i < |queries|
      invariant 0 <= i <= |queries|
      invariant forall j :: 0 <= j < i ==> !TooManyParts(queries[j])
      invariant ids == Seqs.Flatten(Seqs.Map(queries[..i], QueryIds(search)))
    {
      var found := QueryArtistIds(queries[i], search);
      if found.Err? {
        return Err(ValueError);
      }
      Seqs.MapFlattenStep(queries, QueryIds(search), i);
      ids := ids + found.value;
      i := i + 1;
    }
    assert queries[..i] == queries;
    return Ok(ids);
  }


  // ---------------------------------------------------------------- the ArtistNames object

  class ArtistNames {
    const currentYear: int
    var artistNames: seq<string>
    var artistInfo: Info

    constructor (currentYear: int, names: seq<string>)
      ensures this.currentYear == currentYear && artistNames == names && artistInfo == map[]
    {
      this.currentYear := currentYear;
      artistNames := names;
      artistInfo := map[];
    }

    /** The inner loop of the packing in `get_artist_info`: names are
        popped from the front into the query while it is at most 200
        characters long. */
    method PopIntoQuery() returns (query: string, lastName: string)
      requires artistNames != []
      modifies this
      ensures var f := Fill(Prefix, old(artistNames));
        && f.1 >= 1 && query == f.0 && artistNames == old(artistNames)[f.1..]
        && lastName == old(artistNames)[f.1 - 1]
      ensures artistInfo == old(artistInfo)
    {
      var start := artistNames;
      var k := 0;
      query := Prefix;
      lastName := start[0];
      while |query| <= MaxQuery && k < |start|
        invariant k <= |start|
        invariant Fill(Prefix, start) == (Fill(query, start[k..]).0, k + Fill(query, start[k..]).1)
        invariant k >= 1 ==> lastName == start[k - 1]
        invariant artistInfo == old(artistInfo)
      {
        FillStep(query, start[k..]);
        assert start[k..][1..] == start[k + 1..];
        lastName := start[k];
        query := query + Piece(start[k]);
        k := k + 1;
      }
      FillStop(query, start[k..]);
      FillFacts(Prefix, start);
      artistNames := start[k..];
    }

    /** One turn of the outer packing loop: the final ' OR ' is dropped, and
        if the query is then too long the last name is put back in front
        and cut off again. */
    method NextQuery() returns (query: string)
      requires artistNames != []
      modifies this
      ensures var st := Step(old(artistNames), 4); query == st.0 && artistNames == old(artistNames)[st.1..]
      ensures artistInfo == old(artistInfo)
    {
      ghost var start := artistNames;
      StepParts(start);
      var lastName;
      query, lastName := PopIntoQuery();
      query := query[..|query| - 4];
      if |query| > 200 {
        artistNames := [lastName] + artistNames;
        query := query[..|query| - |lastName| - 4];
      }
      assert [lastName] + start[Fill(Prefix, start).1..] == start[Fill(Prefix, start).1 - 1..];
    }

    /** The packing loop of `get_artist_info`; `artist_names` ends empty. */
    method PackQueries() returns (queries: seq<string>)
      requires AllFit(artistNames)
      modifies this
      ensures artistNames == [] && artistInfo == old(artistInfo)
      ensures queries == Queries(Packing(old(artistNames), 4))
    {
      queries := [];
      while |artistNames| > 0
        invariant AllFit(artistNames) && artistInfo == old(artistInfo)
        invariant queries + Queries(Packing(artistNames, 4)) == Queries(Packing(old(artistNames), 4))
        decreases |artistNames|
      {
        ghost var start := artistNames;
        var query := NextQuery();
        PackingQueriesCons(start);
        assert queries + Queries(Packing(start, 4)) == (queries + [query]) + Queries(Packing(artistNames, 4));
        queries := queries + [query];
      }
    }

    /** `get_artist_info`: the names are packed into queries, the queries
        searched, and the empty nine-key record returned. */
    method GetArtistInfo(search: string -> seq<SearchHit>) returns (r: Result<Info>, ids: seq<string>)
      requires AllFit(artistNames)
      modifies this
      ensures artistNames == [] && artistInfo == old(artistInfo)
      ensures var qs := Queries(Packing(old(artistNames), 4));
        && (r.Ok? <==> forall i :: 0 <= i < |qs| ==> !TooManyParts(qs[i]))
        && (r.Err? ==> r.error == ValueError)
        && (r.Ok? ==> r.value == EmptyRecord() && ids == Seqs.Flatten(Seqs.Map(qs, QueryIds(search))))
    {
      var queries := PackQueries();
      var found := SearchQueries(queries, search);
      if found.Err? {
        return Err(found.error), [];
      }
      return Ok(EmptyRecord()), found.value;
    }

    /** `clean_unproductive_artists`: the record is replaced by its cleaned
        copy, or the first failing mask raises and it is kept. */
    method CleanUnproductiveArtists() returns (err: Option<PyError>)
      requires WellFormed(artistInfo)
      modifies this
      ensures artistNames == old(artistNames)
      ensures match StagesAsWritten(old(artistInfo), CleanMasks(currentYear))
        case Ok(cut) => err.None? && artistInfo == cut
        case Err(e) => err == Some(e) && artistInfo == old(artistInfo)
    {
      var cut := StagesAsWritten(artistInfo, CleanMasks(currentYear));
      if cut.Err? {
        return Some(cut.error);
      }
      artistInfo := cut.value;
      return None;
    }

    /** `get_active_artists` on the current record. */
    function GetActiveArtists(): (r: Result<Info>)
      requires WellFormed(artistInfo)
      reads this
      ensures r.Ok? ==> r.value == Stages(artistInfo, ActiveMasks(currentYear))
      ensures r.Err? <==> Height(Stages(artistInfo, ActiveMasks(currentYear)[..2])) == 0
      ensures r.Err? ==> r.error == IndexError
    {
      AsWrittenRaisesOnEmpty(artistInfo, ActiveMasks(currentYear));
      StagesAsWritten(artistInfo, ActiveMasks(currentYear))
    }

    /** `get_legacy_artists` on the current record. */
    function GetLegacyArtists(): (r: Result<Info>)
      requires WellFormed(artistInfo)
      reads this
      ensures r.Ok? ==> r.value == Stages(artistInfo, LegacyMasks(currentYear))
      ensures r.Err? <==> Height(Stages(artistInfo, LegacyMasks(currentYear)[..1])) == 0
      ensures r.Err? ==> r.error == IndexError
    {
      AsWrittenRaisesOnEmpty(artistInfo, LegacyMasks(currentYear));
      StagesAsWritten(artistInfo, LegacyMasks(currentYear))
    }

    /** `get_famous_legacy_artists` on the current record. */
    function GetFamousLegacyArtists(): (r: Result<Info>)
      requires WellFormed(artistInfo)
      reads this
      ensures r.Ok? ==> r.value == Stages(artistInfo, FamousLegacyMasks(currentYear))
      ensures r.Err? <==> Height(Stages(artistInfo, FamousLegacyMasks(currentYear)[..1])) == 0
      ensures r.Err? ==> r.error == IndexError
    {
      AsWrittenRaisesOnEmpty(artistInfo, FamousLegacyMasks(currentYear));
      StagesAsWritten(artistInfo, FamousLegacyMasks(currentYear))
    }
  }

  /** Every name loaded from pickles whose names all fit, fits. */
  lemma PickledFits(order: seq<string>, pickles: map<string, seq<Option<string>>>, x: string)
    requires forall f :: f in order ==> f in pickles
    requires forall f, i :: f in pickles && 0 <= i < |pickles[f]| && pickles[f][i].Some? ==> Fits(pickles[f][i].value)
    requires Some(x) in PickledNames(order, pickles)
    ensures Fits(x)
  {
    PickledMembers(order, pickles, Some(x));
    var f :| f in order && Some(x) in pickles[f];
    var j :| 0 <= j < |pickles[f]| && pickles[f][j] == Some(x);
  }

  lemma SampledNamesFit(order: seq<string>, pickles: map<string, seq<Option<string>>>, names: seq<string>, sampled: seq<string>)
    requires forall f :: f in order ==> f in pickles
    requires forall f, i :: f in pickles && 0 <= i < |pickles[f]| && pickles[f][i].Some? ==> Fits(pickles[f][i].value)
    requires names == CleanNames(PickledNames(order, pickles))
    requires forall x :: x in sampled ==> x in names
    ensures AllFit(sampled)
  {
    forall i | 0 <= i < |sampled| ensures Fits(sampled[i]) {
      assert sampled[i] in sampled;
      PickledFits(order, pickles, sampled[i]);
    }
  }


  /** Whether `ArtistNames(...)` raises: a file number does not parse, the
      sample size is negative or larger than the cleaned names, or a query
      packed from the sample holds more than 50 names. */
  ghost predicate ConstructionFails(filenames: seq<string>, pickles: map<string, seq<Option<string>>>,
                                    randNum: Option<int>, draw: nat -> seq<nat>)
    requires forall f :: f in filenames ==> f in pickles
    requires forall f, i :: f in pickles && 0 <= i < |pickles[f]| && pickles[f][i].Some? ==> Fits(pickles[f][i].value)
    requires forall n: nat :: randNum.Some? && 0 <= randNum.value <= n ==> Draw(draw(n), randNum.value, n)
  {
    || FileOrder(filenames).Err?
    || var names := CleanNames(PickledNames(FileOrder(filenames).value, pickles));
       var sampled := Sample(names, randNum, draw(|names|));
       || sampled.Err?
       || (SampledNamesFit(FileOrder(filenames).value, pickles, names, sampled.value);
           var qs := Queries(Packing(sampled.value, 4));
           exists i :: 0 <= i < |qs| && TooManyParts(qs[i]))
  }

  /** Once the files are ordered, construction fails exactly at the sample
      or at a query too long for the search. */
  lemma FailsAfterSample(filenames: seq<string>, pickles: map<string, seq<Option<string>>>,
                         randNum: Option<int>, draw: nat -> seq<nat>, names: seq<string>, sampled: Result<seq<string>>)
    requires forall f :: f in filenames ==> f in pickles
    requires forall f, i :: f in pickles && 0 <= i < |pickles[f]| && pickles[f][i].Some? ==> Fits(pickles[f][i].value)
    requires forall n: nat :: randNum.Some? && 0 <= randNum.value <= n ==> Draw(draw(n), randNum.value, n)
    requires FileOrder(filenames).Ok?
    requires names == CleanNames(PickledNames(FileOrder(filenames).value, pickles))
    requires sampled == Sample(names, randNum, draw(|names|))
    ensures sampled.Err? ==> ConstructionFails(filenames, pickles, randNum, draw)
    ensures sampled.Ok? ==>
              && AllFit(sampled.value)
              && (ConstructionFails(filenames, pickles, randNum, draw) <==>
                    exists i :: 0 <= i < |Queries(Packing(sampled.value, 4))| && TooManyParts(Queries(Packing(sampled.value, 4))[i]))
  {
    if sampled.Ok? {
      SampledNamesFit(FileOrder(filenames).value, pickles, names, sampled.value);
    }
  }

  /** `ArtistNames(rand_num_artist_names, current_year)`: load, clean,
      sample, then `get_artist_info`. `draw(n)` is the random generator's
      choice of positions from a population of `n`; a name too long to fit
      in a query alone would make the packing loop run forever. */
  method NewArtistNames(currentYear: int, filenames: seq<string>, pickles: map<string, seq<Option<string>>>,
                        randNum: Option<int>, draw: nat -> seq<nat>, search: string -> seq<SearchHit>)
    returns (r: Result<ArtistNames>)
    requires forall f :: f in filenames ==> f in pickles
    requires forall f, i :: f in pickles && 0 <= i < |pickles[f]| && pickles[f][i].Some? ==> Fits(pickles[f][i].value)
    requires forall n: nat :: randNum.Some? && 0 <= randNum.value <= n ==> Draw(draw(n), randNum.value, n)
    ensures r.Err? <==> ConstructionFails(filenames, pickles, randNum, draw)
    ensures r.Err? ==> r.error == ValueError
    ensures r.Ok? ==> fresh(r.value) && r.value.currentYear == currentYear
    ensures r.Ok? ==> r.value.artistNames == [] && r.value.artistInfo == EmptyRecord()
  {
    var raw := LoadArtistNames(filenames, pickles);
    if raw.Err? {
      return Err(raw.error);
    }
    var names := CleanArtistNames(raw.value);
    var sampled := Sample(names, randNum, draw(|names|));
    FailsAfterSample(filenames, pickles, randNum, draw, names, sampled);
    if sampled.Err? {
      return Err(sampled.error);
    }
    var o := new ArtistNames(currentYear, sampled.value);
    var info, ids := o.GetArtistInfo(search);
    if info.Err? {
      return Err(info.error);
    }
    o.artistInfo := info.value;
    return Ok(o);
  }
}
