/** List operations that the scripts build out of comprehensions: filters,
    order-preserving dedupe, slicing, batching and concatenation. */
module Seqs {
  import opened Common

  predicate Distinct<T(==)>(s: seq<T>) {
    forall i, j :: 0 <= i < j < |s| ==> s[i] != s[j]
  }

  function Min(a: int, b: int): int { if a <= b then a else b }

  /** `[x for x in s if p(x)]` */
  function Filter<T(!new)>(s: seq<T>, p: T -> bool): (r: seq<T>)
    ensures |r| <= |s|
    ensures forall x :: x in r <==> x in s && p(x)
  {
    if s == [] then [] else (if p(s[0]) then [s[0]] else []) + Filter(s[1..], p)
  }

  lemma {:induction false} FilterNone<T(!new)>(s: seq<T>, p: T -> bool)
    requires forall i :: 0 <= i < |s| ==> !p(s[i])
    ensures Filter(s, p) == []
  {
    if s != [] {
      FilterNone(s[1..], p);
    }
  }

  lemma {:induction false} FilterAll<T(!new)>(s: seq<T>, p: T -> bool)
    requires forall i :: 0 <= i < |s| ==> p(s[i])
    ensures Filter(s, p) == s
  {
    if s != [] {
      FilterAll(s[1..], p);
      assert [s[0]] + s[1..] == s;
    }
  }

  lemma {:induction false} FilterDistinct<T(!new)>(s: seq<T>, p: T -> bool)
    requires Distinct(s)
    ensures Distinct(Filter(s, p))
  {
    if s != [] {
      assert Distinct(s[1..]);
      FilterDistinct(s[1..], p);
      assert s[0] !in s[1..];
    }
  }

  lemma {:induction false} FilterConcat<T(!new)>(a: seq<T>, b: seq<T>, p: T -> bool)
    ensures Filter(a + b, p) == Filter(a, p) + Filter(b, p)
  {
    if a == [] {
      assert a + b == b;
    } else {
      assert (a + b)[1..] == a[1..] + b;
      FilterConcat(a[1..], b, p);
    }
  }

  lemma {:induction false} FilterSnoc<T(!new)>(a: seq<T>, x: T, p: T -> bool)
    ensures Filter(a + [x], p) == Filter(a, p) + (if p(x) then [x] else [])
  {
    FilterConcat(a, [x], p);
    assert Filter([x], p) == (if p(x) then [x] else []) + Filter([x][1..], p);
  }

  /** Growing a prefix by one element grows its filter by that element
      when it passes. */
  lemma FilterTakeStep<T(!new)>(s: seq<T>, j: nat, p: T -> bool)
    requires j < |s|
    ensures Filter(s[..j + 1], p) == Filter(s[..j], p) + (if p(s[j]) then [s[j]] else [])
  {
    assert s[..j + 1] == s[..j] + [s[j]];
    FilterSnoc(s[..j], s[j], p);
  }

  /** Two successive masks keep exactly what their conjunction keeps. */
  lemma {:induction false} FilterFilter<T(!new)>(s: seq<T>, p: T -> bool, q: T -> bool, pq: T -> bool)
    requires forall x :: pq(x) == (p(x) && q(x))
    ensures Filter(Filter(s, p), q) == Filter(s, pq)
  {
    if s != [] {
      FilterFilter(s[1..], p, q, pq);
      if p(s[0]) {
        assert Filter(s, p) == [s[0]] + Filter(s[1..], p);
        assert Filter(s, p)[1..] == Filter(s[1..], p);
      } else {
        assert Filter(s, p) == Filter(s[1..], p);
      }
    }
  }

  /** A filter whose predicate implies another's keeps a sub-list of it. */
  lemma {:induction false} FilterImplies<T(!new)>(s: seq<T>, p: T -> bool, q: T -> bool)
    requires forall x :: q(x) ==> p(x)
    ensures Filter(Filter(s, p), q) == Filter(s, q)
  {
    FilterFilter(s, p, q, q);
  }

  /** `[x for x in a if x not in b]`: the items of `a` absent from `b`, in order. */
  function NotIn<T(==,!new)>(a: seq<T>, b: seq<T>): (r: seq<T>)
    ensures |r| <= |a|
    ensures forall x :: x in r <==> x in a && x !in b
  {
    Filter(a, x => x !in b)
  }

  lemma NotInConcat<T(!new)>(a: seq<T>, b: seq<T>, c: seq<T>)
    ensures NotIn(a + b, c) == NotIn(a, c) + NotIn(b, c)
  {
    FilterConcat(a, b, x => x !in c);
  }

  lemma NotInSnoc<T(!new)>(a: seq<T>, x: T, b: seq<T>)
    ensures NotIn(a + [x], b) == NotIn(a, b) + (if x !in b then [x] else [])
  {
    FilterSnoc(a, x, y => y !in b);
  }

  lemma NotInReverse<T(!new)>(a: seq<T>, b: seq<T>)
    ensures NotIn(Reverse(a), b) == Reverse(NotIn(a, b))
  {
    FilterReverse(a, x => x !in b);
  }

  /** Filters whose predicates agree on the list keep the same items. */
  lemma {:induction false} FilterCongruence<T(!new)>(s: seq<T>, p: T -> bool, q: T -> bool)
    requires forall i :: 0 <= i < |s| ==> p(s[i]) == q(s[i])
    ensures Filter(s, p) == Filter(s, q)
  {
    if s != [] {
      FilterCongruence(s[1..], p, q);
    }
  }

  /** Filtering a prefix gives a prefix of the filtered list. */
  lemma FilterPrefix<T(!new)>(a: seq<T>, b: seq<T>, p: T -> bool)
    requires a <= b
    ensures Filter(a, p) <= Filter(b, p)
  {
    assert b == a + b[|a|..];
    FilterConcat(a, b[|a|..], p);
  }

  /** `list(s)` for a set: its elements once each, in some order. */
  predicate Enumerates<T(!new)>(e: seq<T>, s: set<T>)
  {
    Distinct(e) && (forall x :: x in e ==> x in s) && (forall x :: x in s ==> x in e)
  }

  lemma {:induction false} EnumerationExists<T(!new)>(s: set<T>)
    ensures exists e :: Enumerates(e, s)
    decreases |s|
  {
    if s == {} {
      assert Enumerates([], s);
    } else {
      var x :| x in s;
      EnumerationExists(s - {x});
      var e :| Enumerates(e, s - {x});
      assert Enumerates(e + [x], s);
    }
  }

  /** A list naming each element of a set once is as long as the set is large. */
  lemma EnumerationCard<T(!new)>(e: seq<T>, s: set<T>)
    requires Enumerates(e, s)
    ensures |e| == |s|
  {
    DistinctCard(e);
    assert (set x | x in e) == s;
  }

  /** `list(set(...))` lists a set in an order the model does not fix. */
  ghost predicate Lists<T(!new)>(listOf: set<T> -> seq<T>)
  {
    forall s :: Enumerates(listOf(s), s)
  }

  /** `s[:n]` for a Python int `n` (negative counts from the end). */
  function PySliceTo<T>(s: seq<T>, n: int): (r: seq<T>)
    ensures r <= s
    ensures n >= 0 ==> |r| == Min(n, |s|)
    ensures n < 0 ==> |r| == (if |s| + n < 0 then 0 else |s| + n)
  {
    if n >= 0 then s[..Min(n, |s|)]
    else if |s| + n < 0 then []
    else s[..|s| + n]
  }

  /** `s[:n] if n is not None else s` — the `num_to_scrape` truncation. */
  function Truncate<T>(s: seq<T>, n: Option<int>): (r: seq<T>)
    ensures r <= s
    ensures n.None? ==> r == s
  {
    match n
    case None => s
    case Some(k) => PySliceTo(s, k)
  }

  function Flatten<T>(ss: seq<seq<T>>): (r: seq<T>)
  {
    if ss == [] then [] else ss[0] + Flatten(ss[1..])
  }

  lemma {:induction false} FlattenConcat<T>(a: seq<seq<T>>, b: seq<seq<T>>)
    ensures Flatten(a + b) == Flatten(a) + Flatten(b)
  {
    if a == [] {
      assert a + b == b;
    } else {
      assert (a + b)[1..] == a[1..] + b;
      FlattenConcat(a[1..], b);
    }
  }

  lemma FlattenStep<T>(ss: seq<seq<T>>, k: nat)
    requires k < |ss|
    ensures Flatten(ss[..k + 1]) == Flatten(ss[..k]) + ss[k]
  {
    assert ss[..k + 1] == ss[..k] + [ss[k]];
    FlattenSnoc(ss[..k], ss[k]);
  }

  lemma FlattenSnoc<T>(a: seq<seq<T>>, x: seq<T>)
    ensures Flatten(a + [x]) == Flatten(a) + x
  {
    FlattenConcat(a, [x]);
    assert Flatten([x]) == x + Flatten([x][1..]);
  }

  /** `[s[i:i + n] for i in range(0, len(s), n)]` */
  function Chunks<T>(s: seq<T>, n: nat): (r: seq<seq<T>>)
    requires n > 0
    ensures Flatten(r) == s
    ensures forall i :: 0 <= i < |r| ==> 0 < |r[i]| <= n
    ensures forall i :: 0 <= i < |r| - 1 ==> |r[i]| == n
    decreases |s|
  {
    if |s| == 0 then []
    else if |s| <= n then [s]
    else
      [s[..n]] + Chunks(s[n..], n)
  }

  /** Concatenate the pieces that `f` returns for each batch, in batch order. */
  function FlatMap<T, U>(ss: seq<seq<T>>, f: seq<T> -> seq<U>): (r: seq<U>)
  {
    if ss == [] then [] else f(ss[0]) + FlatMap(ss[1..], f)
  }

  lemma {:induction false} FlatMapSnoc<T, U>(ss: seq<seq<T>>, x: seq<T>, f: seq<T> -> seq<U>)
    ensures FlatMap(ss + [x], f) == FlatMap(ss, f) + f(x)
  {
    if ss == [] {
      assert ss + [x] == [x];
      assert FlatMap([x], f) == f(x) + FlatMap([x][1..], f);
    } else {
      assert (ss + [x])[1..] == ss[1..] + [x];
      FlatMapSnoc(ss[1..], x, f);
    }
  }

  /** When every batch answers with one item per request, nothing is lost. */
  lemma {:induction false} FlatMapLength<T, U>(ss: seq<seq<T>>, f: seq<T> -> seq<U>)
    requires forall b :: |f(b)| == |b|
    ensures |FlatMap(ss, f)| == |Flatten(ss)|
  {
    if ss != [] {
      FlatMapLength(ss[1..], f);
    }
  }

  /** `[f(x) for x in s]` */
  function Map<T, U>(s: seq<T>, f: T -> U): (r: seq<U>)
    ensures |r| == |s|
    ensures forall i :: 0 <= i < |s| ==> r[i] == f(s[i])
  {
    seq(|s|, i requires 0 <= i < |s| => f(s[i]))
  }

  /** The values of a map are the images of the elements. */
  lemma MapMembers<T, U>(s: seq<T>, f: T -> U, y: U)
    ensures y in Map(s, f) <==> exists x :: x in s && f(x) == y
  {
    var r := Map(s, f);
    if y in r {
      var i :| 0 <= i < |r| && r[i] == y;
      assert s[i] in s && f(s[i]) == y;
    }
    if exists x :: x in s && f(x) == y {
      var x :| x in s && f(x) == y;
      var i :| 0 <= i < |s| && s[i] == x;
      assert r[i] == y;
    }
  }

  lemma MapConcat<T, U>(a: seq<T>, b: seq<T>, f: T -> U)
    ensures Map(a + b, f) == Map(a, f) + Map(b, f)
  {
    assert forall i :: 0 <= i < |a| + |b| ==> Map(a + b, f)[i] == (Map(a, f) + Map(b, f))[i];
  }

  lemma MapSnoc<T, U>(a: seq<T>, x: T, f: T -> U)
    ensures Map(a + [x], f) == Map(a, f) + [f(x)]
  {
    MapConcat(a, [x], f);
  }

  /** `[x] * n` */
  function Copies<T>(x: T, n: nat): (r: seq<T>)
    ensures |r| == n && forall i :: 0 <= i < n ==> r[i] == x
  {
    seq(n, _ => x)
  }

  lemma Assoc<T>(a: seq<T>, b: seq<T>, c: seq<T>)
    ensures a + (b + c) == (a + b) + c
  {
  }

  /** A prefix of `s` grown by one element. */
  lemma TakeSnoc<T>(s: seq<T>, j: nat)
    requires j < |s|
    ensures s[..j + 1] == s[..j] + [s[j]]
  {
  }

  /** Growing a prefix of `s` by one element, after any `a`. */
  lemma PrefixSnoc<T>(a: seq<T>, s: seq<T>, j: nat)
    requires j < |s|
    ensures (a + s[..j]) + [s[j]] == a + s[..j + 1]
  {
    assert s[..j + 1] == s[..j] + [s[j]];
  }

  lemma PrefixOfAppend<T>(a: seq<T>, b: seq<T>)
    ensures (a + b)[..|a|] == a
  {
  }

  /** `[f(x) for x in s]` where `f` may raise: the first raise ends it. */
  function AllOk<T, U>(s: seq<T>, f: T -> Result<U>): (r: Result<seq<U>>)
    ensures r.Ok? <==> forall i :: 0 <= i < |s| ==> f(s[i]).Ok?
    ensures r.Err? ==> exists i :: 0 <= i < |s| && f(s[i]) == Err(r.error)
    ensures r.Ok? ==> |r.value| == |s| && forall i :: 0 <= i < |s| ==> r.value[i] == f(s[i]).value
  {
    if s == [] then Ok([])
    else
      match f(s[0])
      case Err(e) => Err(e)
      case Ok(x) =>
        match AllOk(s[1..], f)
        case Err(e) =>
          var i :| 0 <= i < |s[1..]| && f(s[1..][i]) == Err(e);
          assert f(s[i + 1]) == Err(e);
          Err(e)
        case Ok(xs) =>
          assert forall i :: 0 < i < |s| ==> s[1..][i - 1] == s[i];
          Ok([x] + xs)
  }

  /** The first item that raises is the error the whole list raises. */
  lemma {:induction false} AllOkFirstError<T, U>(s: seq<T>, f: T -> Result<U>, i: nat)
    requires i < |s| && f(s[i]).Err?
    requires forall j :: 0 <= j < i ==> f(s[j]).Ok?
    ensures AllOk(s, f) == Err(f(s[i]).error)
  {
    if i > 0 {
      assert forall j :: 0 <= j < i - 1 ==> s[1..][j] == s[j + 1];
      AllOkFirstError(s[1..], f, i - 1);
    }
  }

  /** Items that all answer give the list of their answers. */
  lemma AllOkOf<T, U>(s: seq<T>, f: T -> Result<U>, out: seq<U>)
    requires |out| == |s| && forall i :: 0 <= i < |s| ==> f(s[i]) == Ok(out[i])
    ensures AllOk(s, f) == Ok(out)
  {
    assert AllOk(s, f).value == out;
  }

  /** A list whose every item answers splits into parts that answer. */
  lemma AllOkConcat<T, U>(a: seq<T>, b: seq<T>, f: T -> Result<U>)
    requires AllOk(a + b, f).Ok?
    ensures AllOk(a, f).Ok? && AllOk(b, f).Ok?
    ensures AllOk(a + b, f).value == AllOk(a, f).value + AllOk(b, f).value
  {
    forall i | 0 <= i < |a| ensures f(a[i]).Ok? {
      assert (a + b)[i] == a[i];
    }
    forall i | 0 <= i < |b| ensures f(b[i]).Ok? {
      assert (a + b)[|a| + i] == b[i];
    }
    var r, ra, rb := AllOk(a + b, f).value, AllOk(a, f).value, AllOk(b, f).value;
    forall i | 0 <= i < |r| ensures r[i] == (ra + rb)[i] {
      if i < |a| {
        assert (a + b)[i] == a[i];
      } else {
        assert (a + b)[i] == b[i - |a|];
      }
    }
  }

  /** The loop `out = []; for x in s: out.append(f(x))`, where `f` may
      raise: the first item that raises ends it. */
  method Collect<T, U>(s: seq<T>, f: T -> Result<U>) returns (r: Result<seq<U>>)
    ensures r == AllOk(s, f)
  {
    var out: seq<U> := [];
    var i := 0;
    while i < |s|
      invariant 0 <= i <= |s| && |out| == i
      invariant forall j :: 0 <= j < i ==> f(s[j]) == Ok(out[j])
    {
      var y := f(s[i]);
      if y.Err? {
        AllOkFirstError(s, f, i);
        return Err(y.error);
      }
      out := out + [y.value];
      i := i + 1;
    }
    assert AllOk(s, f).value == out;
    r := Ok(out);
  }

  /** Mapping the items a test on their image keeps is filtering the
      images. */
  lemma {:induction false} MapFilter<T(!new), U(!new)>(s: seq<T>, f: T -> U, p: U -> bool, q: T -> bool)
    requires forall i :: 0 <= i < |s| ==> q(s[i]) == p(f(s[i]))
    ensures Map(Filter(s, q), f) == Filter(Map(s, f), p)
  {
    if s != [] {
      var m := Map(s, f);
      assert m[1..] == Map(s[1..], f);
      MapFilter(s[1..], f, p, q);
      var head := if q(s[0]) then [s[0]] else [];
      assert Map(head + Filter(s[1..], q), f) == Map(head, f) + Map(Filter(s[1..], q), f);
    }
  }

  /** `zip(a, b)` */
  function Zip<T, U>(a: seq<T>, b: seq<U>): (r: seq<(T, U)>)
    ensures |r| == Min(|a|, |b|)
    ensures forall i :: 0 <= i < |r| ==> r[i] == (a[i], b[i])
  {
    seq(Min(|a|, |b|), i requires 0 <= i < Min(|a|, |b|) => (a[i], b[i]))
  }
  /** Zipping two joined pairs of lists of matching lengths. */
  lemma ZipConcat<T, U>(a: seq<T>, b: seq<T>, c: seq<U>, d: seq<U>)
    requires |a| == |c| && |b| == |d|
    ensures Zip(a + b, c + d) == Zip(a, c) + Zip(b, d)
  {
    var l, r := Zip(a + b, c + d), Zip(a, c) + Zip(b, d);
    forall i | 0 <= i < |l| ensures l[i] == r[i] {
      if i < |a| {
        assert (a + b)[i] == a[i] && (c + d)[i] == c[i];
      } else {
        assert (a + b)[i] == b[i - |a|] && (c + d)[i] == d[i - |a|];
      }
    }
  }

  /** Two lists each of whose items answer join into one that does. */
  lemma AllOkJoin<T, U>(a: seq<T>, b: seq<T>, f: T -> Result<U>)
    requires AllOk(a, f).Ok? && AllOk(b, f).Ok?
    ensures AllOk(a + b, f) == Ok(AllOk(a, f).value + AllOk(b, f).value)
  {
    assert forall i :: 0 <= i < |a + b| ==> f((a + b)[i]).Ok? by {
      forall i | 0 <= i < |a + b| ensures f((a + b)[i]).Ok? {
        if i < |a| { assert (a + b)[i] == a[i]; } else { assert (a + b)[i] == b[i - |a|]; }
      }
    }
    AllOkConcat(a, b, f);
  }


  /** Growing the prefix of `s` by one item appends that item's image. */
  lemma MapFlattenStep<T, U>(s: seq<T>, f: T -> seq<U>, i: nat)
    requires i < |s|
    ensures Flatten(Map(s[..i + 1], f)) == Flatten(Map(s[..i], f)) + f(s[i])
  {
    assert Map(s[..i + 1], f) == Map(s[..i], f) + [f(s[i])];
    FlattenSnoc(Map(s[..i], f), f(s[i]));
  }

  /** The batch request that answers each item with `f` of it. */
  function MapWith<T, U>(f: T -> U): seq<T> -> seq<U>
  {
    b => Map(b, f)
  }

  /** Answering batch by batch, item by item, is answering the whole list
      item by item, in order. */
  lemma {:induction false} FlatMapMap<T, U>(ss: seq<seq<T>>, f: T -> U)
    ensures FlatMap(ss, MapWith(f)) == Map(Flatten(ss), f)
  {
    if ss != [] {
      FlatMapMap(ss[1..], f);
      assert Flatten(ss) == ss[0] + Flatten(ss[1..]);
      assert Map(ss[0] + Flatten(ss[1..]), f) == Map(ss[0], f) + Map(Flatten(ss[1..]), f);
    }
  }

  function Reverse<T>(s: seq<T>): (r: seq<T>)
    ensures |r| == |s|
    ensures forall i :: 0 <= i < |s| ==> r[i] == s[|s| - 1 - i]
  {
    if s == [] then [] else Reverse(s[1..]) + [s[0]]
  }

  lemma ReverseMembers<T>(s: seq<T>)
    ensures forall x :: x in Reverse(s) <==> x in s
  {
    var r := Reverse(s);
    forall x | x in r ensures x in s {
      var i :| 0 <= i < |r| && r[i] == x;
      assert s[|s| - 1 - i] == x;
    }
    forall x | x in s ensures x in r {
      var i :| 0 <= i < |s| && s[i] == x;
      assert r[|s| - 1 - i] == x;
    }
  }

  lemma ReverseCons<T>(x: T, s: seq<T>)
    ensures Reverse([x] + s) == Reverse(s) + [x]
  {
    assert ([x] + s)[1..] == s;
  }

  /** Filtering commutes with reversal. */
  lemma {:induction false} FilterReverse<T(!new)>(s: seq<T>, p: T -> bool)
    ensures Filter(Reverse(s), p) == Reverse(Filter(s, p))
  {
    if s != [] {
      FilterReverse(s[1..], p);
      FilterSnoc(Reverse(s[1..]), s[0], p);
      if p(s[0]) {
        ReverseCons(s[0], Filter(s[1..], p));
      }
    }
  }

  // ---------------------------------------------------------------- lookups that may fail

  /** The items a lookup answers. */
  function Answered<T, U>(f: T -> Option<U>): T -> bool
  {
    x => f(x).Some?
  }

  /** The items a lookup leaves unanswered. */
  function Unanswered<T, U>(f: T -> Option<U>): T -> bool
  {
    x => f(x).None?
  }

  /** The answers a lookup gives, in item order, skipping unanswered items. */
  function Answers<T, U>(xs: seq<T>, f: T -> Option<U>): seq<U>
  {
    if xs == [] then []
    else Answers(xs[..|xs| - 1], f) + (if f(xs[|xs| - 1]).Some? then [f(xs[|xs| - 1]).value] else [])
  }

  /** Appending an item appends its answer, if it has one. */
  lemma AnswersSnoc<T, U>(xs: seq<T>, x: T, f: T -> Option<U>)
    ensures Answers(xs + [x], f) == Answers(xs, f) + (if f(x).Some? then [f(x).value] else [])
  {
    assert (xs + [x])[..|xs|] == xs;
  }

  /** One answer per answered item, and every item answered or not. */
  lemma {:induction false} PartitionCount<T(!new), U>(xs: seq<T>, f: T -> Option<U>)
    ensures |Answers(xs, f)| == |Filter(xs, Answered(f))|
    ensures |Filter(xs, Answered(f))| + |Filter(xs, Unanswered(f))| == |xs|
  {
    if xs != [] {
      var init, x := xs[..|xs| - 1], xs[|xs| - 1];
      assert xs == init + [x];
      PartitionCount(init, f);
      FilterSnoc(init, x, Answered(f));
      FilterSnoc(init, x, Unanswered(f));
    }
  }

  /** The answers over two lists are the answers over each, in turn. */
  lemma {:induction false} AnswersConcat<T, U>(a: seq<T>, b: seq<T>, f: T -> Option<U>)
    ensures Answers(a + b, f) == Answers(a, f) + Answers(b, f)
    decreases |b|
  {
    if b != [] {
      var init, x := b[..|b| - 1], b[|b| - 1];
      assert b == init + [x];
      assert a + b == (a + init) + [x];
      AnswersSnoc(a + init, x, f);
      AnswersSnoc(init, x, f);
      AnswersConcat(a, init, f);
    } else {
      assert a + b == a;
    }
  }

  /** When each answer carries something of its item, reading it off the
      answers reads it off the answered items. */
  lemma {:induction false} AnswersMap<T(!new), U, V>(xs: seq<T>, f: T -> Option<U>, g: U -> V, h: T -> V)
    requires forall i :: 0 <= i < |xs| && f(xs[i]).Some? ==> g(f(xs[i]).value) == h(xs[i])
    ensures Map(Answers(xs, f), g) == Map(Filter(xs, Answered(f)), h)
  {
    if xs != [] {
      var init, x := xs[..|xs| - 1], xs[|xs| - 1];
      assert xs == init + [x];
      assert forall i :: 0 <= i < |init| ==> init[i] == xs[i];
      AnswersMap(init, f, g, h);
      FilterSnoc(init, x, Answered(f));
      var a, ta := Answers(init, f), if f(x).Some? then [f(x).value] else [];
      assert Map(a + ta, g) == Map(a, g) + Map(ta, g);
      var b, tb := Filter(init, Answered(f)), if f(x).Some? then [x] else [];
      assert Map(b + tb, h) == Map(b, h) + Map(tb, h);
    }
  }

  // ---------------------------------------------------------------- sets of indices

  function Range(n: nat): (r: set<nat>)
    ensures forall j: int :: j in r <==> 0 <= j < n
    ensures |r| == n
  {
    if n == 0 then {} else
      var r := Range(n - 1) + {n - 1};
      assert n - 1 !in Range(n - 1);
      r
  }

  lemma {:induction false} DistinctCard<T>(s: seq<T>)
    requires Distinct(s)
    ensures |set x | x in s| == |s|
  {
    if s != [] {
      var init := s[..|s| - 1];
      assert Distinct(init);
      DistinctCard(init);
      assert (set x | x in s) == (set x | x in init) + {s[|s| - 1]} by {
        assert s == init + [s[|s| - 1]];
      }
      assert s[|s| - 1] !in init;
    }
  }

  /** `n - 1` distinct indices below `n` leave one index of `Range(n)` unused. */
  lemma LeftOutCount(n: nat, perm: seq<nat>)
    requires n > 0 && |perm| == n - 1 && Distinct(perm)
    requires forall i :: 0 <= i < |perm| ==> perm[i] < n
    ensures |Range(n) - set j | j in perm| == 1
  {
    var used := set j | j in perm;
    DistinctCard(perm);
    assert used <= Range(n);
    assert Range(n) == (Range(n) - used) + used;
    assert |(Range(n) - used) + used| == |Range(n) - used| + |used|;
  }

  lemma Singleton<T>(s: set<T>) returns (x: T)
    requires |s| == 1
    ensures s == {x}
  {
    x :| x in s;
    var others := s - {x};
    assert s == others + {x};
    assert |others| == 0;
  }

  /** `n - 1` distinct indices below `n` leave out exactly one. */
  lemma OneLeftOut(n: nat, perm: seq<nat>)
    requires n > 0 && |perm| == n - 1 && Distinct(perm)
    requires forall i :: 0 <= i < |perm| ==> perm[i] < n
    ensures exists j :: 0 <= j < n && j !in perm && forall k :: 0 <= k < n && k != j ==> k in perm
  {
    var used := set j | j in perm;
    LeftOutCount(n, perm);
    var j := Singleton(Range(n) - used);
    assert j in Range(n) - used;
    assert j !in perm by {
      assert j !in used;
    }
    forall k | 0 <= k < n && k != j ensures k in perm {
      assert k in Range(n) && k !in Range(n) - used;
      assert k in used;
    }
  }

  function Sum(s: seq<int>): int
  {
    if s == [] then 0 else s[0] + Sum(s[1..])
  }

  lemma {:induction false} SumConcat(a: seq<int>, b: seq<int>)
    ensures Sum(a + b) == Sum(a) + Sum(b)
  {
    if a == [] {
      assert a + b == b;
    } else {
      assert (a + b)[1..] == a[1..] + b;
      SumConcat(a[1..], b);
    }
  }

  /** `seen = set(); [x for x in s if not (x in seen or seen.add(x))]`:
      an item is kept exactly when it does not occur earlier in `s`. */
  function Dedupe<T(==,!new)>(s: seq<T>): (r: seq<T>)
    ensures forall x :: x in r <==> x in s
    ensures Distinct(r)
    ensures |r| <= |s|
    decreases |s|
  {
    if s == [] then []
    else
      var init, x := s[..|s| - 1], s[|s| - 1];
      assert forall y :: y in s <==> y in init || y == x by {
        assert s == init + [x];
      }
      if x in init then Dedupe(init) else Dedupe(init) + [x]
  }

  /** Deduplicating a prefix gives a prefix of the deduplicated list, so the
      survivors keep the order of their first occurrences. */
  lemma {:induction false} DedupePrefix<T(!new)>(s: seq<T>, k: nat)
    requires k <= |s|
    ensures Dedupe(s[..k]) <= Dedupe(s)
    decreases |s|
  {
    if k < |s| {
      var init := s[..|s| - 1];
      assert s[..k] == init[..k];
      DedupePrefix(init, k);
    } else {
      assert s[..k] == s;
    }
  }

  /** A list that already has no repeats is left as it is. */
  lemma {:induction false} DedupeDistinct<T(!new)>(s: seq<T>)
    requires Distinct(s)
    ensures Dedupe(s) == s
    decreases |s|
  {
    if s != [] {
      var init := s[..|s| - 1];
      assert s[|s| - 1] !in init;
      DedupeDistinct(init);
      assert init + [s[|s| - 1]] == s;
    }
  }

  lemma DedupeIdempotent<T(!new)>(s: seq<T>)
    ensures Dedupe(Dedupe(s)) == Dedupe(s)
  {
    DedupeDistinct(Dedupe(s));
  }

  /** The index of the first occurrence of `x` in `s`. */
  function FirstIndex<T(==)>(s: seq<T>, x: T): (i: nat)
    requires x in s
    ensures i < |s| && s[i] == x && x !in s[..i]
  {
    if s[0] == x then 0
    else
      assert x in s[1..];
      var j := FirstIndex(s[1..], x);
      assert s[..j + 1] == [s[0]] + s[1..][..j];
      j + 1
  }

  /** `list.count(x)` */
  function Count<T(==)>(s: seq<T>, x: T): nat
  {
    if s == [] then 0 else (if s[0] == x then 1 else 0) + Count(s[1..], x)
  }

  // ---------------------------------------------------------------- selection by index

  /** `range(n)` as a list. */
  function Indices(n: nat): (r: seq<nat>)
    ensures |r| == n
    ensures forall i :: 0 <= i < n ==> r[i] == i
  {
    seq(n, i requires 0 <= i < n => i)
  }

  predicate InRange(idx: seq<nat>, n: nat)
  {
    forall j :: 0 <= j < |idx| ==> idx[j] < n
  }

  predicate Increasing(idx: seq<nat>)
  {
    forall i, j :: 0 <= i < j < |idx| ==> idx[i] < idx[j]
  }

  /** `[a[i] for i in idx]` */
  function Pick<T>(a: seq<T>, idx: seq<nat>): (r: seq<T>)
    requires InRange(idx, |a|)
    ensures |r| == |idx|
    ensures forall j :: 0 <= j < |idx| ==> r[j] == a[idx[j]]
  {
    seq(|idx|, j requires 0 <= j < |idx| => a[idx[j]])
  }

  /** The test `f` read through positions of `a`. */
  function Through<T>(a: seq<T>, f: T -> bool): nat -> bool
  {
    (j: nat) => j < |a| && f(a[j])
  }

  /** The positions `Filter` keeps are in range and in increasing order. */
  lemma {:induction false} FilterIndices(n: nat, p: nat -> bool)
    ensures InRange(Filter(Indices(n), p), n)
    ensures Increasing(Filter(Indices(n), p))
  {
    var r := Filter<nat>(Indices(n), p);
    assert forall x :: x in r ==> x < n;
    if n > 0 {
      FilterIndices(n - 1, p);
      assert Indices(n) == Indices(n - 1) + [n - 1];
      FilterSnoc<nat>(Indices(n - 1), n - 1, p);
      var l := Filter<nat>(Indices(n - 1), p);
      if p(n - 1) {
        IncreasingSnoc(l, n - 1);
      }
    }
  }

  lemma IncreasingSnoc(l: seq<nat>, m: nat)
    requires Increasing(l) && forall x :: x in l ==> x < m
    ensures Increasing(l + [m])
  {
    var r := l + [m];
    forall i, j | 0 <= i < j < |r| ensures r[i] < r[j] {
      assert r[i] == l[i] && l[i] in l;
      if j < |l| {
        assert r[j] == l[j];
      }
    }
  }

  /** Picking positions of picked positions is picking once. */
  lemma PickPick<T>(a: seq<T>, x: seq<nat>, y: seq<nat>)
    requires InRange(x, |a|) && InRange(y, |x|)
    ensures InRange(Pick(x, y), |a|)
    ensures Pick(Pick(a, x), y) == Pick(a, Pick(x, y))
  {
  }

  /** Filtering a list is picking the positions whose item passes. */
  lemma {:induction false} PickFilter<T(!new)>(a: seq<T>, f: T -> bool)
    ensures InRange(Filter(Indices(|a|), Through(a, f)), |a|)
    ensures Pick(a, Filter(Indices(|a|), Through(a, f))) == Filter(a, f)
  {
    FilterIndices(|a|, Through(a, f));
    if a != [] {
      var n := |a| - 1;
      var init, x := a[..n], a[n];
      assert a == init + [x];
      PickFilter(init, f);
      assert Indices(n + 1) == Indices(n) + [n];
      FilterSnoc<nat>(Indices(n), n, Through(a, f));
      FilterCongruence<nat>(Indices(n), Through(a, f), Through(init, f));
      FilterIndices(n, Through(init, f));
      FilterSnoc(init, x, f);
      var l := Filter<nat>(Indices(n), Through(init, f));
      if f(x) {
        assert Pick(a, l + [n]) == Pick(init, l) + [x];
      } else {
        assert Pick(a, l) == Pick(init, l);
      }
    }
  }

  /** Position `i` holds the first occurrence of its item. */
  function FirstAt<T(==)>(s: seq<T>): nat -> bool
  {
    (i: nat) => i < |s| && s[i] !in s[..i]
  }

  /** `Dedupe` keeps exactly the first occurrence of every item, in the
      order of the input. */
  lemma {:induction false} DedupeFirst<T(!new)>(s: seq<T>)
    ensures InRange(Filter(Indices(|s|), FirstAt(s)), |s|)
    ensures Dedupe(s) == Pick(s, Filter(Indices(|s|), FirstAt(s)))
  {
    FilterIndices(|s|, FirstAt(s));
    if s != [] {
      var n := |s| - 1;
      var init, x := s[..n], s[n];
      DedupeFirst(init);
      assert Indices(n + 1) == Indices(n) + [n];
      FilterSnoc<nat>(Indices(n), n, FirstAt(s));
      FirstAtPrefix(s);
      FilterIndices(n, FirstAt(init));
      var l := Filter<nat>(Indices(n), FirstAt(init));
      PickPrefix(s, l, n);
      assert FirstAt(s)(n) == (x !in init);
      var r := Filter<nat>(Indices(n + 1), FirstAt(s));
      if x in init {
        assert r == l;
      } else {
        assert r == l + [n];
      }
    }
  }

  /** Before the last position, first occurrences in `s` are those in its
      prefix. */
  lemma FirstAtPrefix<T(!new)>(s: seq<T>)
    requires s != []
    ensures Filter<nat>(Indices(|s| - 1), FirstAt(s)) == Filter<nat>(Indices(|s| - 1), FirstAt(s[..|s| - 1]))
  {
    var n := |s| - 1;
    forall i | 0 <= i < |Indices(n)| ensures FirstAt(s)(Indices(n)[i]) == FirstAt(s[..n])(Indices(n)[i]) {
      assert s[..i] == s[..n][..i];
    }
    FilterCongruence<nat>(Indices(n), FirstAt(s), FirstAt(s[..n]));
  }

  lemma PickPrefix<T>(s: seq<T>, l: seq<nat>, n: nat)
    requires n < |s| && InRange(l, n)
    ensures InRange(l + [n], |s|)
    ensures Pick(s, l) == Pick(s[..n], l)
    ensures Pick(s, l + [n]) == Pick(s[..n], l) + [s[n]]
  {
  }
}
