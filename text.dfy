/** The Python string operations the scripts use: `lower`, `in`, `split`,
    `strip`, `replace`, `int()`, `join`, and the code-point order that
    `np.unique` sorts strings by. */
module Text {
  import opened Common
  import Seqs

  // ---------------------------------------------------------------- lower()

  function LowerChar(c: char): char
  {
    if 'A' <= c <= 'Z' then (c as int + 32) as char else c
  }

  /** `s.lower()` on ASCII letters. */
  function Lower(s: string): (r: string)
    ensures |r| == |s|
    ensures forall i :: 0 <= i < |s| ==> r[i] == LowerChar(s[i])
  {
    seq(|s|, i requires 0 <= i < |s| => LowerChar(s[i]))
  }

  predicate IsLower(s: string)
  {
    forall i :: 0 <= i < |s| ==> !('A' <= s[i] <= 'Z')
  }

  lemma LowerIsLower(s: string)
    ensures IsLower(Lower(s))
    ensures Lower(Lower(s)) == Lower(s)
  {
  }

  lemma LowerKeepsChar(s: string, c: char)
    requires !('A' <= c <= 'Z') && !('a' <= c <= 'z')
    ensures c in Lower(s) <==> c in s
  {
    if c in s {
      var i :| 0 <= i < |s| && s[i] == c;
      assert Lower(s)[i] == c;
    }
    if c in Lower(s) {
      var i :| 0 <= i < |s| && Lower(s)[i] == c;
      assert s[i] == c;
    }
  }

  // ---------------------------------------------------------------- `in`

  /** `needle in hay` for strings: `needle` occurs at some offset of `hay`. */
  predicate Occurs(hay: string, needle: string, i: int)
  {
    0 <= i && i + |needle| <= |hay| && hay[i..i + |needle|] == needle
  }

  function Contains(hay: string, needle: string): (b: bool)
    ensures b <==> exists i :: Occurs(hay, needle, i)
    decreases |hay|
  {
    if |hay| < |needle| then false
    else if hay[..|needle|] == needle then (assert Occurs(hay, needle, 0); true)
    else
      var rest := Contains(hay[1..], needle);
      assert forall i :: Occurs(hay[1..], needle, i) <==> Occurs(hay, needle, i + 1) by {
        forall i ensures Occurs(hay[1..], needle, i) <==> Occurs(hay, needle, i + 1) {
          if 0 <= i && i + |needle| <= |hay[1..]| {
            assert hay[1..][i..i + |needle|] == hay[i + 1..i + 1 + |needle|];
          }
        }
      }
      assert !Occurs(hay, needle, 0);
      assert (exists i :: Occurs(hay, needle, i)) ==> exists i :: Occurs(hay[1..], needle, i) by {
        if exists i :: Occurs(hay, needle, i) {
          var i :| Occurs(hay, needle, i);
          assert i != 0;
          assert Occurs(hay[1..], needle, i - 1);
        }
      }
      rest
  }

  // ---------------------------------------------------------------- split()

  /** Index of the first occurrence of `sep` in `s`, if any. */
  function IndexOf(s: string, sep: string): (r: Option<nat>)
    requires |sep| > 0
    ensures r.Some? ==> Occurs(s, sep, r.value) && forall j :: 0 <= j < r.value ==> !Occurs(s, sep, j)
    ensures r.None? ==> forall j :: !Occurs(s, sep, j)
    decreases |s|
  {
    if |s| < |sep| then None
    else if s[..|sep|] == sep then Some(0)
    else
      var r := IndexOf(s[1..], sep);
      assert forall j :: Occurs(s[1..], sep, j) <==> Occurs(s, sep, j + 1) by {
        forall j ensures Occurs(s[1..], sep, j) <==> Occurs(s, sep, j + 1) {
          if 0 <= j && j + |sep| <= |s[1..]| {
            assert s[1..][j..j + |sep|] == s[j + 1..j + 1 + |sep|];
          }
        }
      }
      assert !Occurs(s, sep, 0);
      match r
      case None =>
        assert forall j :: !Occurs(s, sep, j) by {
          forall j ensures !Occurs(s, sep, j) {
            if j > 0 { assert !Occurs(s[1..], sep, j - 1); }
          }
        }
        None
      case Some(k) =>
        assert forall j :: 0 <= j < k + 1 ==> !Occurs(s, sep, j) by {
          forall j | 0 < j < k + 1 ensures !Occurs(s, sep, j) {
            assert !Occurs(s[1..], sep, j - 1);
          }
        }
        Some(k + 1)
  }

  /** `s.split(sep)[0]`: the text before the first occurrence of `sep`. */
  function BeforeFirst(s: string, sep: string): (r: string)
    requires |sep| > 0
    ensures r <= s
    ensures !Contains(r, sep)
    ensures Contains(s, sep) ==> Occurs(s, sep, |r|)
    ensures !Contains(s, sep) ==> r == s
  {
    match IndexOf(s, sep)
    case None => s
    case Some(i) =>
      assert forall j :: Occurs(s[..i], sep, j) ==> Occurs(s, sep, j) by {
        forall j | Occurs(s[..i], sep, j) ensures Occurs(s, sep, j) {
          assert s[..i][j..j + |sep|] == s[j..j + |sep|];
        }
      }
      s[..i]
  }

  /** `s.split(sep)[-1]`: the text after the last occurrence of `sep`. */
  function AfterLast(s: string, sep: string): (r: string)
    requires |sep| > 0
    ensures |r| <= |s| && r == s[|s| - |r|..]
    ensures !Contains(r, sep)
    ensures !Contains(s, sep) ==> r == s
    decreases |s|
  {
    match IndexOf(s, sep)
    case None => s
    case Some(i) =>
      var r := AfterLast(s[i + |sep|..], sep);
      DropDrop(s, i + |sep|, |s| - i - |sep| - |r|);
      r
  }

  lemma DropDrop<T>(s: seq<T>, k: nat, m: nat)
    requires k + m <= |s|
    ensures s[k..][m..] == s[k + m..]
  {
  }

  /** `len(s.split(sep))`: one more than the number of occurrences of `sep`
      found scanning left to right without overlap. */
  function SplitCount(s: string, sep: string): (n: nat)
    requires |sep| > 0
    ensures n >= 1
    decreases |s|
  {
    match IndexOf(s, sep)
    case None => 1
    case Some(i) => 1 + SplitCount(s[i + |sep|..], sep)
  }

  /** Each occurrence uses up `|sep|` characters, so a short string cannot
      split into many parts. */
  lemma {:induction false} SplitCountBound(s: string, sep: string)
    requires |sep| > 0
    ensures (SplitCount(s, sep) - 1) * |sep| <= |s|
    decreases |s|
  {
    match IndexOf(s, sep)
    case None =>
    case Some(i) =>
      var rest := s[i + |sep|..];
      SplitCountBound(rest, sep);
      MulSucc(SplitCount(rest, sep), |sep|);
  }

  lemma MulSucc(c: int, k: int)
    ensures c * k == (c - 1) * k + k
  {
  }

  /** `sep.join(parts)` */
  function Join(parts: seq<string>, sep: string): string
  {
    if parts == [] then ""
    else if |parts| == 1 then parts[0]
    else parts[0] + sep + Join(parts[1..], sep)
  }

  // ---------------------------------------------------------------- strip(), replace()

  /** The ASCII characters for which Python's `str.isspace()` holds. */
  predicate IsSpace(c: char)
  {
    c == ' ' || c == '\t' || c == '\n' || c == '\r' || c == '\U{B}' || c == '\U{C}'
    || c == '\U{1C}' || c == '\U{1D}' || c == '\U{1E}' || c == '\U{1F}'
  }

  function StripLeft(s: string): (r: string)
    ensures |r| <= |s| && r == s[|s| - |r|..]
    ensures r == [] || !IsSpace(r[0])
    ensures forall i :: 0 <= i < |s| - |r| ==> IsSpace(s[i])
  {
    if s != [] && IsSpace(s[0]) then StripLeft(s[1..]) else s
  }

  function StripRight(s: string): (r: string)
    ensures r <= s
    ensures r == [] || !IsSpace(r[|r| - 1])
    ensures forall i :: |r| <= i < |s| ==> IsSpace(s[i])
  {
    if s != [] && IsSpace(s[|s| - 1]) then StripRight(s[..|s| - 1]) else s
  }

  /** `s.strip()` */
  function Strip(s: string): string
  {
    StripRight(StripLeft(s))
  }

  lemma StripNoSpace(s: string)
    requires forall i :: 0 <= i < |s| ==> !IsSpace(s[i])
    ensures Strip(s) == s
  {
  }

  /** `s.replace(c, "")` for a single character. */
  function RemoveChar(s: string, c: char): (r: string)
    ensures c !in r
    ensures forall x :: x != c ==> (x in r <==> x in s)
  {
    if s == [] then [] else (if s[0] == c then [] else [s[0]]) + RemoveChar(s[1..], c)
  }

  lemma {:induction false} RemoveCharConcat(a: string, b: string, c: char)
    ensures RemoveChar(a + b, c) == RemoveChar(a, c) + RemoveChar(b, c)
  {
    if a == [] {
      assert a + b == b;
    } else {
      assert (a + b)[1..] == a[1..] + b;
      RemoveCharConcat(a[1..], b, c);
    }
  }

  lemma {:induction false} RemoveCharAbsent(s: string, c: char)
    requires c !in s
    ensures RemoveChar(s, c) == s
  {
    if s != [] {
      RemoveCharAbsent(s[1..], c);
    }
  }

  // ---------------------------------------------------------------- int()

  predicate IsDigit(c: char) { '0' <= c <= '9' }

  /** A date as `strftime("%Y-%m-%d")` writes it: digits and dashes. */
  predicate DateLike(d: string)
  {
    forall i :: 0 <= i < |d| ==> IsDigit(d[i]) || d[i] == '-'
  }

  function DigitValue(c: char): nat
    requires IsDigit(c)
  {
    c as int - '0' as int
  }

  function DigitsValue(d: string): nat
    requires forall i :: 0 <= i < |d| ==> IsDigit(d[i])
  {
    if d == [] then 0
    else DigitsValue(d[..|d| - 1]) * 10 + DigitValue(d[|d| - 1])
  }

  /** `int(s)` on a `str`: surrounding whitespace, an optional sign, and one
      or more ASCII digits; anything else raises `ValueError`. */
  function ParseInt(s: string): (r: Result<int>)
    ensures r.Err? ==> r.error == ValueError
  {
    var t := Strip(s);
    var neg := |t| > 0 && t[0] == '-';
    var body := if |t| > 0 && (t[0] == '-' || t[0] == '+') then t[1..] else t;
    if |body| > 0 && forall i :: 0 <= i < |body| ==> IsDigit(body[i]) then
      var v: int := DigitsValue(body);
      Ok(if neg then -v else v)
    else Err(ValueError)
  }

  /** The decimal digits of `n`, most significant first. */
  function Decimal(n: nat): (d: string)
    ensures |d| > 0
    ensures forall i :: 0 <= i < |d| ==> IsDigit(d[i])
    ensures DigitsValue(d) == n
  {
    var last := ['0' + (n % 10) as char];
    if n < 10 then
      assert DigitsValue(last) == DigitsValue([]) * 10 + n;
      last
    else
      var d := Decimal(n / 10) + last;
      assert d[..|d| - 1] == Decimal(n / 10);
      d
  }

  lemma ParseDecimal(n: nat)
    ensures ParseInt(Decimal(n)) == Ok(n)
  {
    var d := Decimal(n);
    StripNoSpace(d);
    assert d[0] != '-' && d[0] != '+' by { assert IsDigit(d[0]); }
  }

  // ---------------------------------------------------------------- np.unique

  /** Code-point lexicographic order on strings. */
  predicate LexLess(a: string, b: string)
    decreases |a|
  {
    if a == [] then b != []
    else if b == [] then false
    else if a[0] != b[0] then a[0] < b[0]
    else LexLess(a[1..], b[1..])
  }

  lemma {:induction false} LexIrreflexive(a: string)
    ensures !LexLess(a, a)
    decreases |a|
  {
    if a != [] { LexIrreflexive(a[1..]); }
  }

  lemma {:induction false} LexTransitive(a: string, b: string, c: string)
    requires LexLess(a, b) && LexLess(b, c)
    ensures LexLess(a, c)
    decreases |a|
  {
    if a != [] && b != [] && c != [] && a[0] == b[0] && b[0] == c[0] {
      LexTransitive(a[1..], b[1..], c[1..]);
    }
  }

  lemma {:induction false} LexTotal(a: string, b: string)
    requires a != b
    ensures LexLess(a, b) || LexLess(b, a)
    decreases |a|
  {
    if a != [] && b != [] && a[0] == b[0] {
      assert a == [a[0]] + a[1..] && b == [b[0]] + b[1..];
      LexTotal(a[1..], b[1..]);
    }
  }

  predicate StrictlySorted(s: seq<string>)
  {
    forall i, j :: 0 <= i < j < |s| ==> LexLess(s[i], s[j])
  }

  function InsertSorted(x: string, s: seq<string>): (r: seq<string>)
    requires StrictlySorted(s)
    ensures StrictlySorted(r)
    ensures forall y :: y in r <==> y == x || y in s
  {
    if s == [] then [x]
    else if x == s[0] then s
    else if LexLess(x, s[0]) then
      assert forall j :: 0 < j < |s| ==> LexLess(x, s[j]) by {
        forall j | 0 < j < |s| ensures LexLess(x, s[j]) { LexTransitive(x, s[0], s[j]); }
      }
      [x] + s
    else
      LexTotal(x, s[0]);
      var t := InsertSorted(x, s[1..]);
      assert forall y :: y in s <==> y == s[0] || y in s[1..] by {
        assert s == [s[0]] + s[1..];
      }
      assert forall j :: 0 <= j < |t| ==> LexLess(s[0], t[j]) by {
        forall j | 0 <= j < |t| ensures LexLess(s[0], t[j]) {
          assert t[j] in t;
          if t[j] != x {
            var k :| 0 <= k < |s[1..]| && s[1..][k] == t[j];
            assert s[k + 1] == t[j];
          }
        }
      }
      [s[0]] + t
  }

  /** The first array returned by `np.unique` on a list of strings: its
      distinct values in ascending order. */
  function UniqueSorted(s: seq<string>): (r: seq<string>)
    ensures StrictlySorted(r)
    ensures forall y :: y in r <==> y in s
  {
    if s == [] then []
    else
      assert forall y :: y in s <==> y == s[0] || y in s[1..] by {
        assert s == [s[0]] + s[1..];
      }
      InsertSorted(s[0], UniqueSorted(s[1..]))
  }

  lemma StrictlySortedDistinct(s: seq<string>)
    requires StrictlySorted(s)
    ensures Seqs.Distinct(s)
  {
    forall i, j | 0 <= i < j < |s| ensures s[i] != s[j] {
      if s[i] == s[j] { LexIrreflexive(s[i]); }
    }
  }

  /** `np.unique(keys, return_index=True)`: the distinct keys in ascending
      order, and for each the index of its first occurrence. */
  function UniqueIndex(keys: seq<string>): (r: (seq<string>, seq<nat>))
    ensures StrictlySorted(r.0)
    ensures forall y :: y in r.0 <==> y in keys
    ensures |r.1| == |r.0| && Seqs.InRange(r.1, |keys|)
    ensures forall k :: 0 <= k < |r.0| ==> keys[r.1[k]] == r.0[k] && r.0[k] !in keys[..r.1[k]]
  {
    var u := UniqueSorted(keys);
    (u, seq(|u|, k requires 0 <= k < |u| => Seqs.FirstIndex(keys, u[k])))
  }

  /** `s.split(sep)[0]` when the first occurrence of `sep` is at `k`. */
  lemma BeforeFirstAt(s: string, sep: string, k: nat)
    requires |sep| > 0 && Occurs(s, sep, k)
    requires forall j :: 0 <= j < k ==> !Occurs(s, sep, j)
    ensures BeforeFirst(s, sep) == s[..k]
  {
    assert IndexOf(s, sep) == Some(k);
  }

  /** Text without the needle's first character does not contain it. */
  lemma FirstCharAbsent(hay: string, needle: string)
    requires |needle| > 0 && forall i :: 0 <= i < |hay| ==> hay[i] != needle[0]
    ensures !Contains(hay, needle)
  {
    forall i ensures !Occurs(hay, needle, i) {
      if 0 <= i && i + |needle| <= |hay| {
        assert hay[i..i + |needle|][0] == hay[i];
      }
    }
  }

  /** `(sep + rest).split(sep)[-1]` when `rest` holds no `sep`. */
  lemma AfterLeading(sep: string, rest: string)
    requires |sep| > 0 && !Contains(rest, sep)
    ensures AfterLast(sep + rest, sep) == rest
  {
    var s := sep + rest;
    assert s[..|sep|] == sep;
    assert IndexOf(s, sep) == Some(0);
    assert s[|sep|..] == rest;
  }
}
