/** `Webscrapers.py`: the monthly-listener count and the genres named in the
    bio, read off an artist's Spotify page. The request and the HTML lookup
    are not modelled: a `Page` is what they yield. */
module Webscrapers {
  import opened Common
  import Seqs
  import Text

  /** The response to the artist-page request: its status code, and the
      text of the element the scraper looks for (the monthly-listeners label,
      or the bio) when the page has one. */
  datatype Page = Page(status: int, element: Option<string>)

  const Marker: string := "monthly listener"

  /** What `int()` is given: the label, trimmed, up to the marker, with its
      commas dropped and trimmed again. */
  function ListenerField(shown: string): string
  {
    Text.Strip(Text.RemoveChar(Text.BeforeFirst(Text.Strip(shown), Marker), ','))
  }

  /** `scrape_monthly_listeners`: `None` when the page did not load, 0 when
      it has no label, otherwise the number on the label; a label whose
      leading text is no integer raises `ValueError`. */
  function ScrapeMonthlyListeners(page: Page): (r: Result<Option<int>>)
    ensures r == Ok(None) <==> page.status != 200
    ensures page.status == 200 && page.element.None? ==> r == Ok(Some(0))
    ensures r.Err? ==> r.error == ValueError && page.status == 200 && page.element.Some?
    ensures page.status == 200 && page.element.Some? ==>
              (r.Ok? <==> Text.ParseInt(ListenerField(page.element.value)).Ok?)
  {
    if page.status != 200 then Ok(None)
    else
      match page.element
      case None => Ok(Some(0))
      case Some(shown) =>
        match Text.ParseInt(ListenerField(shown))
        case Err(e) => Err(e)
        case Ok(n) => Ok(Some(n))
  }

  /** Digits written with a comma before each group of three from the
      right, as the page prints counts: `1,234,567`. */
  function Grouped(d: string): (g: string)
    ensures d != [] ==> g != [] && g[0] == d[0]
    ensures forall c :: c in g ==> c in d || c == ','
    decreases |d|
  {
    if |d| <= 3 then d
    else
      var head := Grouped(d[..|d| - 3]);
      assert d[..|d| - 3][0] == d[0];
      head + "," + d[|d| - 3..]
  }

  lemma {:induction false} UngroupDigits(d: string)
    requires ',' !in d
    ensures Text.RemoveChar(Grouped(d), ',') == d
    decreases |d|
  {
    if |d| <= 3 {
      Text.RemoveCharAbsent(d, ',');
    } else {
      var head := d[..|d| - 3];
      var tail := d[|d| - 3..];
      assert ',' !in head by {
        assert forall i :: 0 <= i < |head| ==> head[i] == d[i];
      }
      var g := Grouped(head);
      assert Grouped(d) == (g + ",") + tail;
      UngroupDigits(head);
      assert Text.RemoveChar(",", ',') == [];
      Text.RemoveCharAbsent(tail, ',');
      calc {
        Text.RemoveChar(Grouped(d), ',');
        { Text.RemoveCharConcat(g + ",", tail, ','); }
        Text.RemoveChar(g + ",", ',') + Text.RemoveChar(tail, ',');
        { Text.RemoveCharConcat(g, ",", ','); }
        Text.RemoveChar(g, ',') + Text.RemoveChar(",", ',') + tail;
        head + [] + tail;
        d;
      }
    }
  }

  /** The label the page shows for `n` listeners. */
  function Label(n: nat): string
  {
    Grouped(Text.Decimal(n)) + " " + Marker + "s"
  }

  /** A grouped number holds only digits and commas. */
  lemma GroupedChars(d: string)
    requires forall i :: 0 <= i < |d| ==> Text.IsDigit(d[i])
    ensures forall i :: 0 <= i < |Grouped(d)| ==> Grouped(d)[i] != 'm'
  {
    var g := Grouped(d);
    forall i | 0 <= i < |g| ensures g[i] != 'm' {
      assert g[i] in g;
    }
  }

  /** The marker starts with the only 'm' it has. */
  lemma MarkerFacts()
    ensures |Marker| == 16 && Marker[0] == 'm'
    ensures forall k :: 0 < k < |Marker| ==> Marker[k] != 'm'
  {
  }

  /** After text without an 'm' and a space, the marker is the first. */
  lemma MarkerAfter(g: string, rest: string)
    requires forall i :: 0 <= i < |g| ==> g[i] != 'm'
    ensures Text.BeforeFirst(g + " " + Marker + rest, Marker) == g + " "
  {
    MarkerFacts();
    var s := g + " " + Marker + rest;
    var p := g + " ";
    assert s == p + (Marker + rest);
    assert s[|p|..|p| + |Marker|] == Marker;
    assert Text.Occurs(s, Marker, |p|);
    var r := Text.BeforeFirst(s, Marker);
    assert Text.Occurs(s, Marker, |r|);
    assert s[|r|..|r| + |Marker|][0] == s[|r|] == 'm';
    assert |r| == |p|;
  }

  /** The marker first occurs right after the grouped number and its space. */
  lemma LabelPrefix(n: nat)
    ensures Text.BeforeFirst(Label(n), Marker) == Grouped(Text.Decimal(n)) + " "
  {
    GroupedChars(Text.Decimal(n));
    MarkerAfter(Grouped(Text.Decimal(n)), "s");
  }

  lemma NoComma(d: string)
    requires forall i :: 0 <= i < |d| ==> Text.IsDigit(d[i])
    ensures ',' !in d
  {
  }

  /** A label starting with a digit and ending in a letter has nothing to trim. */
  lemma LabelTrimmed(n: nat)
    ensures Text.Strip(Label(n)) == Label(n)
  {
    var s := Label(n);
    assert s[0] == Text.Decimal(n)[0] && s[|s| - 1] == 's';
  }

  /** Trimming drops the space the number is followed by. */
  lemma TrailingSpace(d: string)
    requires d != [] && forall i :: 0 <= i < |d| ==> Text.IsDigit(d[i])
    ensures Text.Strip(d + " ") == d
  {
    var t := d + " ";
    assert t[..|d|] == d;
    assert Text.StripLeft(t) == t;
    assert Text.StripRight(t) == Text.StripRight(d) == d;
  }

  lemma CommaFreeSpace()
    ensures Text.RemoveChar(" ", ',') == " "
  {
  }

  /** The page's label reads back as the count it shows. */
  lemma LabelRoundTrip(n: nat)
    ensures ScrapeMonthlyListeners(Page(200, Some(Label(n)))) == Ok(Some(n))
  {
    var d := Text.Decimal(n);
    assert ListenerField(Label(n)) == d by {
      var g := Grouped(d);
      LabelTrimmed(n);
      LabelPrefix(n);
      NoComma(d);
      UngroupDigits(d);
      Text.RemoveCharConcat(g, " ", ',');
      CommaFreeSpace();
      TrailingSpace(d);
    }
    Text.ParseDecimal(n);
  }

  /** A label with no number in front of the marker raises. */
  lemma BareLabelRaises(shown: string)
    requires |shown| >= |Marker| && shown[..|Marker|] == Marker
    ensures ScrapeMonthlyListeners(Page(200, Some(shown))) == Err(ValueError)
  {
    assert shown[0] == 'm' && !Text.IsSpace(shown[0]);
    assert Text.StripLeft(shown) == shown;
    var s := Text.StripRight(shown);
    assert shown[15] == Marker[15] == 'r' && !Text.IsSpace(shown[15]);
    assert |s| >= |Marker|;
    assert s[..|Marker|] == shown[..|Marker|];
    assert Text.Occurs(s, Marker, 0);
    Text.BeforeFirstAt(s, Marker, 0);
    assert Text.BeforeFirst(Text.Strip(shown), Marker) == [];
    assert ListenerField(shown) == Text.Strip(Text.RemoveChar([], ','));
  }

  // ---------------------------------------------------------------- genres

  /** The genres test: `g in bio`. */
  function InBio(bio: string): string -> bool
  {
    g => Text.Contains(bio, g)
  }

  /** `scrape_genres_from_bio`: the entries of `genres`, in their order,
      that occur in the lower-cased bio; `None` when the page did not load
      or has no bio. */
  function ScrapeGenresFromBio(page: Page, genres: seq<string>): (r: Option<seq<string>>)
    ensures r.None? <==> page.status != 200 || page.element.None?
    ensures r.Some? ==> |r.value| <= |genres|
    ensures r.Some? ==> forall g :: g in r.value <==> g in genres && Text.Contains(Text.Lower(page.element.value), g)
  {
    if page.status != 200 || page.element.None? then None
    else Some(Seqs.Filter(genres, InBio(Text.Lower(page.element.value))))
  }

  /** The positions of `genres` whose entry occurs in the lower-cased bio,
      in ascending order. */
  function FoundAt(bio: string, genres: seq<string>): (idx: seq<nat>)
    ensures Seqs.InRange(idx, |genres|) && Seqs.Increasing(idx)
    ensures forall i: nat :: i < |genres| ==> (i in idx <==> Text.Contains(Text.Lower(bio), genres[i]))
  {
    var all := Seqs.Indices(|genres|);
    var p := Seqs.Through(genres, InBio(Text.Lower(bio)));
    Seqs.FilterIndices(|genres|, p);
    var r := Seqs.Filter<nat>(all, p);
    assert forall i: nat :: i < |genres| ==> (i in r <==> Text.Contains(Text.Lower(bio), genres[i])) by {
      forall i: nat | i < |genres| ensures i in r <==> Text.Contains(Text.Lower(bio), genres[i]) {
        assert all[i] == i && i in all;
        assert p(i) == Text.Contains(Text.Lower(bio), genres[i]);
      }
    }
    r
  }

  /** The genres found are the listed entries at exactly the positions whose
      entry occurs in the bio, in list order: a genre listed twice is found
      twice. */
  lemma GenresInOrder(bio: string, genres: seq<string>)
    ensures ScrapeGenresFromBio(Page(200, Some(bio)), genres) == Some(Seqs.Pick(genres, FoundAt(bio, genres)))
  {
    Seqs.PickFilter(genres, InBio(Text.Lower(bio)));
  }

  /** Only the bio is lower-cased: a listed genre with a capital letter is
      never found, whatever the bio says. */
  lemma CapitalGenreNeverFound(page: Page, genres: seq<string>, g: string, k: nat)
    requires k < |g| && 'A' <= g[k] <= 'Z'
    requires ScrapeGenresFromBio(page, genres).Some?
    ensures g !in ScrapeGenresFromBio(page, genres).value
  {
    var bio := Text.Lower(page.element.value);
    Text.LowerIsLower(page.element.value);
  }

  /** The bio's case does not matter. */
  lemma BioCaseIgnored(bio: string, genres: seq<string>)
    ensures ScrapeGenresFromBio(Page(200, Some(bio)), genres) == ScrapeGenresFromBio(Page(200, Some(Text.Lower(bio))), genres)
  {
    Text.LowerIsLower(bio);
  }

  /** Distinct genres to look for give distinct genres found, and a bio
      naming every (lower-case) genre finds them all, in the given order. */
  lemma GenresFound(bio: string, genres: seq<string>)
    ensures Seqs.Distinct(genres) ==> Seqs.Distinct(ScrapeGenresFromBio(Page(200, Some(bio)), genres).value)
    ensures (forall i :: 0 <= i < |genres| ==> Text.Contains(Text.Lower(bio), genres[i])) ==>
              ScrapeGenresFromBio(Page(200, Some(bio)), genres) == Some(genres)
  {
    var p := InBio(Text.Lower(bio));
    if Seqs.Distinct(genres) {
      Seqs.FilterDistinct(genres, p);
    }
    if forall i :: 0 <= i < |genres| ==> Text.Contains(Text.Lower(bio), genres[i]) {
      Seqs.FilterAll(genres, p);
    }
  }
}
