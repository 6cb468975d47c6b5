/** `MusicBrainz_ArtistNames_IDs.py`: cleaning the MusicBrainz name list,
    matching names against the ledgers, choosing new names, resolving them
    to Spotify ids in batches, and the deep-scrape pass over the missing
    names. */
module ArtistNamesIds {
  import opened Common
  import Seqs
  import Text
  import opened Ledger
  import ArtistInfoHelper

  /** The paths read from `config.json`. */
  datatype Config = Config(
    outputDir: string, artistNamesFile: string, artistIdsFile: string,
    missingNamesFile: string, deepMissingNamesFile: string)
  {
    function ArtistNamesPath(): string { outputDir + artistNamesFile }
    function ArtistIdsPath(): string { outputDir + artistIdsFile }
    function MissingNamesPath(): string { outputDir + missingNamesFile }
    function DeepMissingNamesPath(): string { outputDir + deepMissingNamesFile }
    /** The file the deep-scrape pass appends to: a literal name, not the configured one. */
    function DeepScrapeOutputPath(): string { outputDir + "deep_missing_names.csv" }
  }

  /** Seconds of alarm per batch of id lookups. */
  const Timeout: nat := 600

  const ResolveBatch: nat := 100

  /** Seconds of pause between lookup batches. */
  const ResolvePause: nat := 30

  /** Rows per chunk when a ledger is scanned. */
  const LedgerChunk: nat := 1000

  // ---------------------------------------------------------------- load_clean_artist_names

  predicate NoBrackets(s: string)
  {
    '[' !in s && ']' !in s
  }

  predicate Keep(s: string)
  {
    |s| > 0 && NoBrackets(s)
  }

  /** The `str` entries of a column, in order. */
  function Strs(cs: seq<Cell>): (r: seq<string>)
    ensures forall s :: s in r <==> Str(s) in cs
  {
    if cs == [] then [] else (if cs[0].Str? then [cs[0].s] else []) + Strs(cs[1..])
  }

  lemma {:induction false} StrsConcat(a: seq<Cell>, b: seq<Cell>)
    ensures Strs(a + b) == Strs(a) + Strs(b)
  {
    if a == [] {
      assert a + b == b;
    } else {
      assert (a + b)[1..] == a[1..] + b;
      StrsConcat(a[1..], b);
    }
  }

  lemma {:induction false} StrsDistinct(cs: seq<Cell>)
    requires Seqs.Distinct(cs)
    ensures Seqs.Distinct(Strs(cs))
  {
    if cs != [] {
      assert Seqs.Distinct(cs[1..]);
      StrsDistinct(cs[1..]);
      if cs[0].Str? {
        assert Str(cs[0].s) !in cs[1..];
      }
    }
  }

  /** The names that survive the dedupe, type, empty and bracket filters,
      before lowercasing. */
  function Survivors(raw: seq<Cell>): (r: seq<string>)
    ensures forall s :: s in r <==> Str(s) in raw && Keep(s)
  {
    Seqs.Filter(Strs(Seqs.Dedupe(raw)), Keep)
  }

  /** `load_clean_artist_names` after the read: the surviving names, lowercased. */
  function CleanNames(raw: seq<Cell>): seq<string>
  {
    Seqs.Map(Survivors(raw), Text.Lower)
  }

  /** Every cleaned name is lowercase, non-empty and bracket-free, and is
      the lowercasing of a name in the column. */
  lemma CleanNamesSound(raw: seq<Cell>)
    ensures forall i :: 0 <= i < |CleanNames(raw)| ==>
              && Text.IsLower(CleanNames(raw)[i]) && |CleanNames(raw)[i]| > 0 && NoBrackets(CleanNames(raw)[i])
              && Str(Survivors(raw)[i]) in raw && CleanNames(raw)[i] == Text.Lower(Survivors(raw)[i])
  {
    var sv := Survivors(raw);
    forall i | 0 <= i < |sv|
      ensures Text.IsLower(Text.Lower(sv[i])) && |Text.Lower(sv[i])| > 0 && NoBrackets(Text.Lower(sv[i]))
    {
      assert sv[i] in sv;
      Text.LowerIsLower(sv[i]);
      Text.LowerKeepsChar(sv[i], '[');
      Text.LowerKeepsChar(sv[i], ']');
    }
  }

  /** The dedupe runs on the names as stored, so the survivors are distinct
      before lowercasing. */
  lemma SurvivorsDistinct(raw: seq<Cell>)
    ensures Seqs.Distinct(Survivors(raw))
  {
    StrsDistinct(Seqs.Dedupe(raw));
    Seqs.FilterDistinct(Strs(Seqs.Dedupe(raw)), Keep);
  }

  /** Cleaning a prefix of the column gives a prefix of the cleaned list:
      names come out in the order of their first occurrence. */
  lemma CleanNamesPrefix(raw: seq<Cell>, k: nat)
    requires k <= |raw|
    ensures CleanNames(raw[..k]) <= CleanNames(raw)
  {
    Seqs.DedupePrefix(raw, k);
    var a, b := Seqs.Dedupe(raw[..k]), Seqs.Dedupe(raw);
    assert b == a + b[|a|..];
    StrsConcat(a, b[|a|..]);
    Seqs.FilterPrefix(Strs(a), Strs(b), Keep);
  }

  /** Case variants of one name are not merged: they come out as repeats. */
  lemma CaseVariantsRepeat()
    ensures CleanNames([Str("ABBA"), Str("abba")]) == ["abba", "abba"]
  {
    var raw := [Str("ABBA"), Str("abba")];
    assert raw[..1] == [Str("ABBA")];
    assert Seqs.Dedupe(raw[..1]) == [Str("ABBA")];
    assert Seqs.Dedupe(raw) == raw;
    assert Strs(raw[1..]) == ["abba"];
    assert Strs(raw) == ["ABBA", "abba"];
    assert Keep("ABBA") && Keep("abba");
    assert Seqs.Filter(["abba"], Keep) == ["abba"];
    assert Survivors(raw) == ["ABBA", "abba"];
    var l := Text.Lower("ABBA");
    assert l[0] == 'a' && l[1] == 'b' && l[2] == 'b' && l[3] == 'a';
    assert l == "abba";
    assert Text.Lower("abba") == "abba";
  }

  /** `load_clean_artist_names()` */
  function LoadCleanArtistNames(fs: Fs, cfg: Config): Result<seq<string>>
  {
    match ReadColumn(fs, cfg.ArtistNamesPath(), "artist_name")
    case Err(e) => Err(e)
    case Ok(raw) => Ok(CleanNames(raw))
  }

  // ---------------------------------------------------------------- get_names_already_in_file

  /** Some `str` entry of the cells lowercases to `x`. */
  predicate NameIn(x: string, cs: seq<Cell>)
  {
    exists j :: 0 <= j < |cs| && cs[j].Str? && Text.Lower(cs[j].s) == x
  }

  lemma NameInConcat(x: string, a: seq<Cell>, b: seq<Cell>)
    ensures NameIn(x, a + b) <==> NameIn(x, a) || NameIn(x, b)
  {
    if NameIn(x, a + b) {
      var j :| 0 <= j < |a + b| && (a + b)[j].Str? && Text.Lower((a + b)[j].s) == x;
      if j >= |a| {
        assert b[j - |a|] == (a + b)[j];
      }
    }
    if NameIn(x, a) {
      var j :| 0 <= j < |a| && a[j].Str? && Text.Lower(a[j].s) == x;
      assert (a + b)[j] == a[j];
    }
    if NameIn(x, b) {
      var j :| 0 <= j < |b| && b[j].Str? && Text.Lower(b[j].s) == x;
      assert (a + b)[j + |a|] == b[j];
    }
  }

  predicate AllStr(cs: seq<Cell>)
  {
    forall j :: 0 <= j < |cs| ==> cs[j].Str?
  }

  /** `[name.lower() for name in chunk['names']]`: a field that is not a
      string (an empty field reads as a float NaN) has no `lower`. */
  function LowerCells(cs: seq<Cell>): (r: Result<seq<string>>)
    ensures r.Ok? <==> AllStr(cs)
    ensures r.Err? ==> r.error == AttributeError
    ensures r.Ok? ==> forall x :: x in r.value <==> NameIn(x, cs)
  {
    if AllStr(cs) then
      var names := seq(|cs|, j requires 0 <= j < |cs| => Text.Lower(cs[j].s));
      assert forall x :: x in names ==> NameIn(x, cs);
      assert forall x :: NameIn(x, cs) ==> x in names by {
        forall x | NameIn(x, cs) ensures x in names {
          var j :| 0 <= j < |cs| && cs[j].Str? && Text.Lower(cs[j].s) == x;
          assert names[j] == x;
        }
      }
      Ok(names)
    else Err(AttributeError)
  }

  /** The cells of the first `k` chunks of a column. */
  function ScannedCells(cells: seq<Cell>, k: nat): seq<Cell>
  {
    var chunks := Seqs.Chunks(cells, LedgerChunk);
    if k <= |chunks| then Seqs.Flatten(chunks[..k]) else cells
  }

  lemma ScannedPrefix(cells: seq<Cell>, k: nat)
    ensures ScannedCells(cells, k) <= cells
  {
    var chunks := Seqs.Chunks(cells, LedgerChunk);
    if k <= |chunks| {
      assert chunks == chunks[..k] + chunks[k..];
      Seqs.FlattenConcat(chunks[..k], chunks[k..]);
    }
  }

  lemma NameInPrefix(x: string, a: seq<Cell>, b: seq<Cell>)
    requires a <= b && NameIn(x, a)
    ensures NameIn(x, b)
  {
    var j :| 0 <= j < |a| && a[j].Str? && Text.Lower(a[j].s) == x;
    assert b[j] == a[j];
  }

  lemma LowerTwice(names: seq<string>)
    ensures Seqs.Map(Seqs.Map(names, Text.Lower), Text.Lower) == Seqs.Map(names, Text.Lower)
  {
    forall i | 0 <= i < |names| ensures Text.Lower(Text.Lower(names[i])) == Text.Lower(names[i]) {
      Text.LowerIsLower(names[i]);
    }
  }

  /** The lowercased candidates that one chunk of the 'names' column holds:
      the set `set(artist_names) & set(chunk_artists)`. */
  ghost function ChunkHits(chunk: seq<Cell>, names: seq<string>): set<string>
  {
    set x | x in Seqs.Map(names, Text.Lower) && NameIn(x, chunk)
  }

  /** The length of `saved_artists` after `k` chunks: each chunk adds the
      size of its set of matches. */
  ghost function Hits(chunks: seq<seq<Cell>>, names: seq<string>, k: nat): nat
    requires k <= |chunks|
  {
    if k == 0 then 0 else Hits(chunks, names, k - 1) + |ChunkHits(chunks[k - 1], names)|
  }

  /** How many chunks the scan reads when it reaches chunk `j`: it ends after
      a chunk holding a field that is not a string, which raises, after the
      first chunk that brings the count to the number of candidates, or
      after the last chunk. */
  ghost function ScanEndFrom(chunks: seq<seq<Cell>>, names: seq<string>, j: nat): nat
    requires j <= |chunks|
    decreases |chunks| - j
  {
    if j == |chunks| then j
    else if !AllStr(chunks[j]) || Hits(chunks, names, j + 1) == |names| then j + 1
    else ScanEndFrom(chunks, names, j + 1)
  }

  ghost function ScanEnd(chunks: seq<seq<Cell>>, names: seq<string>): nat
  {
    ScanEndFrom(chunks, names, 0)
  }

  lemma {:induction false} ScanEndFromFacts(chunks: seq<seq<Cell>>, names: seq<string>, j: nat)
    requires j <= |chunks|
    ensures j <= ScanEndFrom(chunks, names, j) <= |chunks|
    ensures forall i :: j <= i < ScanEndFrom(chunks, names, j) - 1 ==> AllStr(chunks[i])
    ensures forall k :: j < k < ScanEndFrom(chunks, names, j) ==> Hits(chunks, names, k) != |names|
    ensures ScanEndFrom(chunks, names, j) < |chunks| ==>
              var e := ScanEndFrom(chunks, names, j);
              e > j && (!AllStr(chunks[e - 1]) || Hits(chunks, names, e) == |names|)
    decreases |chunks| - j
  {
    if j < |chunks| && AllStr(chunks[j]) && Hits(chunks, names, j + 1) != |names| {
      ScanEndFromFacts(chunks, names, j + 1);
    }
  }

  /** The scan stops at the first chunk after which the count of matches
      equals the number of candidates, or at the first chunk that raises:
      every chunk before the last one read was all strings and left the
      count short, and the last one read, unless it is the final chunk,
      raised or reached the count. */
  lemma ScanStop(chunks: seq<seq<Cell>>, names: seq<string>)
    ensures ScanEnd(chunks, names) <= |chunks|
    ensures forall i :: 0 <= i < ScanEnd(chunks, names) - 1 ==> AllStr(chunks[i])
    ensures forall k :: 0 < k < ScanEnd(chunks, names) ==> Hits(chunks, names, k) != |names|
    ensures ScanEnd(chunks, names) < |chunks| ==>
              var e := ScanEnd(chunks, names);
              e > 0 && (!AllStr(chunks[e - 1]) || Hits(chunks, names, e) == |names|)
  {
    ScanEndFromFacts(chunks, names, 0);
  }

  /** `get_names_already_in_file(artist_names, filename)`: the lowercased
      candidates found in the ledger's 'names' column, scanned in chunks of
      1000 rows until as many matches as candidates have been collected.
      Each chunk contributes the set of its matches, in an unspecified
      order. `scanned` is the number of chunks read. */
  method GetNamesAlreadyInFile(fs: Fs, path: string, names: seq<string>) returns (r: Result<seq<string>>, scanned: nat)
    ensures path !in fs ==> r == Ok([]) && scanned == 0
    ensures path in fs && ReadUsecol(fs, path, "names").Err? ==> r == Err(ReadUsecol(fs, path, "names").error)
    ensures path in fs && ReadUsecol(fs, path, "names").Ok? ==>
      var cells := ReadUsecol(fs, path, "names").value;
      && scanned <= |Seqs.Chunks(cells, LedgerChunk)|
      && (r.Err? <==> !AllStr(ScannedCells(cells, scanned)))
      && (r.Err? ==> r.error == AttributeError)
      && (r.Ok? ==> forall x :: x in r.value <==> x in Seqs.Map(names, Text.Lower) && NameIn(x, ScannedCells(cells, scanned)))
      && (r.Ok? && scanned < |Seqs.Chunks(cells, LedgerChunk)| ==> |r.value| == |names|)
      && scanned == ScanEnd(Seqs.Chunks(cells, LedgerChunk), names)
      && (r.Ok? ==> |r.value| == Hits(Seqs.Chunks(cells, LedgerChunk), names, scanned))
  {
    if path !in fs {
      return Ok([]), 0;
    }
    var column := ReadUsecol(fs, path, "names");
    if column.Err? {
      return Err(column.error), 0;
    }
    r, scanned := ScanChunks(Seqs.Chunks(column.value, LedgerChunk), names);
  }

  /** The chunk loop of `get_names_already_in_file`, over the chunks of the
      'names' column. */
  method ScanChunks(chunks: seq<seq<Cell>>, names: seq<string>) returns (r: Result<seq<string>>, scanned: nat)
    ensures scanned <= |chunks|
    ensures r.Err? <==> !AllStr(Seqs.Flatten(chunks[..scanned]))
    ensures r.Err? ==> r.error == AttributeError
    ensures r.Ok? ==> forall x :: x in r.value <==> x in Seqs.Map(names, Text.Lower) && NameIn(x, Seqs.Flatten(chunks[..scanned]))
    ensures r.Ok? && scanned < |chunks| ==> |r.value| == |names|
    ensures scanned == ScanEnd(chunks, names)
    ensures r.Ok? ==> |r.value| == Hits(chunks, names, scanned)
  {
    scanned := 0;
    var saved: seq<string> := [];
    var lowered := names;
    LowerTwice(names);
    while scanned < |chunks|
      invariant 0 <= scanned <= |chunks|
      invariant lowered == names || lowered == Seqs.Map(names, Text.Lower)
      invariant AllStr(Seqs.Flatten(chunks[..scanned]))
      invariant forall x :: x in saved <==> x in Seqs.Map(names, Text.Lower) && NameIn(x, Seqs.Flatten(chunks[..scanned]))
      invariant |saved| == Hits(chunks, names, scanned)
      invariant ScanEndFrom(chunks, names, scanned) == ScanEnd(chunks, names)
    {
      var chunk := chunks[scanned];
      ghost var before := Seqs.Flatten(chunks[..scanned]);
      ScanStep(chunks, scanned);
      var chunkNames := LowerCells(chunk);
      if chunkNames.Err? {
        AllStrConcat(before, chunk);
        return Err(chunkNames.error), scanned + 1;
      }
      AllStrConcat(before, chunk);
      lowered := Seqs.Map(lowered, Text.Lower);
      var found := BothIn(lowered, chunkNames.value);
      CommonHits(lowered, names, chunk, chunkNames.value);
      ScanAdvance(chunks, names, scanned, saved, found);
      saved := saved + found;
      scanned := scanned + 1;
      if |saved| == |lowered| {
        break;
      }
    }
    r := Ok(saved);
  }

  /** `list(set(a) & set(b))`: the values in both lists, once each, in an
      order the model does not fix. */
  method BothIn(a: seq<string>, b: seq<string>) returns (found: seq<string>)
    ensures Seqs.Enumerates(found, set x | x in a && x in b)
  {
    var common := set x | x in a && x in b;
    Seqs.EnumerationExists(common);
    found :| Seqs.Enumerates(found, common);
  }

  /** `set(artist_names) & set(chunk_artists)` is the chunk's set of
      matches. */
  lemma CommonHits(lowered: seq<string>, names: seq<string>, chunk: seq<Cell>, chunkNames: seq<string>)
    requires lowered == Seqs.Map(names, Text.Lower)
    requires forall x :: x in chunkNames <==> NameIn(x, chunk)
    ensures (set x | x in lowered && x in chunkNames) == ChunkHits(chunk, names)
  {
  }

  /** Adding the matches of the next chunk to those of the chunks read
      gives the matches, and the count, one chunk further on. */
  lemma ScanAdvance(chunks: seq<seq<Cell>>, names: seq<string>, k: nat, saved: seq<string>, found: seq<string>)
    requires k < |chunks|
    requires forall x :: x in saved <==> x in Seqs.Map(names, Text.Lower) && NameIn(x, Seqs.Flatten(chunks[..k]))
    requires |saved| == Hits(chunks, names, k)
    requires Seqs.Enumerates(found, ChunkHits(chunks[k], names))
    ensures forall x :: x in saved + found <==> x in Seqs.Map(names, Text.Lower) && NameIn(x, Seqs.Flatten(chunks[..k + 1]))
    ensures |saved + found| == Hits(chunks, names, k + 1)
    ensures AllStr(chunks[k]) && |saved + found| != |names| ==> ScanEndFrom(chunks, names, k + 1) == ScanEndFrom(chunks, names, k)
    ensures |saved + found| == |names| ==> ScanEndFrom(chunks, names, k) == k + 1
  {
    ScanStep(chunks, k);
    Seqs.EnumerationCard(found, ChunkHits(chunks[k], names));
    forall x ensures NameIn(x, Seqs.Flatten(chunks[..k + 1])) <==> NameIn(x, Seqs.Flatten(chunks[..k])) || NameIn(x, chunks[k]) {
      NameInConcat(x, Seqs.Flatten(chunks[..k]), chunks[k]);
    }
  }

  /** One more chunk read appends that chunk's cells. */
  lemma ScanStep(chunks: seq<seq<Cell>>, k: nat)
    requires k < |chunks|
    ensures Seqs.Flatten(chunks[..k + 1]) == Seqs.Flatten(chunks[..k]) + chunks[k]
  {
    Seqs.TakeSnoc(chunks, k);
    Seqs.FlattenSnoc(chunks[..k], chunks[k]);
  }

  lemma AllStrConcat(a: seq<Cell>, b: seq<Cell>)
    ensures AllStr(a + b) <==> AllStr(a) && AllStr(b)
  {
    if AllStr(a + b) {
      forall j | 0 <= j < |a| ensures a[j].Str? {
        assert (a + b)[j] == a[j];
      }
      forall j | 0 <= j < |b| ensures b[j].Str? {
        assert (a + b)[|a| + j] == b[j];
      }
    }
  }

  /** What the scan reports is in the ledger. */
  lemma ScannedNamesInLedger(x: string, cells: seq<Cell>, k: nat)
    requires NameIn(x, ScannedCells(cells, k))
    ensures NameIn(x, cells)
  {
    ScannedPrefix(cells, k);
    NameInPrefix(x, ScannedCells(cells, k), cells);
  }

  // ---------------------------------------------------------------- only_new_names

  /** The `while` loop of `only_new_names`: names are popped from the end of
      the list until `n` of them are not in `saved`; running out of names
      is an `IndexError`. `rest` is what remains of the list. */
  method PopNew(names: seq<string>, saved: seq<string>, n: int) returns (r: Result<seq<string>>, rest: seq<string>)
    ensures rest <= names
    ensures r.Ok? <==> n <= |Seqs.NotIn(names, saved)|
    ensures r.Err? ==> r.error == IndexError && rest == []
    ensures r.Ok? ==> r.value == Seqs.NotIn(Seqs.Reverse(names[|rest|..]), saved)
    ensures r.Ok? ==> |r.value| == (if n > 0 then n else 0)
    ensures r.Ok? && n > 0 ==> |rest| < |names| && names[|rest|] !in saved
  {
    var picked: seq<string> := [];
    var k := |names|;
    while |picked| < n
      invariant 0 <= k <= |names|
      invariant picked == Seqs.NotIn(Seqs.Reverse(names[k..]), saved)
      invariant |picked| <= (if n > 0 then n else 0)
      invariant |picked| >= n && n > 0 ==> k < |names| && names[k] !in saved
      decreases k
    {
      if k == 0 {
        PickedBound(names, k, saved);
        return Err(IndexError), [];
      }
      var name := names[k - 1];
      PopStep(names, k, saved);
      k := k - 1;
      if name !in saved {
        picked := picked + [name];
      }
    }
    PickedBound(names, k, saved);
    return Ok(picked), names[..k];
  }

  /** The names picked so far are at most all the new names, and all of
      them once the list is used up. */
  lemma PickedBound(names: seq<string>, k: nat, saved: seq<string>)
    requires k <= |names|
    ensures |Seqs.NotIn(Seqs.Reverse(names[k..]), saved)| <= |Seqs.NotIn(names, saved)|
    ensures k == 0 ==> |Seqs.NotIn(Seqs.Reverse(names[k..]), saved)| == |Seqs.NotIn(names, saved)|
  {
    assert names == names[..k] + names[k..];
    Seqs.NotInConcat(names[..k], names[k..], saved);
    Seqs.NotInReverse(names[k..], saved);
  }

  /** Popping the last remaining name appends it to the picks unless it is
      already saved. */
  lemma PopStep(names: seq<string>, k: nat, saved: seq<string>)
    requires 0 < k <= |names|
    ensures Seqs.NotIn(Seqs.Reverse(names[k - 1..]), saved)
            == Seqs.NotIn(Seqs.Reverse(names[k..]), saved) + (if names[k - 1] !in saved then [names[k - 1]] else [])
  {
    var suffix := names[k..];
    assert names[k - 1..] == [names[k - 1]] + suffix;
    Seqs.ReverseCons(names[k - 1], suffix);
    Seqs.NotInSnoc(Seqs.Reverse(suffix), names[k - 1], saved);
  }

  /** `only_new_names(artist_names, rand_num_artist_names)`. The matches of
      the id, missing and deep-missing ledgers are combined into `saved`;
      `missing_artists` and `deep_missing_artists` are only bound when their
      ledger exists, so an absent one is a `NameError`. */
  method OnlyNewNames(fs: Fs, cfg: Config, names: seq<string>, n: int)
    returns (r: Result<seq<string>>, saved: seq<string>, rest: seq<string>)
    ensures cfg.MissingNamesPath() !in fs || cfg.DeepMissingNamesPath() !in fs ==> r.Err?
    ensures r.Err? && r.error.NameError? ==>
              || (cfg.MissingNamesPath() !in fs && r.error == NameError("missing_artists"))
              || (cfg.MissingNamesPath() in fs && cfg.DeepMissingNamesPath() !in fs && r.error == NameError("deep_missing_artists"))
    ensures r.Err? && r.error == IndexError ==> |Seqs.NotIn(names, saved)| < n
    ensures r.Ok? ==> n <= |Seqs.NotIn(names, saved)|
    ensures r.Ok? ==> rest <= names && r.value == Seqs.NotIn(Seqs.Reverse(names[|rest|..]), saved)
    ensures r.Ok? ==> |r.value| == (if n > 0 then n else 0)
    ensures r.Ok? && n > 0 ==> |rest| < |names| && names[|rest|] !in saved
    ensures forall x :: x in saved ==> x in Seqs.Map(names, Text.Lower)
    ensures r.Ok? || r == Err(IndexError) ==> forall x :: x in saved <==> AlreadySaved(fs, cfg, names, x)
    ensures (|| ScanRaises(fs, cfg.ArtistIdsPath(), names)
             || ScanRaises(fs, cfg.MissingNamesPath(), names)
             || ScanRaises(fs, cfg.DeepMissingNamesPath(), names)) ==> r.Err?
  {
    saved := [];
    rest := names;
    if cfg.ArtistIdsPath() in fs {
      var ids := SavedMatches(fs, cfg.ArtistIdsPath(), names);
      if ids.Err? {
        return Err(ids.error), saved, rest;
      }
      saved := saved + ids.value;
    }
    var missing: Option<seq<string>> := None;
    if cfg.MissingNamesPath() in fs {
      var m := SavedMatches(fs, cfg.MissingNamesPath(), names);
      if m.Err? {
        return Err(m.error), saved, rest;
      }
      missing := Some(m.value);
    }
    var deep: Option<seq<string>> := None;
    if cfg.DeepMissingNamesPath() in fs {
      var d := SavedMatches(fs, cfg.DeepMissingNamesPath(), names);
      if d.Err? {
        return Err(d.error), saved, rest;
      }
      deep := Some(d.value);
    }
    if missing.None? {
      return Err(NameError("missing_artists")), saved, rest;
    }
    if deep.None? {
      return Err(NameError("deep_missing_artists")), saved, rest;
    }
    saved := saved + (missing.value + deep.value);
    r, rest := PopNew(names, saved, n);
  }

  /** The cells of the 'names' column that the scan of `path` reads. */
  ghost function ScannedNames(fs: Fs, path: string, names: seq<string>): seq<Cell>
    requires ReadUsecol(fs, path, "names").Ok?
  {
    var cells := ReadUsecol(fs, path, "names").value;
    ScannedCells(cells, ScanEnd(Seqs.Chunks(cells, LedgerChunk), names))
  }

  /** Whether the scan of the ledger at `path` raises: the file exists and
      its 'names' column does not read, or a chunk read holds a field that
      is not a string. */
  ghost predicate ScanRaises(fs: Fs, path: string, names: seq<string>)
  {
    path in fs && (ReadUsecol(fs, path, "names").Err? || !AllStr(ScannedNames(fs, path, names)))
  }

  /** Whether the scan of the ledger at `path` reports `x`: the file exists,
      and `x` is a lowercased candidate named in the chunks read. */
  ghost predicate Reported(fs: Fs, path: string, names: seq<string>, x: string)
  {
    path in fs && ReadUsecol(fs, path, "names").Ok?
    && x in Seqs.Map(names, Text.Lower) && NameIn(x, ScannedNames(fs, path, names))
  }

  /** Whether `only_new_names` counts `x` as saved: a scan of the id, the
      missing or the deep-missing ledger reports it. */
  ghost predicate AlreadySaved(fs: Fs, cfg: Config, names: seq<string>, x: string)
  {
    || Reported(fs, cfg.ArtistIdsPath(), names, x)
    || Reported(fs, cfg.MissingNamesPath(), names, x)
    || Reported(fs, cfg.DeepMissingNamesPath(), names, x)
  }

  /** The scan of one ledger as `only_new_names` uses it: it raises exactly
      when `ScanRaises` says, and otherwise returns the names it reports. */
  method SavedMatches(fs: Fs, path: string, names: seq<string>) returns (r: Result<seq<string>>)
    ensures r.Err? <==> ScanRaises(fs, path, names)
    ensures r.Err? ==> ReaderError(r.error) || r.error == AttributeError
    ensures r.Ok? ==> forall x :: x in r.value <==> Reported(fs, path, names, x)
  {
    var scanned;
    r, scanned := GetNamesAlreadyInFile(fs, path, names);
    ReadUsecolErrors(fs, path, "names");
  }

  // ---------------------------------------------------------------- sample_artist_names

  /** `random.sample(artist_names, len(artist_names) - 1)`, with the chosen
      positions given as `perm`; an empty list asks for a sample of size −1. */
  function Sample(names: seq<string>, perm: seq<nat>): (r: Result<seq<string>>)
    requires |names| > 0 ==> |perm| == |names| - 1 && forall i :: 0 <= i < |perm| ==> perm[i] < |names|
    ensures names == [] <==> r.Err?
    ensures r.Err? ==> r.error == ValueError
    ensures r.Ok? ==> |r.value| == |names| - 1 && forall i :: 0 <= i < |perm| ==> r.value[i] == names[perm[i]]
  {
    if names == [] then Err(ValueError)
    else Ok(seq(|perm|, i requires 0 <= i < |perm| => names[perm[i]]))
  }

  /** Positions drawn without replacement cover all but one position:
      exactly one name is always dropped. */
  lemma SampleDropsOne(names: seq<string>, perm: seq<nat>)
    requires |names| > 0 && |perm| == |names| - 1 && Seqs.Distinct(perm)
    requires forall i :: 0 <= i < |perm| ==> perm[i] < |names|
    ensures exists j :: 0 <= j < |names| && j !in perm && forall k :: 0 <= k < |names| && k != j ==> k in perm
  {
    Seqs.OneLeftOut(|names|, perm);
  }

  /** The names popped from the end of a list are in the list. */
  lemma PickedFromSample(names: seq<string>, rest: seq<string>, saved: seq<string>)
    requires rest <= names
    ensures forall x :: x in Seqs.NotIn(Seqs.Reverse(names[|rest|..]), saved) ==> x in names && x !in saved
  {
    Seqs.ReverseMembers(names[|rest|..]);
  }

  /** `sample_artist_names(artist_names, random_seed, rand_num_artist_names)` */
  method SampleArtistNames(fs: Fs, cfg: Config, names: seq<string>, perm: seq<nat>, n: int)
    returns (r: Result<seq<string>>, saved: seq<string>)
    requires |names| > 0 ==> |perm| == |names| - 1 && forall i :: 0 <= i < |perm| ==> perm[i] < |names|
    ensures names == [] ==> r == Err(ValueError)
    ensures r.Ok? ==> |r.value| == (if n > 0 then n else 0)
    ensures r.Ok? ==> forall x :: x in r.value ==> x in Sample(names, perm).value && x !in saved
    ensures r.Ok? ==> forall x :: x in r.value ==> !AlreadySaved(fs, cfg, Sample(names, perm).value, x)
  {
    var sample := Sample(names, perm);
    if sample.Err? {
      return Err(sample.error), [];
    }
    var rest;
    r, saved, rest := OnlyNewNames(fs, cfg, sample.value, n);
    if r.Ok? {
      PickedFromSample(sample.value, rest, saved);
    }
  }

  // ---------------------------------------------------------------- retrieve_artist_ids

  /** The exact-match lookup each name goes through. */
  function Resolver(search: string -> seq<ArtistInfoHelper.SearchHit>): string -> Option<string>
  {
    name => ArtistInfoHelper.ExactMatch(search(name), name)
  }

  /** The pauses after the first `k` batches: one after each batch that
      differs from the final batch. */
  function BatchPauses(batches: seq<seq<string>>, k: nat): (r: seq<nat>)
    requires k <= |batches|
    ensures |r| <= k
    ensures forall i :: 0 <= i < |r| ==> r[i] == ResolvePause
  {
    if k == 0 then []
    else BatchPauses(batches, k - 1) + (if batches[k - 1] != batches[|batches| - 1] then [ResolvePause] else [])
  }

  /** Every batch but the final one differs from the final one when the
      names are distinct, so the pauses are one fewer than the batches. */
  lemma {:induction false} DistinctBatchesPause(batches: seq<seq<string>>, k: nat)
    requires 0 < k <= |batches|
    requires forall i :: 0 <= i < |batches| - 1 ==> batches[i] != batches[|batches| - 1]
    ensures |BatchPauses(batches, k)| == (if k == |batches| then k - 1 else k)
  {
    if k > 1 {
      DistinctBatchesPause(batches, k - 1);
    }
  }

  /** A final batch equal to an earlier one suppresses that batch's pause:
      for 200 copies of one name there is no pause at all. */
  lemma RepeatedBatchNoPause(x: string)
    ensures BatchPauses(Seqs.Chunks(seq(200, _ => x), ResolveBatch), 2) == []
  {
    var s := seq(200, _ => x);
    var c := Seqs.Chunks(s, ResolveBatch);
    assert Seqs.Chunks(s[100..], ResolveBatch) == [s[100..]];
    assert c == [s[..100], s[100..]];
    assert s[..100] == s[100..];
  }

  /** Some batch's lookups run past the alarm. */
  predicate TimesOut(batches: seq<seq<string>>, batchTime: seq<string> -> nat)
  {
    |batches| > 0 && (TimesOut(batches[..|batches| - 1], batchTime) || batchTime(batches[|batches| - 1]) > Timeout)
  }

  lemma {:induction false} TimesOutSome(batches: seq<seq<string>>, batchTime: seq<string> -> nat)
    ensures TimesOut(batches, batchTime) <==> exists i :: 0 <= i < |batches| && batchTime(batches[i]) > Timeout
  {
    if |batches| > 0 {
      var init := batches[..|batches| - 1];
      TimesOutSome(init, batchTime);
      if exists i :: 0 <= i < |init| && batchTime(init[i]) > Timeout {
        var i :| 0 <= i < |init| && batchTime(init[i]) > Timeout;
        assert batches[i] == init[i];
      }
      if exists i :: 0 <= i < |batches| && batchTime(batches[i]) > Timeout {
        var i :| 0 <= i < |batches| && batchTime(batches[i]) > Timeout;
        if i < |init| {
          assert init[i] == batches[i];
        }
      }
    }
  }

  lemma TimesOutStep(batches: seq<seq<string>>, k: nat, batchTime: seq<string> -> nat)
    requires k < |batches|
    ensures TimesOut(batches[..k + 1], batchTime) <==> TimesOut(batches[..k], batchTime) || batchTime(batches[k]) > Timeout
  {
    assert batches[..k + 1][..k] == batches[..k];
  }

  lemma {:induction false} TimesOutPrefix(batches: seq<seq<string>>, k: nat, batchTime: seq<string> -> nat)
    requires k <= |batches| && TimesOut(batches[..k], batchTime)
    ensures TimesOut(batches, batchTime)
  {
    TimesOutSome(batches[..k], batchTime);
    TimesOutSome(batches, batchTime);
    var i :| 0 <= i < k && batchTime(batches[..k][i]) > Timeout;
    assert batches[i] == batches[..k][i];
  }

  /** The inner loop of `retrieve_artist_ids` over one batch: each name's
      id is appended to `ids`, or the name to `missing`. */
  method ResolveNames(done: seq<string>, batch: seq<string>, search: string -> seq<ArtistInfoHelper.SearchHit>, ids0: seq<string>, missing0: seq<string>)
    returns (ids: seq<string>, missing: seq<string>)
    requires ids0 == Seqs.Answers(done, Resolver(search))
    requires missing0 == Seqs.Filter(done, Seqs.Unanswered(Resolver(search)))
    ensures ids == Seqs.Answers(done + batch, Resolver(search))
    ensures missing == Seqs.Filter(done + batch, Seqs.Unanswered(Resolver(search)))
  {
    ids, missing := ids0, missing0;
    var j := 0;
    ghost var seen := done;
    assert done + batch[..j] == done;
    while j < |batch|
      invariant 0 <= j <= |batch|
      invariant seen == done + batch[..j]
      invariant ids == Seqs.Answers(seen, Resolver(search))
      invariant missing == Seqs.Filter(seen, Seqs.Unanswered(Resolver(search)))
    {
      var name := batch[j];
      Seqs.AnswersSnoc(seen, name, Resolver(search));
      Seqs.FilterSnoc(seen, name, Seqs.Unanswered(Resolver(search)));
      var id := ArtistInfoHelper.GetArtistSpotifyId(name, search(name));
      assert id == Resolver(search)(name);
      if id.Some? {
        ids := ids + [id.value];
      } else {
        missing := missing + [name];
      }
      Seqs.PrefixSnoc(done, batch, j);
      seen := seen + [name];
      j := j + 1;
    }
    assert batch[..j] == batch;
  }

  /** The batch loop of `retrieve_artist_ids`: each batch is resolved, then
      its alarm is checked, then the pause follows unless the batch equals
      the final one. */
  method ResolveBatches(batches: seq<seq<string>>, search: string -> seq<ArtistInfoHelper.SearchHit>, batchTime: seq<string> -> nat)
    returns (ids: seq<string>, missing: seq<string>, pauses: seq<nat>, timedOut: bool)
    ensures timedOut <==> TimesOut(batches, batchTime)
    ensures !timedOut ==> ids == Seqs.Answers(Seqs.Flatten(batches), Resolver(search))
    ensures !timedOut ==> missing == Seqs.Filter(Seqs.Flatten(batches), Seqs.Unanswered(Resolver(search)))
    ensures !timedOut ==> pauses == BatchPauses(batches, |batches|)
  {
    ids, missing, pauses := [], [], [];
    timedOut := false;
    var b := 0;
    while b < |batches| && !timedOut
      invariant 0 <= b <= |batches|
      invariant ids == Seqs.Answers(Seqs.Flatten(batches[..b]), Resolver(search))
      invariant missing == Seqs.Filter(Seqs.Flatten(batches[..b]), Seqs.Unanswered(Resolver(search)))
      invariant !timedOut ==> pauses == BatchPauses(batches, b)
      invariant timedOut <==> TimesOut(batches[..b], batchTime)
      decreases |batches| - b, if timedOut then 0 else 1
    {
      var batch := batches[b];
      ids, missing := ResolveNames(Seqs.Flatten(batches[..b]), batch, search, ids, missing);
      Seqs.FlattenStep(batches, b);
      TimesOutStep(batches, b, batchTime);
      if batchTime(batch) > Timeout {
        timedOut := true;
      } else if batch != batches[|batches| - 1] {
        pauses := pauses + [ResolvePause];
      }
      b := b + 1;
    }
    if timedOut {
      TimesOutPrefix(batches, b, batchTime);
    } else {
      assert batches[..b] == batches;
    }
  }

  /** `retrieve_artist_ids(artist_names)`: the names go through the exact
      match in batches of 100; each batch runs under a 600 s alarm that ends
      the program when the batch's lookups (taking `batchTime`) run past it.
      The result is the ids found and the names not found, in name order. */
  method RetrieveArtistIds(names: seq<string>, search: string -> seq<ArtistInfoHelper.SearchHit>, batchTime: seq<string> -> nat)
    returns (r: Result<(seq<string>, seq<string>)>, pauses: seq<nat>)
    ensures r.Err? <==> TimesOut(Seqs.Chunks(names, ResolveBatch), batchTime)
    ensures r.Err? ==> r.error == Fatal("timeout")
    ensures r.Ok? ==> r.value.0 == Seqs.Answers(names, Resolver(search))
    ensures r.Ok? ==> r.value.1 == Seqs.Filter(names, Seqs.Unanswered(Resolver(search)))
    ensures r.Ok? ==> pauses == BatchPauses(Seqs.Chunks(names, ResolveBatch), |Seqs.Chunks(names, ResolveBatch)|)
  {
    var ids, missing, timedOut;
    ids, missing, pauses, timedOut := ResolveBatches(Seqs.Chunks(names, ResolveBatch), search, batchTime);
    if timedOut {
      r := Err(Fatal("timeout"));
    } else {
      r := Ok((ids, missing));
    }
  }

  // ---------------------------------------------------------------- save_artist_ids

  /** The names whose lookup failed are exactly the names not answered, so
      dropping them leaves one name per id. */
  lemma FoundNamesMatchIds(names: seq<string>, f: string -> Option<string>)
    ensures Seqs.NotIn(names, Seqs.Filter(names, Seqs.Unanswered(f))) == Seqs.Filter(names, Seqs.Answered(f))
    ensures |Seqs.NotIn(names, Seqs.Filter(names, Seqs.Unanswered(f)))| == |Seqs.Answers(names, f)|
  {
    var missing := Seqs.Filter(names, Seqs.Unanswered(f));
    Seqs.FilterCongruence(names, x => x !in missing, Seqs.Answered(f));
    Seqs.PartitionCount(names, f);
  }

  function PairRows(names: seq<Cell>, ids: seq<string>): (rows: seq<Row>)
    requires |names| == |ids|
    ensures |rows| == |names| && RowsOfWidth(rows, 2)
  {
    seq(|names|, i requires 0 <= i < |names| => [names[i], Str(ids[i])])
  }

  /** The ledgers after `save_artist_ids`: the found names with their ids in
      the id ledger, the failed names in the missing ledger under the column
      'missing_names', each with a header only when the file is created. */
  function SavedLedgers(fs: Fs, cfg: Config, names: seq<string>, ids: seq<string>, missing: seq<string>): Fs
    requires |Seqs.NotIn(names, missing)| == |ids|
  {
    var found := StrCells(Seqs.NotIn(names, missing));
    var fs1 := AppendHeaderOnce(fs, cfg.ArtistIdsPath(), ["names", "ids"], PairRows(found, ids));
    AppendHeaderOnce(fs1, cfg.MissingNamesPath(), ["missing_names"], SingleRows(StrCells(missing)))
  }

  /** `save_artist_ids(artist_names)` */
  method SaveArtistIds(fs: Fs, cfg: Config, names: seq<string>, search: string -> seq<ArtistInfoHelper.SearchHit>, batchTime: seq<string> -> nat)
    returns (r: Result<Fs>, pauses: seq<nat>)
    ensures r.Err? <==> TimesOut(Seqs.Chunks(names, ResolveBatch), batchTime)
    ensures r.Err? ==> r.error == Fatal("timeout")
    ensures r.Ok? ==>
      var missing := Seqs.Filter(names, Seqs.Unanswered(Resolver(search)));
      var ids := Seqs.Answers(names, Resolver(search));
      |Seqs.NotIn(names, missing)| == |ids| && r.value == SavedLedgers(fs, cfg, names, ids, missing)
  {
    var found;
    found, pauses := RetrieveArtistIds(names, search, batchTime);
    if found.Err? {
      return Err(found.error), pauses;
    }
    var (ids, missing) := found.value;
    FoundNamesMatchIds(names, Resolver(search));
    var kept := Seqs.NotIn(names, missing);
    var fs1 := AppendHeaderOnce(fs, cfg.ArtistIdsPath(), ["names", "ids"], PairRows(StrCells(kept), ids));
    var fs2 := AppendHeaderOnce(fs1, cfg.MissingNamesPath(), ["missing_names"], SingleRows(StrCells(missing)));
    return Ok(fs2), pauses;
  }

  /** A missing ledger created by `save_artist_ids` has no 'names' column,
      so every later read of it through 'names' fails: `usecols` raises
      `ValueError` and indexing raises `KeyError`. */
  lemma MissingLedgerUnreadable(fs: Fs, path: string, missing: seq<string>)
    requires path !in fs
    ensures ReadUsecol(AppendHeaderOnce(fs, path, ["missing_names"], SingleRows(StrCells(missing))), path, "names") == Err(ValueError)
    ensures ReadColumn(AppendHeaderOnce(fs, path, ["missing_names"], SingleRows(StrCells(missing))), path, "names") == Err(KeyError("names"))
  {
    var rows := SingleRows(StrCells(missing));
    HeaderOnceReadBack(fs, path, ["missing_names"], [], rows);
  }

  /** The missing ledger in the form its readers expect it: the same rows
      under the column 'names'. */
  function IntendedMissingLedger(fs: Fs, path: string, missing: seq<string>): Fs
  {
    AppendHeaderOnce(fs, path, ["names"], SingleRows(StrCells(missing)))
  }

  /** Written that way, the missing names read back through 'names', each
      as the ledger stores it. */
  lemma IntendedMissingLedgerReadable(fs: Fs, path: string, missing: seq<string>)
    requires path !in fs
    ensures ReadUsecol(IntendedMissingLedger(fs, path, missing), path, "names") == Ok(StoredRow(StrCells(missing)))
  {
    var rows := SingleRows(StrCells(missing));
    HeaderOnceReadBack(fs, path, ["names"], [], rows);
    var f := Frame(["names"], [] + StoredRows(rows));
    assert Seqs.FirstIndex(f.columns, "names") == 0;
    var c := Column(f, "names");
    assert ReadCsv(IntendedMissingLedger(fs, path, missing), path) == Ok(f);
    assert c.Ok? && |c.value| == |missing|;
    forall i | 0 <= i < |missing| ensures c.value[i] == StoredRow(StrCells(missing))[i] {
      assert f.rows[i] == StoredRow(rows[i]) && rows[i] == [Str(missing[i])];
    }
    assert c.value == StoredRow(StrCells(missing));
  }

  /** A name that lowercases to one of pandas' NaN markers ("null", "nan",
      "none" is not one) is read back from the ledger as an empty field. */
  lemma NullNameReadsAsNan(fs: Fs, path: string, id: string)
    requires path !in fs
    ensures ReadUsecol(AppendHeaderOnce(fs, path, ["names", "ids"], PairRows([Str("null")], [id])), path, "names") == Ok([Nan])
  {
    var rows := PairRows([Str("null")], [id]);
    HeaderOnceReadBack(fs, path, ["names", "ids"], [], rows);
    assert "null" in NaStrings;
    assert StoredRows(rows)[0][0] == Nan;
    var f := Frame(["names", "ids"], [] + StoredRows(rows));
    assert Seqs.FirstIndex(f.columns, "names") == 0;
    var c := Column(f, "names");
    assert c.Ok? && |c.value| == 1 && c.value[0] == Nan;
    assert c.value == [Nan];
  }

  // ---------------------------------------------------------------- save_deepscraped_missing_ids

  /** A row whose field `k` is not one of `xs`. */
  function NameNotIn(k: nat, xs: seq<Cell>): Row -> bool
  {
    row => !(k < |row| && row[k] in xs)
  }

  /** The first `num` entries of the missing ledger's 'names' column. */
  function Processed(f: Frame, num: Option<int>): seq<Cell>
    requires Rectangular(f) && "names" in f.columns
  {
    Seqs.Truncate(Column(f, "names").value, num)
  }

  /** The ledgers after a pass has looked up the processed names: the found
      names with their ids appended to the id ledger (only when there are
      any), the deep-missing names appended to the deep ledger, and the
      missing ledger rewritten without every row naming either. */
  function DeepLedgers(fs: Fs, idsPath: string, missingPath: string, deepPath: string, f: Frame,
                       found: seq<Cell>, foundIds: seq<string>, deep: seq<Cell>): (r: Fs)
    requires Rectangular(f) && "names" in f.columns && |found| == |foundIds|
    ensures missingPath in r
  {
    var fs1 := if |foundIds| > 0 then AppendHeaderOnce(fs, idsPath, ["names", "ids"], PairRows(found, foundIds)) else fs;
    var fs2 := AppendHeaderOnce(fs1, deepPath, ["names"], SingleRows(deep));
    var k := Seqs.FirstIndex(f.columns, "names");
    Write(fs2, missingPath, f.columns, Seqs.Filter(Seqs.Filter(f.rows, NameNotIn(k, deep)), NameNotIn(k, found)))
  }

  /** The ledgers and count after one deep-scrape pass over the first `num`
      missing names, with the deep lookup as `lookup`. */
  function DeepPassResult(fs: Fs, idsPath: string, missingPath: string, deepPath: string, num: Option<int>, lookup: Cell -> Option<string>): Result<(Fs, nat)>
  {
    match ReadCsv(fs, missingPath)
    case Err(e) => Err(e)
    case Ok(f) =>
      if "names" !in f.columns then Err(KeyError("names"))
      else Ok(DeepPassOn(fs, idsPath, missingPath, deepPath, f, num, lookup))
  }

  /** The pass over a missing ledger read as `f`. */
  function DeepPassOn(fs: Fs, idsPath: string, missingPath: string, deepPath: string, f: Frame, num: Option<int>, lookup: Cell -> Option<string>): (Fs, nat)
    requires Rectangular(f) && "names" in f.columns
  {
    var processed := Processed(f, num);
    Seqs.PartitionCount(processed, lookup);
    var found := Seqs.Filter(processed, Seqs.Answered(lookup));
    var foundIds := Seqs.Answers(processed, lookup);
    var deep := Seqs.Filter(processed, Seqs.Unanswered(lookup));
    (DeepLedgers(fs, idsPath, missingPath, deepPath, f, found, foundIds, deep), |foundIds| + |deep|)
  }

  /** Each processed name is either found or deep-missing, so the pass
      reports exactly the number of names it processed, and the rewritten
      missing ledger is the old one minus every row naming a processed name,
      in the old order. */
  lemma DeepPassFacts(fs: Fs, idsPath: string, missingPath: string, deepPath: string, num: Option<int>, lookup: Cell -> Option<string>)
    requires ReadCsv(fs, missingPath).Ok? && "names" in ReadCsv(fs, missingPath).value.columns
    ensures var f := ReadCsv(fs, missingPath).value;
      var r := DeepPassResult(fs, idsPath, missingPath, deepPath, num, lookup);
      var k := Seqs.FirstIndex(f.columns, "names");
      && r.Ok? && r.value.1 == |Processed(f, num)|
      && missingPath in r.value.0
      && r.value.0[missingPath] == [HeaderRow(f.columns)] + StoredRows(Seqs.Filter(f.rows, NameNotIn(k, Processed(f, num))))
  {
    var f := ReadCsv(fs, missingPath).value;
    var processed := Processed(f, num);
    var found := Seqs.Filter(processed, Seqs.Answered(lookup));
    var deep := Seqs.Filter(processed, Seqs.Unanswered(lookup));
    var k := Seqs.FirstIndex(f.columns, "names");
    Seqs.PartitionCount(processed, lookup);
    var both := (row: Row) => NameNotIn(k, deep)(row) && NameNotIn(k, found)(row);
    Seqs.FilterFilter(f.rows, NameNotIn(k, deep), NameNotIn(k, found), both);
    forall i | 0 <= i < |f.rows| ensures both(f.rows[i]) == NameNotIn(k, processed)(f.rows[i]) {
      var row := f.rows[i];
      if k < |row| && row[k] in processed {
        assert row[k] in deep || row[k] in found;
      }
    }
    Seqs.FilterCongruence(f.rows, both, NameNotIn(k, processed));
  }

  /** When no processed name is found, the id ledger is left as it was. */
  lemma DeepPassSkipsEmptyIds(fs: Fs, idsPath: string, missingPath: string, deepPath: string, num: Option<int>, lookup: Cell -> Option<string>)
    requires idsPath != missingPath && idsPath != deepPath
    requires ReadCsv(fs, missingPath).Ok? && "names" in ReadCsv(fs, missingPath).value.columns
    requires forall i :: 0 <= i < |Processed(ReadCsv(fs, missingPath).value, num)| ==> lookup(Processed(ReadCsv(fs, missingPath).value, num)[i]).None?
    ensures DeepPassResult(fs, idsPath, missingPath, deepPath, num, lookup).Ok?
    ensures (idsPath in DeepPassResult(fs, idsPath, missingPath, deepPath, num, lookup).value.0) == (idsPath in fs)
    ensures idsPath in fs ==> DeepPassResult(fs, idsPath, missingPath, deepPath, num, lookup).value.0[idsPath] == fs[idsPath]
  {
    var f := ReadCsv(fs, missingPath).value;
    var processed := Processed(f, num);
    Seqs.PartitionCount(processed, lookup);
    var found := Seqs.Filter(processed, Seqs.Answered(lookup));
    Seqs.FilterNone(processed, Seqs.Answered(lookup));
    assert |Seqs.Answers(processed, lookup)| == 0;
  }

  /** The loop of `save_deepscraped_missing_ids` over the processed names. */
  method LookupAll(names: seq<Cell>, lookup: Cell -> Option<string>)
    returns (foundIds: seq<string>, foundNames: seq<Cell>, deepMissing: seq<Cell>)
    ensures foundIds == Seqs.Answers(names, lookup)
    ensures foundNames == Seqs.Filter(names, Seqs.Answered(lookup))
    ensures deepMissing == Seqs.Filter(names, Seqs.Unanswered(lookup))
  {
    foundIds, foundNames, deepMissing := [], [], [];
    var i := 0;
    while i < |names|
      invariant 0 <= i <= |names|
      invariant foundIds == Seqs.Answers(names[..i], lookup)
      invariant foundNames == Seqs.Filter(names[..i], Seqs.Answered(lookup))
      invariant deepMissing == Seqs.Filter(names[..i], Seqs.Unanswered(lookup))
    {
      var name := names[i];
      Seqs.TakeSnoc(names, i);
      Seqs.FilterSnoc(names[..i], name, Seqs.Answered(lookup));
      Seqs.FilterSnoc(names[..i], name, Seqs.Unanswered(lookup));
      var id := lookup(name);
      if id.Some? {
        foundIds := foundIds + [id.value];
        foundNames := foundNames + [name];
      } else {
        deepMissing := deepMissing + [name];
      }
      i := i + 1;
    }
    assert names[..i] == names;
  }

  /** `save_deepscraped_missing_ids(num_to_scrape)` */
  method DeepPass(fs: Fs, idsPath: string, missingPath: string, deepPath: string, num: Option<int>, lookup: Cell -> Option<string>)
    returns (r: Result<(Fs, nat)>)
    ensures r == DeepPassResult(fs, idsPath, missingPath, deepPath, num, lookup)
  {
    var frame := ReadCsv(fs, missingPath);
    if frame.Err? {
      return Err(frame.error);
    }
    var f := frame.value;
    if "names" !in f.columns {
      return Err(KeyError("names"));
    }
    var missingNames := Processed(f, num);
    var foundIds, foundNames, deepMissing := LookupAll(missingNames, lookup);
    Seqs.PartitionCount(missingNames, lookup);
    var out := DeepLedgers(fs, idsPath, missingPath, deepPath, f, foundNames, foundIds, deepMissing);
    var count := |foundIds| + |deepMissing|;
    ghost var spec := DeepPassOn(fs, idsPath, missingPath, deepPath, f, num, lookup);
    assert spec.0 == out && spec.1 == count;
    assert (out, count) == spec;
    assert DeepPassResult(fs, idsPath, missingPath, deepPath, num, lookup) == Ok(spec);
    r := Ok((out, count));
  }

  // ---------------------------------------------------------------- extend_deepscraped_missing_ids

  const DeepRounds: nat := 100

  const DeepBatch: int := 100

  /** The ledgers and the passes' counts after passes of `step` until one
      processes nothing, at most `n` of them; the first failing pass ends
      the run. */
  function UntilIdle(step: Fs -> Result<(Fs, nat)>, fs: Fs, n: nat): Result<(Fs, seq<nat>)>
    decreases n
  {
    if n == 0 then Ok((fs, []))
    else
      match step(fs)
      case Err(e) => Err(e)
      case Ok(p) => if p.1 == 0 then Ok((p.0, [0])) else After([p.1], UntilIdle(step, p.0, n - 1))
  }

  /** `counts` before the counts of a run. */
  function After(counts: seq<nat>, run: Result<(Fs, seq<nat>)>): Result<(Fs, seq<nat>)>
  {
    match run
    case Err(e) => Err(e)
    case Ok(q) => Ok((q.0, counts + q.1))
  }

  lemma AfterNothing(run: Result<(Fs, seq<nat>)>)
    ensures After([], run) == run
  {
    if run.Ok? {
      assert [] + run.value.1 == run.value.1;
    }
  }

  lemma AfterAfter(a: seq<nat>, b: seq<nat>, run: Result<(Fs, seq<nat>)>)
    ensures After(a, After(b, run)) == After(a + b, run)
  {
    if run.Ok? {
      Seqs.Assoc(a, b, run.value.1);
    }
  }

  /** The run with the counts so far carried along, as the loop keeps them. */
  function UntilIdleFrom(step: Fs -> Result<(Fs, nat)>, fs: Fs, n: nat, counts: seq<nat>): Result<(Fs, seq<nat>)>
    decreases n
  {
    if n == 0 then Ok((fs, counts))
    else
      match step(fs)
      case Err(e) => Err(e)
      case Ok(p) => if p.1 == 0 then Ok((p.0, counts + [0])) else UntilIdleFrom(step, p.0, n - 1, counts + [p.1])
  }

  lemma {:induction false} UntilIdleFromAfter(step: Fs -> Result<(Fs, nat)>, fs: Fs, n: nat, counts: seq<nat>)
    ensures UntilIdleFrom(step, fs, n, counts) == After(counts, UntilIdle(step, fs, n))
    decreases n
  {
    if n == 0 {
      assert counts + [] == counts;
    } else if step(fs).Ok? && step(fs).value.1 != 0 {
      var p := step(fs).value;
      UntilIdleFromAfter(step, p.0, n - 1, counts + [p.1]);
      AfterAfter(counts, [p.1], UntilIdle(step, p.0, n - 1));
    }
  }

  /** Every count but the last of a run is positive, and a run shorter than
      `n` passes ends with a pass that processed nothing. */
  lemma {:induction false} UntilIdleCounts(step: Fs -> Result<(Fs, nat)>, fs: Fs, n: nat)
    ensures var r := UntilIdle(step, fs, n);
      r.Ok? ==>
        && |r.value.1| <= n
        && (forall i :: 0 <= i < |r.value.1| - 1 ==> r.value.1[i] > 0)
        && (|r.value.1| < n ==> |r.value.1| > 0 && r.value.1[|r.value.1| - 1] == 0)
    decreases n
  {
    if n > 0 && step(fs).Ok? && step(fs).value.1 != 0 {
      var p := step(fs).value;
      UntilIdleCounts(step, p.0, n - 1);
      var rest := UntilIdle(step, p.0, n - 1);
      if rest.Ok? {
        var c := [p.1] + rest.value.1;
        assert forall i :: 1 <= i < |c| ==> c[i] == rest.value.1[i - 1];
      }
    }
  }

  /** The loop of `extend_deepscraped_missing_ids` over any pass: up to 100
      passes, with a 30 s pause after each pass that processed something,
      stopping at the first pass that processed nothing. `counts` are the
      passes' counts. */
  method RepeatUntilIdle(fs: Fs, step: Fs -> Result<(Fs, nat)>)
    returns (r: Result<Fs>, counts: seq<nat>, pauses: seq<nat>)
    ensures UntilIdle(step, fs, DeepRounds) == (if r.Ok? then Ok((r.value, counts)) else Err(r.error))
    ensures r.Ok? ==> |pauses| == (if |counts| > 0 && counts[|counts| - 1] == 0 then |counts| - 1 else |counts|)
    ensures forall i :: 0 <= i < |pauses| ==> pauses[i] == ResolvePause
  {
    var cur := fs;
    counts := [];
    pauses := [];
    UntilIdleFromAfter(step, fs, DeepRounds, []);
    AfterNothing(UntilIdle(step, fs, DeepRounds));
    for round := 0 to DeepRounds
      invariant |counts| == round && |pauses| == round
      invariant UntilIdle(step, fs, DeepRounds) == UntilIdleFrom(step, cur, DeepRounds - round, counts)
      invariant counts != [] ==> counts[|counts| - 1] > 0
      invariant forall i :: 0 <= i < |pauses| ==> pauses[i] == ResolvePause
    {
      var pass := step(cur);
      if pass.Err? {
        return Err(pass.error), counts, pauses;
      }
      if pass.value.1 == 0 {
        counts := counts + [0];
        assert counts[|counts| - 1] == 0 && |pauses| == |counts| - 1;
        return Ok(pass.value.0), counts, pauses;
      }
      counts := counts + [pass.value.1];
      cur := pass.value.0;
      pauses := pauses + [ResolvePause];
    }
    assert counts[|counts| - 1] > 0 && |pauses| == |counts|;
    r := Ok(cur);
  }

  /** One pass of 100 names over the configured ledgers. */
  function DeepStep(cfg: Config, lookup: Cell -> Option<string>): Fs -> Result<(Fs, nat)>
  {
    fs => DeepPassResult(fs, cfg.ArtistIdsPath(), cfg.MissingNamesPath(), cfg.DeepScrapeOutputPath(), Some(DeepBatch), lookup)
  }

  /** `extend_deepscraped_missing_ids()` */
  method ExtendDeepscrapedMissingIds(fs: Fs, cfg: Config, lookup: Cell -> Option<string>)
    returns (r: Result<Fs>, counts: seq<nat>, pauses: seq<nat>)
    ensures UntilIdle(DeepStep(cfg, lookup), fs, DeepRounds) == (if r.Ok? then Ok((r.value, counts)) else Err(r.error))
    ensures r.Ok? ==> |pauses| == (if |counts| > 0 && counts[|counts| - 1] == 0 then |counts| - 1 else |counts|)
    ensures forall i :: 0 <= i < |pauses| ==> pauses[i] == ResolvePause
  {
    r, counts, pauses := RepeatUntilIdle(fs, DeepStep(cfg, lookup));
  }
}
