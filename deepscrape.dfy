/** `MusicBrainz_ArtistNames_IDs-deepscrape.py`: the stand-alone deep-scrape
    pass over hard-coded ledger paths, and its fixed 100-round driver. The
    pass itself is the one of `MusicBrainz_ArtistNames_IDs.py`; only the
    paths and the driver differ. */
module Deepscrape {
  import opened Common
  import opened Ledger
  import ArtistNamesIds

  const OutputDir: string := "/n/holystore01/LABS/itc_lab/Users/sjeffreson/serch/artist-database/"

  function IdsPath(): string { OutputDir + "artist_ids.csv" }

  function MissingPath(): string { OutputDir + "missing_names.csv" }

  function DeepPath(): string { OutputDir + "deep_missing_names.csv" }

  const Rounds: nat := 100

  const RoundSize: int := 100

  const RoundPause: nat := 30

  /** `save_deepscraped_missing_ids(num_to_scrape)` over the fixed paths. */
  function Pass(fs: Fs, num: Option<int>, lookup: Cell -> Option<string>): Result<(Fs, nat)>
  {
    ArtistNamesIds.DeepPassResult(fs, IdsPath(), MissingPath(), DeepPath(), num, lookup)
  }

  /** One pass of 100 names, as a step on the ledgers. */
  function PassStep(lookup: Cell -> Option<string>): Fs -> Result<(Fs, nat)>
  {
    fs => Pass(fs, Some(RoundSize), lookup)
  }

  /** The ledgers after `n` steps; the first failing step ends the script. */
  function AfterRounds(step: Fs -> Result<(Fs, nat)>, fs: Fs, n: nat): Result<Fs>
    decreases n
  {
    if n == 0 then Ok(fs)
    else
      match step(fs)
      case Err(e) => Err(e)
      case Ok(p) => AfterRounds(step, p.0, n - 1)
  }

  /** The `__main__` loop over any pass: exactly 100 passes, each followed
      by a 30 s pause whatever the pass returned; a pass that raises ends
      the script. `rounds` is the number of passes that completed. */
  method RunRounds(fs: Fs, step: Fs -> Result<(Fs, nat)>) returns (r: Result<Fs>, rounds: nat, pauses: seq<nat>)
    ensures r == AfterRounds(step, fs, Rounds)
    ensures r.Ok? ==> rounds == Rounds
    ensures r.Err? ==> rounds < Rounds
    ensures |pauses| == rounds
    ensures forall i :: 0 <= i < |pauses| ==> pauses[i] == RoundPause
  {
    var cur := fs;
    rounds := 0;
    pauses := [];
    var failure: Option<PyError> := None;
    while rounds < Rounds && failure.None?
      invariant rounds <= Rounds && |pauses| == rounds
      invariant forall i :: 0 <= i < |pauses| ==> pauses[i] == RoundPause
      invariant failure.None? ==> AfterRounds(step, fs, Rounds) == AfterRounds(step, cur, Rounds - rounds)
      invariant failure.Some? ==> rounds < Rounds && AfterRounds(step, fs, Rounds) == Err(failure.value)
      decreases Rounds - rounds, if failure.Some? then 0 else 1
    {
      var pass := step(cur);
      if pass.Err? {
        failure := Some(pass.error);
      } else {
        cur := pass.value.0;
        pauses := pauses + [RoundPause];
        rounds := rounds + 1;
      }
    }
    if failure.Some? {
      r := Err(failure.value);
    } else {
      r := Ok(cur);
    }
  }

  /** The script: the driver over the deep-scrape pass of this file. */
  method RunScript(fs: Fs, lookup: Cell -> Option<string>) returns (r: Result<Fs>, pauses: seq<nat>)
    ensures r == AfterRounds(PassStep(lookup), fs, Rounds)
    ensures r.Ok? ==> |pauses| == Rounds
    ensures forall i :: 0 <= i < |pauses| ==> pauses[i] == RoundPause
  {
    var rounds;
    r, rounds, pauses := RunRounds(fs, PassStep(lookup));
  }

  /** Unlike the driver of `extend_deepscraped_missing_ids`, a pass that
      finds the missing ledger empty does not stop the script: it leaves
      every ledger but the deep one as it was, so the remaining rounds only
      re-append empty batches. */
  lemma EmptyLedgerPassKeepsMissing(fs: Fs, lookup: Cell -> Option<string>)
    requires MissingPath() in fs && fs[MissingPath()] == [HeaderRow(["names"])]
    ensures Pass(fs, Some(RoundSize), lookup).Ok?
    ensures Pass(fs, Some(RoundSize), lookup).value.1 == 0
    ensures Pass(fs, Some(RoundSize), lookup).value.0[MissingPath()] == fs[MissingPath()]
  {
    ReadBack(fs, MissingPath(), ["names"], []);
    ArtistNamesIds.DeepPassFacts(fs, IdsPath(), MissingPath(), DeepPath(), Some(RoundSize), lookup);
  }
}
