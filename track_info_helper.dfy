/** `track_info_helper.py`: batched track and audio-feature requests under
    an alarm, and the `TrackInfoDict` record of track columns. */
module TrackInfoHelper {
  import opened Common
  import Seqs
  import Text
  import opened Ledger
  import Columns

  // ---------------------------------------------------------------- get_tracks_info / get_tracks_audio_info

  /** Track ids per request to `sp.tracks` and `sp.audio_features`. */
  const BatchSize: nat := 50

  /** Seconds of alarm granted per batch. */
  const AlarmPerBatch: nat := 20

  /** More batches than this and each batch is followed by a pause. */
  const ThrottleAbove: nat := 40

  /** Seconds of each pause. */
  const PauseSeconds: nat := 2

  function Pause(numBatches: nat): nat
  {
    if numBatches > ThrottleAbove then PauseSeconds else 0
  }

  /** Seconds spent on the given batches: each request plus the pause after it. */
  function FetchTime(batches: seq<seq<string>>, batchTime: seq<string> -> nat, pause: nat): nat
  {
    if batches == [] then 0
    else FetchTime(batches[..|batches| - 1], batchTime, pause) + batchTime(batches[|batches| - 1]) + pause
  }

  lemma {:induction false} FetchTimePrefix(batches: seq<seq<string>>, batchTime: seq<string> -> nat, pause: nat, k: nat)
    requires k <= |batches|
    ensures FetchTime(batches[..k], batchTime, pause) <= FetchTime(batches, batchTime, pause)
    decreases |batches|
  {
    if k < |batches| {
      var init := batches[..|batches| - 1];
      assert batches[..k] == init[..k];
      FetchTimePrefix(init, batchTime, pause, k);
    } else {
      assert batches[..k] == batches;
    }
  }

  /** The pauses taken over a run of `numBatches` batches. */
  function Pauses(done: nat, numBatches: nat): (r: seq<nat>)
    ensures numBatches <= ThrottleAbove ==> r == []
    ensures numBatches > ThrottleAbove ==> |r| == done && forall i :: 0 <= i < done ==> r[i] == PauseSeconds
  {
    if numBatches > ThrottleAbove then seq(done, _ => PauseSeconds) else []
  }

  lemma PausesStep(done: nat, numBatches: nat)
    ensures Pauses(done + 1, numBatches) == Pauses(done, numBatches) + (if numBatches > ThrottleAbove then [PauseSeconds] else [])
  {
  }

  /** The body shared by `get_tracks_info` and `get_tracks_audio_info`: the
      ids go out in consecutive batches of 50, the answers are concatenated
      in batch order, and an alarm of 20 s per batch ends the program when
      the requests and pauses together run past it. `fetch` stands for the
      remote call and `batchTime` for how long it takes. */
  method FetchBatched<T>(ids: seq<string>, fetch: seq<string> -> seq<T>, batchTime: seq<string> -> nat)
    returns (r: Result<seq<T>>, pauses: seq<nat>)
    ensures var batches := Seqs.Chunks(ids, BatchSize);
      && (r.Err? <==> FetchTime(batches, batchTime, Pause(|batches|)) > AlarmPerBatch * |batches|)
      && (r.Err? ==> r.error == Fatal("timeout"))
      && (r.Ok? ==> r.value == Seqs.FlatMap(batches, fetch) && pauses == Pauses(|batches|, |batches|))
  {
    var batches := Seqs.Chunks(ids, BatchSize);
    var limit := AlarmPerBatch * |batches|;
    var pause := Pause(|batches|);
    var info: seq<T> := [];
    var elapsed := 0;
    pauses := [];
    var i := 0;
    while i < |batches|
      invariant 0 <= i <= |batches|
      invariant info == Seqs.FlatMap(batches[..i], fetch)
      invariant elapsed == FetchTime(batches[..i], batchTime, pause) && elapsed <= limit
      invariant pauses == Pauses(i, |batches|)
    {
      var batch := batches[i];
      BatchStep(batches, i, fetch, batchTime, pause);
      info := info + fetch(batch);
      elapsed := elapsed + batchTime(batch);
      if |batches| > ThrottleAbove {
        pauses := pauses + [PauseSeconds];
        elapsed := elapsed + PauseSeconds;
      }
      PausesStep(i, |batches|);
      i := i + 1;
      if elapsed > limit {
        FetchTimePrefix(batches, batchTime, pause, i);
        return Err(Fatal("timeout")), pauses;
      }
    }
    assert batches[..i] == batches;
    return Ok(info), pauses;
  }

  /** What one more batch adds to the answers and to the time spent. */
  lemma BatchStep<T>(batches: seq<seq<string>>, i: nat, fetch: seq<string> -> seq<T>, batchTime: seq<string> -> nat, pause: nat)
    requires i < |batches|
    ensures Seqs.FlatMap(batches[..i + 1], fetch) == Seqs.FlatMap(batches[..i], fetch) + fetch(batches[i])
    ensures FetchTime(batches[..i + 1], batchTime, pause) == FetchTime(batches[..i], batchTime, pause) + batchTime(batches[i]) + pause
  {
    Seqs.TakeSnoc(batches, i);
    assert batches[..i + 1][..i] == batches[..i];
    Seqs.FlatMapSnoc(batches[..i], batches[i], fetch);
  }

  /** When the service answers every id on its own, the concatenated answer
      is one answer per id, in id order. */
  lemma FetchPerId<T>(ids: seq<string>, answer: string -> T)
    ensures Seqs.FlatMap(Seqs.Chunks(ids, BatchSize), Seqs.MapWith(answer)) == Seqs.Map(ids, answer)
  {
    Seqs.FlatMapMap(Seqs.Chunks(ids, BatchSize), answer);
  }

  // ---------------------------------------------------------------- TrackInfoDict

  /** The fields of one `sp.tracks` entry that `append_track_info` reads. */
  datatype Track = Track(
    id: string, name: string, popularity: int, availableMarkets: seq<string>,
    artistIds: seq<string>, releaseDate: string, durationMs: int)

  /** The fields of one `sp.audio_features` entry. */
  datatype Audio = Audio(
    acousticness: real, danceability: real, energy: real, instrumentalness: real,
    liveness: real, loudness: real, speechiness: real, tempo: real, valence: real,
    key: int, mode: int, timeSignature: int)

  /** The record's columns. */
  datatype Key =
    | Ids | Names | Popularity | Markets | Artists | ReleaseDate | DurationMs
    | Acousticness | Danceability | Energy | Instrumentalness | Liveness
    | Loudness | Speechiness | Tempo | Valence | MusicalKey | MusicalMode | TimeSignature

  /** The column names, as `self.keys` spells them. */
  function KeyName(k: Key): string
  {
    match k
    case Ids => "ids"
    case Names => "names"
    case Popularity => "popularity"
    case Markets => "markets"
    case Artists => "artists"
    case ReleaseDate => "release_date"
    case DurationMs => "duration_ms"
    case Acousticness => "acousticness"
    case Danceability => "danceability"
    case Energy => "energy"
    case Instrumentalness => "instrumentalness"
    case Liveness => "liveness"
    case Loudness => "loudness"
    case Speechiness => "speechiness"
    case Tempo => "tempo"
    case Valence => "valence"
    case MusicalKey => "musicalkey"
    case MusicalMode => "musicalmode"
    case TimeSignature => "time_signature"
  }

  /** The keys `append_track_info` fills. */
  predicate IsTrackKey(k: Key)
  {
    k.Ids? || k.Names? || k.Popularity? || k.Markets? || k.Artists? || k.ReleaseDate? || k.DurationMs?
  }

  /** The default `self.keys`, in order. */
  const DefaultKeys: seq<Key> := [
    Ids, Names, Popularity, Markets, Artists, ReleaseDate, DurationMs,
    Acousticness, Danceability, Energy, Instrumentalness, Liveness,
    Loudness, Speechiness, Tempo, Valence, MusicalKey, MusicalMode, TimeSignature
  ]

  const TrackKeys: set<Key> := {Ids, Names, Popularity, Markets, Artists, ReleaseDate, DurationMs}

  const AudioKeys: set<Key> := {
    Acousticness, Danceability, Energy, Instrumentalness, Liveness,
    Loudness, Speechiness, Tempo, Valence, MusicalKey, MusicalMode, TimeSignature
  }

  /** The value `append_track_info` stores under a track key. */
  function TrackCell(t: Track, key: Key): Cell
  {
    match key
    case Ids => Str(t.id)
    case Names => Str(t.name)
    case Popularity => Int(t.popularity)
    case Markets => Int(|t.availableMarkets|)
    case Artists => Str(Text.Join(t.artistIds, ", "))
    case ReleaseDate => Str(t.releaseDate)
    case _ => Int(t.durationMs)
  }

  /** The value `append_track_audio_info` stores under an audio key; an
      entry the service left empty is stored as `None`. */
  function AudioCell(a: Option<Audio>, key: Key): Cell
  {
    match a
    case None => Nan
    case Some(x) =>
      match key
      case Acousticness => Real(x.acousticness)
      case Danceability => Real(x.danceability)
      case Energy => Real(x.energy)
      case Instrumentalness => Real(x.instrumentalness)
      case Liveness => Real(x.liveness)
      case Loudness => Real(x.loudness)
      case Speechiness => Real(x.speechiness)
      case Tempo => Real(x.tempo)
      case Valence => Real(x.valence)
      case MusicalKey => Int(x.key)
      case MusicalMode => Int(x.mode)
      case _ => Int(x.timeSignature)
  }

  /** One new value per track under every track key, in track order. */
  function TrackValues(ts: seq<Track>): Columns.Data<Key>
  {
    map k | k in TrackKeys :: seq(|ts|, i requires 0 <= i < |ts| => TrackCell(ts[i], k))
  }

  /** Every track key gets one value per track, and no other key a value. */
  lemma TrackValuesShape(ts: seq<Track>)
    ensures forall k :: k in TrackValues(ts) <==> IsTrackKey(k)
    ensures forall k :: k in TrackValues(ts) ==> |TrackValues(ts)[k]| == |ts|
  {
  }

  /** One new value per entry under every audio key, in entry order;
      `key` and `mode` land under 'musicalkey' and 'musicalmode'. */
  function AudioValues(audio: seq<Option<Audio>>): Columns.Data<Key>
  {
    map k | k in AudioKeys :: seq(|audio|, i requires 0 <= i < |audio| => AudioCell(audio[i], k))
  }

  /** Every audio key gets one value per entry, and no other key a value. */
  lemma AudioValuesShape(audio: seq<Option<Audio>>)
    ensures forall k :: k in AudioValues(audio) <==> !IsTrackKey(k)
    ensures forall k :: k in AudioValues(audio) ==> |AudioValues(audio)[k]| == |audio|
  {
  }

  /** An entry the service left empty is stored as an empty field under
      every audio key. */
  lemma AudioValuesMissing(audio: seq<Option<Audio>>, i: nat)
    requires i < |audio| && audio[i].None?
    ensures forall k :: k in AudioValues(audio) ==> AudioValues(audio)[k][i] == Nan
  {
  }

  /** The tracks, if the service returned every one of them. */
  function AllTracks(tracks: seq<Option<Track>>): (r: Option<seq<Track>>)
    ensures r.None? <==> exists i :: 0 <= i < |tracks| && tracks[i].None?
    ensures r.Some? ==> |r.value| == |tracks| && forall i :: 0 <= i < |tracks| ==> tracks[i] == Some(r.value[i])
  {
    if forall i :: 0 <= i < |tracks| ==> tracks[i].Some? then
      Some(seq(|tracks|, i requires 0 <= i < |tracks| => tracks[i].value))
    else None
  }

  /** The record `TrackInfoDict(tracks_info, tracks_audio_info)` builds: the
      initial store happens only when both lists are non-empty. */
  function InitialData(keys: seq<Key>, ts: seq<Track>, audio: seq<Option<Audio>>): Columns.Data<Key>
  {
    if |ts| > 0 && |audio| > 0 then
      Columns.Extend(Columns.Extend(Columns.EmptyData(keys), keys, TrackValues(ts)), keys, AudioValues(audio))
    else Columns.EmptyData(keys)
  }

  /** After the initial store, a track key holds one value per track and an
      audio key one value per audio entry. */
  lemma InitialLengths(ts: seq<Track>, audio: seq<Option<Audio>>, k: Key)
    requires |ts| > 0 && |audio| > 0 && k in DefaultKeys
    ensures k in InitialData(DefaultKeys, ts, audio)
    ensures |InitialData(DefaultKeys, ts, audio)[k]| == if IsTrackKey(k) then |ts| else |audio|
  {
    TrackValuesShape(ts);
    AudioValuesShape(audio);
    var e := Columns.EmptyData(DefaultKeys);
    assert k in e && e[k] == [];
  }

  /** When one input is empty nothing is stored, and the record is aligned. */
  lemma InitialAlignedEmpty(ts: seq<Track>, audio: seq<Option<Audio>>)
    requires |ts| == 0 || |audio| == 0
    ensures Columns.Aligned(DefaultKeys, Ids, InitialData(DefaultKeys, ts, audio))
  {
    assert DefaultKeys[0] == Ids;
    Columns.EmptyAligned(DefaultKeys, Ids);
  }

  /** When both are non-empty, the record is aligned exactly when their
      lengths agree. */
  lemma InitialAlignedFull(ts: seq<Track>, audio: seq<Option<Audio>>)
    requires |ts| > 0 && |audio| > 0
    ensures Columns.Aligned(DefaultKeys, Ids, InitialData(DefaultKeys, ts, audio)) <==> |ts| == |audio|
  {
    InitialShape(ts, audio);
    ShapeAligned(InitialData(DefaultKeys, ts, audio), |ts|, |audio|);
  }

  /** A record holding exactly the default keys, with `n1` values under each
      track key and `n2` under each audio key, is aligned exactly when
      `n1 == n2`. */
  lemma ShapeAligned(d: Columns.Data<Key>, n1: nat, n2: nat)
    requires forall k :: k in d <==> k in DefaultKeys
    requires forall k :: k in d ==> |d[k]| == if IsTrackKey(k) then n1 else n2
    ensures Columns.Aligned(DefaultKeys, Ids, d) <==> n1 == n2
  {
    assert DefaultKeys[0] == Ids && DefaultKeys[7] == Acousticness;
    assert Ids in d && |d[Ids]| == n1;
    assert Acousticness in d && |d[Acousticness]| == n2;
    if n1 == n2 {
      forall k | k in DefaultKeys ensures k in d && |d[k]| == |d[Ids]| {
      }
    }
  }

  /** After the initial store, exactly the keys are present, each with the
      length of the list it was filled from. */
  lemma InitialShape(ts: seq<Track>, audio: seq<Option<Audio>>)
    requires |ts| > 0 && |audio| > 0
    ensures forall k :: k in InitialData(DefaultKeys, ts, audio) <==> k in DefaultKeys
    ensures forall k :: k in InitialData(DefaultKeys, ts, audio) ==>
      |InitialData(DefaultKeys, ts, audio)[k]| == if IsTrackKey(k) then |ts| else |audio|
  {
    forall k | k in DefaultKeys
      ensures |InitialData(DefaultKeys, ts, audio)[k]| == if IsTrackKey(k) then |ts| else |audio|
    {
      InitialLengths(ts, audio, k);
    }
  }

  /** With the default keys, the freshly built record passes
      `check_equal_length` exactly when one input is empty or both have the
      same length. */
  lemma InitialAligned(ts: seq<Track>, audio: seq<Option<Audio>>)
    ensures Columns.Aligned(DefaultKeys, Ids, InitialData(DefaultKeys, ts, audio))
            <==> |ts| == 0 || |audio| == 0 || |ts| == |audio|
  {
    if |ts| == 0 || |audio| == 0 {
      InitialAlignedEmpty(ts, audio);
    } else {
      InitialAlignedFull(ts, audio);
    }
  }

  /** The lower ends of the plotting ranges from the web API documentation. */
  const VMins: map<string, real> := map[
    "acousticness" := 0.0, "danceability" := 0.0, "energy" := 0.0, "instrumentalness" := 0.0,
    "liveness" := 0.0, "loudness" := -60.0, "speechiness" := 0.0, "tempo" := 0.0, "valence" := 0.0,
    "musicalkey" := 0.0, "musicalmode" := 0.0, "time_signature" := 0.0, "popularity" := 0.0,
    "markets" := 0.0, "days_since_release" := 0.0, "monthly_listeners" := 0.0, "duration_ms" := 0.0
  ]

  /** The upper ends of the plotting ranges. */
  const VMaxs: map<string, real> := map[
    "acousticness" := 1.0, "danceability" := 1.0, "energy" := 1.0, "instrumentalness" := 1.0,
    "liveness" := 1.0, "loudness" := 0.0, "speechiness" := 1.0, "tempo" := 200.0, "valence" := 1.0,
    "musicalkey" := 11.0, "musicalmode" := 1.0, "time_signature" := 5.0, "popularity" := 100.0,
    "markets" := 180.0, "days_since_release" := 60.0, "monthly_listeners" := 100000000.0, "duration_ms" := 50.0
  ]

  /** Both tables cover the same quantities and every range is non-empty. */
  lemma RangesWellFormed()
    ensures forall k :: k in VMins <==> k in VMaxs
    ensures forall k :: k in VMins ==> VMins[k] <= VMaxs[k]
  {
  }

  /** The abort `sys.exit(1)` after a critical log line. */
  const ExitFatal: PyError := Fatal("sys.exit(1)")

  class TrackInfoDict {
    var keys: seq<Key>
    var data: Columns.Data<Key>
    var vmins: map<string, real>
    var vmaxs: map<string, real>

    ghost predicate Valid()
      reads this
    {
      && Ids in keys
      && (forall k :: k in data <==> k in keys)
    }

    /** The record with the given keys, no values yet, and the range tables. */
    constructor (keys: seq<Key>)
      requires Ids in keys
      ensures Valid()
      ensures this.keys == keys && data == Columns.EmptyData(keys)
      ensures vmins == VMins && vmaxs == VMaxs
    {
      this.keys := keys;
      data := Columns.EmptyData(keys);
      vmins := VMins;
      vmaxs := VMaxs;
    }

    /** `append_track_info`: an entry the service returned as `None` makes
        the first comprehension raise, before anything is stored. */
    method AppendTrackInfo(tracks: seq<Option<Track>>) returns (err: Option<PyError>)
      requires Valid()
      modifies this
      ensures Valid() && keys == old(keys) && vmins == old(vmins) && vmaxs == old(vmaxs)
      ensures err.Some? <==> AllTracks(tracks).None?
      ensures err.Some? ==> err.value == TypeError && data == old(data)
      ensures err.None? ==> data == Columns.Extend(old(data), keys, TrackValues(AllTracks(tracks).value))
    {
      var ts := AllTracks(tracks);
      if ts.None? {
        return Some(TypeError);
      }
      data := Columns.Extend(data, keys, TrackValues(ts.value));
      return None;
    }

    /** `append_track_audio_info` */
    method AppendTrackAudioInfo(audio: seq<Option<Audio>>)
      requires Valid()
      modifies this
      ensures Valid() && keys == old(keys) && vmins == old(vmins) && vmaxs == old(vmaxs)
      ensures data == Columns.Extend(old(data), keys, AudioValues(audio))
    {
      data := Columns.Extend(data, keys, AudioValues(audio));
    }

    /** `check_equal_length` */
    method CheckEqualLength() returns (r: Option<PyError>)
      requires Valid()
      ensures r.None? <==> Columns.Aligned(keys, Ids, data)
      ensures r.Some? ==> r.value == ExitFatal
    {
      r := Columns.CheckEqualLength(keys, Ids, data, ExitFatal);
    }
  }

  /** `TrackInfoDict(tracks_info, tracks_audio_info, exclude_keys)` */
  method NewTrackInfoDict(tracks: seq<Option<Track>>, audio: seq<Option<Audio>>, exclude: seq<string>)
    returns (r: Result<TrackInfoDict>)
    ensures var ks := Columns.ExcludeKeys(DefaultKeys, KeyName, Ids, exclude, ExitFatal);
      && (ks.Err? ==> r == Err(ExitFatal))
      && (ks.Ok? && |tracks| > 0 && |audio| > 0 && AllTracks(tracks).None? ==> r == Err(TypeError))
      && (ks.Ok? && (|tracks| == 0 || |audio| == 0 || AllTracks(tracks).Some?) ==>
            && r.Ok? && fresh(r.value) && r.value.Valid() && r.value.keys == ks.value
            && r.value.data == InitialData(ks.value, if |tracks| > 0 && |audio| > 0 then AllTracks(tracks).value else [], audio))
  {
    var ks := Columns.ExcludeKeys(DefaultKeys, KeyName, Ids, exclude, ExitFatal);
    if ks.Err? {
      return Err(ks.error);
    }
    var d := new TrackInfoDict(ks.value);
    if |tracks| > 0 && |audio| > 0 {
      var err := d.AppendTrackInfo(tracks);
      if err.Some? {
        return Err(err.value);
      }
      d.AppendTrackAudioInfo(audio);
    }
    return Ok(d);
  }
}
