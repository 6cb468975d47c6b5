/** The dict-of-lists records that `ArtistInfoDict` and `TrackInfoDict`
    keep: a list of keys and, for each key, the list of values stored so far.
    The keys are the records' fixed column names; `name` gives the string a
    key is spelt with, which is what `exclude_keys` is compared against. */
module Columns {
  import opened Common
  import Seqs
  import opened Ledger

  type Data<K> = map<K, seq<Cell>>

  /** Every key has a list, and all lists are as long as the 'ids' list. */
  predicate Aligned<K(!new)>(keys: seq<K>, ids: K, data: Data<K>)
  {
    ids in data && forall k :: k in keys ==> k in data && |data[k]| == |data[ids]|
  }

  /** `self.keys` after `exclude_keys`: an empty exclusion list keeps the
      defaults; excluding 'ids' ends the program with `fatal`. */
  function ExcludeKeys<K(!new)>(defaults: seq<K>, name: K -> string, ids: K, exclude: seq<string>, fatal: PyError): (r: Result<seq<K>>)
    ensures r.Err? <==> name(ids) in exclude
    ensures r.Err? ==> r.error == fatal
    ensures r.Ok? ==> forall k :: k in r.value <==> k in defaults && name(k) !in exclude
  {
    if name(ids) in exclude then Err(fatal)
    else Ok(Seqs.Filter(defaults, k => name(k) !in exclude))
  }

  /** `{key: [] for key in self.keys}` */
  function EmptyData<K(!new)>(keys: seq<K>): (d: Data<K>)
    ensures forall k :: k in d <==> k in keys
    ensures forall k :: k in d ==> d[k] == []
  {
    map k | k in keys :: []
  }

  /** A record with no values yet is aligned. */
  lemma EmptyAligned<K(!new)>(keys: seq<K>, ids: K)
    requires ids in keys
    ensures Aligned(keys, ids, EmptyData(keys))
  {
  }

  /** Each present key's list extended by that key's new values; keys that
      are not present — or that have no new values — keep their old lists. */
  function Extend<K(!new)>(data: Data<K>, keys: seq<K>, values: Data<K>): (r: Data<K>)
    ensures r.Keys == data.Keys
    ensures forall k :: k in data ==> r[k] == (if k in keys && k in values then data[k] + values[k] else data[k])
  {
    map k | k in data :: if k in keys && k in values then data[k] + values[k] else data[k]
  }

  /** Extending every key by the same number of values keeps the record
      aligned, and grows the 'ids' list by that number. */
  lemma ExtendAligned<K(!new)>(data: Data<K>, keys: seq<K>, ids: K, values: Data<K>, n: nat)
    requires Aligned(keys, ids, data) && ids in keys
    requires forall k :: k in keys ==> k in values && |values[k]| == n
    ensures Aligned(keys, ids, Extend(data, keys, values))
    ensures |Extend(data, keys, values)[ids]| == |data[ids]| + n
  {
  }

  /** `check_equal_length`: the first key whose list differs in length from
      'ids' ends the program with `fatal`. */
  method CheckEqualLength<K(!new)>(keys: seq<K>, ids: K, data: Data<K>, fatal: PyError) returns (r: Option<PyError>)
    requires ids in data && forall k :: k in keys ==> k in data
    ensures r.None? <==> Aligned(keys, ids, data)
    ensures r.Some? ==> r.value == fatal
  {
    var i := 0;
    while i < |keys|
      invariant 0 <= i <= |keys|
      invariant forall j :: 0 <= j < i ==> |data[keys[j]]| == |data[ids]|
    {
      if |data[keys[i]]| != |data[ids]| {
        return Some(fatal);
      }
      i := i + 1;
    }
    assert Aligned(keys, ids, data) by {
      forall k | k in keys ensures |data[k]| == |data[ids]| {
        var j :| 0 <= j < |keys| && keys[j] == k;
      }
    }
    return None;
  }
}
