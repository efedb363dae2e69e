/** The replicated state machine: a map from keys to values, changed only by applying log
    entries in order.
 */
module Kv {
  import opened Proto

  datatype Applied = Applied(store: Store, affected: nat)

  function KeySet(keys: seq<string>): set<string> {
    set k | k in keys
  }

  /** Deleting counts the distinct keys that were present. */
  function ApplyCommand(store: Store, c: Command): Option<Applied> {
    if !c.WellFormed() then None
    else if c.kind.Set? then Some(Applied(store[c.strs[0] := c.strs[1]], 1))
    else Some(Applied(store - KeySet(c.strs), |store.Keys * KeySet(c.strs)|))
  }

  /** No-ops and commands that the store refuses leave it unchanged. */
  function ApplyEntry(store: Store, e: Entry): Store {
    if e.data.None? || ApplyCommand(store, e.data.value).None? then store
    else ApplyCommand(store, e.data.value).value.store
  }

  /** The store after the first `k` entries. */
  function Fold(log: Log, k: nat): Store
    requires k <= |log|
  {
    if k == 0 then map[] else ApplyEntry(Fold(log, k - 1), log[k - 1])
  }

  /** Applying entries from some state on. */
  function FoldFrom(store: Store, entries: Log): Store {
    if |entries| == 0 then store
    else ApplyEntry(FoldFrom(store, entries[..|entries| - 1]), entries[|entries| - 1])
  }

  /** A snapshot and the entries after it give the same store as all entries from the start. */
  lemma {:induction false} FoldResumes(log: Log, from: nat, k: nat)
    requires from <= k <= |log|
    ensures FoldFrom(Fold(log, from), log[from..k]) == Fold(log, k)
    decreases k
  {
    if from < k {
      FoldResumes(log, from, k - 1);
      assert log[from..k][..k - 1 - from] == log[from..k - 1];
    }
  }

  /** A key holds what the last entry that wrote it left: the value of a SET, nothing after a DEL. */
  lemma {:induction false} LastWriteWins(log: Log, k: nat, w: nat, key: string)
    requires w < k <= |log| && log[w].data.Some? && log[w].data.value.WellFormed()
    requires Writes(log[w], key)
    requires forall i {:trigger Writes(log[i], key)} :: w < i < k ==> !Writes(log[i], key)
    ensures var c := log[w].data.value;
            if c.kind.Set? then key in Fold(log, k) && Fold(log, k)[key] == c.strs[1] else key !in Fold(log, k)
    decreases k
  {
    if w + 1 < k {
      LastWriteWins(log, k - 1, w, key);
      assert !Writes(log[k - 1], key);
    }
  }

  predicate Writes(e: Entry, key: string) {
    && e.data.Some? && e.data.value.WellFormed()
    && if e.data.value.kind.Set? then e.data.value.strs[0] == key else key in e.data.value.strs
  }

  class KvStore {
    var data: Store

    constructor ()
      ensures data == map[]
    {
      data := map[];
    }

    method Get(key: string) returns (value: Option<string>)
      ensures value == if key in data then Some(data[key]) else None
    {
      if key in data {
        return Some(data[key]);
      }
      return None;
    }

    method Put(key: string, value: string)
      modifies this
      ensures data == old(data)[key := value]
    {
      data := data[key := value];
    }

    method Remove(key: string) returns (found: bool)
      modifies this
      ensures data == old(data) - {key} && found == (key in old(data))
    {
      found := key in data;
      data := data - {key};
    }

    /** `None` where the code throws; the store is then unchanged. */
    method Apply(c: Command) returns (affected: Option<nat>)
      modifies this
      ensures ApplyCommand(old(data), c) ==
              if affected.None? then None else Some(Applied(data, affected.value))
      ensures affected.None? ==> data == old(data)
    {
      if c.kind.Set? {
        if |c.strs| != 2 {
          return None;
        }
        Put(c.strs[0], c.strs[1]);
        return Some(1);
      }
      if |c.strs| == 0 {
        return None;
      }
      var count := RemoveAll(c.strs);
      return Some(count);
    }

    method RemoveAll(keys: seq<string>) returns (count: nat)
      modifies this
      ensures data == old(data) - KeySet(keys) && count == |old(data).Keys * KeySet(keys)|
    {
      ghost var was := data;
      count := 0;
      for i := 0 to |keys|
        invariant data == was - KeySet(keys[..i])
        invariant count == |was.Keys * KeySet(keys[..i])|
      {
        RemovesOne(was, keys, i);
        var found := Remove(keys[i]);
        if found {
          count := count + 1;
        }
      }
      assert keys[..|keys|] == keys;
    }

    method Serialize() returns (state: Store)
      ensures state == data
    {
      return data;
    }

    method Deserialize(state: Store)
      modifies this
      ensures data == state
    {
      data := state;
    }
  }

  lemma RemovesOne(was: Store, keys: seq<string>, i: nat)
    requires i < |keys|
    ensures (was - KeySet(keys[..i])) - {keys[i]} == was - KeySet(keys[..i + 1])
    ensures |was.Keys * KeySet(keys[..i + 1])| ==
            |was.Keys * KeySet(keys[..i])| + if keys[i] in was - KeySet(keys[..i]) then 1 else 0
  {
    assert keys[..i + 1] == keys[..i] + [keys[i]];
    assert KeySet(keys[..i + 1]) == KeySet(keys[..i]) + {keys[i]};
    var before := was.Keys * KeySet(keys[..i]);
    assert was.Keys * KeySet(keys[..i + 1]) ==
           before + if keys[i] in was - KeySet(keys[..i]) then {keys[i]} else {};
  }
}
