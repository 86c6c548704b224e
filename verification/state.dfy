/** The dedup store: the in-memory record of which item keys have been synced. The
    record is one process-wide object; `getSyncState` hands out that object itself, so
    whoever holds it sees every later mark. The clock reading stored as `lastSync` is
    an input to each mark. */
module State {
  import opened JsStrings

  /** `SyncState`: the processed keys in the order they were first marked, and the
      clock reading of the last mark that added a key, if any. */
  datatype SyncState = SyncState(processedKeys: seq<string>, lastSync: Option<string>)

  /** The record at process start and after `clearSyncState`. */
  const EMPTY := SyncState([], None)

  predicate NoDuplicates(keys: seq<string>) {
    forall i, j :: 0 <= i < j < |keys| ==> keys[i] != keys[j]
  }

  /** The record after `markAsProcessed(key)` at clock reading `now`: a key already
      present changes nothing, a new key is appended and stamps `lastSync`. */
  function Marked(s: SyncState, key: string, now: string): SyncState {
    if key in s.processedKeys then s else SyncState(s.processedKeys + [key], Some(now))
  }

  /** Marking never introduces a duplicate key. */
  lemma MarkedKeepsNoDuplicates(s: SyncState, key: string, now: string)
    requires NoDuplicates(s.processedKeys)
    ensures NoDuplicates(Marked(s, key, now).processedKeys)
  {
    var keys := Marked(s, key, now).processedKeys;
    if key !in s.processedKeys {
      forall i, j | 0 <= i < j < |keys| ensures keys[i] != keys[j] {
        if j == |s.processedKeys| {
          assert keys[i] == s.processedKeys[i];
        }
      }
    }
  }

  /** Marking only grows the key list: the old keys keep their places, the marked key
      is present afterwards, and at most that one key is added, at the end. */
  lemma MarkedGrows(s: SyncState, key: string, now: string)
    ensures var keys := Marked(s, key, now).processedKeys;
            && |s.processedKeys| <= |keys| <= |s.processedKeys| + 1
            && keys[..|s.processedKeys|] == s.processedKeys
            && key in keys
            && (|keys| > |s.processedKeys| ==> keys[|s.processedKeys|] == key)
  {
  }

  /** Marking a key a second time changes nothing, whatever the clock says. */
  lemma MarkedIdempotent(s: SyncState, key: string, now: string, later: string)
    ensures Marked(Marked(s, key, now), key, later) == Marked(s, key, now)
  {
  }

  /** `lastSync` moves exactly when a key is added, and then holds the mark's clock reading. */
  lemma MarkedStampsOnlyNewKeys(s: SyncState, key: string, now: string)
    ensures Marked(s, key, now).processedKeys != s.processedKeys <==> key !in s.processedKeys
    ensures key in s.processedKeys ==> Marked(s, key, now).lastSync == s.lastSync
    ensures key !in s.processedKeys ==> Marked(s, key, now).lastSync == Some(now)
  {
    if key !in s.processedKeys {
      assert |Marked(s, key, now).processedKeys| != |s.processedKeys|;
    }
  }

  /** The process-wide record `memoryState`, updated in place. */
  class MemoryStore {
    var processedKeys: seq<string>
    var lastSync: Option<string>

    ghost predicate Valid()
      reads this
    {
      NoDuplicates(processedKeys)
    }

    /** The record's current value. */
    function State(): SyncState
      reads this
    {
      SyncState(processedKeys, lastSync)
    }

    constructor ()
      ensures Valid() && State() == EMPTY
    {
      processedKeys := [];
      lastSync := None;
    }

    /** `markAsProcessed`: appends the key and stamps `lastSync` only when the key is
        not already recorded. */
    method MarkAsProcessed(key: string, now: string)
      requires Valid()
      modifies this
      ensures Valid()
      ensures State() == Marked(old(State()), key, now)
      ensures key in processedKeys && old(processedKeys) <= processedKeys
      ensures old(key in processedKeys) ==> processedKeys == old(processedKeys) && lastSync == old(lastSync)
    {
      if key !in processedKeys {
        MarkedKeepsNoDuplicates(State(), key, now);
        processedKeys := processedKeys + [key];
        lastSync := Some(now);
      }
    }

    /** `clearSyncState`: back to no keys and no `lastSync`, whatever the record held,
        so clearing twice is the same as clearing once. */
    method ClearSyncState()
      modifies this
      ensures Valid() && State() == EMPTY
    {
      processedKeys := [];
      lastSync := None;
    }
  }
}
