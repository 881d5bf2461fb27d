/**
 * The bounded cache of validation schemas: a map in insertion order whose
 * reads and writes refresh recency, against an unbounded recency list.
 */
module SchemaCaches {
  import opened Wrappers
  import opened FieldRules

  /** The id of a `_meta_tables` row. */
  type Key = string

  type Schema = seq<Rule>

  datatype Entry = Entry(key: Key, value: Schema)

  const DEFAULT_VALIDATION_SCHEMA_CACHE_MAX_ENTRIES := 500

  function Find(entries: seq<Entry>, key: Key): Option<Schema> {
    if entries == [] then None
    else if entries[0].key == key then Some(entries[0].value)
    else Find(entries[1..], key)
  }

  /** `Map.delete`: the order of the other keys stays. */
  function Remove(entries: seq<Entry>, key: Key): seq<Entry> {
    if entries == [] then []
    else if entries[0].key == key then Remove(entries[1..], key)
    else [entries[0]] + Remove(entries[1..], key)
  }

  /** As the most recently used entry. */
  function Refresh(entries: seq<Entry>, key: Key, value: Schema): seq<Entry> {
    Remove(entries, key) + [Entry(key, value)]
  }

  /** `None` when the setting is not a finite number. */
  function MaxEntries(configured: Option<real>): (n: nat)
    ensures 1 <= n
    ensures configured.Some? && 1.0 <= configured.value ==> n as real <= configured.value < (n + 1) as real
    ensures configured.Some? && configured.value < 1.0 ==> n == 1
  {
    if configured.None? then DEFAULT_VALIDATION_SCHEMA_CACHE_MAX_ENTRIES
    else if configured.value.Floor < 1 then 1
    else configured.value.Floor
  }

  /** The last `n` entries. */
  function Newest(entries: seq<Entry>, n: nat): seq<Entry> {
    if |entries| <= n then entries else entries[|entries| - n..]
  }

  class ValidationSchemaCache {
    var entries: seq<Entry>

    constructor ()
      ensures entries == []
    {
      entries := [];
    }

    method Delete(key: Key)
      modifies this
      ensures entries == Remove(old(entries), key)
    {
      entries := Remove(entries, key);
    }

    method Read(key: Key) returns (hit: Option<Schema>)
      modifies this
      ensures hit == Find(old(entries), key)
      ensures entries == if hit.Some? then Refresh(old(entries), key, hit.value) else old(entries)
    {
      hit := Find(entries, key);
      if hit.Some? {
        Delete(key);
        entries := entries + [Entry(key, hit.value)];
      }
    }

    method Write(key: Key, value: Schema, configured: Option<real>)
      modifies this
      ensures entries == Newest(Refresh(old(entries), key, value), MaxEntries(configured))
    {
      Delete(key);
      entries := entries + [Entry(key, value)];
      var maximum := MaxEntries(configured);
      ghost var full, evicted := entries, 0;
      while |entries| > maximum
        invariant evicted <= |full| && entries == full[evicted..]
        invariant evicted == 0 || |entries| >= maximum
        decreases |entries|
      {
        entries := entries[1..];
        evicted := evicted + 1;
      }
    }

    method Invalidate(key: Key)
      modifies this
      ensures entries == Remove(old(entries), key)
    {
      Delete(key);
    }
  }

  // ----- traces --------------------------------------------------------

  datatype Event = ReadKey(key: Key) | WriteKey(key: Key, value: Schema, configured: Option<real>) | InvalidateKey(key: Key)

  function Step(entries: seq<Entry>, e: Event): seq<Entry> {
    match e
    case ReadKey(key) =>
      (match Find(entries, key)
       case Some(v) => Refresh(entries, key, v)
       case None => entries)
    case WriteKey(key, value, configured) => Newest(Refresh(entries, key, value), MaxEntries(configured))
    case InvalidateKey(key) => Remove(entries, key)
  }

  function Cache(trace: seq<Event>): seq<Entry> {
    if trace == [] then [] else Step(Cache(trace[..|trace| - 1]), trace[|trace| - 1])
  }

  /** Every write and every hit moves its key to the end; nothing is evicted. */
  function RecencyStep(recency: seq<Entry>, cache: seq<Entry>, e: Event): seq<Entry> {
    match e
    case ReadKey(key) =>
      (match Find(cache, key)
       case Some(v) => Refresh(recency, key, v)
       case None => recency)
    case WriteKey(key, value, _) => Refresh(recency, key, value)
    case InvalidateKey(key) => Remove(recency, key)
  }

  /** The unbounded recency list of a trace. */
  function Recency(trace: seq<Event>): seq<Entry> {
    if trace == [] then []
    else
      var before := trace[..|trace| - 1];
      RecencyStep(Recency(before), Cache(before), trace[|trace| - 1])
  }

  /** The value of the last write of the key that was not invalidated since. */
  function LastWritten(trace: seq<Event>, key: Key): Option<Schema> {
    if trace == [] then None
    else
      match trace[|trace| - 1]
      case WriteKey(k, value, _) => if k == key then Some(value) else LastWritten(trace[..|trace| - 1], key)
      case InvalidateKey(k) => if k == key then None else LastWritten(trace[..|trace| - 1], key)
      case ReadKey(_) => LastWritten(trace[..|trace| - 1], key)
  }

  ghost predicate IsSuffix(a: seq<Entry>, b: seq<Entry>) {
    |a| <= |b| && a == b[|b| - |a|..]
  }

  ghost predicate DistinctKeys(entries: seq<Entry>) {
    forall i, j | 0 <= i < j < |entries| :: entries[i].key != entries[j].key
  }

  lemma {:induction false} RemoveMembers(entries: seq<Entry>, key: Key)
    ensures forall e :: e in Remove(entries, key) <==> e in entries && e.key != key
  {
    if entries != [] {
      RemoveMembers(entries[1..], key);
      assert entries == [entries[0]] + entries[1..];
    }
  }

  lemma {:induction false} RemoveKeepsDistinct(entries: seq<Entry>, key: Key)
    requires DistinctKeys(entries)
    ensures DistinctKeys(Remove(entries, key))
  {
    if entries != [] {
      RemoveKeepsDistinct(entries[1..], key);
      RemoveMembers(entries[1..], key);
    }
  }

  lemma {:induction false} RemoveConcat(a: seq<Entry>, b: seq<Entry>, key: Key)
    ensures Remove(a + b, key) == Remove(a, key) + Remove(b, key)
  {
    if a == [] {
      assert a + b == b;
    } else {
      assert (a + b)[1..] == a[1..] + b;
      RemoveConcat(a[1..], b, key);
    }
  }

  lemma RemoveKeepsSuffix(a: seq<Entry>, b: seq<Entry>, key: Key)
    requires IsSuffix(a, b)
    ensures IsSuffix(Remove(a, key), Remove(b, key))
  {
    var older := b[..|b| - |a|];
    assert b == older + a;
    RemoveConcat(older, a, key);
  }

  lemma {:induction false} FindAfterRemove(entries: seq<Entry>, key: Key, k: Key)
    ensures Find(Remove(entries, key), k) == if k == key then None else Find(entries, k)
  {
    if entries != [] {
      FindAfterRemove(entries[1..], key, k);
    }
  }

  lemma {:induction false} FindConcat(a: seq<Entry>, b: seq<Entry>, k: Key)
    ensures Find(a + b, k) == if Find(a, k).Some? then Find(a, k) else Find(b, k)
  {
    if a == [] {
      assert a + b == b;
    } else {
      assert (a + b)[1..] == a[1..] + b;
      FindConcat(a[1..], b, k);
    }
  }

  lemma FindAfterRefresh(entries: seq<Entry>, key: Key, value: Schema, k: Key)
    ensures Find(Refresh(entries, key, value), k) == if k == key then Some(value) else Find(entries, k)
  {
    FindAfterRemove(entries, key, k);
    FindConcat(Remove(entries, key), [Entry(key, value)], k);
  }

  lemma {:induction false} FoundIsMember(entries: seq<Entry>, k: Key)
    ensures Find(entries, k).Some? ==> Entry(k, Find(entries, k).value) in entries
    ensures forall e | e in entries && e.key == k :: Find(entries, k).Some?
  {
    if entries != [] {
      FoundIsMember(entries[1..], k);
    }
  }

  lemma {:induction false} MemberIsFound(entries: seq<Entry>, e: Entry)
    requires DistinctKeys(entries) && e in entries
    ensures Find(entries, e.key) == Some(e.value)
  {
    if entries[0] != e {
      assert e in entries[1..];
      MemberIsFound(entries[1..], e);
    }
  }

  lemma FoundInSuffix(a: seq<Entry>, b: seq<Entry>, k: Key)
    requires IsSuffix(a, b) && DistinctKeys(b) && Find(a, k).Some?
    ensures Find(b, k) == Find(a, k)
  {
    FoundIsMember(a, k);
    assert b == b[..|b| - |a|] + a;
    MemberIsFound(b, Entry(k, Find(a, k).value));
  }

  lemma RefreshKeepsSuffix(a: seq<Entry>, b: seq<Entry>, key: Key, value: Schema)
    requires IsSuffix(a, b) && DistinctKeys(b)
    ensures IsSuffix(Refresh(a, key, value), Refresh(b, key, value)) && DistinctKeys(Refresh(b, key, value))
  {
    RemoveKeepsSuffix(a, b, key);
    RemoveKeepsDistinct(b, key);
    RemoveMembers(b, key);
  }

  lemma StepRefines(c: seq<Entry>, u: seq<Entry>, e: Event)
    requires IsSuffix(c, u) && DistinctKeys(u)
    ensures IsSuffix(Step(c, e), RecencyStep(u, c, e)) && DistinctKeys(RecencyStep(u, c, e))
    ensures forall k :: Find(RecencyStep(u, c, e), k) ==
              match e
              case WriteKey(key, value, _) => if k == key then Some(value) else Find(u, k)
              case InvalidateKey(key) => if k == key then None else Find(u, k)
              case ReadKey(_) => Find(u, k)
  {
    match e
    case ReadKey(key) =>
      if Find(c, key).Some? {
        RefreshKeepsSuffix(c, u, key, Find(c, key).value);
        FoundInSuffix(c, u, key);
        forall k {
          FindAfterRefresh(u, key, Find(c, key).value, k);
        }
      }
    case WriteKey(key, value, configured) =>
      RefreshKeepsSuffix(c, u, key, value);
      NewestIsSuffix(Refresh(c, key, value), Refresh(u, key, value), MaxEntries(configured));
      forall k {
        FindAfterRefresh(u, key, value, k);
      }
    case InvalidateKey(key) =>
      RemoveKeepsSuffix(c, u, key);
      RemoveKeepsDistinct(u, key);
      forall k {
        FindAfterRemove(u, key, k);
      }
  }

  lemma NewestIsSuffix(a: seq<Entry>, b: seq<Entry>, n: nat)
    requires IsSuffix(a, b)
    ensures IsSuffix(Newest(a, n), b)
  {
  }

  /** Over every trace: the cache is a suffix of the recency list, which holds the last written values. */
  lemma {:induction false} LruRefinesRecency(trace: seq<Event>)
    ensures IsSuffix(Cache(trace), Recency(trace)) && DistinctKeys(Recency(trace)) && DistinctKeys(Cache(trace))
    ensures forall k :: Find(Recency(trace), k) == LastWritten(trace, k)
  {
    hide Step, RecencyStep;
    if trace != [] {
      var before := trace[..|trace| - 1];
      LruRefinesRecency(before);
      hide IsSuffix, DistinctKeys, Find;
      StepRefines(Cache(before), Recency(before), trace[|trace| - 1]);
    }
  }

  /** A hit returns the last value written for the key, and there is none after an invalidation. */
  lemma HitsAreFresh(trace: seq<Event>, key: Key)
    requires Find(Cache(trace), key).Some?
    ensures LastWritten(trace, key) == Find(Cache(trace), key)
  {
    LruRefinesRecency(trace);
    FoundInSuffix(Cache(trace), Recency(trace), key);
  }

  /** After a write: the bound holds, the written key is there, and as much of the rest as fits. */
  lemma WriteKeepsNewest(cache: seq<Entry>, key: Key, value: Schema, configured: Option<real>)
    requires DistinctKeys(cache)
    ensures var c := Step(cache, WriteKey(key, value, configured));
            && |c| <= MaxEntries(configured)
            && |c| == Min(MaxEntries(configured), |Remove(cache, key)| + 1)
            && c[|c| - 1] == Entry(key, value) && Find(c, key) == Some(value)
            && IsSuffix(c[..|c| - 1], Remove(cache, key))
  {
    RemoveKeepsDistinct(cache, key);
    RemoveMembers(cache, key);
    NewestOfAppended(Remove(cache, key), Entry(key, value), MaxEntries(configured));
    hide IsSuffix, DistinctKeys, Find, Newest, MaxEntries;
  }

  lemma NewestOfAppended(kept: seq<Entry>, e: Entry, n: nat)
    requires DistinctKeys(kept) && 1 <= n && forall k | k in kept :: k.key != e.key
    ensures var c := Newest(kept + [e], n);
            && |c| == Min(n, |kept| + 1)
            && c[|c| - 1] == e && Find(c, e.key) == Some(e.value)
            && IsSuffix(c[..|c| - 1], kept)
  {
    var full := kept + [e];
    var c := Newest(full, n);
    var tail := kept[|kept| - (|c| - 1)..];
    assert c == tail + [e];
    FindConcat(tail, [e], e.key);
    FoundIsMember(tail, e.key);
    assert forall k | k in tail :: k in kept;
    assert c[..|c| - 1] == tail;
  }
}
