/** The search-result cache of `search_cache.py`: one dictionary, shared by the whole
    service, from a normalised query to the results and the time they were stored.
    Entries live for 300 seconds and at most 100 are kept. The clock is a parameter:
    `now` is the value `time.time()` returns at the call. */
module Cache {

  import opened Wrappers
  import opened Text

  const CacheDuration: real := 300.0
  const Capacity: nat := 100

  /** The key a query is stored under: lower-cased, surrounding whitespace removed. */
  function Key(query: string): string {
    Strip(Lower(query))
  }

  /** Queries that differ only in letter case share a key. */
  lemma KeyIgnoresCase(query: string)
    ensures Key(Upper(query)) == Key(query)
  {
    LowerOfUpper(query);
  }

  /** Queries that differ only in surrounding whitespace share a key. */
  lemma KeyIgnoresOuterSpace(ws1: string, query: string, ws2: string)
    requires forall k :: 0 <= k < |ws1| ==> IsSpace(ws1[k])
    requires forall k :: 0 <= k < |ws2| ==> IsSpace(ws2[k])
    ensures Key(ws1 + query + ws2) == Key(query)
  {
    LowerAppend(ws1 + query, ws2);
    LowerAppend(ws1, query);
    LowerSpaces(ws1);
    LowerSpaces(ws2);
    StripSpaces(ws1, Lower(query), ws2);
  }

  datatype Entry<R> = Entry(results: R, timestamp: real)

  /** The dictionary: its entries, and its keys in the order they were first inserted
      (the order `min` walks them in). */
  datatype CacheState<R> = CacheState(order: seq<string>, entries: map<string, Entry<R>>)

  /** The order lists each key once, and there are at most 100 entries. */
  ghost predicate WellFormed<R>(st: CacheState<R>) {
    Distinct(st.order)
    && (forall k :: k in st.entries <==> k in st.order)
    && |st.entries| <= Capacity
  }


  // ---------------------------------------------------------------------------
  // get

  /** What `get` returns: the stored results while they are younger than 300 seconds. */
  function Lookup<R>(st: CacheState<R>, key: string, now: real): Option<R> {
    if key in st.entries && now - st.entries[key].timestamp < CacheDuration
    then Some(st.entries[key].results)
    else None
  }

  predicate Expired<R>(st: CacheState<R>, key: string, now: real) {
    key in st.entries && now - st.entries[key].timestamp >= CacheDuration
  }

  /** The key order with one key taken out. */
  function Without(order: seq<string>, key: string): (r: seq<string>)
    ensures forall k :: k in r <==> k in order && k != key
    ensures Distinct(order) ==> Distinct(r)
  {
    if order == [] then []
    else
      var rest := Without(order[1..], key);
      assert Distinct(order) ==> Distinct(order[1..]) && order[0] !in order[1..];
      if order[0] == key then rest
      else
        assert Distinct(order) ==> order[0] !in rest;
        [order[0]] + rest
  }

  /** `del cache[key]` */
  function Remove<R>(st: CacheState<R>, key: string): CacheState<R> {
    CacheState(Without(st.order, key), st.entries - {key})
  }

  /** The cache after `get`: an expired entry is deleted, nothing else changes. */
  function AfterGet<R>(st: CacheState<R>, key: string, now: real): CacheState<R> {
    if Expired(st, key, now) then Remove(st, key) else st
  }

  /** Deleting an entry keeps the dictionary well formed. */
  lemma RemoveKeepsWellFormed<R>(st: CacheState<R>, key: string)
    requires WellFormed(st)
    ensures WellFormed(Remove(st, key))
    ensures key in st.entries ==> |Remove(st, key).entries| == |st.entries| - 1
  {
    var r := Remove(st, key);
    assert |r.entries| <= |st.entries|;
  }

  /** A hit returns the stored results and changes nothing; an expired entry is a miss
      and is gone afterwards. */
  lemma GetOutcome<R>(st: CacheState<R>, key: string, now: real)
    requires WellFormed(st)
    ensures WellFormed(AfterGet(st, key, now))
    ensures Lookup(st, key, now).Some? <==> key in st.entries && !Expired(st, key, now)
    ensures Lookup(st, key, now).Some? ==>
      Lookup(st, key, now).value == st.entries[key].results && AfterGet(st, key, now) == st
    ensures Expired(st, key, now) ==>
      key !in AfterGet(st, key, now).entries
      && forall k :: k in st.entries && k != key ==> k in AfterGet(st, key, now).entries
  {
    RemoveKeepsWellFormed(st, key);
  }

  // ---------------------------------------------------------------------------
  // set

  /** `cache[key] = entry`: a new key goes to the end of the order, an existing one
      keeps its place. */
  function Store<R>(st: CacheState<R>, key: string, e: Entry<R>): CacheState<R> {
    CacheState(if key in st.entries then st.order else st.order + [key], st.entries[key := e])
  }

  /** The timestamps of the entries, in key order. */
  function Timestamps<R>(order: seq<string>, entries: map<string, Entry<R>>): (ts: seq<real>)
    requires forall k :: k in order ==> k in entries
    ensures |ts| == |order|
    ensures forall i :: 0 <= i < |order| ==> ts[i] == entries[order[i]].timestamp
  {
    seq(|order|, i requires 0 <= i < |order| => entries[order[i]].timestamp)
  }

  /** Index `i` holds the smallest value, and no earlier index holds it too. */
  predicate IsFirstMin(ts: seq<real>, i: int) {
    0 <= i < |ts|
    && (forall j :: 0 <= j < |ts| ==> ts[i] <= ts[j])
    && (forall j :: 0 <= j < i ==> ts[j] > ts[i])
  }

  /** The position `min` picks: the first smallest value. */
  function FirstMin(ts: seq<real>): (i: nat)
    requires |ts| > 0
    ensures IsFirstMin(ts, i)
  {
    if |ts| == 1 then 0
    else
      var k := FirstMin(ts[1..]) + 1;
      if ts[0] <= ts[k] then 0 else k
  }

  /** Only one position is the first smallest. */
  lemma FirstMinUnique(ts: seq<real>, i: int, j: int)
    requires IsFirstMin(ts, i) && IsFirstMin(ts, j)
    ensures i == j
  {
    assert ts[i] <= ts[j] && ts[j] <= ts[i];
  }

  /** The cache after `set`: the entry is stored with the current time; when that makes
      101 entries, the oldest one (the first in key order among equals) is deleted. */
  function AfterSet<R>(st: CacheState<R>, key: string, results: R, now: real): CacheState<R>
    requires WellFormed(st)
  {
    var stored := Store(st, key, Entry(results, now));
    if |stored.entries| > Capacity
    then Remove(stored, stored.order[FirstMin(Timestamps(stored.order, stored.entries))])
    else stored
  }

  /** Storing keeps the order and the entries in step, and adds at most one entry. */
  lemma StoreFacts<R>(st: CacheState<R>, key: string, e: Entry<R>)
    requires WellFormed(st)
    ensures var s := Store(st, key, e);
      Distinct(s.order) && (forall k :: k in s.entries <==> k in s.order)
      && |s.entries| <= Capacity + 1
      && (|s.entries| > Capacity ==> key !in st.entries && s.order == st.order + [key])
  {
    var s := Store(st, key, e);
    if key !in st.entries {
      assert key !in st.order;
      assert |s.entries| == |st.entries| + 1;
    } else {
      assert |s.entries| == |st.entries|;
    }
  }

  /** `set` never leaves more than 100 entries. */
  lemma SetKeepsWellFormed<R>(st: CacheState<R>, key: string, results: R, now: real)
    requires WellFormed(st)
    ensures WellFormed(AfterSet(st, key, results, now))
  {
    var stored := Store(st, key, Entry(results, now));
    StoreFacts(st, key, Entry(results, now));
    if |stored.entries| > Capacity {
      var oldest := stored.order[FirstMin(Timestamps(stored.order, stored.entries))];
      var r := Remove(stored, oldest);
      assert |r.entries| == |stored.entries| - 1;
    }
  }

  /** When `set` overflows, exactly one entry goes: one whose timestamp no other entry
      undercuts. Every other entry is kept unchanged. */
  lemma SetEvictsOldest<R>(st: CacheState<R>, key: string, results: R, now: real)
    requires WellFormed(st)
    ensures var stored := Store(st, key, Entry(results, now));
      var after := AfterSet(st, key, results, now);
      |stored.entries| > Capacity ==>
        exists gone :: gone in stored.entries && after.entries == stored.entries - {gone}
          && forall k :: k in stored.entries ==> stored.entries[gone].timestamp <= stored.entries[k].timestamp
  {
    var stored := Store(st, key, Entry(results, now));
    StoreFacts(st, key, Entry(results, now));
    if |stored.entries| > Capacity {
      var ts := Timestamps(stored.order, stored.entries);
      var i := FirstMin(ts);
      var gone := stored.order[i];
      forall k | k in stored.entries
        ensures stored.entries[gone].timestamp <= stored.entries[k].timestamp
      {
        var j :| 0 <= j < |stored.order| && stored.order[j] == k;
        assert ts[i] <= ts[j];
      }
    }
  }

  /** With a clock that has not gone backwards, what `set` stores is what a `get` of
      any variant of the query returns for the next 300 seconds. */
  lemma SetThenGet<R>(st: CacheState<R>, query: string, results: R, now: real, query': string, later: real)
    requires WellFormed(st)
    requires forall k :: k in st.entries ==> st.entries[k].timestamp <= now
    requires Key(query') == Key(query) && later - now < CacheDuration
    ensures Lookup(AfterSet(st, Key(query), results, now), Key(query'), later) == Some(results)
  {
    var key := Key(query);
    var stored := Store(st, key, Entry(results, now));
    StoreFacts(st, key, Entry(results, now));
    if |stored.entries| > Capacity {
      var ts := Timestamps(stored.order, stored.entries);
      var i := FirstMin(ts);
      var last := |stored.order| - 1;
      assert stored.order[last] == key;
      assert last > 0 by {
        assert |stored.entries| > 1;
        var k1 :| k1 in stored.entries && k1 != key;
      }
      assert i != last;
      assert stored.order[i] != key;
    }
  }

  // ---------------------------------------------------------------------------
  // The cache object

  /** `SearchCache`: the class-level dictionary and the operations on it. */
  class SearchCache<R> {
    var order: seq<string>
    var entries: map<string, Entry<R>>

    function State(): CacheState<R>
      reads this
    {
      CacheState(order, entries)
    }

    ghost predicate Valid()
      reads this
    {
      WellFormed(State())
    }

    constructor ()
      ensures Valid() && order == [] && entries == map[]
    {
      order := [];
      entries := map[];
    }

    /** `get`: the stored results for the query's key while they are fresh; an expired
        entry is deleted. */
    method Get(query: string, now: real) returns (r: Option<R>)
      requires Valid()
      modifies this
      ensures Valid()
      ensures r == Lookup(old(State()), Key(query), now)
      ensures State() == AfterGet(old(State()), Key(query), now)
    {
      GetOutcome(State(), Key(query), now);
      var key := Key(query);
      if key in entries {
        var e := entries[key];
        if now - e.timestamp < CacheDuration {
          return Some(e.results);
        }
        entries := entries - {key};
        order := Without(order, key);
      }
      return None;
    }

    /** `set`: stores the results with the current time, then deletes the oldest entry
        if there are more than 100. */
    method Set(query: string, results: R, now: real)
      requires Valid()
      modifies this
      ensures Valid()
      ensures State() == AfterSet(old(State()), Key(query), results, now)
    {
      SetKeepsWellFormed(State(), Key(query), results, now);
      ghost var stored := Store(State(), Key(query), Entry(results, now));
      StoreFacts(State(), Key(query), Entry(results, now));
      var key := Key(query);
      if key !in entries {
        order := order + [key];
      }
      entries := entries[key := Entry(results, now)];
      assert State() == stored;
      if |entries| > Capacity {
        var i := OldestKey(order, entries);
        FirstMinUnique(Timestamps(order, entries), i, FirstMin(Timestamps(order, entries)));
        var oldest := order[i];
        entries := entries - {oldest};
        order := Without(order, oldest);
      }
    }

    /** `clear`: the cache is empty. */
    method Clear()
      modifies this
      ensures Valid() && order == [] && entries == map[]
    {
      order := [];
      entries := map[];
    }
  }

  /** `min(cache.keys(), key=timestamp)`: walks the keys in order and keeps the first
      one with the smallest timestamp. */
  method OldestKey<R>(order: seq<string>, entries: map<string, Entry<R>>) returns (i: nat)
    requires |order| > 0 && forall k :: k in order ==> k in entries
    ensures IsFirstMin(Timestamps(order, entries), i)
  {
    ghost var ts := Timestamps(order, entries);
    i := 0;
    var j := 1;
    while j < |order|
      invariant 1 <= j <= |order| && i < j
      invariant forall k :: 0 <= k < j ==> ts[i] <= ts[k]
      invariant forall k :: 0 <= k < i ==> ts[k] > ts[i]
    {
      if entries[order[j]].timestamp < entries[order[i]].timestamp {
        i := j;
      }
      j := j + 1;
    }
  }
}
