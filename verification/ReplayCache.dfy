/** The memory of recently seen event ids in services/access-agent/src/adapters/gchat/index.ts, against a log that
    forgets nothing. An insertion-ordered map is a sequence of entries with distinct ids; times are milliseconds. */
module ReplayCache {
  import opened Basics

  type Id(==, !new)

  datatype Entry = Entry(id: Id, at: int)
  datatype Limits = Limits(ttl: int, max: nat)

  // ---------------------------------------------------------------- one call

  predicate Fresh(c: Limits, e: Entry, now: int) { now - e.at < c.ttl }

  /** How many entries a sweep deletes: it stops at the first fresh one. */
  function Stale(c: Limits, entries: seq<Entry>, now: int): (n: nat)
    ensures n <= |entries| && (forall i :: 0 <= i < n ==> !Fresh(c, entries[i], now))
    ensures n < |entries| ==> Fresh(c, entries[n], now)
  {
    if entries == [] || Fresh(c, entries[0], now) then 0 else Stale(c, entries[1..], now) + 1
  }

  function Recall(entries: seq<Entry>, id: Id): (at: Option<int>)
    ensures at.None? <==> forall e :: e in entries ==> e.id != id
    ensures at.Some? ==> Entry(id, at.value) in entries
  {
    if entries == [] then None
    else if entries[0].id == id then Some(entries[0].at)
    else Recall(entries[1..], id)
  }

  /** Setting an id that is present keeps its place. */
  function Put(entries: seq<Entry>, e: Entry): seq<Entry> {
    if entries == [] then [e]
    else if entries[0].id == e.id then [e] + entries[1..]
    else [entries[0]] + Put(entries[1..], e)
  }

  function Newest(entries: seq<Entry>, max: nat): seq<Entry> {
    if |entries| > max then entries[|entries| - max..] else entries
  }

  function Swept(c: Limits, entries: seq<Entry>, now: int): seq<Entry> {
    entries[Stale(c, entries, now)..]
  }

  predicate Remembers(c: Limits, entries: seq<Entry>, id: Id, now: int) {
    Recall(entries, id).Some? && now - Recall(entries, id).value < c.ttl
  }

  predicate Seen(c: Limits, entries: seq<Entry>, id: Id, now: int) {
    Remembers(c, Swept(c, entries, now), id, now)
  }

  function After(c: Limits, entries: seq<Entry>, id: Id, now: int): seq<Entry> {
    if Seen(c, entries, id, now) then Swept(c, entries, now)
    else Newest(Put(Swept(c, entries, now), Entry(id, now)), c.max)
  }

  class Cache {
    const limits: Limits
    var entries: seq<Entry>

    constructor (limits: Limits)
      ensures this.limits == limits && entries == []
    {
      this.limits, entries := limits, [];
    }

    method Sweep(now: int)
      modifies this
      ensures entries == Swept(limits, old(entries), now)
    {
      while |entries| > 0
        invariant Swept(limits, entries, now) == Swept(limits, old(entries), now)
      {
        if now - entries[0].at < limits.ttl { break; }
        assert Swept(limits, entries, now) == Swept(limits, entries[1..], now);
        entries := entries[1..];
      }
    }

    method SeenBefore(id: Id, now: int) returns (seen: bool)
      modifies this
      ensures seen == Seen(limits, old(entries), id, now)
      ensures entries == After(limits, old(entries), id, now)
    {
      Sweep(now);
      var at := Recall(entries, id);
      if at.Some? && now - at.value < limits.ttl { return true; }
      entries := Put(entries, Entry(id, now));
      Evict();
      seen := false;
    }

    method Evict()
      modifies this
      ensures entries == Newest(old(entries), limits.max)
    {
      while |entries| > limits.max
        invariant Newest(entries, limits.max) == Newest(old(entries), limits.max)
      {
        entries := entries[1..];
      }
    }
  }

  // ---------------------------------------------------------------- against a log

  predicate Ordered(s: seq<Entry>) {
    forall i, j :: 0 <= i < j < |s| ==> s[i].at <= s[j].at
  }

  predicate NotAfter(s: seq<Entry>, now: int) {
    forall i :: 0 <= i < |s| ==> s[i].at <= now
  }

  lemma StaleExactly(c: Limits, entries: seq<Entry>, now: int)
    requires Ordered(entries)
    ensures forall i :: 0 <= i < |entries| ==> (Fresh(c, entries[i], now) <==> Stale(c, entries, now) <= i)
  {
    var n := Stale(c, entries, now);
    forall i | n <= i < |entries| ensures Fresh(c, entries[i], now) { assert entries[n].at <= entries[i].at; }
  }

  /** In time order the early break loses nothing: what is left after a sweep is every fresh entry and only those. */
  lemma SweepKeepsTheFresh(c: Limits, entries: seq<Entry>, now: int)
    requires Ordered(entries)
    ensures forall e :: e in Swept(c, entries, now) <==> e in entries && Fresh(c, e, now)
  {
    var n := Stale(c, entries, now);
    StaleExactly(c, entries, now);
    forall e | e in entries && Fresh(c, e, now) ensures e in entries[n..] {
      var i :| 0 <= i < |entries| && entries[i] == e;
      assert i >= n && entries[n..][i - n] == e;
    }
    forall e | e in entries[n..] ensures e in entries && Fresh(c, e, now) {
      var i :| 0 <= i < |entries| - n && entries[n..][i] == e;
      assert entries[n + i] == e;
    }
  }

  /** The entries of the log still fresh at `now`, but no more than the newest `max`. */
  function Held(c: Limits, log: seq<Entry>, now: int): seq<Entry> {
    log[Start(c, log, now)..]
  }

  /** What the cache holds when the ids it let through are `log` and the last call was at `now`: that, or, when nothing
      is ever fresh, the id it has just let through, until the next call sweeps it away. */
  function Cached(c: Limits, log: seq<Entry>, now: int): seq<Entry> {
    if c.ttl > 0 then Held(c, log, now) else Newest(Newest(log, 1), c.max)
  }

  function Start(c: Limits, log: seq<Entry>, now: int): (k: nat)
    ensures k <= |log|
  {
    if |log| - c.max > Stale(c, log, now) then |log| - c.max else Stale(c, log, now)
  }

  predicate LogSays(c: Limits, log: seq<Entry>, id: Id, now: int) {
    exists e :: e in log && e.id == id && Fresh(c, e, now)
  }

  /** The log after a call: the id is added when the cache let it through. */
  function Logged(c: Limits, log: seq<Entry>, entries: seq<Entry>, id: Id, now: int): seq<Entry> {
    if Seen(c, entries, id, now) then log else log + [Entry(id, now)]
  }

  lemma StaleLater(c: Limits, log: seq<Entry>, before: int, now: int)
    requires Ordered(log) && before <= now
    ensures Stale(c, log, before) <= Stale(c, log, now)
  {
    var m := Stale(c, log, now);
    if m < |log| { StaleExactly(c, log, before); assert Fresh(c, log[m], before); }
  }

  lemma StaleSuffix(c: Limits, log: seq<Entry>, k: nat, now: int)
    requires Ordered(log) && k <= |log|
    ensures Stale(c, log[k..], now) == if Stale(c, log, now) < k then 0 else Stale(c, log, now) - k
  {
    var n := Stale(c, log[k..], now);
    StaleExactly(c, log, now);
    if n < |log| - k { assert log[k..][n] == log[k + n]; }
    if n > 0 { assert log[k..][n - 1] == log[k + n - 1]; }
  }

  lemma SweptCached(c: Limits, log: seq<Entry>, before: int, now: int)
    requires Ordered(log) && NotAfter(log, before) && before <= now
    ensures Swept(c, Cached(c, log, before), now) == Held(c, log, now)
  {
    if c.ttl > 0 {
      StaleLater(c, log, before, now);
      StaleSuffix(c, log, Start(c, log, before), now);
    } else {
      AllStale(c, log, now);
      AllStale(c, Cached(c, log, before), now);
    }
  }

  lemma AllStale(c: Limits, entries: seq<Entry>, now: int)
    requires c.ttl <= 0 && NotAfter(entries, now)
    ensures Stale(c, entries, now) == |entries|
  {
  }

  lemma {:induction false} PutAppends(entries: seq<Entry>, e: Entry)
    requires forall x :: x in entries ==> x.id != e.id
    ensures Put(entries, e) == entries + [e]
  {
    if entries != [] { PutAppends(entries[1..], e); }
  }

  /** Admitting one more entry. */
  lemma HeldGrows(c: Limits, log: seq<Entry>, e: Entry, now: int)
    requires Ordered(log + [e]) && Fresh(c, e, now)
    ensures Newest(Held(c, log, now) + [e], c.max) == Held(c, log + [e], now)
  {
    var n, m := Stale(c, log, now), Stale(c, log + [e], now);
    assert Ordered(log) by { assert forall i :: 0 <= i < |log| ==> (log + [e])[i] == log[i]; }
    StaleExactly(c, log + [e], now);
    assert n == m by {
      if n > 0 { assert (log + [e])[n - 1] == log[n - 1]; }
      assert (log + [e])[n] == if n < |log| then log[n] else e;
    }
    assert Held(c, log, now) + [e] == (log + [e])[Start(c, log, now)..];
  }

  /** Every call leaves the cache holding exactly the newest fresh entries of the log. */
  lemma HeldAfter(c: Limits, log: seq<Entry>, before: int, id: Id, now: int)
    requires Ordered(log) && NotAfter(log, before) && before <= now
    ensures Ordered(Logged(c, log, Cached(c, log, before), id, now))
    ensures NotAfter(Logged(c, log, Cached(c, log, before), id, now), now)
    ensures After(c, Cached(c, log, before), id, now)
         == Cached(c, Logged(c, log, Cached(c, log, before), id, now), now)
  {
    hide Ordered, NotAfter, Swept, Held, Put, Newest, Remembers;
    SweptCached(c, log, before, now);
    StillOrdered(log, Entry(id, now), before);
    if c.ttl <= 0 {
      NothingHeld(c, log, before, id, now);
    } else if !Seen(c, Cached(c, log, before), id, now) {
      Admitted(c, log, id, now);
    }
  }

  lemma StillOrdered(log: seq<Entry>, e: Entry, before: int)
    requires Ordered(log) && NotAfter(log, before) && before <= e.at
    ensures Ordered(log + [e]) && NotAfter(log, e.at) && NotAfter(log + [e], e.at)
  {
  }

  lemma Admitted(c: Limits, log: seq<Entry>, id: Id, now: int)
    requires c.ttl > 0 && Ordered(log) && Ordered(log + [Entry(id, now)])
    requires !Remembers(c, Held(c, log, now), id, now)
    ensures Newest(Put(Held(c, log, now), Entry(id, now)), c.max) == Held(c, log + [Entry(id, now)], now)
  {
    NoneHeld(c, log, id, now);
    PutAppends(Held(c, log, now), Entry(id, now));
    HeldGrows(c, log, Entry(id, now), now);
  }

  lemma NothingHeld(c: Limits, log: seq<Entry>, before: int, id: Id, now: int)
    requires c.ttl <= 0 && NotAfter(log, now) && Swept(c, Cached(c, log, before), now) == Held(c, log, now)
    ensures !Seen(c, Cached(c, log, before), id, now)
    ensures After(c, Cached(c, log, before), id, now) == Cached(c, log + [Entry(id, now)], now)
  {
    AllStale(c, log, now);
    assert Newest(log + [Entry(id, now)], 1) == [Entry(id, now)];
  }

  lemma NoneHeld(c: Limits, log: seq<Entry>, id: Id, now: int)
    requires Ordered(log) && !Remembers(c, Held(c, log, now), id, now)
    ensures forall e :: e in Held(c, log, now) ==> e.id != id
  {
    HeldIsFresh(c, log, now);
  }

  lemma HeldIsFresh(c: Limits, log: seq<Entry>, now: int)
    requires Ordered(log)
    ensures forall e :: e in Held(c, log, now) <==>
        exists i :: 0 <= i < |log| && |log| - c.max <= i && log[i] == e && Fresh(c, e, now)
  {
    StaleExactly(c, log, now);
    var k := Start(c, log, now);
    forall e | e in Held(c, log, now)
      ensures exists i :: 0 <= i < |log| && |log| - c.max <= i && log[i] == e && Fresh(c, e, now)
    {
      var i :| 0 <= i < |log[k..]| && log[k..][i] == e;
      assert log[k + i] == e;
    }
    forall i | 0 <= i < |log| && |log| - c.max <= i && Fresh(c, log[i], now) ensures log[i] in Held(c, log, now) {
      assert log[k..][i - k] == log[i];
    }
  }

  /** One call, exactly: the cache says seen when the log holds a fresh entry for the id among its newest `max`. */
  lemma SeenIff(c: Limits, log: seq<Entry>, before: int, id: Id, now: int)
    requires Ordered(log) && NotAfter(log, before) && before <= now
    ensures Seen(c, Cached(c, log, before), id, now)
       <==> exists i :: 0 <= i < |log| && |log| - c.max <= i && log[i].id == id && Fresh(c, log[i], now)
  {
    SweptCached(c, log, before, now);
    HeldIsFresh(c, log, now);
    if Remembers(c, Held(c, log, now), id, now) {
      assert Entry(id, Recall(Held(c, log, now), id).value) in Held(c, log, now);
    } else {
      NoneHeld(c, log, id, now);
      forall i | 0 <= i < |log| && |log| - c.max <= i && Fresh(c, log[i], now) ensures log[i].id != id {
        assert log[i] in Held(c, log, now);
      }
    }
  }

  /** The cache and the log agree on every id exactly while no more than `max` of the log's entries are fresh,
      provided no two fresh ones have the same id. */
  lemma AgreesIff(c: Limits, log: seq<Entry>, before: int, now: int)
    requires Ordered(log) && NotAfter(log, before) && before <= now
    requires forall i, j :: 0 <= i < j < |log| && Fresh(c, log[i], now) && Fresh(c, log[j], now) ==>
        log[i].id != log[j].id
    ensures (forall id :: Seen(c, Cached(c, log, before), id, now) <==> LogSays(c, log, id, now))
       <==> |Swept(c, log, now)| <= c.max
  {
    StaleExactly(c, log, now);
    var n := Stale(c, log, now);
    if |log| - n <= c.max {
      forall id ensures Seen(c, Cached(c, log, before), id, now) <==> LogSays(c, log, id, now) {
        SeenIff(c, log, before, id, now);
        if LogSays(c, log, id, now) {
          var e :| e in log && e.id == id && Fresh(c, e, now);
          var i :| 0 <= i < |log| && log[i] == e;
          assert |log| - c.max <= i;
        }
      }
    } else {
      SeenIff(c, log, before, log[n].id, now);
      assert log[n] in log && LogSays(c, log, log[n].id, now);
    }
  }

  // ---------------------------------------------------------------- one call, whatever the clock does

  predicate DistinctIds(entries: seq<Entry>) {
    forall i, j :: 0 <= i < j < |entries| ==> entries[i].id != entries[j].id
  }

  lemma {:induction false} RecallIs(entries: seq<Entry>, e: Entry)
    requires DistinctIds(entries) && e in entries
    ensures Recall(entries, e.id) == Some(e.at)
  {
    if entries[0] != e {
      assert e in entries[1..];
      RecallIs(entries[1..], e);
    }
  }

  lemma {:induction false} PutKeepsDistinct(entries: seq<Entry>, e: Entry)
    requires DistinctIds(entries)
    ensures DistinctIds(Put(entries, e)) && e in Put(entries, e)
    ensures |Put(entries, e)| == |entries| || (|Put(entries, e)| == |entries| + 1 && Put(entries, e)[|entries|] == e)
    ensures forall x :: x in Put(entries, e) ==> x == e || (x in entries && x.id != e.id)
  {
    if entries != [] && entries[0].id != e.id {
      var rest := entries[1..];
      PutKeepsDistinct(rest, e);
      var put := Put(rest, e);
      assert Put(entries, e) == [entries[0]] + put;
      forall j | 0 <= j < |put| ensures put[j].id != entries[0].id {
        assert put[j] in put;
        if put[j] != e { var k :| 0 <= k < |rest| && rest[k] == put[j]; assert entries[k + 1] == put[j]; }
      }
      forall x | x in rest ensures x in entries {}
    }
  }

  lemma SuffixDistinct(entries: seq<Entry>, n: nat)
    requires DistinctIds(entries) && n <= |entries|
    ensures DistinctIds(entries[n..])
  {
  }

  lemma RemembersIff(c: Limits, entries: seq<Entry>, id: Id, now: int)
    requires DistinctIds(entries)
    ensures Remembers(c, entries, id, now) <==> exists e :: e in entries && e.id == id && Fresh(c, e, now)
  {
    forall e | e in entries && e.id == id ensures Recall(entries, id) == Some(e.at) { RecallIs(entries, e); }
    if Remembers(c, entries, id, now) { assert Entry(id, Recall(entries, id).value) in entries; }
  }

  lemma NewestOfPut(entries: seq<Entry>, e: Entry, max: nat)
    requires DistinctIds(entries) && |entries| <= max
    ensures DistinctIds(Newest(Put(entries, e), max)) && |Newest(Put(entries, e), max)| <= max
    ensures max > 0 ==> e in Newest(Put(entries, e), max)
  {
    PutKeepsDistinct(entries, e);
    hide Put;
    var put := Put(entries, e);
    if |put| > max {
      SuffixDistinct(put, |put| - max);
      hide DistinctIds;
      assert max > 0 ==> put[|put| - max..][max - 1] == put[|put| - 1];
    }
  }

  /** Even if the clock goes back: no id is held twice, the limit is kept, an id is seen exactly when what the sweep
      leaves has a fresh entry for it, and an id that is let through is held from then on. */
  lemma AnyClock(c: Limits, entries: seq<Entry>, id: Id, now: int)
    requires DistinctIds(entries) && |entries| <= c.max
    ensures DistinctIds(After(c, entries, id, now)) && |After(c, entries, id, now)| <= c.max
    ensures Seen(c, entries, id, now) <==> exists e :: e in Swept(c, entries, now) && e.id == id && Fresh(c, e, now)
    ensures Seen(c, entries, id, now) ==> After(c, entries, id, now) == Swept(c, entries, now)
    ensures !Seen(c, entries, id, now) && c.max > 0 ==> Entry(id, now) in After(c, entries, id, now)
  {
    hide Newest, Put, Remembers, DistinctIds;
    SuffixDistinct(entries, Stale(c, entries, now));
    RemembersIff(c, Swept(c, entries, now), id, now);
    NewestOfPut(Swept(c, entries, now), Entry(id, now), c.max);
  }

  // ---------------------------------------------------------------- runs

  datatype Call = Call(id: Id, now: int)

  /** The log of ids admitted when nothing is ever evicted. */
  function FullLog(c: Limits, calls: seq<Call>, k: nat): seq<Entry>
    requires k <= |calls|
  {
    if k == 0 then []
    else
      var log := FullLog(c, calls, k - 1);
      if LogSays(c, log, calls[k - 1].id, calls[k - 1].now) then log
          else log + [Entry(calls[k - 1].id, calls[k - 1].now)]
  }

  function Entries(c: Limits, calls: seq<Call>, k: nat): seq<Entry>
    requires k <= |calls|
  {
    if k == 0 then [] else After(c, Entries(c, calls, k - 1), calls[k - 1].id, calls[k - 1].now)
  }

  predicate ClockNeverBack(calls: seq<Call>) {
    forall i, j :: 0 <= i < j < |calls| ==> calls[i].now <= calls[j].now
  }

  /** After none of the first k calls are more than `max` admitted ids still fresh. */
  predicate WithinCapacity(c: Limits, calls: seq<Call>, k: nat)
    requires k <= |calls|
  {
    forall i {:trigger Fits(c, calls, i)} :: 0 < i <= k ==> Fits(c, calls, i)
  }

  predicate Fits(c: Limits, calls: seq<Call>, i: int)
    requires 0 < i <= |calls|
  {
    |Swept(c, FullLog(c, calls, i), calls[i - 1].now)| <= c.max
  }

  /** The time of the last of the first k calls; before any, the first call's. */
  function LastCall(calls: seq<Call>, k: nat): int
    requires k <= |calls|
  {
    if calls == [] then 0 else if k == 0 then calls[0].now else calls[k - 1].now
  }

  /** The cache holds what it should after the calls so far. */
  predicate Tracks(c: Limits, calls: seq<Call>, k: nat)
    requires k <= |calls|
  {
    && Ordered(FullLog(c, calls, k)) && NotAfter(FullLog(c, calls, k), LastCall(calls, k))
    && Entries(c, calls, k) == Cached(c, FullLog(c, calls, k), LastCall(calls, k))
  }

  predicate AnswersAlike(c: Limits, calls: seq<Call>, k: nat)
    requires k < |calls|
  {
    Seen(c, Entries(c, calls, k), calls[k].id, calls[k].now) <==>
    LogSays(c, FullLog(c, calls, k), calls[k].id, calls[k].now)
  }

  lemma TracksNothing(c: Limits, calls: seq<Call>)
    ensures Tracks(c, calls, 0)
  {
    assert FullLog(c, calls, 0) == [] && Entries(c, calls, 0) == [];
  }

  lemma {:induction false} TracksAlways(c: Limits, calls: seq<Call>, k: nat)
    requires ClockNeverBack(calls) && k <= |calls| && WithinCapacity(c, calls, k)
    ensures Tracks(c, calls, k)
  {
    hide FullLog, Entries, Swept;
    if k == 0 {
      TracksNothing(c, calls);
    } else {
      assert WithinCapacity(c, calls, k - 1);
      TracksAlways(c, calls, k - 1);
      SameAnswer(c, calls, k - 1);
      TracksNext(c, calls, k - 1);
    }
  }

  lemma TracksNext(c: Limits, calls: seq<Call>, k: nat)
    requires ClockNeverBack(calls) && k < |calls| && Tracks(c, calls, k) && AnswersAlike(c, calls, k)
    ensures Tracks(c, calls, k + 1)
  {
    HeldAfter(c, FullLog(c, calls, k), LastCall(calls, k), calls[k].id, calls[k].now);
  }

  lemma SameAnswer(c: Limits, calls: seq<Call>, k: nat)
    requires ClockNeverBack(calls) && k < |calls| && WithinCapacity(c, calls, k) && Tracks(c, calls, k)
    ensures AnswersAlike(c, calls, k)
  {
    var log, before := FullLog(c, calls, k), LastCall(calls, k);
    SeenIff(c, log, before, calls[k].id, calls[k].now);
    if k == 0 {
      assert log == [];
    } else if LogSays(c, log, calls[k].id, calls[k].now) {
      assert Fits(c, calls, k);
      StillWithin(c, log, before, calls[k].id, calls[k].now);
    } else {
      assert forall i :: 0 <= i < |log| ==> log[i] in log;
    }
  }

  /** As long as no more than `max` ids are fresh at once, every answer of the cache, over a whole run, is that of a
      memory that never evicts. */
  lemma AnswersAsIfUnbounded(c: Limits, calls: seq<Call>, k: nat)
    requires ClockNeverBack(calls) && k < |calls| && WithinCapacity(c, calls, k)
    ensures Seen(c, Entries(c, calls, k), calls[k].id, calls[k].now)
       <==> LogSays(c, FullLog(c, calls, k), calls[k].id, calls[k].now)
  {
    TracksAlways(c, calls, k);
    SameAnswer(c, calls, k);
  }

  lemma StillWithin(c: Limits, log: seq<Entry>, before: int, id: Id, now: int)
    requires Ordered(log) && before <= now && |Swept(c, log, before)| <= c.max && LogSays(c, log, id, now)
    ensures exists i :: 0 <= i < |log| && |log| - c.max <= i && log[i].id == id && Fresh(c, log[i], now)
  {
    StaleExactly(c, log, before);
    var e :| e in log && e.id == id && Fresh(c, e, now);
    var i :| 0 <= i < |log| && log[i] == e;
    assert Fresh(c, log[i], before);
  }
}
