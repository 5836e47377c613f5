/** What one reconciliation does to every record, in one statement: which environments it retires, which operations it
    supersedes and queues, which notices it adds and withdraws, and which codes it drops. */
module Ticks {
  import opened Basics
  import opened Lifecycle
  import opened LifecycleInvariant
  import opened LifecycleSteps
  import opened LifecycleLoops
  import opened Platform
  import opened Runs

  // ---------------------------------------------------------------- a whole pass

  /** The turns of `order` can all be taken from `s`. */
  predicate Visitable(s: State, order: seq<Text>, newIds: map<Text, Text>) {
    forall k :: k in order ==> k in s.environments && k in newIds
  }

  /** The visits in `order` make of each environment, operation and notice what the turn of its environment would have
      made of it at the start. */
  ghost predicate EnvironmentPassed(s: State, s': State, order: seq<Text>, now: Time, newIds: map<Text, Text>, k: Text)
    requires Visitable(s, order, newIds)
  {
    && (k in s'.environments <==> k in s.environments)
    && (k in s.environments ==>
          s'.environments[k] == if k in order then TurnEnvironment(s, k, now, newIds[k]) else s.environments[k])
  }

  ghost predicate OperationPassed(s: State, s': State, order: seq<Text>, now: Time, newIds: map<Text, Text>, o: Text)
    requires Visitable(s, order, newIds)
  {
    && (o in s.operations ==>
          && o in s'.operations
          && s'.operations[o] == if s.operations[o].environmentId in order
                                 then TurnOperation(s, s.operations[o].environmentId, now, o) else s.operations[o])
    && (o in s'.operations && o !in s.operations ==>
          exists k :: k in order && Retires(s, k, now) && newIds[k] == o)
  }

  ghost predicate CleanupQueued(s: State, s': State, order: seq<Text>, now: Time, newIds: map<Text, Text>, k: Text)
    requires Visitable(s, order, newIds)
  {
    k in order && Retires(s, k, now) ==>
      newIds[k] in s'.operations && s'.operations[newIds[k]]
        == NewOperation(now, System, Destroy, DeletingEnvironment(s.environments[k]), false, newIds[k])
  }

  ghost predicate NoticePassed(cfg: Config, s: State, s': State, order: seq<Text>, now: Time, newIds: map<Text, Text>,
                               n: NoticeKey)
    requires Visitable(s, order, newIds)
  {
    && (n in s'.notices <==> n in s.notices || (n.environmentId in order && Wants(cfg, s, n.environmentId, now, n)))
    && (n in s.notices ==>
          s'.notices[n] == if n.environmentId in order then TurnNotice(s, n.environmentId, now, n) else s.notices[n])
    && (n in s'.notices && n !in s.notices ==>
          s'.notices[n] == Notice(n, s.environments[n.environmentId].owner, now, now, 0, false, false))
  }

  function PassAudit(s: State, order: seq<Text>, now: Time): seq<AuditEntry>
    requires forall k :: k in order ==> k in s.environments
  {
    if order == [] then [] else TurnAudit(s, order[0], now) + PassAudit(s, order[1..], now)
  }

  /** Everything at once. */
  ghost predicate Passed(cfg: Config, s: State, s': State, order: seq<Text>, now: Time, newIds: map<Text, Text>)
    requires Visitable(s, order, newIds)
  {
    && (forall k {:trigger EnvironmentPassed(s, s', order, now, newIds, k)} ::
          EnvironmentPassed(s, s', order, now, newIds, k))
    && (forall o {:trigger OperationPassed(s, s', order, now, newIds, o)} ::
          OperationPassed(s, s', order, now, newIds, o))
    && (forall k {:trigger CleanupQueued(s, s', order, now, newIds, k)} ::
          CleanupQueued(s, s', order, now, newIds, k))
    && (forall n {:trigger NoticePassed(cfg, s, s', order, now, newIds, n)} ::
          NoticePassed(cfg, s, s', order, now, newIds, n))
    && SameKeys(s, s') && s'.links == s.links && s'.linkCodes == s.linkCodes
    && s'.audit == s.audit + PassAudit(s, order, now)
  }

  // ---------------------------------------------------------------- one more visit in front

  /** `s1` is `s` after the turn of `k`; the turns of `rest` lead from there to `s'`. */
  ghost predicate Fronted(cfg: Config, s: State, s1: State, s': State, k: Text, rest: seq<Text>, now: Time,
                          newIds: map<Text, Text>)
  {
    && Inv(cfg, s, now) && Visitable(s, [k] + rest, newIds) && Visitable(s1, rest, newIds)
    && k in s.environments && k in newIds && k !in rest && newIds[k] !in s.operations
    && Turn(cfg, s, s1, k, now, newIds[k]) && Passed(cfg, s1, s', rest, now, newIds)
  }

  /** What the turn of `k` leaves for the turn of `j`. */
  lemma Left(cfg: Config, s: State, s1: State, s': State, k: Text, rest: seq<Text>, now: Time,
             newIds: map<Text, Text>, j: Text)
    requires Fronted(cfg, s, s1, s', k, rest, now, newIds) && j in rest
    ensures j in s.environments && j in s1.environments && Untouched(s, s1, j)
    ensures Retires(s1, j, now) == Retires(s, j, now) && TurnAudit(s1, j, now) == TurnAudit(s, j, now)
    ensures s1.environments[j] == s.environments[j]
  {
    assert j in [k] + rest;
    TurnIsLocal(cfg, s, s1, k, now, newIds[k], j);
    UntouchedTurn(cfg, s, s1, j, now, newIds[j]);
  }

  lemma EnvironmentFronted(cfg: Config, s: State, s1: State, s': State, k: Text, rest: seq<Text>, now: Time,
                           newIds: map<Text, Text>, j: Text)
    requires Fronted(cfg, s, s1, s', k, rest, now, newIds)
    ensures EnvironmentPassed(s, s', [k] + rest, now, newIds, j)
  {
    assert EnvironmentPassed(s1, s', rest, now, newIds, j);
    if j in rest { Left(cfg, s, s1, s', k, rest, now, newIds, j); }
  }

  lemma OperationFronted(cfg: Config, s: State, s1: State, s': State, k: Text, rest: seq<Text>, now: Time,
                         newIds: map<Text, Text>, o: Text)
    requires Fronted(cfg, s, s1, s', k, rest, now, newIds)
    ensures OperationPassed(s, s', [k] + rest, now, newIds, o)
  {
    hide Inv;
    assert OperationPassed(s1, s', rest, now, newIds, o);
    if o in s.operations {
      assert s1.operations[o] == TurnOperation(s, k, now, o);
      OwnOperation(cfg, s, k, now, o);
      var j := s.operations[o].environmentId;
      if j in rest { Left(cfg, s, s1, s', k, rest, now, newIds, j); }
    } else if o in s1.operations {
      assert k in [k] + rest;
    } else if o in s'.operations {
      var j :| j in rest && Retires(s1, j, now) && newIds[j] == o;
      Left(cfg, s, s1, s', k, rest, now, newIds, j);
      assert j in [k] + rest;
    }
  }

  /** A turn changes operations of its own environment only. */
  lemma OwnOperation(cfg: Config, s: State, k: Text, now: Time, o: Text)
    requires Inv(cfg, s, now) && k in s.environments && o in s.operations
    ensures TurnOperation(s, k, now, o).environmentId == s.operations[o].environmentId
    ensures s.operations[o].environmentId != k ==> TurnOperation(s, k, now, o) == s.operations[o]
  {
    assert EnvironmentOk(cfg, s, k);
  }

  lemma CleanupFronted(cfg: Config, s: State, s1: State, s': State, k: Text, rest: seq<Text>, now: Time,
                       newIds: map<Text, Text>, j: Text)
    requires Fronted(cfg, s, s1, s', k, rest, now, newIds)
    ensures CleanupQueued(s, s', [k] + rest, now, newIds, j)
  {
    hide Inv;
    if j in rest {
      Left(cfg, s, s1, s', k, rest, now, newIds, j);
      assert CleanupQueued(s1, s', rest, now, newIds, j);
    } else if j == k && Retires(s, k, now) {
      assert OperationPassed(s1, s', rest, now, newIds, newIds[k]);
      assert s1.operations[newIds[k]].environmentId == DeletingEnvironment(s.environments[k]).id;
      IdIsKey(cfg, s, k, now);
    }
  }

  lemma IdIsKey(cfg: Config, s: State, k: Text, now: Time)
    requires Inv(cfg, s, now) && k in s.environments
    ensures s.environments[k].id == k
  {
    assert EnvironmentOk(cfg, s, k);
  }

  lemma NoticeFronted(cfg: Config, s: State, s1: State, s': State, k: Text, rest: seq<Text>, now: Time,
                      newIds: map<Text, Text>, n: NoticeKey)
    requires Fronted(cfg, s, s1, s', k, rest, now, newIds)
    ensures NoticePassed(cfg, s, s', [k] + rest, now, newIds, n)
  {
    assert NoticePassed(cfg, s1, s', rest, now, newIds, n);
    if n in s.notices { assert NoticeOk(cfg, s, n); }
    hide Inv;
    var j := n.environmentId;
    if j in rest {
      Left(cfg, s, s1, s', k, rest, now, newIds, j);
      UntouchedTurn(cfg, s, s1, j, now, newIds[j]);
      assert Wants(cfg, s1, j, now, n) == Wants(cfg, s, j, now, n);
    }
  }

  lemma {:induction false} AuditFronted(cfg: Config, s: State, s1: State, s': State, k: Text, rest: seq<Text>,
                                        now: Time, newIds: map<Text, Text>, part: seq<Text>)
    requires Fronted(cfg, s, s1, s', k, rest, now, newIds) && forall j :: j in part ==> j in rest
    ensures forall j :: j in part ==> j in s.environments && j in s1.environments
    ensures PassAudit(s1, part, now) == PassAudit(s, part, now)
    decreases |part|
  {
    forall j | j in part ensures j in s.environments && j in s1.environments {
      Left(cfg, s, s1, s', k, rest, now, newIds, j);
    }
    if part != [] {
      Left(cfg, s, s1, s', k, rest, now, newIds, part[0]);
      AuditFronted(cfg, s, s1, s', k, rest, now, newIds, part[1..]);
    }
  }

  lemma PassFronted(cfg: Config, s: State, s1: State, s': State, k: Text, rest: seq<Text>, now: Time,
                    newIds: map<Text, Text>)
    requires Fronted(cfg, s, s1, s', k, rest, now, newIds)
    ensures Passed(cfg, s, s', [k] + rest, now, newIds)
  {
    hide EnvironmentPassed, OperationPassed, CleanupQueued, NoticePassed, Inv;
    var order := [k] + rest;
    forall j ensures EnvironmentPassed(s, s', order, now, newIds, j) {
      EnvironmentFronted(cfg, s, s1, s', k, rest, now, newIds, j);
    }
    forall o ensures OperationPassed(s, s', order, now, newIds, o) {
      OperationFronted(cfg, s, s1, s', k, rest, now, newIds, o);
    }
    forall j ensures CleanupQueued(s, s', order, now, newIds, j) {
      CleanupFronted(cfg, s, s1, s', k, rest, now, newIds, j);
    }
    forall n ensures NoticePassed(cfg, s, s', order, now, newIds, n) {
      NoticeFronted(cfg, s, s1, s', k, rest, now, newIds, n);
    }
    AuditFronted(cfg, s, s1, s', k, rest, now, newIds, rest);
    assert order[1..] == rest;
  }

  lemma NothingPassed(cfg: Config, s: State, now: Time, newIds: map<Text, Text>)
    ensures Passed(cfg, s, s, [], now, newIds)
  {
  }

  lemma {:induction false} PassByRecord(cfg: Config, s: State, order: seq<Text>, now: Time, newIds: map<Text, Text>)
    requires Inv(cfg, s, now) && NewIds(s, order, newIds) && Visitable(s, order, newIds)
    requires forall i, j :: 0 <= i < j < |order| ==> order[i] != order[j]
    ensures Passed(cfg, s, ReconcileAll(cfg, s, order, now, newIds), order, now, newIds)
    decreases |order|
  {
    hide ReconcileOne, Passed, Turn;
    if order == [] {
      NothingPassed(cfg, s, now, newIds);
    } else {
      var k, rest := order[0], order[1..];
      var s1 := ReconcileOne(cfg, s, k, now, newIds[k]);
      TurnKeepsEnvironments(cfg, s, k, now, newIds[k]);
      TurnByRecord(cfg, s, k, now, newIds[k]);
      PassByRecord(cfg, s1, rest, now, newIds);
      assert order == [k] + rest;
      PassFronted(cfg, s, s1, ReconcileAll(cfg, s1, rest, now, newIds), k, rest, now, newIds);
    }
  }

  // ---------------------------------------------------------------- a tick of a run

  lemma TickPasses(cfg: Config, states: seq<Machine>, events: seq<Event>, i: nat)
    requires IsRun(cfg, states, events) && i < |events| && events[i].TickReconcile?
    ensures Inv(cfg, DropExpired(states[i].store, events[i].now), events[i].now)
    ensures Visits(events[i].order, states[i].store.environments.Keys)
    ensures Visitable(DropExpired(states[i].store, events[i].now), events[i].order, events[i].newIds)
    ensures Passed(cfg, DropExpired(states[i].store, events[i].now), states[i + 1].store, events[i].order,
                   events[i].now, events[i].newIds)
  {
    Reachable(cfg, states, events, i);
    assert StepAt(cfg, states, events, i);
    hide Inv, Passed;
    var s, ev := states[i].store, events[i];
    DropExpiredInv(cfg, s, states[i].clock, ev.now);
    PassByRecord(cfg, DropExpired(s, ev.now), ev.order, ev.now, ev.newIds);
  }

  /** Environment `k` is to be cleaned up: it is past its expiry, or its last cleanup failed an hour ago or more. */
  predicate CleansUp(s: State, k: Text, now: Time)
    requires k in s.environments
  {
    var e := s.environments[k];
    || (e.status != Deleting && e.status != Deleted && e.expiresAt.Some? && e.expiresAt.value <= now)
    || (e.status == Deleting && e.operationId in s.operations && s.operations[e.operationId].status == Failed
        && s.operations[e.operationId].finishedAt.Some?
        && s.operations[e.operationId].finishedAt.value + 60 * MINUTE <= now)
  }

  lemma CleansUpIsRetiring(s: State, k: Text, now: Time)
    requires k in s.environments
    ensures CleansUp(s, k, now) <==> Retires(s, k, now)
  {
  }

  /** A tick turns exactly the environments that are to be cleaned up over to a new cleanup of the system's, and leaves
      the record of every other as it is. */
  lemma TickOnEnvironment(cfg: Config, states: seq<Machine>, events: seq<Event>, i: nat, k: Text)
    requires IsRun(cfg, states, events) && i < |events| && events[i].TickReconcile?
    ensures k in states[i + 1].store.environments <==> k in states[i].store.environments
    ensures k in states[i].store.environments ==>
        if CleansUp(states[i].store, k, events[i].now) then
          && k in events[i].newIds && events[i].newIds[k] in states[i + 1].store.operations
          && states[i + 1].store.environments[k] == states[i].store.environments[k].(
               status := Deleting, generation := states[i].store.environments[k].generation + 1,
               operationId := events[i].newIds[k])
          && states[i + 1].store.operations[events[i].newIds[k]] == Operation(
               events[i].newIds[k], k, System, Destroy, Queued, InQueue, None, events[i].now, None, None, map[],
               states[i].store.environments[k].generation + 1, 0, false)
        else states[i + 1].store.environments[k] == states[i].store.environments[k]
  {
    hide Inv, Passed;
    TickPasses(cfg, states, events, i);
    var s1 := DropExpired(states[i].store, events[i].now);
    PassOn(cfg, s1, states[i + 1].store, events[i].order, events[i].now, events[i].newIds, k);
    if k in s1.environments {
      CleansUpIsRetiring(states[i].store, k, events[i].now);
      assert Retires(s1, k, events[i].now) == Retires(states[i].store, k, events[i].now);
      IdIsKey(cfg, s1, k, events[i].now);
    }
  }

  lemma PassOn(cfg: Config, s: State, s': State, order: seq<Text>, now: Time, newIds: map<Text, Text>, k: Text)
    requires Visitable(s, order, newIds) && Passed(cfg, s, s', order, now, newIds)
    ensures EnvironmentPassed(s, s', order, now, newIds, k) && CleanupQueued(s, s', order, now, newIds, k)
    ensures OperationPassed(s, s', order, now, newIds, k)
  {
    assert EnvironmentPassed(s, s', order, now, newIds, k) && CleanupQueued(s, s', order, now, newIds, k);
  }

  /** It supersedes the live operations of those environments, and no other operation changes; the new operations are
      the cleanups. */
  lemma TickOnOperation(cfg: Config, states: seq<Machine>, events: seq<Event>, i: nat, o: Text)
    requires IsRun(cfg, states, events) && i < |events| && events[i].TickReconcile?
    ensures o in states[i].store.operations ==>
        && o in states[i + 1].store.operations
        && states[i].store.operations[o].environmentId in states[i].store.environments
        && states[i + 1].store.operations[o] ==
             if CleansUp(states[i].store, states[i].store.operations[o].environmentId, events[i].now)
                && Live(states[i].store.operations[o])
             then states[i].store.operations[o].(status := Superseded, finishedAt := Some(events[i].now))
             else states[i].store.operations[o]
    ensures o in states[i + 1].store.operations && o !in states[i].store.operations ==>
        exists k :: k in states[i].store.environments && k in events[i].newIds && events[i].newIds[k] == o
                    && CleansUp(states[i].store, k, events[i].now)
  {
    hide Passed;
    TickPasses(cfg, states, events, i);
    var s, s1 := states[i].store, DropExpired(states[i].store, events[i].now);
    PassOn(cfg, s1, states[i + 1].store, events[i].order, events[i].now, events[i].newIds, o);
    if o in s.operations {
      assert OperationOk(s1, o, events[i].now);
      var k := s.operations[o].environmentId;
      CleansUpIsRetiring(s, k, events[i].now);
      assert Retires(s1, k, events[i].now) == Retires(s, k, events[i].now);
    } else if o in states[i + 1].store.operations {
      var k :| k in events[i].order && Retires(s1, k, events[i].now) && events[i].newIds[k] == o;
      CleansUpIsRetiring(s, k, events[i].now);
      assert Retires(s1, k, events[i].now) == Retires(s, k, events[i].now);
    }
  }

  /** The notice is due: the expiry of an environment that goes on is five minutes away or less, or the warm deployment
      under way there has taken longer than the target. */
  predicate NoticeDue(cfg: Config, s: State, n: NoticeKey, now: Time) {
    && n.environmentId in s.environments
    && s.environments[n.environmentId].status != Deleting && s.environments[n.environmentId].status != Deleted
    && s.environments[n.environmentId].expiresAt.Some? && now < s.environments[n.environmentId].expiresAt.value
    && match n.kind
       case Expiring =>
         && s.environments[n.environmentId].expiresAt.value <= now + 5 * MINUTE
         && n.operationId == cfg.rfc3339(s.environments[n.environmentId].expiresAt.value)
       case Late =>
         && n.operationId == s.environments[n.environmentId].operationId && n.operationId in s.operations
         && s.operations[n.operationId].warm && Live(s.operations[n.operationId])
         && s.operations[n.operationId].requestedAt + cfg.warmTarget < now
       case _ => false
  }

  /** It adds exactly the notices that are due and missing, to the owner, and withdraws exactly the undelivered ones of
      the environments it turns over. */
  lemma TickOnNotice(cfg: Config, states: seq<Machine>, events: seq<Event>, i: nat, n: NoticeKey)
    requires IsRun(cfg, states, events) && i < |events| && events[i].TickReconcile?
    ensures n in states[i + 1].store.notices <==>
        n in states[i].store.notices || NoticeDue(cfg, states[i].store, n, events[i].now)
    ensures n in states[i].store.notices ==>
        && n.environmentId in states[i].store.environments
        && states[i + 1].store.notices[n] ==
             if CleansUp(states[i].store, n.environmentId, events[i].now) && !states[i].store.notices[n].delivered
             then states[i].store.notices[n].(cancelled := true) else states[i].store.notices[n]
    ensures n in states[i + 1].store.notices && n !in states[i].store.notices ==>
        states[i + 1].store.notices[n] == Notice(n, states[i].store.environments[n.environmentId].owner, events[i].now,
                                                 events[i].now, 0, false, false)
  {
    TickPasses(cfg, states, events, i);
    var s, s1 := states[i].store, DropExpired(states[i].store, events[i].now);
    assert NoticePassed(cfg, s1, states[i + 1].store, events[i].order, events[i].now, events[i].newIds, n);
    if n in s.notices { assert NoticeOk(cfg, s1, n); }
    if n.environmentId in s.environments {
      assert EnvironmentOk(cfg, s1, n.environmentId);
      hide Inv, Passed;
      CleansUpIsRetiring(s, n.environmentId, events[i].now);
      assert Retires(s1, n.environmentId, events[i].now) == Retires(s, n.environmentId, events[i].now);
      assert Wants(cfg, s1, n.environmentId, events[i].now, n) <==> NoticeDue(cfg, s, n, events[i].now);
    }
  }

  /** It drops exactly the confirmations and link codes whose time has come; links and idempotency records stay. */
  lemma TickOnCodes(cfg: Config, states: seq<Machine>, events: seq<Event>, i: nat, k: Text)
    requires IsRun(cfg, states, events) && i < |events| && events[i].TickReconcile?
    ensures k in states[i + 1].store.confirmations <==>
        k in states[i].store.confirmations && events[i].now < states[i].store.confirmations[k].expiresAt
    ensures k in states[i + 1].store.confirmations ==>
        states[i + 1].store.confirmations[k] == states[i].store.confirmations[k]
    ensures k in states[i + 1].store.linkCodes <==>
        k in states[i].store.linkCodes && events[i].now < states[i].store.linkCodes[k].expiresAt
    ensures k in states[i + 1].store.linkCodes ==> states[i + 1].store.linkCodes[k] == states[i].store.linkCodes[k]
    ensures states[i + 1].store.links == states[i].store.links
    ensures states[i + 1].store.idempotency == states[i].store.idempotency
    ensures states[i + 1].store.payloads == states[i].store.payloads
  {
    hide Inv;
    TickPasses(cfg, states, events, i);
  }
}
