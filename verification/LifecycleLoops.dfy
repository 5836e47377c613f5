/** Reconciliation as a whole: what it achieves, that doing it twice changes nothing, and that the order in which the
    environments are visited does not matter. */
module LifecycleLoops {
  import opened Lifecycle
  import opened LifecycleInvariant
  import opened LifecycleSteps

  // ---------------------------------------------------------------- one turn, record by record

  function TurnEnvironment(s: State, k: Text, now: Time, newId: Text): Environment
    requires k in s.environments
  {
    if Retires(s, k, now) then DeletingEnvironment(s.environments[k]).(operationId := newId) else s.environments[k]
  }

  function TurnOperation(s: State, k: Text, now: Time, o: Text): Operation
    requires k in s.environments && o in s.operations
  {
    if Retires(s, k, now) && s.environments[k].operationId == o then Ended(s.operations[o], now) else s.operations[o]
  }

  function TurnNotice(s: State, k: Text, now: Time, n: NoticeKey): Notice
    requires k in s.environments && n in s.notices
  {
    if Retires(s, k, now) then Withdrawn(s.notices[n], k) else s.notices[n]
  }

  /** The notices a turn makes sure exist. */
  predicate Wants(cfg: Config, s: State, k: Text, now: Time, n: NoticeKey)
    requires k in s.environments
  {
    && n.environmentId == k && !Retires(s, k, now) && Announces(s.environments[k])
    && ((n.kind == Expiring && ExpiryNoticeDue(s.environments[k], now)
         && n.operationId == cfg.rfc3339(s.environments[k].expiresAt.value))
        || (n.kind == Late && n.operationId == s.environments[k].operationId && n.operationId in s.operations
            && LateNoticeDue(cfg, s.operations[n.operationId], now)))
  }

  function TurnAudit(s: State, k: Text, now: Time): seq<AuditEntry>
    requires k in s.environments
  {
    if Retires(s, k, now) then [AuditEntry(now, System, OfAction(Destroy), OfEnvironment(k), Reached(Queued))] else []
  }

  ghost predicate TurnRecords(s: State, s': State, k: Text, now: Time, newId: Text)
    requires k in s.environments
  {
    && s'.environments == s.environments[k := TurnEnvironment(s, k, now, newId)]
    && s'.operations.Keys == s.operations.Keys + (if Retires(s, k, now) then {newId} else {})
    && (forall o {:trigger s'.operations[o]} :: o in s.operations ==> s'.operations[o] == TurnOperation(s, k, now, o))
    && (Retires(s, k, now) ==> s'.operations[newId] == NewOperation(now, System, Destroy,
        DeletingEnvironment(s.environments[k]), false, newId))
  }

  ghost predicate TurnNotices(cfg: Config, s: State, s': State, k: Text, now: Time)
    requires k in s.environments
  {
    && (forall n {:trigger n in s'.notices} :: n in s'.notices <==> n in s.notices || Wants(cfg, s, k, now, n))
    && (forall n {:trigger s'.notices[n]} :: n in s'.notices ==>
          s'.notices[n] == (if n in s.notices then TurnNotice(s, k, now, n)
                            else Notice(n, s.environments[k].owner, now, now, 0, false, false)))
  }

  ghost predicate Turn(cfg: Config, s: State, s': State, k: Text, now: Time, newId: Text)
    requires k in s.environments
  {
    && TurnRecords(s, s', k, now, newId)
    && TurnNotices(cfg, s, s', k, now)
    && SameKeys(s, s') && s'.links == s.links && s'.linkCodes == s.linkCodes
    && s'.audit == s.audit + TurnAudit(s, k, now)
  }

  lemma RetiringTurn(cfg: Config, s: State, k: Text, now: Time, newId: Text)
    requires EnvironmentsOk(cfg, s) && k in s.environments && newId !in s.operations && Retires(s, k, now)
    ensures Turn(cfg, s, Retired(s, k, now, newId), k, now, newId)
  {
    var e, op := DeletingEnvironment(s.environments[k]),
        NewOperation(now, System, Destroy, DeletingEnvironment(s.environments[k]), false, newId);
    assert EnvironmentOk(cfg, s, k);
    EnqueueByRecord(s, now, now, System, Destroy, e, false, newId);
    RetiringByRecord(cfg, s, Retired(s, k, now, newId), k, now, op, e);
    EndCurrentByRecord(s, k, now);
  }

  lemma RetiringByRecord(cfg: Config, s: State, s': State, k: Text, now: Time, op: Operation, e: Environment)
    requires k in s.environments && op.id !in s.operations && Retires(s, k, now) && e.id == k
    requires e == DeletingEnvironment(s.environments[k]) && op == NewOperation(now, System, Destroy, e, false, op.id)
    requires Enqueued(s, s', now, op, e)
    ensures TurnRecords(s, s', k, now, op.id) && TurnNotices(cfg, s, s', k, now)
  {
  }

  /** `s'` is `s` with the notice `key` to `owner`, if it was missing and is wanted. */
  ghost predicate Ensured(s: State, s': State, key: NoticeKey, wanted: bool, owner: Text, now: Time) {
    && s' == s.(notices := s'.notices)
    && s'.notices == if !wanted || key in s.notices then s.notices
        else s.notices[key := Notice(key, owner, now, now, 0, false, false)]
  }

  lemma AnnouncedByRecord(cfg: Config, s: State, e: Environment, now: Time)
    requires e.expiresAt.Some?
    ensures Ensured(s, Announced1(cfg, s, e, now), NoticeKey(Expiring, e.id, cfg.rfc3339(e.expiresAt.value)),
                    ExpiryNoticeDue(e, now), e.owner, now)
    ensures Ensured(s, Announced2(cfg, s, e, now), NoticeKey(Late, e.id, e.operationId),
                    e.operationId in s.operations && LateNoticeDue(cfg, s.operations[e.operationId], now), e.owner, now)
  {
  }

  lemma AnnouncingTurn(cfg: Config, s: State, k: Text, now: Time, newId: Text)
    requires EnvironmentsOk(cfg, s) && k in s.environments && !Retires(s, k, now) && Announces(s.environments[k])
    ensures Turn(cfg, s, Announced2(cfg, Announced1(cfg, s, s.environments[k], now), s.environments[k], now), k,
                 now, newId)
  {
    assert EnvironmentOk(cfg, s, k);
    var e := s.environments[k];
    var s1 := Announced1(cfg, s, e, now);
    AnnouncedByRecord(cfg, s, e, now);
    AnnouncedByRecord(cfg, s1, e, now);
  }

  lemma TurnByRecord(cfg: Config, s: State, k: Text, now: Time, newId: Text)
    requires EnvironmentsOk(cfg, s) && k in s.environments && newId !in s.operations
    ensures Turn(cfg, s, ReconcileOne(cfg, s, k, now, newId), k, now, newId)
  {
    ReconcileOneCases(cfg, s, k, now, newId);
    if Retires(s, k, now) {
      RetiringTurn(cfg, s, k, now, newId);
    } else if Announces(s.environments[k]) {
      AnnouncingTurn(cfg, s, k, now, newId);
    }
  }

  /** A turn leaves alone everything another environment's turn looks at. */
  ghost predicate Untouched(s: State, s': State, j: Text) {
    && j in s.environments && j in s'.environments && s'.environments[j] == s.environments[j]
    && s.environments[j].operationId in s.operations && s.environments[j].operationId in s'.operations
    && s'.operations[s.environments[j].operationId] == s.operations[s.environments[j].operationId]
    && (forall n: NoticeKey {:trigger n in s'.notices} :: n.environmentId == j ==>
        (n in s'.notices <==> n in s.notices))
  }

  lemma TurnIsLocal(cfg: Config, s: State, s': State, k: Text, now: Time, newId: Text, j: Text)
    requires EnvironmentsOk(cfg, s) && k in s.environments && j in s.environments && j != k
    requires Turn(cfg, s, s', k, now, newId)
    ensures Untouched(s, s', j)
  {
    assert EnvironmentOk(cfg, s, k) && EnvironmentOk(cfg, s, j);
    assert s.environments[j].operationId != s.environments[k].operationId;
    assert s'.operations[s.environments[j].operationId] == s.operations[s.environments[j].operationId];
  }

  lemma UntouchedTurn(cfg: Config, s: State, s': State, j: Text, now: Time, newId: Text)
    requires Untouched(s, s', j)
    ensures Retires(s', j, now) == Retires(s, j, now) && TurnAudit(s', j, now) == TurnAudit(s, j, now)
    ensures TurnEnvironment(s', j, now, newId) == TurnEnvironment(s, j, now, newId)
    ensures forall n: NoticeKey {:trigger Wants(cfg, s', j, now, n)} ::
        Wants(cfg, s', j, now, n) == Wants(cfg, s, j, now, n)
  {
  }

  // ---------------------------------------------------------------- settled environments

  /** Nothing is left to do for environment `k` at time `now`. */
  ghost predicate Settled(cfg: Config, s: State, k: Text, now: Time)
    requires k in s.environments
  {
    && !Retires(s, k, now)
    && forall n {:trigger n in s.notices} {:trigger Wants(cfg, s, k, now, n)} :: Wants(cfg, s, k, now, n) ==>
        n in s.notices
  }

  lemma SettledIsFixed(cfg: Config, s: State, k: Text, now: Time, newId: Text)
    requires EnvironmentsOk(cfg, s) && k in s.environments && Settled(cfg, s, k, now)
    ensures ReconcileOne(cfg, s, k, now, newId) == s
  {
    assert EnvironmentOk(cfg, s, k);
    var e := s.environments[k];
    ReconcileOneCases(cfg, s, k, now, newId);
    if Announces(e) {
      assert ExpiryNoticeDue(e, now) ==> Wants(cfg, s, k, now, NoticeKey(Expiring, k, cfg.rfc3339(e.expiresAt.value)));
      assert LateNoticeDue(cfg, s.operations[e.operationId], now) ==>
          Wants(cfg, s, k, now, NoticeKey(Late, k, e.operationId));
    }
  }

  lemma KeepsOrSettles(cfg: Config, s: State, s': State, j: Text, now: Time, newId: Text, k: Text)
    requires EnvironmentsOk(cfg, s) && j in s.environments && k in s.environments && newId !in s.operations
    requires Turn(cfg, s, s', j, now, newId)
    ensures k in s'.environments && (j == k || Settled(cfg, s, k, now) ==> Settled(cfg, s', k, now))
  {
    if j == k {
    } else {
      TurnIsLocal(cfg, s, s', j, now, newId, k);
      if Settled(cfg, s, k, now) {
      }
    }
  }

  lemma {:induction false} PassSettles(cfg: Config, s: State, order: seq<Text>, now: Time, newIds: map<Text, Text>,
                                       k: Text)
    requires Inv(cfg, s, now) && NewIds(s, order, newIds) && k in s.environments
    requires k in order || Settled(cfg, s, k, now)
    ensures k in ReconcileAll(cfg, s, order, now, newIds).environments
    ensures Settled(cfg, ReconcileAll(cfg, s, order, now, newIds), k, now)
    decreases |order|
  {
    if order != [] {
      var j := order[0];
      if j !in s.environments {
        PassSettles(cfg, s, order[1..], now, newIds, k);
      } else {
        var s1 := ReconcileOne(cfg, s, j, now, newIds[j]);
        ReconcileOneInv(cfg, s, j, now, newIds[j]);
        TurnByRecord(cfg, s, j, now, newIds[j]);
        KeepsOrSettles(cfg, s, s1, j, now, newIds[j], k);
        PassSettles(cfg, s1, order[1..], now, newIds, k);
      }
    }
  }

  lemma {:induction false} SettledPass(cfg: Config, s: State, order: seq<Text>, now: Time, newIds: map<Text, Text>)
    requires EnvironmentsOk(cfg, s)
    requires forall k {:trigger k in s.environments} :: k in s.environments ==> Settled(cfg, s, k, now)
    ensures ReconcileAll(cfg, s, order, now, newIds) == s
    decreases |order|
  {
    if order != [] {
      if order[0] in s.environments && order[0] in newIds {
        SettledIsFixed(cfg, s, order[0], now, newIds[order[0]]);
      }
      SettledPass(cfg, s, order[1..], now, newIds);
    }
  }

  // ---------------------------------------------------------------- what reconciliation achieves

  lemma {:induction false} PassKeepsEnvironments(cfg: Config, s: State, order: seq<Text>, now: Time,
                                               newIds: map<Text, Text>)
    requires Inv(cfg, s, now) && NewIds(s, order, newIds)
    ensures ReconcileAll(cfg, s, order, now, newIds).environments.Keys == s.environments.Keys
    ensures ReconcileAll(cfg, s, order, now, newIds).linkCodes == s.linkCodes
    decreases |order|
  {
    if order != [] {
      if order[0] in s.environments {
        TurnKeepsEnvironments(cfg, s, order[0], now, newIds[order[0]]);
        PassKeepsEnvironments(cfg, ReconcileOne(cfg, s, order[0], now, newIds[order[0]]), order[1..], now, newIds);
      } else {
        PassKeepsEnvironments(cfg, s, order[1..], now, newIds);
      }
    }
  }

  lemma TurnKeepsEnvironments(cfg: Config, s: State, k: Text, now: Time, newId: Text)
    requires Inv(cfg, s, now) && k in s.environments && newId !in s.operations
    ensures Inv(cfg, ReconcileOne(cfg, s, k, now, newId), now)
    ensures ReconcileOne(cfg, s, k, now, newId).environments.Keys == s.environments.Keys
    ensures ReconcileOne(cfg, s, k, now, newId).operations.Keys <= s.operations.Keys + {newId}
    ensures ReconcileOne(cfg, s, k, now, newId).linkCodes == s.linkCodes
  {
    ReconcileOneInv(cfg, s, k, now, newId);
    TurnByRecord(cfg, s, k, now, newId);
  }

  /** After a reconciliation that visits every environment, no environment past its expiry is outside deletion, every
      failed cleanup an hour old has been queued again, and no expired confirmation or link code remains. */
  lemma ReconcileAchieves(cfg: Config, s: State, t0: Time, order: seq<Text>, now: Time, newIds: map<Text, Text>,
                          k: Text)
    requires Inv(cfg, s, t0) && t0 <= now && NewIds(s, order, newIds)
    requires forall j {:trigger j in order} :: j in s.environments ==> j in order
    ensures k in Reconcile(cfg, s, order, now, newIds).environments ==>
        Settled(cfg, Reconcile(cfg, s, order, now, newIds), k, now)
    ensures k in Reconcile(cfg, s, order, now, newIds).environments
            && Reconcile(cfg, s, order, now, newIds).environments[k].status !in {Deleting, Deleted} ==>
        Reconcile(cfg, s, order, now, newIds).environments[k].expiresAt.Some?
        && now < Reconcile(cfg, s, order, now, newIds).environments[k].expiresAt.value
    ensures k in Reconcile(cfg, s, order, now, newIds).confirmations ==>
        now < Reconcile(cfg, s, order, now, newIds).confirmations[k].expiresAt
    ensures k in Reconcile(cfg, s, order, now, newIds).linkCodes ==>
        now < Reconcile(cfg, s, order, now, newIds).linkCodes[k].expiresAt
  {
    var s1 := DropExpired(s, now);
    DropExpiredInv(cfg, s, t0, now);
    ReconcileAllInv(cfg, s1, order, now, newIds);
    PassKeepsEnvironments(cfg, s1, order, now, newIds);
    if k in s1.environments {
      PassSettles(cfg, s1, order, now, newIds, k);
      assert EnvironmentOk(cfg, Reconcile(cfg, s, order, now, newIds), k);
    }
  }

  /** Reconciling again at the same instant, in any order, changes nothing at all. */
  lemma ReconcileIsIdempotent(cfg: Config, s: State, t0: Time, order: seq<Text>, now: Time, newIds: map<Text, Text>,
                              again: seq<Text>, others: map<Text, Text>)
    requires Inv(cfg, s, t0) && t0 <= now && NewIds(s, order, newIds)
    requires forall j {:trigger j in order} :: j in s.environments ==> j in order
    ensures Reconcile(cfg, Reconcile(cfg, s, order, now, newIds), again, now, others)
        == Reconcile(cfg, s, order, now, newIds)
  {
    var s' := Reconcile(cfg, s, order, now, newIds);
    ReconcileInv(cfg, s, t0, order, now, newIds);
    forall k | k in s'.environments ensures Settled(cfg, s', k, now) {
      ReconcileAchieves(cfg, s, t0, order, now, newIds, k);
    }
    forall k ensures k in s'.confirmations ==> now < s'.confirmations[k].expiresAt {
      ReconcileAchieves(cfg, s, t0, order, now, newIds, k);
    }
    forall k ensures k in s'.linkCodes ==> now < s'.linkCodes[k].expiresAt {
      ReconcileAchieves(cfg, s, t0, order, now, newIds, k);
    }
    assert DropExpired(s', now).confirmations == s'.confirmations;
    assert DropExpired(s', now).linkCodes == s'.linkCodes;
    assert DropExpired(s', now) == s';
    SettledPass(cfg, s', again, now, others);
  }


  // ---------------------------------------------------------------- order independence

  /** Equal but for the order of the audit trail. */
  ghost predicate Same(s: State, t: State) {
    && s.environments == t.environments && s.operations == t.operations && s.notices == t.notices
    && SameKeys(s, t) && s.links == t.links && s.linkCodes == t.linkCodes
    && multiset(s.audit) == multiset(t.audit)
  }

  /** Two turns, one after the other. */
  ghost predicate Turns(cfg: Config, s: State, m: State, s': State, a: Text, b: Text, now: Time, idA: Text, idB: Text) {
    && a in s.environments && b in s.environments && a != b && idA != idB && idA !in s.operations
    && idB !in s.operations
    && Turn(cfg, s, m, a, now, idA)
    && b in m.environments && Turn(cfg, m, s', b, now, idB)
    && Untouched(s, m, b)
  }

  /** What two turns make of environments and operations. */
  ghost predicate BothRecords(s: State, s': State, a: Text, b: Text, now: Time, idA: Text, idB: Text)
    requires a in s.environments && b in s.environments
  {
    && s'.environments == s.environments[a := TurnEnvironment(s, a, now, idA)][b := TurnEnvironment(s, b, now, idB)]
    && s'.operations.Keys == s.operations.Keys + (if Retires(s, a, now) then {idA} else {})
        + (if Retires(s, b, now) then {idB} else {})
    && (forall o {:trigger s'.operations[o]} :: o in s.operations ==>
          s'.operations[o] == (if o == s.environments[a].operationId then TurnOperation(s, a, now, o)
                               else TurnOperation(s, b, now, o)))
    && (Retires(s, a, now) ==> s'.operations[idA] == NewOperation(now, System, Destroy,
        DeletingEnvironment(s.environments[a]), false, idA))
    && (Retires(s, b, now) ==> s'.operations[idB] == NewOperation(now, System, Destroy,
        DeletingEnvironment(s.environments[b]), false, idB))
  }

  /** What two turns make of the notices. */
  ghost predicate BothNotices(cfg: Config, s: State, s': State, a: Text, b: Text, now: Time)
    requires a in s.environments && b in s.environments
  {
    && (forall n {:trigger n in s'.notices} ::
          n in s'.notices <==> n in s.notices || Wants(cfg, s, a, now, n) || Wants(cfg, s, b, now, n))
    && (forall n {:trigger s'.notices[n]} :: n in s'.notices ==>
          s'.notices[n] == (if n in s.notices then (if n.environmentId == a then TurnNotice(s, a, now, n)
              else TurnNotice(s, b, now, n))
                            else Notice(n, s.environments[n.environmentId].owner, now, now, 0, false, false)))
  }

  lemma TurnsRecords(cfg: Config, s: State, m: State, s': State, a: Text, b: Text, now: Time, idA: Text, idB: Text)
    requires Turns(cfg, s, m, s', a, b, now, idA, idB)
    requires a in s.environments && s.environments[a].operationId in s.operations
    requires s.environments[a].operationId != s.environments[b].operationId
    ensures BothRecords(s, s', a, b, now, idA, idB)
  {
    UntouchedTurn(cfg, s, m, b, now, idB);
    forall o | o in s.operations
      ensures o in s'.operations
      ensures s'.operations[o] == (if o == s.environments[a].operationId then TurnOperation(s, a, now, o)
                                   else TurnOperation(s, b, now, o))
    {
      assert m.operations[o] == TurnOperation(s, a, now, o);
      assert s'.operations[o] == TurnOperation(m, b, now, o);
    }
    if Retires(s, a, now) {
      assert s'.operations[idA] == TurnOperation(m, b, now, idA);
    }
  }

  lemma TurnsNotices(cfg: Config, s: State, m: State, s': State, a: Text, b: Text, now: Time, idA: Text, idB: Text)
    requires Turns(cfg, s, m, s', a, b, now, idA, idB)
    requires forall n {:trigger n in s.notices} :: n in s.notices ==> s.notices[n].key == n
    ensures BothNotices(cfg, s, s', a, b, now)
  {
    UntouchedTurn(cfg, s, m, b, now, idB);
    forall n ensures n in s'.notices <==> n in s.notices || Wants(cfg, s, a, now, n) || Wants(cfg, s, b, now, n) {
      assert Wants(cfg, m, b, now, n) == Wants(cfg, s, b, now, n);
      assert n in m.notices <==> n in s.notices || Wants(cfg, s, a, now, n);
    }
    forall n | n in s'.notices
      ensures s'.notices[n] == (if n in s.notices then (if n.environmentId == a then TurnNotice(s, a, now, n)
          else TurnNotice(s, b, now, n))
                          else Notice(n, s.environments[n.environmentId].owner, now, now, 0, false, false))
    {
      assert n in m.notices <==> n in s.notices || Wants(cfg, s, a, now, n);
      assert Wants(cfg, m, b, now, n) == Wants(cfg, s, b, now, n);
      if n in m.notices {
        assert m.notices[n].key == n;
      }
    }
  }

  /** The turns of two environments may be taken in either order. */
  lemma TurnsCommute(cfg: Config, s: State, a: Text, b: Text, now: Time, idA: Text, idB: Text)
    requires Inv(cfg, s, now) && a in s.environments && b in s.environments && a != b
    requires idA !in s.operations && idB !in s.operations && idA != idB
    ensures a in ReconcileOne(cfg, s, b, now, idB).environments && b in ReconcileOne(cfg, s, a, now, idA).environments
    ensures Same(ReconcileOne(cfg, ReconcileOne(cfg, s, a, now, idA), b, now, idB),
                 ReconcileOne(cfg, ReconcileOne(cfg, s, b, now, idB), a, now, idA))
  {
    var m1, s1 := BothTurns(cfg, s, a, b, now, idA, idB);
    var m2, s2 := BothTurns(cfg, s, b, a, now, idB, idA);
    TurnsAgree(cfg, s, m1, s1, m2, s2, a, b, now, idA, idB);
  }

  lemma BothTurns(cfg: Config, s: State, a: Text, b: Text, now: Time, idA: Text, idB: Text) returns (m: State,
                  s': State)
    requires Inv(cfg, s, now) && a in s.environments && b in s.environments && a != b
    requires idA !in s.operations && idB !in s.operations && idA != idB
    ensures m == ReconcileOne(cfg, s, a, now, idA) && b in m.environments && s' == ReconcileOne(cfg, m, b, now, idB)
    ensures Turns(cfg, s, m, s', a, b, now, idA, idB)
  {
    m := ReconcileOne(cfg, s, a, now, idA);
    TurnByRecord(cfg, s, a, now, idA);
    TurnIsLocal(cfg, s, m, a, now, idA, b);
    TurnKeepsEnvironments(cfg, s, a, now, idA);
    s' := ReconcileOne(cfg, m, b, now, idB);
    TurnByRecord(cfg, m, b, now, idB);
  }

  lemma TurnsAgree(cfg: Config, s: State, m1: State, s1: State, m2: State, s2: State, a: Text, b: Text, now: Time,
                   idA: Text, idB: Text)
    requires Inv(cfg, s, now)
    requires Turns(cfg, s, m1, s1, a, b, now, idA, idB) && Turns(cfg, s, m2, s2, b, a, now, idB, idA)
    ensures Same(s1, s2)
  {
    hide BothRecords, BothNotices, TurnRecords, TurnNotices;
    assert EnvironmentOk(cfg, s, a) && EnvironmentOk(cfg, s, b);
    forall n | n in s.notices ensures s.notices[n].key == n { assert NoticeOk(cfg, s, n); }
    TurnsBoth(cfg, s, m1, s1, a, b, now, idA, idB);
    TurnsBoth(cfg, s, m2, s2, b, a, now, idB, idA);
    RecordsAgree(s, s1, s2, a, b, now, idA, idB);
    NoticesAgree(cfg, s, s1, s2, a, b, now);
    UntouchedTurn(cfg, s, m1, b, now, idB);
    UntouchedTurn(cfg, s, m2, a, now, idA);
  }

  lemma TurnsBoth(cfg: Config, s: State, m: State, s': State, a: Text, b: Text, now: Time, idA: Text, idB: Text)
    requires EnvironmentsOk(cfg, s) && NoticesOk(cfg, s) && Turns(cfg, s, m, s', a, b, now, idA, idB)
    ensures BothRecords(s, s', a, b, now, idA, idB) && BothNotices(cfg, s, s', a, b, now)
  {
    assert EnvironmentOk(cfg, s, a) && EnvironmentOk(cfg, s, b);
    forall n | n in s.notices ensures s.notices[n].key == n { assert NoticeOk(cfg, s, n); }
    TurnsRecords(cfg, s, m, s', a, b, now, idA, idB);
    TurnsNotices(cfg, s, m, s', a, b, now, idA, idB);
  }

  lemma RecordsAgree(s: State, s1: State, s2: State, a: Text, b: Text, now: Time, idA: Text, idB: Text)
    requires a in s.environments && b in s.environments && a != b
    requires s.environments[a].operationId != s.environments[b].operationId
    requires BothRecords(s, s1, a, b, now, idA, idB) && BothRecords(s, s2, b, a, now, idB, idA)
    ensures s1.environments == s2.environments && s1.operations == s2.operations
  {
    assert s1.operations.Keys == s2.operations.Keys;
    forall o | o in s1.operations ensures s1.operations[o] == s2.operations[o] {
    }
  }

  lemma NoticesAgree(cfg: Config, s: State, s1: State, s2: State, a: Text, b: Text, now: Time)
    requires a in s.environments && b in s.environments && a != b
    requires forall n {:trigger n in s.notices} :: n in s.notices ==> s.notices[n].key == n
    requires BothNotices(cfg, s, s1, a, b, now) && BothNotices(cfg, s, s2, b, a, now)
    ensures s1.notices == s2.notices
  {
    assert s1.notices.Keys == s2.notices.Keys;
    forall n | n in s1.notices ensures s1.notices[n] == s2.notices[n] {
    }
  }

  lemma SameTurn(cfg: Config, s: State, t: State, k: Text, now: Time, newId: Text)
    requires Inv(cfg, s, now) && Inv(cfg, t, now) && Same(s, t) && k in s.environments && newId !in s.operations
    ensures Same(ReconcileOne(cfg, s, k, now, newId), ReconcileOne(cfg, t, k, now, newId))
  {
    TurnByRecord(cfg, s, k, now, newId);
    TurnByRecord(cfg, t, k, now, newId);
    SameTurns(cfg, s, ReconcileOne(cfg, s, k, now, newId), t, ReconcileOne(cfg, t, k, now, newId), k, now, newId);
  }

  lemma SameTurns(cfg: Config, s: State, s': State, t: State, t': State, k: Text, now: Time, newId: Text)
    requires Same(s, t) && k in s.environments && Turn(cfg, s, s', k, now, newId) && Turn(cfg, t, t', k, now, newId)
    ensures Same(s', t')
  {
    hide TurnRecords, TurnNotices;
    SameTurnRecords(s, s', t, t', k, now, newId);
    SameTurnNotices(cfg, s, s', t, t', k, now);
    assert multiset(s'.audit) == multiset(s.audit) + multiset(TurnAudit(s, k, now));
    assert multiset(t'.audit) == multiset(t.audit) + multiset(TurnAudit(t, k, now));
  }

  lemma SameTurnRecords(s: State, s': State, t: State, t': State, k: Text, now: Time, newId: Text)
    requires SameRecords(s, t) && k in s.environments && TurnRecords(s, s', k, now, newId)
    requires TurnRecords(t, t', k, now, newId)
    ensures SameRecords(s', t')
  {
    assert s'.operations.Keys == t'.operations.Keys;
    forall o | o in s'.operations ensures s'.operations[o] == t'.operations[o] {
      if o in s.operations {
        assert s'.operations[o] == TurnOperation(s, k, now, o) == TurnOperation(t, k, now, o);
      }
    }
  }

  lemma SameTurnNotices(cfg: Config, s: State, s': State, t: State, t': State, k: Text, now: Time)
    requires SameRecords(s, t) && s.notices == t.notices && k in s.environments
    requires TurnNotices(cfg, s, s', k, now) && TurnNotices(cfg, t, t', k, now)
    ensures s'.notices == t'.notices
  {
    forall n ensures n in s'.notices <==> n in t'.notices {
      assert Wants(cfg, s, k, now, n) == Wants(cfg, t, k, now, n);
    }
    forall n | n in s'.notices ensures s'.notices[n] == t'.notices[n] {
    }
  }

  /** Ids for the environments still to be visited. */
  ghost predicate Supplies(s: State, keys: set<Text>, newIds: map<Text, Text>) {
    && keys <= s.environments.Keys && keys <= newIds.Keys
    && (forall k {:trigger newIds[k]} :: k in keys ==> newIds[k] !in s.operations)
    && (forall j, k {:trigger newIds[j], newIds[k]} :: j in keys && k in keys && j != k ==> newIds[j] != newIds[k])
  }

  /** The state after one turn is ready for the others. */
  lemma AfterTurn(cfg: Config, s: State, keys: set<Text>, k: Text, now: Time, newIds: map<Text, Text>)
    requires Inv(cfg, s, now) && Supplies(s, keys, newIds) && k in keys
    ensures Inv(cfg, ReconcileOne(cfg, s, k, now, newIds[k]), now)
    ensures Supplies(ReconcileOne(cfg, s, k, now, newIds[k]), keys - {k}, newIds)
  {
    TurnKeepsEnvironments(cfg, s, k, now, newIds[k]);
    var s' := ReconcileOne(cfg, s, k, now, newIds[k]);
    forall j | j in keys - {k} ensures newIds[j] !in s'.operations {
      assert newIds[j] != newIds[k];
    }
  }

  lemma VisitsRest(order: seq<Text>, keys: set<Text>)
    requires order != [] && Visits(order, keys)
    ensures order[0] in keys && Visits(order[1..], keys - {order[0]})
  {
    assert order[0] in order;
    forall k ensures k in order[1..] <==> k in keys - {order[0]} {
      if k in order[1..] {
        var i :| 0 <= i < |order[1..]| && order[1..][i] == k;
        assert order[i + 1] == k && order[0] != order[i + 1];
        assert k in order;
      }
      if k in keys - {order[0]} {
        assert k in order;
        var i :| 0 <= i < |order| && order[i] == k;
        assert order[1..][i - 1] == k;
      }
    }
  }

  lemma {:induction false} SamePass(cfg: Config, s: State, t: State, order: seq<Text>, keys: set<Text>, now: Time,
                                    newIds: map<Text, Text>)
    requires Inv(cfg, s, now) && Inv(cfg, t, now) && Same(s, t) && Visits(order, keys) && Supplies(s, keys, newIds)
    requires Supplies(t, keys, newIds)
    ensures Same(ReconcileAll(cfg, s, order, now, newIds), ReconcileAll(cfg, t, order, now, newIds))
    decreases |order|
  {
    if order != [] {
      VisitsRest(order, keys);
      var k := order[0];
      SameTurn(cfg, s, t, k, now, newIds[k]);
      AfterTurn(cfg, s, keys, k, now, newIds);
      AfterTurn(cfg, t, keys, k, now, newIds);
      SamePass(cfg, ReconcileOne(cfg, s, k, now, newIds[k]), ReconcileOne(cfg, t, k, now, newIds[k]), order[1..],
               keys - {k}, now, newIds);
    }
  }

  lemma SameIsReflexive(a: State)
    ensures Same(a, a)
  {}

  lemma SameIsTransitive(a: State, b: State, c: State)
    requires Same(a, b) && Same(b, c)
    ensures Same(a, c)
  {
  }

  lemma PassStep(cfg: Config, s: State, k: Text, rest: seq<Text>, now: Time, newIds: map<Text, Text>)
    requires k in s.environments && k in newIds
    ensures ReconcileAll(cfg, s, [k] + rest, now, newIds)
        == ReconcileAll(cfg, ReconcileOne(cfg, s, k, now, newIds[k]), rest, now, newIds)
  {
    assert ([k] + rest)[1..] == rest;
  }

  /** Two neighbours may change places. */
  lemma SwapPass(cfg: Config, s: State, a: Text, b: Text, rest: seq<Text>, keys: set<Text>, now: Time,
                 newIds: map<Text, Text>)
    requires Inv(cfg, s, now) && Supplies(s, keys, newIds) && a in keys && b in keys && a != b
    requires Visits(rest, keys - {a} - {b})
    ensures Same(ReconcileAll(cfg, s, [a] + ([b] + rest), now, newIds),
                 ReconcileAll(cfg, s, [b] + ([a] + rest), now, newIds))
  {
    var ra, rb := ReconcileOne(cfg, s, a, now, newIds[a]), ReconcileOne(cfg, s, b, now, newIds[b]);
    AfterTurn(cfg, s, keys, a, now, newIds);
    AfterTurn(cfg, s, keys, b, now, newIds);
    AfterTurn(cfg, ra, keys - {a}, b, now, newIds);
    AfterTurn(cfg, rb, keys - {b}, a, now, newIds);
    TurnsCommute(cfg, s, a, b, now, newIds[a], newIds[b]);
    PassStep(cfg, s, a, [b] + rest, now, newIds);
    PassStep(cfg, ra, b, rest, now, newIds);
    PassStep(cfg, s, b, [a] + rest, now, newIds);
    PassStep(cfg, rb, a, rest, now, newIds);
    assert keys - {b} - {a} == keys - {a} - {b};
    SamePass(cfg, ReconcileOne(cfg, ra, b, now, newIds[b]), ReconcileOne(cfg, rb, a, now, newIds[a]), rest,
             keys - {a} - {b}, now, newIds);
  }

  /** A visit may be moved to the front. */
  lemma {:induction false} VisitFirst(cfg: Config, s: State, front: seq<Text>, x: Text, back: seq<Text>,
                                      keys: set<Text>, now: Time, newIds: map<Text, Text>)
    requires Inv(cfg, s, now) && Supplies(s, keys, newIds) && Visits(front + ([x] + back), keys)
    ensures Same(ReconcileAll(cfg, s, front + ([x] + back), now, newIds),
                 ReconcileAll(cfg, s, [x] + (front + back), now, newIds))
    decreases |front|
  {
    hide Inv, Same, ReconcileAll, ReconcileOne;
    if front == [] {
      assert front + ([x] + back) == [x] + (front + back);
      SameIsReflexive(ReconcileAll(cfg, s, front + ([x] + back), now, newIds));
    } else {
      var y, rest := front[0], front[1..];
      var whole := front + ([x] + back);
      assert whole[0] == y && whole[1..] == rest + ([x] + back);
      VisitsRest(whole, keys);
      assert whole == [y] + (rest + ([x] + back));
      assert whole[|front|] == x && whole[0] != whole[|front|];
      assert x in whole;
      AfterTurn(cfg, s, keys, y, now, newIds);
      var ry := ReconcileOne(cfg, s, y, now, newIds[y]);
      PassStep(cfg, s, y, rest + ([x] + back), now, newIds);
      VisitFirst(cfg, ry, rest, x, back, keys - {y}, now, newIds);
      PassStep(cfg, s, y, [x] + (rest + back), now, newIds);
      RestVisits(rest, x, back, keys - {y});
      SwapPass(cfg, s, y, x, rest + back, keys, now, newIds);
      assert [x] + ([y] + (rest + back)) == [x] + (front + back);
      SameIsTransitive(ReconcileAll(cfg, s, whole, now, newIds),
                       ReconcileAll(cfg, s, [y] + ([x] + (rest + back)), now, newIds),
                       ReconcileAll(cfg, s, [x] + (front + back), now, newIds));
    }
  }

  lemma RestVisits(front: seq<Text>, x: Text, back: seq<Text>, keys: set<Text>)
    requires Visits(front + ([x] + back), keys)
    ensures x in keys && Visits(front + back, keys - {x})
  {
    var whole, rest := front + ([x] + back), front + back;
    assert whole[|front|] == x;
    assert x in whole;
    forall k ensures k in rest <==> k in keys - {x} {
      if k in rest {
        var i :| 0 <= i < |rest| && rest[i] == k;
        var j := if i < |front| then i else i + 1;
        assert whole[j] == k;
        assert k in whole;
        assert if i < |front| then whole[i] != whole[|front|] else whole[|front|] != whole[i + 1];
      }
      if k in keys - {x} {
        assert k in whole;
        var j :| 0 <= j < |whole| && whole[j] == k;
        assert rest[if j < |front| then j else j - 1] == k;
      }
    }
    forall i, j | 0 <= i < j < |rest| ensures rest[i] != rest[j] {
      assert rest[i] == whole[if i < |front| then i else i + 1];
      assert rest[j] == whole[if j < |front| then j else j + 1];
    }
  }

  lemma {:induction false} VisitCount(order: seq<Text>, keys: set<Text>)
    requires Visits(order, keys)
    ensures |order| == |keys|
    decreases |order|
  {
    if order == [] {
      assert forall k :: k in keys ==> k in order;
    } else {
      VisitsRest(order, keys);
      VisitCount(order[1..], keys - {order[0]});
    }
  }

  lemma {:induction false} PassOrderIrrelevant(cfg: Config, s: State, order1: seq<Text>, order2: seq<Text>,
      keys: set<Text>, now: Time, newIds: map<Text, Text>)
    requires Inv(cfg, s, now) && Supplies(s, keys, newIds) && Visits(order1, keys) && Visits(order2, keys)
    ensures Same(ReconcileAll(cfg, s, order1, now, newIds), ReconcileAll(cfg, s, order2, now, newIds))
    decreases |order1|
  {
    if order1 == [] {
      VisitCount(order1, keys);
      VisitCount(order2, keys);
    } else {
      var x := order1[0];
      VisitsRest(order1, keys);
      assert x in order2;
      var i :| 0 <= i < |order2| && order2[i] == x;
      var front, back := order2[..i], order2[i + 1..];
      assert order2 == front + ([x] + back);
      VisitFirst(cfg, s, front, x, back, keys, now, newIds);
      RestVisits(front, x, back, keys);
      AfterTurn(cfg, s, keys, x, now, newIds);
      PassOrderIrrelevant(cfg, ReconcileOne(cfg, s, x, now, newIds[x]), order1[1..], front + back, keys - {x}, now,
                          newIds);
      assert order1 == [x] + order1[1..];
      PassStep(cfg, s, x, order1[1..], now, newIds);
      PassStep(cfg, s, x, front + back, now, newIds);
      SameIsTransitive(ReconcileAll(cfg, s, order1, now, newIds),
                       ReconcileAll(cfg, s, [x] + (front + back), now, newIds),
                       ReconcileAll(cfg, s, order2, now, newIds));
    }
  }

  /** Reconciliation does not depend on the order in which the environments are visited: the resulting states are
      equal, the audit trails as bags. */
  lemma ReconcileOrderIrrelevant(cfg: Config, s: State, t0: Time, order1: seq<Text>, order2: seq<Text>, now: Time,
                                 newIds: map<Text, Text>)
    requires Inv(cfg, s, t0) && t0 <= now && Supplies(s, s.environments.Keys, newIds)
    requires Visits(order1, s.environments.Keys) && Visits(order2, s.environments.Keys)
    ensures Same(Reconcile(cfg, s, order1, now, newIds), Reconcile(cfg, s, order2, now, newIds))
  {
    DropExpiredInv(cfg, s, t0, now);
    PassOrderIrrelevant(cfg, DropExpired(s, now), order1, order2, s.environments.Keys, now, newIds);
  }
}
