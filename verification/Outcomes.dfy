/** What every reachable state looks like to a reader of the platform: statuses, claims, times and notices. */
module Outcomes {
  import opened Basics
  import opened Lifecycle
  import opened LifecycleInvariant
  import opened LifecycleSteps
  import opened Platform
  import opened Effects
  import opened PlatformProofs
  import opened Runs

  // ---------------------------------------------------------------- statuses

  /** In every reachable state a queued or running operation is its environment's current one and carries its
      generation, so the checks for a stale operation never fire; and the environment's status is a function of its
      current operation. */
  lemma StatusMirrorsOperation(cfg: Config, states: seq<Machine>, events: seq<Event>, i: nat, env: Text, o: Text)
    requires IsRun(cfg, states, events) && i < |states|
    ensures o in states[i].store.operations && Live(states[i].store.operations[o]) ==>
        && IsCurrent(states[i].store, states[i].store.operations[o].environmentId, o)
        && states[i].store.operations[o].generation
            == states[i].store.environments[states[i].store.operations[o].environmentId].generation
    ensures env in states[i].store.environments ==>
        && states[i].store.environments[env].operationId in states[i].store.operations
        && states[i].store.operations[states[i].store.environments[env].operationId].environmentId == env
        && states[i].store.operations[states[i].store.environments[env].operationId].status != Superseded
        && states[i].store.environments[env].status ==
             Mirrored(states[i].store.operations[states[i].store.environments[env].operationId].action,
                      states[i].store.operations[states[i].store.environments[env].operationId].status)
  {
    Reachable(cfg, states, events, i);
    if env in states[i].store.environments {
      assert EnvironmentOk(cfg, states[i].store, env);
    }
    if o in states[i].store.operations {
      assert OperationOk(states[i].store, o, states[i].clock);
      assert EnvironmentOk(cfg, states[i].store, states[i].store.operations[o].environmentId);
    }
  }

  lemma CurrentAfterwards(cfg: Config, s: State, s': State, t: Time, o: Text)
    requires EnvironmentsOk(cfg, s) && OperationsOk(s, t) && EnvironmentsOk(cfg, s') && Evolves(s, s')
    requires o in s.operations && Live(s.operations[o])
    ensures o in s'.operations && s'.operations[o].environmentId == s.operations[o].environmentId
    ensures s.operations[o].environmentId in s.environments && s.operations[o].environmentId in s'.environments
    ensures s'.operations[o].status == Superseded ==>
        s'.environments[s.operations[o].environmentId].generation >
        s.environments[s.operations[o].environmentId].generation
  {
    assert OperationOk(s, o, t) && OperationKept(s, s', o);
    assert EnvironmentOk(cfg, s, s.operations[o].environmentId)
        && EnvironmentKept(s, s', s.operations[o].environmentId);
    assert EnvironmentOk(cfg, s', s.operations[o].environmentId);
  }

  /** How a step other than recording its result leaves a live operation. */
  lemma LiveStep(cfg: Config, y: Machine, ev: Event, o: Text)
    requires ValidConfig(cfg) && MachineInv(cfg, y) && Enabled(cfg, y, ev)
    requires o in y.store.operations && Live(y.store.operations[o])
    ensures o in StoreAfter(cfg, y.store, y.worker, ev).operations
    ensures Live(StoreAfter(cfg, y.store, y.worker, ev).operations[o])
         || StoreAfter(cfg, y.store, y.worker, ev).operations[o].status == Superseded
         || (ev.FinishResult? && y.worker.pc.op == o)
  {
    hide Inv, Create, Extend, ConfirmDelete, Delete, Redeploy, Redeem, Lease, Reconcile, Phase, Finish;
    var s' := StoreAfter(cfg, y.store, y.worker, ev);
    if IsApiCall(ev) {
      ApiStatuses(cfg, y, ev);
      assert StatusKept(y.store, s', o);
    } else {
      match ev
      case TickReconcile(order, now, newIds) =>
        ReconcileBackground(cfg, y.store, y.clock, order, now, newIds);
        assert StatusKept(y.store, s', o);
      case PhaseReport(run, phase, now) =>
        PhaseStatuses(y.store, run, phase, now);
        assert StatusKept(y.store, s', o);
      case FinishResult(now) => FinishStatuses(cfg, y.store, y.clock, y.worker.pc.op, y.worker.pc.failure, now);
      case _ =>
    }
  }

  /** Accepted work ends in one of two ways only: the worker records its result, or a later generation of its
      environment supersedes it. Nothing else, a crash included, takes a queued or running operation away. */
  lemma WorkEndsByResultOrSupersession(cfg: Config, states: seq<Machine>, events: seq<Event>, i: nat, o: Text)
    requires IsRun(cfg, states, events) && i < |events|
    requires o in states[i].store.operations && Live(states[i].store.operations[o])
    ensures o in states[i + 1].store.operations
    ensures states[i].store.operations[o].environmentId in states[i].store.environments
    ensures states[i].store.operations[o].environmentId in states[i + 1].store.environments
    ensures || Live(states[i + 1].store.operations[o])
            || (events[i].FinishResult? && states[i].worker.pc.Finishing? && states[i].worker.pc.op == o)
            || (states[i + 1].store.operations[o].status == Superseded
                && states[i + 1].store.environments[states[i].store.operations[o].environmentId].generation
                   > states[i].store.environments[states[i].store.operations[o].environmentId].generation)
  {
    StepEvolves(cfg, states, events, i);
    assert StepAt(cfg, states, events, i);
    LiveStep(cfg, states[i], events[i], o);
    CurrentAfterwards(cfg, states[i].store, states[i + 1].store, states[i].clock, o);
  }

  /** Each claim takes the earliest-requested of all the queued operations whose environment is free, and finds
      nothing only if there is none. */
  lemma ClaimIsEarliest(cfg: Config, states: seq<Machine>, events: seq<Event>, i: nat, k: Text)
    requires IsRun(cfg, states, events) && i < |events| && events[i].TickClaim?
    requires k in states[i].store.operations && states[i].store.operations[k].status == Queued
    requires states[i].store.operations[k].environmentId !in BusyEnvironments(states[i].worker.active)
    ensures events[i].pick.Some? && events[i].pick.value in states[i].store.operations
    ensures states[i].store.operations[events[i].pick.value].status == Queued
    ensures states[i].store.operations[events[i].pick.value].requestedAt <= states[i].store.operations[k].requestedAt
  {
    Reachable(cfg, states, events, i);
    assert StepAt(cfg, states, events, i);
    assert OperationOk(states[i].store, k, states[i].clock);
    assert Eligible(states[i].store, states[i].worker.pc.busy, k);
  }

  // ---------------------------------------------------------------- times and attempts

  /** Across crashes and repeated claims: requested <= started <= every milestone <= finished <= now, and the end is
      recorded exactly for terminal operations. */
  lemma TimesAreOrdered(cfg: Config, states: seq<Machine>, events: seq<Event>, i: nat, o: Text, phase: Text)
    requires IsRun(cfg, states, events) && i < |states| && o in states[i].store.operations
    ensures states[i].store.operations[o].requestedAt <= states[i].clock
    ensures states[i].store.operations[o].startedAt.Some? ==>
        states[i].store.operations[o].requestedAt <= states[i].store.operations[o].startedAt.value <= states[i].clock
    ensures phase in states[i].store.operations[o].timings ==>
        && states[i].store.operations[o].startedAt.Some?
        && states[i].store.operations[o].startedAt.value <= states[i].store.operations[o].timings[phase]
            <= states[i].clock
        && (states[i].store.operations[o].finishedAt.Some? ==>
              states[i].store.operations[o].timings[phase] <= states[i].store.operations[o].finishedAt.value)
    ensures states[i].store.operations[o].finishedAt.Some?
       <==> states[i].store.operations[o].status in {Succeeded, Failed, Superseded}
    ensures states[i].store.operations[o].finishedAt.Some? ==>
        && states[i].store.operations[o].requestedAt <= states[i].store.operations[o].finishedAt.value
            <= states[i].clock
        && (states[i].store.operations[o].startedAt.Some? ==>
              states[i].store.operations[o].startedAt.value <= states[i].store.operations[o].finishedAt.value)
  {
    Reachable(cfg, states, events, i);
    assert OperationOk(states[i].store, o, states[i].clock);
  }

  function AttemptOf(s: State, o: Text): int {
    if o in s.operations then s.operations[o].attempt else 0
  }

  function IsClaimOf(ev: Event, o: Text): int {
    if ev.TickClaim? && ev.pick == Some(o) then 1 else 0
  }

  function Claims(events: seq<Event>, o: Text): int {
    if events == [] then 0 else Claims(events[..|events| - 1], o) + IsClaimOf(events[|events| - 1], o)
  }

  lemma FinishAttempts(cfg: Config, s: State, t0: Time, opId: Text, failure: Option<Text>, now: Time, o: Text)
    requires Inv(cfg, s, t0) && t0 <= now && opId in s.operations
    ensures AttemptOf(Finish(s, opId, failure, now).state, o) == AttemptOf(s, o)
  {
    assert OperationOk(s, opId, t0);
    if Finishes(s, opId) {
      FinishesFacts(cfg, s, t0, opId, failure, now);
    } else {
      FinishNothing(s, opId, failure, now);
    }
  }

  lemma SameAttempt(s: State, s': State, o: Text)
    requires StatusKept(s, s', o)
    ensures AttemptOf(s', o) == AttemptOf(s, o)
  {
  }

  lemma ClaimAttempts(s: State, pick: Option<Text>, now: Time, o: Text)
    requires pick.Some? ==> pick.value in s.operations
    ensures AttemptOf(Claim(s, pick, now), o) == AttemptOf(s, o) + (if pick == Some(o) then 1 else 0)
    ensures AttemptOf(Recover(s), o) == AttemptOf(s, o)
  {
  }

  lemma AttemptStep(cfg: Config, y: Machine, ev: Event, o: Text)
    requires ValidConfig(cfg) && MachineInv(cfg, y) && Enabled(cfg, y, ev)
    ensures AttemptOf(StoreAfter(cfg, y.store, y.worker, ev), o) == AttemptOf(y.store, o) + IsClaimOf(ev, o)
  {
    hide Inv, Create, Extend, ConfirmDelete, Delete, Redeploy, Redeem, Lease, Reconcile, Phase, Finish, Claim, Recover;
    hide EnvironmentsOk, OperationsOk, NoticesOk, KeysOk, AttemptOf, StatusKept;
    var s' := StoreAfter(cfg, y.store, y.worker, ev);
    if IsApiCall(ev) {
      ApiStatuses(cfg, y, ev);
      SameAttempt(y.store, s', o);
    } else {
      match ev
      case TickReconcile(order, now, newIds) =>
        ReconcileBackground(cfg, y.store, y.clock, order, now, newIds);
        SameAttempt(y.store, s', o);
      case PhaseReport(run, phase, now) =>
        PhaseStatuses(y.store, run, phase, now);
        SameAttempt(y.store, s', o);
      case FinishResult(now) => FinishAttempts(cfg, y.store, y.clock, y.worker.pc.op, y.worker.pc.failure, now, o);
      case TickClaim(pick, now) => ClaimAttempts(y.store, pick, now, o);
      case Start => ClaimAttempts(y.store, None, 0, o);
      case _ =>
    }
  }

  /** An operation's attempt number is the number of times it has been claimed, crashes and requeues included. */
  lemma {:induction false} AttemptCountsClaims(cfg: Config, states: seq<Machine>, events: seq<Event>, i: nat, o: Text)
    requires IsRun(cfg, states, events) && i < |states|
    ensures AttemptOf(states[i].store, o) == Claims(events[..i], o)
  {
    hide MachineInv, Enabled, StoreAfter, WorkerAfter;
    if i > 0 {
      AttemptCountsClaims(cfg, states, events, i - 1, o);
      Reachable(cfg, states, events, i - 1);
      assert StepAt(cfg, states, events, i - 1);
      AttemptStep(cfg, states[i - 1], events[i - 1], o);
      assert events[..i][..i - 1] == events[..i - 1];
    }
  }

  // ---------------------------------------------------------------- notices

  /** No deliverable notice is stale. It goes to the environment's owner; an outcome notice names the current
      operation and agrees with how it ended; a late notice names the current operation, still under way; an expiry
      notice names the current expiry of an environment that is not being deleted. */
  lemma NoticesAreCurrent(cfg: Config, states: seq<Machine>, events: seq<Event>, i: nat, k: NoticeKey)
    requires IsRun(cfg, states, events) && i < |states|
    requires k in states[i].store.notices && Deliverable(states[i].store.notices[k])
    ensures k.environmentId in states[i].store.environments
    ensures states[i].store.notices[k].owner == states[i].store.environments[k.environmentId].owner
    ensures k.kind != Expiring ==> k.operationId == states[i].store.environments[k.environmentId].operationId
    ensures IsOutcome(k.kind) ==>
        && k.operationId in states[i].store.operations
        && k.kind == OutcomeKind(states[i].store.operations[k.operationId].action,
                                 states[i].store.operations[k.operationId].status == Failed)
        && states[i].store.environments[k.environmentId].status ==
             (match k.kind
              case ReadyNotice => Ready
              case FailedNotice => DeployFailed
              case DeletedNotice => Deleted
              case _ => Deleting)
    ensures k.kind == Late ==>
        k.operationId in states[i].store.operations && Live(states[i].store.operations[k.operationId])
            && states[i].store.operations[k.operationId].warm
    ensures k.kind == Expiring ==>
        && states[i].store.environments[k.environmentId].expiresAt.Some?
        && k.operationId == cfg.rfc3339(states[i].store.environments[k.environmentId].expiresAt.value)
        && states[i].store.environments[k.environmentId].status !in {Deleting, Deleted}
  {
    Reachable(cfg, states, events, i);
    assert NoticeOk(cfg, states[i].store, k);
    assert EnvironmentOk(cfg, states[i].store, k.environmentId);
  }

  /** Recording a result leaves exactly one deliverable notice for the environment: the outcome just recorded. */
  lemma FinishLeavesOneNotice(cfg: Config, states: seq<Machine>, events: seq<Event>, i: nat, k: NoticeKey)
    requires IsRun(cfg, states, events) && i < |events| && events[i].FinishResult? && states[i].worker.pc.Finishing?
    requires Finishes(states[i].store, states[i].worker.pc.op)
    ensures states[i].worker.pc.op in states[i].store.operations
    ensures (k in states[i + 1].store.notices && Deliverable(states[i + 1].store.notices[k])
             && k.environmentId == states[i].store.operations[states[i].worker.pc.op].environmentId)
        <==> k == NoticeKey(OutcomeKind(states[i].store.operations[states[i].worker.pc.op].action,
                                        states[i].worker.pc.failure.Some?),
                            states[i].store.operations[states[i].worker.pc.op].environmentId, states[i].worker.pc.op)
  {
    Reachable(cfg, states, events, i);
    assert StepAt(cfg, states, events, i);
    var s, o := states[i].store, states[i].worker.pc.op;
    FinishesFacts(cfg, s, states[i].clock, o, states[i].worker.pc.failure, events[i].now);
    FinishKeepsOne(cfg, s, states[i + 1].store,
                   FinishedOperation(s.operations[o], states[i].worker.pc.failure, events[i].now), events[i].now, k);
  }

  lemma FinishKeepsOne(cfg: Config, s: State, s': State, op: Operation, now: Time, k: NoticeKey)
    requires NoticesOk(cfg, s) && op.environmentId in s.environments && op.status in {Succeeded, Failed}
    requires Concluded(s, s', op, now)
    ensures (k in s'.notices && Deliverable(s'.notices[k]) && k.environmentId == op.environmentId)
        <==> k == NoticeKey(OutcomeKind(op.action, op.status == Failed), op.environmentId, op.id)
  {
    if k in s.notices {
      assert NoticeOk(cfg, s, k);
    }
  }

  /** An environment never outlives createdAt + maxTTL, however often it is extended. */
  lemma ExpiryIsBounded(cfg: Config, states: seq<Machine>, events: seq<Event>, i: nat, env: Text)
    requires IsRun(cfg, states, events) && i < |states| && env in states[i].store.environments
    ensures states[i].store.environments[env].expiresAt.Some?
    ensures states[i].store.environments[env].expiresAt.value
        <= states[i].store.environments[env].createdAt + cfg.maxTtl
  {
    Reachable(cfg, states, events, i);
    assert EnvironmentOk(cfg, states[i].store, env);
  }
}
