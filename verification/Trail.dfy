/** The audit trail is an exact account: over any run it only grows, and it has one entry for every operation ever
    queued and one for every outcome ever recorded. */
module Trail {
  import opened Basics
  import opened Lifecycle
  import opened LifecycleInvariant
  import opened LifecycleSteps
  import opened LifecycleLoops
  import opened Platform
  import opened Effects
  import opened PlatformProofs
  import opened Runs
  import opened Drivers
  import opened Ticks
  import opened Access

  // ---------------------------------------------------------------- what a step adds

  /** The entry for queueing `op`. */
  function QueuedEntry(op: Operation): AuditEntry {
    AuditEntry(op.requestedAt, op.actor, OfAction(op.action), OfEnvironment(op.environmentId), Reached(Queued))
  }

  /** The entry for the outcome of `op`. */
  function OutcomeEntry(op: Operation): AuditEntry
    requires op.finishedAt.Some?
  {
    AuditEntry(op.finishedAt.value, op.actor, OfAction(op.action), OfEnvironment(op.environmentId), Reached(op.status))
  }

  predicate HasOutcome(op: Operation) { op.status in {Succeeded, Failed} && op.finishedAt.Some? }

  /** The operations that entry `a` can be about: those queued so, or those that ended so. */
  function Queueings(s: State, a: AuditEntry): set<Text> {
    set o | o in s.operations && QueuedEntry(s.operations[o]) == a
  }

  function Outcomes(s: State, a: AuditEntry): set<Text> {
    set o | o in s.operations && HasOutcome(s.operations[o]) && OutcomeEntry(s.operations[o]) == a
  }

  /** As many entries like `a` as there are operations it is about. */
  ghost predicate Accounted(s: State, a: AuditEntry) {
    && (a.outcome == Reached(Queued) ==> multiset(s.audit)[a] == |Queueings(s, a)|)
    && (a.outcome in {Reached(Succeeded), Reached(Failed)} ==> multiset(s.audit)[a] == |Outcomes(s, a)|)
  }

  /** What entries say of `o` stays so. */
  ghost predicate EntryKept(s: State, s': State, o: Text) {
    o in s.operations ==>
      && o in s'.operations
      && QueuedEntry(s'.operations[o]) == QueuedEntry(s.operations[o])
      && (HasOutcome(s.operations[o]) ==> s'.operations[o] == s.operations[o])
  }

  /** From `s` to `s'` the operations keep what entries say of them, and the trail grows by `added`. */
  ghost predicate Adds(s: State, s': State, added: seq<AuditEntry>) {
    && s'.audit == s.audit + added
    && (forall o {:trigger EntryKept(s, s', o)} :: EntryKept(s, s', o))
  }

  /** No operation has come to an end. */
  ghost predicate NoneEnds(s: State, s': State) {
    forall o {:trigger EntryKept(s, s', o)} ::
      o in s.operations && o in s'.operations && HasOutcome(s'.operations[o]) ==> HasOutcome(s.operations[o])
  }

  lemma SameQueueing(s: State, s': State, added: seq<AuditEntry>, o: Text, a: AuditEntry)
    requires Adds(s, s', added) && o in s.operations
    ensures o in Queueings(s', a) <==> o in Queueings(s, a)
    ensures o in Outcomes(s, a) ==> o in Outcomes(s', a)
    ensures NoneEnds(s, s') ==> (o in Outcomes(s', a) <==> o in Outcomes(s, a))
  {
    assert EntryKept(s, s', o);
  }

  /** A step that queues nothing and ends nothing may add entries of other kinds. */
  lemma NothingQueued(s: State, s': State, added: seq<AuditEntry>, a: AuditEntry)
    requires Adds(s, s', added) && Accounted(s, a) && s'.operations.Keys == s.operations.Keys && NoneEnds(s, s')
    requires forall b :: b in added ==> !b.outcome.Reached?
    ensures Accounted(s', a)
  {
    forall o | o in s.operations
      ensures o in Queueings(s', a) <==> o in Queueings(s, a)
      ensures o in Outcomes(s', a) <==> o in Outcomes(s, a)
    {
      SameQueueing(s, s', added, o, a);
    }
    assert Queueings(s', a) == Queueings(s, a) && Outcomes(s', a) == Outcomes(s, a);
    assert a.outcome.Reached? ==> multiset(added)[a] == 0;
  }

  lemma OneQueued(s: State, s': State, op: Operation, a: AuditEntry)
    requires Adds(s, s', [QueuedEntry(op)]) && Accounted(s, a) && op.id !in s.operations && op.status == Queued
    requires s'.operations.Keys == s.operations.Keys + {op.id} && s'.operations[op.id] == op && NoneEnds(s, s')
    ensures Accounted(s', a)
  {
    CountOne(a, QueuedEntry(op), s.audit);
    forall o
      ensures o in Queueings(s', a) <==> o in Queueings(s, a) || (o == op.id && QueuedEntry(op) == a)
      ensures o in Outcomes(s', a) <==> o in Outcomes(s, a)
    {
      if o in s.operations { SameQueueing(s, s', [QueuedEntry(op)], o, a); }
    }
    hide Adds, NoneEnds;
    GrownBy(Queueings(s, a), Queueings(s', a), op.id, QueuedEntry(op) == a);
    GrownBy(Outcomes(s, a), Outcomes(s', a), op.id, false);
  }

  lemma GrownBy(x: set<Text>, y: set<Text>, k: Text, more: bool)
    requires k !in x && forall o :: o in y <==> o in x || (o == k && more)
    ensures |y| == |x| + if more then 1 else 0
  {
    assert y == if more then x + {k} else x;
  }

  lemma OneEnded(s: State, s': State, o: Text, a: AuditEntry)
    requires o in s'.operations && HasOutcome(s'.operations[o]) && Adds(s, s', [OutcomeEntry(s'.operations[o])])
    requires Accounted(s, a) && o in s.operations && !HasOutcome(s.operations[o])
    requires s'.operations == s.operations[o := s'.operations[o]]
    ensures Accounted(s', a)
  {
    var b := OutcomeEntry(s'.operations[o]);
    CountOne(a, b, s.audit);
    forall r
      ensures r in Queueings(s', a) <==> r in Queueings(s, a)
      ensures r in Outcomes(s', a) <==> r in Outcomes(s, a) || (r == o && b == a)
    {
      if r in s.operations { SameQueueing(s, s', [b], r, a); }
    }
    hide Adds;
    assert Queueings(s', a) == Queueings(s, a);
    GrownBy(Outcomes(s, a), Outcomes(s', a), o, b == a);
  }

  lemma CountOne(a: AuditEntry, b: AuditEntry, audit: seq<AuditEntry>)
    ensures multiset(audit + [b])[a] == multiset(audit)[a] + (if a == b then 1 else 0)
  {
  }

  // ---------------------------------------------------------------- reconciliation

  lemma TurnAccounted(cfg: Config, s: State, s': State, k: Text, now: Time, newId: Text, a: AuditEntry)
    requires Inv(cfg, s, now) && k in s.environments && newId !in s.operations && Turn(cfg, s, s', k, now, newId)
    requires Accounted(s, a)
    ensures Accounted(s', a)
  {
    assert EnvironmentOk(cfg, s, k);
    hide Inv, TurnNotices;
    var added := TurnAudit(s, k, now);
    forall o
      ensures EntryKept(s, s', o)
      ensures o in s.operations && o in s'.operations && HasOutcome(s'.operations[o]) ==> HasOutcome(s.operations[o])
    {
      if o in s.operations { assert s'.operations[o] == TurnOperation(s, k, now, o); }
    }
    assert Adds(s, s', added);
    assert NoneEnds(s, s');
    if Retires(s, k, now) {
      OneQueued(s, s', s'.operations[newId], a);
    } else {
      NothingQueued(s, s', [], a);
    }
  }

  lemma {:induction false} PassAccounted(cfg: Config, s: State, order: seq<Text>, now: Time, newIds: map<Text, Text>,
                                         a: AuditEntry)
    requires Inv(cfg, s, now) && NewIds(s, order, newIds) && Accounted(s, a)
    ensures Accounted(ReconcileAll(cfg, s, order, now, newIds), a)
    decreases |order|
  {
    hide ReconcileOne, Accounted, Turn;
    if order != [] {
      var k := order[0];
      if k in s.environments {
        TurnByRecord(cfg, s, k, now, newIds[k]);
        TurnKeepsEnvironments(cfg, s, k, now, newIds[k]);
        TurnAccounted(cfg, s, ReconcileOne(cfg, s, k, now, newIds[k]), k, now, newIds[k], a);
        PassAccounted(cfg, ReconcileOne(cfg, s, k, now, newIds[k]), order[1..], now, newIds, a);
      } else {
        PassAccounted(cfg, s, order[1..], now, newIds, a);
      }
    }
  }

  // ---------------------------------------------------------------- every event

  lemma TakenOver(s: State, s': State, env: Text, stop: Time, op: Operation, a: AuditEntry)
    requires TakesOver(s, s', env, stop, op) && op.id !in s.operations && op.status == Queued
    requires s'.audit == s.audit + [QueuedEntry(op)] && Accounted(s, a)
    ensures Accounted(s', a)
  {
    forall o
      ensures EntryKept(s, s', o)
      ensures o in s.operations && o in s'.operations && HasOutcome(s'.operations[o]) ==> HasOutcome(s.operations[o])
    {
      if o in s.operations {
        assert o in s'.operations.Keys && s'.operations[o].requestedAt == s.operations[o].requestedAt;
      }
    }
    assert Adds(s, s', [QueuedEntry(op)]) && NoneEnds(s, s');
    OneQueued(s, s', op, a);
  }

  lemma CallAccounted(cfg: Config, y: Machine, ev: Event, a: AuditEntry)
    requires MachineInv(cfg, y) && Enabled(cfg, y, ev) && IsEnvironmentCall(ev) && !ev.ExtendCall?
    requires Accounted(y.store, a)
    ensures Accounted(StoreAfter(cfg, y.store, y.worker, ev), a)
  {
    hide Create, Redeploy, Delete, Inv, WorkerInv, TakesOver, Accounted, CreatesFreshly;
    var s, s' := y.store, StoreAfter(cfg, y.store, y.worker, ev);
    match ev
    case CreateCall(u, r, key, now, newId) =>
      if CreatesFreshly(cfg, s, u, r, key) {
        CreateMakes(cfg, s, y.clock, u, r, key, now, newId);
        var generation := if r.id in s.environments then s.environments[r.id].generation + 1 else 1;
        TakenOver(s, s', r.id, now, Operation(newId, r.id, Subject(u.subject), Deploy, Queued, InQueue, None, now, None,
                                              None, map[], generation, 0, r.warm), a);
      } else {
        CreateNothing(cfg, s, u, r, key, now, newId);
      }
    case RedeployCall(u, env, revision, image, expected, t0, t1, newId) =>
      if Redeploy(cfg, s, u, env, revision, image, expected, t0, t1, newId).result.Ok? {
        RedeployMakes(cfg, s, y.clock, u, env, revision, image, expected, t0, t1, newId);
        TakenOver(s, s', env, t0, Operation(newId, env, Subject(u.subject), Deploy, Queued, InQueue, None, t1,
                                            None, None, map[], expected + 1, 0, true), a);
      } else {
        RefusedChangesNothing(cfg, s, y.clock, y.worker, ev);
      }
    case DeleteCall(u, env, c, t0, t1, t2, newId) =>
      if Delete(s, u, env, c, t0, t1, t2, newId).result.Ok? {
        DeleteMakes(cfg, s, y.clock, u, env, c, t0, t1, t2, newId);
        TakenOver(s, s', env, t1, Operation(newId, env, Subject(u.subject), Destroy, Queued, InQueue, None, t2, None,
                                            None, map[], s.environments[env].generation + 1, 0, false), a);
      } else {
        RefusedChangesNothing(cfg, s, y.clock, y.worker, ev);
      }
    case ConfirmCall(u, env, now, newId) => ConfirmAccounted(s, u, env, now, newId, a);
  }

  lemma RefusedChangesNothing(cfg: Config, s: State, t: Time, w: Worker, ev: Event)
    requires Inv(cfg, s, t)
    requires ev.RedeployCall? ==>
        Redeploy(cfg, s, ev.u, ev.env, ev.revision, ev.image, ev.expected, ev.t0, ev.t1, ev.newId).result.Err?
    requires ev.DeleteCall? ==> Delete(s, ev.u, ev.env, ev.confirmation, ev.t0, ev.t1, ev.t2, ev.newId).result.Err?
    ensures ev.RedeployCall? || ev.DeleteCall? ==> StoreAfter(cfg, s, w, ev) == s
  {
    if ev.RedeployCall? {
      RedeployShape(cfg, s, ev.u, ev.env, ev.revision, ev.image, ev.expected, ev.t0, ev.t1, ev.newId);
    } else if ev.DeleteCall? {
      DeleteShape(cfg, s, ev.u, ev.env, ev.confirmation, ev.t0, ev.t1, ev.t2, ev.newId);
    }
  }

  /** Neither the operations nor the trail change. */
  lemma SameAccount(s: State, s': State, a: AuditEntry)
    requires s'.operations == s.operations && s'.audit == s.audit && Accounted(s, a)
    ensures Accounted(s', a)
  {
    assert Queueings(s', a) == Queueings(s, a) && Outcomes(s', a) == Outcomes(s, a);
  }

  lemma ConfirmAccounted(s: State, u: Identity, env: Text, now: Time, newId: Text, a: AuditEntry)
    requires Accounted(s, a)
    ensures Accounted(ConfirmDelete(s, u, env, now, newId).state, a)
  {
    hide Accounted;
    SameAccount(s, ConfirmDelete(s, u, env, now, newId).state, a);
  }

  lemma ExtendAccounted(cfg: Config, y: Machine, ev: Event, a: AuditEntry)
    requires MachineInv(cfg, y) && Enabled(cfg, y, ev) && ev.ExtendCall? && Accounted(y.store, a)
    ensures Accounted(StoreAfter(cfg, y.store, y.worker, ev), a)
  {
    var s, s' := y.store, StoreAfter(cfg, y.store, y.worker, ev);
    if Extend(cfg, s, ev.u, ev.env, ev.mode, ev.minutes, ev.expected, ev.now).result.Ok? {
      hide Extend, Inv, WorkerInv, Accounted;
      ExtendMakes(cfg, s, y.clock, ev.u, ev.env, ev.mode, ev.minutes, ev.expected, ev.now);
      forall o
        ensures EntryKept(s, s', o)
        ensures o in s.operations && o in s'.operations && HasOutcome(s'.operations[o]) ==> HasOutcome(s.operations[o])
      {
        if o in s.operations { assert s'.operations[o].requestedAt == s.operations[o].requestedAt; }
      }
      NothingQueued(s, s', s'.audit[|s.audit|..], a);
    }
  }

  lemma OutboxAccounted(cfg: Config, s: State, w: Worker, ev: Event, a: AuditEntry)
    requires IsApiCall(ev) && !IsEnvironmentCall(ev) && Accounted(s, a)
    ensures Accounted(StoreAfter(cfg, s, w, ev), a)
  {
    hide Accounted;
    var s' := StoreAfter(cfg, s, w, ev);
    assert s'.operations == s.operations;
    if s'.audit == s.audit {
      SameAccount(s, s', a);
    } else {
      assert s'.audit == s.audit + [AuditEntry(ev.t1, Subject(s.linkCodes[ev.code].subject), Linking,
                                               OfChannel(ev.channel), Linked)];
      NothingQueued(s, s', s'.audit[|s.audit|..], a);
    }
  }

  lemma FinishAccounted(cfg: Config, s: State, t0: Time, o: Text, f: Option<Text>, now: Time, a: AuditEntry)
    requires Inv(cfg, s, t0) && t0 <= now && o in s.operations && s.operations[o].status in {Running, Superseded}
    requires Accounted(s, a)
    ensures Accounted(Finish(s, o, f, now).state, a)
  {
    assert OperationOk(s, o, t0);
    Ends(cfg, s, t0, o, f, now);
    var s' := Finish(s, o, f, now).state;
    if s.operations[o].status == Running {
      FinishTrail(cfg, s, t0, o, f, now);
      hide Finish, Inv, Accounted;
      forall r ensures EntryKept(s, s', r) {}
      OneEnded(s, s', o, a);
    }
  }

  lemma FinishTrail(cfg: Config, s: State, t0: Time, o: Text, f: Option<Text>, now: Time)
    requires Inv(cfg, s, t0) && o in s.operations && s.operations[o].status == Running
    ensures Finish(s, o, f, now).state.audit == s.audit + [AuditEntry(
        now, s.operations[o].actor, OfAction(s.operations[o].action), OfEnvironment(s.operations[o].environmentId),
        Reached(if f.Some? then Failed else Succeeded))]
  {
    assert OperationOk(s, o, t0);
    assert EnvironmentOk(cfg, s, s.operations[o].environmentId);
  }

  /** Operations change, but neither what entries say of them nor which have ended. */
  lemma OperationsMove(s: State, s': State, a: AuditEntry)
    requires s'.audit == s.audit && s'.operations.Keys == s.operations.Keys && Accounted(s, a)
    requires forall o {:trigger s'.operations[o]} :: o in s.operations ==>
        QueuedEntry(s'.operations[o]) == QueuedEntry(s.operations[o])
        && (s'.operations[o] == s.operations[o]
            || (!HasOutcome(s'.operations[o]) && !HasOutcome(s.operations[o])))
    ensures Accounted(s', a)
  {
    assert s'.audit == s.audit + [];
    forall o
      ensures EntryKept(s, s', o)
      ensures o in s.operations && o in s'.operations && HasOutcome(s'.operations[o]) ==> HasOutcome(s.operations[o])
    {
      if o in s.operations { assert QueuedEntry(s'.operations[o]) == QueuedEntry(s.operations[o]); }
    }
    NothingQueued(s, s', [], a);
  }

  lemma RecoverAccounted(s: State, a: AuditEntry)
    requires Accounted(s, a)
    ensures Accounted(Recover(s), a)
  {
    hide Accounted;
    OperationsMove(s, Recover(s), a);
  }

  lemma ClaimAccounted(s: State, pick: Option<Text>, now: Time, a: AuditEntry)
    requires Accounted(s, a) && (pick.Some? && pick.value in s.operations ==> Live(s.operations[pick.value]))
    ensures Accounted(Claim(s, pick, now), a)
  {
    hide Accounted;
    OperationsMove(s, Claim(s, pick, now), a);
  }

  lemma PhaseAccounted(s: State, o: Text, phase: Text, now: Time, a: AuditEntry)
    requires Accounted(s, a)
    ensures Accounted(Phase(s, o, phase, now).state, a)
  {
    hide Accounted;
    OperationsMove(s, Phase(s, o, phase, now).state, a);
  }

  lemma WorkerAccounted(cfg: Config, s: State, w: Worker, ev: Event, a: AuditEntry)
    requires !IsApiCall(ev) && !ev.TickReconcile? && !ev.FinishResult? && Accounted(s, a)
    requires ev.TickClaim? && ev.pick.Some? ==> ev.pick.value in s.operations && Live(s.operations[ev.pick.value])
    ensures Accounted(StoreAfter(cfg, s, w, ev), a)
  {
    hide Accounted, Recover, Claim, Phase;
    match ev
    case Start => RecoverAccounted(s, a);
    case TickClaim(pick, now) => ClaimAccounted(s, pick, now, a);
    case PhaseReport(o, phase, now) => PhaseAccounted(s, o, phase, now, a);
    case _ =>
  }

  lemma StepAccounted(cfg: Config, states: seq<Machine>, events: seq<Event>, i: nat, a: AuditEntry)
    requires IsRun(cfg, states, events) && i < |events| && Accounted(states[i].store, a)
    ensures Accounted(states[i + 1].store, a)
  {
    Reachable(cfg, states, events, i);
    assert StepAt(cfg, states, events, i);
    hide StoreAfter, Accounted, Inv;
    var y, ev := states[i], events[i];
    if ev.ExtendCall? {
      ExtendAccounted(cfg, y, ev, a);
    } else if IsEnvironmentCall(ev) {
      CallAccounted(cfg, y, ev, a);
    } else if IsApiCall(ev) {
      OutboxAccounted(cfg, y.store, y.worker, ev, a);
    } else if ev.TickReconcile? {
      TickAccounted(cfg, y, ev, a);
    } else if ev.FinishResult? {
      ResultAccounted(cfg, y, ev, a);
    } else {
      WorkerAccounted(cfg, y.store, y.worker, ev, a);
    }
  }

  lemma TickAccounted(cfg: Config, y: Machine, ev: Event, a: AuditEntry)
    requires MachineInv(cfg, y) && Enabled(cfg, y, ev) && ev.TickReconcile? && Accounted(y.store, a)
    ensures Accounted(StoreAfter(cfg, y.store, y.worker, ev), a)
  {
    hide Inv, Accounted;
    DropExpiredInv(cfg, y.store, y.clock, ev.now);
    SameAccount(y.store, DropExpired(y.store, ev.now), a);
    PassAccounted(cfg, DropExpired(y.store, ev.now), ev.order, ev.now, ev.newIds, a);
  }

  lemma ResultAccounted(cfg: Config, y: Machine, ev: Event, a: AuditEntry)
    requires MachineInv(cfg, y) && Enabled(cfg, y, ev) && ev.FinishResult? && Accounted(y.store, a)
    ensures Accounted(StoreAfter(cfg, y.store, y.worker, ev), a)
  {
    hide Inv, Accounted, Finish;
    FinishAccounted(cfg, y.store, y.clock, y.worker.pc.op, y.worker.pc.failure, ev.now, a);
  }

  /** The trail is exact: in every reachable state it has as many entries for an action queued by someone on an
      environment at some time as operations were queued so, and as many for an outcome as operations ended so. */
  lemma {:induction false} TrailIsExact(cfg: Config, states: seq<Machine>, events: seq<Event>, i: nat, a: AuditEntry)
    requires IsRun(cfg, states, events) && i < |states|
    ensures a.outcome == Reached(Queued) ==>
        multiset(states[i].store.audit)[a] == |Queueings(states[i].store, a)|
    ensures a.outcome in {Reached(Succeeded), Reached(Failed)} ==>
        multiset(states[i].store.audit)[a] == |Outcomes(states[i].store, a)|
  {
    hide StepAt;
    if i == 0 {
      assert Queueings(EMPTY, a) == {} && Outcomes(EMPTY, a) == {};
    } else {
      TrailIsExact(cfg, states, events, i - 1, a);
      StepAccounted(cfg, states, events, i - 1, a);
    }
  }

  // ---------------------------------------------------------------- the trail over time

  lemma OtherTrailGrows(cfg: Config, s: State, w: Worker, ev: Event)
    requires !IsEnvironmentCall(ev) && !ev.TickReconcile?
    ensures s.audit <= StoreAfter(cfg, s, w, ev).audit
  {
  }

  lemma TrailGrows(cfg: Config, states: seq<Machine>, events: seq<Event>, i: nat)
    requires IsRun(cfg, states, events) && i < |events|
    ensures states[i].store.audit <= states[i + 1].store.audit
  {
    if events[i].TickReconcile? {
      hide Inv;
      TickPasses(cfg, states, events, i);
    } else {
      Reachable(cfg, states, events, i);
      assert StepAt(cfg, states, events, i);
      hide StoreAfter, Inv, WorkerInv;
      if IsEnvironmentCall(events[i]) {
        hide Effected;
        InvHasEnvironments(cfg, states[i]);
        var _ := CallEffect(cfg, states[i], events[i]);
      } else {
        OtherTrailGrows(cfg, states[i].store, states[i].worker, events[i]);
      }
    }
  }

  lemma InvHasEnvironments(cfg: Config, y: Machine)
    requires MachineInv(cfg, y)
    ensures EnvironmentsOk(cfg, y.store)
  {
  }

  /** Entries are only ever added, at the end. */
  lemma {:induction false} TrailOnlyGrows(cfg: Config, states: seq<Machine>, events: seq<Event>, i: nat, j: nat)
    requires IsRun(cfg, states, events) && i <= j < |states|
    ensures states[i].store.audit <= states[j].store.audit
    decreases j
  {
    hide StepAt;
    if i < j {
      TrailOnlyGrows(cfg, states, events, i, j - 1);
      TrailGrows(cfg, states, events, j - 1);
    }
  }
}
