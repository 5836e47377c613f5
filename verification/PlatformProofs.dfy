/** Every event keeps the platform's invariant, so it holds in every reachable state. */
module PlatformProofs {
  import opened Basics
  import opened Lifecycle
  import opened LifecycleInvariant
  import opened LifecycleSteps
  import opened Platform
  import opened Effects

  // ---------------------------------------------------------------- the worker's bookkeeping

  /** Transactions that are not the worker's own keep its bookkeeping exact. */
  lemma OthersKeepWorker(cfg: Config, s: State, s': State, w: Worker)
    requires WorkerInv(cfg, s, w) && StatusesKept(s, s')
    ensures WorkerInv(cfg, s', w)
  {
    forall o ensures DriverOk(s', w, o) { assert DriverOk(s, w, o) && StatusKept(s, s', o); }
    forall o ensures Tracked(s', w, o) { assert Tracked(s, w, o) && StatusKept(s, s', o); }
    assert w.pc.Finishing? ==> StatusKept(s, s', w.pc.op);
  }

  lemma BeginTick(cfg: Config, s: State, w: Worker)
    requires WorkerInv(cfg, s, w) && w.pc.Selecting?
    ensures WorkerInv(cfg, s, w.(pc := Reconciled))
  {
    PcKeepsWorker(cfg, s, w, w.(pc := Reconciled));
  }

  /** Moving between the loop's working points changes nothing the bookkeeping depends on. */
  lemma PcKeepsWorker(cfg: Config, s: State, w: Worker, w': Worker)
    requires WorkerInv(cfg, s, w) && Working(w.pc) && !w.pc.Finishing?
    requires w' == w.(pc := w'.pc)
    requires (w'.pc.Selecting? || w'.pc.Reconciled? || (w'.pc.Claiming? && w'.pc.busy == BusyEnvironments(w.active)))
    ensures WorkerInv(cfg, s, w')
  {
    forall o ensures DriverOk(s, w', o) { assert DriverOk(s, w, o); }
    forall a, b ensures Distinct(w', a, b) { assert Distinct(w, a, b); }
    forall o ensures Tracked(s, w', o) { assert Tracked(s, w, o); }
    forall o ensures OwnsOne(w', o) { assert OwnsOne(w, o); }
  }

  lemma ScanKeepsWorker(cfg: Config, s: State, w: Worker)
    requires WorkerInv(cfg, s, w) && w.pc.Reconciled?
    ensures WorkerInv(cfg, s, WorkerAfter(s, w, TickScan))
  {
    var w' := WorkerAfter(s, w, TickScan);
    assert w'.active.Keys == w.active.Keys;
    forall o ensures DriverOk(s, w', o) { assert DriverOk(s, w, o); }
    forall a, b ensures Distinct(w', a, b) { assert Distinct(w, a, b); }
    forall o ensures Tracked(s, w', o) { assert Tracked(s, w, o); }
    forall o ensures OwnsOne(w', o) { assert OwnsOne(w, o); }
    assert |w'.active| == |w.active| by { assert |w'.active.Keys| == |w.active.Keys|; }
    assert BusyEnvironments(w'.active) == BusyEnvironments(w.active);
  }

  /** A claimed operation joins the worker: its environment was not busy, so drivers stay on distinct environments. */
  lemma ClaimKeepsWorker(cfg: Config, s: State, w: Worker, pick: Text, now: Time)
    requires WorkerInv(cfg, s, w) && w.pc.Claiming? && |w.active| < cfg.maxPreviews
    requires Eligible(s, w.pc.busy, pick)
    ensures WorkerInv(cfg, Claim(s, Some(pick), now), WorkerAfter(s, w, TickClaim(Some(pick), now)))
  {
    JoinKeepsWorker(cfg, s, Claim(s, Some(pick), now), w, WorkerAfter(s, w, TickClaim(Some(pick), now)), pick,
                    Claimed(s.operations[pick], now));
  }

  lemma JoinKeepsWorker(cfg: Config, s: State, s': State, w: Worker, w': Worker, pick: Text, op: Operation)
    requires WorkerInv(cfg, s, w) && w.pc.Claiming? && |w.active| < cfg.maxPreviews
    requires pick in s.operations && s.operations[pick].status == Queued
    requires s.operations[pick].environmentId !in w.pc.busy
    requires op.status == Running && op.environmentId == s.operations[pick].environmentId
    requires s'.operations == s.operations[pick := op]
    requires w' == Worker(Claiming(w.pc.busy + {op.environmentId}), w.active[pick := Driver(op, false)],
                          w.runs + {pick}, w.done)
    ensures WorkerInv(cfg, s', w')
  {
    hide BusyEnvironments, Distinct;
    assert DriverOk(s, w, pick) && OwnsOne(w, pick);
    JoinShape(w, w', pick, op);
    forall o ensures DriverOk(s', w', o) { assert DriverOk(s, w, o); }
    forall a, b ensures Distinct(w', a, b) { JoinDistinct(cfg, s, w, w', pick, op, a, b); }
    forall o ensures Tracked(s', w', o) { assert Tracked(s, w, o); }
    forall o ensures OwnsOne(w', o) { assert OwnsOne(w, o); }
  }

  lemma JoinDistinct(cfg: Config, s: State, w: Worker, w': Worker, pick: Text, op: Operation, a: Text, b: Text)
    requires WorkerInv(cfg, s, w) && w.pc.Claiming? && op.environmentId !in w.pc.busy
    requires w'.active == w.active[pick := Driver(op, false)]
    ensures Distinct(w', a, b)
  {
    assert Distinct(w, a, b);
    assert a in w.active ==> w.active[a].op.environmentId in w.pc.busy;
    assert b in w.active ==> w.active[b].op.environmentId in w.pc.busy;
  }

  lemma JoinShape(w: Worker, w': Worker, pick: Text, op: Operation)
    requires pick !in w.active && w'.active == w.active[pick := Driver(op, false)]
    ensures BusyEnvironments(w'.active) == BusyEnvironments(w.active) + {op.environmentId}
    ensures |w'.active| == |w.active| + 1
  {
    assert w'.active.Keys == w.active.Keys + {pick};
    forall e ensures e in BusyEnvironments(w'.active) <==> e in BusyEnvironments(w.active) || e == op.environmentId {
      if e in BusyEnvironments(w.active) {
        var o :| o in w.active && w.active[o].op.environmentId == e;
        assert w'.active[o] == w.active[o];
      }
      assert w'.active[pick].op.environmentId == op.environmentId;
    }
  }

  lemma ReturnKeepsWorker(cfg: Config, s: State, w: Worker, run: Text, failure: Option<Text>)
    requires WorkerInv(cfg, s, w) && run in w.runs
    ensures WorkerInv(cfg, s, WorkerAfter(s, w, RunReturns(run, failure)))
  {
    var w' := WorkerAfter(s, w, RunReturns(run, failure));
    assert OwnsOne(w, run);
    assert w'.done[|w.done|].op == run;
    forall o ensures Reported(w'.done, o) <==> Reported(w.done, o) || o == run {
      if Reported(w.done, o) {
        var i :| 0 <= i < |w.done| && w.done[i].op == o;
        assert w'.done[i].op == o;
      }
    }
    assert NoDuplicateReports(w'.done);
    forall o ensures DriverOk(s, w', o) { assert DriverOk(s, w, o); }
    forall a, b ensures Distinct(w', a, b) { assert Distinct(w, a, b); }
    forall o ensures Tracked(s, w', o) { assert Tracked(s, w, o); }
    forall o ensures OwnsOne(w', o) { assert OwnsOne(w, o); }
    assert !w.pc.Down?;
  }

  lemma TakeKeepsWorker(cfg: Config, s: State, w: Worker)
    requires WorkerInv(cfg, s, w) && w.pc.Selecting? && w.done != []
    ensures WorkerInv(cfg, s, WorkerAfter(s, w, TakeResult))
  {
    var w' := WorkerAfter(s, w, TakeResult);
    var r := w.done[0].op;
    assert Reported(w.done, r);
    assert OwnsOne(w, r) && DriverOk(s, w, r);
    assert |w'.active| == |w.active| - 1 by { assert w'.active.Keys == w.active.Keys - {r}; }
    forall o ensures DriverOk(s, w', o) { assert DriverOk(s, w, o); }
    forall a, b ensures Distinct(w', a, b) { assert Distinct(w, a, b); }
    forall o ensures Tracked(s, w', o) { assert Tracked(s, w, o); }
    forall o ensures OwnsOne(w', o) { assert OwnsOne(w, o); }
  }

  /** Recording a result ends the one operation the worker was finishing. */
  lemma FinishKeepsWorker(cfg: Config, s: State, t0: Time, w: Worker, now: Time)
    requires Inv(cfg, s, t0) && t0 <= now
    requires WorkerInv(cfg, s, w) && w.pc.Finishing?
    ensures WorkerInv(cfg, Finish(s, w.pc.op, w.pc.failure, now).state, w.(pc := Selecting))
  {
    FinishStatuses(cfg, s, t0, w.pc.op, w.pc.failure, now);
    LeaveKeepsWorker(cfg, s, Finish(s, w.pc.op, w.pc.failure, now).state, w);
  }

  lemma FinishStatuses(cfg: Config, s: State, t0: Time, opId: Text, failure: Option<Text>, now: Time)
    requires Inv(cfg, s, t0) && t0 <= now && opId in s.operations
    ensures opId in Finish(s, opId, failure, now).state.operations
    ensures Finish(s, opId, failure, now).state.operations[opId].status != Running
    ensures Finish(s, opId, failure, now).state.operations
        == s.operations[opId := Finish(s, opId, failure, now).state.operations[opId]]
  {
    assert OperationOk(s, opId, t0);
    if Finishes(s, opId) {
      FinishesFacts(cfg, s, t0, opId, failure, now);
    } else {
      FinishNothing(s, opId, failure, now);
    }
  }

  lemma LeaveKeepsWorker(cfg: Config, s: State, s': State, w: Worker)
    requires WorkerInv(cfg, s, w) && w.pc.Finishing?
    requires w.pc.op in s'.operations && s'.operations[w.pc.op].status != Running
    requires s'.operations == s.operations[w.pc.op := s'.operations[w.pc.op]]
    ensures WorkerInv(cfg, s', w.(pc := Selecting))
  {
    var w' := w.(pc := Selecting);
    forall o ensures DriverOk(s', w', o) { assert DriverOk(s, w, o); }
    forall a, b ensures Distinct(w', a, b) { assert Distinct(w, a, b); }
    forall o ensures Tracked(s', w', o) { assert Tracked(s, w, o); }
    forall o ensures OwnsOne(w', o) { assert OwnsOne(w, o); }
  }

  lemma ShutdownKeepsWorker(cfg: Config, s: State, w: Worker)
    requires WorkerInv(cfg, s, w) && Working(w.pc)
    ensures WorkerInv(cfg, s, WorkerAfter(s, w, Shutdown))
  {
    var w' := WorkerAfter(s, w, Shutdown);
    assert w'.active.Keys == w.active.Keys;
    forall o ensures DriverOk(s, w', o) { assert DriverOk(s, w, o); }
    forall a, b ensures Distinct(w', a, b) { assert Distinct(w, a, b); }
    forall o ensures OwnsOne(w', o) { assert OwnsOne(w, o); }
    assert |w'.active| == |w.active| by { assert |w'.active.Keys| == |w.active.Keys|; }
  }

  lemma DrainKeepsWorker(cfg: Config, s: State, w: Worker)
    requires WorkerInv(cfg, s, w) && w.pc.Draining? && w.pc.left > 0 && w.done != []
    ensures WorkerInv(cfg, s, WorkerAfter(s, w, DrainOne))
  {
    var w' := WorkerAfter(s, w, DrainOne);
    forall o ensures DriverOk(s, w', o) { assert DriverOk(s, w, o); }
    forall a, b ensures Distinct(w', a, b) { assert Distinct(w, a, b); }
    forall o ensures OwnsOne(w', o) { assert OwnsOne(w, o); }
  }

  lemma PhaseStatuses(s: State, opId: Text, phase: Text, now: Time)
    ensures StatusesKept(s, Phase(s, opId, phase, now).state)
  {
  }

  lemma StartKeepsWorker(cfg: Config, s: State)
    requires ValidConfig(cfg)
    ensures WorkerInv(cfg, Recover(s), Worker(Selecting, map[], {}, []))
  {
  }

  lemma StoppedWorker(cfg: Config, s: State)
    requires ValidConfig(cfg)
    ensures WorkerInv(cfg, s, STOPPED)
  {
  }

  // ---------------------------------------------------------------- every event

  predicate IsApiCall(ev: Event) {
    IsEnvironmentCall(ev) || ev.LinkCodeCall? || ev.RedeemCall? || ev.LeaseCall? || ev.AckCall?
  }

  ghost predicate StoreKept(cfg: Config, y: Machine, ev: Event) {
    Inv(cfg, StoreAfter(cfg, y.store, y.worker, ev), Reading(y.clock, ev))
        && Evolves(y.store, StoreAfter(cfg, y.store, y.worker, ev))
  }

  lemma VersionedCallsKeepStore(cfg: Config, y: Machine, ev: Event)
    requires ValidConfig(cfg) && MachineInv(cfg, y) && Enabled(cfg, y, ev)
    requires IsEnvironmentCall(ev)
    ensures StoreKept(cfg, y, ev)
  {
    hide Inv, Evolves, Create, Extend, ConfirmDelete, Delete, Redeploy;
    match ev
    case CreateCall(u, request, key, now, newId) => CreateInv(cfg, y.store, y.clock, u, request, key, now, newId);
    case ExtendCall(u, env, mode, minutes, expected, now) =>
      ExtendInv(cfg, y.store, y.clock, u, env, mode, minutes, expected, now);
    case ConfirmCall(u, env, now, newId) => ConfirmDeleteInv(cfg, y.store, y.clock, u, env, now, newId);
    case DeleteCall(u, env, confirmation, t0, t1, t2, newId) =>
      DeleteInv(cfg, y.store, y.clock, u, env, confirmation, t0, t1, t2, newId);
    case RedeployCall(u, env, revision, image, expected, t0, t1, newId) =>
      RedeployInv(cfg, y.store, y.clock, u, env, revision, image, expected, t0, t1, newId);
  }

  lemma RedeemFrame(s: State, code: Text, channel: Channel, tenant: Option<Text>, user: Option<Text>,
                    destination: Option<Text>, t0: Time, t1: Time)
    ensures var s' := Redeem(s, code, channel, tenant, user, destination, t0, t1).state;
            s' == s.(links := s'.links, linkCodes := s'.linkCodes, audit := s'.audit)
  {
  }

  lemma OtherCallsKeepStore(cfg: Config, y: Machine, ev: Event)
    requires ValidConfig(cfg) && MachineInv(cfg, y) && Enabled(cfg, y, ev)
    requires ev.LinkCodeCall? || ev.RedeemCall? || ev.LeaseCall? || ev.AckCall?
    ensures StoreKept(cfg, y, ev)
  {
    hide Inv, Evolves, Lease, Acknowledge, Redeem;
    var s' := StoreAfter(cfg, y.store, y.worker, ev);
    match ev
    case LinkCodeCall(subject, now, newId) => LinksInv(cfg, y.store, s', y.clock, now);
    case RedeemCall(code, channel, tenant, user, destination, t0, t1) =>
      RedeemFrame(y.store, code, channel, tenant, user, destination, t0, t1);
      LinksInv(cfg, y.store, s', y.clock, t1);
    case LeaseCall(picked, now) => LeaseInv(cfg, y.store, y.clock, picked, now);
    case AckCall(notice) => AcknowledgeInv(cfg, y.store, notice, y.clock);
  }

  lemma WorkerKeepsStore(cfg: Config, y: Machine, ev: Event)
    requires ValidConfig(cfg) && MachineInv(cfg, y) && Enabled(cfg, y, ev) && !IsApiCall(ev)
    ensures StoreKept(cfg, y, ev)
  {
    hide Inv, Evolves, Recover, Reconcile, Claim, Finish, Phase;
    match ev
    case Start => RecoverInv(cfg, y.store, y.clock);
    case TickReconcile(order, now, newIds) => ReconcileInv(cfg, y.store, y.clock, order, now, newIds);
    case TickClaim(pick, now) => ClaimInv(cfg, y.store, y.clock, pick, now);
    case FinishResult(now) => FinishInv(cfg, y.store, y.clock, y.worker.pc.op, y.worker.pc.failure, now);
    case PhaseReport(run, phase, now) => PhaseInv(cfg, y.store, y.clock, run, phase, now);
    case _ => EvolvesReflexive(y.store);
  }

  /** The durable state keeps its invariant, and records only evolve. */
  lemma StoreStep(cfg: Config, y: Machine, ev: Event)
    requires ValidConfig(cfg) && MachineInv(cfg, y) && Enabled(cfg, y, ev)
    ensures Inv(cfg, Next(cfg, y, ev).store, Next(cfg, y, ev).clock)
    ensures Evolves(y.store, Next(cfg, y, ev).store)
  {
    hide Inv, Evolves, StoreAfter, Reading, Enabled, MachineInv;
    if IsEnvironmentCall(ev) {
      VersionedCallsKeepStore(cfg, y, ev);
    } else if IsApiCall(ev) {
      OtherCallsKeepStore(cfg, y, ev);
    } else {
      WorkerKeepsStore(cfg, y, ev);
    }
  }

  lemma ApiStatuses(cfg: Config, y: Machine, ev: Event)
    requires MachineInv(cfg, y) && Enabled(cfg, y, ev) && IsApiCall(ev)
    ensures StatusesKept(y.store, StoreAfter(cfg, y.store, y.worker, ev))
  {
    if IsEnvironmentCall(ev) {
      hide Effected, StatusesKept;
      var f := CallEffect(cfg, y, ev);
      EffectStatuses(y.store, StoreAfter(cfg, y.store, y.worker, ev), f);
    } else {
    }
  }

  lemma WorkerStep(cfg: Config, y: Machine, ev: Event)
    requires ValidConfig(cfg) && MachineInv(cfg, y) && Enabled(cfg, y, ev)
    ensures WorkerInv(cfg, Next(cfg, y, ev).store, Next(cfg, y, ev).worker)
  {
    var s, w := y.store, y.worker;
    if IsApiCall(ev) {
      ApiStatuses(cfg, y, ev);
      OthersKeepWorker(cfg, s, Next(cfg, y, ev).store, w);
    } else {
      match ev
      case Start => StartKeepsWorker(cfg, s);
      case TickReconcile(order, now, newIds) =>
        ReconcileBackground(cfg, s, y.clock, order, now, newIds);
        OthersKeepWorker(cfg, s, Next(cfg, y, ev).store, w);
        BeginTick(cfg, Next(cfg, y, ev).store, w);
      case TickScan => ScanKeepsWorker(cfg, s, w);
      case TickClaim(pick, now) =>
        if pick.Some? {
          ClaimKeepsWorker(cfg, s, w, pick.value, now);
        } else {
          PcKeepsWorker(cfg, s, w, w.(pc := Selecting));
        }
      case TickFull => PcKeepsWorker(cfg, s, w, w.(pc := Selecting));
      case TakeResult => TakeKeepsWorker(cfg, s, w);
      case FinishResult(now) => FinishKeepsWorker(cfg, s, y.clock, w, now);
      case Shutdown => ShutdownKeepsWorker(cfg, s, w);
      case DrainOne => DrainKeepsWorker(cfg, s, w);
      case PhaseReport(run, phase, now) =>
        PhaseStatuses(s, run, phase, now);
        OthersKeepWorker(cfg, s, Next(cfg, y, ev).store, w);
      case RunReturns(run, failure) => ReturnKeepsWorker(cfg, s, w, run, failure);
      case Crash => StoppedWorker(cfg, s);
    }
  }

  lemma MachineStep(cfg: Config, y: Machine, ev: Event)
    requires ValidConfig(cfg) && MachineInv(cfg, y) && Enabled(cfg, y, ev)
    ensures MachineInv(cfg, Next(cfg, y, ev)) && Evolves(y.store, Next(cfg, y, ev).store)
  {
    StoreStep(cfg, y, ev);
    WorkerStep(cfg, y, ev);
  }
}
