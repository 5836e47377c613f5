/** Whole runs of the platform: any interleaving of API calls, worker steps, driver reports and crashes. */
module Runs {
  import opened Basics
  import opened Lifecycle
  import opened LifecycleInvariant
  import opened Platform
  import opened Effects
  import opened PlatformProofs

  ghost predicate StepAt(cfg: Config, states: seq<Machine>, events: seq<Event>, i: int)
    requires 0 <= i < |events| && |states| == |events| + 1
  {
    Enabled(cfg, states[i], events[i]) && states[i + 1] == Next(cfg, states[i], events[i])
  }

  /** `events` can happen in this order from an empty platform, and `states` are the states passed through. */
  ghost predicate IsRun(cfg: Config, states: seq<Machine>, events: seq<Event>) {
    && ValidConfig(cfg)
    && |states| == |events| + 1
    && states[0] == Initially(states[0].clock)
    && forall i {:trigger StepAt(cfg, states, events, i)} :: 0 <= i < |events| ==> StepAt(cfg, states, events, i)
  }

  lemma {:induction false} Reachable(cfg: Config, states: seq<Machine>, events: seq<Event>, i: nat)
    requires IsRun(cfg, states, events) && i < |states|
    ensures MachineInv(cfg, states[i])
  {
    if i == 0 {
      StoppedWorker(cfg, states[0].store);
    } else {
      Reachable(cfg, states, events, i - 1);
      assert StepAt(cfg, states, events, i - 1);
      MachineStep(cfg, states[i - 1], events[i - 1]);
    }
  }

  lemma StepEvolves(cfg: Config, states: seq<Machine>, events: seq<Event>, i: nat)
    requires IsRun(cfg, states, events) && i < |events|
    ensures MachineInv(cfg, states[i]) && MachineInv(cfg, states[i + 1])
    ensures Evolves(states[i].store, states[i + 1].store)
    ensures states[i].issued <= states[i + 1].issued && states[i].clock <= states[i + 1].clock
  {
    Reachable(cfg, states, events, i);
    Reachable(cfg, states, events, i + 1);
    assert StepAt(cfg, states, events, i);
    MachineStep(cfg, states[i], events[i]);
  }

  // ---------------------------------------------------------------- records along a run

  /** A confirmation or link code is in `s'` only if it was there before or `ev` has just issued it. */
  ghost predicate TokenFrom(s: State, ev: Event, s': State, k: Text) {
    && (k in s'.confirmations ==> k in s.confirmations || (ev.ConfirmCall? && ev.newId == k))
    && (k in s'.linkCodes ==> k in s.linkCodes || (ev.LinkCodeCall? && ev.newId == k))
  }

  lemma ConfirmTokens(s: State, u: Identity, env: Text, now: Time, newId: Text)
    ensures forall k :: k in ConfirmDelete(s, u, env, now, newId).state.confirmations ==>
        k in s.confirmations || k == newId
    ensures ConfirmDelete(s, u, env, now, newId).state.linkCodes == s.linkCodes
  {
  }

  lemma DeleteTokens(s: State, u: Identity, env: Text, confirmation: Text, t0: Time, t1: Time, t2: Time, newId: Text)
    ensures Delete(s, u, env, confirmation, t0, t1, t2, newId).state.confirmations ==
            (if Delete(s, u, env, confirmation, t0, t1, t2, newId).result.Ok? then s.confirmations - {confirmation}
             else s.confirmations)
    ensures Delete(s, u, env, confirmation, t0, t1, t2, newId).state.linkCodes == s.linkCodes
  {
  }

  lemma RedeemTokens(s: State, code: Text, channel: Channel, tenant: Option<Text>, user: Option<Text>,
                     destination: Option<Text>, t0: Time, t1: Time)
    ensures Redeem(s, code, channel, tenant, user, destination, t0, t1).state.confirmations == s.confirmations
    ensures Redeem(s, code, channel, tenant, user, destination, t0, t1).state.linkCodes ==
            (if Redeem(s, code, channel, tenant, user, destination, t0, t1).result.Ok? then s.linkCodes - {code}
             else s.linkCodes)
  {
  }

  lemma FinishTokens(s: State, opId: Text, failure: Option<Text>, now: Time)
    ensures SameTokens(s, Finish(s, opId, failure, now).state)
  {
  }

  lemma CallTokens(cfg: Config, y: Machine, ev: Event, k: Text)
    requires MachineInv(cfg, y) && Enabled(cfg, y, ev) && IsApiCall(ev)
    ensures TokenFrom(y.store, ev, StoreAfter(cfg, y.store, y.worker, ev), k)
  {
    hide Create, Extend, Delete, Redeploy, Redeem, Effected;
    var s := y.store;
    match ev
    case ConfirmCall(u, env, now, newId) => ConfirmTokens(s, u, env, now, newId);
    case DeleteCall(u, env, confirmation, t0, t1, t2, newId) =>
      DeleteTokens(s, u, env, confirmation, t0, t1, t2, newId);
    case RedeemCall(code, channel, tenant, user, destination, t0, t1) =>
      RedeemTokens(s, code, channel, tenant, user, destination, t0, t1);
    case _ => if IsEnvironmentCall(ev) { var _ := CallEffect(cfg, y, ev); }
  }

  lemma WorkerTokens(cfg: Config, y: Machine, ev: Event, k: Text)
    requires MachineInv(cfg, y) && Enabled(cfg, y, ev) && !IsApiCall(ev)
    ensures TokenFrom(y.store, ev, StoreAfter(cfg, y.store, y.worker, ev), k)
  {
    hide Finish, Reconcile, Inv, StatusesKept, AllQuiet, LiveEnvironments, WorkerInv;
    match ev
    case TickReconcile(order, now, newIds) => ReconcileBackground(cfg, y.store, y.clock, order, now, newIds);
    case FinishResult(now) => FinishTokens(y.store, y.worker.pc.op, y.worker.pc.failure, now);
    case _ =>
  }

  lemma StepTokens(cfg: Config, states: seq<Machine>, events: seq<Event>, i: nat, k: Text)
    requires IsRun(cfg, states, events) && i < |events|
    ensures TokenFrom(states[i].store, events[i], states[i + 1].store, k)
    ensures events[i].ConfirmCall? || events[i].LinkCodeCall? ==> events[i].newId !in states[i].issued
    ensures states[i].issued <= states[i + 1].issued
  {
    hide TokenFrom, StoreAfter, WorkerAfter, MachineInv;
    Reachable(cfg, states, events, i);
    assert StepAt(cfg, states, events, i);
    if IsApiCall(events[i]) {
      CallTokens(cfg, states[i], events[i], k);
    } else {
      WorkerTokens(cfg, states[i], events[i], k);
    }
  }

  /** A confirmation that is gone stays gone. */
  lemma {:induction false} ConfirmationStaysGone(cfg: Config, states: seq<Machine>, events: seq<Event>, i: nat,
      j: nat, k: Text)
    requires IsRun(cfg, states, events) && i <= j < |states|
    requires k in states[i].issued && k !in states[i].store.confirmations
    ensures k in states[j].issued && k !in states[j].store.confirmations
    decreases j
  {
    hide StepAt;
    if i < j {
      ConfirmationStaysGone(cfg, states, events, i, j - 1, k);
      StepTokens(cfg, states, events, j - 1, k);
    }
  }

  /** So does a link code. */
  lemma {:induction false} LinkCodeStaysGone(cfg: Config, states: seq<Machine>, events: seq<Event>, i: nat, j: nat,
                                             k: Text)
    requires IsRun(cfg, states, events) && i <= j < |states|
    requires k in states[i].issued && k !in states[i].store.linkCodes
    ensures k in states[j].issued && k !in states[j].store.linkCodes
    decreases j
  {
    hide StepAt;
    if i < j {
      LinkCodeStaysGone(cfg, states, events, i, j - 1, k);
      StepTokens(cfg, states, events, j - 1, k);
    }
  }

  lemma Issued(cfg: Config, states: seq<Machine>, events: seq<Event>, i: nat)
    requires IsRun(cfg, states, events) && i < |states|
    ensures states[i].store.confirmations.Keys <= states[i].issued && states[i].store.linkCodes.Keys <= states[i].issued
  {
    Reachable(cfg, states, events, i);
  }

  /** Between any two moments of a run records only evolve: terminal operations are frozen, generations rise, an
      environment at one generation changes only its status, notices and idempotency records stay. */
  lemma {:induction false} RunEvolves(cfg: Config, states: seq<Machine>, events: seq<Event>, i: nat, j: nat)
    requires IsRun(cfg, states, events) && i <= j < |states|
    ensures Evolves(states[i].store, states[j].store)
    ensures states[i].issued <= states[j].issued && states[i].clock <= states[j].clock
    decreases j
  {
    hide Evolves, MachineInv, StepAt;
    if i == j {
      EvolvesReflexive(states[i].store);
    } else {
      RunEvolves(cfg, states, events, i, j - 1);
      StepEvolves(cfg, states, events, j - 1);
      var a, b, c := states[i].store, states[j - 1].store, states[j].store;
      forall k | k in a.confirmations && k in c.confirmations ensures k in b.confirmations {
        Issued(cfg, states, events, i);
        if k !in b.confirmations {
          ConfirmationStaysGone(cfg, states, events, j - 1, j, k);
        }
      }
      EvolvesTransitive(a, b, c);
    }
  }

  // ---------------------------------------------------------------- drivers

  /** At most one driver run per environment, and at most maxPreviews in all, however calls, ticks, results and
      crashes interleave. */
  lemma OneDriverPerEnvironment(cfg: Config, states: seq<Machine>, events: seq<Event>, i: nat, a: Text, b: Text)
    requires IsRun(cfg, states, events) && i < |states|
    ensures |states[i].worker.runs| <= cfg.maxPreviews
    ensures a in states[i].worker.runs && b in states[i].worker.runs && a != b ==>
        && a in states[i].store.operations && b in states[i].store.operations
        && states[i].store.operations[a].environmentId != states[i].store.operations[b].environmentId
  {
    Reachable(cfg, states, events, i);
    var s, w := states[i].store, states[i].worker;
    assert OwnsOne(w, a) && OwnsOne(w, b) && DriverOk(s, w, a) && DriverOk(s, w, b) && Distinct(w, a, b);
  }

  /** A claimed operation starts only when no run is left on its environment: a superseded deploy's run has returned
      before the destroy that superseded it starts. */
  lemma StartsAlone(cfg: Config, states: seq<Machine>, events: seq<Event>, i: nat, r: Text)
    requires IsRun(cfg, states, events) && i < |events|
    requires events[i].TickClaim? && events[i].pick.Some? && r in states[i].worker.runs
    ensures events[i].pick.value in states[i].store.operations && r in states[i].store.operations
    ensures states[i].store.operations[r].environmentId !=
            states[i].store.operations[events[i].pick.value].environmentId
  {
    Reachable(cfg, states, events, i);
    assert StepAt(cfg, states, events, i);
    var s, w := states[i].store, states[i].worker;
    assert OwnsOne(w, r) && DriverOk(s, w, r);
    assert w.active[r].op.environmentId in w.pc.busy;
  }

  /** While the worker is working, an operation is running exactly when it is in `active` (or its result is
      being recorded) and has not been superseded; and each entry of `active` owns exactly one outstanding run
      or buffered result. */
  lemma BookkeepingIsExact(cfg: Config, states: seq<Machine>, events: seq<Event>, i: nat, o: Text)
    requires IsRun(cfg, states, events) && i < |states| && Working(states[i].worker.pc)
    ensures o in states[i].store.operations ==>
        (states[i].store.operations[o].status == Running <==>
           (o in states[i].worker.active || states[i].worker.pc
            == Finishing(o, if states[i].worker.pc.Finishing? then states[i].worker.pc.failure else None))
           && states[i].store.operations[o].status != Superseded)
    ensures o in states[i].worker.active <==> (o in states[i].worker.runs || Reported(states[i].worker.done, o))
    ensures !(o in states[i].worker.runs && Reported(states[i].worker.done, o))
    ensures |states[i].worker.runs| + |states[i].worker.done| == |states[i].worker.active|
  {
    Reachable(cfg, states, events, i);
    assert OwnsOne(states[i].worker, o) && DriverOk(states[i].store, states[i].worker, o)
        && Tracked(states[i].store, states[i].worker, o);
  }

  /** A driver that returns can always send its result: the channel never fills. */
  lemma SendNeverBlocks(cfg: Config, states: seq<Machine>, events: seq<Event>, i: nat, run: Text, failure: Option<Text>)
    requires IsRun(cfg, states, events) && i < |states| && run in states[i].worker.runs
    ensures Enabled(cfg, states[i], RunReturns(run, failure))
  {
    Reachable(cfg, states, events, i);
    var w := states[i].worker;
    assert |w.runs| >= 1 by { assert |w.runs - {run}| == |w.runs| - 1; }
  }

  function Drained(events: seq<Event>): nat {
    if events == [] then 0 else Drained(events[..|events| - 1]) + (if events[|events| - 1].DrainOne? then 1 else 0)
  }

  /** After a shutdown with n active entries the worker receives exactly n results, and then nothing is outstanding.
      Until then a result is buffered or a run is still to return one. */
  lemma {:induction false} DrainReceivesEveryResult(cfg: Config, states: seq<Machine>, events: seq<Event>, i: nat,
      j: nat)
    requires IsRun(cfg, states, events) && i < j < |states| && events[i].Shutdown?
    requires forall k :: i <= k < j ==> !events[k].Crash?
    ensures states[j].worker.pc.Draining?
    ensures states[j].worker.pc.left + Drained(events[i + 1..j]) == |states[i].worker.active|
    ensures states[j].worker.pc.left == 0 <==> states[j].worker.runs == {} && states[j].worker.done == []
    decreases j
  {
    hide Inv, StepAt, Enabled;
    Reachable(cfg, states, events, j);
    if j == i + 1 {
      WorkerMoves(cfg, states, events, i);
      assert events[i + 1..j] == [];
    } else {
      DrainReceivesEveryResult(cfg, states, events, i, j - 1);
      WorkerMoves(cfg, states, events, j - 1);
      DrainStep(states[j - 1].store, states[j - 1].worker, events[j - 1]);
      assert events[i + 1..j][..|events[i + 1..j]| - 1] == events[i + 1..j - 1];
    }
    assert WorkerShape(cfg, states[j].store, states[j].worker);
  }

  /** What a step does to the worker, and what the worker's own events wait for. */
  lemma WorkerMoves(cfg: Config, states: seq<Machine>, events: seq<Event>, i: nat)
    requires IsRun(cfg, states, events) && i < |events|
    ensures states[i + 1].worker == WorkerAfter(states[i].store, states[i].worker, events[i])
    ensures WorkerGuard(states[i].worker, events[i])
  {
    assert StepAt(cfg, states, events, i);
  }

  predicate WorkerGuard(w: Worker, ev: Event) {
    && (ev.Start? ==> w.pc.Down?)
    && (ev.TickReconcile? || ev.TakeResult? ==> w.pc.Selecting?)
    && (ev.TickScan? ==> w.pc.Reconciled?)
    && (ev.TickClaim? || ev.TickFull? ==> w.pc.Claiming?)
    && (ev.FinishResult? ==> w.pc.Finishing?)
    && (ev.Shutdown? ==> Working(w.pc))
    && (ev.DrainOne? ==> w.pc.Draining? && w.pc.left > 0 && w.done != [])
  }

  lemma DrainStep(s: State, w: Worker, ev: Event)
    requires w.pc.Draining? && WorkerGuard(w, ev) && !ev.Crash?
    ensures WorkerAfter(s, w, ev).pc.Draining?
    ensures WorkerAfter(s, w, ev).pc.left + (if ev.DrainOne? then 1 else 0) == w.pc.left
  {
  }

  /** The next scan cancels exactly the drivers of superseded operations; no other driver is cancelled while the
      worker works. */
  lemma ScanCancelsTheSuperseded(cfg: Config, states: seq<Machine>, events: seq<Event>, i: nat, o: Text)
    requires IsRun(cfg, states, events) && i < |events| && events[i].TickScan?
    requires o in states[i].worker.active
    ensures o in states[i + 1].worker.active && o in states[i + 1].store.operations
    ensures states[i + 1].worker.active[o].cancelled <==> states[i + 1].store.operations[o].status == Superseded
  {
    Reachable(cfg, states, events, i);
    assert StepAt(cfg, states, events, i);
    assert DriverOk(states[i].store, states[i].worker, o);
  }
}
