/** What driver runs report and return is what is recorded, and what the worker does between two of its waits. */
module Drivers {
  import opened Basics
  import opened Lifecycle
  import opened LifecycleInvariant
  import opened LifecycleSteps
  import opened Platform
  import opened Effects
  import opened PlatformProofs
  import opened Runs
  import opened Outcomes
  import opened Ticks

  // ---------------------------------------------------------------- results

  /** The run of `o` has returned `f`: wherever the worker still holds its result, it is that. */
  ghost predicate Carried(y: Machine, o: Text, f: Option<Text>) {
    && !y.worker.pc.Down?
    && o in y.store.operations && y.store.operations[o].status != Queued
    && o !in y.worker.runs
    && (forall r :: r in y.worker.done && r.op == o ==> r.failure == f)
    && (y.worker.pc.Finishing? && y.worker.pc.op == o ==> y.worker.pc.failure == f)
  }

  lemma CarriedAtFirst(cfg: Config, states: seq<Machine>, events: seq<Event>, i: nat, o: Text, f: Option<Text>)
    requires IsRun(cfg, states, events) && i < |events| && events[i] == RunReturns(o, f)
    ensures Carried(states[i + 1], o, f)
  {
    Reachable(cfg, states, events, i);
    assert StepAt(cfg, states, events, i);
    var s, w := states[i].store, states[i].worker;
    assert OwnsOne(w, o) && DriverOk(s, w, o);
    forall r | r in w.done ensures r.op != o {
      var k :| 0 <= k < |w.done| && w.done[k] == r;
      assert r.op == o ==> Reported(w.done, o);
    }
  }

  /** Only a start puts an operation that is not queued back in the queue. */
  lemma NotQueuedAgain(cfg: Config, y: Machine, ev: Event, o: Text)
    requires ValidConfig(cfg) && MachineInv(cfg, y) && Enabled(cfg, y, ev) && !ev.Start?
    requires o in y.store.operations && y.store.operations[o].status != Queued
    ensures o in StoreAfter(cfg, y.store, y.worker, ev).operations
    ensures StoreAfter(cfg, y.store, y.worker, ev).operations[o].status != Queued
  {
    hide Inv, Create, Extend, ConfirmDelete, Delete, Redeploy, Redeem, Lease, Reconcile, Phase, Finish;
    hide EnvironmentsOk, OperationsOk, NoticesOk, KeysOk;
    var s' := StoreAfter(cfg, y.store, y.worker, ev);
    if IsApiCall(ev) {
      ApiStatuses(cfg, y, ev);
      assert StatusKept(y.store, s', o);
    } else {
      match ev
      case TickReconcile(order, now, newIds) =>
        ReconcileBackground(cfg, y.store, y.clock, order, now, newIds);
        assert StatusKept(y.store, s', o);
      case PhaseReport(run, phase, now) =>
        PhaseStatuses(y.store, run, phase, now);
        assert StatusKept(y.store, s', o);
      case FinishResult(now) =>
        Ends(cfg, y.store, y.clock, y.worker.pc.op, y.worker.pc.failure, now);
        FinishStatuses(cfg, y.store, y.clock, y.worker.pc.op, y.worker.pc.failure, now);
      case _ =>
    }
  }

  /** What recording a result makes of the operation and of its environment. */
  lemma Ends(cfg: Config, s: State, t0: Time, o: Text, f: Option<Text>, now: Time)
    requires Inv(cfg, s, t0) && t0 <= now && o in s.operations && s.operations[o].status in {Running, Superseded}
    ensures s.operations[o].environmentId in s.environments
    ensures s.operations[o].status != Running ==> Finish(s, o, f, now).state == s
    ensures s.operations[o].status == Running ==>
        var s', env := Finish(s, o, f, now).state, s.operations[o].environmentId;
        && s'.operations == s.operations[o := s.operations[o].(
             finishedAt := Some(now), status := if f.Some? then Failed else Succeeded,
             error := if f.Some? then f else s.operations[o].error,
             phase := if f.Some? then s.operations[o].phase
                      else if s.operations[o].action == Destroy then DeletedPhase else ReadyPhase)]
        && s'.environments == s.environments[env := s.environments[env].(
             status := match s.operations[o].action
                       case Deploy => if f.Some? then DeployFailed else Ready
                       case Destroy => if f.Some? then Deleting else Deleted)]
  {
    assert OperationOk(s, o, t0);
    assert EnvironmentOk(cfg, s, s.operations[o].environmentId);
    if s.operations[o].status == Running {
      FinishesFacts(cfg, s, t0, o, f, now);
    } else {
      FinishNothing(s, o, f, now);
    }
  }

  lemma CarriedStep(cfg: Config, states: seq<Machine>, events: seq<Event>, i: nat, o: Text, f: Option<Text>)
    requires IsRun(cfg, states, events) && i < |events| && Carried(states[i], o, f) && !events[i].Crash?
    ensures Carried(states[i + 1], o, f)
  {
    hide StoreAfter, MachineInv;
    Reachable(cfg, states, events, i);
    assert StepAt(cfg, states, events, i);
    NotQueuedAgain(cfg, states[i], events[i], o);
  }

  lemma {:induction false} StaysCarried(cfg: Config, states: seq<Machine>, events: seq<Event>, i: nat, j: nat, o: Text,
                                        f: Option<Text>)
    requires IsRun(cfg, states, events) && i < j < |states| && events[i] == RunReturns(o, f)
    requires forall k :: i < k < j ==> !events[k].Crash?
    ensures Carried(states[j], o, f)
    decreases j
  {
    hide StepAt, Carried;
    if j == i + 1 {
      CarriedAtFirst(cfg, states, events, i, o, f);
    } else {
      StaysCarried(cfg, states, events, i, j - 1, o, f);
      CarriedStep(cfg, states, events, j - 1, o, f);
    }
  }

  /** What a driver run returns is what is recorded of its operation, unless the process dies first: a failure with its
      text, or success; nothing, if the operation has been superseded meanwhile. */
  lemma ResultIsRecorded(cfg: Config, states: seq<Machine>, events: seq<Event>, i: nat, j: nat, o: Text,
                         f: Option<Text>)
    requires IsRun(cfg, states, events) && i < j < |events| && events[i] == RunReturns(o, f)
    requires forall k :: i < k < j ==> !events[k].Crash?
    requires events[j].FinishResult? && states[j].worker.pc.Finishing? && states[j].worker.pc.op == o
    ensures states[j].worker.pc.failure == f
    ensures o in states[j].store.operations
        && states[j].store.operations[o].environmentId in states[j].store.environments
    ensures states[j].store.operations[o].status != Running ==> states[j + 1].store == states[j].store
    ensures states[j].store.operations[o].status == Running ==>
        var s, s', env := states[j].store, states[j + 1].store, states[j].store.operations[o].environmentId;
        && s'.operations == s.operations[o := s.operations[o].(
             finishedAt := Some(events[j].now), status := if f.Some? then Failed else Succeeded,
             error := if f.Some? then f else s.operations[o].error,
             phase := if f.Some? then s.operations[o].phase
                      else if s.operations[o].action == Destroy then DeletedPhase else ReadyPhase)]
        && s'.environments == s.environments[env := s.environments[env].(
             status := match s.operations[o].action
                       case Deploy => if f.Some? then DeployFailed else Ready
                       case Destroy => if f.Some? then Deleting else Deleted)]
  {
    StaysCarried(cfg, states, events, i, j, o, f);
    Reachable(cfg, states, events, j);
    assert StepAt(cfg, states, events, j);
    Ends(cfg, states[j].store, states[j].clock, o, f, events[j].now);
  }

  /** The worker holds result `f` of `o`. */
  predicate Holds(w: Worker, o: Text, f: Option<Text>) {
    Report(o, f) in w.done || w.pc == Finishing(o, f)
  }

  /** Every result in the worker's hands was returned by the run, with no crash since. */
  lemma {:induction false} HeldWasReturned(cfg: Config, states: seq<Machine>, events: seq<Event>, j: nat, o: Text,
                                           f: Option<Text>)
    returns (i: nat)
    requires IsRun(cfg, states, events) && j < |states| && Holds(states[j].worker, o, f)
    ensures i < j && events[i] == RunReturns(o, f) && forall k :: i < k < j ==> !events[k].Crash?
    decreases j
  {
    if j > 0 {
      WorkerMoves(cfg, states, events, j - 1);
      if events[j - 1] == RunReturns(o, f) {
        i := j - 1;
      } else {
        i := HeldWasReturned(cfg, states, events, j - 1, o, f);
      }
    }
  }

  /** Conversely, an operation ends as succeeded only when its run has returned without a failure, and as failed only
      with the failure its run returned. */
  lemma OutcomeWasReturned(cfg: Config, states: seq<Machine>, events: seq<Event>, j: nat, o: Text) returns (i: nat)
    requires IsRun(cfg, states, events) && j < |events| && o in states[j].store.operations
    requires Live(states[j].store.operations[o]) && o in states[j + 1].store.operations
    requires states[j + 1].store.operations[o].status in {Succeeded, Failed}
    ensures i < j && events[i].RunReturns? && events[i].run == o && forall k :: i < k < j ==> !events[k].Crash?
    ensures states[j + 1].store.operations[o].status == Succeeded ==> events[i].failure == None
    ensures states[j + 1].store.operations[o].status == Failed ==>
        events[i].failure.Some? && states[j + 1].store.operations[o].error == events[i].failure
  {
    Reachable(cfg, states, events, j);
    assert StepAt(cfg, states, events, j);
    LiveStep(cfg, states[j], events[j], o);
    i := HeldWasReturned(cfg, states, events, j, o, states[j].worker.pc.failure);
    ResultIsRecorded(cfg, states, events, i, j, o, states[j].worker.pc.failure);
  }

  // ---------------------------------------------------------------- milestones

  /** A milestone is recorded, with its time, for an operation that is running, and refused otherwise; nothing else
      changes. */
  lemma MilestoneIsRecorded(cfg: Config, states: seq<Machine>, events: seq<Event>, i: nat)
    requires IsRun(cfg, states, events) && i < |events| && events[i].PhaseReport?
    ensures events[i].run in states[i].store.operations
    ensures var s, o := states[i].store, events[i].run;
      states[i + 1].store ==
        if s.operations[o].status == Running
        then s.(operations := s.operations[o := s.operations[o].(
               phase := Milestone(events[i].phase),
               timings := s.operations[o].timings[events[i].phase := events[i].now])])
        else s
    ensures Phase(states[i].store, events[i].run, events[i].phase, events[i].now).result
         == if states[i].store.operations[events[i].run].status == Running then Ok(()) else Err(Conflict)
  {
    Reachable(cfg, states, events, i);
    assert StepAt(cfg, states, events, i);
    assert OwnsOne(states[i].worker, events[i].run) && DriverOk(states[i].store, states[i].worker, events[i].run);
  }

  /** What the operation is doing and when it got there. */
  ghost predicate SameProgress(s: State, s': State, o: Text) {
    && (o in s.operations && o in s'.operations ==>
          && s'.operations[o].timings == s.operations[o].timings
          && (s'.operations[o].status == Running ==>
                s.operations[o].status == Running && s'.operations[o].phase == s.operations[o].phase))
    && (o !in s.operations && o in s'.operations ==>
          s'.operations[o].timings == map[] && s'.operations[o].status != Running)
  }

  lemma EffectProgress(s: State, s': State, f: Effect, o: Text)
    requires Effected(s, s', f) && (f.Queues? ==> f.op.timings == map[])
    ensures SameProgress(s, s', o)
  {
  }

  lemma CallProgress(cfg: Config, y: Machine, ev: Event, t: Time, o: Text)
    requires EnvironmentsOk(cfg, y.store) && y.store.operations.Keys <= y.issued && Enabled(cfg, y, ev)
    requires IsEnvironmentCall(ev) && OperationsOk(StoreAfter(cfg, y.store, y.worker, ev), t)
    ensures SameProgress(y.store, StoreAfter(cfg, y.store, y.worker, ev), o)
  {
    hide Enabled, StoreAfter, EnvironmentsOk, Effected, SameProgress;
    var s' := StoreAfter(cfg, y.store, y.worker, ev);
    var f := CallEffect(cfg, y, ev);
    QueuesFresh(y.store, s', f, t);
    EffectProgress(y.store, s', f, o);
  }

  lemma OutboxProgress(cfg: Config, s: State, w: Worker, ev: Event, o: Text)
    requires IsApiCall(ev) && !IsEnvironmentCall(ev)
    ensures SameProgress(s, StoreAfter(cfg, s, w, ev), o)
  {
  }

  lemma ApiProgress(cfg: Config, states: seq<Machine>, events: seq<Event>, i: nat, o: Text)
    requires IsRun(cfg, states, events) && i < |events| && IsApiCall(events[i])
    ensures SameProgress(states[i].store, states[i + 1].store, o)
  {
    Reachable(cfg, states, events, i);
    Reachable(cfg, states, events, i + 1);
    assert StepAt(cfg, states, events, i);
    hide IsRun, Enabled, StoreAfter, WorkerInv, EnvironmentsOk, OperationsOk, NoticesOk, KeysOk, SameProgress;
    if IsEnvironmentCall(events[i]) {
      CallProgress(cfg, states[i], events[i], states[i + 1].clock, o);
    } else {
      OutboxProgress(cfg, states[i].store, states[i].worker, events[i], o);
    }
  }

  lemma QueuesFresh(s: State, s': State, f: Effect, now: Time)
    requires Effected(s, s', f) && OperationsOk(s', now)
    ensures f.Queues? ==> f.op.timings == map[]
  {
    if f.Queues? {
      assert OperationOk(s', f.op.id, now);
      assert s'.operations[f.op.id] == f.op && f.op.attempt == 0 && TimesOk(f.op, now);
      assert forall p :: p !in f.op.timings;
    }
  }

  lemma TickProgress(cfg: Config, states: seq<Machine>, events: seq<Event>, i: nat, o: Text)
    requires IsRun(cfg, states, events) && i < |events| && events[i].TickReconcile?
    ensures SameProgress(states[i].store, states[i + 1].store, o)
  {
    hide StepAt, CleansUp;
    TickOnOperation(cfg, states, events, i, o);
    if o in states[i + 1].store.operations && o !in states[i].store.operations {
      var k :| k in states[i].store.environments && k in events[i].newIds && events[i].newIds[k] == o
               && CleansUp(states[i].store, k, events[i].now);
      TickOnEnvironment(cfg, states, events, i, k);
    }
  }

  lemma FinishProgress(cfg: Config, states: seq<Machine>, events: seq<Event>, i: nat, o: Text)
    requires IsRun(cfg, states, events) && i < |events| && events[i].FinishResult?
    ensures SameProgress(states[i].store, states[i + 1].store, o)
  {
    Reachable(cfg, states, events, i);
    assert StepAt(cfg, states, events, i);
    var y := states[i];
    hide IsRun, Finish, SameProgress, Inv, EnvironmentsOk, OperationsOk, NoticesOk, KeysOk;
    EndsProgress(cfg, y.store, y.clock, y.worker.pc.op, y.worker.pc.failure, events[i].now, o);
  }

  lemma EndsProgress(cfg: Config, s: State, t0: Time, r: Text, f: Option<Text>, now: Time, o: Text)
    requires Inv(cfg, s, t0) && t0 <= now && r in s.operations && s.operations[r].status in {Running, Superseded}
    ensures SameProgress(s, Finish(s, r, f, now).state, o)
  {
    hide Finish, Inv;
    Ends(cfg, s, t0, r, f, now);
  }

  /** Only a claim and a milestone change what a running operation is doing, and only a milestone its timings. */
  lemma StepProgress(cfg: Config, states: seq<Machine>, events: seq<Event>, i: nat, o: Text)
    requires IsRun(cfg, states, events) && i < |events|
    requires !(events[i].TickClaim? && events[i].pick == Some(o)) && !(events[i].PhaseReport? && events[i].run == o)
    ensures SameProgress(states[i].store, states[i + 1].store, o)
  {
    hide SameProgress, MachineInv;
    if IsApiCall(events[i]) {
      ApiProgress(cfg, states, events, i, o);
    } else if events[i].TickReconcile? {
      TickProgress(cfg, states, events, i, o);
    } else if events[i].FinishResult? {
      FinishProgress(cfg, states, events, i, o);
    } else {
      OtherProgress(cfg, states, events, i, o);
    }
  }

  lemma OtherProgress(cfg: Config, states: seq<Machine>, events: seq<Event>, i: nat, o: Text)
    requires IsRun(cfg, states, events) && i < |events|
    requires !IsApiCall(events[i]) && !events[i].TickReconcile? && !events[i].FinishResult?
    requires !(events[i].TickClaim? && events[i].pick == Some(o)) && !(events[i].PhaseReport? && events[i].run == o)
    ensures SameProgress(states[i].store, states[i + 1].store, o)
  {
    assert StepAt(cfg, states, events, i);
  }

  /** A claim takes the operation up: running, one attempt more, started now unless it had been before; its driver is
      started on that record. */
  lemma ClaimIsRecorded(cfg: Config, states: seq<Machine>, events: seq<Event>, i: nat, o: Text)
    requires IsRun(cfg, states, events) && i < |events| && events[i].TickClaim? && events[i].pick == Some(o)
    ensures o in states[i].store.operations
    ensures var s, op := states[i].store, states[i].store.operations[o];
      && states[i + 1].store == s.(operations := s.operations[o := op.(
           status := Running, attempt := op.attempt + 1, phase := Provisioning,
           startedAt := if op.startedAt.Some? then op.startedAt else Some(events[i].now))])
      && states[i + 1].worker.runs == states[i].worker.runs + {o}
      && states[i + 1].worker.active == states[i].worker.active[o := Driver(states[i + 1].store.operations[o], false)]
  {
    assert StepAt(cfg, states, events, i);
  }

  /** Since the last claim of `o`, the last milestone its run has reported. */
  function LastReported(events: seq<Event>, o: Text): Progress {
    if events == [] then InQueue
    else
      var last := events[|events| - 1];
      if last.TickClaim? && last.pick == Some(o) then Provisioning
      else if last.PhaseReport? && last.run == o then Milestone(last.phase)
      else LastReported(events[..|events| - 1], o)
  }

  /** A running operation shows the last milestone that its current attempt has reported. */
  lemma {:induction false} PhaseIsLastReported(cfg: Config, states: seq<Machine>, events: seq<Event>, i: nat, o: Text)
    requires IsRun(cfg, states, events) && i < |states|
    requires o in states[i].store.operations && states[i].store.operations[o].status == Running
    ensures states[i].store.operations[o].phase == LastReported(events[..i], o)
  {
    hide IsRun;
    NothingAtFirst(cfg, states, events);
    if i > 0 {
      assert events[..i][..i - 1] == events[..i - 1];
      var ev := events[i - 1];
      if ev.TickClaim? && ev.pick == Some(o) {
        ClaimIsRecorded(cfg, states, events, i - 1, o);
      } else if ev.PhaseReport? && ev.run == o {
        MilestoneIsRecorded(cfg, states, events, i - 1);
      } else {
        StepProgress(cfg, states, events, i - 1, o);
        PhaseIsLastReported(cfg, states, events, i - 1, o);
      }
    }
  }

  lemma NothingAtFirst(cfg: Config, states: seq<Machine>, events: seq<Event>)
    requires IsRun(cfg, states, events)
    ensures |states| == |events| + 1 && states[0].store == EMPTY
  {
  }

  /** Every recorded timing is the time of a report of that milestone by that operation's run. */
  lemma {:induction false} TimingWasReported(cfg: Config, states: seq<Machine>, events: seq<Event>, j: nat, o: Text,
                                             p: Text)
    returns (i: nat)
    requires IsRun(cfg, states, events) && j < |states|
    requires o in states[j].store.operations && p in states[j].store.operations[o].timings
    ensures i < j && events[i] == PhaseReport(o, p, states[j].store.operations[o].timings[p])
    decreases j
  {
    hide IsRun;
    NothingAtFirst(cfg, states, events);
    if j > 0 {
      var ev := events[j - 1];
      if ev.TickClaim? && ev.pick == Some(o) {
        ClaimIsRecorded(cfg, states, events, j - 1, o);
        i := TimingWasReported(cfg, states, events, j - 1, o, p);
      } else if ev.PhaseReport? && ev.run == o {
        MilestoneIsRecorded(cfg, states, events, j - 1);
        if ev == PhaseReport(o, p, states[j].store.operations[o].timings[p]) {
          i := j - 1;
        } else {
          i := TimingWasReported(cfg, states, events, j - 1, o, p);
        }
      } else {
        StepProgress(cfg, states, events, j - 1, o);
        i := TimingWasReported(cfg, states, events, j - 1, o, p);
      }
    }
  }

  // ---------------------------------------------------------------- the loop

  /** A tick ends with every slot taken, or with nothing queued but for environments that have a driver. */
  lemma TicksFillTheSlots(cfg: Config, states: seq<Machine>, events: seq<Event>, i: nat, o: Text) returns (r: Text)
    requires IsRun(cfg, states, events) && i < |events|
    requires states[i].worker.pc.Claiming? && states[i + 1].worker.pc.Selecting?
    requires |states[i + 1].worker.active| < cfg.maxPreviews
    requires o in states[i + 1].store.operations && states[i + 1].store.operations[o].status == Queued
    ensures r in states[i + 1].worker.active
    ensures states[i + 1].worker.active[r].op.environmentId == states[i + 1].store.operations[o].environmentId
  {
    Reachable(cfg, states, events, i);
    hide Inv, MachineInv, StoreAfter;
    WorkerMoves(cfg, states, events, i);
    assert StepAt(cfg, states, events, i);
    assert events[i].TickClaim? && events[i].pick.None?;
    assert states[i + 1].store == states[i].store by { StoreOnNoClaim(cfg, states[i], events[i]); }
    r := NothingLeft(cfg, states[i], o);
  }

  lemma StoreOnNoClaim(cfg: Config, y: Machine, ev: Event)
    requires ev.TickClaim? && ev.pick.None?
    ensures StoreAfter(cfg, y.store, y.worker, ev) == y.store
  {
  }

  lemma NothingLeft(cfg: Config, y: Machine, o: Text) returns (r: Text)
    requires MachineInv(cfg, y) && y.worker.pc.Claiming? && MayClaim(y.store, y.worker.pc.busy, None)
    requires o in y.store.operations && y.store.operations[o].status == Queued
    ensures r in y.worker.active && y.worker.active[r].op.environmentId == y.store.operations[o].environmentId
  {
    assert OperationOk(y.store, o, y.clock);
    assert !Eligible(y.store, y.worker.pc.busy, o);
    r :| r in y.worker.active && y.worker.active[r].op.environmentId == y.store.operations[o].environmentId;
  }

  /** A queued operation whose environment no driver is working on. */
  predicate Waiting(y: Machine, o: Text) {
    && o in y.store.operations && y.store.operations[o].status == Queued
    && forall r :: r in y.worker.active ==>
         y.worker.active[r].op.environmentId != y.store.operations[o].environmentId
  }

  /** With a slot free, what can be claimed is whatever waits and was requested first; nothing is only if nothing
      waits. */
  lemma ClaimsExactly(cfg: Config, states: seq<Machine>, events: seq<Event>, i: nat, pick: Option<Text>, now: Time)
    requires IsRun(cfg, states, events) && i < |states| && states[i].clock <= now
    requires states[i].worker.pc.Claiming? && |states[i].worker.active| < cfg.maxPreviews
    ensures Enabled(cfg, states[i], TickClaim(pick, now)) <==>
      match pick
      case None => forall k :: !Waiting(states[i], k)
      case Some(o) =>
        && Waiting(states[i], o)
        && forall k :: Waiting(states[i], k) ==>
             states[i].store.operations[o].requestedAt <= states[i].store.operations[k].requestedAt
  {
    Reachable(cfg, states, events, i);
    hide Inv, MachineInv, Waiting, Eligible;
    var y := states[i];
    forall k
      ensures Waiting(y, k) <==> Eligible(y.store, y.worker.pc.busy, k)
      ensures Waiting(y, k) ==> k in y.store.operations
    {
      WaitingIsEligible(cfg, y, k);
    }
  }

  lemma WaitingIsEligible(cfg: Config, y: Machine, k: Text)
    requires MachineInv(cfg, y) && y.worker.pc.Claiming?
    ensures Waiting(y, k) <==> Eligible(y.store, y.worker.pc.busy, k)
    ensures Waiting(y, k) ==> k in y.store.operations
  {
    if k in y.store.operations {
      assert OperationOk(y.store, k, y.clock);
      var e := y.store.operations[k].environmentId;
      assert e in y.worker.pc.busy <==> exists r :: r in y.worker.active && y.worker.active[r].op.environmentId == e;
    }
  }

  /** The loop is never stuck: at any time a tick that has begun goes on, a result received is recorded, and a shutdown
      that waits for results has one to receive or a run that can send one. */
  lemma TheLoopGoesOn(cfg: Config, states: seq<Machine>, events: seq<Event>, i: nat, now: Time) returns (next: Event)
    requires IsRun(cfg, states, events) && i < |states| && states[i].clock <= now
    requires states[i].worker.pc.Selecting? ==> states[i].worker.done != []
    requires states[i].worker.pc.Draining? ==> states[i].worker.pc.left > 0
    ensures Enabled(cfg, states[i], next)
    ensures match states[i].worker.pc
      case Down => next.Start?
      case Selecting => next.TakeResult?
      case Reconciled => next.TickScan?
      case Claiming(_) => next.TickFull? || next.TickClaim?
      case Finishing(_, _) => next.FinishResult?
      case Draining(_) => next.DrainOne? || next.RunReturns?
  {
    match states[i].worker.pc
    case Down => next := Start;
    case Selecting => next := TakeResult;
    case Reconciled => next := TickScan;
    case Finishing(_, _) => next := FinishResult(now);
    case Draining(_) => next := DrainGoesOn(cfg, states, events, i);
    case Claiming(_) =>
      if |states[i].worker.active| >= cfg.maxPreviews {
        next := TickFull;
      } else {
        next := ClaimGoesOn(cfg, states, events, i, now);
      }
  }

  lemma DrainGoesOn(cfg: Config, states: seq<Machine>, events: seq<Event>, i: nat) returns (next: Event)
    requires IsRun(cfg, states, events) && i < |states|
    requires states[i].worker.pc.Draining? && states[i].worker.pc.left > 0
    ensures Enabled(cfg, states[i], next) && (next.DrainOne? || next.RunReturns?)
  {
    if states[i].worker.done != [] {
      next := DrainOne;
    } else {
      Reachable(cfg, states, events, i);
      assert WorkerShape(cfg, states[i].store, states[i].worker);
      var run :| run in states[i].worker.runs;
      next := RunReturns(run, None);
      SendNeverBlocks(cfg, states, events, i, run, None);
    }
  }

  lemma ClaimGoesOn(cfg: Config, states: seq<Machine>, events: seq<Event>, i: nat, now: Time) returns (next: Event)
    requires IsRun(cfg, states, events) && i < |states| && states[i].clock <= now
    requires states[i].worker.pc.Claiming? && |states[i].worker.active| < cfg.maxPreviews
    ensures Enabled(cfg, states[i], next) && next.TickClaim?
  {
    var y := states[i];
    var waiting := set k | k in y.store.operations && Waiting(y, k);
    if waiting == {} {
      next := TickClaim(None, now);
      ClaimsExactly(cfg, states, events, i, None, now);
      assert forall k :: Waiting(y, k) ==> k in waiting;
    } else {
      var o := Earliest(y.store.operations, waiting);
      next := TickClaim(Some(o), now);
      ClaimsExactly(cfg, states, events, i, Some(o), now);
    }
  }

  lemma {:induction false} Earliest(operations: map<Text, Operation>, ks: set<Text>) returns (o: Text)
    requires ks != {} && ks <= operations.Keys
    ensures o in ks && forall k :: k in ks ==> operations[o].requestedAt <= operations[k].requestedAt
    decreases |ks|
  {
    o :| o in ks;
    if ks != {o} {
      var p := Earliest(operations, ks - {o});
      if operations[p].requestedAt < operations[o].requestedAt { o := p; }
    }
  }

  /** A tick with no slot or nothing to claim, and a recorded result, bring the worker back to its wait, with the same
      drivers, runs and results. */
  lemma WaitsAgain(cfg: Config, states: seq<Machine>, events: seq<Event>, i: nat)
    requires IsRun(cfg, states, events) && i < |events|
    requires events[i].TickFull? || events[i].FinishResult? || (events[i].TickClaim? && events[i].pick.None?)
    ensures states[i + 1].worker == states[i].worker.(pc := Selecting)
  {
    assert StepAt(cfg, states, events, i);
  }

  /** A shutdown cancels every driver, and until the process ends none is started again. */
  lemma ShutdownCancels(cfg: Config, states: seq<Machine>, events: seq<Event>, i: nat, o: Text)
    requires IsRun(cfg, states, events) && i < |events| && events[i].Shutdown?
    ensures states[i + 1].worker.active.Keys == states[i].worker.active.Keys
    ensures o in states[i + 1].worker.active ==> states[i + 1].worker.active[o].cancelled
    ensures states[i + 1].store == states[i].store && states[i + 1].worker.runs == states[i].worker.runs
  {
    assert StepAt(cfg, states, events, i);
  }

  /** A start puts what was running back in the queue, to be recovered, and changes nothing else. */
  lemma StartRequeues(cfg: Config, states: seq<Machine>, events: seq<Event>, i: nat, o: Text)
    requires IsRun(cfg, states, events) && i < |events| && events[i].Start?
    ensures states[i + 1].store == states[i].store.(operations := states[i + 1].store.operations)
    ensures o in states[i + 1].store.operations <==> o in states[i].store.operations
    ensures o in states[i].store.operations ==>
        states[i + 1].store.operations[o] ==
          if states[i].store.operations[o].status == Running
          then states[i].store.operations[o].(status := Queued, phase := Recovering) else states[i].store.operations[o]
    ensures states[i + 1].worker == Worker(Selecting, map[], {}, [])
  {
    assert StepAt(cfg, states, events, i);
  }
}
