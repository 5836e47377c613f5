/** The preview quota: when it is kept, and the one call that can break it. */
module Quota {
  import opened Basics
  import opened Lifecycle
  import opened LifecycleInvariant
  import opened LifecycleSteps
  import opened Platform
  import opened Effects
  import opened PlatformProofs
  import opened Runs
  import opened Histories

  /** A delete of an environment that has already been deleted, with a confirmation that passes every check: nothing
      looks at the status again, nor at the quota. */
  predicate Reopens(s: State, ev: Event) {
    && ev.DeleteCall?
    && ev.env in s.environments && s.environments[ev.env].status == Deleted
    && CanWrite(ev.u, s.environments[ev.env]) && s.environments[ev.env].profile == Preview
    && ev.confirmation in s.confirmations
    && s.confirmations[ev.confirmation].actor == ev.u.subject
    && s.confirmations[ev.confirmation].environmentId == s.environments[ev.env].id
    && s.confirmations[ev.confirmation].generation == s.environments[ev.env].generation
    && ev.t0 < s.confirmations[ev.confirmation].expiresAt
  }

  lemma ReopensByDeleting(s: State, ev: Event)
    ensures Reopens(s, ev)
       <==>
            && ev.DeleteCall? && Deletes(s, ev, ev.env, ev.confirmation)
            && ev.env in s.environments && s.environments[ev.env].status == Deleted
  {
  }

  lemma FinishLive(cfg: Config, s: State, t0: Time, opId: Text, failure: Option<Text>, now: Time)
    requires Inv(cfg, s, t0) && t0 <= now
    ensures LiveEnvironments(Finish(s, opId, failure, now).state) <= LiveEnvironments(s)
  {
    if Finishes(s, opId) {
      FinishesFacts(cfg, s, t0, opId, failure, now);
      assert OperationOk(s, opId, t0);
      var env := s.operations[opId].environmentId;
      assert EnvironmentOk(cfg, s, env);
    } else {
      FinishNothing(s, opId, failure, now);
    }
  }

  function Size(s: State): nat { |LiveEnvironments(s)| }

  lemma Grows(a: set<Text>, k: Text)
    ensures |a + {k}| == if k in a then |a| else |a| + 1
  {
    assert k in a ==> a + {k} == a;
  }

  /** How many environments a step adds: one for a reopening, one for a create below the quota, otherwise none. */
  lemma LiveStepSize(cfg: Config, y: Machine, ev: Event)
    requires ValidConfig(cfg) && MachineInv(cfg, y) && Enabled(cfg, y, ev)
    ensures Reopens(y.store, ev) ==> Size(StoreAfter(cfg, y.store, y.worker, ev)) == Size(y.store) + 1
    ensures !Reopens(y.store, ev) ==>
        Size(StoreAfter(cfg, y.store, y.worker, ev))
          <= (if ev.CreateCall? && Size(y.store) < cfg.maxPreviews then Size(y.store) + 1 else Size(y.store))
  {
    if IsEnvironmentCall(ev) {
      CallSize(cfg, y, ev);
    } else if ev.TickReconcile? {
      ReconcileBackground(cfg, y.store, y.clock, ev.order, ev.now, ev.newIds);
    } else if ev.FinishResult? {
      FinishLive(cfg, y.store, y.clock, y.worker.pc.op, y.worker.pc.failure, ev.now);
      SubsetSize(LiveEnvironments(StoreAfter(cfg, y.store, y.worker, ev)), LiveEnvironments(y.store));
    } else {
      OthersKeepEnvironments(cfg, y, ev);
    }
  }

  lemma CallSize(cfg: Config, y: Machine, ev: Event)
    requires MachineInv(cfg, y) && Enabled(cfg, y, ev) && IsEnvironmentCall(ev)
    ensures Reopens(y.store, ev) ==> Size(StoreAfter(cfg, y.store, y.worker, ev)) == Size(y.store) + 1
    ensures !Reopens(y.store, ev) ==>
        Size(StoreAfter(cfg, y.store, y.worker, ev))
          <= (if ev.CreateCall? && Size(y.store) < cfg.maxPreviews then Size(y.store) + 1 else Size(y.store))
  {
    hide Effected, StoreAfter, Delete;
    var f := CallEffect(cfg, y, ev);
    EffectLive(y.store, StoreAfter(cfg, y.store, y.worker, ev), f);
    ReopensByDeleting(y.store, ev);
    if f.Queues? {
      Grows(LiveEnvironments(y.store), f.e.id);
      assert f.e.id in LiveEnvironments(y.store) <==>
        f.e.id in y.store.environments && y.store.environments[f.e.id].status != Deleted;
    }
    if ev.DeleteCall? && f.Queues? { DeleteNeedsEnvironment(y.store, ev); }
  }

  lemma DeleteNeedsEnvironment(s: State, ev: Event)
    requires ev.DeleteCall? && Deletes(s, ev, ev.env, ev.confirmation)
    ensures ev.env in s.environments
  {
  }

  lemma OthersKeepEnvironments(cfg: Config, y: Machine, ev: Event)
    requires !IsEnvironmentCall(ev) && !ev.TickReconcile? && !ev.FinishResult?
    ensures LiveEnvironments(StoreAfter(cfg, y.store, y.worker, ev)) == LiveEnvironments(y.store)
  {
    assert StoreAfter(cfg, y.store, y.worker, ev).environments == y.store.environments;
  }

  lemma SizeStep(cfg: Config, states: seq<Machine>, events: seq<Event>, i: nat)
    requires IsRun(cfg, states, events) && i < |events|
    ensures Reopens(states[i].store, events[i]) ==> Size(states[i + 1].store) == Size(states[i].store) + 1
    ensures !Reopens(states[i].store, events[i]) ==>
        Size(states[i + 1].store) <= (if Size(states[i].store) < cfg.maxPreviews then Size(states[i].store) + 1
                                      else Size(states[i].store))
  {
    Reachable(cfg, states, events, i);
    assert StepAt(cfg, states, events, i);
    LiveStepSize(cfg, states[i], events[i]);
  }

  /** A step from a state within the quota stays within it exactly unless it reopens a deleted environment while the
      quota is full. */
  lemma QuotaKeptExactly(cfg: Config, states: seq<Machine>, events: seq<Event>, i: nat)
    requires IsRun(cfg, states, events) && i < |events| && Size(states[i].store) <= cfg.maxPreviews
    ensures Size(states[i + 1].store) <= cfg.maxPreviews
       <==> !(Reopens(states[i].store, events[i]) && Size(states[i].store) == cfg.maxPreviews)
  {
    SizeStep(cfg, states, events, i);
  }

  ghost function Reopenings(states: seq<Machine>, events: seq<Event>, i: nat): nat
    requires i <= |events| < |states|
  {
    if i == 0 then 0
    else Reopenings(states, events, i - 1) + (if Reopens(states[i - 1].store, events[i - 1]) then 1 else 0)
  }

  /** Along every run the number of environments that are not deleted is at most the quota plus the number of
      reopenings; so it never exceeds the quota in a run without them. */
  lemma {:induction false} QuotaAlongRuns(cfg: Config, states: seq<Machine>, events: seq<Event>, i: nat)
    requires IsRun(cfg, states, events) && i < |states|
    ensures Size(states[i].store) <= cfg.maxPreviews + Reopenings(states, events, i)
  {
    hide StepAt, Reopens;
    if i == 0 {
      assert LiveEnvironments(states[0].store) == {};
    } else {
      QuotaAlongRuns(cfg, states, events, i - 1);
      SizeStep(cfg, states, events, i - 1);
    }
  }

  // ---------------------------------------------------------------- where a reopening comes from

  /** A confirmation asked for, by someone who may write, while the environment is being deleted. */
  predicate LateConfirmation(s: State, ev: Event) {
    && ev.ConfirmCall? && ev.env in s.environments
    && CanWrite(ev.u, s.environments[ev.env]) && s.environments[ev.env].profile == Preview
    && s.environments[ev.env].status == Deleting
  }

  /** The confirmation a reopening uses was issued earlier in the run, while the environment was being deleted. */
  lemma ReopeningWasConfirmedLate(cfg: Config, states: seq<Machine>, events: seq<Event>, j: nat) returns (i: nat)
    requires IsRun(cfg, states, events) && j < |events| && Reopens(states[j].store, events[j])
    ensures i < j && LateConfirmation(states[i].store, events[i])
    ensures events[i].env == events[j].env && events[i].newId == events[j].confirmation
    ensures events[i].u.subject == events[j].u.subject
  {
    var env, c := events[j].env, events[j].confirmation;
    ReopensByDeleting(states[j].store, events[j]);
    i := ConfirmationWasIssued(cfg, states, events, j, c);
    ConfirmedWhileDeleting(cfg, states, events, i, j, events[i].env, c);
  }

  lemma ConfirmedWhileDeleting(cfg: Config, states: seq<Machine>, events: seq<Event>, i: nat, j: nat, env: Text,
                               c: Text)
    requires IsRun(cfg, states, events) && i < j < |events| && Confirms(states[i].store, events[i], env, c)
    requires Reopens(states[j].store, events[j]) && events[j].confirmation == c
    ensures events[j].env == env && LateConfirmation(states[i].store, events[i])
    ensures events[i].u.subject == events[j].u.subject
  {
    hide StepAt;
    ReopensByDeleting(states[j].store, events[j]);
    DeleteSeesWhatWasConfirmed(cfg, states, events, i, j, env, events[j].env, c);
    var e, o := states[i].store.environments[env], states[i].store.environments[env].operationId;
    Reachable(cfg, states, events, i);
    Reachable(cfg, states, events, j);
    assert EnvironmentOk(cfg, states[i].store, env) && EnvironmentOk(cfg, states[j].store, env);
    RunEvolves(cfg, states, events, i, j);
    assert OperationKept(states[i].store, states[j].store, o);
  }

  lemma {:induction false} NoReopenings(cfg: Config, states: seq<Machine>, events: seq<Event>, n: nat)
    requires IsRun(cfg, states, events) && n < |states|
    requires forall i :: 0 <= i < n ==> !LateConfirmation(states[i].store, events[i])
    ensures Reopenings(states, events, n) == 0
  {
    hide StepAt, Reopens, LateConfirmation;
    if n > 0 {
      NoReopenings(cfg, states, events, n - 1);
      if Reopens(states[n - 1].store, events[n - 1]) { var _ := ReopeningWasConfirmedLate(cfg, states, events, n - 1); }
    }
  }

  /** Along every run in which nobody confirms the deletion of an environment that is being deleted,
      the quota is kept. */
  lemma QuotaWithoutLateConfirmations(cfg: Config, states: seq<Machine>, events: seq<Event>, n: nat)
    requires IsRun(cfg, states, events) && n < |states|
    requires forall i :: 0 <= i < n ==> !LateConfirmation(states[i].store, events[i])
    ensures Size(states[n].store) <= cfg.maxPreviews
  {
    NoReopenings(cfg, states, events, n);
    QuotaAlongRuns(cfg, states, events, n);
  }

  // ---------------------------------------------------------------- how the quota is exceeded

  /** A full platform with a cleanup under way goes over quota in four transactions, all of them accepted: confirm
      the deletion again while it is under way, let it succeed, create another preview in the slot it frees, delete
      the first one once more. The first and the last need a caller who may write to the environment, the third
      anyone who may create. */
  lemma FourTransactions(cfg: Config, s: State, t: Time, u: Identity, v: Identity, env: Text, o: Text,
                         request: CreateRequest, key: Text, c: Text, id1: Text, id2: Text)
    returns (s1: State, s2: State, s3: State, s4: State)
    requires ValidConfig(cfg) && Inv(cfg, s, t) && Size(s) == cfg.maxPreviews
    requires env in s.environments && s.environments[env].status == Deleting && CanWrite(u, s.environments[env])
    requires o == s.environments[env].operationId && o in s.operations && s.operations[o].status == Running
    requires CreateRefusal(cfg, v, request, key).None? && cfg.idempotencyKey(v.subject, key) !in s.idempotency
    requires request.id !in s.environments
    requires c !in s.confirmations && id1 !in s.operations && id2 !in s.operations && id1 != id2
    ensures ConfirmDelete(s, u, env, t, c).result.Ok? && s1 == ConfirmDelete(s, u, env, t, c).state
    ensures Finish(s1, o, None, t).result.Ok? && s2 == Finish(s1, o, None, t).state
    ensures Create(cfg, s2, v, request, key, t, id1).result.Ok? && s3 == Create(cfg, s2, v, request, key, t, id1).state
    ensures Delete(s3, u, env, c, t, t, t, id2).result.Ok? && s4 == Delete(s3, u, env, c, t, t, t, id2).state
    ensures Size(s4) == cfg.maxPreviews + 1
  {
    s1 := ConfirmedAgain(cfg, s, t, u, env, c);
    s2 := CleanedUp(cfg, s1, t, env, o);
    Freed(LiveEnvironments(s), env);
    s3 := CreatedInFreedSlot(cfg, s2, t, v, request, key, id1);
    s4 := DeletedAgain(cfg, s3, t, u, env, c, id2);
  }

  lemma ConfirmedAgain(cfg: Config, s: State, t: Time, u: Identity, env: Text, c: Text) returns (s': State)
    requires Inv(cfg, s, t) && env in s.environments && s.environments[env].status == Deleting && c !in s.confirmations
    requires CanWrite(u, s.environments[env])
    ensures s' == ConfirmDelete(s, u, env, t, c).state && ConfirmDelete(s, u, env, t, c).result.Ok?
    ensures Inv(cfg, s', t) && SameRecords(s, s') && s'.idempotency == s.idempotency
    ensures c in s'.confirmations
    ensures s'.confirmations[c] == Confirmation(c, u.subject, env, s.environments[env].generation, t + 5 * MINUTE)
    ensures LiveEnvironments(s') == LiveEnvironments(s)
  {
    assert EnvironmentOk(cfg, s, env);
    s' := ConfirmDelete(s, u, env, t, c).state;
    ConfirmDeleteInv(cfg, s, t, u, env, t, c);
  }

  lemma CreatedInFreedSlot(cfg: Config, s: State, t: Time, u: Identity, request: CreateRequest, key: Text, newId: Text)
    returns (s': State)
    requires ValidConfig(cfg) && Inv(cfg, s, t) && Size(s) < cfg.maxPreviews && newId !in s.operations
    requires CreateRefusal(cfg, u, request, key).None? && cfg.idempotencyKey(u.subject, key) !in s.idempotency
    requires request.id !in s.environments
    ensures s' == Create(cfg, s, u, request, key, t, newId).state
    ensures Create(cfg, s, u, request, key, t, newId).result.Ok?
    ensures Inv(cfg, s', t) && s'.confirmations == s.confirmations && s'.operations.Keys == s.operations.Keys + {newId}
    ensures forall k :: k in s.environments ==> k in s'.environments && s'.environments[k] == s.environments[k]
    ensures Size(s') == Size(s) + 1
  {
    CreateRaises(cfg, s, u, request, key, t, newId);
    CreateInv(cfg, s, t, u, request, key, t, newId);
    hide Create, Inv;
    s' := Create(cfg, s, u, request, key, t, newId).state;
    var f := CreateEffect(cfg, s, u, request, key, t, newId);
    CreateShape(cfg, s, u, request, key, t, newId);
    EnqueueByRecord(s, t, t, Subject(u.subject), Deploy, CreatedEnvironment(cfg, s, u, request, t, newId),
                    request.warm, newId);
    hide Enqueue;
    EffectLive(s, s', f);
    Grows(LiveEnvironments(s), request.id);
  }

  lemma DeletedAgain(cfg: Config, s: State, t: Time, u: Identity, env: Text, c: Text, newId: Text) returns (s': State)
    requires Inv(cfg, s, t) && env in s.environments && s.environments[env].status == Deleted && newId !in s.operations
    requires CanWrite(u, s.environments[env]) && c in s.confirmations
    requires s.confirmations[c] == Confirmation(c, u.subject, env, s.environments[env].generation, t + 5 * MINUTE)
    ensures s' == Delete(s, u, env, c, t, t, t, newId).state && Delete(s, u, env, c, t, t, t, newId).result.Ok?
    ensures Size(s') == Size(s) + 1
  {
    assert EnvironmentOk(cfg, s, env);
    assert Delete(s, u, env, c, t, t, t, newId).result.Ok?;
    hide Delete, Effected;
    s' := Delete(s, u, env, c, t, t, t, newId).state;
    var f := DeleteEffect(cfg, s, u, env, c, t, t, t, newId);
    EffectLive(s, s', f);
    Grows(LiveEnvironments(s), env);
  }

  lemma Freed(a: set<Text>, k: Text)
    requires k in a
    ensures |a - {k}| == |a| - 1
  {
  }

  /** The state after a running cleanup of `env` succeeds. */
  lemma CleanedUp(cfg: Config, s: State, t: Time, env: Text, o: Text) returns (s': State)
    requires Inv(cfg, s, t) && env in s.environments && s.environments[env].status == Deleting
    requires o == s.environments[env].operationId && o in s.operations && s.operations[o].status == Running
    ensures s' == Finish(s, o, None, t).state && Finish(s, o, None, t).result.Ok?
    ensures Inv(cfg, s', t)
    ensures s'.environments == s.environments[env := s.environments[env].(status := Deleted)]
    ensures s'.operations.Keys == s.operations.Keys
    ensures s'.confirmations == s.confirmations && s'.idempotency == s.idempotency
    ensures LiveEnvironments(s') == LiveEnvironments(s) - {env}
  {
    s' := Finish(s, o, None, t).state;
    assert EnvironmentOk(cfg, s, env);
    assert OperationOk(s, o, t);
    FinishesFacts(cfg, s, t, o, None, t);
    FinishInv(cfg, s, t, o, None, t);
  }

  /** `tail` are the states that `more` leads through from `y`. */
  ghost predicate Continues(cfg: Config, y: Machine, tail: seq<Machine>, more: seq<Event>) {
    |tail| == |more| && forall i {:trigger Continued(cfg, y, tail, more, i)} :: 0 <= i < |more| ==>
        Continued(cfg, y, tail, more, i)
  }

  ghost predicate Continued(cfg: Config, y: Machine, tail: seq<Machine>, more: seq<Event>, i: int)
    requires |tail| == |more| && 0 <= i < |more|
  {
    var before := if i == 0 then y else tail[i - 1];
    Enabled(cfg, before, more[i]) && tail[i] == Next(cfg, before, more[i])
  }

  lemma RunContinues(cfg: Config, states: seq<Machine>, events: seq<Event>, tail: seq<Machine>, more: seq<Event>)
    requires IsRun(cfg, states, events) && Continues(cfg, states[|events|], tail, more)
    ensures IsRun(cfg, states + tail, events + more)
  {
    hide Enabled, Next;
    forall i | 0 <= i < |events + more| ensures StepAt(cfg, states + tail, events + more, i) {
      if i < |events| {
        assert StepAt(cfg, states, events, i);
      } else {
        assert Continued(cfg, states[|events|], tail, more, i - |events|);
      }
    }
  }

  /** The platform is full, the worker has just received the success of the cleanup of `env`, `u` may write to it and
      `v` may create what `request` says. */
  ghost predicate MayReopen(cfg: Config, y: Machine, u: Identity, v: Identity, env: Text, request: CreateRequest,
                            key: Text) {
    && Size(y.store) == cfg.maxPreviews
    && env in y.store.environments && y.store.environments[env].status == Deleting
    && CanWrite(u, y.store.environments[env])
    && y.worker.pc == Finishing(y.store.environments[env].operationId, None)
    && y.worker.pc.op in y.store.operations && y.store.operations[y.worker.pc.op].status == Running
    && CreateRefusal(cfg, v, request, key).None? && cfg.idempotencyKey(v.subject, key) !in y.store.idempotency
    && request.id !in y.store.environments
  }

  /** In a run: every reachable full state in which the worker has just received the success of a cleanup extends, by
      four events, to a run that exceeds the quota. */
  lemma ReopeningExceedsTheQuota(cfg: Config, states: seq<Machine>, events: seq<Event>, u: Identity, v: Identity,
                                 env: Text, request: CreateRequest, key: Text, c: Text, id1: Text, id2: Text)
    returns (longer: seq<Machine>, more: seq<Event>)
    requires IsRun(cfg, states, events) && MayReopen(cfg, states[|events|], u, v, env, request, key)
    requires {c, id1, id2} !! states[|events|].issued && c != id1 && c != id2 && id1 != id2
    ensures IsRun(cfg, longer, events + more) && |more| == 4 && longer[..|states|] == states
    ensures Size(longer[|longer| - 1].store) == cfg.maxPreviews + 1
  {
    hide MayReopen, MachineInv;
    var y := states[|events|];
    Reachable(cfg, states, events, |events|);
    more := [ConfirmCall(u, env, y.clock, c), FinishResult(y.clock), CreateCall(v, request, key, y.clock, id1),
             DeleteCall(u, env, c, y.clock, y.clock, y.clock, id2)];
    var tail := FourEvents(cfg, y, u, v, env, request, key, c, id1, id2);
    RunContinues(cfg, states, events, tail, more);
    longer := states + tail;
  }

  lemma FourEvents(cfg: Config, y: Machine, u: Identity, v: Identity, env: Text, request: CreateRequest, key: Text,
                   c: Text, id1: Text, id2: Text)
    returns (tail: seq<Machine>)
    requires ValidConfig(cfg) && MachineInv(cfg, y) && MayReopen(cfg, y, u, v, env, request, key)
    requires {c, id1, id2} !! y.issued && c != id1 && c != id2 && id1 != id2
    ensures Continues(cfg, y, tail, [ConfirmCall(u, env, y.clock, c), FinishResult(y.clock),
                                     CreateCall(v, request, key, y.clock, id1),
                                     DeleteCall(u, env, c, y.clock, y.clock, y.clock, id2)])
    ensures Size(tail[3].store) == cfg.maxPreviews + 1
  {
    hide MachineInv, Inv, Next, Enabled, Create, Delete, Finish, ConfirmDelete, CreateRefusal, CanWrite, Size;
    var t := y.clock;
    KeysIssued(cfg, y);
    var s1, s2, s3, s4 := FourTransactions(cfg, y.store, t, u, v, env, y.worker.pc.op, request, key, c, id1, id2);
    var y1, y2 := ConfirmAndFinish(cfg, y, u, env, c);
    var y3, y4 := CreateAndDelete(cfg, y2, u, v, env, request, key, c, id1, id2);
    tail := [y1, y2, y3, y4];
  }

  lemma ConfirmAndFinish(cfg: Config, y: Machine, u: Identity, env: Text, c: Text) returns (y1: Machine, y2: Machine)
    requires ValidConfig(cfg) && MachineInv(cfg, y) && y.worker.pc.Finishing? && c !in y.issued
    ensures Enabled(cfg, y, ConfirmCall(u, env, y.clock, c)) && y1 == Next(cfg, y, ConfirmCall(u, env, y.clock, c))
    ensures Enabled(cfg, y1, FinishResult(y.clock)) && y2 == Next(cfg, y1, FinishResult(y.clock))
    ensures MachineInv(cfg, y2) && y2.clock == y.clock && y2.issued <= y.issued + {c}
    ensures y2.store == Finish(ConfirmDelete(y.store, u, env, y.clock, c).state, y.worker.pc.op,
                               y.worker.pc.failure, y.clock).state
  {
    hide MachineInv, Next, Enabled, Finish, ConfirmDelete;
    AfterConfirm(cfg, y, u, env, c);
    MachineStep(cfg, y, ConfirmCall(u, env, y.clock, c));
    y1 := Next(cfg, y, ConfirmCall(u, env, y.clock, c));
    AfterFinish(cfg, y1);
    MachineStep(cfg, y1, FinishResult(y.clock));
    y2 := Next(cfg, y1, FinishResult(y.clock));
  }

  lemma CreateAndDelete(cfg: Config, y: Machine, u: Identity, v: Identity, env: Text, request: CreateRequest,
                        key: Text, c: Text, id1: Text, id2: Text)
    returns (y1: Machine, y2: Machine)
    requires ValidConfig(cfg) && MachineInv(cfg, y) && id1 !in y.issued && id2 !in y.issued && id1 != id2
    ensures Enabled(cfg, y, CreateCall(v, request, key, y.clock, id1))
    ensures y1 == Next(cfg, y, CreateCall(v, request, key, y.clock, id1))
    ensures Enabled(cfg, y1, DeleteCall(u, env, c, y.clock, y.clock, y.clock, id2))
    ensures y2 == Next(cfg, y1, DeleteCall(u, env, c, y.clock, y.clock, y.clock, id2))
    ensures y2.store == Delete(Create(cfg, y.store, v, request, key, y.clock, id1).state, u, env, c, y.clock, y.clock,
                               y.clock, id2).state
  {
    hide MachineInv, Next, Enabled, Create, Delete;
    AfterCreate(cfg, y, v, request, key, id1);
    y1 := Next(cfg, y, CreateCall(v, request, key, y.clock, id1));
    AfterDelete(cfg, y1, u, env, c, id2);
    y2 := Next(cfg, y1, DeleteCall(u, env, c, y.clock, y.clock, y.clock, id2));
  }

  lemma KeysIssued(cfg: Config, y: Machine)
    requires MachineInv(cfg, y)
    ensures Inv(cfg, y.store, y.clock) && y.store.operations.Keys <= y.issued && y.store.confirmations.Keys <= y.issued
  {
  }

  /** The machine after an event that happens at once: the store, the worker, and no identifier drawn but `own`. */
  ghost predicate Goes(y: Machine, z: Machine, store: State, pc: Pc, own: set<Text>) {
    z.store == store && z.worker.pc == pc && z.clock == y.clock && z.issued <= y.issued + own
  }

  lemma AfterConfirm(cfg: Config, y: Machine, u: Identity, env: Text, c: Text)
    requires MachineInv(cfg, y) && c !in y.issued
    ensures Enabled(cfg, y, ConfirmCall(u, env, y.clock, c))
    ensures Goes(y, Next(cfg, y, ConfirmCall(u, env, y.clock, c)), ConfirmDelete(y.store, u, env, y.clock, c).state,
                 y.worker.pc, {c})
  {
    ConfirmKeeps(y.store, u, env, y.clock, c);
    ConfirmTokens(y.store, u, env, y.clock, c);
    hide ConfirmDelete, Inv, WorkerInv;
  }

  lemma AfterFinish(cfg: Config, y: Machine)
    requires MachineInv(cfg, y) && y.worker.pc.Finishing?
    ensures Enabled(cfg, y, FinishResult(y.clock))
    ensures Goes(y, Next(cfg, y, FinishResult(y.clock)),
                 Finish(y.store, y.worker.pc.op, y.worker.pc.failure, y.clock).state, Selecting, {})
  {
    hide Finish, Inv;
    FinishStatuses(cfg, y.store, y.clock, y.worker.pc.op, y.worker.pc.failure, y.clock);
    FinishTokens(y.store, y.worker.pc.op, y.worker.pc.failure, y.clock);
  }

  lemma AfterCreate(cfg: Config, y: Machine, v: Identity, request: CreateRequest, key: Text, id: Text)
    requires MachineInv(cfg, y) && id !in y.issued
    ensures Enabled(cfg, y, CreateCall(v, request, key, y.clock, id))
    ensures Goes(y, Next(cfg, y, CreateCall(v, request, key, y.clock, id)),
                 Create(cfg, y.store, v, request, key, y.clock, id).state, y.worker.pc, {id})
  {
    hide Create, WorkerInv, OperationsOk, NoticesOk, KeysOk;
    var f := CreateEffect(cfg, y.store, v, request, key, y.clock, id);
  }

  lemma AfterDelete(cfg: Config, y: Machine, u: Identity, env: Text, c: Text, id: Text)
    requires id !in y.issued
    ensures Enabled(cfg, y, DeleteCall(u, env, c, y.clock, y.clock, y.clock, id))
    ensures Next(cfg, y, DeleteCall(u, env, c, y.clock, y.clock, y.clock, id)).store
         == Delete(y.store, u, env, c, y.clock, y.clock, y.clock, id).state
  {
    hide Delete;
  }
}
