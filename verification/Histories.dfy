/** What holds of every run: generations, confirmations, link codes, idempotent creation, and work
    that is never lost. */
module Histories {
  import opened Lifecycle
  import opened LifecycleInvariant
  import opened LifecycleSteps
  import opened Platform
  import opened Runs

  // ---------------------------------------------------------------- generations

  function GenerationOf(s: State, env: Text): int {
    if env in s.environments then s.environments[env].generation else 0
  }

  /** A successful call that named generation `g` of `env`. */
  predicate Versioned(cfg: Config, s: State, ev: Event, env: Text, g: int) {
    || (ev.ExtendCall? && ev.env == env && ev.expected == g
        && Extend(cfg, s, ev.u, env, ev.mode, ev.minutes, g, ev.now).result.Ok?)
    || (ev.RedeployCall? && ev.env == env && ev.expected == g
        && Redeploy(cfg, s, ev.u, env, ev.revision, ev.image, g, ev.t0, ev.t1, ev.newId).result.Ok?)
  }

  lemma VersionedRaises(cfg: Config, s: State, w: Worker, ev: Event, env: Text, g: int)
    requires EnvironmentsOk(cfg, s) && Versioned(cfg, s, ev, env, g)
    ensures GenerationOf(s, env) == g >= 1
    ensures GenerationOf(StoreAfter(cfg, s, w, ev), env) == g + 1
  {
    assert EnvironmentOk(cfg, s, env);
    if ev.ExtendCall? {
      ExtendShape(cfg, s, ev.u, env, ev.mode, ev.minutes, g, ev.now);
    } else {
      RedeployShape(cfg, s, ev.u, env, ev.revision, ev.image, g, ev.t0, ev.t1, ev.newId);
    }
  }

  /** A create that is not a repeat starts the environment at the generation after the deleted one's, or at 1. */
  lemma CreateRaises(cfg: Config, s: State, u: Identity, request: CreateRequest, key: Text, now: Time, newId: Text)
    requires EnvironmentsOk(cfg, s) && CreatesFreshly(cfg, s, u, request, key)
    ensures Create(cfg, s, u, request, key, now, newId).result.Ok?
    ensures GenerationOf(Create(cfg, s, u, request, key, now, newId).state, request.id)
        == GenerationOf(s, request.id) + 1
  {
    CreateShape(cfg, s, u, request, key, now, newId);
  }

  /** Expiry and cleanup retries raise the generation; the loop changes nothing else about any other environment. */
  lemma ReconcileRaises(cfg: Config, s: State, k: Text, now: Time, newId: Text, j: Text)
    requires EnvironmentsOk(cfg, s) && k in s.environments && newId !in s.operations
    ensures GenerationOf(ReconcileOne(cfg, s, k, now, newId), k)
        == GenerationOf(s, k) + (if Retires(s, k, now) then 1 else 0)
    ensures j != k && j in s.environments ==>
        && j in ReconcileOne(cfg, s, k, now, newId).environments
        && ReconcileOne(cfg, s, k, now, newId).environments[j] == s.environments[j]
  {
    hide ReconcileOne, Enqueue, Announced1, Announced2, Retires;
    assert EnvironmentOk(cfg, s, k);
    ReconcileOneCases(cfg, s, k, now, newId);
    if Retires(s, k, now) {
      EnqueueByRecord(s, now, now, System, Destroy, DeletingEnvironment(s.environments[k]), false, newId);
    } else {
      AnnouncedRecords(cfg, s, s.environments[k], now);
      AnnouncedRecords(cfg, Announced1(cfg, s, s.environments[k], now), s.environments[k], now);
    }
  }

  lemma VersionedStep(cfg: Config, states: seq<Machine>, events: seq<Event>, i: nat, env: Text, g: int)
    requires IsRun(cfg, states, events) && i < |events| && Versioned(cfg, states[i].store, events[i], env, g)
    ensures GenerationOf(states[i].store, env) == g >= 1 && GenerationOf(states[i + 1].store, env) == g + 1
  {
    Reachable(cfg, states, events, i);
    assert StepAt(cfg, states, events, i);
    VersionedRaises(cfg, states[i].store, states[i].worker, events[i], env, g);
  }

  /** Optimistic concurrency: of all the successful extend and redeploy calls on an environment, each names a later
      generation than the one before, so no two name the same. */
  lemma NoVersionIsUsedTwice(cfg: Config, states: seq<Machine>, events: seq<Event>, i: nat, j: nat, env: Text, g: int,
                             h: int)
    requires IsRun(cfg, states, events) && i < j < |events|
    requires Versioned(cfg, states[i].store, events[i], env, g)
    requires Versioned(cfg, states[j].store, events[j], env, h)
    ensures g < h
  {
    VersionedStep(cfg, states, events, i, env, g);
    VersionedStep(cfg, states, events, j, env, h);
    RunEvolves(cfg, states, events, i + 1, j);
    assert EnvironmentKept(states[i + 1].store, states[j].store, env);
  }

  // ---------------------------------------------------------------- confirmations

  /** A successful delete of `env` by `u` with confirmation `c`. */
  predicate Deletes(s: State, ev: Event, env: Text, c: Text) {
    ev.DeleteCall? && ev.env == env && ev.confirmation == c
        && Delete(s, ev.u, env, c, ev.t0, ev.t1, ev.t2, ev.newId).result.Ok?
  }

  lemma DeleteChecks(cfg: Config, s: State, w: Worker, ev: Event, env: Text, c: Text)
    requires EnvironmentsOk(cfg, s) && Deletes(s, ev, env, c)
    ensures env in s.environments && c in s.confirmations
    ensures s.confirmations[c].environmentId == env && s.confirmations[c].actor == ev.u.subject
    ensures s.confirmations[c].generation == GenerationOf(s, env) && ev.t0 < s.confirmations[c].expiresAt
    ensures c !in StoreAfter(cfg, s, w, ev).confirmations
    ensures GenerationOf(StoreAfter(cfg, s, w, ev), env) == GenerationOf(s, env) + 1
  {
    assert EnvironmentOk(cfg, s, env);
    DeleteShape(cfg, s, ev.u, env, c, ev.t0, ev.t1, ev.t2, ev.newId);
    DeleteTokens(s, ev.u, env, c, ev.t0, ev.t1, ev.t2, ev.newId);
  }

  lemma DeleteStep(cfg: Config, states: seq<Machine>, events: seq<Event>, i: nat, env: Text, c: Text)
    requires IsRun(cfg, states, events) && i < |events| && Deletes(states[i].store, events[i], env, c)
    ensures c in states[i].store.confirmations && c in states[i + 1].issued && c !in states[i + 1].store.confirmations
    ensures env in states[i].store.environments && states[i].store.confirmations[c].environmentId == env
    ensures states[i].store.confirmations[c].actor == events[i].u.subject
    ensures states[i].store.confirmations[c].generation == states[i].store.environments[env].generation
  {
    StepEvolves(cfg, states, events, i);
    assert StepAt(cfg, states, events, i);
    DeleteChecks(cfg, states[i].store, states[i].worker, events[i], env, c);
  }

  /** A confirmation works at most once. */
  lemma ConfirmationWorksOnce(cfg: Config, states: seq<Machine>, events: seq<Event>, i: nat, j: nat, env: Text,
                              other: Text, c: Text)
    requires IsRun(cfg, states, events) && i < j < |events|
    requires Deletes(states[i].store, events[i], env, c)
    ensures !Deletes(states[j].store, events[j], other, c)
  {
    DeleteStep(cfg, states, events, i, env, c);
    ConfirmationStaysGone(cfg, states, events, i + 1, j, c);
  }

  /** `ev` redeems link code `c`. */
  predicate Redeems(s: State, ev: Event, c: Text) {
    ev.RedeemCall? && ev.code == c && Redeem(s, c, ev.channel, ev.tenant, ev.user, ev.destination, ev.t0,
                                             ev.t1).result.Ok?
  }

  /** A link code links at most one account, once. */
  lemma LinkCodeWorksOnce(cfg: Config, states: seq<Machine>, events: seq<Event>, i: nat, j: nat, c: Text)
    requires IsRun(cfg, states, events) && i < j < |events|
    requires Redeems(states[i].store, events[i], c)
    ensures !Redeems(states[j].store, events[j], c)
  {
    Issued(cfg, states, events, i);
    assert StepAt(cfg, states, events, i);
    RedeemTokens(states[i].store, c, events[i].channel, events[i].tenant, events[i].user, events[i].destination,
                 events[i].t0, events[i].t1);
    LinkCodeStaysGone(cfg, states, events, i + 1, j, c);
  }

  /** `ev` obtains confirmation `c` for `env`. */
  predicate Confirms(s: State, ev: Event, env: Text, c: Text) {
    ev.ConfirmCall? && ev.env == env && ev.newId == c && ConfirmDelete(s, ev.u, env, ev.now, c).result.Ok?
  }

  lemma ConfirmStep(cfg: Config, states: seq<Machine>, events: seq<Event>, i: nat, env: Text, c: Text)
    requires IsRun(cfg, states, events) && i < |events| && Confirms(states[i].store, events[i], env, c)
    ensures env in states[i].store.environments && c in states[i + 1].store.confirmations
    ensures states[i + 1].store.confirmations[c] ==
            Confirmation(c, events[i].u.subject, env, states[i].store.environments[env].generation,
                         events[i].now + 5 * MINUTE)
    ensures states[i + 1].store.environments == states[i].store.environments
  {
    Reachable(cfg, states, events, i);
    assert StepAt(cfg, states, events, i);
    assert EnvironmentOk(cfg, states[i].store, env);
  }

  /** What a delete destroys is what was confirmed: the same caller on the same environment, whose owner,
      team, image, revision, expiry and generation are as they were when the confirmation was issued. Only its
      status may have moved. */
  lemma DeleteSeesWhatWasConfirmed(cfg: Config, states: seq<Machine>, events: seq<Event>, i: nat, j: nat, env: Text,
                                   target: Text, c: Text)
    requires IsRun(cfg, states, events) && i < j < |events|
    requires Confirms(states[i].store, events[i], env, c) && Deletes(states[j].store, events[j], target, c)
    ensures target == env && events[j].u.subject == events[i].u.subject
    ensures env in states[i].store.environments && env in states[j].store.environments
    ensures states[j].store.environments[env]
        == states[i].store.environments[env].(status := states[j].store.environments[env].status)
  {
    ConfirmStep(cfg, states, events, i, env, c);
    DeleteStep(cfg, states, events, j, target, c);
    RunEvolves(cfg, states, events, i + 1, j);
    assert KeyKept(states[i + 1].store, states[j].store, c);
    assert EnvironmentKept(states[i + 1].store, states[j].store, env);
  }

  /** Every confirmation on record was issued earlier in the run, by a call that obtained it, and has
      not changed since. */
  lemma {:induction false} ConfirmationWasIssued(cfg: Config, states: seq<Machine>, events: seq<Event>, j: nat, c: Text)
    returns (i: nat)
    requires IsRun(cfg, states, events) && j < |states| && c in states[j].store.confirmations
    ensures i < j && Confirms(states[i].store, events[i], states[j].store.confirmations[c].environmentId, c)
    ensures c in states[i + 1].store.confirmations
    ensures states[i + 1].store.confirmations[c] == states[j].store.confirmations[c]
    decreases j
  {
    hide MachineInv;
    if j > 0 && c in states[j - 1].store.confirmations {
      i := ConfirmationWasIssued(cfg, states, events, j - 1, c);
      StepEvolves(cfg, states, events, j - 1);
      assert KeyKept(states[j - 1].store, states[j].store, c);
    } else if j > 0 {
      i := j - 1;
      StepTokens(cfg, states, events, i, c);
      assert StepAt(cfg, states, events, i);
      ConfirmStep(cfg, states, events, i, events[i].env, c);
    }
  }

  // ---------------------------------------------------------------- idempotent creation

  /** A create that made operation `o`. */
  predicate MadeBy(cfg: Config, s: State, ev: Event, ik: Text) {
    ev.CreateCall? && cfg.idempotencyKey(ev.u.subject, ev.key) == ik && CreatesFreshly(cfg, s, ev.u, ev.request, ev.key)
  }

  /** After a create has made an operation, every later create under the same idempotency key changes nothing. It
      returns that operation, however far it has got, if the request is the same, and conflicts if it is not. */
  lemma CreatedOnce(cfg: Config, states: seq<Machine>, events: seq<Event>, i: nat, j: nat, ik: Text)
    requires IsRun(cfg, states, events) && i < j < |events| && MadeBy(cfg, states[i].store, events[i], ik)
    requires events[j].CreateCall? && cfg.idempotencyKey(events[j].u.subject, events[j].key) == ik
    ensures states[j + 1].store == states[j].store
    ensures events[i].newId in states[j].store.operations
    ensures CreateRefusal(cfg, events[j].u, events[j].request, events[j].key).None? ==>
        Create(cfg, states[j].store, events[j].u, events[j].request, events[j].key, events[j].now,
               events[j].newId).result ==
          if Normalized(events[j].request) == Normalized(events[i].request)
              then Ok(states[j].store.operations[events[i].newId]) else Err(Conflict)
  {
    hide OperationsEvolve, EnvironmentsEvolve, NoticesEvolve, EnvironmentsOk, OperationsOk, NoticesOk, WorkerInv,
        WorkerAfter, Admit, LiveEnvironments;
    Reachable(cfg, states, events, i);
    assert StepAt(cfg, states, events, i);
    CreateShape(cfg, states[i].store, events[i].u, events[i].request, events[i].key, events[i].now, events[i].newId);
    RunEvolves(cfg, states, events, i + 1, j);
    assert KeyKept(states[i + 1].store, states[j].store, ik);
    Reachable(cfg, states, events, j);
    assert IdempotencyOk(states[j].store, ik);
    assert StepAt(cfg, states, events, j);
  }

  // ---------------------------------------------------------------- work and its end

  /** Once an operation is terminal its record never changes again. */
  lemma TerminalIsFinal(cfg: Config, states: seq<Machine>, events: seq<Event>, i: nat, j: nat, o: Text)
    requires IsRun(cfg, states, events) && i <= j < |states|
    requires o in states[i].store.operations && !Live(states[i].store.operations[o])
    ensures o in states[j].store.operations && states[j].store.operations[o] == states[i].store.operations[o]
  {
    RunEvolves(cfg, states, events, i, j);
    assert OperationKept(states[i].store, states[j].store, o);
  }

  /** A crash takes nothing from the durable state, and the next start has every live operation
      waiting to be claimed. */
  lemma CrashLosesNoWork(cfg: Config, states: seq<Machine>, events: seq<Event>, i: nat, o: Text)
    requires IsRun(cfg, states, events) && i < |events| && o in states[i].store.operations
    requires Live(states[i].store.operations[o])
    ensures events[i].Crash? ==> states[i + 1].store == states[i].store
    ensures events[i].Start? ==>
        && o in states[i + 1].store.operations && states[i + 1].store.operations[o].status == Queued
        && Eligible(states[i + 1].store, {}, o)
  {
    StepEvolves(cfg, states, events, i);
    assert StepAt(cfg, states, events, i);
    if events[i].Start? {
      assert OperationOk(states[i].store, o, states[i].clock);
      assert OperationOk(states[i + 1].store, o, states[i + 1].clock);
    }
  }
}
