/** When each call succeeds, in terms of the request, the records and what happened before; and the other way round,
    what every refusal means. */
module Answers {
  import opened Basics
  import opened Lifecycle
  import opened LifecycleInvariant
  import opened LifecycleSteps
  import opened Platform
  import opened Effects
  import opened PlatformProofs
  import opened Runs
  import opened Histories
  import opened Ticks

  /** An administrator, or a developer on an environment of their own. */
  predicate MayChange(u: Identity, e: Environment) {
    u.role == Admin || (u.role == Developer && e.owner == u.subject)
  }

  // ---------------------------------------------------------------- create, extend and redeploy

  predicate WellFormed(cfg: Config, r: CreateRequest, key: Text) {
    && cfg.validName(r.id) && cfg.validRevision(r.revision) && cfg.validImage(r.image)
    && 1 <= cfg.length(key) <= 200
  }

  /** Developers and administrators create; a developer for no team or for one of their own. */
  predicate MayCreate(u: Identity, r: CreateRequest) {
    u.role == Admin || (u.role == Developer && (r.team.None? || exists t :: t in u.teams && r.team == Some(t)))
  }

  /** The name is free, or was given up by someone whose environment the caller may replace. */
  predicate NameIsFree(s: State, u: Identity, name: Text) {
    name in s.environments ==>
      s.environments[name].status == Deleted && (u.role == Admin || s.environments[name].owner == u.subject)
  }

  /** A create under a new key succeeds exactly when the request is well formed and for a preview, the caller may make
      it, the name is free and the quota is not used up. */
  lemma CreateAnswer(cfg: Config, s: State, u: Identity, r: CreateRequest, key: Text, now: Time, newId: Text)
    requires EnvironmentsOk(cfg, s) && cfg.idempotencyKey(u.subject, key) !in s.idempotency
    ensures var answer, live := Create(cfg, s, u, r, key, now, newId).result,
                                |set k | k in s.environments && s.environments[k].status != Deleted|;
      && (answer.Ok? <==> WellFormed(cfg, r, key) && r.profile != OtherProfile && MayCreate(u, r)
                          && NameIsFree(s, u, r.id) && live < cfg.maxPreviews)
      && (answer == Err(Invalid) <==> !WellFormed(cfg, r, key))
      && (answer == Err(PersistentProfile) <==> WellFormed(cfg, r, key) && r.profile == OtherProfile)
      && (answer == Err(Conflict) <==> WellFormed(cfg, r, key) && r.profile != OtherProfile && MayCreate(u, r)
                                       && r.id in s.environments && s.environments[r.id].status != Deleted)
      && (answer == Err(QuotaExceeded) <==> WellFormed(cfg, r, key) && r.profile != OtherProfile && MayCreate(u, r)
                                            && NameIsFree(s, u, r.id) && live >= cfg.maxPreviews)
      && (answer.Err? ==> answer.error in {Invalid, PersistentProfile, Forbidden, Conflict, QuotaExceeded})
      && (answer.Ok? ==> answer.value.id == newId)
  {
    assert LiveEnvironments(s) == set k | k in s.environments && s.environments[k].status != Deleted;
    if CreatesFreshly(cfg, s, u, r, key) {
      CreateShape(cfg, s, u, r, key, now, newId);
    }
  }

  /** The expiry an extension asks for. */
  function Wanted(e: Environment, mode: ExtendMode, minutes: int, now: Time): Time
    requires e.expiresAt.Some?
  {
    match mode
    case Add => e.expiresAt.value + minutes * MINUTE
    case _ => now + minutes * MINUTE
  }

  /** An extension succeeds exactly when it is for one minute to a week, names the current generation of an environment
      that the caller may change and that is not being deleted, and ends after now and within the permitted lifetime. */
  lemma ExtendAnswer(cfg: Config, s: State, u: Identity, env: Text, mode: ExtendMode, minutes: int, expected: int,
                     now: Time)
    requires EnvironmentsOk(cfg, s)
    ensures var answer := Extend(cfg, s, u, env, mode, minutes, expected, now).result;
      var sound := 1 <= minutes <= 7 * 24 * 60 && mode != OtherMode;
      && (answer == Err(Invalid) <==> !sound)
      && (answer == Err(NotFound) <==> sound && env !in s.environments)
      && (answer == Err(Forbidden) <==> sound && env in s.environments && !MayChange(u, s.environments[env]))
      && (env in s.environments ==>
            && s.environments[env].expiresAt.Some?
            && var e, next := s.environments[env], Wanted(s.environments[env], mode, minutes, now);
               var open := sound && MayChange(u, e) && e.status !in {Deleting, Deleted} && e.generation == expected;
               && (answer.Ok? <==> open && now < next <= e.createdAt + cfg.maxTtl)
               && (answer == Err(OutsideLifetime) <==> open && !(now < next <= e.createdAt + cfg.maxTtl)))
      && (answer.Ok? ==> env in s.environments)
      && (answer.Err? ==> answer.error in {Invalid, NotFound, Forbidden, Conflict, OutsideLifetime}
                          && Extend(cfg, s, u, env, mode, minutes, expected, now).state == s)
  {
    if env in s.environments { assert EnvironmentOk(cfg, s, env); }
  }

  /** A redeploy succeeds exactly when revision and image are well formed and it names the current generation of an
      environment that the caller may change and that is not being deleted. */
  lemma RedeployAnswer(cfg: Config, s: State, u: Identity, env: Text, revision: Text, image: Text, expected: int,
                       t0: Time, t1: Time, newId: Text)
    requires EnvironmentsOk(cfg, s)
    ensures var answer := Redeploy(cfg, s, u, env, revision, image, expected, t0, t1, newId).result;
      var sound := cfg.validRevision(revision) && cfg.validImage(image);
      && (answer.Ok? <==> sound && env in s.environments && MayChange(u, s.environments[env])
                          && s.environments[env].generation == expected
                          && s.environments[env].status !in {Deleting, Deleted})
      && (answer == Err(Invalid) <==> !sound)
      && (answer == Err(NotFound) <==> sound && env !in s.environments)
      && (answer == Err(Forbidden) <==> sound && env in s.environments && !MayChange(u, s.environments[env]))
      && (answer.Err? ==> answer.error in {Invalid, NotFound, Forbidden, Conflict}
                          && Redeploy(cfg, s, u, env, revision, image, expected, t0, t1, newId).state == s)
  {
    if env in s.environments { assert EnvironmentOk(cfg, s, env); }
  }

  /** A confirmation is given exactly to whoever may change an environment that is not deleted yet; it lasts five
      minutes and is for that caller, environment and generation. */
  lemma ConfirmAnswer(cfg: Config, s: State, u: Identity, env: Text, now: Time, newId: Text)
    requires EnvironmentsOk(cfg, s)
    ensures var r := ConfirmDelete(s, u, env, now, newId);
      && (r.result.Ok? <==> env in s.environments && MayChange(u, s.environments[env])
                            && s.environments[env].status != Deleted)
      && (r.result.Ok? ==> r.state == s.(confirmations := s.confirmations[newId := Confirmation(
                             newId, u.subject, env, s.environments[env].generation, now + 5 * MINUTE)]))
      && (r.result == Err(NotFound) <==> env !in s.environments)
      && (r.result == Err(Forbidden) <==> env in s.environments && !MayChange(u, s.environments[env]))
      && (r.result.Err? ==> r.result.error in {NotFound, Forbidden, Conflict} && r.state == s)
  {
    if env in s.environments { assert EnvironmentOk(cfg, s, env); }
  }

  // ---------------------------------------------------------------- how long a code lasts

  /** A confirmation leaves the records only by being used or by running out, and so does a link code. */
  ghost predicate CodeKept(s: State, s': State, ev: Event, k: Text) {
    && (k in s.confirmations ==>
          || (k in s'.confirmations && s'.confirmations[k] == s.confirmations[k])
          || (ev.DeleteCall? && Deletes(s, ev, ev.env, k))
          || (ev.TickReconcile? && s.confirmations[k].expiresAt <= ev.now)
          || (ev.ConfirmCall? && ev.newId == k))
    && (k in s.linkCodes ==>
          || (k in s'.linkCodes && s'.linkCodes[k] == s.linkCodes[k])
          || Redeems(s, ev, k)
          || (ev.TickReconcile? && s.linkCodes[k].expiresAt <= ev.now)
          || (ev.LinkCodeCall? && ev.newId == k))
  }

  lemma CallKeepsCodes(cfg: Config, y: Machine, ev: Event, k: Text)
    requires MachineInv(cfg, y) && Enabled(cfg, y, ev) && IsEnvironmentCall(ev)
    ensures CodeKept(y.store, StoreAfter(cfg, y.store, y.worker, ev), ev, k)
  {
    hide Create, Extend, Redeploy, Delete, Effected, WorkerInv, CreatesFreshly;
    var f := CallEffect(cfg, y, ev);
    if ev.DeleteCall? { DeleteTokens(y.store, ev.u, ev.env, ev.confirmation, ev.t0, ev.t1, ev.t2, ev.newId); }
    if ev.ConfirmCall? { ConfirmCodes(y.store, ev.u, ev.env, ev.now, ev.newId); }
  }

  lemma ConfirmCodes(s: State, u: Identity, env: Text, now: Time, newId: Text)
    ensures ConfirmDelete(s, u, env, now, newId).state.linkCodes == s.linkCodes
    ensures forall k :: k in s.confirmations && k != newId ==>
        k in ConfirmDelete(s, u, env, now, newId).state.confirmations
        && ConfirmDelete(s, u, env, now, newId).state.confirmations[k] == s.confirmations[k]
  {
  }

  lemma OutboxKeepsCodes(cfg: Config, s: State, w: Worker, ev: Event, k: Text)
    requires IsApiCall(ev) && !IsEnvironmentCall(ev)
    ensures CodeKept(s, StoreAfter(cfg, s, w, ev), ev, k)
  {
    hide Redeem;
    if ev.RedeemCall? {
      RedeemTokens(s, ev.code, ev.channel, ev.tenant, ev.user, ev.destination, ev.t0, ev.t1);
    }
  }

  lemma WorkerKeepsCodes(cfg: Config, s: State, w: Worker, ev: Event, k: Text)
    requires !IsApiCall(ev) && !ev.TickReconcile?
    ensures CodeKept(s, StoreAfter(cfg, s, w, ev), ev, k)
  {
    hide Finish;
    if ev.FinishResult? && w.pc.Finishing? { FinishTokens(s, w.pc.op, w.pc.failure, ev.now); }
  }

  lemma StepKeepsCodes(cfg: Config, states: seq<Machine>, events: seq<Event>, i: nat, k: Text)
    requires IsRun(cfg, states, events) && i < |events|
    ensures CodeKept(states[i].store, states[i + 1].store, events[i], k)
    ensures k in states[i].store.confirmations || k in states[i].store.linkCodes ==>
        !(events[i].ConfirmCall? && events[i].newId == k) && !(events[i].LinkCodeCall? && events[i].newId == k)
    ensures states[i].clock <= Reading(states[i].clock, events[i]) == states[i + 1].clock
  {
    Reachable(cfg, states, events, i);
    assert StepAt(cfg, states, events, i);
    hide StoreAfter, CodeKept, Inv, WorkerInv;
    if IsEnvironmentCall(events[i]) {
      CallKeepsCodes(cfg, states[i], events[i], k);
    } else if IsApiCall(events[i]) {
      OutboxKeepsCodes(cfg, states[i].store, states[i].worker, events[i], k);
    } else if events[i].TickReconcile? {
      TickKeepsCodes(cfg, states, events, i, k);
    } else {
      WorkerKeepsCodes(cfg, states[i].store, states[i].worker, events[i], k);
    }
  }

  lemma TickKeepsCodes(cfg: Config, states: seq<Machine>, events: seq<Event>, i: nat, k: Text)
    requires IsRun(cfg, states, events) && i < |events| && events[i].TickReconcile?
    ensures CodeKept(states[i].store, states[i + 1].store, events[i], k)
  {
    TickOnCodes(cfg, states, events, i, k);
  }

  /** Confirmation `c` has deleted nothing between steps `i` and `j`. */
  predicate Unused(states: seq<Machine>, events: seq<Event>, i: nat, j: nat, c: Text)
    requires i < j <= |events| && |states| == |events| + 1
  {
    forall k :: i < k < j ==> !(events[k].DeleteCall? && Deletes(states[k].store, events[k], events[k].env, c))
  }

  predicate Unredeemed(states: seq<Machine>, events: seq<Event>, i: nat, j: nat, c: Text)
    requires i < j <= |events| && |states| == |events| + 1
  {
    forall k :: i < k < j ==> !Redeems(states[k].store, events[k], c)
  }

  lemma {:induction false} ConfirmationLasts(cfg: Config, states: seq<Machine>, events: seq<Event>, i: nat, j: nat,
                                             c: Text)
    requires IsRun(cfg, states, events) && i < j < |states| && c in states[i + 1].store.confirmations
    requires Unused(states, events, i, j, c) && states[j].clock < states[i + 1].store.confirmations[c].expiresAt
    ensures c in states[j].store.confirmations
    ensures states[j].store.confirmations[c] == states[i + 1].store.confirmations[c]
    decreases j
  {
    hide StepAt, Deletes, Redeems;
    if i + 1 < j {
      StepKeepsCodes(cfg, states, events, j - 1, c);
      ConfirmationLasts(cfg, states, events, i, j - 1, c);
    }
  }

  lemma {:induction false} LinkCodeLasts(cfg: Config, states: seq<Machine>, events: seq<Event>, i: nat, j: nat, c: Text)
    requires IsRun(cfg, states, events) && i < j < |states| && c in states[i + 1].store.linkCodes
    requires Unredeemed(states, events, i, j, c) && states[j].clock < states[i + 1].store.linkCodes[c].expiresAt
    ensures c in states[j].store.linkCodes
    ensures states[j].store.linkCodes[c] == states[i + 1].store.linkCodes[c]
    decreases j
  {
    hide StepAt, Deletes, Redeems;
    if i + 1 < j {
      StepKeepsCodes(cfg, states, events, j - 1, c);
      LinkCodeLasts(cfg, states, events, i, j - 1, c);
    }
  }

  // ---------------------------------------------------------------- delete

  /** Event `i` gave the caller of event `j` the confirmation it deletes with, for this environment at this generation,
      less than five minutes before, and nothing was deleted with it since. */
  ghost predicate ConfirmedFor(states: seq<Machine>, events: seq<Event>, i: nat, j: nat)
    requires i < j < |events| && |states| == |events| + 1 && events[j].DeleteCall?
  {
    var c, env := events[j].confirmation, events[j].env;
    && Confirms(states[i].store, events[i], env, c) && events[i].u.subject == events[j].u.subject
    && env in states[i].store.environments && env in states[j].store.environments
    && states[i].store.environments[env].generation == states[j].store.environments[env].generation
    && events[j].t0 < events[i].now + 5 * MINUTE
    && Unused(states, events, i, j, c)
  }

  /** The converse of what a delete checks: whoever may change the environment and has confirmed its deletion does
      delete it, whatever its status. The record is kept but for status and generation, and a destroy is queued. */
  lemma ConfirmedDeleteSucceeds(cfg: Config, states: seq<Machine>, events: seq<Event>, i: nat, j: nat)
    requires IsRun(cfg, states, events) && i < j < |events| && events[j].DeleteCall?
    requires ConfirmedFor(states, events, i, j)
    requires MayChange(events[j].u, states[j].store.environments[events[j].env])
    ensures Deletes(states[j].store, events[j], events[j].env, events[j].confirmation)
    ensures var env, id := events[j].env, events[j].newId;
      && env in states[j + 1].store.environments && id in states[j + 1].store.operations
      && states[j + 1].store.environments[env] == states[j].store.environments[env].(
           status := Deleting, generation := states[j].store.environments[env].generation + 1, operationId := id)
      && states[j + 1].store.operations[id] == Operation(
           id, env, Subject(events[j].u.subject), Destroy, Queued, InQueue, None, events[j].t2, None, None, map[],
           states[j].store.environments[env].generation + 1, 0, false)
      && events[j].confirmation !in states[j + 1].store.confirmations
  {
    var c, env := events[j].confirmation, events[j].env;
    ConfirmStep(cfg, states, events, i, env, c);
    assert StepAt(cfg, states, events, j);
    ConfirmationLasts(cfg, states, events, i, j, c);
    Reachable(cfg, states, events, j);
    hide IsRun, Unused;
    DeleteGranted(cfg, states[j], events[j]);
  }

  lemma DeleteGranted(cfg: Config, y: Machine, ev: Event)
    requires MachineInv(cfg, y) && Enabled(cfg, y, ev) && ev.DeleteCall? && ev.env in y.store.environments
    requires MayChange(ev.u, y.store.environments[ev.env]) && ev.confirmation in y.store.confirmations
    requires ev.t0 < y.store.confirmations[ev.confirmation].expiresAt
    requires var c := y.store.confirmations[ev.confirmation];
      c.actor == ev.u.subject && c.environmentId == ev.env
      && c.generation == y.store.environments[ev.env].generation
    ensures Deletes(y.store, ev, ev.env, ev.confirmation)
    ensures var s' := StoreAfter(cfg, y.store, y.worker, ev);
      && ev.env in s'.environments && ev.newId in s'.operations && ev.confirmation !in s'.confirmations
      && s'.environments[ev.env] == y.store.environments[ev.env].(
           status := Deleting, generation := y.store.environments[ev.env].generation + 1, operationId := ev.newId)
      && s'.operations[ev.newId] == Operation(
           ev.newId, ev.env, Subject(ev.u.subject), Destroy, Queued, InQueue, None, ev.t2, None, None, map[],
           y.store.environments[ev.env].generation + 1, 0, false)
  {
    assert EnvironmentOk(cfg, y.store, ev.env);
    DeleteTokens(y.store, ev.u, ev.env, ev.confirmation, ev.t0, ev.t1, ev.t2, ev.newId);
    DeleteShape(cfg, y.store, ev.u, ev.env, ev.confirmation, ev.t0, ev.t1, ev.t2, ev.newId);
    EnqueueByRecord(Used(y.store, ev.confirmation), ev.t1, ev.t2, Subject(ev.u.subject), Destroy,
                    DeletingEnvironment(y.store.environments[ev.env]), false, ev.newId);
    assert Deletes(y.store, ev, ev.env, ev.confirmation);
    hide Delete, Enqueue, Inv;
  }

  /** A delete succeeds exactly when the caller may change the environment and an earlier call of the run confirmed it
      for them. */
  lemma DeleteAnswer(cfg: Config, states: seq<Machine>, events: seq<Event>, j: nat)
    requires IsRun(cfg, states, events) && j < |events| && events[j].DeleteCall?
    ensures Deletes(states[j].store, events[j], events[j].env, events[j].confirmation) <==>
      && events[j].env in states[j].store.environments
      && MayChange(events[j].u, states[j].store.environments[events[j].env])
      && exists i: nat :: i < j && ConfirmedFor(states, events, i, j)
  {
    if Deletes(states[j].store, events[j], events[j].env, events[j].confirmation) {
      var i := DeleteWasConfirmed(cfg, states, events, j);
    } else if events[j].env in states[j].store.environments
        && MayChange(events[j].u, states[j].store.environments[events[j].env]) {
      if i: nat :| i < j && ConfirmedFor(states, events, i, j) {
        ConfirmedDeleteSucceeds(cfg, states, events, i, j);
      }
    }
  }

  lemma DeleteWasConfirmed(cfg: Config, states: seq<Machine>, events: seq<Event>, j: nat) returns (i: nat)
    requires IsRun(cfg, states, events) && j < |events| && events[j].DeleteCall?
    requires Deletes(states[j].store, events[j], events[j].env, events[j].confirmation)
    ensures i < j && ConfirmedFor(states, events, i, j)
    ensures events[j].env in states[j].store.environments
    ensures MayChange(events[j].u, states[j].store.environments[events[j].env])
  {
    var c, env := events[j].confirmation, events[j].env;
    Reachable(cfg, states, events, j);
    DeletePassedItsChecks(cfg, states[j], events[j]);
    hide MachineInv, StepAt;
    i := ConfirmationWasIssued(cfg, states, events, j, c);
    ConfirmStep(cfg, states, events, i, env, c);
    forall k | i < k < j && events[k].DeleteCall? ensures !Deletes(states[k].store, events[k], events[k].env, c) {
      if Deletes(states[k].store, events[k], events[k].env, c) {
        ConfirmationWorksOnce(cfg, states, events, k, j, events[k].env, env, c);
      }
    }
  }

  lemma DeletePassedItsChecks(cfg: Config, y: Machine, ev: Event)
    requires MachineInv(cfg, y) && ev.DeleteCall? && Deletes(y.store, ev, ev.env, ev.confirmation)
    ensures ev.env in y.store.environments && MayChange(ev.u, y.store.environments[ev.env])
    ensures ev.confirmation in y.store.confirmations
    ensures var c := y.store.confirmations[ev.confirmation];
      c.actor == ev.u.subject && c.environmentId == ev.env && ev.t0 < c.expiresAt
      && c.generation == y.store.environments[ev.env].generation
  {
    DeleteChecks(cfg, y.store, y.worker, ev, ev.env, ev.confirmation);
  }

  /** Its refusals say what was wrong; they change nothing. */
  lemma DeleteRefusal(cfg: Config, s: State, u: Identity, env: Text, c: Text, t0: Time, t1: Time, t2: Time, newId: Text)
    requires EnvironmentsOk(cfg, s)
    ensures var r := Delete(s, u, env, c, t0, t1, t2, newId);
      && (r.result == Err(NotFound) <==> env !in s.environments)
      && (r.result == Err(Forbidden) <==> env in s.environments && !MayChange(u, s.environments[env]))
      && (r.result.Err? ==> r.result.error in {NotFound, Forbidden, Conflict} && r.state == s)
  {
    if env in s.environments { assert EnvironmentOk(cfg, s, env); }
  }

  // ---------------------------------------------------------------- linking an account

  /** Event `i` drew the code that event `j` redeems, less than five minutes before, and it was not redeemed since. */
  ghost predicate DrawnFor(states: seq<Machine>, events: seq<Event>, i: nat, j: nat)
    requires i < j < |events| && |states| == |events| + 1 && events[j].RedeemCall?
  {
    && events[i].LinkCodeCall? && events[i].newId == events[j].code
    && events[j].t0 < events[i].now + 5 * MINUTE
    && Unredeemed(states, events, i, j, events[j].code)
  }

  /** The account is named in full, on a channel the platform knows. */
  predicate NamesAnAccount(ev: Event)
    requires ev.RedeemCall?
  {
    ev.channel in {Slack, Teams, Google} && ev.tenant.Some? && ev.user.Some? && ev.destination.Some?
  }

  lemma DrawStep(cfg: Config, states: seq<Machine>, events: seq<Event>, i: nat)
    requires IsRun(cfg, states, events) && i < |events| && events[i].LinkCodeCall?
    ensures events[i].newId in states[i + 1].store.linkCodes
    ensures states[i + 1].store.linkCodes[events[i].newId] == LinkCode(events[i].subject, events[i].now + 5 * MINUTE)
  {
    assert StepAt(cfg, states, events, i);
  }

  /** Every link code on record was drawn by an earlier call of the run, and is as it was then. */
  lemma {:induction false} LinkCodeWasDrawn(cfg: Config, states: seq<Machine>, events: seq<Event>, j: nat, c: Text)
    returns (i: nat)
    requires IsRun(cfg, states, events) && j < |states| && c in states[j].store.linkCodes
    ensures i < j && events[i].LinkCodeCall? && events[i].newId == c
    ensures states[j].store.linkCodes[c] == LinkCode(events[i].subject, events[i].now + 5 * MINUTE)
    decreases j
  {
    hide StepAt;
    if j > 0 {
      StepTokens(cfg, states, events, j - 1, c);
      if c in states[j - 1].store.linkCodes {
        StepKeepsCodes(cfg, states, events, j - 1, c);
        i := LinkCodeWasDrawn(cfg, states, events, j - 1, c);
        StaysAway(cfg, states, events, j - 1, c);
      } else {
        i := j - 1;
        DrawStep(cfg, states, events, i);
      }
    }
  }

  lemma StaysAway(cfg: Config, states: seq<Machine>, events: seq<Event>, i: nat, c: Text)
    requires IsRun(cfg, states, events) && i < |events| && c in states[i].store.linkCodes
    ensures c in states[i + 1].store.linkCodes ==>
        states[i + 1].store.linkCodes[c] == states[i].store.linkCodes[c]
  {
    StepKeepsCodes(cfg, states, events, i, c);
    if Redeems(states[i].store, events[i], c) { RedeemedIsGone(cfg, states, events, i, c); }
    if events[i].TickReconcile? { TickOnCodes(cfg, states, events, i, c); }
  }

  lemma RedeemedIsGone(cfg: Config, states: seq<Machine>, events: seq<Event>, i: nat, c: Text)
    requires IsRun(cfg, states, events) && i < |events| && Redeems(states[i].store, events[i], c)
    ensures c !in states[i + 1].store.linkCodes
  {
    assert StepAt(cfg, states, events, i);
    RedeemTokens(states[i].store, c, events[i].channel, events[i].tenant, events[i].user, events[i].destination,
                 events[i].t0, events[i].t1);
  }

  /** A code drawn less than five minutes ago and not redeemed since links the account to whoever drew it, and is used
      up; no other link changes. */
  lemma DrawnCodeLinks(cfg: Config, states: seq<Machine>, events: seq<Event>, i: nat, j: nat)
    requires IsRun(cfg, states, events) && i < j < |events| && events[j].RedeemCall? && NamesAnAccount(events[j])
    requires DrawnFor(states, events, i, j)
    ensures Redeems(states[j].store, events[j], events[j].code)
    ensures events[j].code !in states[j + 1].store.linkCodes
    ensures var account := LinkKey(events[j].channel, events[j].tenant.value, events[j].user.value);
      states[j + 1].store.links
        == states[j].store.links[account := Link(account, events[i].subject, events[j].destination.value)]
    ensures states[j + 1].store.audit == states[j].store.audit +
        [AuditEntry(events[j].t1, Subject(events[i].subject), Linking, OfChannel(events[j].channel), Linked)]
  {
    DrawStep(cfg, states, events, i);
    assert StepAt(cfg, states, events, j);
    LinkCodeLasts(cfg, states, events, i, j, events[j].code);
  }

  /** A redemption succeeds exactly when it names an account in full and an earlier call of the run drew the code. */
  lemma RedeemAnswer(cfg: Config, states: seq<Machine>, events: seq<Event>, j: nat)
    requires IsRun(cfg, states, events) && j < |events| && events[j].RedeemCall?
    ensures Redeems(states[j].store, events[j], events[j].code) <==>
        NamesAnAccount(events[j]) && exists i: nat :: i < j && DrawnFor(states, events, i, j)
    ensures !Redeems(states[j].store, events[j], events[j].code) ==> states[j + 1].store == states[j].store
  {
    assert StepAt(cfg, states, events, j);
    if Redeems(states[j].store, events[j], events[j].code) {
      var c := events[j].code;
      assert c in states[j].store.linkCodes;
      var i := LinkCodeWasDrawn(cfg, states, events, j, c);
      hide StepAt, Next;
      forall k | i < k < j ensures !Redeems(states[k].store, events[k], c) {
        if Redeems(states[k].store, events[k], c) { LinkCodeWorksOnce(cfg, states, events, k, j, c); }
      }
      assert DrawnFor(states, events, i, j);
    } else if NamesAnAccount(events[j]) {
      if i: nat :| i < j && DrawnFor(states, events, i, j) { DrawnCodeLinks(cfg, states, events, i, j); }
    }
  }
}
