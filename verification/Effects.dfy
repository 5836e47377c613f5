/** The calls on environments and the turns of reconciliation, reduced to the few things they can do to the records;
    what all of these leave alone is then proved once. */
module Effects {
  import opened Lifecycle
  import opened LifecycleInvariant
  import opened LifecycleSteps
  import opened Platform

  /** Nothing; new notices about one environment; a queued operation that replaces the current one of
      `e`; a moved expiry. */
  datatype Effect = Keeps | Tells(env: Text) | Queues(stop: Time, op: Operation, e: Environment) | Moves(e: Environment)

  ghost predicate Effected(s: State, s': State, f: Effect) {
    match f
    case Keeps => SameRecords(s, s') && s'.notices == s.notices
    case Tells(env) =>
      SameRecords(s, s') && forall n {:trigger Told(s, s', env, n)} :: Told(s, s', env, n)
    case Queues(stop, op, e) =>
      op.id !in s.operations && op.attempt == 0 && e.status != Deleted && Enqueued(s, s', stop, op, e)
    case Moves(e) =>
      && e.id in s.environments && e.operationId == s.environments[e.id].operationId
      && e.status == s.environments[e.id].status
      && Extended(s, s', e.id, e)
  }

  /** Notice `n` is as it was, or is new and about `env`. */
  ghost predicate Told(s: State, s': State, env: Text, n: NoticeKey) {
    && (n in s.notices ==> n in s'.notices && s'.notices[n] == s.notices[n])
    && (n in s'.notices && n !in s.notices ==> n.environmentId == env && s'.notices[n].attempts == 0)
  }

  predicate SameTokens(s: State, s': State) {
    s'.confirmations == s.confirmations && s'.linkCodes == s.linkCodes
  }

  // ---------------------------------------------------------------- the calls

  predicate IsEnvironmentCall(ev: Event) {
    ev.CreateCall? || ev.ExtendCall? || ev.ConfirmCall? || ev.DeleteCall? || ev.RedeployCall?
  }

  /** The calls that name an environment, and the one they name. */
  predicate Names(ev: Event, env: Text) {
    match ev
    case CreateCall(_, request, _, _, _) => request.id == env
    case ExtendCall(_, k, _, _, _, _) => k == env
    case ConfirmCall(_, k, _, _) => k == env
    case DeleteCall(_, k, _, _, _, _, _) => k == env
    case RedeployCall(_, k, _, _, _, _, _, _) => k == env
    case _ => false
  }

  lemma CreateEffect(cfg: Config, s: State, u: Identity, request: CreateRequest, key: Text, now: Time, newId: Text)
    returns (f: Effect)
    requires EnvironmentsOk(cfg, s) && newId !in s.operations
    ensures Effected(s, Create(cfg, s, u, request, key, now, newId).state, f)
    ensures SameTokens(s, Create(cfg, s, u, request, key, now, newId).state)
    ensures f == Keeps || (f.Queues? && f.e.id == request.id && f.op.id == newId)
    ensures s.audit <= Create(cfg, s, u, request, key, now, newId).state.audit
    ensures f.Queues? <==> CreatesFreshly(cfg, s, u, request, key)
  {
    hide Create;
    if CreatesFreshly(cfg, s, u, request, key) {
      hide Enqueue, CreatesFreshly;
      var e := CreatedEnvironment(cfg, s, u, request, now, newId);
      CreateShape(cfg, s, u, request, key, now, newId);
      EnqueueByRecord(s, now, now, Subject(u.subject), Deploy, e, request.warm, newId);
      f := Queues(now, NewOperation(now, Subject(u.subject), Deploy, e, request.warm, newId), e);
    } else {
      CreateNothing(cfg, s, u, request, key, now, newId);
      f := Keeps;
    }
  }

  lemma ExtendEffect(cfg: Config, s: State, u: Identity, env: Text, mode: ExtendMode, minutes: int, expected: int,
                     now: Time)
    returns (f: Effect)
    requires EnvironmentsOk(cfg, s)
    ensures Effected(s, Extend(cfg, s, u, env, mode, minutes, expected, now).state, f)
    ensures SameTokens(s, Extend(cfg, s, u, env, mode, minutes, expected, now).state)
    ensures f == Keeps || (f.Moves? && f.e.id == env)
    ensures s.audit <= Extend(cfg, s, u, env, mode, minutes, expected, now).state.audit
  {
    var r := Extend(cfg, s, u, env, mode, minutes, expected, now);
    if r.result.Ok? {
      ExtendShape(cfg, s, u, env, mode, minutes, expected, now);
      hide Extend;
      f := Moves(r.result.value);
    } else {
      f := Keeps;
    }
  }

  lemma DeleteEffect(cfg: Config, s: State, u: Identity, env: Text, confirmation: Text, t0: Time, t1: Time, t2: Time,
                     newId: Text)
    returns (f: Effect)
    requires EnvironmentsOk(cfg, s) && newId !in s.operations
    ensures Effected(s, Delete(s, u, env, confirmation, t0, t1, t2, newId).state, f)
    ensures Delete(s, u, env, confirmation, t0, t1, t2, newId).state.linkCodes == s.linkCodes
    ensures Delete(s, u, env, confirmation, t0, t1, t2, newId).state.confirmations
         == (if f.Queues? then s.confirmations - {confirmation} else s.confirmations)
    ensures f == Keeps || (f.Queues? && f.e.id == env)
    ensures s.audit <= Delete(s, u, env, confirmation, t0, t1, t2, newId).state.audit
    ensures f.Queues? <==> Delete(s, u, env, confirmation, t0, t1, t2, newId).result.Ok?
  {
    DeleteShape(cfg, s, u, env, confirmation, t0, t1, t2, newId);
    hide Delete, Enqueue;
    if Delete(s, u, env, confirmation, t0, t1, t2, newId).result.Ok? {
      assert EnvironmentOk(cfg, s, env);
      var e := DeletingEnvironment(s.environments[env]);
      EnqueueByRecord(Used(s, confirmation), t1, t2, Subject(u.subject), Destroy, e, false, newId);
      f := Queues(t1, NewOperation(t2, Subject(u.subject), Destroy, e, false, newId), e);
      hide Enqueued;
      EnqueuedFrom(s, Used(s, confirmation), Delete(s, u, env, confirmation, t0, t1, t2, newId).state, t1, f.op, e);
    } else {
      f := Keeps;
    }
  }

  lemma EnqueuedFrom(s: State, s1: State, s': State, stop: Time, op: Operation, e: Environment)
    requires Enqueued(s1, s', stop, op, e) && SameRecords(s, s1) && s1.notices == s.notices
    ensures Enqueued(s, s', stop, op, e)
  {
  }

  lemma RedeployEffect(cfg: Config, s: State, u: Identity, env: Text, revision: Text, image: Text, expected: int,
                       t0: Time, t1: Time, newId: Text)
    returns (f: Effect)
    requires EnvironmentsOk(cfg, s) && newId !in s.operations
    ensures Effected(s, Redeploy(cfg, s, u, env, revision, image, expected, t0, t1, newId).state, f)
    ensures SameTokens(s, Redeploy(cfg, s, u, env, revision, image, expected, t0, t1, newId).state)
    ensures f == Keeps || (f.Queues? && f.e.id == env && env in s.environments && s.environments[env].status != Deleted)
    ensures s.audit <= Redeploy(cfg, s, u, env, revision, image, expected, t0, t1, newId).state.audit
  {
    RedeployShape(cfg, s, u, env, revision, image, expected, t0, t1, newId);
    if Redeploy(cfg, s, u, env, revision, image, expected, t0, t1, newId).result.Ok? {
      assert s.environments[env].status != Deleted;
      hide Redeploy, Enqueue;
      assert EnvironmentOk(cfg, s, env);
      var e := RedeployedEnvironment(s.environments[env], revision, image);
      EnqueueByRecord(s, t0, t1, Subject(u.subject), Deploy, e, true, newId);
      f := Queues(t0, NewOperation(t1, Subject(u.subject), Deploy, e, true, newId), e);
    } else {
      f := Keeps;
    }
  }

  /** What a call does, to the environment it names. */
  lemma CallEffect(cfg: Config, y: Machine, ev: Event) returns (f: Effect)
    requires EnvironmentsOk(cfg, y.store) && y.store.operations.Keys <= y.issued && Enabled(cfg, y, ev)
    requires IsEnvironmentCall(ev)
    ensures Effected(y.store, StoreAfter(cfg, y.store, y.worker, ev), f)
    ensures !f.Tells? && (f.Queues? || f.Moves? ==> Names(ev, f.e.id))
    ensures y.store.audit <= StoreAfter(cfg, y.store, y.worker, ev).audit
    ensures ev.CreateCall? ==> (f.Queues? <==> CreatesFreshly(cfg, y.store, ev.u, ev.request, ev.key))
    ensures ev.DeleteCall? ==>
        (f.Queues? <==> Delete(y.store, ev.u, ev.env, ev.confirmation, ev.t0, ev.t1, ev.t2, ev.newId).result.Ok?)
    ensures ev.ExtendCall? || ev.ConfirmCall? ==> !f.Queues?
    ensures ev.RedeployCall? && f.Queues? ==>
        f.e.id in y.store.environments && y.store.environments[f.e.id].status != Deleted
    ensures !ev.ConfirmCall? && !ev.DeleteCall? ==> SameTokens(y.store, StoreAfter(cfg, y.store, y.worker, ev))
  {
    hide Create, Extend, Delete, Redeploy, EnvironmentsOk, Effected, CreatesFreshly;
    match ev
    case CreateCall(u, request, key, now, newId) => f := CreateEffect(cfg, y.store, u, request, key, now, newId);
    case ExtendCall(u, env, mode, minutes, expected, now) =>
      f := ExtendEffect(cfg, y.store, u, env, mode, minutes, expected, now);
    case DeleteCall(u, env, confirmation, t0, t1, t2, newId) =>
      f := DeleteEffect(cfg, y.store, u, env, confirmation, t0, t1, t2, newId);
    case RedeployCall(u, env, revision, image, expected, t0, t1, newId) =>
      f := RedeployEffect(cfg, y.store, u, env, revision, image, expected, t0, t1, newId);
    case ConfirmCall(u, env, now, newId) =>
      f := Keeps;
      ConfirmKeeps(y.store, u, env, now, newId);
  }

  lemma ConfirmKeeps(s: State, u: Identity, env: Text, now: Time, newId: Text)
    ensures Effected(s, ConfirmDelete(s, u, env, now, newId).state, Keeps)
    ensures ConfirmDelete(s, u, env, now, newId).state.audit == s.audit
  {
  }

  // ---------------------------------------------------------------- the turns of reconciliation

  lemma TurnEffect(cfg: Config, s: State, k: Text, now: Time, newId: Text) returns (f: Effect)
    requires EnvironmentsOk(cfg, s) && k in s.environments && newId !in s.operations
    ensures Effected(s, ReconcileOne(cfg, s, k, now, newId), f) && SameTokens(s, ReconcileOne(cfg, s, k, now, newId))
    ensures f == Tells(k) || (f.Queues? && f.e.id == k && s.environments[k].status != Deleted)
    ensures f.Queues? <==> Retires(s, k, now)
  {
    hide ReconcileOne, Enqueue, Announced1, Announced2;
    var e := s.environments[k];
    assert EnvironmentOk(cfg, s, k);
    ReconcileOneCases(cfg, s, k, now, newId);
    if Retires(s, k, now) {
      EnqueueByRecord(s, now, now, System, Destroy, DeletingEnvironment(e), false, newId);
      f := Queues(now, NewOperation(now, System, Destroy, DeletingEnvironment(e), false, newId),
                  DeletingEnvironment(e));
    } else {
      var s1 := Announced1(cfg, s, e, now);
      FirstTells(cfg, s, e, now);
      SecondTells(cfg, s1, e, now);
      TellsTwice(s, s1, Announced2(cfg, s1, e, now), k);
      f := Tells(k);
    }
  }

  lemma FirstTells(cfg: Config, s: State, e: Environment, now: Time)
    ensures Effected(s, Announced1(cfg, s, e, now), Tells(e.id)) && SameTokens(s, Announced1(cfg, s, e, now))
  {
    if ExpiryNoticeDue(e, now) { NotifyTells(s, now, Expiring, e, cfg.rfc3339(e.expiresAt.value)); }
    hide Notify, ExpiryNoticeDue;
  }

  lemma SecondTells(cfg: Config, s: State, e: Environment, now: Time)
    ensures Effected(s, Announced2(cfg, s, e, now), Tells(e.id)) && SameTokens(s, Announced2(cfg, s, e, now))
  {
    NotifyTells(s, now, Late, e, e.operationId);
    hide Notify, LateNoticeDue;
  }

  lemma NotifyTells(s: State, now: Time, kind: NoticeKind, e: Environment, op: Text)
    ensures Effected(s, Notify(s, now, kind, e, op), Tells(e.id))
    ensures SameTokens(s, Notify(s, now, kind, e, op))
  {
  }

  lemma TellsTwice(a: State, b: State, c: State, env: Text)
    requires Effected(a, b, Tells(env)) && Effected(b, c, Tells(env))
    ensures Effected(a, c, Tells(env))
  {
    forall n ensures Told(a, c, env, n) { assert Told(a, b, env, n) && Told(b, c, env, n); }
  }

  // ---------------------------------------------------------------- what every effect leaves alone

  /** Seen from the worker, a transaction other than its own leaves a status alone, supersedes a live operation, or
      adds one that is not running. */
  ghost predicate StatusKept(s: State, s': State, k: Text) {
    && (k in s.operations ==>
          && k in s'.operations
          && s'.operations[k].environmentId == s.operations[k].environmentId
          && s'.operations[k].attempt == s.operations[k].attempt
          && (s'.operations[k].status == s.operations[k].status
              || (Live(s.operations[k]) && s'.operations[k].status == Superseded)))
    && (k !in s.operations && k in s'.operations ==>
          s'.operations[k].status in {Queued, Superseded} && s'.operations[k].attempt == 0)
  }

  ghost predicate StatusesKept(s: State, s': State) {
    forall k {:trigger StatusKept(s, s', k)} :: StatusKept(s, s', k)
  }

  /** A transaction other than a lease leaves a notice's attempts and earliest time alone, and starts
      new ones at none. */
  ghost predicate Quiet(s: State, s': State, n: NoticeKey) {
    && (n in s.notices ==>
          n in s'.notices && s'.notices[n].attempts == s.notices[n].attempts
              && s'.notices[n].notBefore == s.notices[n].notBefore)
    && (n !in s.notices && n in s'.notices ==> s'.notices[n].attempts == 0)
  }

  ghost predicate AllQuiet(s: State, s': State) {
    forall n {:trigger Quiet(s, s', n)} :: Quiet(s, s', n)
  }

  lemma EffectStatuses(s: State, s': State, f: Effect)
    requires Effected(s, s', f)
    ensures StatusesKept(s, s')
  {
    forall k ensures StatusKept(s, s', k) {
      if k in s.operations {
        assert k in s'.operations && s'.operations[k].environmentId == s.operations[k].environmentId;
      }
    }
  }

  lemma EffectQuiet(s: State, s': State, f: Effect)
    requires Effected(s, s', f)
    ensures AllQuiet(s, s')
  {
    forall n ensures Quiet(s, s', n) {
      if f.Tells? {
        assert Told(s, s', f.env, n);
      } else if n in s.notices {
        assert n in s'.notices && s'.notices[n].attempts == s.notices[n].attempts;
      }
    }
  }

  /** Only a queued operation adds to the environments that are not deleted. */
  lemma EffectLive(s: State, s': State, f: Effect)
    requires Effected(s, s', f)
    ensures LiveEnvironments(s') == if f.Queues? then LiveEnvironments(s) + {f.e.id} else LiveEnvironments(s)
  {
  }

  // ---------------------------------------------------------------- reconciliation as a whole

  /** What reconciliation leaves as it was. */
  ghost predicate Background(s: State, s': State) {
    StatusesKept(s, s') && AllQuiet(s, s') && LiveEnvironments(s') == LiveEnvironments(s) && SameTokens(s, s')
  }

  lemma BackgroundTransitive(a: State, b: State, c: State)
    requires Background(a, b) && Background(b, c)
    ensures Background(a, c)
  {
    forall k ensures StatusKept(a, c, k) { assert StatusKept(a, b, k) && StatusKept(b, c, k); }
    forall n ensures Quiet(a, c, n) { assert Quiet(a, b, n) && Quiet(b, c, n); }
  }

  lemma TurnBackground(cfg: Config, s: State, k: Text, now: Time, newId: Text)
    requires EnvironmentsOk(cfg, s) && k in s.environments && newId !in s.operations
    ensures Background(s, ReconcileOne(cfg, s, k, now, newId))
  {
    hide ReconcileOne, Effected;
    var f := TurnEffect(cfg, s, k, now, newId);
    var s' := ReconcileOne(cfg, s, k, now, newId);
    EffectStatuses(s, s', f);
    EffectQuiet(s, s', f);
    EffectLive(s, s', f);
  }

  lemma {:induction false} PassBackground(cfg: Config, s: State, order: seq<Text>, now: Time, newIds: map<Text, Text>)
    requires Inv(cfg, s, now) && NewIds(s, order, newIds)
    ensures Background(s, ReconcileAll(cfg, s, order, now, newIds))
    decreases |order|
  {
    hide ReconcileOne, Background;
    if order == [] {
      BackgroundReflexive(s);
    } else if order[0] !in s.environments {
      PassBackground(cfg, s, order[1..], now, newIds);
    } else {
      var k := order[0];
      var s1 := ReconcileOne(cfg, s, k, now, newIds[k]);
      ReconcileOneInv(cfg, s, k, now, newIds[k]);
      TurnBackground(cfg, s, k, now, newIds[k]);
      PassBackground(cfg, s1, order[1..], now, newIds);
      BackgroundTransitive(s, s1, ReconcileAll(cfg, s, order, now, newIds));
    }
  }

  lemma BackgroundReflexive(s: State)
    ensures Background(s, s)
  {
  }

  lemma ReconcileBackground(cfg: Config, s: State, t0: Time, order: seq<Text>, now: Time, newIds: map<Text, Text>)
    requires Inv(cfg, s, t0) && t0 <= now && NewIds(s, order, newIds)
    ensures Background(DropExpired(s, now), Reconcile(cfg, s, order, now, newIds))
    ensures StatusesKept(s, Reconcile(cfg, s, order, now, newIds)) && AllQuiet(s, Reconcile(cfg, s, order, now, newIds))
    ensures LiveEnvironments(Reconcile(cfg, s, order, now, newIds)) == LiveEnvironments(s)
  {
    hide Inv, ReconcileAll;
    var s1, s' := DropExpired(s, now), Reconcile(cfg, s, order, now, newIds);
    DropExpiredInv(cfg, s, t0, now);
    PassBackground(cfg, s1, order, now, newIds);
    forall k ensures StatusKept(s, s', k) { assert StatusKept(s1, s', k); }
    forall n ensures Quiet(s, s', n) { assert Quiet(s1, s', n); }
  }
}
