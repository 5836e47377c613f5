/** Who may change what: a call touches one environment only, and only on behalf of someone who may write to it. */
module Access {
  import opened Basics
  import opened Lifecycle
  import opened LifecycleInvariant
  import opened LifecycleSteps
  import opened Platform
  import opened Effects
  import opened Runs

  /** Everything about environment `env` is as it was: its record, its operations and its notices. */
  ghost predicate AsBefore(s: State, s': State, env: Text) {
    && (env in s'.environments <==> env in s.environments)
    && (env in s.environments ==> s'.environments[env] == s.environments[env])
    && (forall o {:trigger o in s'.operations} :: o in s.operations && s.operations[o].environmentId == env ==>
          o in s'.operations && s'.operations[o] == s.operations[o])
    && (forall o {:trigger o in s'.operations} :: o in s'.operations && s'.operations[o].environmentId == env ==>
        o in s.operations)
    && (forall n: NoticeKey {:trigger n in s'.notices} :: n.environmentId == env ==>
          (n in s'.notices <==> n in s.notices) && (n in s.notices ==> s'.notices[n] == s.notices[n]))
  }

  lemma EnqueuedTouchesOne(cfg: Config, s: State, s': State, t: Time, t1: Time, op: Operation, e: Environment,
                           env: Text)
    requires Inv(cfg, s, t) && op.id !in s.operations && env != e.id && Enqueued(s, s', t1, op, e)
    ensures AsBefore(s, s', env)
  {
    if e.id in s.environments { assert EnvironmentOk(cfg, s, e.id); }
    forall n: NoticeKey | n in s.notices && n.environmentId == env
      ensures s'.notices[n] == s.notices[n]
    {
      assert NoticeOk(cfg, s, n);
    }
  }

  lemma ExtendedTouchesOne(cfg: Config, s: State, s': State, t: Time, k: Text, e: Environment, other: Text)
    requires Inv(cfg, s, t) && k in s.environments && e.operationId == s.environments[k].operationId && other != k
    requires Extended(s, s', k, e)
    ensures AsBefore(s, s', other)
  {
    assert EnvironmentOk(cfg, s, k);
    forall n: NoticeKey | n in s.notices && n.environmentId == other
      ensures s'.notices[n] == s.notices[n]
    {
      assert NoticeOk(cfg, s, n);
    }
  }

  // ---------------------------------------------------------------- runs

  /** A call leaves every environment it does not name alone, with its operations and its notices. */
  lemma CallsTouchOneEnvironment(cfg: Config, states: seq<Machine>, events: seq<Event>, i: nat, env: Text)
    requires IsRun(cfg, states, events) && i < |events| && IsEnvironmentCall(events[i]) && !Names(events[i], env)
    ensures AsBefore(states[i].store, states[i + 1].store, env)
  {
    Reachable(cfg, states, events, i);
    assert StepAt(cfg, states, events, i);
    CallTouchesOne(cfg, states[i], events[i], env);
  }

  lemma CallTouchesOne(cfg: Config, y: Machine, ev: Event, env: Text)
    requires MachineInv(cfg, y) && Enabled(cfg, y, ev) && IsEnvironmentCall(ev) && !Names(ev, env)
    ensures AsBefore(y.store, StoreAfter(cfg, y.store, y.worker, ev), env)
  {
    var f := CallEffect(cfg, y, ev);
    EffectTouchesOne(cfg, y.store, StoreAfter(cfg, y.store, y.worker, ev), y.clock, f, env);
  }

  lemma EffectTouchesOne(cfg: Config, s: State, s': State, t: Time, f: Effect, env: Text)
    requires Inv(cfg, s, t) && Effected(s, s', f) && !f.Tells? && (f.Queues? || f.Moves? ==> f.e.id != env)
    ensures AsBefore(s, s', env)
  {
    match f
    case Queues(stop, op, e) => EnqueuedTouchesOne(cfg, s, s', t, stop, op, e, env);
    case Moves(e) => ExtendedTouchesOne(cfg, s, s', t, e.id, e, env);
    case _ =>
  }

  /** An environment's record changes through a call only if the caller may write to it: an administrator, or the
      developer who owns it. Creating over a deleted environment is no exception. */
  lemma ChangesNeedWriteAccess(cfg: Config, states: seq<Machine>, events: seq<Event>, i: nat, env: Text)
    requires IsRun(cfg, states, events) && i < |events| && IsEnvironmentCall(events[i])
    requires env in states[i].store.environments
    ensures env in states[i + 1].store.environments
    ensures states[i + 1].store.environments[env] != states[i].store.environments[env] ==>
        CanWrite(events[i].u, states[i].store.environments[env])
  {
    hide StoreAfter, WorkerAfter, Enabled;
    StepEvolves(cfg, states, events, i);
    assert EnvironmentKept(states[i].store, states[i + 1].store, env);
    assert EnvironmentOk(cfg, states[i].store, env);
    assert StepAt(cfg, states, events, i);
    if !Names(events[i], env) {
      CallsTouchOneEnvironment(cfg, states, events, i, env);
    } else if !CanWrite(events[i].u, states[i].store.environments[env]) {
      RefusedWithoutAccess(cfg, states[i].store, states[i].worker, events[i], env);
    }
  }

  lemma RefusedWithoutAccess(cfg: Config, s: State, w: Worker, ev: Event, env: Text)
    requires IsEnvironmentCall(ev) && Names(ev, env) && env in s.environments && s.environments[env].profile == Preview
    requires !CanWrite(ev.u, s.environments[env])
    ensures StoreAfter(cfg, s, w, ev) == s
  {
    match ev
    case CreateCall(u, request, key, now, newId) => CreateNothing(cfg, s, u, request, key, now, newId);
    case _ =>
  }

  // ---------------------------------------------------------------- what a call leaves of the environment it names

  /** Operation `o` is the only one of environment `env` that is queued or running. */
  ghost predicate OnlyUnderWay(s: State, env: Text, o: Text) {
    && o in s.operations && Live(s.operations[o]) && s.operations[o].environmentId == env
    && forall p :: p in s.operations && s.operations[p].environmentId == env && Live(s.operations[p]) ==> p == o
  }

  lemma EnqueuedAlone(cfg: Config, s: State, s': State, t: Time, stop: Time, op: Operation, e: Environment)
    requires Inv(cfg, s, t) && op.id !in s.operations && Enqueued(s, s', stop, op, e)
    ensures OnlyUnderWay(s', e.id, op.id)
  {
    forall p | p in s'.operations && s'.operations[p].environmentId == e.id
        && Live(s'.operations[p]) ensures p == op.id {
      assert p in s.operations ==> OperationOk(s, p, t);
    }
  }

  /** The new operation takes over: what was under way in the environment is superseded at `stop`, its undelivered
      notices are withdrawn, and no other operation or notice changes. */
  ghost predicate TakesOver(s: State, s': State, env: Text, stop: Time, op: Operation) {
    && OnlyUnderWay(s', env, op.id) && s'.operations[op.id] == op
    && s'.operations.Keys == s.operations.Keys + {op.id}
    && (forall o {:trigger s'.operations[o]} :: o in s.operations ==>
          s'.operations[o] == if s.operations[o].environmentId == env && Live(s.operations[o])
                              then s.operations[o].(status := Superseded, finishedAt := Some(stop))
                              else s.operations[o])
    && s'.notices.Keys == s.notices.Keys
    && (forall n {:trigger s'.notices[n]} :: n in s.notices ==>
          s'.notices[n] == if n.environmentId == env && !s.notices[n].delivered
                           then s.notices[n].(cancelled := true) else s.notices[n])
  }

  lemma EnqueuedTakesOver(cfg: Config, s: State, s': State, t: Time, stop: Time, op: Operation, e: Environment)
    requires Inv(cfg, s, t) && op.id !in s.operations && Enqueued(s, s', stop, op, e)
    ensures TakesOver(s, s', e.id, stop, op)
  {
    EnqueuedAlone(cfg, s, s', t, stop, op, e);
    forall o | o in s.operations
      ensures s.operations[o].environmentId == e.id && Live(s.operations[o]) ==> IsCurrent(s, e.id, o)
      ensures IsCurrent(s, e.id, o) ==> s.operations[o].environmentId == e.id
    {
      assert OperationOk(s, o, t);
      if e.id in s.environments { assert EnvironmentOk(cfg, s, e.id); }
    }
    forall n | n in s.notices ensures s.notices[n].key == n { assert NoticeOk(cfg, s, n); }
  }

  /** A create that makes an operation: a pending environment of the caller's, to expire one lifetime from now, one
      generation above the deleted one's, with a queued deployment requested now; the request is kept under its key. */
  lemma CreateMakes(cfg: Config, s: State, t: Time, u: Identity, request: CreateRequest, key: Text, now: Time,
                    newId: Text)
    requires Inv(cfg, s, t) && newId !in s.operations && CreatesFreshly(cfg, s, u, request, key)
    ensures var s' := Create(cfg, s, u, request, key, now, newId).state;
      var generation := if request.id in s.environments then s.environments[request.id].generation + 1 else 1;
      var op := Operation(newId, request.id, Subject(u.subject), Deploy, Queued, InQueue, None, now, None, None, map[],
                          generation, 0, request.warm);
      && TakesOver(s, s', request.id, now, op)
      && s'.environments == s.environments[request.id := Environment(
           request.id, u.subject, request.team, Preview, cfg.provider, request.revision, request.image, Pending,
           cfg.url(request.id), now, Some(now + cfg.ttl), generation, newId)]
      && s'.idempotency == s.idempotency[cfg.idempotencyKey(u.subject, key) := newId]
      && s'.payloads == s.payloads[cfg.idempotencyKey(u.subject, key) := request.(profile := Preview)]
      && s'.confirmations == s.confirmations
      && s'.audit == s.audit + [AuditEntry(now, Subject(u.subject), OfAction(Deploy), OfEnvironment(request.id),
                                           Reached(Queued))]
  {
    CreateShape(cfg, s, u, request, key, now, newId);
    assert Normalized(request) == request.(profile := Preview);
    hide Create, Created, TakesOver, Inv;
    CreatedTakesOver(cfg, s, t, u, request, key, now, newId);
  }

  lemma CreatedTakesOver(cfg: Config, s: State, t: Time, u: Identity, request: CreateRequest, key: Text, now: Time,
                         newId: Text)
    requires Inv(cfg, s, t) && newId !in s.operations
    ensures var s', e := Created(cfg, s, u, request, key, now, newId),
                         CreatedEnvironment(cfg, s, u, request, now, newId);
      && TakesOver(s, s', request.id, now, NewOperation(now, Subject(u.subject), Deploy, e, request.warm, newId))
      && s'.environments == s.environments[request.id := e]
      && s'.idempotency == s.idempotency[cfg.idempotencyKey(u.subject, key) := newId]
      && s'.payloads == s.payloads[cfg.idempotencyKey(u.subject, key) := Normalized(request)]
      && s'.confirmations == s.confirmations
      && s'.audit == s.audit + [AuditEntry(now, Subject(u.subject), OfAction(Deploy), OfEnvironment(request.id),
                                           Reached(Queued))]
  {
    hide Enqueue, Inv;
    var e := CreatedEnvironment(cfg, s, u, request, now, newId);
    var s1 := Enqueue(s, now, now, Subject(u.subject), Deploy, e, request.warm, newId);
    var op := NewOperation(now, Subject(u.subject), Deploy, e, request.warm, newId);
    EnqueueByRecord(s, now, now, Subject(u.subject), Deploy, e, request.warm, newId);
    EnqueuedTakesOver(cfg, s, s1, t, now, op, e);
    assert e.(operationId := newId) == e;
  }

  /** A redeploy changes the image and revision and nothing else that the owner set, and a new deployment takes over. */
  lemma RedeployMakes(cfg: Config, s: State, t: Time, u: Identity, env: Text, revision: Text, image: Text,
                      expected: int, t0: Time, t1: Time, newId: Text)
    requires Inv(cfg, s, t) && newId !in s.operations
    requires Redeploy(cfg, s, u, env, revision, image, expected, t0, t1, newId).result.Ok?
    ensures env in s.environments
    ensures var s' := Redeploy(cfg, s, u, env, revision, image, expected, t0, t1, newId).state;
      && TakesOver(s, s', env, t0, Operation(newId, env, Subject(u.subject), Deploy, Queued, InQueue, None, t1, None,
                                             None, map[], expected + 1, 0, true))
      && s'.environments == s.environments[env := s.environments[env].(
           revision := revision, image := image, generation := expected + 1, status := Pending, operationId := newId)]
      && SameKeys(s, s')
      && s'.audit == s.audit + [AuditEntry(t1, Subject(u.subject), OfAction(Deploy), OfEnvironment(env),
                                           Reached(Queued))]
  {
    RedeployShape(cfg, s, u, env, revision, image, expected, t0, t1, newId);
    assert EnvironmentOk(cfg, s, env);
    assert s.environments[env].generation == expected;
    hide Redeploy, Enqueue, Inv;
    var e := RedeployedEnvironment(s.environments[env], revision, image);
    EnqueueByRecord(s, t0, t1, Subject(u.subject), Deploy, e, true, newId);
    EnqueuedTakesOver(cfg, s, Enqueue(s, t0, t1, Subject(u.subject), Deploy, e, true, newId), t, t0,
                      NewOperation(t1, Subject(u.subject), Deploy, e, true, newId), e);
  }

  /** A delete leaves the record as confirmed but for its status and generation, and a queued destroy takes over. */
  lemma DeleteMakes(cfg: Config, s: State, t: Time, u: Identity, env: Text, confirmation: Text, t0: Time, t1: Time,
                    t2: Time, newId: Text)
    requires Inv(cfg, s, t) && newId !in s.operations
    requires Delete(s, u, env, confirmation, t0, t1, t2, newId).result.Ok?
    ensures env in s.environments
    ensures var s' := Delete(s, u, env, confirmation, t0, t1, t2, newId).state;
      var generation := s.environments[env].generation + 1;
      && TakesOver(s, s', env, t1, Operation(newId, env, Subject(u.subject), Destroy, Queued, InQueue, None, t2, None,
                                             None, map[], generation, 0, false))
      && s'.environments == s.environments[env := s.environments[env].(
           generation := generation, status := Deleting, operationId := newId)]
      && s'.confirmations == s.confirmations - {confirmation} && s'.idempotency == s.idempotency
      && s'.audit == s.audit + [AuditEntry(t2, Subject(u.subject), OfAction(Destroy), OfEnvironment(env),
                                           Reached(Queued))]
  {
    DeleteShape(cfg, s, u, env, confirmation, t0, t1, t2, newId);
    hide Delete, Enqueue, TakesOver, Inv;
    DeletedTakesOver(cfg, s, t, u, env, confirmation, t1, t2, newId);
  }

  lemma DeletedTakesOver(cfg: Config, s: State, t: Time, u: Identity, env: Text, confirmation: Text, t1: Time,
                         t2: Time, newId: Text)
    requires Inv(cfg, s, t) && newId !in s.operations && env in s.environments
    ensures var e := DeletingEnvironment(s.environments[env]);
      var s' := Enqueue(Used(s, confirmation), t1, t2, Subject(u.subject), Destroy, e, false, newId);
      && e.id == env
      && TakesOver(s, s', env, t1, NewOperation(t2, Subject(u.subject), Destroy, e, false, newId))
      && s'.environments == s.environments[env := e.(operationId := newId)]
      && s'.confirmations == s.confirmations - {confirmation} && s'.idempotency == s.idempotency
      && s'.audit == s.audit + [AuditEntry(t2, Subject(u.subject), OfAction(Destroy), OfEnvironment(env),
                                           Reached(Queued))]
  {
    assert EnvironmentOk(cfg, s, env);
    var s1, e := Used(s, confirmation), DeletingEnvironment(s.environments[env]);
    DropInv(cfg, s, s1, t);
    hide Enqueue, Inv, TakesOver;
    EnqueueByRecord(s1, t1, t2, Subject(u.subject), Destroy, e, false, newId);
    var s', op := Enqueue(s1, t1, t2, Subject(u.subject), Destroy, e, false, newId),
                  NewOperation(t2, Subject(u.subject), Destroy, e, false, newId);
    EnqueuedTakesOver(cfg, s1, s', t, t1, op, e);
    TakesOverFrom(s, s1, s', env, t1, op);
  }

  lemma TakesOverFrom(s: State, s1: State, s': State, env: Text, stop: Time, op: Operation)
    requires TakesOver(s1, s', env, stop, op) && s1.operations == s.operations && s1.notices == s.notices
    ensures TakesOver(s, s', env, stop, op)
  {
  }

  /** An extension moves the expiry by the minutes asked for, from the old expiry or from now; a deployment under way
      goes on at the new generation; the undelivered notices of the old expiry are withdrawn; nothing else changes. */
  lemma ExtendMakes(cfg: Config, s: State, t: Time, u: Identity, env: Text, mode: ExtendMode, minutes: int,
                    expected: int, now: Time)
    requires Inv(cfg, s, t) && t <= now && Extend(cfg, s, u, env, mode, minutes, expected, now).result.Ok?
    ensures env in s.environments && s.environments[env].expiresAt.Some?
    ensures var s' := Extend(cfg, s, u, env, mode, minutes, expected, now).state;
      && s'.environments == s.environments[env := s.environments[env].(
           generation := expected + 1,
           expiresAt := Some((if mode == Add then s.environments[env].expiresAt.value else now) + minutes * MINUTE))]
      && s'.operations.Keys == s.operations.Keys
      && (forall o {:trigger s'.operations[o]} :: o in s.operations ==>
            s'.operations[o] == if s.operations[o].environmentId == env && Live(s.operations[o])
                                then s.operations[o].(generation := expected + 1) else s.operations[o])
      && s'.notices.Keys == s.notices.Keys
      && (forall n {:trigger s'.notices[n]} :: n in s.notices ==>
            s'.notices[n] == if n.environmentId == env && n.kind == Expiring && !s.notices[n].delivered
                             then s.notices[n].(cancelled := true) else s.notices[n])
      && SameKeys(s, s')
      && s'.audit == s.audit + [AuditEntry(now, Subject(u.subject), Extension, OfEnvironment(env),
                                           Until(cfg.rfc3339(s'.environments[env].expiresAt.value)))]
  {
    ExtendShape(cfg, s, u, env, mode, minutes, expected, now);
    assert EnvironmentOk(cfg, s, env);
    assert Extended(s, Extend(cfg, s, u, env, mode, minutes, expected, now).state, env,
                    Extend(cfg, s, u, env, mode, minutes, expected, now).result.value);
    forall o | o in s.operations && Live(s.operations[o])
      ensures s.operations[o].environmentId == env <==> o == s.environments[env].operationId
    {
      assert OperationOk(s, o, t);
    }
    forall n | n in s.notices ensures s.notices[n].key == n { assert NoticeOk(cfg, s, n); }
  }
}
