/** Every transaction keeps the invariant and only lets records evolve. */
module LifecycleSteps {
  import opened Basics
  import opened Lifecycle
  import opened LifecycleInvariant

  // ---------------------------------------------------------------- narrow changes

  /** An operation moves between queued and running, or records progress. */
  ghost predicate Progressed(op: Operation, op': Operation) {
    && OperationEvolves(op, op')
    && op'.generation == op.generation
    && (Live(op) ==> Live(op'))
  }

  ghost predicate ProgressedAt(s: State, s': State, k: Text, now: Time) {
    k in s.operations ==>
      k in s'.operations && Progressed(s.operations[k], s'.operations[k]) && TimesOk(s'.operations[k], now)
  }

  lemma ProgressInv(cfg: Config, s: State, s': State, t0: Time, t1: Time)
    requires Inv(cfg, s, t0)
    requires s'.environments == s.environments && s'.operations.Keys == s.operations.Keys && s'.notices == s.notices
    requires SameKeys(s, s')
    requires forall k {:trigger ProgressedAt(s, s', k, t1)} :: ProgressedAt(s, s', k, t1)
    ensures Inv(cfg, s', t1) && Evolves(s, s')
  {
    forall k | k in s'.operations ensures OperationOk(s', k, t1) {
      assert OperationOk(s, k, t0) && ProgressedAt(s, s', k, t1);
    }
    forall k | k in s'.environments ensures EnvironmentOk(cfg, s', k) {
      assert EnvironmentOk(cfg, s, k) && ProgressedAt(s, s', s.environments[k].operationId, t1);
    }
    forall k ensures OperationKept(s, s', k) {
      assert ProgressedAt(s, s', k, t1);
    }
    ProgressNotices(cfg, s, s', t1);
    ProgressKeys(s, s', t1);
  }

  lemma ProgressNotices(cfg: Config, s: State, s': State, t1: Time)
    requires NoticesOk(cfg, s) && EnvironmentsOk(cfg, s)
    requires s'.environments == s.environments && s'.notices == s.notices
    requires forall k {:trigger ProgressedAt(s, s', k, t1)} :: ProgressedAt(s, s', k, t1)
    ensures NoticesOk(cfg, s') && NoticesEvolve(s, s')
  {
    forall k | k in s'.notices ensures NoticeOk(cfg, s', k) {
      assert NoticeOk(cfg, s, k) && ProgressedAt(s, s', k.operationId, t1);
    }
  }

  lemma ProgressKeys(s: State, s': State, t1: Time)
    requires KeysOk(s) && s'.environments == s.environments && SameKeys(s, s')
    requires forall k {:trigger ProgressedAt(s, s', k, t1)} :: ProgressedAt(s, s', k, t1)
    ensures KeysOk(s') && KeysEvolve(s, s')
  {
    forall k | k in s'.confirmations ensures ConfirmationOk(s', k) { assert ConfirmationOk(s, k); }
    forall k | k in s'.idempotency
      ensures IdempotencyOk(s', k)
    {
      assert IdempotencyOk(s, k) && ProgressedAt(s, s', s.idempotency[k], t1);
    }
  }

  /** Notices are delivered, leased or withdrawn. */
  lemma NoticesOnlyInv(cfg: Config, s: State, s': State, now: Time)
    requires Inv(cfg, s, now)
    requires SameRecords(s, s') && SameKeys(s, s') && s'.notices.Keys == s.notices.Keys
    requires NoticesEvolve(s, s')
    ensures Inv(cfg, s', now) && Evolves(s, s')
  {
    forall k | k in s'.notices ensures NoticeOk(cfg, s', k) {
      assert NoticeOk(cfg, s, k) && NoticeKept(s, s', k);
    }
    FrameRecords(cfg, s, s', now);
    FrameKeys(s, s');
  }

  lemma NotifyInv(cfg: Config, s: State, now: Time, kind: NoticeKind, e: Environment, op: Text)
    requires Inv(cfg, s, now) && e.id in s.environments && s.environments[e.id] == e && !IsOutcome(kind)
    requires Current(cfg, s, Notice(NoticeKey(kind, e.id, op), e.owner, now, now, 0, false, false), e)
    ensures Inv(cfg, Notify(s, now, kind, e, op), now)
    ensures Evolves(s, Notify(s, now, kind, e, op))
  {
    var s' := Notify(s, now, kind, e, op);
    assert SameRecords(s, s') && SameKeys(s, s');
    NotifyNotices(cfg, s, s', now, NoticeKey(kind, e.id, op), e);
    FrameRecords(cfg, s, s', now);
    FrameKeys(s, s');
  }

  lemma NotifyNotices(cfg: Config, s: State, s': State, now: Time, key: NoticeKey, e: Environment)
    requires NoticesOk(cfg, s) && e.id in s.environments && s.environments[e.id] == e && !IsOutcome(key.kind)
    requires key.environmentId == e.id && Current(cfg, s, Notice(key, e.owner, now, now, 0, false, false), e)
    requires SameRecords(s, s')
    requires s'.notices == (if key in s.notices then s.notices
                            else s.notices[key := Notice(key, e.owner, now, now, 0, false, false)])
    ensures NoticesOk(cfg, s') && NoticesEvolve(s, s')
  {
    forall k | k in s'.notices ensures NoticeOk(cfg, s', k) {
      if k in s.notices {
        assert NoticeOk(cfg, s, k);
      }
    }
    forall k ensures NoticeKept(s, s', k) {
    }
  }

  /** Confirmations may be used up or expire. */
  lemma DropInv(cfg: Config, s: State, s': State, now: Time)
    requires Inv(cfg, s, now)
    requires SameRecords(s, s') && s'.notices == s.notices && s'.idempotency == s.idempotency
    requires s'.payloads == s.payloads
    requires forall k {:trigger k in s'.confirmations} :: k in s'.confirmations ==>
        k in s.confirmations && s'.confirmations[k] == s.confirmations[k]
    ensures Inv(cfg, s', now) && Evolves(s, s')
  {
    FrameRecords(cfg, s, s', now);
    FrameNotices(cfg, s, s');
    forall k | k in s'.confirmations ensures ConfirmationOk(s', k) { assert ConfirmationOk(s, k); }
    forall k | k in s'.idempotency ensures IdempotencyOk(s', k) { assert IdempotencyOk(s, k); }
    forall k ensures KeyKept(s, s', k) { }
  }

  // ---------------------------------------------------------------- create

  predicate CreatesFreshly(cfg: Config, s: State, u: Identity, request: CreateRequest, key: Text) {
    && CreateRefusal(cfg, u, request, key).None?
    && cfg.idempotencyKey(u.subject, key) !in s.idempotency
    && (request.id in s.environments ==>
          s.environments[request.id].status == Deleted && (s.environments[request.id].owner == u.subject
              || u.role == Admin))
    && |LiveEnvironments(s)| < cfg.maxPreviews
  }

  function CreatedEnvironment(cfg: Config, s: State, u: Identity, request: CreateRequest, now: Time,
                              newId: Text): Environment {
    NewEnvironment(cfg, u, Normalized(request), now, if request.id in s.environments
                   then s.environments[request.id].generation + 1 else 1, newId)
  }

  function Created(cfg: Config, s: State, u: Identity, request: CreateRequest, key: Text, now: Time,
                   newId: Text): State {
    var s1 := Enqueue(s, now, now, Subject(u.subject), Deploy, CreatedEnvironment(cfg, s, u, request, now, newId),
                      request.warm, newId);
    var ik := cfg.idempotencyKey(u.subject, key);
    s1.(idempotency := s.idempotency[ik := newId], payloads := s.payloads[ik := Normalized(request)])
  }

  lemma CreateShape(cfg: Config, s: State, u: Identity, request: CreateRequest, key: Text, now: Time, newId: Text)
    requires EnvironmentsOk(cfg, s) && CreatesFreshly(cfg, s, u, request, key)
    ensures Create(cfg, s, u, request, key, now, newId).state == Created(cfg, s, u, request, key, now, newId)
  {
    if request.id in s.environments {
      assert EnvironmentOk(cfg, s, request.id);
    }
    assert EndCurrent(s, request.id, now) == s;
  }

  lemma CreateNothing(cfg: Config, s: State, u: Identity, request: CreateRequest, key: Text, now: Time, newId: Text)
    requires !CreatesFreshly(cfg, s, u, request, key)
    ensures Create(cfg, s, u, request, key, now, newId).state == s
  {
  }

  lemma CreateInv(cfg: Config, s: State, t0: Time, u: Identity, request: CreateRequest, key: Text, now: Time,
                  newId: Text)
    requires ValidConfig(cfg) && Inv(cfg, s, t0) && t0 <= now && newId !in s.operations
    ensures Inv(cfg, Create(cfg, s, u, request, key, now, newId).state, now)
    ensures Evolves(s, Create(cfg, s, u, request, key, now, newId).state)
  {
    if CreatesFreshly(cfg, s, u, request, key) {
      CreateShape(cfg, s, u, request, key, now, newId);
      CreatedInv(cfg, s, t0, u, request, key, now, newId);
    } else {
      CreateNothing(cfg, s, u, request, key, now, newId);
      InvLater(cfg, s, t0, now);
      EvolvesReflexive(s);
    }
  }

  lemma CreatedInv(cfg: Config, s: State, t0: Time, u: Identity, request: CreateRequest, key: Text, now: Time,
                   newId: Text)
    requires ValidConfig(cfg) && Inv(cfg, s, t0) && t0 <= now && newId !in s.operations
    requires CreatesFreshly(cfg, s, u, request, key)
    ensures Inv(cfg, Created(cfg, s, u, request, key, now, newId), now)
    ensures Evolves(s, Created(cfg, s, u, request, key, now, newId))
  {
    var e := CreatedEnvironment(cfg, s, u, request, now, newId);
    if request.id in s.environments {
      assert EnvironmentOk(cfg, s, request.id);
    }
    EnqueueInv(cfg, s, t0, now, now, Subject(u.subject), Deploy, e, request.warm, newId);
    var s1 := Enqueue(s, now, now, Subject(u.subject), Deploy, e, request.warm, newId);
    EnqueueByRecord(s, now, now, Subject(u.subject), Deploy, e, request.warm, newId);
    RecordKeyInv(cfg, s, s1, Created(cfg, s, u, request, key, now, newId), now, cfg.idempotencyKey(u.subject, key),
                 Normalized(request), newId);
  }

  lemma RecordKeyInv(cfg: Config, s: State, s1: State, s': State, now: Time, ik: Text, r: CreateRequest, newId: Text)
    requires Inv(cfg, s1, now) && Evolves(s, s1)
    requires s1.idempotency == s.idempotency && s1.payloads == s.payloads && ik !in s.idempotency
    requires SameRecords(s1, s') && s'.notices == s1.notices && s'.confirmations == s1.confirmations
    requires s'.idempotency == s.idempotency[ik := newId] && s'.payloads == s.payloads[ik := r]
    requires newId in s1.operations && s1.operations[newId].environmentId == r.id
    requires s1.operations[newId].action == Deploy
    ensures Inv(cfg, s', now) && Evolves(s, s')
  {
    FrameRecords(cfg, s1, s', now);
    FrameNotices(cfg, s1, s');
    forall k | k in s'.confirmations ensures ConfirmationOk(s', k) { assert ConfirmationOk(s1, k); }
    forall k | k in s'.idempotency ensures IdempotencyOk(s', k) { if k != ik { assert IdempotencyOk(s1, k); } }
    forall k ensures KeyKept(s1, s', k) { }
    EvolvesTransitive(s, s1, s');
  }

  // ---------------------------------------------------------------- extend

  /** What a successful extension changes, record by record. */
  ghost predicate Extended(s: State, s': State, k: Text, e: Environment) {
    && s'.environments == s.environments[k := e]
    && s'.operations.Keys == s.operations.Keys
    && (forall o {:trigger s'.operations[o]} :: o in s.operations ==>
          s'.operations[o] == (if o == e.operationId && Live(s.operations[o])
                               then s.operations[o].(generation := e.generation) else s.operations[o]))
    && s'.notices.Keys == s.notices.Keys
    && (forall n {:trigger s'.notices[n]} :: n in s.notices ==> s'.notices[n] == WithdrawnExpiring(s.notices[n], k))
    && SameKeys(s, s')
  }

  /** `e` is `old` with a later generation and another expiry within the permitted lifetime. */
  ghost predicate Extension(cfg: Config, old_: Environment, e: Environment) {
    && e == old_.(expiresAt := e.expiresAt, generation := old_.generation + 1)
    && e.expiresAt.Some? && e.expiresAt.value <= e.createdAt + cfg.maxTtl
    && e.status != Deleting && e.status != Deleted
  }

  lemma ExtendedOperations(cfg: Config, s: State, s': State, t0: Time, now: Time, k: Text, e: Environment)
    requires EnvironmentsOk(cfg, s) && OperationsOk(s, t0) && t0 <= now && k in s.environments
    requires Extension(cfg, s.environments[k], e) && Extended(s, s', k, e)
    ensures OperationsOk(s', now) && OperationsEvolve(s, s')
  {
    assert EnvironmentOk(cfg, s, k);
    forall o | o in s'.operations ensures OperationOk(s', o, now) && OperationKept(s, s', o) {
      assert OperationOk(s, o, t0);
      assert s'.operations[o].id == o;
    }
  }

  lemma ExtendedEnvironments(cfg: Config, s: State, s': State, k: Text, e: Environment)
    requires EnvironmentsOk(cfg, s) && k in s.environments
    requires Extension(cfg, s.environments[k], e) && Extended(s, s', k, e)
    ensures EnvironmentsOk(cfg, s') && EnvironmentsEvolve(s, s')
  {
    assert EnvironmentOk(cfg, s, k);
    forall j | j in s'.environments ensures EnvironmentOk(cfg, s', j) && EnvironmentKept(s, s', j) {
      assert EnvironmentOk(cfg, s, j);
      assert s'.operations[s.environments[j].operationId].id == s.operations[s.environments[j].operationId].id;
    }
  }

  lemma ExtendedNotices(cfg: Config, s: State, s': State, k: Text, e: Environment)
    requires NoticesOk(cfg, s) && EnvironmentsOk(cfg, s) && k in s.environments
    requires Extension(cfg, s.environments[k], e) && Extended(s, s', k, e)
    ensures NoticesOk(cfg, s') && NoticesEvolve(s, s')
  {
    assert EnvironmentOk(cfg, s, k);
    forall n | n in s'.notices ensures NoticeOk(cfg, s', n) && NoticeKept(s, s', n) {
      assert NoticeOk(cfg, s, n);
      assert s'.notices[n].key == n;
      if n.operationId in s.operations {
        assert s'.operations[n.operationId].status == s.operations[n.operationId].status;
      }
      assert EnvironmentOk(cfg, s, n.environmentId);
    }
  }

  lemma ExtendedKeys(cfg: Config, s: State, s': State, k: Text, e: Environment)
    requires KeysOk(s) && k in s.environments
    requires Extension(cfg, s.environments[k], e) && Extended(s, s', k, e)
    ensures KeysOk(s') && KeysEvolve(s, s')
  {
    forall c | c in s'.confirmations ensures ConfirmationOk(s', c) { assert ConfirmationOk(s, c); }
    forall i | i in s'.idempotency ensures IdempotencyOk(s', i) {
      assert IdempotencyOk(s, i);
      assert s'.operations[s.idempotency[i]].action == Deploy;
    }
  }

  lemma ExtendShape(cfg: Config, s: State, u: Identity, env: Text, mode: ExtendMode, minutes: int, expected: int,
                    now: Time)
    requires EnvironmentsOk(cfg, s)
    requires Extend(cfg, s, u, env, mode, minutes, expected, now).result.Ok?
    ensures env in s.environments && s.environments[env].id == env && s.environments[env].generation == expected
    ensures Extension(cfg, s.environments[env], Extend(cfg, s, u, env, mode, minutes, expected, now).result.value)
    ensures Extend(cfg, s, u, env, mode, minutes, expected, now).state
         == Reschedule(cfg, s, Extend(cfg, s, u, env, mode, minutes, expected, now).result.value, u.subject, now)
  {
    assert EnvironmentOk(cfg, s, env);
  }

  lemma ExtendInv(cfg: Config, s: State, t0: Time, u: Identity, env: Text, mode: ExtendMode, minutes: int,
                  expected: int, now: Time)
    requires Inv(cfg, s, t0) && t0 <= now
    ensures Inv(cfg, Extend(cfg, s, u, env, mode, minutes, expected, now).state, now)
    ensures Evolves(s, Extend(cfg, s, u, env, mode, minutes, expected, now).state)
  {
    var r := Extend(cfg, s, u, env, mode, minutes, expected, now);
    if r.result.Ok? {
      var e := r.result.value;
      ExtendShape(cfg, s, u, env, mode, minutes, expected, now);
      ExtendedOperations(cfg, s, r.state, t0, now, env, e);
      ExtendedEnvironments(cfg, s, r.state, env, e);
      ExtendedNotices(cfg, s, r.state, env, e);
      ExtendedKeys(cfg, s, r.state, env, e);
    } else {
      InvLater(cfg, s, t0, now);
      EvolvesReflexive(s);
    }
  }

  // ---------------------------------------------------------------- delete and redeploy

  lemma ConfirmDeleteInv(cfg: Config, s: State, t0: Time, u: Identity, env: Text, now: Time, newId: Text)
    requires Inv(cfg, s, t0) && t0 <= now && newId !in s.confirmations
    ensures Inv(cfg, ConfirmDelete(s, u, env, now, newId).state, now)
    ensures Evolves(s, ConfirmDelete(s, u, env, now, newId).state)
  {
    InvLater(cfg, s, t0, now);
    var r := ConfirmDelete(s, u, env, now, newId);
    if r.result.Ok? {
      assert EnvironmentOk(cfg, s, env);
      FrameRecords(cfg, s, r.state, now);
      FrameNotices(cfg, s, r.state);
      ConfirmDeleteKeys(s, r.state, r.result.value);
    } else {
      EvolvesReflexive(s);
    }
  }

  lemma ConfirmDeleteKeys(s: State, s': State, c: Confirmation)
    requires KeysOk(s) && SameRecords(s, s') && c.id !in s.confirmations
    requires s'.confirmations == s.confirmations[c.id := c] && s'.idempotency == s.idempotency
    requires s'.payloads == s.payloads
    requires c.environmentId in s.environments && c.generation <= s.environments[c.environmentId].generation
    ensures KeysOk(s') && KeysEvolve(s, s')
  {
    forall k | k in s'.confirmations ensures ConfirmationOk(s', k) { if k != c.id { assert ConfirmationOk(s, k); } }
    forall k | k in s'.idempotency ensures IdempotencyOk(s', k) { assert IdempotencyOk(s, k); }
    forall k ensures KeyKept(s, s', k) { }
  }

  function DeletingEnvironment(e: Environment): Environment {
    e.(generation := e.generation + 1, status := Deleting)
  }

  function Used(s: State, confirmation: Text): State {
    s.(confirmations := s.confirmations - {confirmation})
  }

  lemma DeleteShape(cfg: Config, s: State, u: Identity, env: Text, confirmation: Text, t0: Time, t1: Time, t2: Time,
                    newId: Text)
    requires EnvironmentsOk(cfg, s)
    ensures var r := Delete(s, u, env, confirmation, t0, t1, t2, newId);
      if r.result.Ok? then
        env in s.environments && r.state == Enqueue(Used(s, confirmation), t1, t2, Subject(u.subject), Destroy,
            DeletingEnvironment(s.environments[env]), false, newId)
      else r.state == s
  {
    if env in s.environments {
      assert EnvironmentOk(cfg, s, env);
    }
  }

  lemma DeleteInv(cfg: Config, s: State, t: Time, u: Identity, env: Text, confirmation: Text, t0: Time, t1: Time,
                  t2: Time, newId: Text)
    requires Inv(cfg, s, t) && t <= t0 <= t1 <= t2 && newId !in s.operations
    ensures Inv(cfg, Delete(s, u, env, confirmation, t0, t1, t2, newId).state, t2)
    ensures Evolves(s, Delete(s, u, env, confirmation, t0, t1, t2, newId).state)
  {
    DeleteShape(cfg, s, u, env, confirmation, t0, t1, t2, newId);
    var r := Delete(s, u, env, confirmation, t0, t1, t2, newId);
    if r.result.Ok? {
      DeletedInv(cfg, s, t, u.subject, env, confirmation, t1, t2, newId);
    } else {
      InvLater(cfg, s, t, t2);
      EvolvesReflexive(s);
    }
  }

  lemma DeletedInv(cfg: Config, s: State, t: Time, actor: Text, env: Text, confirmation: Text, t1: Time, t2: Time,
                   newId: Text)
    requires Inv(cfg, s, t) && t <= t1 <= t2 && newId !in s.operations && env in s.environments
    ensures var s' := Enqueue(Used(s, confirmation), t1, t2, Subject(actor), Destroy,
                              DeletingEnvironment(s.environments[env]), false, newId);
      Inv(cfg, s', t2) && Evolves(s, s')
  {
    assert EnvironmentOk(cfg, s, env);
    var e := DeletingEnvironment(s.environments[env]);
    DropInv(cfg, s, Used(s, confirmation), t);
    EnqueueInv(cfg, Used(s, confirmation), t, t1, t2, Subject(actor), Destroy, e, false, newId);
    EnqueueByRecord(Used(s, confirmation), t1, t2, Subject(actor), Destroy, e, false, newId);
    EvolvesTransitive(s, Used(s, confirmation),
                      Enqueue(Used(s, confirmation), t1, t2, Subject(actor), Destroy, e, false, newId));
  }

  function RedeployedEnvironment(e: Environment, revision: Text, image: Text): Environment {
    e.(revision := revision, image := image, generation := e.generation + 1, status := Pending)
  }

  lemma RedeployShape(cfg: Config, s: State, u: Identity, env: Text, revision: Text, image: Text, expected: int,
                      t0: Time, t1: Time, newId: Text)
    requires EnvironmentsOk(cfg, s)
    ensures var r := Redeploy(cfg, s, u, env, revision, image, expected, t0, t1, newId);
      if r.result.Ok? then
        env in s.environments && r.state == Enqueue(s, t0, t1, Subject(u.subject), Deploy,
            RedeployedEnvironment(s.environments[env], revision, image), true, newId)
      else r.state == s
  {
    if env in s.environments {
      assert EnvironmentOk(cfg, s, env);
    }
  }

  lemma RedeployInv(cfg: Config, s: State, t: Time, u: Identity, env: Text, revision: Text, image: Text,
                    expected: int, t0: Time, t1: Time, newId: Text)
    requires Inv(cfg, s, t) && t <= t0 <= t1 && newId !in s.operations
    ensures Inv(cfg, Redeploy(cfg, s, u, env, revision, image, expected, t0, t1, newId).state, t1)
    ensures Evolves(s, Redeploy(cfg, s, u, env, revision, image, expected, t0, t1, newId).state)
  {
    RedeployShape(cfg, s, u, env, revision, image, expected, t0, t1, newId);
    if Redeploy(cfg, s, u, env, revision, image, expected, t0, t1, newId).result.Ok? {
      assert EnvironmentOk(cfg, s, env);
      EnqueueInv(cfg, s, t, t0, t1, Subject(u.subject), Deploy,
                 RedeployedEnvironment(s.environments[env], revision, image), true, newId);
    } else {
      InvLater(cfg, s, t, t1);
      EvolvesReflexive(s);
    }
  }

  // ---------------------------------------------------------------- the worker

  lemma RecoverInv(cfg: Config, s: State, now: Time)
    requires Inv(cfg, s, now)
    ensures Inv(cfg, Recover(s), now) && Evolves(s, Recover(s))
  {
    forall k ensures ProgressedAt(s, Recover(s), k, now) {
      if k in s.operations { assert OperationOk(s, k, now); }
    }
    ProgressInv(cfg, s, Recover(s), now, now);
  }

  lemma ClaimProgress(s: State, t0: Time, pick: Option<Text>, now: Time)
    requires OperationsOk(s, t0) && t0 <= now && pick.Some? && pick.value in s.operations
    requires s.operations[pick.value].status == Queued
    ensures forall k {:trigger ProgressedAt(s, Claim(s, pick, now), k, now)} :: ProgressedAt(s,
        Claim(s, pick, now), k, now)
  {
    forall k ensures ProgressedAt(s, Claim(s, pick, now), k, now) {
      if k in s.operations { assert OperationOk(s, k, t0); }
    }
  }

  lemma ClaimInv(cfg: Config, s: State, t0: Time, pick: Option<Text>, now: Time)
    requires Inv(cfg, s, t0) && t0 <= now
    requires (pick.Some? ==> pick.value in s.operations && s.operations[pick.value].status == Queued)
    ensures Inv(cfg, Claim(s, pick, now), now) && Evolves(s, Claim(s, pick, now))
  {
    if pick.Some? {
      ClaimProgress(s, t0, pick, now);
      ProgressInv(cfg, s, Claim(s, pick, now), t0, now);
    } else {
      InvLater(cfg, s, t0, now);
      EvolvesReflexive(s);
    }
  }

  lemma PhaseInv(cfg: Config, s: State, t0: Time, opId: Text, phase: Text, now: Time)
    requires Inv(cfg, s, t0) && t0 <= now
    ensures Inv(cfg, Phase(s, opId, phase, now).state, now) && Evolves(s, Phase(s, opId, phase, now).state)
  {
    if Phase(s, opId, phase, now).result.Ok? {
      forall k ensures ProgressedAt(s, Phase(s, opId, phase, now).state, k, now) {
        if k in s.operations { assert OperationOk(s, k, t0); }
      }
      ProgressInv(cfg, s, Phase(s, opId, phase, now).state, t0, now);
    } else {
      InvLater(cfg, s, t0, now);
      EvolvesReflexive(s);
    }
  }

  // ---------------------------------------------------------------- finish

  predicate Finishes(s: State, opId: Text) {
    opId in s.operations && s.operations[opId].status == Running
        && IsCurrent(s, s.operations[opId].environmentId, s.operations[opId].id)
  }

  function FinishedOperation(op: Operation, failure: Option<Text>, now: Time): Operation {
    if failure.Some? then op.(finishedAt := Some(now), status := Failed, error := failure)
    else op.(finishedAt := Some(now), status := Succeeded, phase := if op.action == Destroy then DeletedPhase
             else ReadyPhase)
  }

  function FinishedEnvironment(e: Environment, op: Operation): Environment
    requires op.status != Superseded
  {
    e.(status := Mirrored(op.action, op.status))
  }

  /** What an effective Finish changes, record by record. */
  ghost predicate Concluded(s: State, s': State, op: Operation, now: Time)
    requires op.environmentId in s.environments && op.status in {Succeeded, Failed}
  {
    var e := s.environments[op.environmentId];
    var key := NoticeKey(OutcomeKind(op.action, op.status == Failed), op.environmentId, op.id);
    && s'.environments == s.environments[op.environmentId := FinishedEnvironment(e, op)]
    && s'.operations == s.operations[op.id := op]
    && s'.notices.Keys == s.notices.Keys + {key}
    && s'.notices[key] == Notice(key, e.owner, now, now, 0, false, false)
    && (forall k {:trigger s'.notices[k]} :: k in s.notices && k != key ==>
        s'.notices[k] == Withdrawn(s.notices[k], op.environmentId))
    && SameKeys(s, s')
  }

  /** An outcome is announced at most once: the notice of a running operation's outcome does not exist yet. */
  lemma OutcomeIsNews(cfg: Config, s: State, opId: Text, failed: bool)
    requires NoticesOk(cfg, s) && opId in s.operations && Live(s.operations[opId])
    ensures NoticeKey(OutcomeKind(s.operations[opId].action, failed), s.operations[opId].environmentId,
                      opId) !in s.notices
  {
    var key := NoticeKey(OutcomeKind(s.operations[opId].action, failed), s.operations[opId].environmentId, opId);
    if key in s.notices {
      OutcomeIsPast(cfg, s, key);
      assert false;
    }
  }

  lemma OutcomeIsPast(cfg: Config, s: State, k: NoticeKey)
    requires NoticesOk(cfg, s) && k in s.notices && IsOutcome(k.kind)
    ensures k.operationId in s.operations && s.operations[k.operationId].status in {Succeeded, Failed}
  {
    assert NoticeOk(cfg, s, k);
  }

  lemma FinishShape(cfg: Config, s: State, opId: Text, failure: Option<Text>, now: Time)
    requires Finishes(s, opId) && s.operations[opId].id == opId
    requires s.environments[s.operations[opId].environmentId].id == s.operations[opId].environmentId
    requires s.operations[opId].action == Destroy ==>
        s.environments[s.operations[opId].environmentId].status == Deleting
    requires NoticeKey(OutcomeKind(s.operations[opId].action, failure.Some?), s.operations[opId].environmentId,
                       opId) !in s.notices
    ensures Concluded(s, Finish(s, opId, failure, now).state, FinishedOperation(s.operations[opId], failure, now), now)
  {
    var op := s.operations[opId];
    var e := s.environments[op.environmentId];
    assert FinishedEnvironment(e, FinishedOperation(op, failure, now)) ==
           (if failure.Some? then (if op.action == Destroy then e else e.(status := DeployFailed))
            else e.(status := if op.action == Destroy then Deleted else Ready));
  }

  lemma ConcludedOperations(s: State, s': State, t0: Time, now: Time, op: Operation)
    requires OperationsOk(s, t0) && t0 <= now
    requires Finishes(s, op.id) && op.status in {Succeeded, Failed}
    requires OperationEvolves(s.operations[op.id], op) && TimesOk(op, now)
    requires Concluded(s, s', op, now)
    ensures OperationsOk(s', now) && OperationsEvolve(s, s')
  {
    assert OperationOk(s, op.id, t0);
    forall k | k in s'.operations ensures OperationOk(s', k, now) {
      assert OperationOk(s, k, t0);
    }
    forall k ensures OperationKept(s, s', k) { }
  }

  lemma ConcludedEnvironments(cfg: Config, s: State, s': State, now: Time, op: Operation)
    requires EnvironmentsOk(cfg, s)
    requires Finishes(s, op.id) && op.status in {Succeeded, Failed}
    requires OperationEvolves(s.operations[op.id], op) && op.environmentId in s.environments
    requires s.environments[op.environmentId].operationId == op.id
    requires Concluded(s, s', op, now)
    ensures EnvironmentsOk(cfg, s') && EnvironmentsEvolve(s, s')
  {
    assert EnvironmentOk(cfg, s, op.environmentId);
    forall k | k in s'.environments ensures EnvironmentOk(cfg, s', k) {
      assert EnvironmentOk(cfg, s, k);
    }
    forall k ensures EnvironmentKept(s, s', k) { }
  }

  lemma ConcludedNotices(cfg: Config, s: State, s': State, now: Time, op: Operation)
    requires EnvironmentsOk(cfg, s) && NoticesOk(cfg, s)
    requires op.id in s.operations && Live(s.operations[op.id]) && op.status in {Succeeded, Failed}
    requires op.environmentId in s.environments && s.environments[op.environmentId].operationId == op.id
    requires s.operations[op.id].environmentId == op.environmentId && s.operations[op.id].action == op.action
    requires Concluded(s, s', op, now)
    ensures NoticesOk(cfg, s') && NoticesEvolve(s, s')
  {
    assert EnvironmentOk(cfg, s, op.environmentId);
    OutcomeIsNews(cfg, s, op.id, op.status == Failed);
    forall k | k in s'.notices ensures NoticeOk(cfg, s', k) && NoticeKept(s, s', k) {
      if k in s.notices {
        assert NoticeOk(cfg, s, k);
        assert s'.notices[k].key == k;
        assert EnvironmentOk(cfg, s, k.environmentId);
      }
    }
  }

  lemma ConcludedKeys(s: State, s': State, now: Time, op: Operation)
    requires KeysOk(s) && op.id in s.operations && op.environmentId in s.environments
    requires op.status in {Succeeded, Failed}
    requires s.operations[op.id].environmentId == op.environmentId && s.operations[op.id].action == op.action
    requires Concluded(s, s', op, now)
    ensures KeysOk(s') && KeysEvolve(s, s')
  {
    forall c | c in s'.confirmations ensures ConfirmationOk(s', c) { assert ConfirmationOk(s, c); }
    forall i | i in s'.idempotency ensures IdempotencyOk(s', i) { assert IdempotencyOk(s, i); }
  }

  lemma FinishesFacts(cfg: Config, s: State, t0: Time, opId: Text, failure: Option<Text>, now: Time)
    requires Inv(cfg, s, t0) && t0 <= now && Finishes(s, opId)
    ensures Concluded(s, Finish(s, opId, failure, now).state, FinishedOperation(s.operations[opId], failure, now), now)
    ensures OperationEvolves(s.operations[opId], FinishedOperation(s.operations[opId], failure, now))
    ensures TimesOk(FinishedOperation(s.operations[opId], failure, now), now)
    ensures s.operations[opId].id == opId
  {
    assert OperationOk(s, opId, t0);
    assert EnvironmentOk(cfg, s, s.operations[opId].environmentId);
    OutcomeIsNews(cfg, s, opId, failure.Some?);
    FinishShape(cfg, s, opId, failure, now);
  }

  lemma FinishInv(cfg: Config, s: State, t0: Time, opId: Text, failure: Option<Text>, now: Time)
    requires Inv(cfg, s, t0) && t0 <= now
    ensures Inv(cfg, Finish(s, opId, failure, now).state, now) && Evolves(s, Finish(s, opId, failure, now).state)
  {
    if Finishes(s, opId) {
      FinishesFacts(cfg, s, t0, opId, failure, now);
      var s' := Finish(s, opId, failure, now).state;
      var op := FinishedOperation(s.operations[opId], failure, now);
      ConcludedOperations(s, s', t0, now, op);
      ConcludedEnvironments(cfg, s, s', now, op);
      ConcludedNotices(cfg, s, s', now, op);
      ConcludedKeys(s, s', now, op);
    } else {
      FinishNothing(s, opId, failure, now);
      InvLater(cfg, s, t0, now);
      EvolvesReflexive(s);
    }
  }

  lemma FinishNothing(s: State, opId: Text, failure: Option<Text>, now: Time)
    requires !Finishes(s, opId)
    ensures Finish(s, opId, failure, now).state == s
  {
  }

  // ---------------------------------------------------------------- reconciliation

  lemma DropExpiredInv(cfg: Config, s: State, t0: Time, now: Time)
    requires Inv(cfg, s, t0) && t0 <= now
    ensures Inv(cfg, DropExpired(s, now), now) && Evolves(s, DropExpired(s, now))
  {
    InvLater(cfg, s, t0, now);
    DropInv(cfg, s, DropExpired(s, now), now);
  }

  predicate RetryDue(s: State, e: Environment, now: Time) {
    e.status == Deleting && e.operationId in s.operations && CleanupRetryDue(s.operations[e.operationId], now)
  }

  predicate ExpiryDue(e: Environment, now: Time) {
    e.status != Deleting && e.status != Deleted && e.expiresAt.Some? && now >= e.expiresAt.value
  }

  /** Reconciliation queues a destroy for the environment. */
  predicate Retires(s: State, k: Text, now: Time)
    requires k in s.environments
  {
    RetryDue(s, s.environments[k], now) || ExpiryDue(s.environments[k], now)
  }

  function Retired(s: State, k: Text, now: Time, newId: Text): State
    requires k in s.environments
  {
    Enqueue(s, now, now, System, Destroy, DeletingEnvironment(s.environments[k]), false, newId)
  }

  predicate Announces(e: Environment) {
    e.status != Deleting && e.status != Deleted
  }

  function Announced1(cfg: Config, s: State, e: Environment, now: Time): State {
    if ExpiryNoticeDue(e, now) then Notify(s, now, Expiring, e, cfg.rfc3339(e.expiresAt.value)) else s
  }

  function Announced2(cfg: Config, s: State, e: Environment, now: Time): State {
    if e.operationId in s.operations && LateNoticeDue(cfg, s.operations[e.operationId], now)
        then Notify(s, now, Late, e, e.operationId) else s
  }

  lemma AnnouncedRecords(cfg: Config, s: State, e: Environment, now: Time)
    ensures SameRecords(s, Announced1(cfg, s, e, now)) && SameRecords(s, Announced2(cfg, s, e, now))
  {
  }

  /** The three things one turn of the loop may do. */
  lemma ReconcileOneCases(cfg: Config, s: State, k: Text, now: Time, newId: Text)
    requires EnvironmentsOk(cfg, s) && k in s.environments
    ensures Retires(s, k, now) ==> ReconcileOne(cfg, s, k, now, newId) == Retired(s, k, now, newId)
    ensures !Retires(s, k, now) && Announces(s.environments[k]) ==>
        ReconcileOne(cfg, s, k, now, newId) == Announced2(cfg, Announced1(cfg, s, s.environments[k], now),
            s.environments[k], now)
    ensures !Retires(s, k, now) && !Announces(s.environments[k]) ==> ReconcileOne(cfg, s, k, now, newId) == s
  {
    assert EnvironmentOk(cfg, s, k);
    var e := s.environments[k];
    if RetryDue(s, e, now) {
      assert EndCurrent(s, k, now) == s;
      assert DeletingEnvironment(e) == e.(generation := e.generation + 1);
    }
  }

  lemma ReconcileOneInv(cfg: Config, s: State, k: Text, now: Time, newId: Text)
    requires Inv(cfg, s, now) && k in s.environments && newId !in s.operations
    ensures Inv(cfg, ReconcileOne(cfg, s, k, now, newId), now)
    ensures Evolves(s, ReconcileOne(cfg, s, k, now, newId))
    ensures ReconcileOne(cfg, s, k, now, newId).confirmations == s.confirmations
    ensures ReconcileOne(cfg, s, k, now, newId).operations.Keys <= s.operations.Keys + {newId}
    ensures ReconcileOne(cfg, s, k, now, newId).environments.Keys == s.environments.Keys
  {
    assert EnvironmentOk(cfg, s, k);
    hide ReconcileOne, Enqueue, Inv, Announced1, Announced2;
    ReconcileOneCases(cfg, s, k, now, newId);
    var e := s.environments[k];
    if Retires(s, k, now) {
      EnqueueInv(cfg, s, now, now, now, System, Destroy, DeletingEnvironment(e), false, newId);
      EnqueueByRecord(s, now, now, System, Destroy, DeletingEnvironment(e), false, newId);
    } else if Announces(e) {
      AnnouncedInv(cfg, s, k, now);
    } else {
      EvolvesReflexive(s);
    }
  }

  lemma AnnouncedInv(cfg: Config, s: State, k: Text, now: Time)
    requires Inv(cfg, s, now) && k in s.environments && s.environments[k].id == k && Announces(s.environments[k])
    ensures Inv(cfg, Announced2(cfg, Announced1(cfg, s, s.environments[k], now), s.environments[k], now), now)
    ensures Evolves(s, Announced2(cfg, Announced1(cfg, s, s.environments[k], now), s.environments[k], now))
    ensures SameRecords(s, Announced2(cfg, Announced1(cfg, s, s.environments[k], now), s.environments[k], now))
    ensures SameKeys(s, Announced2(cfg, Announced1(cfg, s, s.environments[k], now), s.environments[k], now))
  {
    var e := s.environments[k];
    Announced1Inv(cfg, s, e, now);
    var s1 := Announced1(cfg, s, e, now);
    Announced2Inv(cfg, s1, e, now);
    EvolvesTransitive(s, s1, Announced2(cfg, s1, e, now));
  }

  lemma Announced1Inv(cfg: Config, s: State, e: Environment, now: Time)
    requires Inv(cfg, s, now) && e.id in s.environments && s.environments[e.id] == e && Announces(e)
    ensures Inv(cfg, Announced1(cfg, s, e, now), now) && Evolves(s, Announced1(cfg, s, e, now))
    ensures SameRecords(s, Announced1(cfg, s, e, now)) && SameKeys(s, Announced1(cfg, s, e, now))
  {
    if ExpiryNoticeDue(e, now) {
      NotifyInv(cfg, s, now, Expiring, e, cfg.rfc3339(e.expiresAt.value));
    } else {
      EvolvesReflexive(s);
    }
  }

  lemma Announced2Inv(cfg: Config, s: State, e: Environment, now: Time)
    requires Inv(cfg, s, now) && e.id in s.environments && s.environments[e.id] == e && Announces(e)
    ensures Inv(cfg, Announced2(cfg, s, e, now), now) && Evolves(s, Announced2(cfg, s, e, now))
    ensures SameRecords(s, Announced2(cfg, s, e, now)) && SameKeys(s, Announced2(cfg, s, e, now))
  {
    if e.operationId in s.operations && LateNoticeDue(cfg, s.operations[e.operationId], now) {
      NotifyInv(cfg, s, now, Late, e, e.operationId);
    } else {
      EvolvesReflexive(s);
    }
  }

  /** The ids drawn for the environments still to be visited are new and distinct. */
  ghost predicate NewIds(s: State, order: seq<Text>, newIds: map<Text, Text>) {
    && (forall k :: k in order ==> k in newIds)
    && (forall i :: 0 <= i < |order| ==> newIds[order[i]] !in s.operations)
    && (forall i, j :: 0 <= i < j < |order| ==> newIds[order[i]] != newIds[order[j]])
  }

  lemma {:induction false} ReconcileAllInv(cfg: Config, s: State, order: seq<Text>, now: Time, newIds: map<Text, Text>)
    requires Inv(cfg, s, now) && NewIds(s, order, newIds)
    ensures Inv(cfg, ReconcileAll(cfg, s, order, now, newIds), now)
    ensures Evolves(s, ReconcileAll(cfg, s, order, now, newIds))
    ensures ReconcileAll(cfg, s, order, now, newIds).confirmations == s.confirmations
    decreases |order|
  {
    if order == [] {
      EvolvesReflexive(s);
    } else if order[0] !in s.environments {
      ReconcileAllInv(cfg, s, order[1..], now, newIds);
    } else {
      var k := order[0];
      var s1 := ReconcileOne(cfg, s, k, now, newIds[k]);
      ReconcileOneInv(cfg, s, k, now, newIds[k]);
      ReconcileAllInv(cfg, s1, order[1..], now, newIds);
      EvolvesTransitive(s, s1, ReconcileAll(cfg, s, order, now, newIds));
    }
  }

  lemma ReconcileInv(cfg: Config, s: State, t0: Time, order: seq<Text>, now: Time, newIds: map<Text, Text>)
    requires Inv(cfg, s, t0) && t0 <= now && NewIds(s, order, newIds)
    ensures Inv(cfg, Reconcile(cfg, s, order, now, newIds), now)
    ensures Evolves(s, Reconcile(cfg, s, order, now, newIds))
  {
    DropExpiredInv(cfg, s, t0, now);
    ReconcileAllInv(cfg, DropExpired(s, now), order, now, newIds);
    EvolvesTransitive(s, DropExpired(s, now), Reconcile(cfg, s, order, now, newIds));
  }

  // ---------------------------------------------------------------- outbox and links

  lemma LeaseInv(cfg: Config, s: State, t0: Time, picked: set<NoticeKey>, now: Time)
    requires Inv(cfg, s, t0) && t0 <= now
    ensures Inv(cfg, Lease(s, picked, now), now) && Evolves(s, Lease(s, picked, now))
  {
    InvLater(cfg, s, t0, now);
    NoticesOnlyInv(cfg, s, Lease(s, picked, now), now);
  }

  lemma AcknowledgeEvolves(s: State, k: NoticeKey)
    ensures NoticesEvolve(s, Acknowledge(s, k).state)
    ensures SameRecords(s, Acknowledge(s, k).state) && SameKeys(s, Acknowledge(s, k).state)
    ensures Acknowledge(s, k).state.notices.Keys == s.notices.Keys
  {
  }

  lemma AcknowledgeInv(cfg: Config, s: State, k: NoticeKey, now: Time)
    requires Inv(cfg, s, now)
    ensures Inv(cfg, Acknowledge(s, k).state, now) && Evolves(s, Acknowledge(s, k).state)
  {
    AcknowledgeEvolves(s, k);
    NoticesOnlyInv(cfg, s, Acknowledge(s, k).state, now);
  }

  lemma LinksInv(cfg: Config, s: State, s': State, t0: Time, now: Time)
    requires Inv(cfg, s, t0) && t0 <= now
    requires s' == s.(links := s'.links, linkCodes := s'.linkCodes, audit := s'.audit)
    ensures Inv(cfg, s', now) && Evolves(s, s')
  {
    InvLater(cfg, s, t0, now);
    DropInv(cfg, s, s', now);
  }
}
