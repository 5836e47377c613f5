/** The inductive invariant of the preview platform's state, and how records may change over time. */
module LifecycleInvariant {
  import opened Basics
  import opened Lifecycle

  // ---------------------------------------------------------------- the invariant

  /** The environment status that goes with the action and status of its current operation. */
  function Mirrored(a: Action, s: OpStatus): EnvStatus
    requires s != Superseded
  {
    match a
    case Deploy => if s == Succeeded then Ready else if s == Failed then DeployFailed else Pending
    case Destroy => if s == Succeeded then Deleted else Deleting
  }

  /** Environment `e`, stored under `k`, with its current operation `op`. */
  ghost predicate Matches(cfg: Config, k: Text, e: Environment, op: Operation) {
    && e.id == k && e.profile == Preview && e.generation >= 1
    && e.expiresAt.Some? && e.expiresAt.value <= e.createdAt + cfg.maxTtl
    && op.environmentId == k
    && op.status != Superseded
    && e.status == Mirrored(op.action, op.status)
    && (Live(op) ==> op.generation == e.generation)
  }

  ghost predicate EnvironmentOk(cfg: Config, s: State, k: Text)
    requires k in s.environments
  {
    && s.environments[k].operationId in s.operations
    && Matches(cfg, k, s.environments[k], s.operations[s.environments[k].operationId])
  }

  /** RequestedAt <= StartedAt <= every phase timing <= FinishedAt <= now, with the end recorded exactly for
      terminal operations. */
  ghost predicate TimesOk(op: Operation, now: Time) {
    && op.requestedAt <= now
    && op.attempt >= 0
    && (op.startedAt.Some? <==> op.attempt > 0)
    && (op.startedAt.Some? ==> op.requestedAt <= op.startedAt.value <= now)
    && (op.status in {Running, Succeeded, Failed} ==> op.startedAt.Some?)
    && (forall p :: p in op.timings ==> op.startedAt.Some? && op.startedAt.value <= op.timings[p] <= now)
    && (op.finishedAt.Some? <==> !Live(op))
    && (op.finishedAt.Some? ==>
          && op.requestedAt <= op.finishedAt.value <= now
          && (op.startedAt.Some? ==> op.startedAt.value <= op.finishedAt.value)
          && forall p :: p in op.timings ==> op.timings[p] <= op.finishedAt.value)
  }

  ghost predicate OperationOk(s: State, k: Text, now: Time)
    requires k in s.operations
  {
    && s.operations[k].id == k
    && s.operations[k].environmentId in s.environments
    && (Live(s.operations[k]) ==> s.environments[s.operations[k].environmentId].operationId == k)
    && TimesOk(s.operations[k], now)
  }

  predicate IsOutcome(k: NoticeKind) {
    k in {ReadyNotice, FailedNotice, DeletedNotice, CleanupFailed}
  }

  /** What a notice that may still be delivered says is true of its environment now. */
  ghost predicate Current(cfg: Config, s: State, n: Notice, e: Environment) {
    && n.owner == e.owner
    && (n.key.kind == Expiring ==>
          e.expiresAt.Some? && n.key.operationId == cfg.rfc3339(e.expiresAt.value) && e.status != Deleting
              && e.status != Deleted)
    && (n.key.kind != Expiring ==> n.key.operationId == e.operationId)
    && (n.key.kind == Late ==>
          e.operationId in s.operations && s.operations[e.operationId].warm && Live(s.operations[e.operationId]))
  }

  /** An outcome notice, whether or not it may still be delivered, reports how its operation ended. */
  ghost predicate Reports(k: NoticeKey, op: Operation) {
    && op.status in {Succeeded, Failed}
    && op.environmentId == k.environmentId
    && k.kind == OutcomeKind(op.action, op.status == Failed)
  }

  ghost predicate NoticeOk(cfg: Config, s: State, k: NoticeKey)
    requires k in s.notices
  {
    && s.notices[k].key == k
    && k.environmentId in s.environments
    && (IsOutcome(k.kind) ==> k.operationId in s.operations && Reports(k, s.operations[k.operationId]))
    && (Deliverable(s.notices[k]) ==> Current(cfg, s, s.notices[k], s.environments[k.environmentId]))
  }

  ghost predicate ConfirmationOk(s: State, k: Text)
    requires k in s.confirmations
  {
    && s.confirmations[k].id == k
    && s.confirmations[k].environmentId in s.environments
    && s.confirmations[k].generation <= s.environments[s.confirmations[k].environmentId].generation
  }

  ghost predicate IdempotencyOk(s: State, ik: Text)
    requires ik in s.idempotency
  {
    && ik in s.payloads
    && s.idempotency[ik] in s.operations
    && s.operations[s.idempotency[ik]].environmentId == s.payloads[ik].id
    && s.operations[s.idempotency[ik]].action == Deploy
  }

  ghost predicate EnvironmentsOk(cfg: Config, s: State) {
    forall k {:trigger EnvironmentOk(cfg, s, k)} :: k in s.environments ==> EnvironmentOk(cfg, s, k)
  }

  ghost predicate OperationsOk(s: State, now: Time) {
    forall k {:trigger OperationOk(s, k, now)} :: k in s.operations ==> OperationOk(s, k, now)
  }

  ghost predicate NoticesOk(cfg: Config, s: State) {
    forall k {:trigger NoticeOk(cfg, s, k)} :: k in s.notices ==> NoticeOk(cfg, s, k)
  }

  ghost predicate KeysOk(s: State) {
    && (forall k {:trigger ConfirmationOk(s, k)} :: k in s.confirmations ==> ConfirmationOk(s, k))
    && (forall k {:trigger IdempotencyOk(s, k)} :: k in s.idempotency ==> IdempotencyOk(s, k))
  }

  ghost predicate Inv(cfg: Config, s: State, now: Time) {
    EnvironmentsOk(cfg, s) && OperationsOk(s, now) && NoticesOk(cfg, s) && KeysOk(s)
  }

  // ---------------------------------------------------------------- how records may change

  ghost predicate OperationEvolves(a: Operation, b: Operation) {
    && b.id == a.id && b.environmentId == a.environmentId && b.actor == a.actor && b.action == a.action
    && b.requestedAt == a.requestedAt && b.warm == a.warm
    && a.attempt <= b.attempt && a.generation <= b.generation
    && (!Live(a) ==> b == a)
  }

  /** At one generation only the status of an environment changes. */
  ghost predicate EnvironmentEvolves(a: Environment, b: Environment) {
    && a.generation <= b.generation
    && (a.generation == b.generation ==> b == a.(status := b.status))
  }

  ghost predicate NoticeEvolves(a: Notice, b: Notice) {
    && b == a.(attempts := b.attempts, notBefore := b.notBefore, delivered := b.delivered, cancelled := b.cancelled)
    && (a.delivered ==> b.delivered)
    && (a.cancelled ==> b.cancelled)
  }

  ghost predicate OperationKept(s: State, s': State, k: Text) {
    k in s.operations ==> k in s'.operations && OperationEvolves(s.operations[k], s'.operations[k])
  }

  ghost predicate EnvironmentKept(s: State, s': State, k: Text) {
    k in s.environments ==> k in s'.environments && EnvironmentEvolves(s.environments[k], s'.environments[k])
  }

  ghost predicate NoticeKept(s: State, s': State, k: NoticeKey) {
    k in s.notices ==> k in s'.notices && NoticeEvolves(s.notices[k], s'.notices[k])
  }

  /** Idempotency records are for ever; a confirmation may disappear but not change. */
  ghost predicate KeyKept(s: State, s': State, k: Text) {
    && (k in s.idempotency ==> k in s'.idempotency && s'.idempotency[k] == s.idempotency[k])
    && (k in s.idempotency && k in s.payloads ==> k in s'.payloads && s'.payloads[k] == s.payloads[k])
    && (k in s.confirmations && k in s'.confirmations ==> s'.confirmations[k] == s.confirmations[k])
  }

  ghost predicate OperationsEvolve(s: State, s': State) {
    forall k {:trigger OperationKept(s, s', k)} :: OperationKept(s, s', k)
  }

  ghost predicate EnvironmentsEvolve(s: State, s': State) {
    forall k {:trigger EnvironmentKept(s, s', k)} :: EnvironmentKept(s, s', k)
  }

  ghost predicate NoticesEvolve(s: State, s': State) {
    forall k {:trigger NoticeKept(s, s', k)} :: NoticeKept(s, s', k)
  }

  ghost predicate KeysEvolve(s: State, s': State) {
    forall k {:trigger KeyKept(s, s', k)} :: KeyKept(s, s', k)
  }

  ghost predicate Evolves(s: State, s': State) {
    OperationsEvolve(s, s') && EnvironmentsEvolve(s, s') && NoticesEvolve(s, s') && KeysEvolve(s, s')
  }

  // ---------------------------------------------------------------- composition

  lemma EvolvesReflexive(s: State)
    ensures Evolves(s, s)
  {
  }

  lemma EvolvesTransitive(a: State, b: State, c: State)
    requires Evolves(a, b) && Evolves(b, c)
    requires forall k {:trigger k in a.confirmations} :: k in a.confirmations && k in c.confirmations ==>
        k in b.confirmations
    ensures Evolves(a, c)
  {
    forall k ensures OperationKept(a, c, k) { assert OperationKept(a, b, k) && OperationKept(b, c, k); }
    forall k ensures EnvironmentKept(a, c, k) { assert EnvironmentKept(a, b, k) && EnvironmentKept(b, c, k); }
    forall k ensures NoticeKept(a, c, k) { assert NoticeKept(a, b, k) && NoticeKept(b, c, k); }
    forall k ensures KeyKept(a, c, k) { assert KeyKept(a, b, k) && KeyKept(b, c, k); }
  }

  lemma InvLater(cfg: Config, s: State, now: Time, later: Time)
    requires Inv(cfg, s, now) && now <= later
    ensures Inv(cfg, s, later)
  {
    forall k | k in s.operations ensures OperationOk(s, k, later) {
      assert OperationOk(s, k, now);
    }
  }

  // ---------------------------------------------------------------- frames

  predicate SameRecords(s: State, s': State) {
    s'.environments == s.environments && s'.operations == s.operations
  }

  predicate SameKeys(s: State, s': State) {
    s'.confirmations == s.confirmations && s'.idempotency == s.idempotency && s'.payloads == s.payloads
  }

  lemma FrameRecords(cfg: Config, s: State, s': State, now: Time)
    requires EnvironmentsOk(cfg, s) && OperationsOk(s, now) && SameRecords(s, s')
    ensures EnvironmentsOk(cfg, s') && OperationsOk(s', now) && OperationsEvolve(s, s') && EnvironmentsEvolve(s, s')
  {
    forall k | k in s'.environments ensures EnvironmentOk(cfg, s', k) { assert EnvironmentOk(cfg, s, k); }
    forall k | k in s'.operations ensures OperationOk(s', k, now) { assert OperationOk(s, k, now); }
  }

  lemma FrameNotices(cfg: Config, s: State, s': State)
    requires NoticesOk(cfg, s) && SameRecords(s, s') && s'.notices == s.notices
    ensures NoticesOk(cfg, s') && NoticesEvolve(s, s')
  {
    forall k | k in s'.notices ensures NoticeOk(cfg, s', k) { assert NoticeOk(cfg, s, k); }
  }

  lemma FrameKeys(s: State, s': State)
    requires KeysOk(s) && SameRecords(s, s') && SameKeys(s, s')
    ensures KeysOk(s') && KeysEvolve(s, s')
  {
    forall k | k in s'.confirmations ensures ConfirmationOk(s', k) { assert ConfirmationOk(s, k); }
    forall k | k in s'.idempotency ensures IdempotencyOk(s', k) { assert IdempotencyOk(s, k); }
  }

  // ---------------------------------------------------------------- orders of visits

  /** `order` lists the keys, each once. */
  ghost predicate Visits(order: seq<Text>, keys: set<Text>) {
    && (forall k {:trigger k in order} :: k in order <==> k in keys)
    && (forall i, j {:trigger order[i], order[j]} :: 0 <= i < j < |order| ==> order[i] != order[j])
  }

  // ---------------------------------------------------------------- queueing

  function EndCurrent(s: State, env: Text, now: Time): State {
    if env in s.environments then Supersede(s, s.environments[env].operationId, now) else s
  }

  /** The five ways an operation is queued (create, redeploy, delete, expiry, cleanup retry) in one: end the
      environment's current operation if it is live, then queue the new one. */
  function Enqueue(s: State, t1: Time, t2: Time, actor: Actor, action: Action, e: Environment, warm: bool,
                   newId: Text): State {
    Queue(EndCurrent(s, e.id, t1), t2, actor, action, e, warm, newId)
  }

  ghost predicate MayEnqueue(cfg: Config, s: State, action: Action, e: Environment, newId: Text) {
    && newId !in s.operations
    && e.profile == Preview && e.generation >= 1
    && e.expiresAt.Some? && e.expiresAt.value <= e.createdAt + cfg.maxTtl
    && e.status == Mirrored(action, Queued)
    && (e.id in s.environments ==> e.generation > s.environments[e.id].generation)
  }

  function Ended(op: Operation, t: Time): Operation {
    if Live(op) then op.(status := Superseded, finishedAt := Some(t)) else op
  }

  /** `Enqueue`, record by record. */
  ghost predicate Enqueued(s: State, s': State, t1: Time, op: Operation, e: Environment) {
    && op.status == Queued && op.environmentId == e.id && op.generation == e.generation
    && s'.environments == s.environments[e.id := e.(operationId := op.id)]
    && s'.operations.Keys == s.operations.Keys + {op.id}
    && s'.operations[op.id] == op
    && (forall k :: k in s.operations ==>
          s'.operations[k] == (if IsCurrent(s, e.id, k) then Ended(s.operations[k], t1) else s.operations[k]))
    && s'.notices.Keys == s.notices.Keys
    && (forall k :: k in s.notices ==> s'.notices[k] == Withdrawn(s.notices[k], e.id))
  }

  lemma EndCurrentByRecord(s: State, env: Text, now: Time)
    ensures EndCurrent(s, env, now) == s.(operations := EndCurrent(s, env, now).operations)
    ensures EndCurrent(s, env, now).operations.Keys == s.operations.Keys
    ensures forall k :: k in s.operations ==>
        EndCurrent(s, env, now).operations[k] == (if IsCurrent(s, env, k) then Ended(s.operations[k], now)
            else s.operations[k])
  {
  }

  lemma EnqueueByRecord(s: State, t1: Time, t2: Time, actor: Actor, action: Action, e: Environment, warm: bool,
                        newId: Text)
    requires newId !in s.operations
    ensures Enqueued(s, Enqueue(s, t1, t2, actor, action, e, warm, newId), t1,
                     NewOperation(t2, actor, action, e, warm, newId), e)
    ensures SameKeys(s, Enqueue(s, t1, t2, actor, action, e, warm, newId))
    ensures Enqueue(s, t1, t2, actor, action, e, warm, newId).linkCodes == s.linkCodes
    ensures Enqueue(s, t1, t2, actor, action, e, warm, newId).audit
         == s.audit + [AuditEntry(t2, actor, OfAction(action), OfEnvironment(e.id), Reached(Queued))]
  {
    EndCurrentByRecord(s, e.id, t1);
    var s1 := EndCurrent(s, e.id, t1);
    var s' := Queue(s1, t2, actor, action, e, warm, newId);
    assert s'.operations == s1.operations[newId := NewOperation(t2, actor, action, e, warm, newId)];
  }

  lemma EnqueuedOperations(s: State, s': State, t0: Time, t1: Time, t2: Time, op: Operation, e: Environment)
    requires OperationsOk(s, t0) && t0 <= t1 <= t2 && op.id !in s.operations && TimesOk(op, t2)
    requires Enqueued(s, s', t1, op, e)
    ensures OperationsOk(s', t2)
    ensures OperationsEvolve(s, s')
  {
    forall k | k in s.operations ensures OperationOk(s', k, t2) && OperationKept(s, s', k) {
      assert OperationOk(s, k, t0);
    }
  }

  lemma EnqueuedEnvironments(cfg: Config, s: State, s': State, t1: Time, op: Operation, e: Environment)
    requires EnvironmentsOk(cfg, s) && MayEnqueue(cfg, s, op.action, e, op.id)
    requires Enqueued(s, s', t1, op, e)
    ensures EnvironmentsOk(cfg, s')
    ensures EnvironmentsEvolve(s, s')
  {
    forall k | k in s'.environments ensures EnvironmentOk(cfg, s', k) {
      if k != e.id {
        assert EnvironmentOk(cfg, s, k);
        if e.id in s.environments {
          assert EnvironmentOk(cfg, s, e.id);
        }
      }
    }
    forall k ensures EnvironmentKept(s, s', k) {
    }
  }

  lemma EnqueuedNotices(cfg: Config, s: State, s': State, t1: Time, op: Operation, e: Environment)
    requires EnvironmentsOk(cfg, s) && NoticesOk(cfg, s) && op.id !in s.operations
    requires Enqueued(s, s', t1, op, e)
    ensures NoticesOk(cfg, s') && NoticesEvolve(s, s')
  {
    forall k | k in s'.notices ensures NoticeOk(cfg, s', k) {
      assert NoticeOk(cfg, s, k);
      assert EnvironmentOk(cfg, s, k.environmentId);
      if e.id in s.environments {
        assert EnvironmentOk(cfg, s, e.id);
      }
    }
  }

  lemma EnqueuedKeys(cfg: Config, s: State, s': State, t1: Time, op: Operation, e: Environment)
    requires KeysOk(s) && MayEnqueue(cfg, s, op.action, e, op.id)
    requires Enqueued(s, s', t1, op, e) && SameKeys(s, s')
    ensures KeysOk(s') && KeysEvolve(s, s')
  {
    forall k | k in s'.confirmations ensures ConfirmationOk(s', k) {
      assert ConfirmationOk(s, k);
    }
    forall k | k in s'.idempotency ensures IdempotencyOk(s', k) {
      assert IdempotencyOk(s, k);
    }
  }

  lemma EnqueueInv(cfg: Config, s: State, t0: Time, t1: Time, t2: Time, actor: Actor, action: Action, e: Environment,
                   warm: bool, newId: Text)
    requires Inv(cfg, s, t0) && t0 <= t1 <= t2
    requires MayEnqueue(cfg, s, action, e, newId)
    ensures Inv(cfg, Enqueue(s, t1, t2, actor, action, e, warm, newId), t2)
    ensures Evolves(s, Enqueue(s, t1, t2, actor, action, e, warm, newId))
  {
    var s' := Enqueue(s, t1, t2, actor, action, e, warm, newId);
    var op := NewOperation(t2, actor, action, e, warm, newId);
    EnqueueByRecord(s, t1, t2, actor, action, e, warm, newId);
    EnqueuedOperations(s, s', t0, t1, t2, op, e);
    EnqueuedEnvironments(cfg, s, s', t1, op, e);
    EnqueuedNotices(cfg, s, s', t1, op, e);
    EnqueuedKeys(cfg, s, s', t1, op, e);
  }
}
