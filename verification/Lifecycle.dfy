/** The durable state of the preview platform and its transactions, as functions from state to state
    (internal/platform/store.go and the outbox and link handlers of internal/platform/api.go).
    `LifecycleStore` holds the methods that perform them in place; the theorems are about these functions. */
module Lifecycle {
  import opened Basics

  /** Nanoseconds, as in the program's clock. */
  type Time = int
  const MINUTE: Time := 60_000_000_000
  const HOUR: Time := 60 * MINUTE

  datatype Error = Invalid | Forbidden | NotFound | Conflict | QuotaExceeded | PersistentProfile | OutsideLifetime
  datatype Result<+T> = Ok(value: T) | Err(error: Error)

  /** What a transaction leaves behind and what it answers. */
  datatype Txn<+T> = Txn(state: State, result: Result<T>)

  function Rollback<T>(s: State, e: Error): Txn<T> {
    Txn(s, Err(e))
  }

  // ---------------------------------------------------------------- entities

  /** Names, identifiers and free text, which the platform stores, compares and formats but never takes apart.
      `Keys` shows on real strings that the composite keys below are told apart by their text. */
  type Text(==, !new)

  datatype Role = Viewer | Developer | Admin
  datatype Identity = Identity(subject: Text, role: Role, teams: seq<Text>)

  /** Limits, the patterns that requests must match, and the formatting of addresses, instants and idempotency keys. */
  datatype Config = Config(
    provider: Text, users: seq<Identity>,
    ttl: Time, maxTtl: Time, warmTarget: Time, maxPreviews: int,
    validName: Text -> bool, validRevision: Text -> bool, validImage: Text -> bool, length: Text -> nat,
    url: Text -> Text, rfc3339: Time -> Text, idempotencyKey: (Text, Text) -> Text)

  predicate ValidConfig(c: Config) {
    0 < c.ttl <= c.maxTtl && 0 < c.warmTarget && 1 <= c.maxPreviews
  }

  datatype Profile = Unset | Preview | OtherProfile
  datatype EnvStatus = Pending | Ready | DeployFailed | Deleting | Deleted
  datatype OpStatus = Queued | Running | Succeeded | Failed | Superseded
  datatype Action = Deploy | Destroy
  datatype Actor = System | Subject(name: Text)

  datatype Environment = Environment(
    id: Text, owner: Text, team: Option<Text>, profile: Profile, provider: Text, revision: Text, image: Text,
    status: EnvStatus, url: Text, createdAt: Time, expiresAt: Option<Time>, generation: int, operationId: Text)

  /** What an operation is doing: the platform's own markers, or a milestone reported by the driver. */
  datatype Progress = InQueue | Recovering | Provisioning | Milestone(name: Text) | ReadyPhase | DeletedPhase

  datatype Operation = Operation(
    id: Text, environmentId: Text, actor: Actor, action: Action, status: OpStatus, phase: Progress, error: Option<Text>,
    requestedAt: Time, startedAt: Option<Time>, finishedAt: Option<Time>, timings: map<Text, Time>,
    generation: int, attempt: int, warm: bool)

  datatype Channel = Slack | Teams | Google | OtherChannel
  datatype AuditAction = OfAction(action: Action) | Extension | Linking
  datatype AuditTarget = OfEnvironment(env: Text) | OfChannel(channel: Channel)
  datatype AuditOutcome = Reached(status: OpStatus) | Until(instant: Text) | Linked
  datatype AuditEntry = AuditEntry(at: Time, actor: Actor, action: AuditAction, target: AuditTarget,
                                   outcome: AuditOutcome)

  datatype NoticeKind = Expiring | Late | ReadyNotice | FailedNotice | DeletedNotice | CleanupFailed

  /** kind:environment:operation, where an expiry notice puts the formatted expiry in the last place. */
  datatype NoticeKey = NoticeKey(kind: NoticeKind, environmentId: Text, operationId: Text)

  datatype Notice = Notice(
    key: NoticeKey, owner: Text, createdAt: Time, notBefore: Time, attempts: nat, delivered: bool, cancelled: bool)

  datatype Confirmation = Confirmation(id: Text, actor: Text, environmentId: Text, generation: int, expiresAt: Time)
  datatype LinkKey = LinkKey(channel: Channel, tenant: Text, user: Text)
  datatype Link = Link(key: LinkKey, subject: Text, destination: Text)
  datatype LinkCode = LinkCode(subject: Text, expiresAt: Time)

  datatype CreateRequest = CreateRequest(id: Text, team: Option<Text>, profile: Profile, revision: Text, image: Text,
                                         warm: bool)
  datatype ExtendMode = Add | FromNow | OtherMode

  /** `payloads` holds the request itself: its JSON text is only ever compared for equality. */
  datatype State = State(
    environments: map<Text, Environment>,
    operations: map<Text, Operation>,
    payloads: map<Text, CreateRequest>,
    idempotency: map<Text, Text>,
    confirmations: map<Text, Confirmation>,
    notices: map<NoticeKey, Notice>,
    links: map<LinkKey, Link>,
    linkCodes: map<Text, LinkCode>,
    audit: seq<AuditEntry>)

  const EMPTY := State(map[], map[], map[], map[], map[], map[], map[], map[], [])

  function Find(s: State, k: Text): Result<Operation> {
    if k in s.operations then Ok(s.operations[k]) else Err(NotFound)
  }

  predicate Live(op: Operation) {
    op.status == Queued || op.status == Running
  }

  predicate Deliverable(n: Notice) {
    !n.delivered && !n.cancelled
  }

  // ---------------------------------------------------------------- request validation

  predicate CanWrite(u: Identity, e: Environment) {
    u.role == Admin || (u.role == Developer && u.subject == e.owner && e.profile == Preview)
  }

  // ---------------------------------------------------------------- notices

  function Notify(s: State, now: Time, kind: NoticeKind, e: Environment, op: Text): State {
    var key := NoticeKey(kind, e.id, op);
    if key in s.notices then s
    else s.(notices := s.notices[key := Notice(key, e.owner, now, now, 0, false, false)])
  }

  function Withdrawn(n: Notice, env: Text): Notice {
    if n.key.environmentId == env && !n.delivered then n.(cancelled := true) else n
  }

  function CancelNotices(s: State, env: Text): State {
    s.(notices := map k | k in s.notices :: Withdrawn(s.notices[k], env))
  }

  function WithdrawnExpiring(n: Notice, env: Text): Notice {
    if n.key.kind == Expiring then Withdrawn(n, env) else n
  }

  function CancelExpiring(s: State, env: Text): State {
    s.(notices := map k | k in s.notices :: WithdrawnExpiring(s.notices[k], env))
  }

  function Audit(s: State, now: Time, actor: Actor, action: AuditAction, target: AuditTarget,
                 outcome: AuditOutcome): State {
    s.(audit := s.audit + [AuditEntry(now, actor, action, target, outcome)])
  }

  // ---------------------------------------------------------------- queueing and superseding

  function NewOperation(now: Time, actor: Actor, action: Action, e: Environment, warm: bool, newId: Text): Operation {
    Operation(newId, e.id, actor, action, Queued, InQueue, None, now, None, None, map[], e.generation, 0, warm)
  }

  function Queue(s: State, now: Time, actor: Actor, action: Action, e: Environment, warm: bool, newId: Text): State {
    var s1 := CancelNotices(s, e.id);
    var s2 := s1.(operations := s1.operations[newId := NewOperation(now, actor, action, e, warm, newId)],
                  environments := s1.environments[e.id := e.(operationId := newId)]);
    Audit(s2, now, actor, OfAction(action), OfEnvironment(e.id), Reached(Queued))
  }

  function Supersede(s: State, opId: Text, now: Time): State {
    if opId in s.operations && Live(s.operations[opId]) then
      s.(operations := s.operations[opId := s.operations[opId].(status := Superseded, finishedAt := Some(now))])
    else s
  }

  // ---------------------------------------------------------------- transactions of the public API

  function LiveEnvironments(s: State): set<Text> {
    set k | k in s.environments && s.environments[k].status != Deleted
  }

  function Normalized(r: CreateRequest): CreateRequest {
    if r.profile == Unset then r.(profile := Preview) else r
  }

  function NewEnvironment(cfg: Config, u: Identity, r: CreateRequest, now: Time, generation: int,
                          newId: Text): Environment {
    Environment(r.id, u.subject, r.team, r.profile, cfg.provider, r.revision, r.image, Pending,
                cfg.url(r.id), now, Some(now + cfg.ttl), generation, newId)
  }

  /** The checks made before the transaction starts. */
  function CreateRefusal(cfg: Config, u: Identity, r: CreateRequest, key: Text): Option<Error> {
    if !cfg.validName(r.id) || !cfg.validRevision(r.revision) || !cfg.validImage(r.image) then Some(Invalid)
    else if cfg.length(key) == 0 || cfg.length(key) > 200 then Some(Invalid)
    else if Normalized(r).profile != Preview then Some(PersistentProfile)
    else if u.role != Developer && u.role != Admin then Some(Forbidden)
    else if r.team.Some? && u.role != Admin && r.team.value !in u.teams then Some(Forbidden)
    else None
  }

  /** Queues the first deployment of a new environment and records the request under its idempotency key. */
  function Admit(cfg: Config, s: State, u: Identity, r: CreateRequest, ik: Text, generation: int, now: Time,
                 newId: Text): State {
    var s1 :=
      Queue(s, now, Subject(u.subject), Deploy, NewEnvironment(cfg, u, r, now, generation, newId), r.warm, newId);
    s1.(idempotency := s1.idempotency[ik := newId], payloads := s1.payloads[ik := r])
  }

  function Create(cfg: Config, s: State, u: Identity, request: CreateRequest, key: Text, now: Time,
                  newId: Text): Txn<Operation>
  {
    var refusal := CreateRefusal(cfg, u, request, key);
    if refusal.Some? then Rollback(s, refusal.value) else
    var r := Normalized(request);
    var ik := cfg.idempotencyKey(u.subject, key);
    if ik in s.idempotency then
      if ik in s.payloads && s.payloads[ik] != r then Rollback(s, Conflict)
      else Txn(s, Find(s, s.idempotency[ik]))
    else if r.id in s.environments && s.environments[r.id].status != Deleted then Rollback(s, Conflict)
    else if r.id in s.environments && s.environments[r.id].owner != u.subject
        && u.role != Admin then Rollback(s, Forbidden)
    else
      var generation := if r.id in s.environments then s.environments[r.id].generation + 1 else 1;
      if |LiveEnvironments(s)| >= cfg.maxPreviews then Rollback(s, QuotaExceeded)
      else
        var s1 := Admit(cfg, s, u, r, ik, generation, now, newId);
        Txn(s1, Find(s1, newId))
  }

  /** Stores environment `e`, whose expiry has moved. A deployment in flight keeps carrying the
      environment's generation. */
  function Reschedule(cfg: Config, s: State, e: Environment, actor: Text, now: Time): State
    requires e.expiresAt.Some?
  {
    var operations := if e.operationId in s.operations && Live(s.operations[e.operationId]) then
                        s.operations[e.operationId := s.operations[e.operationId].(generation := e.generation)]
                      else s.operations;
    Audit(CancelExpiring(s.(environments := s.environments[e.id := e], operations := operations), e.id),
          now, Subject(actor), Extension, OfEnvironment(e.id), Until(cfg.rfc3339(e.expiresAt.value)))
  }

  function Extend(cfg: Config, s: State, u: Identity, env: Text, mode: ExtendMode, minutes: int, expected: int,
                  now: Time): Txn<Environment>
  {
    if minutes < 1 || minutes > 10080 || mode == OtherMode then Rollback(s, Invalid)
    else if env !in s.environments then Rollback(s, NotFound)
    else
      var e := s.environments[env];
      if !CanWrite(u, e) then Rollback(s, Forbidden)
      else if e.profile != Preview || e.expiresAt.None? || e.status == Deleting || e.status == Deleted
          || e.generation != expected
      then Rollback(s, Conflict)
      else
        var next := (if mode == Add then e.expiresAt.value else now) + minutes * MINUTE;
        if next > e.createdAt + cfg.maxTtl || next <= now then Rollback(s, OutsideLifetime)
        else
          var e' := e.(expiresAt := Some(next), generation := e.generation + 1);
          Txn(Reschedule(cfg, s, e', u.subject, now), Ok(e'))
  }

  function ConfirmDelete(s: State, u: Identity, env: Text, now: Time, newId: Text): Txn<Confirmation> {
    if env !in s.environments then Rollback(s, NotFound)
    else
      var e := s.environments[env];
      if !CanWrite(u, e) then Rollback(s, Forbidden)
      else if e.profile != Preview || e.status == Deleted then Rollback(s, Conflict)
      else
        var c := Confirmation(newId, u.subject, e.id, e.generation, now + 5 * MINUTE);
        Txn(s.(confirmations := s.confirmations[newId := c]), Ok(c))
  }

  /** Reads the clock three times: to check the confirmation, to supersede and to queue. */
  function Delete(s: State, u: Identity, env: Text, confirmation: Text, t0: Time, t1: Time, t2: Time,
                  newId: Text): Txn<Operation> {
    if env !in s.environments then Rollback(s, NotFound)
    else
      var e := s.environments[env];
      if !CanWrite(u, e) then Rollback(s, Forbidden)
      else if confirmation !in s.confirmations then Rollback(s, Conflict)
      else
        var c := s.confirmations[confirmation];
        if c.actor != u.subject || c.environmentId != e.id || c.generation != e.generation || t0 >= c.expiresAt
            || e.profile != Preview
        then Rollback(s, Conflict)
        else
          var s1 := s.(confirmations := s.confirmations - {confirmation});
          var s2 := Supersede(s1, e.operationId, t1);
          var s3 := Queue(s2, t2, Subject(u.subject), Destroy, e.(generation := e.generation + 1, status := Deleting),
                          false, newId);
          Txn(s3, Find(s3, newId))
  }

  /** Reads the clock twice: to supersede and to queue. */
  function Redeploy(cfg: Config, s: State, u: Identity, env: Text, revision: Text, image: Text, expected: int,
                    t0: Time, t1: Time, newId: Text): Txn<Operation> {
    if !cfg.validRevision(revision) || !cfg.validImage(image) then Rollback(s, Invalid)
    else if env !in s.environments then Rollback(s, NotFound)
    else
      var e := s.environments[env];
      if !CanWrite(u, e) then Rollback(s, Forbidden)
      else if e.generation != expected || e.status == Deleting || e.status == Deleted then Rollback(s, Conflict)
      else
        var s1 := Supersede(s, e.operationId, t0);
        var s2 := Queue(s1, t1, Subject(u.subject), Deploy,
                        e.(revision := revision, image := image, generation := e.generation + 1, status := Pending),
                            true, newId);
        Txn(s2, Find(s2, newId))
  }

  function MintLinkCode(s: State, subject: Text, now: Time, newId: Text): State {
    s.(linkCodes := s.linkCodes[newId := LinkCode(subject, now + 5 * MINUTE)])
  }

  /** Consumes a link code. The clock is read to check the code and again for the audit entry. An absent tenant, user or
      destination is refused. */
  function Redeem(s: State, code: Text, channel: Channel, tenant: Option<Text>, user: Option<Text>,
                  destination: Option<Text>, t0: Time, t1: Time): Txn<Link>
  {
    if channel == OtherChannel || tenant.None? || user.None? || destination.None? then Rollback(s, Invalid)
    else if code !in s.linkCodes || t0 >= s.linkCodes[code].expiresAt then Rollback(s, Forbidden)
    else
      var link := Link(LinkKey(channel, tenant.value, user.value), s.linkCodes[code].subject, destination.value);
      var s1 := s.(links := s.links[link.key := link], linkCodes := s.linkCodes - {code});
      Txn(Audit(s1, t1, Subject(link.subject), Linking, OfChannel(channel), Linked), Ok(link))
  }

  // ---------------------------------------------------------------- reconciliation

  function DropExpired(s: State, now: Time): State {
    s.(confirmations := map k | k in s.confirmations && now < s.confirmations[k].expiresAt :: s.confirmations[k],
       linkCodes := map k | k in s.linkCodes && now < s.linkCodes[k].expiresAt :: s.linkCodes[k])
  }

  predicate CleanupRetryDue(op: Operation, now: Time) {
    op.status == Failed && op.finishedAt.Some? && now - op.finishedAt.value >= HOUR
  }

  predicate ExpiryNoticeDue(e: Environment, now: Time) {
    e.expiresAt.Some? && e.expiresAt.value - now <= 5 * MINUTE
  }

  predicate LateNoticeDue(cfg: Config, op: Operation, now: Time) {
    op.warm && Live(op) && now - op.requestedAt > cfg.warmTarget
  }

  /** One turn of the loop over environments. */
  function ReconcileOne(cfg: Config, s: State, k: Text, now: Time, newId: Text): State
    requires k in s.environments
  {
    var e := s.environments[k];
    if e.profile != Preview || e.status == Deleted then s else
    if e.status == Deleting then
      if e.operationId in s.operations && CleanupRetryDue(s.operations[e.operationId], now) then
        Queue(s, now, System, Destroy, e.(generation := e.generation + 1), false, newId)
      else s
    else if e.expiresAt.Some? && now >= e.expiresAt.value then
      Queue(Supersede(s, e.operationId, now), now, System, Destroy,
            e.(generation := e.generation + 1, status := Deleting), false, newId)
    else
      var s1 := if ExpiryNoticeDue(e, now) then Notify(s, now, Expiring, e, cfg.rfc3339(e.expiresAt.value)) else s;
      if e.operationId in s.operations && LateNoticeDue(cfg, s.operations[e.operationId], now)
          then Notify(s1, now, Late, e, e.operationId) else s1
  }

  /** The loop, for the order in which the environments happen to be visited. `newIds[k]` is the id drawn if
      environment k needs a cleanup operation. */
  function ReconcileAll(cfg: Config, s: State, order: seq<Text>, now: Time, newIds: map<Text, Text>): State
    decreases |order|
  {
    if order == [] then s
    else if order[0] !in s.environments || order[0] !in newIds then ReconcileAll(cfg, s, order[1..], now, newIds)
    else ReconcileAll(cfg, ReconcileOne(cfg, s, order[0], now, newIds[order[0]]), order[1..], now, newIds)
  }

  function Reconcile(cfg: Config, s: State, order: seq<Text>, now: Time, newIds: map<Text, Text>): State {
    ReconcileAll(cfg, DropExpired(s, now), order, now, newIds)
  }

  // ---------------------------------------------------------------- transactions of the worker

  function Requeued(op: Operation): Operation {
    if op.status == Running then op.(status := Queued, phase := Recovering) else op
  }

  function Recover(s: State): State {
    s.(operations := map k | k in s.operations :: Requeued(s.operations[k]))
  }

  predicate IsCurrent(s: State, env: Text, op: Text) {
    env in s.environments && s.environments[env].operationId == op
  }

  predicate Eligible(s: State, busy: set<Text>, k: Text) {
    && k in s.operations
    && s.operations[k].status == Queued
    && s.operations[k].environmentId !in busy
    && IsCurrent(s, s.operations[k].environmentId, s.operations[k].id)
  }

  /** What claimExcept may pick: an eligible operation requested no later than any other, or nothing if
      none is eligible. */
  ghost predicate MayClaim(s: State, busy: set<Text>, pick: Option<Text>) {
    match pick
    case None => forall k :: k in s.operations ==> !Eligible(s, busy, k)
    case Some(o) => Eligible(s, busy, o) &&
                    forall k :: k in s.operations && Eligible(s, busy, k) ==>
                        s.operations[o].requestedAt <= s.operations[k].requestedAt
  }

  function Claimed(op: Operation, now: Time): Operation {
    op.(startedAt := if op.startedAt.None? then Some(now) else op.startedAt,
        status := Running, attempt := op.attempt + 1, phase := Provisioning)
  }

  function Claim(s: State, pick: Option<Text>, now: Time): State {
    if pick.None?
        || pick.value !in s.operations then s
        else s.(operations := s.operations[pick.value := Claimed(s.operations[pick.value], now)])
  }

  function Phase(s: State, opId: Text, phase: Text, now: Time): Txn<()> {
    if opId !in s.operations then Rollback(s, NotFound)
    else
      var op := s.operations[opId];
      if op.status != Running then Rollback(s, Conflict)
      else Txn(s.(operations := s.operations[opId := op.(phase := Milestone(phase),
          timings := op.timings[phase := now])]), Ok(()))
  }

  function OutcomeKind(a: Action, failed: bool): NoticeKind {
    match a
    case Deploy => if failed then FailedNotice else ReadyNotice
    case Destroy => if failed then CleanupFailed else DeletedNotice
  }

  function Finish(s: State, opId: Text, failure: Option<Text>, now: Time): Txn<()> {
    if opId !in s.operations then Rollback(s, NotFound)
    else
      var op := s.operations[opId];
      if op.status != Running || !IsCurrent(s, op.environmentId, op.id) then Txn(s, Ok(()))
      else
        var e := s.environments[op.environmentId];
        var s1 := CancelNotices(s, e.id);
        var op1 := op.(finishedAt := Some(now));
        var op2 := if failure.Some? then op1.(status := Failed, error := failure)
                   else op1.(status := Succeeded, phase := if op.action == Destroy then DeletedPhase else ReadyPhase);
        var e2 := if failure.Some? then (if op.action == Destroy then e else e.(status := DeployFailed))
                  else e.(status := if op.action == Destroy then Deleted else Ready);
        var s2 := Notify(s1, now, OutcomeKind(op.action, failure.Some?), e2, op.id);
        var s3 := s2.(operations := s2.operations[op.id := op2], environments := s2.environments[e.id := e2]);
        Txn(Audit(s3, now, op.actor, OfAction(op.action), OfEnvironment(e.id), Reached(op2.status)), Ok(()))
  }

  // ---------------------------------------------------------------- the notification outbox

  function Min(a: nat, b: nat): nat { if a <= b then a else b }

  function Pow2(n: nat): nat {
    if n == 0 then 1 else 2 * Pow2(n - 1)
  }

  /** Minutes between the lease numbered `attempts` and the next one. */
  function Backoff(attempts: nat): nat {
    Min(60, Pow2(Min(attempts, 6)))
  }

  predicate KnownSubject(cfg: Config, subject: Text) {
    exists u :: u in cfg.users && u.subject == subject
  }

  predicate HasLink(s: State, subject: Text) {
    exists k :: k in s.links && s.links[k].subject == subject
  }

  predicate Leasable(cfg: Config, s: State, k: NoticeKey, now: Time) {
    && k in s.notices
    && Deliverable(s.notices[k])
    && s.notices[k].notBefore <= now
    && KnownSubject(cfg, s.notices[k].owner)
    && HasLink(s, s.notices[k].owner)
  }

  const LEASE_LIMIT := 20

  /** What one call may lease: as many leasable notices as there are, up to the limit, whichever come first. */
  ghost predicate MayLease(cfg: Config, s: State, picked: set<NoticeKey>, now: Time) {
    && |picked| <= LEASE_LIMIT
    && (forall k :: k in picked ==> Leasable(cfg, s, k, now))
    && (|picked| < LEASE_LIMIT ==> forall k :: k in s.notices && Leasable(cfg, s, k, now) ==> k in picked)
  }

  function Leased(n: Notice, now: Time): Notice {
    n.(attempts := n.attempts + 1, notBefore := now + MINUTE * Backoff(n.attempts + 1))
  }

  function Lease(s: State, picked: set<NoticeKey>, now: Time): State {
    s.(notices := map k | k in s.notices :: if k in picked then Leased(s.notices[k], now) else s.notices[k])
  }

  function Acknowledge(s: State, k: NoticeKey): Txn<()> {
    if k !in s.notices then Rollback(s, NotFound)
    else Txn(s.(notices := s.notices[k := s.notices[k].(delivered := true)]), Ok(()))
  }
}
