/** The store of internal/platform/store.go: the durable maps and the transactions that update them in place, each
    proved to do exactly what its function in `Lifecycle` says. */
module LifecycleStore {
  import opened Basics
  import L = Lifecycle
  import opened Lifecycle

  class Store {
    const cfg: Config
    var environments: map<Text, Environment>
    var operations: map<Text, Operation>
    var payloads: map<Text, CreateRequest>
    var idempotency: map<Text, Text>
    var confirmations: map<Text, Confirmation>
    var notices: map<NoticeKey, Notice>
    var links: map<LinkKey, Link>
    var linkCodes: map<Text, LinkCode>
    var trail: seq<AuditEntry>

    /** The state as a value. */
    function View(): State
      reads this
    {
      State(environments, operations, payloads, idempotency, confirmations, notices, links, linkCodes, trail)
    }

    constructor (cfg: Config)
      ensures View() == EMPTY && this.cfg == cfg
    {
      this.cfg := cfg;
      environments, operations, payloads, idempotency := map[], map[], map[], map[];
      confirmations, notices, links, linkCodes, trail := map[], map[], map[], map[], [];
    }

    // ---------------------------------------------------------------- helpers of the transactions

    method Audit(now: Time, actor: Actor, action: AuditAction, target: AuditTarget, outcome: AuditOutcome)
      modifies this`trail
      ensures View() == L.Audit(old(View()), now, actor, action, target, outcome)
    {
      trail := trail + [AuditEntry(now, actor, action, target, outcome)];
    }

    method Notify(now: Time, kind: NoticeKind, e: Environment, op: Text)
      modifies this`notices
      ensures View() == L.Notify(old(View()), now, kind, e, op)
    {
      var key := NoticeKey(kind, e.id, op);
      if key !in notices {
        notices := notices[key := Notice(key, e.owner, now, now, 0, false, false)];
      }
    }

    method CancelNotices(env: Text)
      modifies this`notices
      ensures View() == L.CancelNotices(old(View()), env)
    {
      var keys := notices.Keys;
      while keys != {}
        invariant keys <= notices.Keys == old(notices).Keys
        invariant forall k :: k in notices ==> notices[k] == if k in keys then old(notices)[k]
            else Withdrawn(old(notices)[k], env)
        decreases keys
      {
        var k :| k in keys;
        keys := keys - {k};
        var n := notices[k];
        if n.key.environmentId == env && !n.delivered {
          notices := notices[k := n.(cancelled := true)];
        }
      }
      assert notices == L.CancelNotices(old(View()), env).notices;
    }

    method CancelExpiring(env: Text)
      modifies this`notices
      ensures View() == L.CancelExpiring(old(View()), env)
    {
      var keys := notices.Keys;
      while keys != {}
        invariant keys <= notices.Keys == old(notices).Keys
        invariant forall k :: k in notices ==> notices[k] == if k in keys then old(notices)[k]
            else WithdrawnExpiring(old(notices)[k], env)
        decreases keys
      {
        var k :| k in keys;
        keys := keys - {k};
        var n := notices[k];
        if n.key.environmentId == env && n.key.kind == Expiring && !n.delivered {
          notices := notices[k := n.(cancelled := true)];
        }
      }
      assert notices == L.CancelExpiring(old(View()), env).notices;
    }

    method Queue(now: Time, actor: Actor, action: Action, e: Environment, warm: bool,
                 newId: Text) returns (op: Operation)
      modifies this`notices, this`operations, this`environments, this`trail
      ensures View() == L.Queue(old(View()), now, actor, action, e, warm, newId)
      ensures newId in operations && op == operations[newId]
      ensures old(environments).Keys <= environments.Keys
    {
      CancelNotices(e.id);
      op := Operation(newId, e.id, actor, action, Queued, InQueue, None, now, None, None, map[], e.generation, 0, warm);
      operations := operations[newId := op];
      environments := environments[e.id := e.(operationId := newId)];
      Audit(now, actor, OfAction(action), OfEnvironment(e.id), Reached(Queued));
    }

    method Supersede(opId: Text, now: Time)
      modifies this`operations
      ensures View() == L.Supersede(old(View()), opId, now)
    {
      if opId in operations && (operations[opId].status == Queued || operations[opId].status == Running) {
        operations := operations[opId := operations[opId].(status := Superseded, finishedAt := Some(now))];
      }
    }

    method CountLive() returns (count: nat)
      ensures count == |LiveEnvironments(View())|
    {
      var keys := environments.Keys;
      ghost var seen: set<Text> := {};
      count := 0;
      while keys != {}
        invariant keys <= environments.Keys
        invariant seen == set k | k in environments && k !in keys && environments[k].status != Deleted
        invariant count == |seen|
        decreases keys
      {
        var k :| k in keys;
        keys := keys - {k};
        if environments[k].status != Deleted {
          count := count + 1;
          seen := seen + {k};
        }
      }
      assert seen == LiveEnvironments(View());
    }

    // ---------------------------------------------------------------- the public API

    /** The checks made before the transaction starts. */
    method Refusal(u: Identity, request: CreateRequest, key: Text) returns (refusal: Option<Error>)
      ensures refusal == CreateRefusal(cfg, u, request, key)
    {
      if !cfg.validName(request.id) || !cfg.validRevision(request.revision) || !cfg.validImage(request.image)
         || cfg.length(key) == 0 || cfg.length(key) > 200 {
        return Some(Invalid);
      }
      if request.profile != Unset && request.profile != Preview {
        return Some(PersistentProfile);
      }
      if u.role != Developer && u.role != Admin {
        return Some(Forbidden);
      }
      var teamOk := request.team.None? || u.role == Admin;
      for i := 0 to |u.teams|
        invariant teamOk <==> request.team.None? || u.role == Admin || request.team.value in u.teams[..i]
      {
        if Some(u.teams[i]) == request.team {
          teamOk := true;
        }
      }
      return if teamOk then None else Some(Forbidden);
    }

    method Create(u: Identity, request: CreateRequest, key: Text, now: Time, newId: Text) returns (r: Result<Operation>)
      modifies this
      ensures View() == L.Create(cfg, old(View()), u, request, key, now, newId).state
      ensures r == L.Create(cfg, old(View()), u, request, key, now, newId).result
    {
      var refusal := Refusal(u, request, key);
      if refusal.Some? {
        return Err(refusal.value);
      }
      var req := if request.profile == Unset then request.(profile := Preview) else request;
      var ik := cfg.idempotencyKey(u.subject, key);
      if ik in idempotency {
        if ik in payloads && payloads[ik] != req {
          return Err(Conflict);
        }
        return Find(View(), idempotency[ik]);
      }
      var generation := 1;
      if req.id in environments {
        var previous := environments[req.id];
        if previous.status != Deleted {
          return Err(Conflict);
        }
        if previous.owner != u.subject && u.role != Admin {
          return Err(Forbidden);
        }
        generation := previous.generation + 1;
      }
      var count := CountLive();
      if count >= cfg.maxPreviews {
        return Err(QuotaExceeded);
      }
      r := Admit(u, req, ik, generation, now, newId);
    }

    method Admit(u: Identity, req: CreateRequest, ik: Text, generation: int, now: Time,
                 newId: Text) returns (r: Result<Operation>)
      modifies this
      ensures View() == L.Admit(cfg, old(View()), u, req, ik, generation, now, newId)
      ensures r == Find(View(), newId)
    {
      var env := Environment(req.id, u.subject, req.team, req.profile, cfg.provider, req.revision, req.image, Pending,
                             cfg.url(req.id), now, Some(now + cfg.ttl), generation, newId);
      var op := Queue(now, Subject(u.subject), Deploy, env, req.warm, newId);
      idempotency := idempotency[ik := op.id];
      payloads := payloads[ik := req];
      return Ok(op);
    }

    method Reschedule(e: Environment, actor: Text, now: Time)
      requires e.expiresAt.Some?
      modifies this
      ensures View() == L.Reschedule(cfg, old(View()), e, actor, now)
    {
      environments := environments[e.id := e];
      if e.operationId in operations
        && (operations[e.operationId].status == Queued || operations[e.operationId].status == Running) {
        operations := operations[e.operationId := operations[e.operationId].(generation := e.generation)];
      }
      CancelExpiring(e.id);
      Audit(now, Subject(actor), Extension, OfEnvironment(e.id), Until(cfg.rfc3339(e.expiresAt.value)));
    }

    method Extend(u: Identity, env: Text, mode: ExtendMode, minutes: int, expected: int,
                  now: Time) returns (r: Result<Environment>)
      modifies this
      ensures View() == L.Extend(cfg, old(View()), u, env, mode, minutes, expected, now).state
      ensures r == L.Extend(cfg, old(View()), u, env, mode, minutes, expected, now).result
    {
      if minutes < 1 || minutes > 10080 || (mode != Add && mode != FromNow) {
        return Err(Invalid);
      }
      if env !in environments {
        return Err(NotFound);
      }
      var e := environments[env];
      if !CanWrite(u, e) {
        return Err(Forbidden);
      }
      if e.profile != Preview || e.expiresAt.None? || e.status == Deleting || e.status == Deleted
          || e.generation != expected {
        return Err(Conflict);
      }
      var next := now + minutes * MINUTE;
      if mode == Add {
        next := e.expiresAt.value + minutes * MINUTE;
      }
      if next > e.createdAt + cfg.maxTtl || next <= now {
        return Err(OutsideLifetime);
      }
      e := e.(expiresAt := Some(next), generation := e.generation + 1);
      Reschedule(e, u.subject, now);
      return Ok(e);
    }

    method ConfirmDelete(u: Identity, env: Text, now: Time, newId: Text) returns (r: Result<Confirmation>)
      modifies this
      ensures View() == L.ConfirmDelete(old(View()), u, env, now, newId).state
      ensures r == L.ConfirmDelete(old(View()), u, env, now, newId).result
    {
      if env !in environments {
        return Err(NotFound);
      }
      var e := environments[env];
      if !CanWrite(u, e) {
        return Err(Forbidden);
      }
      if e.profile != Preview || e.status == Deleted {
        return Err(Conflict);
      }
      var c := Confirmation(newId, u.subject, e.id, e.generation, now + 5 * MINUTE);
      confirmations := confirmations[newId := c];
      return Ok(c);
    }

    method Delete(u: Identity, env: Text, confirmation: Text, t0: Time, t1: Time, t2: Time,
                  newId: Text) returns (r: Result<Operation>)
      modifies this
      ensures View() == L.Delete(old(View()), u, env, confirmation, t0, t1, t2, newId).state
      ensures r == L.Delete(old(View()), u, env, confirmation, t0, t1, t2, newId).result
    {
      if env !in environments {
        return Err(NotFound);
      }
      var e := environments[env];
      if !CanWrite(u, e) {
        return Err(Forbidden);
      }
      if confirmation !in confirmations {
        return Err(Conflict);
      }
      var c := confirmations[confirmation];
      if c.actor != u.subject || c.environmentId != e.id || c.generation != e.generation || t0 >= c.expiresAt
          || e.profile != Preview {
        return Err(Conflict);
      }
      confirmations := confirmations - {confirmation};
      Supersede(e.operationId, t1);
      e := e.(generation := e.generation + 1, status := Deleting);
      var op := Queue(t2, Subject(u.subject), Destroy, e, false, newId);
      return Ok(op);
    }

    method Redeploy(u: Identity, env: Text, revision: Text, image: Text, expected: int, t0: Time, t1: Time,
                    newId: Text) returns (r: Result<Operation>)
      modifies this
      ensures View() == L.Redeploy(cfg, old(View()), u, env, revision, image, expected, t0, t1, newId).state
      ensures r == L.Redeploy(cfg, old(View()), u, env, revision, image, expected, t0, t1, newId).result
    {
      if !cfg.validRevision(revision) || !cfg.validImage(image) {
        return Err(Invalid);
      }
      if env !in environments {
        return Err(NotFound);
      }
      var e := environments[env];
      if !CanWrite(u, e) {
        return Err(Forbidden);
      }
      if e.generation != expected || e.status == Deleting || e.status == Deleted {
        return Err(Conflict);
      }
      Supersede(e.operationId, t0);
      e := e.(revision := revision, image := image, generation := e.generation + 1, status := Pending);
      var op := Queue(t1, Subject(u.subject), Deploy, e, true, newId);
      return Ok(op);
    }

    method MintLinkCode(subject: Text, now: Time, newId: Text)
      modifies this
      ensures View() == L.MintLinkCode(old(View()), subject, now, newId)
    {
      linkCodes := linkCodes[newId := LinkCode(subject, now + 5 * MINUTE)];
    }

    method Redeem(code: Text, channel: Channel, tenant: Option<Text>, user: Option<Text>, destination: Option<Text>,
                  t0: Time, t1: Time)
      returns (r: Result<Link>)
      modifies this
      ensures View() == L.Redeem(old(View()), code, channel, tenant, user, destination, t0, t1).state
      ensures r == L.Redeem(old(View()), code, channel, tenant, user, destination, t0, t1).result
    {
      if channel != Slack && channel != Teams && channel != Google {
        return Err(Invalid);
      }
      if tenant.None? || user.None? || destination.None? {
        return Err(Invalid);
      }
      if code !in linkCodes || t0 >= linkCodes[code].expiresAt {
        return Err(Forbidden);
      }
      var link := Link(LinkKey(channel, tenant.value, user.value), linkCodes[code].subject, destination.value);
      links := links[link.key := link];
      linkCodes := linkCodes - {code};
      Audit(t1, Subject(link.subject), Linking, OfChannel(channel), Linked);
      return Ok(link);
    }

    // ---------------------------------------------------------------- reconciliation

    method DropExpired(now: Time)
      modifies this`confirmations, this`linkCodes
      ensures View() == L.DropExpired(old(View()), now)
    {
      DropConfirmations(now);
      DropLinkCodes(now);
    }

    method DropConfirmations(now: Time)
      modifies this`confirmations
      ensures confirmations == L.DropExpired(old(View()), now).confirmations
    {
      var keys := confirmations.Keys;
      while keys != {}
        invariant keys <= old(confirmations).Keys
        invariant confirmations == map k |
            k in old(confirmations) && (k in keys || now < old(confirmations)[k].expiresAt) ::
            old(confirmations)[k]
        decreases keys
      {
        var k :| k in keys;
        keys := keys - {k};
        if now >= confirmations[k].expiresAt {
          confirmations := confirmations - {k};
        }
      }
    }

    method DropLinkCodes(now: Time)
      modifies this`linkCodes
      ensures linkCodes == L.DropExpired(old(View()), now).linkCodes
    {
      var keys := linkCodes.Keys;
      while keys != {}
        invariant keys <= old(linkCodes).Keys
        invariant linkCodes == map k |
            k in old(linkCodes) && (k in keys || now < old(linkCodes)[k].expiresAt) ::
            old(linkCodes)[k]
        decreases keys
      {
        var k :| k in keys;
        keys := keys - {k};
        if now >= linkCodes[k].expiresAt {
          linkCodes := linkCodes - {k};
        }
      }
    }

    /** The body of the loop over environments. */
    method ReconcileOne(k: Text, now: Time, newId: Text)
      requires k in environments
      modifies this
      ensures View() == L.ReconcileOne(cfg, old(View()), k, now, newId)
      ensures old(environments).Keys <= environments.Keys
    {
      var e := environments[k];
      if e.profile != Preview || e.status == Deleted {
        return;
      }
      if e.status == Deleting {
        if e.operationId in operations && CleanupRetryDue(operations[e.operationId], now) {
          var _ := Queue(now, System, Destroy, e.(generation := e.generation + 1), false, newId);
        }
        return;
      }
      if e.expiresAt.Some? && now >= e.expiresAt.value {
        Supersede(e.operationId, now);
        var _ := Queue(now, System, Destroy, e.(generation := e.generation + 1, status := Deleting), false, newId);
        return;
      }
      if e.expiresAt.Some? && e.expiresAt.value - now <= 5 * MINUTE {
        Notify(now, Expiring, e, cfg.rfc3339(e.expiresAt.value));
      }
      if e.operationId in operations && LateNoticeDue(cfg, operations[e.operationId], now) {
        Notify(now, Late, e, e.operationId);
      }
    }

    /** `order` is the order in which the environments happened to be visited. */
    method Reconcile(now: Time, newIds: map<Text, Text>) returns (order: seq<Text>)
      requires environments.Keys <= newIds.Keys
      modifies this
      ensures forall k :: k in order <==> k in old(environments)
      ensures forall i, j :: 0 <= i < j < |order| ==> order[i] != order[j]
      ensures View() == L.Reconcile(cfg, old(View()), order, now, newIds)
    {
      DropExpired(now);
      ghost var s0 := View();
      var keys := environments.Keys;
      order := [];
      while keys != {}
        invariant keys <= environments.Keys && keys <= newIds.Keys
        invariant forall k :: k in order <==> k in old(environments) && k !in keys
        invariant keys <= old(environments).Keys
        invariant forall i, j :: 0 <= i < j < |order| ==> order[i] != order[j]
        invariant View() == L.ReconcileAll(cfg, s0, order, now, newIds)
        decreases keys
      {
        var k :| k in keys;
        keys := keys - {k};
        OneMore(cfg, s0, order, k, now, newIds);
        order := order + [k];
        ReconcileOne(k, now, newIds[k]);
      }
    }

    // ---------------------------------------------------------------- the worker's transactions

    method Recover()
      modifies this`operations
      ensures View() == L.Recover(old(View()))
    {
      var keys := operations.Keys;
      while keys != {}
        invariant keys <= operations.Keys == old(operations).Keys
        invariant forall k :: k in operations ==> operations[k] == if k in keys then old(operations)[k]
            else Requeued(old(operations)[k])
        decreases keys
      {
        var k :| k in keys;
        keys := keys - {k};
        if operations[k].status == Running {
          operations := operations[k := operations[k].(status := Queued, phase := Recovering)];
        }
      }
      assert operations == L.Recover(old(View())).operations;
    }

    ghost predicate InRequestOrder(keys: seq<Text>)
      reads this`operations
    {
      OrderedByRequest(operations, keys)
    }

    /** One more identifier, in its place. */
    method Inserted(keys: seq<Text>, k: Text) returns (longer: seq<Text>)
      requires InRequestOrder(keys) && k in operations
      ensures InRequestOrder(longer)
      ensures forall j :: j in longer <==> j in keys || j == k
    {
      var at := 0;
      while at < |keys| && operations[keys[at]].requestedAt <= operations[k].requestedAt
        invariant 0 <= at <= |keys|
        invariant forall i :: 0 <= i < at ==> operations[keys[i]].requestedAt <= operations[k].requestedAt
      {
        at := at + 1;
      }
      longer := keys[..at] + [k] + keys[at..];
    }

    /** The identifiers of the operations, earliest request first. */
    method ByRequest() returns (keys: seq<Text>)
      ensures forall k :: k in keys <==> k in operations
      ensures InRequestOrder(keys)
    {
      var rest := operations.Keys;
      keys := [];
      while rest != {}
        invariant rest <= operations.Keys
        invariant forall k :: k in keys <==> k in operations && k !in rest
        invariant InRequestOrder(keys)
        decreases rest
      {
        var k :| k in rest;
        rest := rest - {k};
        keys := Inserted(keys, k);
      }
    }

    /** Picks the operation to run next, or nothing. */
    method Claim(busy: set<Text>, now: Time) returns (pick: Option<Text>)
      modifies this`operations
      ensures MayClaim(old(View()), busy, pick)
      ensures View() == L.Claim(old(View()), pick, now)
    {
      var keys := ByRequest();
      for i := 0 to |keys|
        invariant operations == old(operations)
        invariant forall j {:trigger keys[j]} :: 0 <= j < i ==> !Eligible(View(), busy, keys[j])
      {
        var op := operations[keys[i]];
        if op.status == Queued && op.environmentId !in busy && IsCurrent(View(), op.environmentId, op.id) {
          Take(keys[i], now);
          return Some(keys[i]);
        }
      }
      pick := None;
    }

    method Take(k: Text, now: Time)
      requires k in operations
      modifies this`operations
      ensures View() == L.Claim(old(View()), Some(k), now)
    {
      var op := operations[k];
      if op.startedAt.None? {
        op := op.(startedAt := Some(now));
      }
      op := op.(status := Running, attempt := op.attempt + 1, phase := Provisioning);
      operations := operations[k := op];
    }

    method Phase(opId: Text, phase: Text, now: Time) returns (r: Result<()>)
      modifies this`operations
      ensures View() == L.Phase(old(View()), opId, phase, now).state
      ensures r == L.Phase(old(View()), opId, phase, now).result
    {
      if opId !in operations {
        return Err(NotFound);
      }
      var op := operations[opId];
      if op.status != Running {
        return Err(Conflict);
      }
      operations := operations[opId := op.(phase := Milestone(phase), timings := op.timings[phase := now])];
      return Ok(());
    }

    method Finish(opId: Text, failure: Option<Text>, now: Time) returns (r: Result<()>)
      modifies this
      ensures View() == L.Finish(old(View()), opId, failure, now).state
      ensures r == L.Finish(old(View()), opId, failure, now).result
    {
      if opId !in operations {
        return Err(NotFound);
      }
      var op := operations[opId];
      if op.status != Running || op.environmentId !in environments
          || environments[op.environmentId].operationId != op.id {
        return Ok(());
      }
      var e := environments[op.environmentId];
      op := op.(finishedAt := Some(now));
      CancelNotices(e.id);
      if failure.Some? {
        op := op.(status := Failed, error := failure);
        if op.action != Destroy {
          e := e.(status := DeployFailed);
        }
        Notify(now, if op.action == Destroy then CleanupFailed else FailedNotice, e, op.id);
      } else {
        op := op.(status := Succeeded, phase := ReadyPhase);
        e := e.(status := Ready);
        var kind := ReadyNotice;
        if op.action == Destroy {
          e := e.(status := Deleted);
          op := op.(phase := DeletedPhase);
          kind := DeletedNotice;
        }
        Notify(now, kind, e, op.id);
      }
      operations := operations[op.id := op];
      environments := environments[e.id := e];
      Audit(now, op.actor, OfAction(op.action), OfEnvironment(e.id), Reached(op.status));
      return Ok(());
    }

    // ---------------------------------------------------------------- the notification outbox

    method Knows(subject: Text) returns (known: bool)
      ensures known == KnownSubject(cfg, subject)
    {
      known := false;
      for i := 0 to |cfg.users|
        invariant known <==> exists u :: u in cfg.users[..i] && u.subject == subject
      {
        assert cfg.users[..i + 1] == cfg.users[..i] + [cfg.users[i]];
        if cfg.users[i].subject == subject {
          known := true;
        }
      }
      assert cfg.users[..|cfg.users|] == cfg.users;
    }

    method Destinations(subject: Text) returns (found: set<Link>)
      ensures found == set k | k in links && links[k].subject == subject :: links[k]
      ensures found != {} <==> HasLink(View(), subject)
    {
      var keys := links.Keys;
      found := {};
      while keys != {}
        invariant keys <= links.Keys
        invariant found == set k | k in links && k !in keys && links[k].subject == subject :: links[k]
        decreases keys
      {
        var k :| k in keys;
        keys := keys - {k};
        if links[k].subject == subject {
          found := found + {links[k]};
        }
      }
      if HasLink(View(), subject) {
        var k :| k in links && links[k].subject == subject;
        assert links[k] in found;
      }
    }

    /** The checks of one turn of the lease loop. */
    method IsLeasable(k: NoticeKey, now: Time) returns (leasable: bool)
      requires k in notices
      ensures leasable == Leasable(cfg, View(), k, now)
    {
      var n := notices[k];
      if n.delivered || n.cancelled || n.notBefore > now {
        return false;
      }
      var known := Knows(n.owner);
      if !known {
        return false;
      }
      var destinations := Destinations(n.owner);
      return destinations != {};
    }

    /** Leases due notices, in whatever order they come, until there are no more or twenty have been leased. */
    method Lease(now: Time) returns (picked: set<NoticeKey>)
      modifies this`notices
      ensures MayLease(cfg, old(View()), picked, now)
      ensures View() == L.Lease(old(View()), picked, now)
    {
      ghost var s0 := View();
      picked := {};
      var keys := notices.Keys;
      assert View() == L.Lease(s0, picked, now);
      while keys != {} && |picked| < LEASE_LIMIT
        invariant keys <= s0.notices.Keys && picked !! keys && |picked| <= LEASE_LIMIT
        invariant View() == L.Lease(s0, picked, now)
        invariant forall k {:trigger Leasable(cfg, s0, k, now)} :: k in s0.notices && k !in keys ==>
            (k in picked <==> Leasable(cfg, s0, k, now))
        invariant picked <= s0.notices.Keys
        decreases keys
      {
        var k :| k in keys;
        keys := keys - {k};
        picked := LeaseTurn(s0, picked, k, now);
      }
    }

    /** One turn of the loop. */
    method LeaseTurn(ghost s0: State, leased: set<NoticeKey>, k: NoticeKey, now: Time) returns (picked: set<NoticeKey>)
      requires View() == L.Lease(s0, leased, now) && k in s0.notices && k !in leased
      modifies this`notices
      ensures View() == L.Lease(s0, picked, now)
      ensures picked == if Leasable(cfg, s0, k, now) then leased + {k} else leased
    {
      picked := leased;
      var leasable := IsLeasable(k, now);
      if leasable {
        LeaseOne(k, now);
        picked := picked + {k};
      }
    }

    method LeaseOne(k: NoticeKey, now: Time)
      requires k in notices
      modifies this`notices
      ensures notices == old(notices)[k := Leased(old(notices)[k], now)]
    {
      var n := notices[k];
      n := n.(attempts := n.attempts + 1);
      notices := notices[k := n.(notBefore := now + MINUTE * Min(60, Pow2(Min(n.attempts, 6))))];
    }

    method Valid(k: NoticeKey) returns (valid: bool)
      ensures valid <==> k in notices && Deliverable(notices[k])
    {
      valid := k in notices && !notices[k].cancelled && !notices[k].delivered;
    }

    method Acknowledge(k: NoticeKey) returns (r: Result<()>)
      modifies this`notices
      ensures View() == L.Acknowledge(old(View()), k).state
      ensures r == L.Acknowledge(old(View()), k).result
    {
      if k !in notices {
        return Err(NotFound);
      }
      notices := notices[k := notices[k].(delivered := true)];
      return Ok(());
    }
  }

  // ---------------------------------------------------------------- facts the loops need

  lemma {:induction false} OneMore(cfg: Config, s: State, order: seq<Text>, k: Text, now: Time, newIds: map<Text, Text>)
    requires k in newIds && k in ReconcileAll(cfg, s, order, now, newIds).environments
    ensures ReconcileAll(cfg, s, order + [k], now, newIds)
        == L.ReconcileOne(cfg, ReconcileAll(cfg, s, order, now, newIds), k, now, newIds[k])
    decreases |order|
  {
    if order == [] {
      assert (order + [k])[0] == k && (order + [k])[1..] == [];
    } else {
      assert (order + [k])[0] == order[0] && (order + [k])[1..] == order[1..] + [k];
      if order[0] !in s.environments || order[0] !in newIds {
        OneMore(cfg, s, order[1..], k, now, newIds);
      } else {
        OneMore(cfg, L.ReconcileOne(cfg, s, order[0], now, newIds[order[0]]), order[1..], k, now, newIds);
      }
    }
  }

  ghost predicate OrderedByRequest(operations: map<Text, Operation>, keys: seq<Text>) {
    && (forall i {:trigger keys[i]} :: 0 <= i < |keys| ==> keys[i] in operations)
    && forall i, j {:trigger keys[i], keys[j]} :: 0 <= i < j < |keys| ==>
        operations[keys[i]].requestedAt <= operations[keys[j]].requestedAt
  }

}
