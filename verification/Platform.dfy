/** The running platform: the durable state, the worker of internal/platform/runner.go with its driver runs, and the API
    calls that interleave with it. */
module Platform {
  import opened Basics
  import opened Lifecycle
  import opened LifecycleInvariant

  /** Where the worker's loop stands between two of its transactions. */
  datatype Pc =
    | Down                                          // not started, or killed
    | Selecting                                     // waiting for a tick, a result or a shutdown
    | Reconciled                                    // in a tick, state reconciled
    | Claiming(busy: set<Text>)                     // in a tick, filling free slots
    | Finishing(op: Text, failure: Option<Text>)    // a result has been received but not yet recorded
    | Draining(left: nat)                           // cancelled everything, receiving the outstanding results

  datatype Driver = Driver(op: Operation, cancelled: bool)
  datatype Report = Report(op: Text, failure: Option<Text>)

  /** `runs` are the driver runs still executing; `done` is the buffered channel of their results. */
  datatype Worker = Worker(pc: Pc, active: map<Text, Driver>, runs: set<Text>, done: seq<Report>)

  /** `issued` is every identifier drawn so far. */
  datatype Machine = Machine(store: State, worker: Worker, clock: Time, issued: set<Text>)

  const STOPPED := Worker(Down, map[], {}, [])

  function Initially(clock: Time): Machine {
    Machine(EMPTY, STOPPED, clock, {})
  }

  datatype Event =
    // calls of the public and internal API
    | CreateCall(u: Identity, request: CreateRequest, key: Text, now: Time, newId: Text)
    | ExtendCall(u: Identity, env: Text, mode: ExtendMode, minutes: int, expected: int, now: Time)
    | ConfirmCall(u: Identity, env: Text, now: Time, newId: Text)
    | DeleteCall(u: Identity, env: Text, confirmation: Text, t0: Time, t1: Time, t2: Time, newId: Text)
    | RedeployCall(u: Identity, env: Text, revision: Text, image: Text, expected: int, t0: Time, t1: Time, newId: Text)
    | LinkCodeCall(subject: Text, now: Time, newId: Text)
    | RedeemCall(code: Text, channel: Channel, tenant: Option<Text>, user: Option<Text>, destination: Option<Text>,
                 t0: Time, t1: Time)
    | LeaseCall(picked: set<NoticeKey>, now: Time)
    | AckCall(notice: NoticeKey)
    // the worker's loop
    | Start
    | TickReconcile(order: seq<Text>, now: Time, newIds: map<Text, Text>)
    | TickScan
    | TickClaim(pick: Option<Text>, now: Time)
    | TickFull
    | TakeResult
    | FinishResult(now: Time)
    | Shutdown
    | DrainOne
    // the drivers
    | PhaseReport(run: Text, phase: Text, now: Time)
    | RunReturns(run: Text, failure: Option<Text>)
    // the process dies, and its driver runs with it
    | Crash

  /** The last clock reading of the event. */
  function Reading(clock: Time, ev: Event): Time {
    match ev
    case CreateCall(_, _, _, now, _) => now
    case ExtendCall(_, _, _, _, _, now) => now
    case ConfirmCall(_, _, now, _) => now
    case DeleteCall(_, _, _, _, _, t2, _) => t2
    case RedeployCall(_, _, _, _, _, _, t1, _) => t1
    case LinkCodeCall(_, now, _) => now
    case RedeemCall(_, _, _, _, _, _, t1) => t1
    case LeaseCall(_, now) => now
    case TickReconcile(_, now, _) => now
    case TickClaim(_, now) => now
    case FinishResult(now) => now
    case PhaseReport(_, _, now) => now
    case _ => clock
  }

  function BusyEnvironments(active: map<Text, Driver>): set<Text> {
    set o | o in active :: active[o].op.environmentId
  }

  function CancelSuperseded(s: State, active: map<Text, Driver>): map<Text, Driver> {
    map o | o in active :: if o in s.operations && s.operations[o].status == Superseded
        then active[o].(cancelled := true) else active[o]
  }

  function CancelAll(active: map<Text, Driver>): map<Text, Driver> {
    map o | o in active :: active[o].(cancelled := true)
  }

  function StoreAfter(cfg: Config, s: State, w: Worker, ev: Event): State {
    match ev
    case CreateCall(u, request, key, now, newId) => Create(cfg, s, u, request, key, now, newId).state
    case ExtendCall(u, env, mode, minutes, expected, now) => Extend(cfg, s, u, env, mode, minutes, expected, now).state
    case ConfirmCall(u, env, now, newId) => ConfirmDelete(s, u, env, now, newId).state
    case DeleteCall(u, env, confirmation, t0, t1, t2, newId) => Delete(s, u, env, confirmation, t0, t1, t2, newId).state
    case RedeployCall(u, env, revision, image, expected, t0, t1, newId) =>
      Redeploy(cfg, s, u, env, revision, image, expected, t0, t1, newId).state
    case LinkCodeCall(subject, now, newId) => MintLinkCode(s, subject, now, newId)
    case RedeemCall(code, channel, tenant, user, destination, t0, t1) =>
      Redeem(s, code, channel, tenant, user, destination, t0, t1).state
    case LeaseCall(picked, now) => Lease(s, picked, now)
    case AckCall(notice) => Acknowledge(s, notice).state
    case Start => Recover(s)
    case TickReconcile(order, now, newIds) => Reconcile(cfg, s, order, now, newIds)
    case TickClaim(pick, now) => Claim(s, pick, now)
    case FinishResult(now) => if w.pc.Finishing? then Finish(s, w.pc.op, w.pc.failure, now).state else s
    case PhaseReport(run, phase, now) => Phase(s, run, phase, now).state
    case _ => s
  }

  function WorkerAfter(s: State, w: Worker, ev: Event): Worker {
    match ev
    case Start => Worker(Selecting, map[], {}, [])
    case TickReconcile(_, _, _) => w.(pc := Reconciled)
    case TickScan => w.(pc := Claiming(BusyEnvironments(w.active)), active := CancelSuperseded(s, w.active))
    case TickClaim(pick, now) =>
      if pick.None? || pick.value !in s.operations || !w.pc.Claiming? then w.(pc := Selecting)
      else
        var op := Claimed(s.operations[pick.value], now);
        Worker(Claiming(w.pc.busy + {op.environmentId}), w.active[pick.value := Driver(op, false)],
               w.runs + {pick.value}, w.done)
    case TickFull => w.(pc := Selecting)
    case TakeResult =>
      if w.done == [] then w
      else Worker(Finishing(w.done[0].op, w.done[0].failure), w.active - {w.done[0].op}, w.runs, w.done[1..])
    case FinishResult(_) => w.(pc := Selecting)
    case Shutdown => w.(pc := Draining(|w.active|), active := CancelAll(w.active))
    case DrainOne =>
      if w.pc.Draining? && w.pc.left > 0 && w.done != []
          then w.(pc := Draining(w.pc.left - 1), done := w.done[1..]) else w
    case RunReturns(run, failure) => w.(runs := w.runs - {run}, done := w.done + [Report(run, failure)])
    case Crash => STOPPED
    case _ => w
  }

  function Next(cfg: Config, y: Machine, ev: Event): Machine {
    var store := StoreAfter(cfg, y.store, y.worker, ev);
    Machine(store, WorkerAfter(y.store, y.worker, ev), Reading(y.clock, ev),
           y.issued + store.operations.Keys + store.confirmations.Keys + store.linkCodes.Keys)
  }

  /** Identifiers are drawn from a source that never repeats itself. */
  ghost predicate DrawsNew(issued: set<Text>, order: seq<Text>, newIds: map<Text, Text>) {
    && (forall k :: k in order ==> k in newIds)
    && (forall i :: 0 <= i < |order| ==> newIds[order[i]] !in issued)
    && (forall i, j :: 0 <= i < j < |order| ==> newIds[order[i]] != newIds[order[j]])
  }

  /** When an event can happen. Clock readings never go back; identifiers are new; the worker does
      one thing at a time. */
  ghost predicate Enabled(cfg: Config, y: Machine, ev: Event) {
    && y.clock <= Reading(y.clock, ev)
    && match ev
       case CreateCall(_, _, _, _, newId) => newId !in y.issued
       case ConfirmCall(_, _, _, newId) => newId !in y.issued
       case DeleteCall(_, _, _, t0, t1, t2, newId) => y.clock <= t0 <= t1 <= t2 && newId !in y.issued
       case RedeployCall(_, _, _, _, _, t0, t1, newId) => y.clock <= t0 <= t1 && newId !in y.issued
       case LinkCodeCall(_, _, newId) => newId !in y.issued
       case RedeemCall(_, _, _, _, _, t0, t1) => y.clock <= t0 <= t1
       case LeaseCall(picked, now) => MayLease(cfg, y.store, picked, now)
       case Start => y.worker.pc.Down?
       case TickReconcile(order, _, newIds) =>
         y.worker.pc.Selecting? && Visits(order, y.store.environments.Keys) && DrawsNew(y.issued, order, newIds)
       case TickScan => y.worker.pc.Reconciled?
       case TickClaim(pick, _) =>
         y.worker.pc.Claiming? && |y.worker.active| < cfg.maxPreviews && MayClaim(y.store, y.worker.pc.busy, pick)
       case TickFull => y.worker.pc.Claiming? && |y.worker.active| >= cfg.maxPreviews
       case TakeResult => y.worker.pc.Selecting? && y.worker.done != []
       case FinishResult(_) => y.worker.pc.Finishing?
       // the context ends while selecting, or one of the worker's own transactions fails
       case Shutdown => !y.worker.pc.Down? && !y.worker.pc.Draining?
       case DrainOne => y.worker.pc.Draining? && y.worker.pc.left > 0 && y.worker.done != []
       case PhaseReport(run, _, _) => run in y.worker.runs
       // the channel holds maxPreviews results; a send to a full channel waits
       case RunReturns(run, _) => run in y.worker.runs && |y.worker.done| < cfg.maxPreviews
       case _ => true
  }

  // ---------------------------------------------------------------- the invariant

  /** The worker's loop is between starting and shutting down. */
  predicate Working(pc: Pc) {
    pc.Selecting? || pc.Reconciled? || pc.Claiming? || pc.Finishing?
  }

  predicate Reported(done: seq<Report>, o: Text) {
    exists i :: 0 <= i < |done| && done[i].op == o
  }

  /** A driver in `active` runs an operation that is running, or was superseded while running. */
  ghost predicate DriverOk(s: State, w: Worker, o: Text) {
    o in w.active ==>
      && o in s.operations
      && w.active[o].op.environmentId == s.operations[o].environmentId
      && s.operations[o].status in {Running, Superseded}
      && (w.active[o].cancelled && Working(w.pc) ==> s.operations[o].status == Superseded)
  }

  ghost predicate Distinct(w: Worker, a: Text, b: Text) {
    a in w.active && b in w.active && a != b ==> w.active[a].op.environmentId != w.active[b].op.environmentId
  }

  /** A running operation is in the worker's hands. */
  ghost predicate Tracked(s: State, w: Worker, o: Text) {
    o in s.operations && s.operations[o].status == Running && Working(w.pc) ==>
      o in w.active || (w.pc.Finishing? && w.pc.op == o)
  }

  /** Each active entry owns one outstanding run or one buffered result, and nothing else is outstanding. */
  ghost predicate OwnsOne(w: Worker, o: Text) {
    && (o in w.runs ==> o in w.active && !Reported(w.done, o))
    && (Reported(w.done, o) ==> o in w.active)
    && (Working(w.pc) && o in w.active ==> o in w.runs || Reported(w.done, o))
  }

  ghost predicate NoDuplicateReports(done: seq<Report>) {
    forall i, j :: 0 <= i < j < |done| ==> done[i].op != done[j].op
  }

  ghost predicate WorkerShape(cfg: Config, s: State, w: Worker) {
    && |w.active| <= cfg.maxPreviews
    && (w.pc.Down? ==> w == STOPPED)
    && (Working(w.pc) ==> |w.runs| + |w.done| == |w.active|)
    && (w.pc.Draining? ==> |w.runs| + |w.done| == w.pc.left <= |w.active|)
    && NoDuplicateReports(w.done)
    && (w.pc.Claiming? ==> w.pc.busy == BusyEnvironments(w.active))
    && (w.pc.Finishing? ==>
          w.pc.op !in w.active && w.pc.op in s.operations && s.operations[w.pc.op].status in {Running, Superseded})
  }

  ghost predicate WorkerInv(cfg: Config, s: State, w: Worker) {
    && WorkerShape(cfg, s, w)
    && (forall o {:trigger DriverOk(s, w, o)} :: DriverOk(s, w, o))
    && (forall a, b {:trigger Distinct(w, a, b)} :: Distinct(w, a, b))
    && (forall o {:trigger Tracked(s, w, o)} :: Tracked(s, w, o))
    && (forall o {:trigger OwnsOne(w, o)} :: OwnsOne(w, o))
  }

  ghost predicate MachineInv(cfg: Config, y: Machine) {
    && Inv(cfg, y.store, y.clock)
    && WorkerInv(cfg, y.store, y.worker)
    && y.store.operations.Keys <= y.issued
    && y.store.confirmations.Keys <= y.issued
    && y.store.linkCodes.Keys <= y.issued
  }
}
