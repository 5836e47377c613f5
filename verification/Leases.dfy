/** The notification outbox over whole runs: how often, and how far apart, a notice is handed out for delivery. */
module Leases {
  import opened Basics
  import opened Lifecycle
  import opened LifecycleInvariant
  import opened LifecycleSteps
  import opened Platform
  import opened Effects
  import opened Runs

  // ---------------------------------------------------------------- only leasing counts

  lemma FinishQuiet(cfg: Config, s: State, t0: Time, opId: Text, failure: Option<Text>, now: Time)
    requires Inv(cfg, s, t0) && t0 <= now
    ensures AllQuiet(s, Finish(s, opId, failure, now).state)
  {
    hide Finish;
    if Finishes(s, opId) {
      FinishesFacts(cfg, s, t0, opId, failure, now);
      OutcomeIsNews(cfg, s, opId, failure.Some?);
    } else {
      FinishNothing(s, opId, failure, now);
    }
  }

  lemma OtherQuiet(cfg: Config, y: Machine, ev: Event)
    requires !IsEnvironmentCall(ev) && !ev.TickReconcile? && !ev.FinishResult? && !ev.LeaseCall?
    ensures AllQuiet(y.store, StoreAfter(cfg, y.store, y.worker, ev))
  {
  }

  lemma QuietStep(cfg: Config, y: Machine, ev: Event)
    requires ValidConfig(cfg) && MachineInv(cfg, y) && Enabled(cfg, y, ev) && !ev.LeaseCall?
    ensures AllQuiet(y.store, StoreAfter(cfg, y.store, y.worker, ev))
  {
    hide AllQuiet, Effected, Reconcile, Finish;
    if IsEnvironmentCall(ev) {
      var f := CallEffect(cfg, y, ev);
      EffectQuiet(y.store, StoreAfter(cfg, y.store, y.worker, ev), f);
    } else {
      match ev
      case TickReconcile(order, now, newIds) => ReconcileBackground(cfg, y.store, y.clock, order, now, newIds);
      case FinishResult(now) => FinishQuiet(cfg, y.store, y.clock, y.worker.pc.op, y.worker.pc.failure, now);
      case _ => OtherQuiet(cfg, y, ev);
    }
  }

  // ---------------------------------------------------------------- counting leases

  predicate IsLeaseOf(ev: Event, n: NoticeKey) {
    ev.LeaseCall? && n in ev.picked
  }

  function LeaseCount(events: seq<Event>, n: NoticeKey): nat {
    if events == [] then 0
    else LeaseCount(events[..|events| - 1], n) + (if IsLeaseOf(events[|events| - 1], n) then 1 else 0)
  }

  function AttemptsOf(s: State, n: NoticeKey): nat {
    if n in s.notices then s.notices[n].attempts else 0
  }

  /** What step `i` does to notice `n`. */
  lemma LeaseStep(cfg: Config, states: seq<Machine>, events: seq<Event>, i: nat, n: NoticeKey)
    requires IsRun(cfg, states, events) && i < |events|
    ensures !IsLeaseOf(events[i], n) ==>
        AttemptsOf(states[i + 1].store, n) == AttemptsOf(states[i].store, n)
        && (n in states[i].store.notices ==>
              && n in states[i + 1].store.notices
              && states[i + 1].store.notices[n].notBefore == states[i].store.notices[n].notBefore)
    ensures IsLeaseOf(events[i], n) ==>
        && n in states[i].store.notices && n in states[i + 1].store.notices
        && Deliverable(states[i].store.notices[n])
        && states[i].store.notices[n].notBefore <= events[i].now
        && states[i + 1].store.notices[n].attempts == states[i].store.notices[n].attempts + 1
        && states[i + 1].store.notices[n].notBefore
           == events[i].now + MINUTE * Backoff(states[i + 1].store.notices[n].attempts)
  {
    Reachable(cfg, states, events, i);
    assert StepAt(cfg, states, events, i);
    if events[i].LeaseCall? {
      if n in events[i].picked {
        assert Leasable(cfg, states[i].store, n, events[i].now);
      }
    } else {
      QuietStep(cfg, states[i], events[i]);
      assert Quiet(states[i].store, states[i + 1].store, n);
    }
  }

  /** A notice's attempts count its leases. */
  lemma {:induction false} AttemptsCountLeases(cfg: Config, states: seq<Machine>, events: seq<Event>, i: nat,
      n: NoticeKey)
    requires IsRun(cfg, states, events) && i < |states|
    ensures AttemptsOf(states[i].store, n) == LeaseCount(events[..i], n)
  {
    if i > 0 {
      AttemptsCountLeases(cfg, states, events, i - 1, n);
      LeaseStep(cfg, states, events, i - 1, n);
      assert events[..i][..i - 1] == events[..i - 1];
    }
  }

  // ---------------------------------------------------------------- spacing

  /** Minutes that pass, at least, between the first lease and lease `m`. */
  function Span(m: nat): nat {
    if m <= 1 then 0 else Span(m - 1) + Backoff(m - 1)
  }

  lemma {:induction false} SpanInHours(m: nat)
    requires m >= 6
    ensures Span(m) == 62 + 60 * (m - 6)
  {
    if m == 6 {
      assert Span(2) == 2;
      assert Span(4) == 14;
    } else {
      SpanInHours(m - 1);
    }
  }

  /** After the first lease at step `i`, a notice is not due again before the backoffs of all its leases have passed. */
  lemma {:induction false} DueAfterBackoffs(cfg: Config, states: seq<Machine>, events: seq<Event>, i: nat, j: nat,
                                            n: NoticeKey)
    requires IsRun(cfg, states, events) && i < j < |states| && IsLeaseOf(events[i], n)
    requires AttemptsOf(states[i].store, n) == 0
    ensures n in states[j].store.notices && states[j].store.notices[n].attempts >= 1
    ensures states[j].store.notices[n].notBefore >= events[i].now
        + MINUTE * Span(states[j].store.notices[n].attempts + 1)
    decreases j
  {
    LeaseStep(cfg, states, events, j - 1, n);
    if j > i + 1 {
      DueAfterBackoffs(cfg, states, events, i, j - 1, n);
    }
    var a := states[j].store.notices[n].attempts;
    assert Span(a + 1) == Span(a) + Backoff(a);
  }

  /** Lease `m` of a notice comes at least 62 + 60(m - 6) minutes after its first, for m >= 6, in any run. */
  lemma LeasesAreSpaced(cfg: Config, states: seq<Machine>, events: seq<Event>, i: nat, j: nat, n: NoticeKey, m: nat)
    requires IsRun(cfg, states, events) && i < j < |events| && IsLeaseOf(events[i], n) && IsLeaseOf(events[j], n)
    requires LeaseCount(events[..i], n) == 0 && LeaseCount(events[..j + 1], n) == m
    ensures events[j].now - events[i].now >= MINUTE * Span(m)
    ensures m >= 6 ==> events[j].now - events[i].now >= MINUTE * (62 + 60 * (m - 6))
  {
    AttemptsCountLeases(cfg, states, events, i, n);
    AttemptsCountLeases(cfg, states, events, j + 1, n);
    LeaseStep(cfg, states, events, j, n);
    DueAfterBackoffs(cfg, states, events, i, j, n);
    if m >= 6 {
      SpanInHours(m);
    }
  }

  /** Between any two leases of a notice at least the backoff of the earlier one passes. */
  lemma {:induction false} NextLeaseWaits(cfg: Config, states: seq<Machine>, events: seq<Event>, i: nat, j: nat,
                                          n: NoticeKey)
    requires IsRun(cfg, states, events) && i < j < |events| && IsLeaseOf(events[i], n) && IsLeaseOf(events[j], n)
    ensures events[j].now - events[i].now >= MINUTE * Backoff(LeaseCount(events[..i + 1], n))
  {
    AttemptsCountLeases(cfg, states, events, i + 1, n);
    LeaseStep(cfg, states, events, i, n);
    LeaseStep(cfg, states, events, j, n);
    NotDueYet(cfg, states, events, i, j, n);
  }

  lemma {:induction false} NotDueYet(cfg: Config, states: seq<Machine>, events: seq<Event>, i: nat, j: nat,
                                     n: NoticeKey)
    requires IsRun(cfg, states, events) && i < j < |states| && IsLeaseOf(events[i], n)
    ensures n in states[i + 1].store.notices && n in states[j].store.notices
    ensures states[j].store.notices[n].notBefore >= states[i + 1].store.notices[n].notBefore
    decreases j
  {
    LeaseStep(cfg, states, events, j - 1, n);
    if j > i + 1 {
      NotDueYet(cfg, states, events, i, j - 1, n);
    }
  }

  /** Once acknowledged or withdrawn, a notice is never leased again; and one call leases at most twenty. */
  lemma NeverLeasedAgain(cfg: Config, states: seq<Machine>, events: seq<Event>, i: nat, j: nat, n: NoticeKey)
    requires IsRun(cfg, states, events) && i <= j < |events|
    requires n in states[i].store.notices && !Deliverable(states[i].store.notices[n])
    ensures !IsLeaseOf(events[j], n)
    ensures events[j].LeaseCall? ==> |events[j].picked| <= 20
  {
    RunEvolves(cfg, states, events, i, j);
    assert NoticeKept(states[i].store, states[j].store, n);
    LeaseStep(cfg, states, events, j, n);
    assert StepAt(cfg, states, events, j);
  }

  /** Minutes from the lease numbered `attempts` to the next: doubling, and an hour from the sixth on. */
  function Wait(attempts: nat): nat {
    match attempts
    case 0 => 1
    case 1 => 2
    case 2 => 4
    case 3 => 8
    case 4 => 16
    case 5 => 32
    case _ => 60
  }

  lemma BackoffIsWait(attempts: nat)
    ensures Backoff(attempts) == Wait(attempts)
  {
    assert Pow2(0) == 1 && Pow2(2) == 4 && Pow2(4) == 16 && Pow2(6) == 64;
    assert Pow2(1) == 2 && Pow2(3) == 8 && Pow2(5) == 32;
  }

  /** The notice can be handed out: not acknowledged, not withdrawn, due, and its owner is known and has linked an
      account. */
  ghost predicate Due(cfg: Config, s: State, n: NoticeKey, now: Time) {
    && n in s.notices && !s.notices[n].delivered && !s.notices[n].cancelled && s.notices[n].notBefore <= now
    && (exists u :: u in cfg.users && u.subject == s.notices[n].owner)
    && (exists l :: l in s.links && s.links[l].subject == s.notices[n].owner)
  }

  /** A lease hands out due notices only, at most twenty, and all of them if they are fewer; it counts each and puts
      it off by its wait, and changes nothing else. */
  lemma LeaseExactly(cfg: Config, states: seq<Machine>, events: seq<Event>, i: nat, n: NoticeKey)
    requires IsRun(cfg, states, events) && i < |events| && events[i].LeaseCall?
    ensures |events[i].picked| <= 20
    ensures n in events[i].picked ==> Due(cfg, states[i].store, n, events[i].now)
    ensures |events[i].picked| < 20 && Due(cfg, states[i].store, n, events[i].now) ==> n in events[i].picked
    ensures states[i + 1].store == states[i].store.(notices := states[i + 1].store.notices)
    ensures n in states[i + 1].store.notices <==> n in states[i].store.notices
    ensures n in states[i].store.notices ==>
        states[i + 1].store.notices[n] ==
          if n in events[i].picked
          then states[i].store.notices[n].(attempts := states[i].store.notices[n].attempts + 1,
                 notBefore := events[i].now + MINUTE * Wait(states[i].store.notices[n].attempts + 1))
          else states[i].store.notices[n]
  {
    assert StepAt(cfg, states, events, i);
    hide Backoff, Wait;
    assert Leasable(cfg, states[i].store, n, events[i].now) <==> Due(cfg, states[i].store, n, events[i].now);
    if n in states[i].store.notices { BackoffIsWait(states[i].store.notices[n].attempts + 1); }
  }

  /** Which sets of notices one call may hand out: at most twenty that are due, and fewer only if they are all. */
  lemma LeasesPossible(cfg: Config, y: Machine, picked: set<NoticeKey>, now: Time)
    ensures Enabled(cfg, y, LeaseCall(picked, now)) <==>
      && y.clock <= now && |picked| <= 20
      && (forall n :: n in picked ==> Due(cfg, y.store, n, now))
      && (|picked| < 20 ==> forall n :: Due(cfg, y.store, n, now) ==> n in picked)
  {
    assert forall n :: Leasable(cfg, y.store, n, now) <==> Due(cfg, y.store, n, now);
  }

  /** An acknowledgement marks its notice delivered and changes nothing else. */
  lemma AcknowledgementIsRecorded(cfg: Config, states: seq<Machine>, events: seq<Event>, i: nat)
    requires IsRun(cfg, states, events) && i < |events| && events[i].AckCall?
    ensures var s, n := states[i].store, events[i].notice;
      states[i + 1].store ==
        if n in s.notices then s.(notices := s.notices[n := s.notices[n].(delivered := true)]) else s
    ensures Acknowledge(states[i].store, events[i].notice).result
         == if events[i].notice in states[i].store.notices then Ok(()) else Err(NotFound)
  {
    assert StepAt(cfg, states, events, i);
  }

  /** An acknowledged notice stays delivered for the rest of the run and is never leased again. */
  lemma AcknowledgedForGood(cfg: Config, states: seq<Machine>, events: seq<Event>, i: nat, j: nat, n: NoticeKey)
    requires IsRun(cfg, states, events) && i < j < |states| && i < |events| && events[i] == AckCall(n)
    requires n in states[i].store.notices
    ensures n in states[j].store.notices && states[j].store.notices[n].delivered
    ensures j < |events| ==> !IsLeaseOf(events[j], n)
  {
    hide StepAt;
    AcknowledgementIsRecorded(cfg, states, events, i);
    RunEvolves(cfg, states, events, i + 1, j);
    assert NoticeKept(states[i + 1].store, states[j].store, n);
    if j < |events| {
      NeverLeasedAgain(cfg, states, events, i + 1, j, n);
    }
  }
}
