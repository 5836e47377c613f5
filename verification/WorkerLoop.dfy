/** The worker of internal/platform/runner.go. Its loop waits for one of a few things; each method below is
    one arm of the loop, or the part of one between two transactions, and is proved to make the corresponding
    step of `Platform`. */
module WorkerLoop {
  import opened Basics
  import opened Lifecycle
  import opened LifecycleInvariant
  import opened Platform
  import opened LifecycleStore

  class Runner {
    const store: Store
    var pc: Pc
    var active: map<Text, Driver>
    var runs: set<Text>        // driver runs that have not returned
    var done: seq<Report>      // the buffered channel of their results

    function View(): Worker
      reads this
    {
      Worker(pc, active, runs, done)
    }

    constructor (store: Store)
      ensures View() == STOPPED && this.store == store
    {
      this.store := store;
      pc, active, runs, done := Down, map[], {}, [];
    }

    method Start()
      requires pc.Down?
      modifies this, store
      ensures View() == WorkerAfter(old(store.View()), old(View()), Platform.Event.Start)
      ensures store.View() == StoreAfter(store.cfg, old(store.View()), old(View()), Platform.Event.Start)
    {
      store.Recover();
      pc, active, runs, done := Selecting, map[], {}, [];
    }

    method TickReconcile(now: Time, newIds: map<Text, Text>) returns (order: seq<Text>)
      requires pc.Selecting? && store.environments.Keys <= newIds.Keys
      modifies this, store
      ensures Visits(order, old(store.environments).Keys)
      ensures View() == WorkerAfter(old(store.View()), old(View()), Platform.TickReconcile(order, now, newIds))
      ensures store.View() == StoreAfter(store.cfg, old(store.View()), old(View()),
                                         Platform.TickReconcile(order, now, newIds))
    {
      order := store.Reconcile(now, newIds);
      pc := Reconciled;
    }

    /** Notes which environments are busy and cancels the drivers whose operations have been superseded. */
    method TickScan()
      requires pc.Reconciled?
      modifies this
      ensures View() == WorkerAfter(store.View(), old(View()), Platform.Event.TickScan)
    {
      var snapshot := store.View();
      var busy: set<Text> := {};
      var keys := active.Keys;
      while keys != {}
        invariant keys <= active.Keys == old(active).Keys
        invariant busy == set o | o in old(active) && o !in keys :: old(active)[o].op.environmentId
        invariant forall o :: o in active ==>
            active[o] == if o in keys then old(active)[o] else CancelSuperseded(snapshot, old(active))[o]
        invariant runs == old(runs) && done == old(done)
        decreases keys
      {
        var id :| id in keys;
        keys := keys - {id};
        busy := busy + {active[id].op.environmentId};
        if id in snapshot.operations && snapshot.operations[id].status == Superseded {
          active := active[id := active[id].(cancelled := true)];
        }
      }
      assert active == CancelSuperseded(snapshot, old(active));
      assert busy == BusyEnvironments(old(active));
      pc := Claiming(busy);
    }

    /** Starts one more driver, if there is a free slot and something to run. */
    method TickClaim(now: Time) returns (pick: Option<Text>)
      requires pc.Claiming? && |active| < store.cfg.maxPreviews
      modifies this, store
      ensures MayClaim(old(store.View()), old(pc.busy), pick)
      ensures View() == WorkerAfter(old(store.View()), old(View()), Platform.TickClaim(pick, now))
      ensures store.View() == StoreAfter(store.cfg, old(store.View()), old(View()), Platform.TickClaim(pick, now))
    {
      pick := store.Claim(pc.busy, now);
      if pick.None? {
        pc := Selecting;
        return;
      }
      var op := store.operations[pick.value];
      active := active[pick.value := Driver(op, false)];
      pc := Claiming(pc.busy + {op.environmentId});
      runs := runs + {pick.value};
    }

    /** Every slot is taken. */
    method TickFull()
      requires pc.Claiming? && |active| >= store.cfg.maxPreviews
      modifies this
      ensures View() == WorkerAfter(store.View(), old(View()), Platform.Event.TickFull)
    {
      pc := Selecting;
    }

    /** A driver run returns and sends its result. */
    method RunReturns(run: Text, failure: Option<Text>)
      requires run in runs && |done| < store.cfg.maxPreviews
      modifies this
      ensures View() == WorkerAfter(store.View(), old(View()), Platform.RunReturns(run, failure))
    {
      runs := runs - {run};
      done := done + [Report(run, failure)];
    }

    method TakeResult()
      requires pc.Selecting? && done != []
      modifies this
      ensures View() == WorkerAfter(store.View(), old(View()), Platform.Event.TakeResult)
    {
      var result := done[0];
      done := done[1..];
      active := active - {result.op};
      pc := Finishing(result.op, result.failure);
    }

    method FinishResult(now: Time)
      requires pc.Finishing?
      modifies this, store
      ensures View() == WorkerAfter(old(store.View()), old(View()), Platform.FinishResult(now))
      ensures store.View() == StoreAfter(store.cfg, old(store.View()), old(View()), Platform.FinishResult(now))
    {
      var _ := store.Finish(pc.op, pc.failure, now);
      pc := Selecting;
    }

    /** Leaving the loop cancels every driver; what remains is to receive their results. */
    method Shutdown()
      requires Working(pc)
      modifies this
      ensures View() == WorkerAfter(store.View(), old(View()), Platform.Event.Shutdown)
    {
      var keys := active.Keys;
      while keys != {}
        invariant keys <= active.Keys == old(active).Keys
        invariant forall o :: o in active ==> active[o] == if o in keys then old(active)[o]
            else old(active)[o].(cancelled := true)
        invariant runs == old(runs) && done == old(done)
        decreases keys
      {
        var id :| id in keys;
        keys := keys - {id};
        active := active[id := active[id].(cancelled := true)];
      }
      assert active == CancelAll(old(active));
      assert |active| == |old(active)| by { assert |active.Keys| == |old(active).Keys|; }
      pc := Draining(|active|);
    }

    method DrainOne()
      requires pc.Draining? && pc.left > 0 && done != []
      modifies this
      ensures View() == WorkerAfter(store.View(), old(View()), Platform.Event.DrainOne)
    {
      done := done[1..];
      pc := Draining(pc.left - 1);
    }
  }
}
