/** What the lease adds: a settled run never changes again, so the winner a fold was tested
    with stays its winner. */
module Promotions {
  import opened Outcomes
  import opened Queues
  import opened WalkForward

  // ---------- one worker per run ----------

  predicate Holds(w: World, i: nat) {
    var worker := WorkerOf(w, i);
    worker.Working? ==>
      && worker.run in w.runIds
      && (worker.run in w.rows ==>
            w.rows[worker.run].status == Running && w.rows[worker.run].startedAt == Some(worker.since))
  }

  /** A worker within its lease is the only one on its run, and the run is still its own. */
  predicate Exclusive(w: World) {
    && (forall i :: i in w.workers && InLease(w, i) ==> Holds(w, i))
    && (forall i, j :: i in w.workers && j in w.workers && i != j && InLease(w, i) && InLease(w, j) ==>
          w.workers[i].run != w.workers[j].run)
  }

  lemma QuietKeepsExclusive(w: World, w': World)
    requires Exclusive(w) && w'.now >= w.now && w.runIds <= w'.runIds
    requires forall i :: i in w'.workers && w'.workers[i].Working? ==> i in w.workers && w'.workers[i] == w.workers[i]
    requires forall i :: i in w'.workers && InLease(w', i) && w'.workers[i].run in w'.rows ==>
        w'.workers[i].run in w.rows && w'.rows[w'.workers[i].run] == w.rows[w'.workers[i].run]
    ensures Exclusive(w')
  {
    forall i | i in w'.workers && InLease(w', i) ensures InLease(w, i) && Holds(w', i) {
      assert Holds(w, i);
    }
  }

  lemma ClaimKeepsExclusive(w: World, i: nat, id: nat)
    requires Base(w) && Exclusive(w) && Enabled(w, Claim(i, id), true)
    ensures Exclusive(After(w, Claim(i, id), true))
  {
    var w' := After(w, Claim(i, id), true);
    forall j | j in w'.workers && InLease(w', j) ensures Holds(w', j) {
      if j != i {
        assert InLease(w, j) && Holds(w, j);
      }
    }
    forall j | j in w'.workers && j != i && InLease(w', j) ensures w'.workers[j].run != id {
      assert InLease(w, j) && Holds(w, j);
    }
  }

  lemma StaleSparesTheLeased(w: World)
    requires Exclusive(w)
    ensures Exclusive(After(w, RequeueStale, true))
  {
    var w' := After(w, RequeueStale, true);
    forall i | i in w'.workers && InLease(w', i) && w'.workers[i].run in w'.rows
      ensures w'.rows[w'.workers[i].run] == w.rows[w'.workers[i].run]
    {
      assert InLease(w, i) && Holds(w, i);
    }
    QuietKeepsExclusive(w, w');
  }

  lemma WriteKeepsExclusive(w: World, w': World, i: nat)
    requires Exclusive(w) && InLease(w, i) && i in w.workers
    requires w' == w.(rows := w'.rows, workers := w.workers[i := Idle])
    requires w'.rows.Keys == w.rows.Keys
    requires forall id :: id in w.rows && id != w.workers[i].run ==> w'.rows[id] == w.rows[id]
    ensures Exclusive(w')
  {
    forall j | j in w'.workers && InLease(w', j) && w'.workers[j].run in w'.rows
      ensures w'.rows[w'.workers[j].run] == w.rows[w'.workers[j].run]
    {
      assert InLease(w, j);
    }
    QuietKeepsExclusive(w, w');
  }

  lemma GrowthKeepsExclusive(w: World, e: Event)
    requires Base(w) && Exclusive(w) && Enabled(w, e, true)
    requires e.Submit? || e.CreateSweep? || e.DeleteSweep? || e.Promote?
    ensures Exclusive(After(w, e, true))
  {
    var w' := After(w, e, true);
    forall i | i in w'.workers && InLease(w', i) && w'.workers[i].run in w'.rows
      ensures w'.workers[i].run in w.rows && w'.rows[w'.workers[i].run] == w.rows[w'.workers[i].run]
    {
      assert InLease(w, i) && Holds(w, i);
    }
    QuietKeepsExclusive(w, w');
  }

  lemma StepKeepsExclusive(w: World, e: Event)
    requires Base(w) && Exclusive(w) && Enabled(w, e, true)
    ensures Exclusive(After(w, e, true))
  {
    var w' := After(w, e, true);
    if e.Claim? {
      ClaimKeepsExclusive(w, e.worker, e.id);
    } else if e.RequeueStale? {
      StaleSparesTheLeased(w);
    } else if e.Finish? || e.Fail? || e.Return? {
      WriteKeepsExclusive(w, w', e.worker);
    } else if e.Submit? || e.CreateSweep? || e.DeleteSweep? || e.Promote? {
      GrowthKeepsExclusive(w, e);
    } else {
      QuietKeepsExclusive(w, w');
    }
  }

  // ---------- settled runs are frozen ----------

  predicate Frozen(w: World, w': World) {
    forall id :: id in w.rows && id in w'.rows && Settled(w.rows[id]) ==> w'.rows[id] == w.rows[id]
  }

  /** Nothing is written over a settled run, but for a second result, which is refused. */
  predicate Timely(w: World, e: Event) {
    e.Finish? || e.Fail? ==>
      var worker := WorkerOf(w, e.worker);
      worker.Working? && worker.run in w.rows ==>
        Active(w.rows[worker.run]) || (e.Finish? && w.rows[worker.run].metrics.Some?)
  }

  lemma LeasedIsTimely(w: World, e: Event)
    requires Exclusive(w) && Enabled(w, e, true)
    ensures Timely(w, e)
  {
    if e.Finish? || e.Fail? {
      assert Holds(w, e.worker);
    }
  }

  lemma SettledNeverChanges(w: World, e: Event, leased: bool)
    requires Base(w) && Timely(w, e) && Enabled(w, e, leased)
    ensures Frozen(w, After(w, e, leased))
  {
    if e.Finish? || e.Fail? {
      var run := WorkerOf(w, e.worker).run;
      if run in w.rows && Active(w.rows[run]) {
        WritesSpareSettled(w.rows, run);
      }
    } else if Housekeeping(e) {
    } else {
      OldRowsKept(w, e, leased);
    }
  }

  lemma WritesSpareSettled(rows: Rows, id: nat)
    requires id in rows ==> !Settled(rows[id])
    ensures forall x :: x in rows && Settled(rows[x]) ==> Failed(rows, id)[x] == rows[x]
    ensures forall x, metrics :: x in rows && Settled(rows[x]) ==> Finished(rows, id, metrics)[x] == rows[x]
  {
  }

  lemma OldRowsKept(w: World, e: Event, leased: bool)
    requires Base(w) && Enabled(w, e, leased) && !Housekeeping(e)
    ensures forall id :: id in w.rows && id in After(w, e, leased).rows ==> After(w, e, leased).rows[id] == w.rows[id]
  {
  }

  /** A closed fold whose sweep still stands is the same fold after any step. */
  predicate SameRuns(rows: Rows, rows': Rows, k: Key) {
    && (forall id :: id in rows && InFold(rows[id], k) ==> id in rows' && rows'[id] == rows[id])
    && (forall id :: id in rows' && InFold(rows'[id], k) ==> id in rows && InFold(rows[id], k))
  }

  lemma FoldIsFrozen(w: World, e: Event, k: Key, leased: bool)
    requires Base(w) && Timely(w, e) && Enabled(w, e, leased) && Closed(w, k)
    requires k.sweep in After(w, e, leased).sweeps
    ensures k.sweep in w.sweeps && After(w, e, leased).sweeps[k.sweep] == w.sweeps[k.sweep]
    ensures SameRuns(w.rows, After(w, e, leased).rows, k)
  {
    SettledNeverChanges(w, e, leased);
    if Housekeeping(e) {
      HousekeepingUpdates(w, e, leased);
      UpdatesKeepFold(w.rows, After(w, e, leased).rows, k);
    } else {
      ChangesSpareFold(w, e, k, leased);
    }
  }

  lemma UpdatesKeepFold(rows: Rows, rows': Rows, k: Key)
    requires Updates(rows, rows')
    requires forall id :: id in rows && InFold(rows[id], k) ==> rows'[id] == rows[id]
    ensures SameRuns(rows, rows', k)
  {
    assert forall id :: id in rows ==> Aged(rows[id], rows'[id]);
  }

  lemma ChangesSpareFold(w: World, e: Event, k: Key, leased: bool)
    requires Base(w) && Enabled(w, e, leased) && !Housekeeping(e) && k.sweep in w.sweepIds
    requires k.sweep in After(w, e, leased).sweeps
    ensures SameRuns(w.rows, After(w, e, leased).rows, k)
  {
  }

  lemma WinnerKept(rows: Rows, rows': Rows, objective: Objective, k: Key, id: nat)
    requires Winner(rows, objective, k, id) && SameRuns(rows, rows', k)
    ensures Winner(rows', objective, k, id) && rows'[id] == rows[id]
  {
    assert forall x :: Candidate(rows, k, x) <==> Candidate(rows', k, x);
  }

  // ---------- the winner stays the winner ----------

  /** The run carries what the fold's winner was run with. */
  ghost predicate CarriesWinner(w: World, k: Key, r: Row) {
    k.sweep in w.sweeps ==>
      exists id :: Winner(w.rows, w.sweeps[k.sweep].objective, k, id) && w.rows[id].spec == r.spec && w.rows[id].point == r.point
  }

  ghost predicate Won(w: World) {
    forall o, k :: o in w.rows && Tests(w.rows[o], k) ==> CarriesWinner(w, k, w.rows[o])
  }

  ghost predicate Chosen(w: World) {
    forall p :: p in w.promoters && w.promoters[p].Picked? ==> CarriesWinner(w, w.promoters[p].key, w.promoters[p].winner)
  }

  lemma StillCarries(w: World, e: Event, k: Key, r: Row, leased: bool)
    requires Base(w) && Timely(w, e) && Enabled(w, e, leased) && Closed(w, k) && CarriesWinner(w, k, r)
    ensures CarriesWinner(After(w, e, leased), k, r)
  {
    var w' := After(w, e, leased);
    if k.sweep in w'.sweeps {
      FoldIsFrozen(w, e, k, leased);
      var id :| Winner(w.rows, w.sweeps[k.sweep].objective, k, id) && w.rows[id].spec == r.spec && w.rows[id].point == r.point;
      WinnerKept(w.rows, w'.rows, w.sweeps[k.sweep].objective, k, id);
    }
  }

  lemma TestedIsClosed(w: World, o: nat, k: Key)
    requires Base(w) && o in w.rows && Tests(w.rows[o], k)
    ensures Closed(w, k)
  {
    assert w.rows[o].sweep.value in w.sweeps;
    forall id | id in w.rows && InFold(w.rows[id], k) ensures Settled(w.rows[id]) {
      assert TestOf(w.rows[o], w.rows[id]);
    }
  }

  lemma StepKeepsChosen(w: World, e: Event, leased: bool)
    requires Base(w) && Timely(w, e) && Chosen(w) && Enabled(w, e, leased)
    ensures Chosen(After(w, e, leased))
  {
    var w' := After(w, e, leased);
    forall p | p in w'.promoters && w'.promoters[p].Picked?
      ensures CarriesWinner(w', w'.promoters[p].key, w'.promoters[p].winner)
    {
      if p in w.promoters && w'.promoters[p] == w.promoters[p] {
        assert Careful(w, w.promoters[p]);
        StillCarries(w, e, w.promoters[p].key, w.promoters[p].winner, leased);
      } else {
        assert e.Pick? && e.promoter == p && e.best.Some?;
      }
    }
  }

  /** Where a test run in the table came from. */
  lemma TestRunOrigin(w: World, e: Event, o: nat, k: Key, leased: bool)
    requires Base(w) && Enabled(w, e, leased)
    requires o in After(w, e, leased).rows && Tests(After(w, e, leased).rows[o], k)
    ensures var r := After(w, e, leased).rows[o];
      || (o in w.rows && Tests(w.rows[o], k) && w.rows[o].spec == r.spec && w.rows[o].point == r.point)
      || (&& e.Promote? && PromoterOf(w, e.promoter).Picked? && PromoterOf(w, e.promoter).key == k
          && r.spec == PromoterOf(w, e.promoter).winner.spec && r.point == PromoterOf(w, e.promoter).winner.point)
  {
    if Housekeeping(e) {
      HousekeepingUpdates(w, e, leased);
      assert Aged(w.rows[o], After(w, e, leased).rows[o]);
    }
  }

  lemma StepKeepsWon(w: World, e: Event, leased: bool)
    requires Base(w) && Timely(w, e) && Chosen(w) && Won(w) && Enabled(w, e, leased)
    ensures Won(After(w, e, leased))
  {
    var w' := After(w, e, leased);
    forall o, k | o in w'.rows && Tests(w'.rows[o], k) ensures CarriesWinner(w', k, w'.rows[o]) {
      TestRunOrigin(w, e, o, k, leased);
      if o in w.rows && Tests(w.rows[o], k) {
        TestedIsClosed(w, o, k);
        StillCarries(w, e, k, w.rows[o], leased);
      } else {
        var picked := PromoterOf(w, e.promoter);
        assert Careful(w, picked);
        StillCarries(w, e, k, picked.winner, leased);
      }
    }
  }

  // ---------- whole runs of the system ----------

  predicate Empty(w: World) {
    w.rows == map[] && w.sweeps == map[] && w.runIds == {} && w.sweepIds == {} && w.workers == map[] && w.promoters == map[]
  }

  /** A history: the worlds it passes through and the events between them. */
  ghost predicate History(worlds: seq<World>, events: seq<Event>, leased: bool) {
    && |worlds| == |events| + 1
    && Empty(worlds[0])
    && forall i :: 0 <= i < |events| ==> Follows(worlds[i], events[i], worlds[i + 1], leased)
  }

  ghost predicate Follows(w: World, e: Event, w': World, leased: bool) {
    Enabled(w, e, leased) && w' == After(w, e, leased)
  }

  lemma {:induction false} AlwaysBase(worlds: seq<World>, events: seq<Event>, leased: bool, n: nat)
    requires History(worlds, events, leased) && n < |worlds|
    ensures Base(worlds[n])
  {
    if n > 0 {
      AlwaysBase(worlds, events, leased, n - 1);
      assert Follows(worlds[n - 1], events[n - 1], worlds[n], leased);
      StepKeepsBase(worlds[n - 1], events[n - 1], leased);
    }
  }

  /** Lease or no lease, a fold never has two out-of-sample runs, and has one only once its
      in-sample runs have all settled. */
  lemma OneTestAfterAllSettled(worlds: seq<World>, events: seq<Event>, leased: bool, n: nat, k: Key)
    requires History(worlds, events, leased) && n < |worlds|
    ensures var rows := worlds[n].rows;
      && (forall a, b :: a in rows && b in rows && Tests(rows[a], k) && Tests(rows[b], k) ==> a == b)
      && (forall o, r :: o in rows && r in rows && Tests(rows[o], k) && InFold(rows[r], k) ==> Settled(rows[r]))
  {
    AlwaysBase(worlds, events, leased, n);
    var rows := worlds[n].rows;
    forall a, b | a in rows && b in rows && Tests(rows[a], k) && Tests(rows[b], k) ensures a == b {
      assert BothTest(rows[a], rows[b]);
    }
    forall o, r | o in rows && r in rows && Tests(rows[o], k) && InFold(rows[r], k) ensures Settled(rows[r]) {
      assert TestOf(rows[o], rows[r]);
    }
  }

  predicate StillSettled(w: World, id: nat) {
    id in w.runIds && (id in w.rows ==> Settled(w.rows[id]))
  }

  lemma StepKeepsSettled(w: World, e: Event, w': World, leased: bool, id: nat)
    requires Base(w) && Follows(w, e, w', leased) && StillSettled(w, id)
    ensures StillSettled(w', id) && (id in w'.rows ==> id in w.rows)
  {
    if Housekeeping(e) {
      HousekeepingUpdates(w, e, leased);
      assert id in w.rows ==> Aged(w.rows[id], w'.rows[id]);
    }
  }

  /** A settled run is never queued or running again, even with workers that come back long
      after they were given up on. */
  lemma {:induction false} SettledStaysSettled(worlds: seq<World>, events: seq<Event>, leased: bool, m: nat, n: nat, id: nat)
    requires History(worlds, events, leased) && m <= n < |worlds|
    requires id in worlds[m].rows && Settled(worlds[m].rows[id])
    ensures StillSettled(worlds[n], id)
  {
    if m == n {
      AlwaysBase(worlds, events, leased, m);
    } else {
      SettledStaysSettled(worlds, events, leased, m, n - 1, id);
      AlwaysBase(worlds, events, leased, n - 1);
      StepKeepsSettled(worlds[n - 1], events[n - 1], worlds[n], leased, id);
    }
  }

  /** There is one result, and no other will do. */
  predicate Stands(w: World, id: nat, metrics: Metrics) {
    id in w.runIds && (id in w.rows ==> w.rows[id].metrics == Some(metrics))
  }

  lemma StepKeepsResult(w: World, e: Event, w': World, leased: bool, id: nat, metrics: Metrics)
    requires Base(w) && Follows(w, e, w', leased) && Stands(w, id, metrics)
    ensures Stands(w', id, metrics)
  {
    if !Housekeeping(e) {
      OldRowsKept(w, e, leased);
    }
  }

  /** A run has one result for good: whatever late workers bring, the first stays. */
  lemma {:induction false} ResultIsForGood(worlds: seq<World>, events: seq<Event>, leased: bool, m: nat, n: nat, id: nat)
    requires History(worlds, events, leased) && m <= n < |worlds|
    requires id in worlds[m].rows && worlds[m].rows[id].metrics.Some?
    ensures Stands(worlds[n], id, worlds[m].rows[id].metrics.value)
  {
    AlwaysBase(worlds, events, leased, n);
    if m < n {
      ResultIsForGood(worlds, events, leased, m, n - 1, id);
      AlwaysBase(worlds, events, leased, n - 1);
      StepKeepsResult(worlds[n - 1], events[n - 1], worlds[n], leased, id, worlds[m].rows[id].metrics.value);
    }
  }

  /** What is queued or running has no result yet, and what is done has one. */
  predicate Unscored(rows: Rows) {
    forall id :: id in rows ==>
      (Active(rows[id]) ==> rows[id].metrics.None?) && (rows[id].status == Done ==> rows[id].metrics.Some?)
  }

  lemma StepKeepsUnscored(w: World, e: Event, w': World, leased: bool)
    requires Base(w) && Follows(w, e, w', leased) && Unscored(w.rows)
    ensures Unscored(w'.rows)
  {
    if !Housekeeping(e) {
      OldRowsKept(w, e, leased);
      NewRowsUnscored(w, e, leased);
    }
  }

  /** A run comes into the table queued and without a result. */
  lemma NewRowsUnscored(w: World, e: Event, leased: bool)
    requires Enabled(w, e, leased) && !Housekeeping(e)
    ensures forall id :: id in After(w, e, leased).rows && id !in w.rows ==>
      After(w, e, leased).rows[id].status == Queued && After(w, e, leased).rows[id].metrics.None?
  {
  }

  lemma {:induction false} AlwaysUnscored(worlds: seq<World>, events: seq<Event>, leased: bool, n: nat)
    requires History(worlds, events, leased) && n < |worlds|
    ensures Unscored(worlds[n].rows)
  {
    if n > 0 {
      AlwaysUnscored(worlds, events, leased, n - 1);
      AlwaysBase(worlds, events, leased, n - 1);
      StepKeepsUnscored(worlds[n - 1], events[n - 1], worlds[n], leased);
    }
  }

  ghost predicate Leased(w: World) {
    Base(w) && Exclusive(w) && Chosen(w) && Won(w)
  }

  lemma {:induction false} AlwaysLeased(worlds: seq<World>, events: seq<Event>, n: nat)
    requires History(worlds, events, true) && n < |worlds|
    ensures Leased(worlds[n])
  {
    if n > 0 {
      AlwaysLeased(worlds, events, n - 1);
      var w, e := worlds[n - 1], events[n - 1];
      assert Follows(w, e, worlds[n], true);
      StepKeepsBase(w, e, true);
      StepKeepsExclusive(w, e);
      LeasedIsTimely(w, e);
      StepKeepsChosen(w, e, true);
      StepKeepsWon(w, e, true);
    }
  }

  /** As long as no worker outlives its lease, every out-of-sample run carries, at every
      moment, the spec of its fold's first best-scoring run. */
  lemma TestRunsCarryTheWinner(worlds: seq<World>, events: seq<Event>, n: nat, o: nat, k: Key)
    requires History(worlds, events, true) && n < |worlds|
    requires o in worlds[n].rows && Tests(worlds[n].rows[o], k)
    ensures var w := worlds[n];
      && k.sweep in w.sweeps
      && exists id :: Winner(w.rows, w.sweeps[k.sweep].objective, k, id) && w.rows[id].spec == w.rows[o].spec
  {
    AlwaysLeased(worlds, events, n);
    assert CarriesWinner(worlds[n], k, worlds[n].rows[o]);
  }

  lemma {:induction false} AlwaysWon(worlds: seq<World>, events: seq<Event>, leased: bool, n: nat)
    requires History(worlds, events, leased) && n < |worlds|
    requires forall i :: 0 <= i < n ==> Timely(worlds[i], events[i])
    ensures Base(worlds[n]) && Chosen(worlds[n]) && Won(worlds[n])
  {
    AlwaysBase(worlds, events, leased, n);
    if n > 0 {
      AlwaysWon(worlds, events, leased, n - 1);
      assert Follows(worlds[n - 1], events[n - 1], worlds[n], leased);
      StepKeepsChosen(worlds[n - 1], events[n - 1], leased);
      StepKeepsWon(worlds[n - 1], events[n - 1], leased);
    }
  }

  /** So it is for as long as no settled run is failed, and no failed one finished, late
      workers or not. */
  lemma TimelyTestsCarryTheWinner(worlds: seq<World>, events: seq<Event>, leased: bool, n: nat, o: nat, k: Key)
    requires History(worlds, events, leased) && n < |worlds|
    requires forall i :: 0 <= i < n ==> Timely(worlds[i], events[i])
    requires o in worlds[n].rows && Tests(worlds[n].rows[o], k)
    ensures var w := worlds[n];
      && k.sweep in w.sweeps
      && exists id :: Winner(w.rows, w.sweeps[k.sweep].objective, k, id) && w.rows[id].spec == w.rows[o].spec
  {
    AlwaysWon(worlds, events, leased, n);
    assert CarriesWinner(worlds[n], k, worlds[n].rows[o]);
  }

  lemma StepFreezesSettled(w: World, e: Event, w': World, id: nat, r: Row)
    requires Base(w) && Exclusive(w) && Follows(w, e, w', true) && StillSettled(w, id)
    requires id in w.rows ==> w.rows[id] == r
    ensures id in w'.rows ==> w'.rows[id] == r
  {
    StepKeepsSettled(w, e, w', true, id);
    LeasedIsTimely(w, e);
    SettledNeverChanges(w, e, true);
  }

  /** Within the lease no result is refused: the run is done with it. */
  lemma LeasedResultIsStored(worlds: seq<World>, events: seq<Event>, n: nat)
    requires History(worlds, events, true) && n < |events| && events[n].Finish?
    ensures var run := WorkerOf(worlds[n], events[n].worker);
      run.Working? && (run.run in worlds[n].rows ==>
        var row := worlds[n + 1].rows[run.run]; row.status == Done && row.metrics == Some(events[n].metrics))
  {
    AlwaysLeased(worlds, events, n);
    AlwaysUnscored(worlds, events, true, n);
    assert Follows(worlds[n], events[n], worlds[n + 1], true);
    assert Holds(worlds[n], events[n].worker);
  }

  /** Within the lease a settled run does not change at all. */
  lemma {:induction false} LeasedRunsAreFrozen(worlds: seq<World>, events: seq<Event>, m: nat, n: nat, id: nat)
    requires History(worlds, events, true) && m <= n < |worlds|
    requires id in worlds[m].rows && Settled(worlds[m].rows[id])
    ensures id in worlds[n].rows ==> worlds[n].rows[id] == worlds[m].rows[id]
  {
    if m < n {
      LeasedRunsAreFrozen(worlds, events, m, n - 1, id);
      SettledStaysSettled(worlds, events, true, m, n - 1, id);
      AlwaysLeased(worlds, events, n - 1);
      StepFreezesSettled(worlds[n - 1], events[n - 1], worlds[n], id, worlds[m].rows[id]);
    }
  }

  // ---------- why the lease matters ----------

  const FOLD := Key(0, 0)
  const TRIED := Row(Queued, None, 0, Some(0), Some(0), Some(InSample), 0, "spec", None)
  const LATE := STALE_AFTER + 1
  const WALK := Sweep(true, Objective.Return, {0})
  const TRADED := Metrics(1, 5.0, 0.0, 0.0, 0.0, 0.0, 0, None)

  function Tried(status: Status, startedAt: Option<int>, metrics: Option<Metrics>): Row {
    TRIED.(status := status, startedAt := startedAt, metrics := metrics)
  }

  function Scene(now: int, rows: Rows, workers: map<nat, Worker>, promoter: Promoter): World {
    World(now, rows, map[0 := WALK], rows.Keys, {0}, workers, map[0 := promoter])
  }

  ghost predicate Reaches(worlds: seq<World>, events: seq<Event>, w: World) {
    History(worlds, events, false) && worlds[|events|] == w
  }

  lemma Extended(worlds: seq<World>, events: seq<Event>, e: Event, w: World)
    requires History(worlds, events, false) && Follows(worlds[|events|], e, w, false)
    ensures Reaches(worlds + [w], events + [e], w)
  {
    assert forall i :: 0 <= i < |events| ==> Follows(worlds[i], events[i], worlds[i + 1], false);
  }

  lemma Next(worlds: seq<World>, events: seq<Event>, w: World, e: Event, w': World)
    returns (longer: seq<World>, more: seq<Event>)
    requires Reaches(worlds, events, w) && Follows(w, e, w', false)
    ensures Reaches(longer, more, w') && more == events + [e] && longer == worlds + [w']
  {
    longer, more := worlds + [w'], events + [e];
    Extended(worlds, events, e, w');
  }

  /** A run claimed by a worker that is never heard from, and freed again. */
  lemma RunAbandoned() returns (worlds: seq<World>, events: seq<Event>)
    ensures Reaches(worlds, events, Scene(LATE, map[0 := TRIED], map[0 := Working(0, 0)], Resting))
  {
    var nobody := World(0, map[], map[], {}, {}, map[], map[]);
    var rested := nobody.(promoters := map[0 := Resting]);
    var queued := Scene(0, map[0 := TRIED], map[], Resting);
    var claimed := Scene(0, map[0 := Tried(Running, Some(0), None)], map[0 := Working(0, 0)], Resting);
    var stuck := claimed.(now := LATE);
    var freed := stuck.(rows := map[0 := TRIED]);
    worlds := [nobody, rested, queued, claimed, stuck, freed];
    events := [Drop(0), CreateSweep(0, WALK, map[0 := TRIED]), Claim(0, 0), Tick(LATE), RequeueStale];
    assert Follows(nobody, events[0], rested, false);
    assert Follows(rested, events[1], queued, false);
    assert Follows(queued, events[2], claimed, false);
    assert Follows(claimed, events[3], stuck, false);
    assert Follows(stuck, events[4], freed, false);
  }

  function Winning(): Row {
    Tried(Done, Some(LATE), Some(TRADED))
  }

  /** Claimed again, and finished by the second worker. */
  lemma RunTwice() returns (worlds: seq<World>, events: seq<Event>)
    ensures Reaches(worlds, events, Scene(LATE, map[0 := Winning()], map[0 := Working(0, 0), 1 := Idle], Resting))
  {
    worlds, events := RunAbandoned();
    var again := Scene(LATE, map[0 := Tried(Running, Some(LATE), None)], map[0 := Working(0, 0), 1 := Working(0, LATE)], Resting);
    worlds, events := Next(worlds, events, worlds[|events|], Claim(1, 0), again);
    var done := Scene(LATE, map[0 := Winning()], map[0 := Working(0, 0), 1 := Idle], Resting);
    worlds, events := Next(worlds, events, again, Finish(1, TRADED), done);
  }

  function Chase(rows: Rows, promoter: Promoter): World {
    Scene(LATE, rows, map[0 := Working(0, 0), 1 := Idle], promoter)
  }

  lemma TriedIsReady()
    ensures Follows(Chase(map[0 := Winning()], Resting), Look(0, [FOLD]), Chase(map[0 := Winning()], Walking([FOLD])), false)
  {
    var rows: Rows := map[0 := Winning()];
    assert InFold(rows[0], FOLD) && rows[0].status == Done;
    assert ReadyFold(rows, map[0 := WALK], FOLD);
  }

  /** The fold is decided and its test queued. */
  lemma FoldDecided() returns (worlds: seq<World>, events: seq<Event>)
    ensures Reaches(worlds, events, Chase(map[0 := Winning(), 1 := TestRun(FOLD, Winning(), LATE)], Walking([])))
  {
    worlds, events := RunTwice();
    var walking := Chase(map[0 := Winning()], Walking([FOLD]));
    TriedIsReady();
    worlds, events := Next(worlds, events, worlds[|events|], Look(0, [FOLD]), walking);
    var picked := Chase(map[0 := Winning()], Picked(FOLD, Winning(), []));
    assert [FOLD][1..] == [];
    worlds, events := Next(worlds, events, walking, Pick(0, Some(0)), picked);
    var tested := Chase(map[0 := Winning(), 1 := TestRun(FOLD, Winning(), LATE)], Walking([]));
    worlds, events := Next(worlds, events, picked, Promote(0, 1), tested);
  }

  /** Without it: a worker given up on comes back after the fold has been decided and marks
      the winner failed, and the test run carries the spec of no winner at all. */
  lemma LateWorkerUnseatsWinner() returns (worlds: seq<World>, events: seq<Event>)
    ensures History(worlds, events, false)
    ensures !Won(worlds[|events|])
  {
    worlds, events := FoldDecided();
    var test := TestRun(FOLD, Winning(), LATE);
    var unseated :=
      Scene(LATE, map[0 := Winning().(status := Error), 1 := test], map[0 := Idle, 1 := Idle], Walking([]));
    worlds, events := Next(worlds, events, worlds[|events|], Fail(0), unseated);
    assert Tests(unseated.rows[1], FOLD) && !CarriesWinner(unseated, FOLD, unseated.rows[1]);
  }
}
