/** The walk-forward queue as a protocol: workers, crashes, requeues and promotions
    interleaving over the run table in any order. */
module WalkForward {
  import opened Outcomes
  import opened Queues

  const RUN_TIMEOUT := 10 * 60
  const WRITE_TIMEOUT := 60
  const STALE_AFTER := 30 * 60

  /** A worker is done with a run, one way or another, this long after claiming it. */
  const LEASE := RUN_TIMEOUT + WRITE_TIMEOUT

  datatype Worker = Idle | Working(run: nat, since: int)

  /** A pass over the folds found ready; `Picked` is between choosing and inserting. */
  datatype Promoter = Resting | Walking(todo: seq<Key>) | Picked(key: Key, winner: Row, todo: seq<Key>)

  datatype World = World(
    now: int,
    rows: Rows,
    sweeps: map<nat, Sweep>,
    runIds: set<nat>,
    sweepIds: set<nat>,
    workers: map<nat, Worker>,
    promoters: map<nat, Promoter>)

  datatype Event =
    | Tick(to: int)
    | Submit(id: nat, row: Row)
    | CreateSweep(sweepId: nat, sweep: Sweep, children: Rows)
    | DeleteSweep(sweepId: nat)
    | Claim(worker: nat, id: nat)
    | Finish(worker: nat, metrics: Metrics)
    | Fail(worker: nat)
    | Return(worker: nat)
    | Crash(worker: nat)
    | RequeueStale
    | Look(promoter: nat, keys: seq<Key>)
    | Pick(promoter: nat, best: Option<nat>)
    | Promote(promoter: nat, id: nat)
    | Drop(promoter: nat)

  function WorkerOf(w: World, i: nat): Worker {
    if i in w.workers then w.workers[i] else Idle
  }

  function PromoterOf(w: World, p: nat): Promoter {
    if p in w.promoters then w.promoters[p] else Resting
  }

  predicate InLease(w: World, i: nat) {
    WorkerOf(w, i).Working? && w.now <= WorkerOf(w, i).since + LEASE
  }

  /** Rows as a sweep is created with: all queued, one per point in each fold. */
  predicate Children(sweepId: nat, rows: Rows) {
    && (forall id :: id in rows ==>
          && rows[id].sweep == Some(sweepId) && rows[id].status == Queued && rows[id].startedAt.None?
          && rows[id].phase != Some(OutOfSample) && rows[id].metrics.None?)
    && (forall a, b :: a in rows && b in rows && Siblings(rows[a], rows[b]) && rows[a].point == rows[b].point ==> a == b)
  }

  predicate Siblings(a: Row, b: Row) {
    a.sweep == b.sweep && a.fold == b.fold && a.phase == b.phase == Some(InSample)
  }

  /** What a promoter may conclude about the fold at the head of its list. */
  ghost predicate MayPick(w: World, k: Key, best: Option<nat>) {
    match best
    case None => true
    case Some(id) =>
      k.sweep in w.sweeps && k.fold in w.sweeps[k.sweep].folds && Winner(w.rows, w.sweeps[k.sweep].objective, k, id)
  }

  /** Which events may happen.  `leased` is the assumption that no worker acts on a run
      after its lease: the timeouts of the run and of its writes. */
  ghost predicate Enabled(w: World, e: Event, leased: bool) {
    match e
    case Tick(to) => to >= w.now
    case Submit(id, row) =>
      && id !in w.runIds && row.status == Queued && row.sweep.None? && row.phase.None?
      && row.startedAt.None? && row.metrics.None?
    case CreateSweep(sweepId, _, children) =>
      sweepId !in w.sweepIds && children.Keys !! w.runIds && Children(sweepId, children)
    case DeleteSweep(_) => true
    case Claim(i, id) => WorkerOf(w, i) == Idle && id in w.rows && w.rows[id].status == Queued
    case Finish(i, _) => WorkerOf(w, i).Working? && (leased ==> InLease(w, i))
    case Fail(i) => WorkerOf(w, i).Working? && (leased ==> InLease(w, i))
    case Return(i) => WorkerOf(w, i).Working? && (leased ==> InLease(w, i))
    case Crash(_) => true
    case RequeueStale => true
    case Look(p, keys) => PromoterOf(w, p) == Resting && forall i :: 0 <= i < |keys| ==> ReadyFold(w.rows, w.sweeps, keys[i])
    case Pick(p, best) => PromoterOf(w, p).Walking? && PromoterOf(w, p).todo != [] && MayPick(w, PromoterOf(w, p).todo[0], best)
    case Promote(p, id) => PromoterOf(w, p).Picked? && id !in w.runIds
    case Drop(_) => true
  }

  ghost function After(w: World, e: Event, leased: bool): World
    requires Enabled(w, e, leased)
  {
    match e
    case Tick(to) => w.(now := to)
    case Submit(id, row) => w.(rows := w.rows[id := row], runIds := w.runIds + {id})
    case CreateSweep(sweepId, sweep, children) =>
      w.(rows := w.rows + children, sweeps := w.sweeps[sweepId := sweep],
         runIds := w.runIds + children.Keys, sweepIds := w.sweepIds + {sweepId})
    case DeleteSweep(sweepId) => w.(rows := Cascaded(w.rows, sweepId), sweeps := w.sweeps - {sweepId})
    case Claim(i, id) => w.(rows := Claimed(w.rows, id, w.now), workers := w.workers[i := Working(id, w.now)])
    case Finish(i, metrics) => w.(rows := Finished(w.rows, WorkerOf(w, i).run, metrics), workers := w.workers[i := Idle])
    case Fail(i) => w.(rows := Failed(w.rows, WorkerOf(w, i).run), workers := w.workers[i := Idle])
    case Return(i) => w.(rows := Requeued(w.rows, WorkerOf(w, i).run), workers := w.workers[i := Idle])
    case Crash(i) => w.(workers := w.workers[i := Idle])
    case RequeueStale => w.(rows := StaleRequeued(w.rows, w.now - STALE_AFTER))
    case Look(p, keys) => w.(promoters := w.promoters[p := Walking(keys)])
    case Pick(p, best) =>
      var todo := PromoterOf(w, p).todo;
      w.(promoters := w.promoters[p := if best.None? then Walking(todo[1..]) else Picked(todo[0], w.rows[best.value], todo[1..])])
    case Promote(p, id) =>
      var picked := PromoterOf(w, p);
      w.(rows := Inserted(w.rows, w.sweeps, id, picked.key, TestRun(picked.key, picked.winner, w.now)),
         runIds := w.runIds + {id},
         promoters := w.promoters[p := Walking(picked.todo)])
    case Drop(p) => w.(promoters := w.promoters[p := Resting])
  }

  /** Choosing a fold's winner and carrying it forward, as one worker does it when no other
      comes between, is a pick and then a promotion: what the table's choice answers is
      always a choice the protocol allows. */
  lemma AdvanceIsPickThenPromote(w: World, p: nat, id: nat, k: Key, todo: seq<Key>, best: Option<nat>, leased: bool)
    requires PromoterOf(w, p) == Walking([k] + todo) && id !in w.runIds
    requires Answers(w.rows, w.sweeps, k, best)
    ensures MayPick(w, k, best) && Enabled(w, Pick(p, best), leased)
    ensures best.None? ==>
      After(w, Pick(p, best), leased) == w.(promoters := w.promoters[p := Walking(todo)])
    ensures best.Some? ==>
      var picked := After(w, Pick(p, best), leased);
      && Enabled(picked, Promote(p, id), leased)
      && After(picked, Promote(p, id), leased).rows
         == Inserted(w.rows, w.sweeps, id, k, TestRun(k, w.rows[best.value], w.now))
      && PromoterOf(After(picked, Promote(p, id), leased), p) == Walking(todo)
  {
    assert ([k] + todo)[0] == k && ([k] + todo)[1..] == todo;
  }

  function Cascaded(rows: Rows, sweepId: nat): Rows {
    map id | id in rows && rows[id].sweep != Some(sweepId) :: rows[id]
  }

  // ---------- what every step keeps, lease or no lease ----------

  predicate Known(w: World) {
    && w.rows.Keys <= w.runIds
    && w.sweeps.Keys <= w.sweepIds
    && forall id :: id in w.rows && w.rows[id].sweep.Some? ==> w.rows[id].sweep.value in w.sweeps
  }

  predicate Timed(rows: Rows) {
    forall id :: id in rows && rows[id].status == Running ==> rows[id].startedAt.Some?
  }

  predicate SameFold(a: Row, b: Row) {
    a.sweep == b.sweep && a.fold == b.fold
  }

  predicate BothTest(a: Row, b: Row) {
    a.phase == b.phase == Some(OutOfSample) && SameFold(a, b)
  }

  predicate OneTest(rows: Rows) {
    forall a, b :: a in rows && b in rows && BothTest(rows[a], rows[b]) ==> a == b
  }

  predicate TestOf(o: Row, r: Row) {
    o.phase == Some(OutOfSample) && r.phase == Some(InSample) && SameFold(o, r)
  }

  /** A fold under test is a fold whose in-sample runs have all settled. */
  predicate TestedLate(rows: Rows) {
    forall o, r :: o in rows && r in rows && TestOf(rows[o], rows[r]) ==> Settled(rows[r])
  }

  predicate Addressed(rows: Rows) {
    forall o :: o in rows && rows[o].phase == Some(OutOfSample) ==> rows[o].sweep.Some? && rows[o].fold.Some?
  }

  predicate Tested(rows: Rows) {
    Timed(rows) && OneTest(rows) && TestedLate(rows) && Addressed(rows)
  }

  predicate Gridded(rows: Rows) {
    forall a, b :: a in rows && b in rows && Siblings(rows[a], rows[b]) && rows[a].point == rows[b].point ==> a == b
  }

  /** All that remains of the fold has settled, and nothing can join it. */
  predicate Closed(w: World, k: Key) {
    k.sweep in w.sweepIds && forall id :: id in w.rows && InFold(w.rows[id], k) ==> Settled(w.rows[id])
  }

  predicate Careful(w: World, p: Promoter) {
    match p
    case Resting => true
    case Walking(todo) => forall i :: 0 <= i < |todo| ==> Closed(w, todo[i])
    case Picked(k, _, todo) => Closed(w, k) && forall i :: 0 <= i < |todo| ==> Closed(w, todo[i])
  }

  predicate Promoting(w: World) {
    forall p :: p in w.promoters ==> Careful(w, w.promoters[p])
  }

  predicate Base(w: World) {
    Known(w) && Tested(w.rows) && Gridded(w.rows) && Promoting(w)
  }

  /** Same run, at another stage of its life; settled is for good. */
  predicate Aged(a: Row, b: Row) {
    && a.sweep == b.sweep && a.fold == b.fold && a.phase == b.phase && a.point == b.point && a.spec == b.spec
    && (Settled(a) ==> Settled(b))
    && (b.status == Running ==> b.startedAt.Some?)
  }

  predicate Updates(rows: Rows, rows': Rows) {
    rows'.Keys == rows.Keys && forall id :: id in rows ==> Aged(rows[id], rows'[id])
  }

  lemma UpdateKeepsBase(w: World, w': World)
    requires Base(w) && Updates(w.rows, w'.rows)
    requires w' == w.(now := w'.now, rows := w'.rows, workers := w'.workers)
    ensures Base(w')
  {
    forall a, b | a in w'.rows && b in w'.rows && Siblings(w'.rows[a], w'.rows[b]) && w'.rows[a].point == w'.rows[b].point
      ensures a == b
    {
      assert Siblings(w.rows[a], w.rows[b]);
    }
    forall p | p in w'.promoters ensures Careful(w', w'.promoters[p]) {
      assert Careful(w, w.promoters[p]);
      forall k | Closed(w, k) ensures Closed(w', k) {
        forall id | id in w'.rows && InFold(w'.rows[id], k) ensures Settled(w'.rows[id]) {
          assert Aged(w.rows[id], w'.rows[id]) && InFold(w.rows[id], k);
        }
      }
    }
  }

  /** Runs new to the table, of a sweep new to it or of none. */
  predicate Additions(w: World, added: Rows, sweeps: map<nat, Sweep>) {
    && added.Keys !! w.runIds
    && Gridded(added)
    && forall id :: id in added ==>
        && added[id].status == Queued
        && added[id].phase != Some(OutOfSample)
        && (added[id].phase == Some(InSample) ==> added[id].sweep.Some?)
        && (added[id].sweep.Some? ==> added[id].sweep.value in sweeps && added[id].sweep.value !in w.sweepIds)
  }

  lemma AddedTests(w: World, added: Rows, sweeps: map<nat, Sweep>)
    requires Known(w) && Tested(w.rows) && Additions(w, added, sweeps)
    ensures Tested(w.rows + added)
  {
    var rows := w.rows + added;
    assert forall id :: id in rows ==> rows[id] == if id in added then added[id] else w.rows[id];
    assert forall id :: id in w.rows && w.rows[id].sweep.Some? ==> w.rows[id].sweep.value in w.sweepIds;
    forall o, r | o in rows && r in rows && TestOf(rows[o], rows[r]) ensures Settled(rows[r]) {
      assert o in w.rows && rows[o] == w.rows[o];
    }
  }

  lemma AddedGrid(w: World, added: Rows, sweeps: map<nat, Sweep>)
    requires Known(w) && Gridded(w.rows) && Additions(w, added, sweeps)
    ensures Gridded(w.rows + added)
  {
    var rows := w.rows + added;
    assert forall id :: id in rows ==> rows[id] == if id in added then added[id] else w.rows[id];
    assert forall id :: id in w.rows && w.rows[id].sweep.Some? ==> w.rows[id].sweep.value in w.sweepIds;
    forall a, b | a in rows && b in rows && Siblings(rows[a], rows[b]) && rows[a].point == rows[b].point ensures a == b {
      assert a in added <==> b in added;
    }
  }

  /** They leave every old fold as it was. */
  lemma GrowthKeepsBase(w: World, w': World, added: Rows)
    requires Base(w) && Additions(w, added, w'.sweeps)
    requires w' == w.(rows := w.rows + added, sweeps := w'.sweeps, runIds := w.runIds + added.Keys, sweepIds := w'.sweepIds)
    requires w.sweeps.Keys <= w'.sweeps.Keys <= w'.sweepIds && w.sweepIds <= w'.sweepIds
    ensures Base(w')
  {
    AddedTests(w, added, w'.sweeps);
    AddedGrid(w, added, w'.sweeps);
    assert forall id :: id in w'.rows ==> w'.rows[id] == if id in added then added[id] else w.rows[id];
    forall p | p in w'.promoters ensures Careful(w', w'.promoters[p]) {
      assert Careful(w, w.promoters[p]);
      forall k | Closed(w, k) ensures Closed(w', k) {
      }
    }
  }

  lemma DeleteKeepsBase(w: World, sweepId: nat)
    requires Base(w)
    ensures Base(After(w, DeleteSweep(sweepId), false))
  {
    var w' := After(w, DeleteSweep(sweepId), false);
    assert forall id :: id in w'.rows ==> id in w.rows && w'.rows[id] == w.rows[id];
    forall p | p in w'.promoters ensures Careful(w', w'.promoters[p]) {
      assert Careful(w, w.promoters[p]);
      assert forall k :: Closed(w, k) ==> Closed(w', k);
    }
  }

  lemma PromoteKeepsBase(w: World, p: nat, id: nat)
    requires Base(w) && Enabled(w, Promote(p, id), false)
    ensures Base(After(w, Promote(p, id), false))
  {
    var w' := After(w, Promote(p, id), false);
    var picked := PromoterOf(w, p);
    assert Careful(w, picked);
    var k := picked.key;
    forall a, b | a in w'.rows && b in w'.rows && BothTest(w'.rows[a], w'.rows[b])
      ensures a == b
    {
      assert a !in w.rows ==> Tests(w'.rows[a], k) && Tests(w'.rows[b], k);
      assert b !in w.rows ==> Tests(w'.rows[a], k) && Tests(w'.rows[b], k);
    }
    forall o, r | o in w'.rows && r in w'.rows && TestOf(w'.rows[o], w'.rows[r])
      ensures Settled(w'.rows[r])
    {
      if o !in w.rows {
        assert InFold(w.rows[r], k);
      }
    }
    forall q | q in w'.promoters ensures Careful(w', w'.promoters[q]) {
      assert q in w.promoters ==> Careful(w, w.promoters[q]);
      forall key | Closed(w, key) ensures Closed(w', key) {
      }
    }
  }

  lemma PromoterKeepsBase(w: World, p: nat, next: Promoter)
    requires Base(w) && Careful(w, next)
    ensures Base(w.(promoters := w.promoters[p := next]))
  {
    var w' := w.(promoters := w.promoters[p := next]);
    forall q | q in w'.promoters ensures Careful(w', w'.promoters[q]) {
      assert Careful(w, if q == p then next else w.promoters[q]);
      assert forall k :: Closed(w, k) ==> Closed(w', k);
    }
  }

  predicate Housekeeping(e: Event) {
    e.Tick? || e.Claim? || e.Finish? || e.Fail? || e.Return? || e.Crash? || e.RequeueStale?
  }

  lemma HousekeepingUpdates(w: World, e: Event, leased: bool)
    requires Timed(w.rows) && Enabled(w, e, leased) && Housekeeping(e)
    ensures Updates(w.rows, After(w, e, leased).rows)
  {
    if e.Claim? || e.RequeueStale? {
    } else if e.Finish? || e.Fail? || e.Return? {
      WritesUpdate(w.rows, WorkerOf(w, e.worker).run);
    }
  }

  lemma WritesUpdate(rows: Rows, id: nat)
    requires Timed(rows)
    ensures Updates(rows, Failed(rows, id)) && Updates(rows, Requeued(rows, id))
    ensures forall metrics :: Updates(rows, Finished(rows, id, metrics))
  {
  }

  lemma SubmitKeepsBase(w: World, id: nat, row: Row)
    requires Base(w) && Enabled(w, Submit(id, row), false)
    ensures Base(After(w, Submit(id, row), false))
  {
    GrowthKeepsBase(w, After(w, Submit(id, row), false), map[id := row]);
  }

  lemma CreateKeepsBase(w: World, sweepId: nat, sweep: Sweep, children: Rows)
    requires Base(w) && Enabled(w, CreateSweep(sweepId, sweep, children), false)
    ensures Base(After(w, CreateSweep(sweepId, sweep, children), false))
  {
    GrowthKeepsBase(w, After(w, CreateSweep(sweepId, sweep, children), false), children);
  }

  lemma PickIsCareful(w: World, p: nat, best: Option<nat>)
    requires Base(w) && Enabled(w, Pick(p, best), false)
    ensures Careful(w, After(w, Pick(p, best), false).promoters[p])
  {
    assert Careful(w, PromoterOf(w, p));
  }

  lemma PromoterStepKeepsBase(w: World, e: Event, leased: bool)
    requires Base(w) && Enabled(w, e, leased) && (e.Look? || e.Pick? || e.Drop?)
    ensures Base(After(w, e, leased))
  {
    match e
    case Look(p, keys) => PromoterKeepsBase(w, p, Walking(keys));
    case Pick(p, best) =>
      PickIsCareful(w, p, best);
      PromoterKeepsBase(w, p, After(w, e, leased).promoters[p]);
    case Drop(p) => PromoterKeepsBase(w, p, Resting);
  }

  /** Whatever happens, in any order, with late workers or without. */
  lemma StepKeepsBase(w: World, e: Event, leased: bool)
    requires Base(w) && Enabled(w, e, leased)
    ensures Base(After(w, e, leased))
  {
    if Housekeeping(e) {
      HousekeepingUpdates(w, e, leased);
      UpdateKeepsBase(w, After(w, e, leased));
    } else if e.Submit? {
      SubmitKeepsBase(w, e.id, e.row);
    } else if e.CreateSweep? {
      CreateKeepsBase(w, e.sweepId, e.sweep, e.children);
    } else if e.DeleteSweep? {
      DeleteKeepsBase(w, e.sweepId);
    } else if e.Promote? {
      PromoteKeepsBase(w, e.promoter, e.id);
    } else {
      PromoterStepKeepsBase(w, e, leased);
    }
  }
}
