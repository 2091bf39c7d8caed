/** The run table: its rows, and what each statement does to them. */
module Queues {
  import opened Outcomes

  datatype Status = Queued | Running | Done | Error

  datatype Phase = InSample | OutOfSample

  datatype Objective = Return | Cagr | Sharpe | Sortino | Calmar | Expectancy | ProfitFactor | Unnamed

  datatype Metrics = Metrics(
    trades: nat,
    returnPct: real,
    cagrPct: real,
    sharpe: real,
    sortino: real,
    calmar: real,
    expectancyCents: int,
    profitFactor: Option<real>)

  datatype Score = Finite(value: real) | Infinite

  predicate Above(a: Score, b: Score) {
    match (a, b)
    case (Finite(x), Finite(y)) => x > y
    case (Infinite, Finite(_)) => true
    case (_, Infinite) => false
  }

  /** What a run is ranked by; one without a single trade has no score. */
  function ScoreOf(m: Metrics, objective: Objective): Option<Score> {
    if m.trades == 0 then None
    else
      match objective
      case Return => Some(Finite(m.returnPct))
      case Cagr => Some(Finite(m.cagrPct))
      case Sharpe => Some(Finite(m.sharpe))
      case Sortino => Some(Finite(m.sortino))
      case Calmar => Some(Finite(m.calmar))
      case Expectancy => Some(Finite(m.expectancyCents as real))
      case ProfitFactor => Some(if m.profitFactor.None? then Infinite else Finite(m.profitFactor.value))
      case Unnamed => None
  }

  datatype Row = Row(
    status: Status,
    startedAt: Option<int>,
    created: int,
    sweep: Option<nat>,
    fold: Option<int>,
    phase: Option<Phase>,
    point: int,
    spec: string,
    metrics: Option<Metrics>)

  datatype Sweep = Sweep(walkForward: bool, objective: Objective, folds: set<int>)

  /** One fold of one sweep. */
  datatype Key = Key(sweep: nat, fold: int)

  type Rows = map<nat, Row>

  predicate Active(r: Row) {
    r.status == Queued || r.status == Running
  }

  predicate Settled(r: Row) {
    !Active(r)
  }

  predicate InFold(r: Row, k: Key) {
    r.sweep == Some(k.sweep) && r.fold == Some(k.fold) && r.phase == Some(InSample)
  }

  predicate Tests(r: Row, k: Key) {
    r.sweep == Some(k.sweep) && r.fold == Some(k.fold) && r.phase == Some(OutOfSample)
  }

  predicate UnderTest(rows: Rows, k: Key) {
    exists id :: id in rows && Tests(rows[id], k)
  }

  // ---------- the statements ----------

  function Claimed(rows: Rows, id: nat, now: int): Rows
    requires id in rows
  {
    rows[id := rows[id].(status := Running, startedAt := Some(now))]
  }

  /** A result goes in with its trades and its equity curve, in one transaction.  Both are
      keyed by run, and curves of the same run share their stamps, so a second result
      violates a key and leaves everything as it was. */
  function Finished(rows: Rows, id: nat, metrics: Metrics): Rows {
    if id in rows && rows[id].metrics.None? then rows[id := rows[id].(status := Done, metrics := Some(metrics))] else rows
  }

  /** A failure writes the status alone, whatever it was. */
  function Failed(rows: Rows, id: nat): Rows {
    if id in rows then rows[id := rows[id].(status := Error)] else rows
  }

  function Freed(r: Row): Row {
    r.(status := Queued, startedAt := None)
  }

  function Requeued(rows: Rows, id: nat): Rows {
    if id in rows && rows[id].status == Running then rows[id := Freed(rows[id])] else rows
  }

  predicate Stale(r: Row, before: int) {
    r.status == Running && r.startedAt.Some? && r.startedAt.value < before
  }

  function StaleRequeued(rows: Rows, before: int): Rows {
    map id | id in rows ::
      if Stale(rows[id], before) then Freed(rows[id]) else rows[id]
  }

  /** Every in-sample run settled, one of them done, and nothing testing the fold yet. */
  predicate ReadyFold(rows: Rows, sweeps: map<nat, Sweep>, k: Key) {
    && k.sweep in sweeps && sweeps[k.sweep].walkForward
    && (exists id :: id in rows && InFold(rows[id], k) && rows[id].status == Done)
    && (forall id :: id in rows && InFold(rows[id], k) ==> Settled(rows[id]))
    && !UnderTest(rows, k)
  }

  predicate Candidate(rows: Rows, k: Key, id: nat) {
    id in rows && InFold(rows[id], k) && rows[id].status == Done
  }

  function Marked(r: Row, objective: Objective): Option<Score> {
    if r.metrics.None? then None else ScoreOf(r.metrics.value, objective)
  }

  /** The first best-scoring done run of a fold, in grid order. */
  ghost predicate Winner(rows: Rows, objective: Objective, k: Key, id: nat) {
    && Candidate(rows, k, id)
    && Marked(rows[id], objective).Some?
    && forall other :: Candidate(rows, k, other) && Marked(rows[other], objective).Some? ==>
        var mine, theirs := Marked(rows[id], objective).value, Marked(rows[other], objective).value;
        !Above(theirs, mine) && (rows[other].point < rows[id].point ==> Above(mine, theirs))
  }

  /** A run that opened a position at all. */
  predicate Traded(r: Row) {
    r.metrics.Some? && r.metrics.value.trades > 0
  }

  /** On the metric an objective is about, the first is no better than the second.  A run
      without a losing trade has no profit factor, and none is better. */
  predicate NoBetter(objective: Objective, a: Metrics, b: Metrics) {
    match objective
    case Return => a.returnPct <= b.returnPct
    case Cagr => a.cagrPct <= b.cagrPct
    case Sharpe => a.sharpe <= b.sharpe
    case Sortino => a.sortino <= b.sortino
    case Calmar => a.calmar <= b.calmar
    case Expectancy => a.expectancyCents <= b.expectancyCents
    case ProfitFactor => b.profitFactor.None? || (a.profitFactor.Some? && a.profitFactor.value <= b.profitFactor.value)
    case Unnamed => false
  }

  lemma RanksOnMetrics(objective: Objective, a: Row, b: Row)
    ensures Marked(a, objective).Some? <==> Traded(a) && objective != Unnamed
    ensures Traded(a) && Traded(b) && objective != Unnamed ==>
      (Above(Marked(a, objective).value, Marked(b, objective).value) <==> !NoBetter(objective, a.metrics.value, b.metrics.value))
  {
  }

  /** The winner on the runs' own metrics: of the done runs that traded it is unbeaten, and
      better than every one before it in the grid. */
  lemma WinnerIsBest(rows: Rows, objective: Objective, k: Key, id: nat)
    ensures Winner(rows, objective, k, id) <==>
      && Candidate(rows, k, id) && Traded(rows[id]) && objective != Unnamed
      && forall other :: Candidate(rows, k, other) && Traded(rows[other]) ==>
          && NoBetter(objective, rows[other].metrics.value, rows[id].metrics.value)
          && (rows[other].point < rows[id].point ==> !NoBetter(objective, rows[id].metrics.value, rows[other].metrics.value))
  {
    if Candidate(rows, k, id) {
      RanksOnMetrics(objective, rows[id], rows[id]);
      forall other | Candidate(rows, k, other) && Traded(rows[other])
        ensures Marked(rows[other], objective).Some? <==> objective != Unnamed
        ensures Traded(rows[id]) && objective != Unnamed ==>
          && (Above(Marked(rows[other], objective).value, Marked(rows[id], objective).value)
              <==> !NoBetter(objective, rows[other].metrics.value, rows[id].metrics.value))
          && (Above(Marked(rows[id], objective).value, Marked(rows[other], objective).value)
              <==> !NoBetter(objective, rows[id].metrics.value, rows[other].metrics.value))
      {
        RanksOnMetrics(objective, rows[other], rows[id]);
        RanksOnMetrics(objective, rows[id], rows[other]);
      }
    }
  }

  /** What a fold's winner is carried into: a queued run of the next window. */
  function TestRun(k: Key, winner: Row, now: int): Row {
    Row(Queued, None, now, Some(k.sweep), Some(k.fold), Some(OutOfSample), winner.point, winner.spec, None)
  }

  /** An insert under the partial unique index and the foreign key. */
  function Inserted(rows: Rows, sweeps: map<nat, Sweep>, id: nat, k: Key, r: Row): Rows {
    if k.sweep !in sweeps || UnderTest(rows, k) then rows else rows[id := r]
  }

  // ---------- the table ----------

  /** What was asked for, whatever became of it. */
  predicate SameRun(a: Row, b: Row) {
    a == b.(status := a.status, startedAt := a.startedAt, metrics := a.metrics)
  }

  /** The statement touched one row at most, and not what that row asks for. */
  predicate OnlyRow(rows: Rows, rows': Rows, id: nat) {
    && rows'.Keys == rows.Keys
    && (forall x :: x in rows && x != id ==> rows'[x] == rows[x])
    && (id in rows ==> SameRun(rows[id], rows'[id]))
  }

  /** What a look at a fold may come to: its winner, or nothing if no run of it scored or
      there is no such fold. */
  ghost predicate Answers(rows: Rows, sweeps: map<nat, Sweep>, k: Key, best: Option<nat>) {
    if k.sweep !in sweeps || k.fold !in sweeps[k.sweep].folds then best.None?
    else
      match best
      case None => forall id :: Candidate(rows, k, id) ==> Marked(rows[id], sweeps[k.sweep].objective).None?
      case Some(id) => Winner(rows, sweeps[k.sweep].objective, k, id)
  }

  /** Where a row stands in the queue: a user's own runs before a sweep's, oldest first. */
  predicate QueuedBefore(a: Row, b: Row) {
    if a.sweep.Some? != b.sweep.Some? then a.sweep.None? else a.created < b.created
  }

  class Table {
    var rows: Rows
    var sweeps: map<nat, Sweep>

    constructor ()
      ensures rows == map[] && sweeps == map[]
    {
      rows, sweeps := map[], map[];
    }

    /** Takes the first queued run, if there is one. */
    method Claim(now: int) returns (claimed: Option<nat>)
      modifies this`rows
      ensures claimed.None? ==> rows == old(rows) && forall id :: id in rows ==> rows[id].status != Queued
      ensures claimed.Some? ==>
        && claimed.value in old(rows) && old(rows)[claimed.value].status == Queued
        && (forall id :: id in old(rows) && old(rows)[id].status == Queued
              ==> !QueuedBefore(old(rows)[id], old(rows)[claimed.value]))
        && (forall id :: id in old(rows) && old(rows)[id].status == Queued && old(rows)[id].sweep.None?
              ==> old(rows)[claimed.value].sweep.None? && old(rows)[claimed.value].created <= old(rows)[id].created)
        && (forall id :: id in old(rows) && old(rows)[id].status == Queued && old(rows)[claimed.value].sweep.Some?
              ==> old(rows)[id].sweep.Some? && old(rows)[claimed.value].created <= old(rows)[id].created)
        && rows == Claimed(old(rows), claimed.value, now)
    {
      var todo, first: Option<nat> := rows.Keys, None;
      while todo != {}
        invariant todo <= rows.Keys
        invariant first.Some? ==> first.value in rows && rows[first.value].status == Queued
        invariant forall id :: id in rows && id !in todo && rows[id].status == Queued ==>
            first.Some? && !QueuedBefore(rows[id], rows[first.value])
        decreases |todo|
      {
        var id :| id in todo;
        todo := todo - {id};
        if rows[id].status == Queued && (first.None? || QueuedBefore(rows[id], rows[first.value])) {
          first := Some(id);
        }
      }
      if first.Some? {
        rows := Claimed(rows, first.value, now);
      }
      claimed := first;
    }

    /** Done, whatever the run's status was, unless it has a result already: that one stays. */
    method Finish(id: nat, metrics: Metrics) returns (stored: bool)
      modifies this`rows
      ensures rows == Finished(old(rows), id, metrics)
      ensures OnlyRow(old(rows), rows, id)
      ensures stored <==> id in old(rows) && old(rows)[id].metrics.None?
      ensures !stored ==> rows == old(rows)
      ensures stored ==>
        rows[id].status == Done && rows[id].metrics == Some(metrics) && rows[id].startedAt == old(rows)[id].startedAt
    {
      stored := id in rows && rows[id].metrics.None?;
      if stored {
        rows := rows[id := rows[id].(status := Done, metrics := Some(metrics))];
      }
    }

    /** Failed, whatever the run was before; its metrics stay where they are. */
    method Fail(id: nat)
      modifies this`rows
      ensures rows == Failed(old(rows), id)
      ensures OnlyRow(old(rows), rows, id)
      ensures id in rows ==>
        && rows[id].status == Error && rows[id].metrics == old(rows)[id].metrics
        && rows[id].startedAt == old(rows)[id].startedAt && forall k :: !Candidate(rows, k, id)
    {
      if id in rows {
        rows := rows[id := rows[id].(status := Error)];
      }
    }

    /** Back in the queue, but only from running: what has settled stays settled. */
    method Requeue(id: nat)
      modifies this`rows
      ensures rows == Requeued(old(rows), id)
      ensures OnlyRow(old(rows), rows, id)
      ensures id in rows && Settled(old(rows)[id]) ==> rows == old(rows)
      ensures id in rows && Active(old(rows)[id]) ==> rows[id].status == Queued
    {
      if id in rows && rows[id].status == Running {
        rows := rows[id := Freed(rows[id])];
      }
    }

    /** Every run running since before then is freed, no other is touched, and none is left. */
    method RequeueStale(before: int) returns (requeued: nat)
      modifies this`rows
      ensures rows == StaleRequeued(old(rows), before)
      ensures requeued == |set id | id in old(rows) && Stale(old(rows)[id], before)|
      ensures forall id :: id in rows ==> !Stale(rows[id], before)
      ensures forall id :: id in rows && rows[id] != old(rows)[id] ==> Stale(old(rows)[id], before)
    {
      var todo := rows.Keys;
      ghost var freed := {};
      requeued := 0;
      while todo != {}
        invariant todo <= rows.Keys == old(rows).Keys
        invariant forall id :: id in rows ==>
            rows[id] == if id !in todo && Stale(old(rows)[id], before) then Freed(old(rows)[id]) else old(rows)[id]
        invariant freed == set id | id in old(rows) && id !in todo && Stale(old(rows)[id], before)
        invariant requeued == |freed|
        decreases |todo|
      {
        var id :| id in todo;
        todo := todo - {id};
        if Stale(rows[id], before) {
          rows := rows[id := Freed(rows[id])];
          freed := freed + {id};
          requeued := requeued + 1;
        }
      }
      assert freed == set id | id in old(rows) && Stale(old(rows)[id], before);
    }

    /** A fold's done in-sample runs, in grid order. */
    method FoldRuns(k: Key) returns (listed: seq<nat>)
      ensures forall id :: id in listed <==> Candidate(rows, k, id)
      ensures InGridOrder(rows, listed)
    {
      listed := [];
      var todo := rows.Keys;
      while todo != {}
        invariant todo <= rows.Keys
        invariant forall id :: id in listed <==> Candidate(rows, k, id) && id !in todo
        invariant InGridOrder(rows, listed)
        decreases |todo|
      {
        var id :| id in todo;
        todo := todo - {id};
        if Candidate(rows, k, id) {
          listed := InsertByPoint(rows, listed, id);
        }
      }
    }

    /** Carries a winner into its out-of-sample window, unless another worker already has:
        whoever comes first, the fold is then under test exactly once. */
    method CreateTest(id: nat, k: Key, winner: Row, now: int) returns (created: bool)
      requires id !in rows
      modifies this`rows
      ensures rows == Inserted(old(rows), sweeps, id, k, TestRun(k, winner, now))
      ensures created <==> k.sweep in sweeps && !UnderTest(old(rows), k)
      ensures k.sweep in sweeps ==> UnderTest(rows, k)
      ensures rows.Keys == old(rows).Keys + if created then {id} else {}
      ensures forall x :: x in old(rows) ==> rows[x] == old(rows)[x]
      ensures created ==> forall x :: x in rows && Tests(rows[x], k) ==> x == id
    {
      created := k.sweep in sweeps && !UnderTest(rows, k);
      if created {
        rows := rows[id := TestRun(k, winner, now)];
        assert Tests(rows[id], k);
      }
    }

    /** The best of a fold's done runs. */
    method Choose(k: Key) returns (best: Option<nat>)
      ensures Answers(rows, sweeps, k, best)
      ensures best.None? <==>
        || k.sweep !in sweeps || k.fold !in sweeps[k.sweep].folds
        || sweeps[k.sweep].objective == Unnamed
        || forall id :: Candidate(rows, k, id) ==> !Traded(rows[id])
      ensures best.Some? ==> Candidate(rows, k, best.value) && Traded(rows[best.value])
      ensures best.Some? ==> forall id :: Candidate(rows, k, id) && Traded(rows[id]) ==>
        NoBetter(sweeps[k.sweep].objective, rows[id].metrics.value, rows[best.value].metrics.value)
    {
      if k.sweep !in sweeps || k.fold !in sweeps[k.sweep].folds {
        return None;
      }
      var objective := sweeps[k.sweep].objective;
      var listed := FoldRuns(k);
      best := BestOf(rows, listed, objective);
      if best.Some? {
        ghost var b :| 0 <= b < |listed| && listed[b] == best.value && Leads(rows, listed, objective, b, |listed|);
        BestIsWinner(rows, listed, objective, k, b);
        WinnerIsBest(rows, objective, k, best.value);
      } else {
        forall id | Candidate(rows, k, id) && Traded(rows[id]) ensures objective == Unnamed {
          RanksOnMetrics(objective, rows[id], rows[id]);
        }
      }
    }

    /** A fold that is ready: nothing happens unless a run of it scored, and then its winner
        is carried into the next window. */
    method Advance(id: nat, k: Key, now: int) returns (best: Option<nat>)
      requires id !in rows
      modifies this`rows
      ensures Answers(old(rows), sweeps, k, best)
      ensures best.None? ==> rows == old(rows)
      ensures best.Some? ==>
        && best.value in old(rows)
        && rows == Inserted(old(rows), sweeps, id, k, TestRun(k, old(rows)[best.value], now))
        && UnderTest(rows, k)
    {
      best := Choose(k);
      if best.Some? {
        var _ := CreateTest(id, k, rows[best.value], now);
      }
    }
  }

  predicate InGridOrder(rows: Rows, listed: seq<nat>) {
    && (forall i :: 0 <= i < |listed| ==> listed[i] in rows)
    && (forall i, j :: 0 <= i < j < |listed| ==> rows[listed[i]].point <= rows[listed[j]].point)
  }

  function InsertByPoint(rows: Rows, listed: seq<nat>, id: nat): (r: seq<nat>)
    requires id in rows && InGridOrder(rows, listed)
    ensures forall x :: x in r <==> x in listed || x == id
    ensures InGridOrder(rows, r)
  {
    if listed == [] then [id]
    else if rows[id].point < rows[listed[0]].point then
      [id] + listed
    else
      var rest := InsertByPoint(rows, listed[1..], id);
      assert forall x :: x in listed <==> x == listed[0] || x in listed[1..];
      assert forall i :: 0 <= i < |rest| ==> rest[i] in listed[1..] || rest[i] == id;
      [listed[0]] + rest
  }

  /** One pass down a fold's listing, replacing the best so far only by a better one. */
  method BestOf(rows: Rows, listed: seq<nat>, objective: Objective) returns (best: Option<nat>)
    requires forall id :: id in listed ==> id in rows
    ensures best.None? <==> forall id :: id in listed ==> Marked(rows[id], objective).None?
    ensures best.None? <==> objective == Unnamed || forall id :: id in listed ==> !Traded(rows[id])
    ensures best.Some? ==> exists b :: 0 <= b < |listed| && listed[b] == best.value && Leads(rows, listed, objective, b, |listed|)
  {
    best := None;
    var top := Infinite;
    ghost var at := 0;
    for i := 0 to |listed|
      invariant best.None? ==> forall k :: 0 <= k < i ==> Marked(rows[listed[k]], objective).None?
      invariant best.Some? ==> 0 <= at < i && listed[at] == best.value && Leads(rows, listed, objective, at, i)
      invariant best.Some? ==> Marked(rows[best.value], objective) == Some(top)
    {
      var score := Marked(rows[listed[i]], objective);
      if score.Some? && (best.None? || Above(score.value, top)) {
        best, top := Some(listed[i]), score.value;
        at := i;
      }
    }
    forall id | id in listed ensures Marked(rows[id], objective).Some? <==> Traded(rows[id]) && objective != Unnamed {
      RanksOnMetrics(objective, rows[id], rows[id]);
    }
  }

  /** Entry `b` scores strictly above every scored entry before it, and no scored entry
      among the first `n` scores above it. */
  predicate Leads(rows: Rows, listed: seq<nat>, objective: Objective, b: int, n: int)
    requires (forall i :: 0 <= i < |listed| ==> listed[i] in rows)
    requires 0 <= b < |listed| && 0 <= n <= |listed|
  {
    && Marked(rows[listed[b]], objective).Some?
    && forall i :: 0 <= i < n && Marked(rows[listed[i]], objective).Some? ==>
        var mine, theirs := Marked(rows[listed[b]], objective).value, Marked(rows[listed[i]], objective).value;
        !Above(theirs, mine) && (i < b ==> Above(mine, theirs))
  }

  /** Over a fold's listing, the loop finds the winner the relation defines. */
  lemma BestIsWinner(rows: Rows, listed: seq<nat>, objective: Objective, k: Key, b: nat)
    requires forall id :: id in listed <==> Candidate(rows, k, id)
    requires InGridOrder(rows, listed)
    requires b < |listed| && Leads(rows, listed, objective, b, |listed|)
    ensures Winner(rows, objective, k, listed[b])
  {
    assert listed[b] in listed;
    forall other | Candidate(rows, k, other) && Marked(rows[other], objective).Some?
      ensures var mine, theirs := Marked(rows[listed[b]], objective).value, Marked(rows[other], objective).value;
        !Above(theirs, mine) && (rows[other].point < rows[listed[b]].point ==> Above(mine, theirs))
    {
      assert other in listed;
      var i :| 0 <= i < |listed| && listed[i] == other;
    }
  }

  /** Points being distinct within a fold, it has at most one winner. */
  lemma WinnerUnique(rows: Rows, objective: Objective, k: Key, a: nat, b: nat)
    requires Winner(rows, objective, k, a) && Winner(rows, objective, k, b)
    requires rows[a].point == rows[b].point ==> a == b
    ensures a == b
  {
  }
}
