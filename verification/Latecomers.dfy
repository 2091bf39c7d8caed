/** What a worker that outlives its lease can do to a fold already decided: exactly when its
    late write leaves the test run carrying the winner. */
module Latecomers {
  import opened Outcomes
  import opened Queues
  import opened WalkForward
  import opened Promotions

  // ---------- one fold ----------

  /** A run with this mark at this point of the grid would be chosen over the other. */
  predicate Overtakes(mark: Option<Score>, point: int, top: Score, held: int) {
    mark.Some? && (Above(mark.value, top) || (point < held && !Above(top, mark.value)))
  }

  /** Whether a fold's winner is still ahead once a run of it comes in with these metrics:
      there is a result of that run already, and they are refused, or they do not beat it. */
  predicate Withstands(rows: Rows, objective: Objective, id: nat, run: nat, metrics: Metrics)
    requires id in rows && run in rows
    requires Marked(rows[id], objective).Some?
  {
    rows[run].metrics.Some? ||
    !Overtakes(ScoreOf(metrics, objective), rows[run].point, Marked(rows[id], objective).value, rows[id].point)
  }

  lemma FailUnseats(rows: Rows, objective: Objective, k: Key, id: nat, run: nat)
    requires Winner(rows, objective, k, id)
    ensures Winner(Failed(rows, run), objective, k, id) <==> id != run
  {
    var rows' := Failed(rows, run);
    assert forall x :: x != run ==> (Candidate(rows', k, x) <==> Candidate(rows, k, x));
    assert !Candidate(rows', k, run);
  }

  lemma FinishUnseats(rows: Rows, objective: Objective, k: Key, id: nat, run: nat, metrics: Metrics)
    requires Winner(rows, objective, k, id) && run in rows && InFold(rows[run], k)
    ensures Winner(Finished(rows, run, metrics), objective, k, id) <==> Withstands(rows, objective, id, run, metrics)
  {
    var rows' := Finished(rows, run, metrics);
    if rows[run].metrics.None? {
      assert forall x :: x != run ==> (Candidate(rows', k, x) <==> Candidate(rows, k, x));
      assert Candidate(rows', k, run) && Marked(rows'[run], objective) == ScoreOf(metrics, objective);
    }
  }

  lemma FinishElsewhere(rows: Rows, objective: Objective, k: Key, id: nat, run: nat, metrics: Metrics)
    requires Winner(rows, objective, k, id) && (run in rows ==> !InFold(rows[run], k))
    ensures Winner(Finished(rows, run, metrics), objective, k, id)
  {
    var rows' := Finished(rows, run, metrics);
    assert forall x :: Candidate(rows', k, x) <==> Candidate(rows, k, x);
  }

  lemma FinishOnFold(rows: Rows, objective: Objective, k: Key, id: nat, run: nat, metrics: Metrics)
    requires Winner(rows, objective, k, id)
    ensures Winner(Finished(rows, run, metrics), objective, k, id) <==>
      (run in rows && InFold(rows[run], k) ==> Withstands(rows, objective, id, run, metrics))
  {
    if run in rows && InFold(rows[run], k) {
      FinishUnseats(rows, objective, k, id, run, metrics);
    } else {
      FinishElsewhere(rows, objective, k, id, run, metrics);
    }
  }

  // ---------- the table ----------

  /** The winner a test run was given, while it still is the winner. */
  ghost predicate GivenBy(w: World, k: Key, o: nat, id: nat) {
    && o in w.rows && Tests(w.rows[o], k) && k.sweep in w.sweeps
    && Winner(w.rows, w.sweeps[k.sweep].objective, k, id)
    && w.rows[id].spec == w.rows[o].spec && w.rows[id].point == w.rows[o].point
  }

  lemma TestIsGiven(w: World, k: Key, o: nat) returns (id: nat)
    requires Base(w) && Won(w) && o in w.rows && Tests(w.rows[o], k)
    ensures GivenBy(w, k, o, id)
  {
    assert w.rows[o].sweep.value in w.sweeps;
    assert CarriesWinner(w, k, w.rows[o]);
    id :| Winner(w.rows, w.sweeps[k.sweep].objective, k, id) && w.rows[id].spec == w.rows[o].spec && w.rows[id].point == w.rows[o].point;
  }

  /** A fold has one run at each point, so only the old winner could be the new one. */
  lemma CarriesIsWinning(w: World, w': World, k: Key, o: nat, id: nat)
    requires Base(w) && GivenBy(w, k, o, id)
    requires Updates(w.rows, w'.rows) && w'.sweeps == w.sweeps
    ensures Tests(w'.rows[o], k)
    ensures CarriesWinner(w', k, w'.rows[o]) <==> Winner(w'.rows, w.sweeps[k.sweep].objective, k, id)
  {
    assert Aged(w.rows[o], w'.rows[o]) && Aged(w.rows[id], w'.rows[id]);
    if CarriesWinner(w', k, w'.rows[o]) {
      var other :| Winner(w'.rows, w.sweeps[k.sweep].objective, k, other)
        && w'.rows[other].spec == w'.rows[o].spec && w'.rows[other].point == w'.rows[o].point;
      assert Aged(w.rows[other], w'.rows[other]);
      assert Siblings(w.rows[other], w.rows[id]);
    }
  }

  /** Over updates of the rows, the test runs keep carrying their winners exactly when the
      winners keep winning. */
  lemma WonIsWinning(w: World, w': World)
    requires Base(w) && Won(w)
    requires Updates(w.rows, w'.rows) && w'.sweeps == w.sweeps
    ensures Won(w') <==>
      forall k, o, id :: GivenBy(w, k, o, id) ==> Winner(w'.rows, w.sweeps[k.sweep].objective, k, id)
  {
    if Won(w') {
      forall k, o, id | GivenBy(w, k, o, id) ensures Winner(w'.rows, w.sweeps[k.sweep].objective, k, id) {
        CarriesIsWinning(w, w', k, o, id);
      }
    }
    if forall k, o, id :: GivenBy(w, k, o, id) ==> Winner(w'.rows, w.sweeps[k.sweep].objective, k, id) {
      forall o, k | o in w'.rows && Tests(w'.rows[o], k) ensures CarriesWinner(w', k, w'.rows[o]) {
        assert Aged(w.rows[o], w'.rows[o]);
        var id := TestIsGiven(w, k, o);
        CarriesIsWinning(w, w', k, o, id);
      }
    }
  }

  /** The run is the winner of a fold under test. */
  ghost predicate Decides(w: World, run: nat) {
    exists k, o :: o in w.rows && Tests(w.rows[o], k) && k.sweep in w.sweeps
      && Winner(w.rows, w.sweeps[k.sweep].objective, k, run)
  }

  /** A worker that is late, or not, may fail any run but the winner of a fold under test. */
  lemma FailKeepsWon(w: World, i: nat)
    requires Base(w) && Won(w) && Enabled(w, Event.Fail(i), false)
    ensures Won(After(w, Event.Fail(i), false)) <==> !Decides(w, WorkerOf(w, i).run)
  {
    var w', run := After(w, Event.Fail(i), false), WorkerOf(w, i).run;
    HousekeepingUpdates(w, Event.Fail(i), false);
    WonIsWinning(w, w');
    forall k, o, id | GivenBy(w, k, o, id)
      ensures Winner(w'.rows, w.sweeps[k.sweep].objective, k, id) <==> id != run
    {
      FailUnseats(w.rows, w.sweeps[k.sweep].objective, k, id, run);
    }
    if Decides(w, run) {
      var k, o :| o in w.rows && Tests(w.rows[o], k) && k.sweep in w.sweeps
        && Winner(w.rows, w.sweeps[k.sweep].objective, k, run);
      OnlyWinnerIsGiven(w, k, o, run);
    }
  }

  lemma OnlyWinnerIsGiven(w: World, k: Key, o: nat, id: nat)
    requires Base(w) && Won(w) && o in w.rows && Tests(w.rows[o], k) && k.sweep in w.sweeps
    requires Winner(w.rows, w.sweeps[k.sweep].objective, k, id)
    ensures GivenBy(w, k, o, id)
  {
    var other := TestIsGiven(w, k, o);
    assert Siblings(w.rows[other], w.rows[id]);
    WinnerUnique(w.rows, w.sweeps[k.sweep].objective, k, id, other);
  }

  /** Every tested fold the run is in keeps its winner under these metrics. */
  ghost predicate Harmless(w: World, run: nat, metrics: Metrics) {
    forall k, o, id ::
      o in w.rows && Tests(w.rows[o], k) && k.sweep in w.sweeps
      && Winner(w.rows, w.sweeps[k.sweep].objective, k, id)
      ==> Spared(w, k, id, run, metrics)
  }

  /** A fold the run is not in is spared; one it is in, if its winner withstands. */
  ghost predicate Spared(w: World, k: Key, id: nat, run: nat, metrics: Metrics)
    requires k.sweep in w.sweeps && Winner(w.rows, w.sweeps[k.sweep].objective, k, id)
  {
    run in w.rows && InFold(w.rows[run], k) ==> Withstands(w.rows, w.sweeps[k.sweep].objective, id, run, metrics)
  }

  lemma HarmlessIsGiven(w: World, run: nat, metrics: Metrics)
    requires Base(w) && Won(w)
    ensures Harmless(w, run, metrics) <==> forall k, o, id :: GivenBy(w, k, o, id) ==> Spared(w, k, id, run, metrics)
  {
    forall k, o, id | o in w.rows && Tests(w.rows[o], k) && k.sweep in w.sweeps
        && Winner(w.rows, w.sweeps[k.sweep].objective, k, id)
      ensures GivenBy(w, k, o, id)
    {
      OnlyWinnerIsGiven(w, k, o, id);
    }
  }

  /** And may finish any run whose new score leaves the winner of its fold in front. */
  lemma FinishKeepsWon(w: World, i: nat, metrics: Metrics)
    requires Base(w) && Won(w) && Enabled(w, Event.Finish(i, metrics), false)
    ensures Won(After(w, Event.Finish(i, metrics), false)) <==> Harmless(w, WorkerOf(w, i).run, metrics)
  {
    var w', run := After(w, Event.Finish(i, metrics), false), WorkerOf(w, i).run;
    HousekeepingUpdates(w, Event.Finish(i, metrics), false);
    WonIsWinning(w, w');
    forall k, o, id | GivenBy(w, k, o, id)
      ensures Winner(w'.rows, w.sweeps[k.sweep].objective, k, id) <==>
        Spared(w, k, id, run, metrics)
    {
      FinishOnFold(w.rows, w.sweeps[k.sweep].objective, k, id, run, metrics);
    }
    HarmlessIsGiven(w, run, metrics);
  }

  // ---------- a late result that unseats ----------

  const BETTER := Metrics(1, 9.0, 0.0, 0.0, 0.0, 0.0, 0, None)

  function Other(status: Status, startedAt: Option<int>): Row {
    TRIED.(point := 1, status := status, startedAt := startedAt)
  }

  function Pair(first: Row, second: Row): Rows {
    map[0 := first, 1 := second]
  }

  function Blank(): World {
    World(0, map[], map[], {}, {}, map[], map[0 := Resting])
  }

  lemma BlankIsReached() returns (worlds: seq<World>, events: seq<Event>)
    ensures Reaches(worlds, events, Blank())
  {
    var nobody := World(0, map[], map[], {}, {}, map[], map[]);
    worlds, events := Next([nobody], [], nobody, Drop(0), Blank());
  }

  /** Two runs of one fold, both queued. */
  lemma PairQueued() returns (worlds: seq<World>, events: seq<Event>)
    ensures Reaches(worlds, events, Scene(0, Pair(TRIED, Other(Queued, None)), map[], Resting))
  {
    worlds, events := BlankIsReached();
    var both := Pair(TRIED, Other(Queued, None));
    worlds, events := Next(worlds, events, Blank(), CreateSweep(0, WALK, both), Scene(0, both, map[], Resting));
  }

  /** The second is claimed by a worker that is never heard from, and freed. */
  lemma OtherAbandoned() returns (worlds: seq<World>, events: seq<Event>)
    ensures Reaches(worlds, events, Raced(Pair(TRIED, Other(Queued, None)), Resting).(workers := map[0 := Working(1, 0)]))
  {
    worlds, events := PairQueued();
    var claimed := Scene(0, Pair(TRIED, Other(Running, Some(0))), map[0 := Working(1, 0)], Resting);
    var stuck := claimed.(now := LATE);
    worlds, events := Next(worlds, events, worlds[|events|], Claim(0, 1), claimed);
    worlds, events := Next(worlds, events, claimed, Tick(LATE), stuck);
    worlds, events := Next(worlds, events, stuck, RequeueStale, stuck.(rows := Pair(TRIED, Other(Queued, None))));
  }

  function Raced(rows: Rows, promoter: Promoter): World {
    Scene(LATE, rows, map[0 := Working(1, 0), 1 := Idle], promoter)
  }

  function Held(rows: Rows, run: nat): World {
    Raced(rows, Resting).(workers := map[0 := Working(1, 0), 1 := Working(run, LATE)])
  }

  /** The fold with the second run failed. */
  function Decided(first: Row): Rows {
    Pair(first, Other(Status.Error, Some(LATE)))
  }

  /** Claimed again, it fails. */
  lemma OtherFails() returns (worlds: seq<World>, events: seq<Event>)
    ensures Reaches(worlds, events, Raced(Decided(TRIED), Resting))
  {
    worlds, events := OtherAbandoned();
    var again := Held(Pair(TRIED, Other(Running, Some(LATE))), 1);
    worlds, events := Next(worlds, events, worlds[|events|], Claim(1, 1), again);
    worlds, events := Next(worlds, events, again, Event.Fail(1), Raced(Decided(TRIED), Resting));
  }

  /** The first is done. */
  lemma FirstDone() returns (worlds: seq<World>, events: seq<Event>)
    ensures Reaches(worlds, events, Raced(Decided(Winning()), Resting))
  {
    worlds, events := OtherFails();
    var running := Held(Decided(Tried(Running, Some(LATE), None)), 0);
    worlds, events := Next(worlds, events, worlds[|events|], Claim(1, 0), running);
    worlds, events := Next(worlds, events, running, Event.Finish(1, TRADED), Raced(Decided(Winning()), Resting));
  }

  lemma FirstIsReady()
    ensures Follows(Raced(Decided(Winning()), Resting), Look(0, [FOLD]), Raced(Decided(Winning()), Walking([FOLD])), false)
  {
    var rows := Decided(Winning());
    assert InFold(rows[0], FOLD) && rows[0].status == Done;
    assert ReadyFold(rows, map[0 := WALK], FOLD);
  }

  lemma FirstWins(rows: Rows)
    requires 0 in rows && 1 in rows && rows[0] == Winning() && rows[1] == Other(Status.Error, Some(LATE))
    requires forall id :: id in rows && id > 1 ==> rows[id].phase == Some(OutOfSample)
    ensures Winner(rows, Objective.Return, FOLD, 0)
  {
  }

  /** And the fold is decided for it. */
  lemma FirstChosen() returns (worlds: seq<World>, events: seq<Event>)
    ensures Reaches(worlds, events, Raced(Decided(Winning()), Picked(FOLD, Winning(), [])))
  {
    worlds, events := FirstDone();
    var walking := Raced(Decided(Winning()), Walking([FOLD]));
    FirstIsReady();
    worlds, events := Next(worlds, events, worlds[|events|], Look(0, [FOLD]), walking);
    FirstWins(walking.rows);
    assert [FOLD][1..] == [];
    worlds, events := Next(worlds, events, walking, Pick(0, Some(0)), Raced(walking.rows, Picked(FOLD, Winning(), [])));
  }

  function UnderWay(second: Row): Rows {
    Pair(Winning(), second)[2 := TestRun(FOLD, Winning(), LATE)]
  }

  lemma FirstTested() returns (worlds: seq<World>, events: seq<Event>)
    ensures Reaches(worlds, events, Raced(UnderWay(Other(Status.Error, Some(LATE))), Walking([])))
  {
    worlds, events := FirstChosen();
    var tested := Raced(UnderWay(Other(Status.Error, Some(LATE))), Walking([]));
    worlds, events := Next(worlds, events, worlds[|events|], Promote(0, 2), tested);
  }

  function Late(): Row {
    TRIED.(point := 1, status := Done, startedAt := Some(LATE), metrics := Some(BETTER))
  }

  lemma FirstStillWins()
    ensures Won(Raced(UnderWay(Other(Status.Error, Some(LATE))), Walking([])))
  {
    var w := Raced(UnderWay(Other(Status.Error, Some(LATE))), Walking([]));
    FirstWins(w.rows);
    forall o, k | o in w.rows && Tests(w.rows[o], k) ensures CarriesWinner(w, k, w.rows[o]) {
      assert o == 2 && k == FOLD;
    }
  }

  lemma FirstHasLost(w: World)
    requires w == Raced(UnderWay(Late()), Walking([])).(workers := map[0 := Idle, 1 := Idle])
    ensures !Won(w)
  {
    assert Candidate(w.rows, FOLD, 1);
    assert !Winner(w.rows, Objective.Return, FOLD, 0);
    assert Tests(w.rows[2], FOLD) && !CarriesWinner(w, FOLD, w.rows[2]);
  }

  /** Then the worker given up on comes back with a better result for the run that failed
      since: it is stored, there being no other, and the test run carries the loser. */
  lemma LateResultUnseatsWinner() returns (worlds: seq<World>, events: seq<Event>)
    ensures History(worlds, events, false) && events != [] && events[|events| - 1] == Event.Finish(0, BETTER)
    ensures Won(worlds[|events| - 1]) && !Won(worlds[|events|])
  {
    worlds, events := FirstTested();
    FirstStillWins();
    var w := Raced(UnderWay(Late()), Walking([])).(workers := map[0 := Idle, 1 := Idle]);
    worlds, events := Next(worlds, events, worlds[|events|], Event.Finish(0, BETTER), w);
    FirstHasLost(w);
  }
}
