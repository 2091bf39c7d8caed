/** What a basket is compared with: the sleeves' own benchmarks on the common timeline, added
    up as the sleeves are. */
module Comparisons {
  import opened Outcomes
  import opened Tapes
  import opened Books
  import opened Conservation
  import opened Benchmarks
  import opened Stamps
  import opened Baskets
  import opened Portfolios
  import Allotments
  import Holding

  // ---------- the sum ----------

  predicate Comparable(equity: seq<Point>, hold: Option<seq<int>>) {
    hold.Some? && |hold.value| == |equity| > 0
  }

  /** A benchmark's curve at its sleeve's stamps. */
  function Restamped(equity: seq<Point>, hold: Option<seq<int>>): (r: seq<Point>)
    requires Comparable(equity, hold)
    ensures |r| == |equity|
    ensures forall i :: 0 <= i < |r| ==> r[i] == Point(equity[i].ts, hold.value[i])
  {
    seq(|equity|, i requires 0 <= i < |equity| => Point(equity[i].ts, hold.value[i]))
  }

  predicate AllComparable(equities: seq<seq<Point>>, holds: seq<Option<seq<int>>>) {
    |holds| == |equities| && forall k :: 0 <= k < |equities| ==> Comparable(equities[k], holds[k])
  }

  function AlignedHolds(equities: seq<seq<Point>>, holds: seq<Option<seq<int>>>, shares: seq<int>, stamps: seq<int>): (r: seq<seq<int>>)
    requires AllComparable(equities, holds) && |shares| == |equities|
    ensures |r| == |equities|
    ensures forall k :: 0 <= k < |r| ==> r[k] == Aligned(stamps, Restamped(equities[k], holds[k]), shares[k])
  {
    seq(|equities|, k requires 0 <= k < |equities| => Aligned(stamps, Restamped(equities[k], holds[k]), shares[k]))
  }

  function Summed(curves: seq<seq<int>>, stamps: seq<int>): (r: seq<int>)
    requires forall k :: 0 <= k < |curves| ==> |curves[k]| == |stamps|
    ensures |r| == |stamps| && forall i :: 0 <= i < |r| ==> r[i] == SumAt(curves, i)
  {
    seq(|stamps|, i requires 0 <= i < |stamps| => SumAt(curves, i))
  }

  /** One sleeve without a curve, and there is none for the basket. */
  function SumOf(equities: seq<seq<Point>>, holds: seq<Option<seq<int>>>, shares: seq<int>, stamps: seq<int>): Option<seq<int>>
    requires |shares| == |equities|
  {
    if AllComparable(equities, holds) then Some(Summed(AlignedHolds(equities, holds, shares, stamps), stamps)) else None
  }

  method AddCurve(total: array<int>, curve: seq<int>)
    requires total.Length == |curve|
    modifies total
    ensures forall i :: 0 <= i < |curve| ==> total[i] == old(total[i]) + curve[i]
  {
    for i := 0 to |curve|
      invariant forall j :: 0 <= j < i ==> total[j] == old(total[j]) + curve[j]
      invariant forall j :: i <= j < |curve| ==> total[j] == old(total[j])
    {
      total[i] := total[i] + curve[i];
    }
  }

  method SumBenchmark(equities: seq<seq<Point>>, holds: seq<Option<seq<int>>>, shares: seq<int>, stamps: seq<int>)
    returns (curve: Option<seq<int>>)
    requires |equities| == |holds| == |shares| && Rising(stamps)
    ensures curve == SumOf(equities, holds, shares, stamps)
  {
    var total := new int[|stamps|](_ => 0);
    ghost var aligned: seq<seq<int>> := [];
    for k := 0 to |equities|
      invariant forall j :: 0 <= j < k ==> Comparable(equities[j], holds[j])
      invariant |aligned| == k
      invariant forall j :: 0 <= j < k ==> aligned[j] == Aligned(stamps, Restamped(equities[j], holds[j]), shares[j])
      invariant forall i :: 0 <= i < |stamps| ==> total[i] == SumAt(aligned, i)
    {
      if !Comparable(equities[k], holds[k]) {
        return None;
      }
      var own := AlignSleeve(stamps, Restamped(equities[k], holds[k]), shares[k]);
      AddCurve(total, own);
      assert (aligned + [own])[..k] == aligned;
      aligned := aligned + [own];
    }
    assert aligned == AlignedHolds(equities, holds, shares, stamps);
    curve := Some(total[..]);
    assert total[..] == Summed(aligned, stamps);
  }

  // ---------- a basket's own benchmark ----------

  function Sleeve(req: Request, k: nat): Job
    requires k < |req.instruments|
  {
    JobOf(req, req.instruments[k], Shares(req)[k])
  }

  ghost function Holds(req: Request): (r: seq<Option<seq<int>>>)
    requires req.instruments != []
    ensures |r| == |req.instruments| && forall k :: 0 <= k < |r| ==> r[k] == HoldCurve(Sleeve(req, k))
  {
    seq(|req.instruments|, k requires 0 <= k < |req.instruments| => HoldCurve(Sleeve(req, k)))
  }

  /** A basket that ran, as its parts ran alone. */
  ghost predicate Ran(req: Request, ends: seq<State>) {
    && Ready(req.plan) && Fundable(req) && |ends| == |req.instruments|
    && RunAlone(req, Shares(req), ends)
    && forall k :: 0 <= k < |req.instruments| ==> Chronological(req.instruments[k].candles)
  }

  ghost function BasketBenchmark(req: Request, ends: seq<State>): Option<seq<int>>
    requires |ends| == |req.instruments| > 0
  {
    SumOf(Curves(ends), Holds(req), Shares(req), Ascending(AllStamps(Curves(ends))))
  }

  method CompareBasket(req: Request, ends: seq<State>) returns (curve: Option<seq<int>>)
    requires |ends| == |req.instruments| > 0
    ensures curve == BasketBenchmark(req, ends)
  {
    var holds: seq<Option<seq<int>>> := [];
    for k := 0 to |req.instruments|
      invariant |holds| == k && forall j :: 0 <= j < k ==> holds[j] == HoldCurve(Sleeve(req, j))
    {
      var hold := HoldBenchmark(Sleeve(req, k));
      holds := holds + [hold];
    }
    assert holds == Holds(req);
    var stamps := UnionStamps(Curves(ends));
    curve := SumBenchmark(Curves(ends), holds, Shares(req), stamps);
  }

  /** A sleeve has a point for every bar, and its benchmark too, if it has one. */
  lemma SleeveIsComparable(req: Request, ends: seq<State>, k: nat)
    requires Ran(req, ends) && k < |ends|
    ensures Comparable(ends[k].equity, HoldCurve(Sleeve(req, k))) <==> HoldCurve(Sleeve(req, k)).Some?
    ensures |ends[k].equity| == |req.instruments[k].candles|
    ensures forall i :: 0 <= i < |ends[k].equity| ==> ends[k].equity[i].ts == req.instruments[k].candles[i].ts
  {
    var job := Sleeve(req, k);
    CurveFollowsBars(job);
    assert ends[k] == Alone(req, k, Shares(req)[k]);
    if HoldCurve(job).Some? {
      Allotments.HeldIsOwn(job);
    }
  }

  /** There is none exactly when some sleeve has none, and otherwise it is at every stamp the
      sum of theirs, each at its last bar or, before it starts, its untouched share. */
  lemma BasketBenchmarkIsSum(req: Request, ends: seq<State>)
    requires Ran(req, ends)
    ensures var stamps, curve := Ascending(AllStamps(Curves(ends))), BasketBenchmark(req, ends);
      && (curve.None? <==> exists k :: 0 <= k < |ends| && HoldCurve(Sleeve(req, k)).None?)
      && (curve.Some? ==>
            && AllComparable(Curves(ends), Holds(req))
            && curve.value == Summed(AlignedHolds(Curves(ends), Holds(req), Shares(req), stamps), stamps))
  {
    forall k | 0 <= k < |ends|
      ensures Comparable(Curves(ends)[k], Holds(req)[k]) <==> HoldCurve(Sleeve(req, k)).Some?
    {
      SleeveIsComparable(req, ends, k);
    }
  }

  // ---------- where it starts ----------

  /** Nothing is bought at the first bar. */
  lemma FirstPoint(job: Job)
    requires HoldCurve(job).Some?
    ensures |HoldCurve(job).value| >= 2 && HoldCurve(job).value[0] == job.capital
  {
    Allotments.HeldIsOwn(job);
    Allotments.OwnCurveIsHeld(job, 0);
    FirstWorth(job);
  }

  lemma FirstWorth(job: Job)
    requires job.candles != []
    ensures Allotments.Worth(Ride(job, 1)) == job.capital
  {
    assert Ride(job, 0) == Bankroll(job.capital);
    assert Stocked(job, Bankroll(job.capital), 0) == Bankroll(job.capital);
  }

  lemma AlignedStart(stamps: seq<int>, points: seq<Point>, share: int)
    requires stamps != [] && points != [] && points[0].cents == share && stamps[0] <= points[0].ts
    requires forall i, j :: 0 <= i < j < |points| ==> points[i].ts < points[j].ts
    ensures Aligned(stamps, points, share)[0] == share
  {
    LeadingPrefix(points, stamps[0]);
  }

  lemma SleeveStarts(req: Request, ends: seq<State>, k: nat)
    requires Ran(req, ends) && k < |ends| && HoldCurve(Sleeve(req, k)).Some?
    ensures var stamps := Ascending(AllStamps(Curves(ends)));
      && stamps != [] && Comparable(ends[k].equity, HoldCurve(Sleeve(req, k)))
      && Aligned(stamps, Restamped(ends[k].equity, HoldCurve(Sleeve(req, k))), Shares(req)[k])[0] == Shares(req)[k]
  {
    var stamps := Ascending(AllStamps(Curves(ends)));
    SleeveIsComparable(req, ends, k);
    StampsCover(ends, k, 0);
    FirstPoint(Sleeve(req, k));
    AlignedStart(stamps, Restamped(ends[k].equity, HoldCurve(Sleeve(req, k))), Shares(req)[k]);
  }

  /** The benchmark of a basket starts where the basket does: at the whole capital. */
  lemma BasketBenchmarkStarts(req: Request, ends: seq<State>)
    requires Ran(req, ends) && BasketBenchmark(req, ends).Some?
    ensures BasketBenchmark(req, ends).value != [] && BasketBenchmark(req, ends).value[0] == req.capital
  {
    var stamps := Ascending(AllStamps(Curves(ends)));
    BasketBenchmarkIsSum(req, ends);
    var aligned := AlignedHolds(Curves(ends), Holds(req), Shares(req), stamps);
    forall k | 0 <= k < |ends| ensures stamps != [] && aligned[k][0] == Shares(req)[k] {
      SleeveStarts(req, ends, k);
    }
    assert stamps != [] by {
      SleeveStarts(req, ends, 0);
    }
    ColumnSums(aligned, 0, Shares(req));
    SharesAddUp(req.capital, |req.instruments|, Shares(req));
  }

  // ---------- a basket that holds ----------

  /** Goes all in at its first close, has no way out, and keeps a share. */
  ghost predicate HoldsOn(job: Job) {
    && Ready(job.desk.plan) && Holding.BuysAndHolds(job.desk) && |job.candles| >= 2
    && Holding.FiresFirst(job) && Holding.AlwaysHolds(job)
  }

  lemma SleeveIsItsBenchmark(req: Request, ends: seq<State>, k: nat)
    requires Ran(req, ends) && k < |ends| && HoldsOn(Sleeve(req, k))
    ensures Comparable(ends[k].equity, HoldCurve(Sleeve(req, k)))
    ensures Restamped(ends[k].equity, HoldCurve(Sleeve(req, k))) == ends[k].equity
  {
    Holding.BenchmarkIsTheEngine(Sleeve(req, k));
    SleeveIsComparable(req, ends, k);
  }

  lemma SleevesAreBenchmarks(req: Request, r: Portfolio, ends: seq<State>)
    requires Ran(req, ends) && Combines(r, Shares(req), ends)
    requires forall k :: 0 <= k < |ends| ==> HoldsOn(Sleeve(req, k))
    ensures AllComparable(Curves(ends), Holds(req))
    ensures AlignedHolds(Curves(ends), Holds(req), Shares(req), Ascending(AllStamps(Curves(ends)))) == r.sleeves
  {
    forall k | 0 <= k < |ends|
      ensures Comparable(Curves(ends)[k], Holds(req)[k]) && Restamped(Curves(ends)[k], Holds(req)[k]) == ends[k].equity
    {
      SleeveIsItsBenchmark(req, ends, k);
    }
  }

  /** A basket of strategies that buy and hold draws its own benchmark, cent for cent. */
  lemma BasketIsItsBenchmark(req: Request, r: Portfolio, ends: seq<State>)
    requires Ran(req, ends) && Combines(r, Shares(req), ends)
    requires forall k :: 0 <= k < |ends| ==> HoldsOn(Sleeve(req, k))
    ensures BasketBenchmark(req, ends).Some? && Holding.SameCurve(r.equity, BasketBenchmark(req, ends).value)
  {
    SleevesAreBenchmarks(req, r, ends);
  }
}
