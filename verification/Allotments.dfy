/** Holding a whole basket: the capital is divided equally, each symbol is bought and held on
    its own part, and all of it is one purse. */
module Allotments {
  import opened Outcomes
  import opened Numbers
  import opened Bars
  import opened Broker
  import opened Actions
  import opened Books
  import opened Benchmarks
  import opened Baskets
  import opened Stamps

  // ---------- the parts ----------

  /** The same symbols, each with its part of the capital. */
  function LegsOf(jobs: seq<Job>, capital: int): (legs: seq<Job>)
    requires jobs != []
    ensures |legs| == |jobs|
    ensures forall k :: 0 <= k < |jobs| ==> legs[k] == jobs[k].(capital := Quotient(capital, |jobs|))
  {
    seq(|jobs|, k requires 0 <= k < |jobs| => jobs[k].(capital := Quotient(capital, |jobs|)))
  }

  /** What the division leaves over is never invested. */
  function Idle(legs: seq<Job>, capital: int): int {
    capital - Sum(Capitals(legs))
  }

  function Capitals(legs: seq<Job>): (r: seq<int>)
    ensures |r| == |legs| && forall k :: 0 <= k < |r| ==> r[k] == legs[k].capital
  {
    seq(|legs|, k requires 0 <= k < |legs| => legs[k].capital)
  }

  function Cashes(held: seq<Bench>): (r: seq<int>)
    ensures |r| == |held| && forall k :: 0 <= k < |r| ==> r[k] == held[k].cash
  {
    seq(|held|, k requires 0 <= k < |held| => held[k].cash)
  }

  function Stocks(held: seq<Bench>): (r: seq<int>)
    ensures |r| == |held| && forall k :: 0 <= k < |r| ==> r[k] == Notional(held[k].qty, held[k].last)
  {
    seq(|held|, k requires 0 <= k < |held| => Notional(held[k].qty, held[k].last))
  }

  function Worth(b: Bench): int {
    b.cash + Notional(b.qty, b.last)
  }

  function Worths(held: seq<Bench>): (r: seq<int>)
    ensures |r| == |held| && forall k :: 0 <= k < |r| ==> r[k] == Worth(held[k])
  {
    seq(|held|, k requires 0 <= k < |held| => Worth(held[k]))
  }

  function Sales(legs: seq<Job>, held: seq<Bench>): (r: seq<int>)
    requires |held| == |legs|
    ensures |r| == |legs| && forall k :: 0 <= k < |r| ==> r[k] == Liquidated(legs[k], held[k])
  {
    seq(|legs|, k requires 0 <= k < |legs| => Liquidated(legs[k], held[k]))
  }

  predicate AnyBought(held: seq<Bench>) {
    exists k :: 0 <= k < |held| && held[k].bought
  }

  lemma {:induction false} SumSplits(a: seq<int>, b: seq<int>, c: seq<int>)
    requires |a| == |b| == |c| && forall k :: 0 <= k < |a| ==> a[k] == b[k] + c[k]
    ensures Sum(a) == Sum(b) + Sum(c)
  {
    if a != [] {
      var n := |a| - 1;
      SumSplits(a[..n], b[..n], c[..n]);
    }
  }

  lemma {:induction false} SumReplaced(xs: seq<int>, k: nat, x: int)
    requires k < |xs|
    ensures Sum(xs[k := x]) == Sum(xs) - xs[k] + x
  {
    var n := |xs| - 1;
    if k < n {
      assert xs[k := x][..n] == xs[..n][k := x];
      SumReplaced(xs[..n], k, x);
    } else {
      assert xs[k := x][..n] == xs[..n];
    }
  }

  // ---------- the timeline ----------

  /** How many of a symbol's bars the stamps have come upon. */
  function Reached(candles: seq<Candle>, stamps: seq<int>): (n: nat)
    ensures n <= |candles|
  {
    if stamps == [] then 0
    else
      var before := Reached(candles, stamps[..|stamps| - 1]);
      if before < |candles| && candles[before].ts == stamps[|stamps| - 1] then before + 1 else before
  }

  /** Each symbol held on its own part until then. */
  ghost function HeldAt(legs: seq<Job>, stamps: seq<int>): (held: seq<Bench>)
    ensures |held| == |legs|
    ensures forall k :: 0 <= k < |legs| ==> held[k] == Ride(legs[k], Reached(legs[k].candles, stamps))
  {
    seq(|legs|, k requires 0 <= k < |legs| => Ride(legs[k], Reached(legs[k].candles, stamps)))
  }

  /** The purse at a stamp, and after selling everything. */
  ghost function PurseAt(legs: seq<Job>, capital: int, stamps: seq<int>, i: nat): int
    requires i < |stamps|
  {
    Idle(legs, capital) + Sum(Worths(HeldAt(legs, stamps[..i + 1])))
  }

  ghost function PurseAfter(legs: seq<Job>, capital: int, stamps: seq<int>): int {
    Idle(legs, capital) + Sum(Sales(legs, HeldAt(legs, stamps)))
  }

  ghost function Points(legs: seq<Job>, capital: int, stamps: seq<int>): (points: seq<int>)
    ensures |points| == |stamps| && forall i :: 0 <= i < |points| ==> points[i] == PurseAt(legs, capital, stamps, i)
  {
    seq(|stamps|, i requires 0 <= i < |stamps| => PurseAt(legs, capital, stamps, i))
  }

  /** The curve of holding the basket: one purse, the last point after selling everything. */
  ghost function BasketCurve(jobs: seq<Job>, capital: int, stamps: seq<int>): Option<seq<int>> {
    if jobs == [] || |stamps| < 2 then None
    else
      var legs := LegsOf(jobs, capital);
      if AnyBought(HeldAt(legs, stamps)) then
        Some(Points(legs, capital, stamps)[|stamps| - 1 := PurseAfter(legs, capital, stamps)])
      else
        None
  }

  // ---------- the loops ----------

  ghost predicate ActsRead(legs: seq<Job>, acts: seq<Actions>) {
    |acts| == |legs| && forall k :: 0 <= k < |legs| ==> ReadFrom(legs[k], acts[k])
  }

  ghost predicate ReadFrom(job: Job, acts: Actions) {
    && |acts.perShare| == |acts.factor| == |job.candles|
    && forall i :: 0 <= i < |job.candles| ==>
        acts.perShare[i] == DividendAt(job.candles, i) && acts.factor[i] == FactorAt(job.candles, i)
  }

  method ReadActs(legs: seq<Job>) returns (acts: seq<Actions>)
    ensures ActsRead(legs, acts)
  {
    acts := [];
    for k := 0 to |legs|
      invariant ActsRead(legs[..k], acts)
    {
      var found := ActionsOf(legs[k].candles);
      acts := acts + [found];
    }
    assert legs[..|legs|] == legs;
  }

  /** Whether this symbol has a bar at the stamp. */
  predicate Trades(job: Job, at: nat, ts: int) {
    at < |job.candles| && job.candles[at].ts == ts
  }

  /** Where the loop over the stamps is. */
  ghost predicate Until(legs: seq<Job>, stamps: seq<int>, held: seq<Bench>, at: seq<nat>) {
    && held == HeldAt(legs, stamps) && |at| == |legs|
    && forall k :: 0 <= k < |legs| ==> at[k] == Reached(legs[k].candles, stamps)
  }

  /** One stamp: every symbol that has a bar there moves on, and the purse with it. */
  method OneStamp(legs: seq<Job>, acts: seq<Actions>, stamps: seq<int>, i: nat, held: seq<Bench>, at: seq<nat>, cash: int, bought: bool)
    returns (held': seq<Bench>, at': seq<nat>, cash': int, bought': bool)
    requires i < |stamps| && Until(legs, stamps[..i], held, at)
    requires ActsRead(legs, acts) && (bought <==> AnyBought(held))
    ensures Until(legs, stamps[..i + 1], held', at')
    ensures bought' <==> AnyBought(held')
    ensures cash' - Sum(Cashes(held')) == cash - Sum(Cashes(held))
  {
    held', at', cash', bought' := MoveAll(legs, acts, held, at, cash, bought, stamps[i]);
    StampMoves(legs, stamps, i, held, at, held', at');
  }

  /** The symbol's own next bar, if it is at this stamp. */
  ghost predicate Moved(job: Job, b: Bench, at: nat, ts: int, b': Bench, at': nat) {
    if Trades(job, at, ts) then b' == Rode(job, b, at) && at' == at + 1 else b' == b && at' == at
  }

  method MoveAll(legs: seq<Job>, acts: seq<Actions>, held: seq<Bench>, at: seq<nat>, cash: int, bought: bool, ts: int)
    returns (held': seq<Bench>, at': seq<nat>, cash': int, bought': bool)
    requires ActsRead(legs, acts) && |held| == |at| == |legs| && (bought <==> AnyBought(held))
    ensures |held'| == |at'| == |legs| && (bought' <==> AnyBought(held'))
    ensures forall k :: 0 <= k < |legs| ==> Moved(legs[k], held[k], at[k], ts, held'[k], at'[k])
    ensures cash' - Sum(Cashes(held')) == cash - Sum(Cashes(held))
  {
    held', at', cash', bought' := held, at, cash, bought;
    for k := 0 to |legs|
      invariant |held'| == |at'| == |legs| && (bought' <==> AnyBought(held'))
      invariant forall j :: 0 <= j < k ==> Moved(legs[j], held[j], at[j], ts, held'[j], at'[j])
      invariant forall j :: k <= j < |legs| ==> held'[j] == held[j] && at'[j] == at[j]
      invariant cash' - Sum(Cashes(held')) == cash - Sum(Cashes(held))
    {
      if Trades(legs[k], at[k], ts) {
        var b := Ridden(legs[k], acts[k], held[k], at[k]);
        MovesOn(held', k, b);
        cash' := cash' + (b.cash - held[k].cash);
        bought' := bought' || b.bought;
        held', at' := held'[k := b], at'[k := at[k] + 1];
      }
    }
  }

  lemma MovesOn(held: seq<Bench>, k: nat, b: Bench)
    requires k < |held| && (held[k].bought ==> b.bought)
    ensures Sum(Cashes(held[k := b])) == Sum(Cashes(held)) - held[k].cash + b.cash
    ensures AnyBought(held[k := b]) <==> AnyBought(held) || b.bought
  {
    assert Cashes(held[k := b]) == Cashes(held)[k := b.cash];
    SumReplaced(Cashes(held), k, b.cash);
    if AnyBought(held) {
      var j :| 0 <= j < |held| && held[j].bought;
      assert held[k := b][j].bought;
    }
    if b.bought {
      assert held[k := b][k].bought;
    }
  }

  method ValueOf(held: seq<Bench>, cash: int) returns (value: int)
    ensures value == cash - Sum(Cashes(held)) + Sum(Worths(held))
  {
    value := cash;
    for k := 0 to |held|
      invariant value == cash + Sum(Stocks(held)[..k])
    {
      assert Stocks(held)[..k + 1][..k] == Stocks(held)[..k];
      value := value + Notional(held[k].qty, held[k].last);
    }
    assert Stocks(held)[..|held|] == Stocks(held);
    SumSplits(Worths(held), Cashes(held), Stocks(held));
  }

  /** Everything still held is sold at its last close. */
  method SellAll(legs: seq<Job>, held: seq<Bench>, cash: int) returns (final: int)
    requires |held| == |legs|
    ensures final == cash - Sum(Cashes(held)) + Sum(Sales(legs, held))
  {
    ghost var gains := seq(|legs|, k requires 0 <= k < |legs| => Liquidated(legs[k], held[k]) - held[k].cash);
    final := cash;
    for k := 0 to |legs|
      invariant final == cash + Sum(gains[..k])
    {
      assert gains[..k + 1][..k] == gains[..k];
      if held[k].qty != 0 {
        var costing := CostingOf(legs[k].desk);
        var notional := Notional(held[k].qty, FillPrice(costing, Order(Market, Sell, 0.0), held[k].last));
        final := final + (notional - Fees(costing, notional));
      }
    }
    assert gains[..|legs|] == gains;
    SumSplits(Sales(legs, held), Cashes(held), gains);
  }

  lemma ReachedNext(job: Job, stamps: seq<int>, i: nat)
    requires i < |stamps|
    ensures var r := Reached(job.candles, stamps[..i]);
      Reached(job.candles, stamps[..i + 1]) == if Trades(job, r, stamps[i]) then r + 1 else r
  {
    assert stamps[..i + 1][..i] == stamps[..i];
  }

  lemma RideOn(job: Job, at: nat, b: Bench, b': Bench)
    requires at < |job.candles| && b == Ride(job, at) && b' == Rode(job, b, at)
    ensures b' == Ride(job, at + 1)
  {
  }

  lemma LegMoves(job: Job, stamps: seq<int>, i: nat, b: Bench, at: nat, b': Bench, at': nat)
    requires i < |stamps| && at == Reached(job.candles, stamps[..i]) && b == Ride(job, at)
    requires Moved(job, b, at, stamps[i], b', at')
    ensures at' == Reached(job.candles, stamps[..i + 1]) && b' == Ride(job, at')
  {
    ReachedNext(job, stamps, i);
    if Trades(job, at, stamps[i]) {
      RideOn(job, at, b, b');
    }
  }

  lemma StampMoves(legs: seq<Job>, stamps: seq<int>, i: nat, held: seq<Bench>, at: seq<nat>, held': seq<Bench>, at': seq<nat>)
    requires i < |stamps| && Until(legs, stamps[..i], held, at) && |held'| == |at'| == |legs|
    requires forall k :: 0 <= k < |legs| ==> Moved(legs[k], held[k], at[k], stamps[i], held'[k], at'[k])
    ensures Until(legs, stamps[..i + 1], held', at')
  {
    forall k | 0 <= k < |legs|
      ensures at'[k] == Reached(legs[k].candles, stamps[..i + 1]) && held'[k] == HeldAt(legs, stamps[..i + 1])[k]
    {
      LegMoves(legs[k], stamps, i, held[k], at[k], held'[k], at'[k]);
    }
  }

  /** All the stamps, one after another. */
  method Walk(legs: seq<Job>, capital: int, stamps: seq<int>)
    returns (held: seq<Bench>, cash: int, bought: bool, points: seq<int>)
    ensures held == HeldAt(legs, stamps) && (bought <==> AnyBought(held))
    ensures cash - Sum(Cashes(held)) == Idle(legs, capital)
    ensures points == Points(legs, capital, stamps)
  {
    var acts := ReadActs(legs);
    var at: seq<nat> := seq(|legs|, _ => 0);
    held, cash, bought, points := StartOf(legs), capital, false, [];
    for i := 0 to |stamps|
      invariant Until(legs, stamps[..i], held, at)
      invariant cash - Sum(Cashes(held)) == Idle(legs, capital) && (bought <==> AnyBought(held))
      invariant |points| == i && forall j :: 0 <= j < i ==> points[j] == PurseAt(legs, capital, stamps, j)
    {
      held, at, cash, bought := OneStamp(legs, acts, stamps, i, held, at, cash, bought);
      var value := ValueOf(held, cash);
      points := points + [value];
    }
    assert stamps[..|stamps|] == stamps;
  }

  function StartOf(legs: seq<Job>): (held: seq<Bench>)
    ensures held == HeldAt(legs, []) && Cashes(held) == Capitals(legs) && !AnyBought(held)
  {
    var held := seq(|legs|, k requires 0 <= k < |legs| => Bankroll(legs[k].capital));
    assert Cashes(held) == Capitals(legs);
    held
  }

  method HoldBasket(jobs: seq<Job>, capital: int, stamps: seq<int>) returns (curve: Option<seq<int>>)
    ensures curve == BasketCurve(jobs, capital, stamps)
  {
    if |jobs| == 0 || |stamps| < 2 {
      return None;
    }
    var legs := LegsOf(jobs, capital);
    var held, cash, bought, points := Walk(legs, capital, stamps);
    if !bought {
      return None;
    }
    var final := SellAll(legs, held, cash);
    assert final == PurseAfter(legs, capital, stamps);
    curve := Some(points[|stamps| - 1 := final]);
  }

  // ---------- the basket is its parts ----------

  predicate Timed(candles: seq<Candle>) {
    forall i, j :: 0 <= i < j < |candles| ==> candles[i].ts < candles[j].ts
  }

  predicate Covers(stamps: seq<int>, candles: seq<Candle>) {
    forall j :: 0 <= j < |candles| ==> candles[j].ts in stamps
  }

  /** On a timeline that has every bar of it, a symbol is as far as the bars at or before. */
  lemma {:induction false} ReachedIs(candles: seq<Candle>, stamps: seq<int>, i: nat)
    requires Timed(candles) && Rising(stamps) && Covers(stamps, candles) && i < |stamps|
    ensures var r := Reached(candles, stamps[..i + 1]);
      && (forall j :: 0 <= j < r ==> candles[j].ts <= stamps[i])
      && (forall j :: r <= j < |candles| ==> candles[j].ts > stamps[i])
  {
    assert stamps[..i + 1][..i] == stamps[..i];
    var b := Reached(candles, stamps[..i]);
    if i > 0 {
      ReachedIs(candles, stamps, i - 1);
    }
    if b < |candles| {
      var p :| 0 <= p < |stamps| && stamps[p] == candles[b].ts;
      assert p >= i;
    }
  }

  lemma ReachedAll(candles: seq<Candle>, stamps: seq<int>)
    requires Timed(candles) && Rising(stamps) && Covers(stamps, candles) && stamps != []
    ensures Reached(candles, stamps) == |candles|
  {
    var last, r := |stamps| - 1, Reached(candles, stamps);
    assert stamps[..last + 1] == stamps;
    LastCovers(candles, stamps);
    assert r == |candles| || candles[r].ts <= stamps[last];
    ReachedIs(candles, stamps, last);
  }

  lemma LastCovers(candles: seq<Candle>, stamps: seq<int>)
    requires Rising(stamps) && Covers(stamps, candles) && stamps != []
    ensures forall j :: 0 <= j < |candles| ==> candles[j].ts <= stamps[|stamps| - 1]
  {
    forall j | 0 <= j < |candles| ensures candles[j].ts <= stamps[|stamps| - 1] {
      var p :| 0 <= p < |stamps| && stamps[p] == candles[j].ts;
    }
  }

  lemma RideNext(job: Job, n: nat)
    requires n < |job.candles|
    ensures Ride(job, n + 1).curve == Ride(job, n).curve + [Worth(Ride(job, n + 1))]
  {
  }

  /** A symbol's own curve before it is sold is what it was worth after each bar. */
  lemma {:induction false} CurveIsWorth(job: Job, n: nat, i: nat)
    requires i < n <= |job.candles|
    ensures |Ride(job, n).curve| == n && Ride(job, n).curve[i] == Worth(Ride(job, i + 1))
  {
    RideCounts(job, n);
    RideCounts(job, n - 1);
    RideNext(job, n - 1);
    if i < n - 1 {
      CurveIsWorth(job, n - 1, i);
    }
  }

  /** A symbol held on its own, before it is sold. */
  ghost function OwnCurve(job: Job): (r: seq<Point>)
    ensures |r| == |job.candles|
    ensures forall i :: 0 <= i < |r| ==> r[i] == Point(job.candles[i].ts, Worth(Ride(job, i + 1)))
  {
    seq(|job.candles|, i requires 0 <= i < |job.candles| => Point(job.candles[i].ts, Worth(Ride(job, i + 1))))
  }

  /** Its own benchmark's curve, but for the last point. */
  lemma OwnCurveIsHeld(job: Job, i: nat)
    requires HoldCurve(job).Some? && i + 1 < |job.candles|
    ensures |HoldCurve(job).value| == |job.candles| && HoldCurve(job).value[i] == OwnCurve(job)[i].cents
  {
    CurveIsWorth(job, |job.candles|, i);
  }

  /** What it is worth at a stamp: its untouched part until it starts, then its last value. */
  lemma WorthIsLastKnown(job: Job, stamps: seq<int>, i: nat)
    requires Timed(job.candles) && Rising(stamps) && Covers(stamps, job.candles) && i < |stamps|
    ensures Worth(Ride(job, Reached(job.candles, stamps[..i + 1]))) == ValueAt(OwnCurve(job), job.capital, stamps[i])
  {
    var r := Reached(job.candles, stamps[..i + 1]);
    ReachedIs(job.candles, stamps, i);
    LeadingIs(OwnCurve(job), stamps[i], r);
    NothingHeld(job);
  }

  lemma NothingHeld(job: Job)
    ensures Worth(Ride(job, 0)) == job.capital
  {
    assert 0.0 * 0.0 * 100.0 == 0.0;
  }

  /** What a symbol never bought has left is its part. */
  lemma {:induction false} Untouched(job: Job, n: nat)
    requires n <= |job.candles| && !Ride(job, n).bought
    ensures Ride(job, n).cash == job.capital && Ride(job, n).qty == 0
  {
    if n > 0 {
      Untouched(job, n - 1);
    }
  }

  lemma {:induction false} BoughtLate(job: Job, n: nat)
    requires n <= |job.candles| && Ride(job, n).bought
    ensures n >= 2
  {
    if n > 0 && Ride(job, n - 1).bought {
      BoughtLate(job, n - 1);
    }
  }

  ghost function PartsAt(legs: seq<Job>, ts: int): (r: seq<int>)
    ensures |r| == |legs|
    ensures forall k :: 0 <= k < |r| ==> r[k] == ValueAt(OwnCurve(legs[k]), legs[k].capital, ts)
  {
    seq(|legs|, k requires 0 <= k < |legs| => ValueAt(OwnCurve(legs[k]), legs[k].capital, ts))
  }

  /** What a symbol's own benchmark ends with, or its part if it was never bought. */
  ghost function EndOf(job: Job): int {
    var curve := HoldCurve(job);
    if curve.Some? && curve.value != [] then curve.value[|curve.value| - 1] else job.capital
  }

  ghost function Ends(legs: seq<Job>): (r: seq<int>)
    ensures |r| == |legs| && forall k :: 0 <= k < |r| ==> r[k] == EndOf(legs[k])
  {
    seq(|legs|, k requires 0 <= k < |legs| => EndOf(legs[k]))
  }

  lemma SoldIsEnd(job: Job, b: Bench)
    requires b == Ride(job, |job.candles|)
    ensures (HoldCurve(job).Some? <==> b.bought) && Liquidated(job, b) == EndOf(job)
  {
    var n := |job.candles|;
    RideCounts(job, n);
    if b.bought {
      BoughtLate(job, n);
    } else {
      Untouched(job, n);
    }
  }

  lemma SalesAreEnds(legs: seq<Job>, stamps: seq<int>)
    requires stamps != [] && Rising(stamps)
    requires forall k :: 0 <= k < |legs| ==> Timed(legs[k].candles) && Covers(stamps, legs[k].candles)
    ensures Sales(legs, HeldAt(legs, stamps)) == Ends(legs)
    ensures AnyBought(HeldAt(legs, stamps)) <==> AnyHeld(legs)
  {
    var held := HeldAt(legs, stamps);
    forall k | 0 <= k < |legs|
      ensures (held[k].bought <==> HoldCurve(legs[k]).Some?) && Sales(legs, held)[k] == EndOf(legs[k])
    {
      ReachedAll(legs[k].candles, stamps);
      SoldIsEnd(legs[k], held[k]);
    }
  }

  lemma WorthsAreParts(legs: seq<Job>, stamps: seq<int>, i: nat)
    requires i < |stamps| && Rising(stamps)
    requires forall k :: 0 <= k < |legs| ==> Timed(legs[k].candles) && Covers(stamps, legs[k].candles)
    ensures Worths(HeldAt(legs, stamps[..i + 1])) == PartsAt(legs, stamps[i])
  {
    var held := HeldAt(legs, stamps[..i + 1]);
    forall k | 0 <= k < |legs| ensures Worths(held)[k] == PartsAt(legs, stamps[i])[k] {
      WorthIsLastKnown(legs[k], stamps, i);
    }
  }

  ghost predicate AnyHeld(legs: seq<Job>) {
    exists k :: 0 <= k < |legs| && HoldCurve(legs[k]).Some?
  }

  /** The symbols' own curves added up, with what the division left over: each counts at its
      last bar, and the last point is of their own last points. */
  ghost function PartsCurve(legs: seq<Job>, capital: int, stamps: seq<int>): (curve: seq<int>)
    ensures |curve| == |stamps|
    ensures forall i :: 0 <= i < |curve| ==>
      curve[i] == Idle(legs, capital) + if i == |stamps| - 1 then Sum(Ends(legs)) else Sum(PartsAt(legs, stamps[i]))
  {
    seq(|stamps|, i requires 0 <= i < |stamps| =>
      Idle(legs, capital) + if i == |stamps| - 1 then Sum(Ends(legs)) else Sum(PartsAt(legs, stamps[i])))
  }

  lemma PurseIsParts(legs: seq<Job>, capital: int, stamps: seq<int>)
    requires stamps != [] && Rising(stamps)
    requires forall k :: 0 <= k < |legs| ==> Timed(legs[k].candles) && Covers(stamps, legs[k].candles)
    ensures Points(legs, capital, stamps)[|stamps| - 1 := PurseAfter(legs, capital, stamps)] == PartsCurve(legs, capital, stamps)
    ensures AnyBought(HeldAt(legs, stamps)) <==> AnyHeld(legs)
  {
    var points := Points(legs, capital, stamps);
    PurseEnds(legs, capital, stamps);
    forall i | 0 <= i < |stamps| - 1 ensures points[i] == PartsCurve(legs, capital, stamps)[i] {
      PurseRuns(legs, capital, stamps, i);
    }
  }

  lemma PurseEnds(legs: seq<Job>, capital: int, stamps: seq<int>)
    requires stamps != [] && Rising(stamps)
    requires forall k :: 0 <= k < |legs| ==> Timed(legs[k].candles) && Covers(stamps, legs[k].candles)
    ensures PurseAfter(legs, capital, stamps) == PartsCurve(legs, capital, stamps)[|stamps| - 1]
    ensures AnyBought(HeldAt(legs, stamps)) <==> AnyHeld(legs)
  {
    SalesAreEnds(legs, stamps);
  }

  lemma PurseRuns(legs: seq<Job>, capital: int, stamps: seq<int>, i: nat)
    requires i < |stamps| - 1 && Rising(stamps)
    requires forall k :: 0 <= k < |legs| ==> Timed(legs[k].candles) && Covers(stamps, legs[k].candles)
    ensures PurseAt(legs, capital, stamps, i) == PartsCurve(legs, capital, stamps)[i]
  {
    WorthsAreParts(legs, stamps, i);
  }

  /** Holding a basket is holding each symbol on its own part of the capital. */
  lemma BasketIsItsParts(jobs: seq<Job>, capital: int, stamps: seq<int>)
    requires jobs != [] && |stamps| >= 2 && Rising(stamps)
    requires forall k :: 0 <= k < |jobs| ==> Timed(jobs[k].candles) && Covers(stamps, jobs[k].candles)
    ensures var legs := LegsOf(jobs, capital);
      BasketCurve(jobs, capital, stamps) == if AnyHeld(legs) then Some(PartsCurve(legs, capital, stamps)) else None
  {
    PurseIsParts(LegsOf(jobs, capital), capital, stamps);
  }

  predicate OnItsOwn(job: Job, stamps: seq<int>) {
    |stamps| == |job.candles| && forall i :: 0 <= i < |stamps| ==> stamps[i] == job.candles[i].ts
  }

  lemma OwnPart(job: Job, stamps: seq<int>, i: nat)
    requires Timed(job.candles) && OnItsOwn(job, stamps) && i < |stamps|
    ensures Sum(PartsAt([job], stamps[i])) == OwnCurve(job)[i].cents
  {
    var parts := PartsAt([job], stamps[i]);
    assert parts == [ValueAt(OwnCurve(job), job.capital, stamps[i])];
    SumOfOne(parts[0]);
    LeadingIs(OwnCurve(job), stamps[i], i + 1);
  }

  lemma OwnIdle(job: Job)
    ensures LegsOf([job], job.capital) == [job] && Idle([job], job.capital) == 0
  {
    assert Quotient(job.capital, 1) == job.capital;
    assert Capitals([job]) == [job.capital];
    SumOfOne(job.capital);
  }

  lemma SumOfOne(x: int)
    ensures Sum([x]) == x
  {
    assert [x][..0] == [];
  }

  lemma OwnEnd(job: Job)
    ensures Sum(Ends([job])) == EndOf(job)
    ensures AnyHeld([job]) <==> HoldCurve(job).Some?
  {
    assert Ends([job]) == [EndOf(job)];
    SumOfOne(EndOf(job));
    assert [job][0] == job;
  }

  lemma HeldIsOwn(job: Job)
    requires HoldCurve(job).Some?
    ensures |job.candles| >= 2 && |HoldCurve(job).value| == |job.candles|
    ensures HoldCurve(job).value[|job.candles| - 1] == EndOf(job)
    ensures forall i :: 0 <= i < |job.candles| - 1 ==> HoldCurve(job).value[i] == OwnCurve(job)[i].cents
  {
    RideCounts(job, |job.candles|);
    forall i | 0 <= i < |job.candles| - 1 ensures HoldCurve(job).value[i] == OwnCurve(job)[i].cents {
      OwnCurveIsHeld(job, i);
    }
  }

  /** A basket of one symbol is that symbol: the whole capital, its own stamps, its own curve. */
  lemma OneSymbolIsItself(job: Job, stamps: seq<int>)
    requires Timed(job.candles) && OnItsOwn(job, stamps)
    ensures BasketCurve([job], job.capital, stamps) == HoldCurve(job)
  {
    OwnIdle(job);
    OwnEnd(job);
    if |stamps| >= 2 {
      BasketIsItsParts([job], job.capital, stamps);
      if HoldCurve(job).Some? {
        OwnCurves(job, stamps);
      }
    }
  }

  lemma OwnCurves(job: Job, stamps: seq<int>)
    requires Timed(job.candles) && OnItsOwn(job, stamps) && HoldCurve(job).Some?
    ensures PartsCurve([job], job.capital, stamps) == HoldCurve(job).value
  {
    HeldIsOwn(job);
    forall i | 0 <= i < |stamps|
      ensures PartsCurve([job], job.capital, stamps)[i] == HoldCurve(job).value[i]
    {
      OwnPoint(job, stamps, i);
    }
  }

  lemma OwnPoint(job: Job, stamps: seq<int>, i: nat)
    requires Timed(job.candles) && OnItsOwn(job, stamps) && i < |stamps|
    ensures PartsCurve([job], job.capital, stamps)[i] == if i == |stamps| - 1 then EndOf(job) else OwnCurve(job)[i].cents
  {
    OwnIdle(job);
    OwnEnd(job);
    OwnPart(job, stamps, i);
  }

  /** Less than a cent for each symbol stays out. */
  lemma IdleIsSmall(jobs: seq<Job>, capital: int)
    requires jobs != [] && capital >= 0
    ensures 0 <= Idle(LegsOf(jobs, capital), capital) < |jobs|
  {
    var legs := LegsOf(jobs, capital);
    EqualSum(Capitals(legs), Quotient(capital, |jobs|));
    RemainderRange(capital, |jobs|);
  }

  lemma {:induction false} EqualSum(xs: seq<int>, x: int)
    requires forall k :: 0 <= k < |xs| ==> xs[k] == x
    ensures Sum(xs) == |xs| * x
  {
    if xs != [] {
      EqualSum(xs[..|xs| - 1], x);
      assert |xs| * x == (|xs| - 1) * x + x;
    }
  }
}
