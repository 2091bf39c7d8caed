/** The two simulators agree: a strategy that buys everything at once and never leaves has
    the benchmark's curve, cent for cent. */
module Holding {
  import opened Numbers
  import opened Bars
  import opened Specs
  import opened Rules
  import opened Wirings
  import opened Tapes
  import opened Forms
  import opened Broker
  import opened Sizing
  import opened Actions
  import opened Books
  import opened Benchmarks

  /** Long only in effect: in with everything at the first chance, no way out. */
  ghost predicate BuysAndHolds(d: Desk)
    requires Ready(d.plan)
  {
    && d.plan.long.exit.None? && d.plan.long.stop.None? && d.plan.long.target.None?
    && d.plan.spec.sizing == Sizing(PctEquity, 1.0)
    && CostsOk(d.plan.spec.costs)
  }

  ghost predicate FiresFirst(job: Job)
    requires Ready(job.desk.plan) && job.candles != []
  {
    Usable(job.desk.plan.long.entry, job.desk.plan)
    && Fires(job.desk.plan.long.entry, History(job.desk.plan.wiring, Seen(job, 1)))
  }

  predicate SameCurve(equity: seq<Point>, curve: seq<int>) {
    |equity| == |curve| && forall i :: 0 <= i < |curve| ==> equity[i].cents == curve[i]
  }

  /** The engine holds what the benchmark holds, with nothing pending and no levels. */
  predicate Matches(s: State, b: Bench) {
    && s.cash == b.cash
    && s.pos.Some?
    && !s.pos.value.short
    && s.pos.value.qty == b.qty >= 1
    && s.pos.value.stop == 0.0 && s.pos.value.target == 0.0 && s.pos.value.borrowOwed == 0.0
    && s.pending == Nothing
  }

  predicate InStep(s: State, b: Bench) {
    Matches(s, b) && SameCurve(s.equity, b.curve)
  }

  // ---------- the purchase ----------

  lemma FloorsOrdered(x: real, y: real)
    requires x <= y
    ensures x.Floor <= y.Floor
  {
  }

  /** The fee-inclusive budget never reaches past what all the cash would buy free. */
  lemma SmallerShare(budget: real, cash: real, unit: real, price: real)
    requires 0.0 < budget <= cash && 0.0 < price <= unit
    ensures budget / unit <= cash / price
  {
    var q := budget / unit;
    QuotientTimes(budget, unit);
    assert q >= 0.0;
    TimesMonotone(price, unit, q);
    assert q * price <= cash;
    QuotientBound(q, cash, price);
  }

  lemma QuotientBound(q: real, cash: real, price: real)
    requires price > 0.0 && q * price <= cash
    ensures q <= cash / price
  {
    QuotientTimes(cash, price);
    if q > cash / price {
      TimesStrict(cash / price, q, price);
      assert false;
    }
  }

  lemma FeesRaiseUnit(price: real, bps: real)
    requires price > 0.0 && bps >= 0.0
    ensures price * 100.0 <= price * 100.0 * (1.0 + bps / 10000.0)
  {
    TimesMonotone(1.0, 1.0 + bps / 10000.0, price * 100.0);
  }

  lemma AllInAsksEnough(c: Costing, cash: int, price: real)
    requires price > 0.0 && CostsOk(c.costs)
    ensures Affordable(c, cash, price) <= 0
         || Affordable(c, cash, price) <= Requested(Sizing(PctEquity, 1.0), cash, price, 0.0)
  {
    var budget, unit := Budget(c, cash), UnitCents(c, price);
    FeesRaiseUnit(price, c.costs.feeBps);
    if budget > 0.0 {
      SmallerShare(budget, cash as real, unit, price * 100.0);
      FloorsOrdered(budget / unit, cash as real / (price * 100.0));
      AllOf(cash);
      assert Requested(Sizing(PctEquity, 1.0), cash, price, 0.0) == SharesFor(cash, price);
      assert SharesFor(cash, price) == (cash as real / (price * 100.0)).Floor;
      assert unit > 0.0;
      assert Affordable(c, cash, price) == (budget / unit).Floor;
    }
  }

  lemma AllOf(cash: int)
    ensures Round(cash as real * 1.0) == cash
  {
  }

  lemma RequestPositive(cash: int, price: real)
    requires price > 0.0
    ensures Requested(Sizing(PctEquity, 1.0), cash, price, 0.0) >= 0
  {
    AllOf(cash);
    if cash >= 1 {
      assert cash as real / (price * 100.0) >= 0.0;
    }
  }

  /** Sized with everything, the engine takes exactly the benchmark's shares. */
  lemma SameQuantity(d: Desk, cash: int, price: real)
    requires price > 0.0 && CostsOk(d.plan.spec.costs) && d.plan.spec.sizing == Sizing(PctEquity, 1.0)
    ensures EntrySize(d, cash, price, Unset) == AffordableQty(cash, price, CostingOf(d), Max(d.symbol.lotSize, 1))
  {
    var c := CostingOf(d);
    AllInAsksEnough(c, cash, price);
    AffordableNonNegative(c, cash, price);
    RequestPositive(cash, price);
  }

  lemma SamePurchase(job: Job, s: State, b: Bench, c: Candle)
    requires CostsOk(job.desk.plan.spec.costs) && job.desk.plan.spec.sizing == Sizing(PctEquity, 1.0)
    requires s.pos.None? && s.cash == job.capital == b.cash && b.qty == 0
    requires s.pending == Nothing
    requires Bought(job, b, c).qty >= 1
    ensures Matches(Entered(job.desk, s, Enter(false, Unset, Unset), c.ts, c.open), Bought(job, b, c))
    ensures Entered(job.desk, s, Enter(false, Unset, Unset), c.ts, c.open).equity == s.equity
  {
    var price := FillPrice(CostingOf(job.desk), ToOpen(false), c.open);
    if price > 0.0 {
      SameQuantity(job.desk, job.capital, price);
    }
  }

  // ---------- one bar of holding ----------

  /** The engine guards the cash for a fraction of a share; the benchmark does not need to. */
  lemma SameFraction(p: Position, shares: real, price: real)
    requires !p.short && shares >= 0.0 && price > 0.0
    ensures CashForShares(p, shares, price) == FractionCents(shares, price)
  {
    if shares == 0.0 {
      assert shares * price * 100.0 == 0.0;
    }
  }

  lemma SplitKeptMatches(s: State, b: Bench, factor: real, price: real)
    requires Matches(s, b) && Multiple(factor) && factor > 0.0 && price > 0.0
    requires SharesAfter(b.qty, factor) >= 1
    ensures var qty := SharesAfter(b.qty, factor);
      var kept := SplitKept(s, qty, factor, ExactShares(b.qty, factor) - qty as real, price);
      Matches(kept, Regrouped(b, factor, price)) && kept.equity == s.equity
  {
    SplitLeavesWholeShares(b.qty, factor);
    SameFraction(s.pos.value, ExactShares(b.qty, factor) - SharesAfter(b.qty, factor) as real, price);
  }

  lemma SameSplit(d: Desk, s: State, b: Bench, c: Candle, factor: real)
    requires Matches(s, b) && Multiple(factor) && factor > 0.0 && c.close > 0.0
    requires SharesAfter(b.qty, factor) >= 1
    ensures Matches(Adjusted(d, s, c, factor), Regrouped(b, factor, SplitPrice(c)))
    ensures Adjusted(d, s, c, factor).equity == s.equity
  {
    var seen := s.(tally := s.tally.(splitEvents := s.tally.splitEvents + 1));
    SplitKeptMatches(seen, b, factor, SplitPrice(c));
  }

  lemma SameNight(job: Job, s: State, b: Bench, i: nat)
    requires i < |job.candles| && Matches(s, b) && Rested(job, b, i).qty >= 1
    ensures Matches(Overnight(job, s, i), Rested(job, b, i))
    ensures Overnight(job, s, i).equity == s.equity
  {
    var perShare, factor := DividendAt(job.candles, i), FactorAt(job.candles, i);
    var credited := Credited(s, perShare);
    var paid := if perShare > 0.0 then Round(b.qty as real * perShare * 100.0) else 0;
    var b1 := b.(cash := b.cash + paid, dividends := b.dividends + paid);
    assert Matches(credited, b1) && credited.equity == s.equity;
    assert Charged(job.desk, credited, Before(job, i)) == credited;
    if factor > 0.0 {
      EventsAreUsual(job.candles, i);
      SameSplit(job.desk, credited, b1, job.candles[i], factor);
    }
  }

  lemma HeldThrough(d: Desk, s: State, b: Bench, c: Candle)
    requires Matches(s, b)
    ensures Guarded(d, Served(d, s, c), c) == s
  {
  }

  lemma NoWayOut(job: Job, s: State, b: Bench, i: nat)
    requires Ready(job.desk.plan) && BuysAndHolds(job.desk) && i < |job.candles| && !Final(job, i)
    requires Matches(s, b)
    ensures Decided(job, s, i) == s
  {
  }

  lemma SameMark(s: State, b: Bench, c: Candle)
    requires Matches(s, b) && SameCurve(s.equity, b.curve)
    ensures InStep(Marked(s, c), Valued(b, c.close))
  {
  }

  // ---------- the run ----------

  /** The engine between the open and the close of bar `i`. */
  ghost function Midday(job: Job, s: State, i: nat): State
    requires i < |job.candles|
  {
    var c := job.candles[i];
    Guarded(job.desk, Served(job.desk, Overnight(job, s, i), c), c)
  }

  ghost predicate Aligned(job: Job, s: State, b: Bench, i: nat)
    requires i < |job.candles|
  {
    && Matches(Midday(job, s, i), Stocked(job, b, i))
    && SameCurve(Midday(job, s, i).equity, Stocked(job, b, i).curve)
  }

  /** The first close: nothing held, everything to be bought at the next open. */
  predicate Poised(s: State, b: Bench, capital: int) {
    && s.pos.None? && s.cash == capital && s.pending == Enter(false, Unset, Unset)
    && b.cash == capital && b.qty == 0 && SameCurve(s.equity, b.curve)
  }

  lemma FirstClose(job: Job)
    requires Ready(job.desk.plan) && |job.candles| >= 2
    requires BuysAndHolds(job.desk) && FiresFirst(job)
    ensures Poised(After(job, 1), Ride(job, 1), job.capital)
  {
    var start, c := Opening(job.capital), job.candles[0];
    assert After(job, 0) == start && Ride(job, 0) == Bankroll(job.capital);
    assert Overnight(job, start, 0) == start;
    assert Guarded(job.desk, Served(job.desk, start, c), c) == start;
    assert Decided(job, start, 0) == start.(pending := Enter(false, Unset, Unset));
    assert Stocked(job, Bankroll(job.capital), 0) == Bankroll(job.capital);
    NoShares(c.close);
  }

  lemma NoShares(price: real)
    ensures Notional(0, price) == 0
  {
  }

  lemma SecondOpen(job: Job, s: State, b: Bench)
    requires |job.candles| >= 2 && Poised(s, b, job.capital)
    requires CostsOk(job.desk.plan.spec.costs) && job.desk.plan.spec.sizing == Sizing(PctEquity, 1.0)
    requires Stocked(job, b, 1).qty >= 1
    ensures Aligned(job, s, b, 1)
  {
    var c := job.candles[1];
    var morning := Overnight(job, s, 1);
    assert morning.pos.None? && morning.cash == s.cash && morning.pending == s.pending && morning.equity == s.equity;
    assert Rested(job, b, 1) == b;
    var idle := morning.(pending := Nothing);
    SamePurchase(job, idle, b, c);
    var held := Entered(job.desk, idle, s.pending, c.ts, c.open);
    assert Served(job.desk, morning, c) == held;
    LevelsNeverHit(job.desk, held, Bought(job, b, c), c);
  }

  lemma LevelsNeverHit(d: Desk, s: State, b: Bench, c: Candle)
    requires Matches(s, b)
    ensures Guarded(d, s, c) == s
  {
  }

  lemma LaterOpen(job: Job, s: State, b: Bench, i: nat)
    requires 2 <= i < |job.candles|
    requires InStep(s, b) && Stocked(job, b, i).qty >= 1
    ensures Aligned(job, s, b, i)
  {
    SameNight(job, s, b, i);
    HeldThrough(job.desk, Overnight(job, s, i), Rested(job, b, i), job.candles[i]);
  }

  /** The purchase succeeds, and no split leaves less than a share. */
  ghost predicate AlwaysHolds(job: Job) {
    forall n :: 2 <= n <= |job.candles| ==> KeepsAShare(job, n)
  }

  ghost predicate KeepsAShare(job: Job, n: int) {
    0 <= n <= |job.candles| && Ride(job, n).qty >= 1
  }

  /** How the two stand before bar `i` opens: poised to buy, or holding alike. */
  predicate Along(job: Job, s: State, b: Bench, i: nat) {
    if i == 1 then Poised(s, b, job.capital) else InStep(s, b)
  }

  lemma Opens(job: Job, s: State, b: Bench, i: nat)
    requires Ready(job.desk.plan) && BuysAndHolds(job.desk) && 1 <= i < |job.candles|
    requires Along(job, s, b, i) && Rode(job, b, i).qty >= 1
    ensures Aligned(job, s, b, i)
  {
    if i == 1 {
      SecondOpen(job, s, b);
    } else {
      LaterOpen(job, s, b, i);
    }
  }

  lemma OneBar(job: Job, s: State, b: Bench, i: nat, s': State, b': Bench)
    requires Ready(job.desk.plan) && BuysAndHolds(job.desk) && 1 <= i < |job.candles| && !Final(job, i)
    requires Along(job, s, b, i) && s' == Step(job, s, i) && b' == Rode(job, b, i) && b'.qty >= 1
    ensures Along(job, s', b', i + 1)
  {
    Opens(job, s, b, i);
    NoWayOut(job, Midday(job, s, i), Stocked(job, b, i), i);
    SameMark(Midday(job, s, i), Stocked(job, b, i), job.candles[i]);
  }

  lemma SaleCash(d: Desk, s: State, ts: int, price: real, notional: int, fees: int, reason: Reason)
    requires s.pos.Some? && s.pos.value.borrowOwed == 0.0
    ensures var t := Unwound(d, s, ts, price, notional, fees, reason);
      t.cash == s.cash + Proceeds(s.pos.value, notional) - fees && t.pos.None? && t.equity == s.equity
  {
  }

  lemma SameSale(job: Job, s: State, b: Bench, c: Candle)
    requires s.pos.Some? && !s.pos.value.short && s.pos.value.qty == b.qty >= 1 && s.pos.value.borrowOwed == 0.0
    requires s.cash == b.cash && b.last == c.close
    ensures ClosedOut(job.desk, s, c).cash == Liquidated(job, b)
    ensures ClosedOut(job.desk, s, c).pos.None? && ClosedOut(job.desk, s, c).equity == s.equity
  {
    var costing := CostingOf(job.desk);
    var price := FillPrice(costing, Order(Market, Sell, 0.0), c.close);
    var notional := Notional(b.qty, price);
    SaleCash(job.desk, s.(pending := Nothing), c.ts, price, notional, Fees(costing, notional), EndOfRun);
  }

  /** Alike but for the last point, where the benchmark has yet to sell. */
  predicate SameToTheEnd(equity: seq<Point>, curve: seq<int>, last: int) {
    && |equity| == |curve| > 0
    && equity[|curve| - 1].cents == last
    && forall i :: 0 <= i < |curve| - 1 ==> equity[i].cents == curve[i]
  }

  lemma LastBar(job: Job, s: State, b: Bench, i: nat, s': State, b': Bench)
    requires Ready(job.desk.plan) && BuysAndHolds(job.desk) && 1 <= i < |job.candles| && Final(job, i)
    requires Along(job, s, b, i) && s' == Step(job, s, i) && b' == Rode(job, b, i) && b'.qty >= 1
    ensures SameToTheEnd(s'.equity, b'.curve, s'.cash)
    ensures s'.cash == Liquidated(job, b')
  {
    Opens(job, s, b, i);
    SameSale(job, Midday(job, s, i), b', job.candles[i]);
  }

  /** Alike so far, or alike to the end. */
  ghost predicate Alike(job: Job, s: State, i: nat) {
    && 1 <= i <= |job.candles|
    && var b := Ride(job, i);
      if i < |job.candles| then Along(job, s, b, i)
      else SameToTheEnd(s.equity, b.curve, s.cash) && s.cash == Liquidated(job, b)
  }

  lemma AlikeStep(job: Job, s: State, i: nat, s': State)
    requires Ready(job.desk.plan) && BuysAndHolds(job.desk) && AlwaysHolds(job)
    requires i < |job.candles| && Alike(job, s, i) && s' == Step(job, s, i)
    ensures Alike(job, s', i + 1)
  {
    var b' := Ride(job, i + 1);
    assert KeepsAShare(job, i + 1);
    if Final(job, i) {
      LastBar(job, s, Ride(job, i), i, s', b');
    } else {
      OneBar(job, s, Ride(job, i), i, s', b');
    }
  }

  lemma AlikeKept(job: Job, keeps: (State, nat) -> bool, s: State, i: nat)
    requires Ready(job.desk.plan) && BuysAndHolds(job.desk) && AlwaysHolds(job)
    requires i < |job.candles| && forall t, j :: keeps(t, j) <==> Alike(job, t, j)
    ensures KeptBy(job, keeps, s, i)
  {
    if keeps(s, i) {
      AlikeStep(job, s, i, Step(job, s, i));
    }
  }

  lemma OnwardAlike(job: Job, s: State, i: nat)
    requires Ready(job.desk.plan) && BuysAndHolds(job.desk) && 1 <= i < |job.candles|
    requires Along(job, s, Ride(job, i), i) && AlwaysHolds(job)
    ensures Alike(job, Onward(job, s, i), |job.candles|)
  {
    var keeps := (t: State, j: nat) => Alike(job, t, j);
    forall t, j: nat | j < |job.candles| ensures KeptBy(job, keeps, t, j) {
      AlikeKept(job, keeps, t, j);
    }
    OnwardKeeps(job, keeps, s, i);
  }

  lemma CurveIsTheSame(job: Job, equity: seq<Point>)
    requires |job.candles| >= 2 && AlwaysHolds(job)
    requires var b := Ride(job, |job.candles|); SameToTheEnd(equity, b.curve, Liquidated(job, b))
    ensures HoldCurve(job).Some? && SameCurve(equity, HoldCurve(job).value)
  {
    RideCounts(job, |job.candles|);
    StaysBought(job, |job.candles|);
  }

  lemma StaysBought(job: Job, n: nat)
    requires 2 <= n <= |job.candles| && AlwaysHolds(job)
    ensures Ride(job, n).bought
  {
    assert KeepsAShare(job, 2);
    if n > 2 {
      StaysBought(job, n - 1);
    } else {
      assert Ride(job, 1).qty == 0 by {
        assert Ride(job, 0) == Bankroll(job.capital);
      }
    }
  }

  /** On every bar and to the cent: the engine on a strategy that goes all in at the first
      close and has no way out draws the benchmark's curve, whatever the costs and the
      dividends, as long as the purchase succeeds and splits leave a share. */
  lemma BenchmarkIsTheEngine(job: Job)
    requires Ready(job.desk.plan) && BuysAndHolds(job.desk) && |job.candles| >= 2
    requires FiresFirst(job) && AlwaysHolds(job)
    ensures HoldCurve(job).Some?
    ensures SameCurve(After(job, |job.candles|).equity, HoldCurve(job).value)
  {
    FirstClose(job);
    OnwardAlike(job, After(job, 1), 1);
    OnwardIsAfter(job, 1);
    CurveIsTheSame(job, After(job, |job.candles|).equity);
  }
}
