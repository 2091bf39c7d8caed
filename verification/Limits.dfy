/** Whether a limit order fills no worse than its limit, when prices move to a grid against
    the trader after the limit was applied. */
module Limits {
  import opened Outcomes
  import opened Numbers
  import opened Broker

  predicate CloseTo(x: real, n: int, slack: real) {
    -slack <= x - n as real <= slack
  }

  ghost predicate NearStep(steps: real, slack: real) {
    exists n: int :: CloseTo(steps, n, slack)
  }

  /** On the grid is within a billionth of a step, of one or of as many steps as the price
      is. */
  lemma OnGridIs(price: real, tick: real, steps: real, slack: real)
    requires tick > 0.0 && price > 0.0 && steps == price / tick
    requires slack == 0.000000001 * if steps < 1.0 then 1.0 else steps
    ensures OnGrid(price, tick) <==> NearStep(steps, slack)
  {
    StepsPositive(price, tick);
    assert Slack(steps) == slack;
    if OnGrid(price, tick) {
      assert CloseTo(steps, Round(steps), slack);
    }
    if NearStep(steps, slack) {
      var n: int :| CloseTo(steps, n, slack);
      NearestIsNearer(steps, n, Round(steps));
    }
  }

  lemma StepsPositive(price: real, tick: real)
    requires tick > 0.0 && price > 0.0
    ensures price / tick > 0.0
  {
  }

  lemma NearestIsNearer(x: real, n: int, nearest: int)
    requires nearest == Round(x)
    ensures Abs(x - nearest as real) <= Abs(x - n as real)
  {
    RoundNearest(x);
    assert n == nearest || n >= nearest + 1 || n <= nearest - 1;
  }

  function GridStep(n: int, tick: real): real {
    n as real * tick
  }

  /** No worse than the limit the order was placed with. */
  predicate WithinLimit(o: Order, price: real) {
    if o.side == Buy then price <= o.price else price >= o.price
  }

  /** The price the grid moves an order's raw price to. */
  function OnStep(o: Order, raw: real, tick: real): real
    requires tick > 0.0
  {
    if o.side == Buy then Ceiled(raw, tick) else Floored(raw, tick)
  }

  /** A step of the grid lies between the raw price and the limit. */
  ghost predicate StepBetween(o: Order, raw: real, tick: real) {
    exists n: int ::
      if o.side == Buy then raw <= GridStep(n, tick) <= o.price else o.price <= GridStep(n, tick) <= raw
  }

  lemma StepsAreOrdered(m: int, n: int, tick: real)
    requires tick > 0.0 && m <= n
    ensures GridStep(m, tick) <= GridStep(n, tick)
  {
    TimesMonotone(m as real, n as real, tick);
  }

  /** No step lies between a price and the one the grid moves it to. */
  lemma NearestStep(price: real, tick: real, n: int)
    requires tick > 0.0
    ensures price <= GridStep(n, tick) ==> Ceiled(price, tick) <= GridStep(n, tick)
    ensures price >= GridStep(n, tick) ==> Floored(price, tick) >= GridStep(n, tick)
  {
    QuotientTimes(price, tick);
    if n < Ceil(price / tick) {
      TimesStrict(n as real, price / tick, tick);
    } else {
      StepsAreOrdered(Ceil(price / tick), n, tick);
    }
    if n > (price / tick).Floor {
      TimesStrict(price / tick, n as real, tick);
    } else {
      StepsAreOrdered(n, (price / tick).Floor, tick);
    }
  }

  lemma RoundOfWhole(n: int)
    ensures Round(n as real) == n
  {
  }

  lemma BetweenSteps(steps: real)
    requires steps != Round(steps) as real
    ensures steps.Floor as real != steps && Ceil(steps) as real != steps
  {
    RoundOfWhole(steps.Floor);
    RoundOfWhole(Ceil(steps));
  }

  lemma StrictlyAround(steps: real, price: real, tick: real)
    requires tick > 0.0 && steps * tick == price
    requires steps.Floor as real != steps && Ceil(steps) as real != steps
    ensures steps.Floor as real * tick < price < Ceil(steps) as real * tick
  {
    var below, above := steps.Floor as real, Ceil(steps) as real;
    assert below < steps < above;
    TimesStrict(below, steps, tick);
    TimesStrict(steps, above, tick);
  }

  /** Off the grid both neighbouring steps are strictly apart from the price. */
  lemma OffGridMoves(price: real, tick: real)
    requires price > 0.0 && tick > 0.0 && !OnGrid(price, tick)
    ensures Floored(price, tick) < price < Ceiled(price, tick)
  {
    var steps := price / tick;
    QuotientTimes(price, tick);
    BetweenSteps(steps);
    StrictlyAround(steps, price, tick);
  }

  lemma StepBetweenIs(o: Order, raw: real, tick: real)
    requires raw > 0.0 && tick > 0.0
    ensures StepBetween(o, raw, tick) <==> WithinLimit(o, OnStep(o, raw, tick))
  {
    GridAround(raw, tick);
    if WithinLimit(o, OnStep(o, raw, tick)) {
      var n := if o.side == Buy then Ceil(raw / tick) else (raw / tick).Floor;
      assert GridStep(n, tick) == OnStep(o, raw, tick);
    }
    if StepBetween(o, raw, tick) {
      var n :| if o.side == Buy then raw <= GridStep(n, tick) <= o.price else o.price <= GridStep(n, tick) <= raw;
      NearestStep(raw, tick, n);
    }
  }

  /** Rounding against the trader is done after the limit was applied, so a limit order
      fills no worse than its limit exactly when its raw price is left alone or there is a
      step of the grid for it to move to short of the limit. */
  lemma LimitIsKept(c: Costing, o: Order, bar: Bar)
    requires o.kind == Limit && o.price > 0.0 && Sane(bar) && bar.low > 0.0
    requires Filled(o, bar).Some?
    ensures var raw := Filled(o, bar).value;
      WithinLimit(o, FillPrice(c, o, raw)) <==> OnGrid(raw, c.tick) || WithinLimit(o, OnStep(o, raw, c.tick))
    ensures var raw := Filled(o, bar).value;
      WithinLimit(o, FillPrice(c, o, raw)) <==> OnGrid(raw, c.tick) || StepBetween(o, raw, c.tick)
  {
    var raw := Filled(o, bar).value;
    assert raw > 0.0 && WithinLimit(o, raw);
    if c.tick > 0.0 {
      StepBetweenIs(o, raw, c.tick);
    }
  }

  /** On a bar that opens at the limit or short of it, the limit is kept exactly when it is
      itself on the grid, which is known before the order is placed. */
  lemma LimitOnTheGridIsKept(c: Costing, o: Order, bar: Bar)
    requires o.kind == Limit && o.price > 0.0 && Sane(bar) && bar.low > 0.0
    requires Filled(o, bar).Some? && (if o.side == Buy then bar.open >= o.price else bar.open <= o.price)
    ensures WithinLimit(o, FillPrice(c, o, Filled(o, bar).value)) <==> OnGrid(o.price, c.tick)
  {
    LimitIsKept(c, o, bar);
    if !OnGrid(o.price, c.tick) {
      OffGridMoves(o.price, c.tick);
    }
  }

  // ---------- limits kept on every bar ----------

  ghost predicate KeptOnEveryBar(c: Costing, o: Order) {
    forall bar :: Sane(bar) && bar.low > 0.0 && Filled(o, bar).Some? ==>
      WithinLimit(o, FillPrice(c, o, Filled(o, bar).value))
  }

  /** The limit is a step of the grid, or so little past one, on the order's own side, that
      the grid leaves alone all there is between; or steps are so fine at this price that
      it leaves alone everything around it. */
  predicate SafeLimit(o: Order, tick: real) {
    tick <= 0.0 ||
    var steps := o.price / tick;
    if o.side == Buy then SafeBelow(steps) else SafeAbove(steps)
  }

  predicate SafeBelow(steps: real) {
    steps - steps.Floor as real <= Slack(steps) || OnSteps(steps.Floor as real + 0.5)
  }

  predicate SafeAbove(steps: real) {
    Ceil(steps) as real - steps <= Slack(steps) || OnSteps(Ceil(steps) as real - 0.5)
  }

  lemma Nearest(x: real, n: int)
    requires 0 <= n && n as real <= x <= (n + 1) as real
    ensures x < n as real + 0.5 ==> Round(x) == n
    ensures x >= n as real + 0.5 ==> Round(x) == n + 1
  {
  }

  lemma SafeBelowIs(steps: real, x: real)
    requires SafeBelow(steps) && 0.0 < x <= steps && steps.Floor as real < x
    ensures OnSteps(x)
  {
    Nearest(x, steps.Floor);
    Nearest(steps.Floor as real + 0.5, steps.Floor);
  }

  lemma SafeAboveIs(steps: real, x: real)
    requires SafeAbove(steps) && 0.0 < steps <= x < Ceil(steps) as real
    ensures OnSteps(x)
  {
    Nearest(x, Ceil(steps) - 1);
    Nearest(Ceil(steps) as real - 0.5, Ceil(steps) - 1);
  }

  lemma UnsafeBelow(steps: real) returns (x: real)
    requires steps > 0.0 && !SafeBelow(steps)
    ensures 0.0 < x <= steps && steps.Floor as real < x && !OnSteps(x)
  {
    Nearest(steps, steps.Floor);
    x := if steps < steps.Floor as real + 0.5 then steps else steps.Floor as real + 0.5;
  }

  lemma UnsafeAbove(steps: real) returns (x: real)
    requires steps > 0.0 && !SafeAbove(steps)
    ensures steps <= x < Ceil(steps) as real && !OnSteps(x)
  {
    Nearest(steps, Ceil(steps) - 1);
    x := if steps > Ceil(steps) as real - 0.5 then steps else Ceil(steps) as real - 0.5;
  }

  /** Prices and steps are ordered alike. */
  lemma StepOrder(x: real, y: real, tick: real)
    requires tick > 0.0
    ensures x <= y <==> x * tick <= y * tick
  {
    if x <= y {
      TimesMonotone(x, y, tick);
    } else {
      TimesStrict(y, x, tick);
    }
  }

  lemma StepsOrdered(low: real, high: real, tick: real, x: real, y: real)
    requires tick > 0.0 && x * tick == low && y * tick == high && 0.0 < low <= high
    ensures 0.0 < x <= y
  {
    StepOrder(x, 0.0, tick);
    StepOrder(x, y, tick);
  }

  lemma PricesOrdered(low: real, high: real, tick: real, x: real, y: real)
    requires tick > 0.0 && x * tick == low && y * tick == high && 0.0 < x <= y
    ensures 0.0 < low <= high
  {
    TimesStrict(0.0, x, tick);
    TimesMonotone(x, y, tick);
  }

  lemma StepWithin(low: real, high: real, tick: real, x: real, y: real, n: int)
    requires tick > 0.0 && x * tick == low && y * tick == high
    ensures low <= GridStep(n, tick) <= high <==> x <= n as real <= y
  {
    StepOrder(x, n as real, tick);
    StepOrder(n as real, y, tick);
  }

  lemma SafeBuyStep(price: real, raw: real, tick: real, y: real, x: real)
    requires tick > 0.0 && y * tick == price && x * tick == raw && 0.0 < raw <= price
    requires SafeBelow(y) && !OnSteps(x)
    ensures raw <= GridStep(y.Floor, tick) <= price
  {
    StepsOrdered(raw, price, tick, x, y);
    assert x <= y.Floor as real by {
      if y.Floor as real < x {
        SafeBelowIs(y, x);
      }
    }
    StepWithin(raw, price, tick, x, y, y.Floor);
  }

  lemma SafeSellStep(price: real, raw: real, tick: real, y: real, x: real)
    requires tick > 0.0 && y * tick == price && x * tick == raw && 0.0 < price <= raw
    requires SafeAbove(y) && !OnSteps(x)
    ensures price <= GridStep(Ceil(y), tick) <= raw
  {
    StepsOrdered(price, raw, tick, y, x);
    assert Ceil(y) as real <= x by {
      if x < Ceil(y) as real {
        SafeAboveIs(y, x);
      }
    }
    StepWithin(price, raw, tick, y, x, Ceil(y));
  }

  lemma StepsOf(price: real, tick: real) returns (steps: real)
    requires tick > 0.0
    ensures steps == price / tick && steps * tick == price
  {
    steps := price / tick;
    QuotientTimes(price, tick);
  }

  lemma SafeBuy(price: real, raw: real, tick: real)
    requires tick > 0.0 && 0.0 < raw <= price && SafeBelow(price / tick) && !OnSteps(raw / tick)
    ensures exists n: int :: raw <= GridStep(n, tick) <= price
  {
    var y := StepsOf(price, tick);
    var x := StepsOf(raw, tick);
    SafeBuyStep(price, raw, tick, y, x);
  }

  lemma SafeSell(price: real, raw: real, tick: real)
    requires tick > 0.0 && 0.0 < price <= raw && SafeAbove(price / tick) && !OnSteps(raw / tick)
    ensures exists n: int :: price <= GridStep(n, tick) <= raw
  {
    var y := StepsOf(price, tick);
    var x := StepsOf(raw, tick);
    SafeSellStep(price, raw, tick, y, x);
  }

  /** A safe limit leaves a step for every raw price off the grid. */
  lemma SafeStep(o: Order, raw: real, tick: real)
    requires tick > 0.0 && raw > 0.0 && o.price > 0.0 && WithinLimit(o, raw)
    requires SafeLimit(o, tick) && !OnGrid(raw, tick)
    ensures StepBetween(o, raw, tick)
  {
    if o.side == Buy {
      SafeBuy(o.price, raw, tick);
    } else {
      SafeSell(o.price, raw, tick);
    }
  }

  lemma InSteps(price: real, tick: real, steps: real)
    requires tick > 0.0 && steps * tick == price
    ensures price / tick == steps
  {
  }

  lemma UnsafeBuy(price: real, tick: real, y: real) returns (raw: real)
    requires tick > 0.0 && price > 0.0 && y * tick == price && !SafeBelow(y)
    ensures 0.0 < raw <= price && !OnSteps(raw / tick)
    ensures forall n: int :: !(raw <= GridStep(n, tick) <= price)
  {
    StepsOrdered(price, price, tick, y, y);
    var x := UnsafeBelow(y);
    raw := x * tick;
    InSteps(raw, tick, x);
    PricesOrdered(raw, price, tick, x, y);
    NoStepWithin(raw, price, tick, x, y);
  }

  lemma UnsafeSell(price: real, tick: real, y: real) returns (raw: real)
    requires tick > 0.0 && price > 0.0 && y * tick == price && !SafeAbove(y)
    ensures price <= raw && !OnSteps(raw / tick)
    ensures forall n: int :: !(price <= GridStep(n, tick) <= raw)
  {
    StepsOrdered(price, price, tick, y, y);
    var x := UnsafeAbove(y);
    raw := x * tick;
    InSteps(raw, tick, x);
    PricesOrdered(price, raw, tick, y, x);
    NoStepWithin(price, raw, tick, y, x);
  }

  lemma NoStepWithin(low: real, high: real, tick: real, x: real, y: real)
    requires tick > 0.0 && x * tick == low && y * tick == high
    requires y < Ceil(x) as real || y.Floor as real < x
    ensures forall n: int :: !(low <= GridStep(n, tick) <= high)
  {
    forall n: int ensures !(low <= GridStep(n, tick) <= high) {
      NoneBetween(x, y, n);
      StepWithin(low, high, tick, x, y, n);
    }
  }

  lemma NoneBetween(x: real, y: real, n: int)
    requires y < Ceil(x) as real || y.Floor as real < x
    ensures !(x <= n as real <= y)
  {
    if n as real <= y {
      FloorAtLeast(y, n);
    }
    if x <= n as real {
      FloorAtLeast(-x, -n);
    }
  }

  lemma FloorAtLeast(x: real, n: int)
    requires n as real <= x
    ensures n <= x.Floor
  {
  }

  /** A raw price an unsafe limit would be filled past at. */
  lemma UnsafeRaw(o: Order, tick: real) returns (raw: real)
    requires o.price > 0.0 && !SafeLimit(o, tick)
    ensures raw > 0.0 && WithinLimit(o, raw) && !OnGrid(raw, tick) && !StepBetween(o, raw, tick)
  {
    var y := StepsOf(o.price, tick);
    if o.side == Buy {
      raw := UnsafeBuy(o.price, tick, y);
    } else {
      raw := UnsafeSell(o.price, tick, y);
    }
  }

  /** Whether a limit order can ever fill past its limit is known before it is placed. */
  lemma KeptOnEveryBarIs(c: Costing, o: Order)
    requires o.kind == Limit && o.price > 0.0
    ensures KeptOnEveryBar(c, o) <==> SafeLimit(o, c.tick)
  {
    if SafeLimit(o, c.tick) {
      forall bar | Sane(bar) && bar.low > 0.0 && Filled(o, bar).Some?
        ensures WithinLimit(o, FillPrice(c, o, Filled(o, bar).value))
      {
        LimitIsKept(c, o, bar);
        var raw := Filled(o, bar).value;
        if !OnGrid(raw, c.tick) {
          SafeStep(o, raw, c.tick);
        }
      }
    } else {
      var raw := UnsafeRaw(o, c.tick);
      var bar := Bar(raw, raw, raw, raw);
      assert Filled(o, bar) == Some(raw);
      LimitIsKept(c, o, bar);
    }
  }

  /** A buyer limited to 10.50 on a grid of whole units pays 11. */
  lemma BuyLimitBroken(c: Costing) returns (o: Order, bar: Bar)
    requires c.tick == 1.0
    ensures o.kind == Limit && o.side == Buy && Sane(bar) && bar.low > 0.0 && Filled(o, bar).Some?
    ensures FillPrice(c, o, Filled(o, bar).value) > o.price
  {
    o, bar := Order(Limit, Buy, 10.5), Bar(11.0, 11.0, 10.0, 11.0);
    HalfIsOffGrid();
  }

  /** A seller, as at every take-profit of a long, is paid 10. */
  lemma SellLimitBroken(c: Costing) returns (o: Order, bar: Bar)
    requires c.tick == 1.0
    ensures o.kind == Limit && o.side == Sell && Sane(bar) && bar.low > 0.0 && Filled(o, bar).Some?
    ensures FillPrice(c, o, Filled(o, bar).value) < o.price
  {
    o, bar := Order(Limit, Sell, 10.5), Bar(10.0, 11.0, 10.0, 10.0);
    HalfIsOffGrid();
  }

  lemma HalfIsOffGrid()
    ensures !OnGrid(10.5, 1.0) && Floored(10.5, 1.0) == 10.0 && Ceiled(10.5, 1.0) == 11.0
  {
    assert 10.5 / 1.0 == 10.5 && Round(10.5) == 11;
    assert Ceil(10.5) == 11 by {
      assert (-10.5).Floor == -11;
    }
  }
}
