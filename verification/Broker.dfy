/** Orders against a bar, and what a fill costs: slippage, the price grid, fees. */
module Broker {
  import opened Outcomes
  import opened Numbers
  import opened Bars
  import opened Specs

  const TICK_EPSILON := 0.000000001

  datatype OrderKind = Market | Limit | Stop

  datatype Direction = Buy | Sell

  datatype Order = Order(kind: OrderKind, side: Direction, price: real)

  datatype Bar = Bar(open: real, high: real, low: real, close: real)

  function BarOf(c: Candle): Bar {
    Bar(c.open, c.high, c.low, c.close)
  }

  function CloseOf(c: Candle): Bar {
    Bar(c.close, c.close, c.close, c.close)
  }

  /** The raw price a resting or market order fills at inside a bar, if it fills. */
  function Filled(o: Order, bar: Bar): Option<real> {
    match (o.kind, o.side)
    case (Market, _) => Some(bar.open)
    case (Limit, Buy) => if bar.low > o.price then None else Some(MinReal(bar.open, o.price))
    case (Limit, Sell) => if bar.high < o.price then None else Some(MaxReal(bar.open, o.price))
    case (Stop, Buy) => if bar.high < o.price then None else Some(MaxReal(bar.open, o.price))
    case (Stop, Sell) => if bar.low > o.price then None else Some(MinReal(bar.open, o.price))
  }

  predicate Sane(bar: Bar) {
    bar.low <= bar.open <= bar.high && bar.low <= bar.close <= bar.high
  }

  /** Trading at this price would set the order off. */
  predicate Meets(o: Order, traded: real) {
    match (o.kind, o.side)
    case (Market, _) => true
    case (Limit, Buy) => traded <= o.price
    case (Limit, Sell) => traded >= o.price
    case (Stop, Buy) => traded >= o.price
    case (Stop, Sell) => traded <= o.price
  }

  /** On a sane bar a fill is at a price the bar traded at, on the right side of the
      order's own price, and it is refused exactly when the bar never reached that price. */
  lemma FillIsInsideTheBar(o: Order, bar: Bar)
    requires Sane(bar)
    ensures Filled(o, bar).Some? ==> bar.low <= Filled(o, bar).value <= bar.high
    ensures Filled(o, bar).Some? && o.kind == Limit ==>
        if o.side == Buy then Filled(o, bar).value <= o.price else Filled(o, bar).value >= o.price
    ensures Filled(o, bar).Some? && o.kind == Stop ==>
        if o.side == Buy then Filled(o, bar).value >= o.price else Filled(o, bar).value <= o.price
    ensures Filled(o, bar).None? <==>
        forall traded :: bar.low <= traded <= bar.high ==>
            !Meets(o, traded)
  {
    assert Meets(o, bar.low) || Meets(o, bar.high) || Filled(o, bar).None?;
  }

  /** It fills at the open if trading there sets it off, and at its own price otherwise. */
  lemma FillIsAtOpenOrPrice(o: Order, bar: Bar)
    requires Filled(o, bar).Some?
    ensures Filled(o, bar).value == if Meets(o, bar.open) then bar.open else o.price
  {
  }

  datatype Costing = Costing(costs: Costs, tick: real)

  function Slipped(price: real, bps: real, buy: bool): real {
    var move := price * bps / 10000.0;
    if buy then price + move else price - move
  }

  function Ceil(x: real): int {
    -(-x).Floor
  }

  function Ceiled(price: real, tick: real): real
    requires tick > 0.0
  {
    Ceil(price / tick) as real * tick
  }

  function Floored(price: real, tick: real): real
    requires tick > 0.0
  {
    (price / tick).Floor as real * tick
  }

  /** Prices within a billionth of the grid count as on it. */
  predicate OnGrid(price: real, tick: real) {
    tick <= 0.0 || OnSteps(price / tick)
  }

  predicate OnSteps(steps: real) {
    Abs(steps - Round(steps) as real) <= Slack(steps)
  }

  function Slack(steps: real): real {
    TICK_EPSILON * MaxReal(1.0, Abs(steps))
  }

  /** What is on the grid is left alone; the rest moves to the next step, up for a buyer and
      down for a seller. */
  function RoundTick(price: real, tick: real, up: bool): real {
    if price <= 0.0 || OnGrid(price, tick) then price
    else if up then Ceiled(price, tick)
    else Floored(price, tick)
  }

  function FillPrice(c: Costing, o: Order, raw: real): real {
    var price := if o.kind != Limit then Slipped(raw, c.costs.slippageBps, o.side == Buy) else raw;
    RoundTick(price, c.tick, o.side == Buy)
  }

  function Notional(qty: int, price: real): int {
    Round(qty as real * price * 100.0)
  }

  function Fees(c: Costing, notional: int): int {
    var size := if notional < 0 then -notional else notional;
    c.costs.brokerageCents + Round(size as real * c.costs.feeBps / 10000.0)
  }

  function Cost(c: Costing, qty: int, price: real): int {
    Notional(qty, price) + Fees(c, Notional(qty, price))
  }

  lemma NextStep(k: real, steps: real, tick: real, price: real)
    requires tick > 0.0 && steps < k + 1.0 && steps * tick == price
    ensures price < k * tick + tick
  {
    var up := k + 1.0;
    TimesStrict(steps, up, tick);
    assert up * tick == k * tick + tick;
  }

  lemma StepsAround(steps: real, price: real, tick: real)
    requires steps > 0.0 && tick > 0.0 && steps * tick == price
    ensures 0.0 <= steps.Floor as real * tick <= price < steps.Floor as real * tick + tick
    ensures price <= Ceil(steps) as real * tick < price + tick
  {
    TimesMonotone(steps.Floor as real, steps, tick);
    TimesMonotone(steps, Ceil(steps) as real, tick);
    NextStep(steps.Floor as real, steps, tick, price);
    NextStep(steps, Ceil(steps) as real, tick, Ceil(steps) as real * tick);
    TimesMonotone(0.0, steps.Floor as real, tick);
  }

  lemma GridAround(price: real, tick: real)
    requires price > 0.0 && tick > 0.0
    ensures 0.0 <= Floored(price, tick) <= price < Floored(price, tick) + tick
    ensures price <= Ceiled(price, tick) < price + tick
  {
    QuotientTimes(price, tick);
    StepsAround(price / tick, price, tick);
  }

  /** The grid moves a price by less than one tick, against whoever trades. */
  lemma TickIsAdverse(price: real, tick: real, up: bool)
    requires price > 0.0
    ensures up ==> RoundTick(price, tick, up) >= price
    ensures !up ==> 0.0 <= RoundTick(price, tick, up) <= price
    ensures tick > 0.0 ==> -tick < RoundTick(price, tick, up) - price < tick
  {
    if tick > 0.0 {
      GridAround(price, tick);
    }
  }

  /** Trading is never cheaper than the raw price: a buyer pays at least it and a seller
      gets at most it, slippage and grid together. */
  lemma FillIsAdverse(c: Costing, o: Order, raw: real)
    requires raw > 0.0 && 0.0 <= c.costs.slippageBps < 10000.0
    ensures o.side == Buy ==> FillPrice(c, o, raw) >= raw
    ensures o.side == Sell ==> 0.0 <= FillPrice(c, o, raw) <= raw
  {
    var move := raw * c.costs.slippageBps / 10000.0;
    assert 0.0 <= move < raw by {
      TimesMonotone(0.0, c.costs.slippageBps, raw);
      assert raw * c.costs.slippageBps < raw * 10000.0;
    }
    var price := if o.kind != Limit then Slipped(raw, c.costs.slippageBps, o.side == Buy) else raw;
    TickIsAdverse(price, c.tick, o.side == Buy);
  }

  /** Off the grid, slippage alone moves a price: so many ten-thousandths of it, against
      whoever trades, and not at all for a limit order. */
  lemma SlippageIs(c: Costing, o: Order, raw: real)
    requires c.tick <= 0.0
    ensures var moved := FillPrice(c, o, raw) - raw;
      10000.0 * moved == if o.kind == Limit then 0.0 else if o.side == Buy then raw * c.costs.slippageBps else -(raw * c.costs.slippageBps)
  {
  }

  /** What shares are worth, to the nearest cent, and what trading them costs on top. */
  lemma CostIs(c: Costing, qty: int, price: real)
    ensures var notional := Notional(qty, price);
      var fees := Fees(c, notional);
      && qty as real * price * 100.0 - 0.5 <= notional as real <= qty as real * price * 100.0 + 0.5
      && (if notional < 0 then -notional else notional) as real * c.costs.feeBps / 10000.0 - 0.5
           <= (fees - c.costs.brokerageCents) as real
           <= (if notional < 0 then -notional else notional) as real * c.costs.feeBps / 10000.0 + 0.5
      && Cost(c, qty, price) == notional + fees
  {
    RoundNearest(qty as real * price * 100.0);
    var notional := Notional(qty, price);
    RoundNearest((if notional < 0 then -notional else notional) as real * c.costs.feeBps / 10000.0);
  }

  lemma RoundMonotone(x: real, y: real)
    requires x <= y
    ensures Round(x) <= Round(y)
  {
  }

  lemma NotionalMonotone(p: int, q: int, price: real)
    requires 0 <= p <= q && price >= 0.0
    ensures 0 <= Notional(p, price) <= Notional(q, price)
  {
    TimesMonotone(0.0, p as real, price);
    TimesMonotone(p as real, q as real, price);
    RoundMonotone(p as real * price * 100.0, q as real * price * 100.0);
  }

  lemma FeesMonotone(c: Costing, small: int, large: int)
    requires 0 <= small <= large && c.costs.feeBps >= 0.0
    ensures Fees(c, small) <= Fees(c, large)
  {
    TimesMonotone(small as real, large as real, c.costs.feeBps);
    RoundMonotone(small as real * c.costs.feeBps / 10000.0, large as real * c.costs.feeBps / 10000.0);
  }

  /** More shares never cost less. */
  lemma CostMonotone(c: Costing, p: int, q: int, price: real)
    requires 0 <= p <= q && price >= 0.0 && c.costs.feeBps >= 0.0
    ensures Cost(c, p, price) <= Cost(c, q, price)
  {
    NotionalMonotone(p, q, price);
    FeesMonotone(c, Notional(p, price), Notional(q, price));
  }
}
