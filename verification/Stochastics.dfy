/** The stochastic of the relative strength index: five stages in a row, each waiting for
    the one before it to fill. */
module Stochastics {
  import opened Outcomes
  import opened Numbers
  import opened Bars
  import opened Indicators
  import opened Windows
  import opened Deques
  import opened Oscillators

  const NEUTRAL := 50.0

  function Percent(price: real, top: real, bottom: real): real {
    if top <= bottom then NEUTRAL else 100.0 * (price - bottom) / (top - bottom)
  }

  function Bounded(value: real): real {
    if value < 0.0 then 0.0 else if value > 100.0 then 100.0 else value
  }

  function BestOf(xs: seq<real>, highest: bool): real
    requires xs != []
  {
    if |xs| == 1 then xs[0]
    else
      var rest, v := BestOf(xs[..|xs| - 1], highest), xs[|xs| - 1];
      if Better(highest, rest, v) then rest else v
  }

  lemma {:induction false} BestOfIs(xs: seq<real>, highest: bool)
    requires xs != []
    ensures BestOf(xs, highest) in xs && forall j :: 0 <= j < |xs| ==> !Better(highest, xs[j], BestOf(xs, highest))
  {
    if |xs| > 1 {
      BestOfIs(xs[..|xs| - 1], highest);
    }
  }

  lemma WindowBest(h: seq<real>, size: nat, highest: bool, value: real)
    requires h != [] && size >= 1 && Best(value, h, highest, First(|h|, size))
    ensures value == BestOf(Tail(h, size), highest)
  {
    var held := Tail(h, size);
    BestOfIs(held, highest);
    var j :| 0 <= j < |held| && held[j] == BestOf(held, highest);
    assert forall k :: 0 <= k < |held| ==> held[k] == h[First(|h|, size) + k];
    var i :| First(|h|, size) <= i < |h| && h[i] == value;
    assert held[i - First(|h|, size)] == value;
  }

  // ---------- what each stage has been given ----------

  function Strengths(prices: seq<real>, period: nat): (r: seq<real>)
    requires period >= 1
    ensures |r| == Max(|prices| - period, 0)
  {
    if |prices| <= period then []
    else Strengths(prices[..|prices| - 1], period) + [RsiOf(prices, period)]
  }

  function PercentOf(strengths: seq<real>, stoch: nat): real
    requires strengths != [] && stoch >= 1
  {
    Percent(strengths[|strengths| - 1], BestOf(Tail(strengths, stoch), true), BestOf(Tail(strengths, stoch), false))
  }

  function Percents(strengths: seq<real>, stoch: nat): (r: seq<real>)
    requires stoch >= 1
    ensures |r| == Max(|strengths| - stoch + 1, 0)
  {
    if |strengths| < stoch then []
    else Percents(strengths[..|strengths| - 1], stoch) + [PercentOf(strengths, stoch)]
  }

  function Smooths(percents: seq<real>, k: nat): (r: seq<real>)
    requires k >= 1
    ensures |r| == Max(|percents| - k + 1, 0)
  {
    if |percents| < k then []
    else Smooths(percents[..|percents| - 1], k) + [Bounded(Mean(Tail(percents, k)))]
  }

  datatype Setup = Setup(period: nat, stoch: nat, k: nat, d: nat, source: Field)

  predicate Sized(s: Setup) {
    s.period >= 1 && s.stoch >= 1 && s.k >= 1 && s.d >= 1
  }

  function PricesOf(source: Field, fed: seq<Sample>): (r: seq<real>)
    ensures |r| == |fed|
  {
    if fed == [] then [] else PricesOf(source, fed[..|fed| - 1]) + [Price(source, fed[|fed| - 1])]
  }

  function SlowOf(s: Setup, prices: seq<real>): seq<real>
    requires Sized(s)
  {
    Smooths(Percents(Strengths(prices, s.period), s.stoch), s.k)
  }

  function WarmupOf(s: Setup): int {
    s.period + s.stoch + s.k + s.d - 3
  }

  function Lines(s: Setup, slow: seq<real>): seq<real> {
    if slow == [] then [0.0, 0.0] else [slow[|slow| - 1], Bounded(Mean(Tail(slow, s.d)))]
  }

  /** The nested stages fill one after another, and the last fills exactly when the
      declared warm-up is over. */
  lemma SlowFills(s: Setup, prices: seq<real>)
    requires Sized(s)
    ensures |SlowOf(s, prices)| >= s.d <==> |prices| > WarmupOf(s)
  {
  }

  /** As an indicator it keeps the contract every registered one owes. */
  function StudyOf(s: Setup): Study
    requires Sized(s)
  {
    Study(
      fed => |SlowOf(s, PricesOf(s.source, fed))| >= s.d,
      fed => Lines(s, SlowOf(s, PricesOf(s.source, fed))),
      WarmupOf(s),
      s.period * 16 + s.stoch + s.k + s.d)
  }

  lemma StudyIsLawful(s: Setup)
    requires Sized(s)
    ensures Lawful(StudyOf(s), 2)
  {
    forall fed: seq<Sample> ensures StudyOf(s).ready(fed) <==> |fed| > StudyOf(s).warmup {
      SlowFills(s, PricesOf(s.source, fed));
    }
  }

  /** What the five stages have been given so far. */
  datatype Stages = Stages(prices: seq<real>, strengths: seq<real>, percents: seq<real>, slow: seq<real>)

  function StagesOf(s: Setup, prices: seq<real>): Stages
    requires Sized(s)
  {
    var strengths := Strengths(prices, s.period);
    var percents := Percents(strengths, s.stoch);
    Stages(prices, strengths, percents, Smooths(percents, s.k))
  }

  /** One more percent, and its smoothing once there are enough. */
  function WithPercent(s: Setup, g: Stages, percent: real): Stages
    requires Sized(s)
  {
    var percents := g.percents + [percent];
    g.(percents := percents,
       slow := if |percents| < s.k then g.slow else g.slow + [Bounded(Mean(Tail(percents, s.k)))])
  }

  function WithStrength(s: Setup, g: Stages, strength: real): Stages
    requires Sized(s)
  {
    var strengths := g.strengths + [strength];
    var ranked := g.(strengths := strengths);
    if |strengths| < s.stoch then ranked else WithPercent(s, ranked, PercentOf(strengths, s.stoch))
  }

  function WithPrice(s: Setup, g: Stages, price: real): Stages
    requires Sized(s)
  {
    var prices := g.prices + [price];
    var priced := g.(prices := prices);
    if |prices| <= s.period then priced else WithStrength(s, priced, RsiOf(prices, s.period))
  }

  /** Feeding stage by stage builds exactly those lists. */
  lemma StagesAdvance(s: Setup, prices: seq<real>, price: real)
    requires Sized(s)
    ensures StagesOf(s, prices + [price]) == WithPrice(s, StagesOf(s, prices), price)
  {
    var next := prices + [price];
    StrengthsNext(prices, price, s.period);
    if |next| > s.period {
      var strengths, x := Strengths(prices, s.period), RsiOf(next, s.period);
      PercentsNext(strengths, x, s.stoch);
      if |strengths| + 1 >= s.stoch {
        SmoothsNext(Percents(strengths, s.stoch), PercentOf(strengths + [x], s.stoch), s.k);
      }
    }
  }

  lemma SampleAdvances(s: Setup, fed: seq<Sample>, c: Sample) returns (g: Stages, next: Stages)
    requires Sized(s)
    ensures g == StagesOf(s, PricesOf(s.source, fed))
    ensures next == StagesOf(s, PricesOf(s.source, fed + [c]))
    ensures next == WithPrice(s, g, Price(s.source, c))
  {
    assert (fed + [c])[..|fed|] == fed;
    StagesAdvance(s, PricesOf(s.source, fed), Price(s.source, c));
    g, next := StagesOf(s, PricesOf(s.source, fed)), StagesOf(s, PricesOf(s.source, fed + [c]));
  }

  class StochRsi {
    const setup: Setup
    const rsi: Rsi
    const high: Extreme
    const low: Extreme
    const fast: Ring
    const slow: Ring
    var lines: (real, real)
    ghost var fed: seq<Sample>

    ghost predicate Apart() {
      && high != low && fast != slow
      && high.ages != low.ages
      && high.values != low.values && high.values != fast.values && high.values != slow.values
      && low.values != fast.values && low.values != slow.values && fast.values != slow.values
    }

    ghost predicate Fitted() {
      && Sized(setup)
      && rsi.period == setup.period && rsi.source == setup.source
      && high.size == low.size == setup.stoch && high.highest && !low.highest
      && fast.values.Length == setup.k && slow.values.Length == setup.d
    }

    /** What the stages hold, while they are sound. */
    ghost function Held(): Option<Stages>
      reads rsi, rsi.gains, rsi.losses
      reads high, high.values, high.ages, low, low.values, low.ages, fast, fast.values, slow, slow.values
    {
      if Apart() && Fitted() && rsi.Valid() && high.Valid() && low.Valid() && fast.Valid() && slow.Valid()
         && high.pushed == low.pushed
      then Some(Stages(rsi.prices, high.pushed, fast.pushed, slow.pushed))
      else None
    }

    ghost predicate Shown(g: Stages)
      reads this`lines
    {
      |g.slow| >= setup.d ==> [lines.0, lines.1] == Lines(setup, g.slow)
    }

    ghost predicate Valid()
      reads this, rsi, rsi.gains, rsi.losses
      reads high, high.values, high.ages, low, low.values, low.ages, fast, fast.values, slow, slow.values
    {
      && Sized(setup)
      && Held() == Some(StagesOf(setup, PricesOf(setup.source, fed)))
      && Shown(StagesOf(setup, PricesOf(setup.source, fed)))
    }

    constructor (period: int, stoch: int, k: int, d: int, source: Field)
      ensures Valid() && fed == []
      ensures setup == Setup(Max(period, 1), Max(stoch, 1), Max(k, 1), Max(d, 1), source)
    {
      setup := Setup(Max(period, 1), Max(stoch, 1), Max(k, 1), Max(d, 1), source);
      rsi := new Rsi(period, source);
      var top, bottom := NewRange(stoch);
      var first, second := NewMeans(k, d);
      high, low, fast, slow := top, bottom, first, second;
      lines, fed := (0.0, 0.0), [];
      new;
      Begin();
    }

    lemma Begin()
      requires Apart() && Fitted() && fed == []
      requires rsi.Valid() && high.Valid() && low.Valid() && fast.Valid() && slow.Valid()
      requires rsi.prices == [] && high.pushed == low.pushed == [] && fast.pushed == slow.pushed == []
      ensures Valid()
    {
      NothingFed(setup);
      assert Held() == Some(Stages([], [], [], []));
    }

    predicate Ready()
      requires Valid()
      reads this, rsi, rsi.gains, rsi.losses
      reads high, high.values, high.ages, low, low.values, low.ages, fast, fast.values, slow, slow.values
      ensures Ready() <==> StudyOf(setup).ready(fed)
    {
      slow.Full()
    }

    function Values(): (r: seq<real>)
      requires Valid()
      reads this, rsi, rsi.gains, rsi.losses
      reads high, high.values, high.ages, low, low.values, low.ages, fast, fast.values, slow, slow.values
      ensures Ready() ==> r == StudyOf(setup).values(fed)
    {
      [lines.0, lines.1]
    }

    method Update(c: Sample)
      requires Valid()
      modifies this, rsi, rsi.gains, rsi.losses
      modifies high, high.values, high.ages, low, low.values, low.ages, fast, fast.values, slow, slow.values
      ensures Valid() && fed == old(fed) + [c]
    {
      ghost var g, next := SampleAdvances(setup, fed, c);
      Advance(c, g, next);
      fed := fed + [c];
    }

    method Advance(c: Sample, ghost g: Stages, ghost next: Stages)
      requires Held() == Some(g) && Shown(g) && Sized(setup)
      requires next == WithPrice(setup, g, Price(setup.source, c))
      modifies this`lines, rsi, rsi.gains, rsi.losses
      modifies high, high.values, high.ages, low, low.values, low.ages, fast, fast.values, slow, slow.values
      ensures Held() == Some(next) && Shown(next)
    {
      var strength := Take(c, g);
      if strength.Some? {
        Rank(strength.value, g.(prices := g.prices + [Price(setup.source, c)]));
      }
    }

    /** The newest price into the first stage, and its strength once there is one. */
    method Take(c: Sample, ghost g: Stages) returns (strength: Option<real>)
      requires Held() == Some(g)
      modifies rsi, rsi.gains, rsi.losses
      ensures var next := g.prices + [Price(setup.source, c)];
        && Held() == Some(g.(prices := next))
        && strength == if |next| > setup.period then Some(RsiOf(next, setup.period)) else None
    {
      rsi.Update(c);
      return if rsi.Ready() then Some(rsi.value) else None;
    }

    /** The newest strength against the last few of them. */
    method Rank(strength: real, ghost g: Stages)
      requires Held() == Some(g) && Shown(g) && Sized(setup)
      modifies high, high.values, high.ages, low, low.values, low.ages, fast, fast.values, slow, slow.values, this`lines
      ensures Held() == Some(WithStrength(setup, g, strength)) && Shown(WithStrength(setup, g, strength))
    {
      ghost var ranked := g.(strengths := g.strengths + [strength]);
      var range := Range(strength, g);
      if range.Some? {
        Smooth(Percent(strength, range.value.0, range.value.1), ranked);
      }
    }

    /** Highest and lowest of the last few strengths, once there are enough. */
    method Range(strength: real, ghost g: Stages) returns (range: Option<(real, real)>)
      requires Held() == Some(g) && Sized(setup)
      modifies high, high.values, high.ages, low, low.values, low.ages
      ensures var strengths := g.strengths + [strength];
        && Held() == Some(g.(strengths := strengths))
        && range == if |strengths| < setup.stoch then None
                    else Some((BestOf(Tail(strengths, setup.stoch), true), BestOf(Tail(strengths, setup.stoch), false)))
    {
      PushBoth(strength, g);
      range := Extremes(g.(strengths := g.strengths + [strength]));
    }

    method PushBoth(strength: real, ghost g: Stages)
      requires Held() == Some(g)
      modifies high, high.values, high.ages, low, low.values, low.ages
      ensures Held() == Some(g.(strengths := g.strengths + [strength]))
    {
      high.Push(strength);
      low.Push(strength);
    }

    method Extremes(ghost g: Stages) returns (range: Option<(real, real)>)
      requires Held() == Some(g) && Sized(setup)
      ensures range == if |g.strengths| < setup.stoch then None
                       else Some((BestOf(Tail(g.strengths, setup.stoch), true), BestOf(Tail(g.strengths, setup.stoch), false)))
    {
      if !high.Full() {
        return None;
      }
      var top := high.Value();
      var bottom := low.Value();
      WindowBest(high.pushed, setup.stoch, true, top);
      WindowBest(low.pushed, setup.stoch, false, bottom);
      return Some((top, bottom));
    }

    method Smooth(percent: real, ghost g: Stages)
      requires Held() == Some(g) && Shown(g) && Sized(setup)
      modifies fast, fast.values, slow, slow.values, this`lines
      ensures Held() == Some(WithPercent(setup, g, percent)) && Shown(WithPercent(setup, g, percent))
    {
      var smoothed := Settle(percent, g);
      if smoothed.Some? {
        Show(smoothed.value, g.(percents := g.percents + [percent]));
      }
    }

    method Settle(percent: real, ghost g: Stages) returns (smoothed: Option<real>)
      requires Held() == Some(g) && Sized(setup)
      modifies fast, fast.values
      ensures var percents := g.percents + [percent];
        && Held() == Some(g.(percents := percents))
        && smoothed == if |percents| < setup.k then None else Some(Bounded(Mean(Tail(percents, setup.k))))
    {
      var _ := fast.Push(percent);
      return if fast.Full() then Some(Bounded(fast.MeanOf())) else None;
    }

    method Show(smoothed: real, ghost g: Stages)
      requires Held() == Some(g)
      modifies slow, slow.values, this`lines
      ensures var next := g.(slow := g.slow + [smoothed]);
        Held() == Some(next) && Shown(next)
    {
      var _ := slow.Push(smoothed);
      if slow.Full() {
        lines := (smoothed, Bounded(slow.MeanOf()));
      }
    }

    method Reset()
      requires Valid()
      modifies this, rsi, rsi.gains, rsi.losses
      modifies high, high.values, high.ages, low, low.values, low.ages, fast, fast.values, slow, slow.values
      ensures Valid() && fed == []
    {
      Clear(Held().value);
      NothingFed(setup);
      lines, fed := (0.0, 0.0), [];
    }

    method Clear(ghost g: Stages)
      requires Held() == Some(g)
      modifies rsi, rsi.gains, rsi.losses
      modifies high, high.values, high.ages, low, low.values, low.ages, fast, fast.values, slow, slow.values
      ensures Held() == Some(Stages([], [], [], []))
    {
      ResetRange(g);
      ResetMeans(g.(strengths := []));
      ResetFirst(Stages(g.prices, [], [], []));
    }

    method ResetFirst(ghost g: Stages)
      requires Held() == Some(g)
      modifies rsi, rsi.gains, rsi.losses
      ensures Held() == Some(g.(prices := []))
    {
      rsi.Reset();
    }

    method ResetRange(ghost g: Stages)
      requires Held() == Some(g)
      modifies high, high.values, high.ages, low, low.values, low.ages
      ensures Held() == Some(g.(strengths := []))
    {
      high.Reset();
      low.Reset();
    }

    method ResetMeans(ghost g: Stages)
      requires Held() == Some(g)
      modifies fast, fast.values, slow, slow.values
      ensures Held() == Some(g.(percents := [], slow := []))
    {
      fast.Reset();
      slow.Reset();
    }
  }

  method NewRange(size: int) returns (high: Extreme, low: Extreme)
    ensures high.Valid() && low.Valid() && high.pushed == low.pushed == []
    ensures high.size == low.size == Max(size, 1) && high.highest && !low.highest
    ensures high != low && high.values != low.values && high.ages != low.ages
    ensures fresh({high, low, high.values, high.ages, low.values, low.ages})
  {
    high := new Extreme(size, true);
    low := new Extreme(size, false);
  }

  method NewMeans(k: int, d: int) returns (fast: Ring, slow: Ring)
    ensures fast.Valid() && slow.Valid() && fast.pushed == slow.pushed == []
    ensures fast.values.Length == Max(k, 1) && slow.values.Length == Max(d, 1)
    ensures fast != slow && fast.values != slow.values
    ensures fresh({fast, slow, fast.values, slow.values})
  {
    fast := new Ring(k);
    slow := new Ring(d);
  }

  lemma NothingFed(s: Setup)
    requires Sized(s)
    ensures StagesOf(s, PricesOf(s.source, [])) == Stages([], [], [], [])
  {
  }

  lemma StrengthsNext(prices: seq<real>, price: real, period: nat)
    requires period >= 1
    ensures Strengths(prices + [price], period)
         == Strengths(prices, period) + (if |prices| < period then [] else [RsiOf(prices + [price], period)])
  {
    assert (prices + [price])[..|prices|] == prices;
  }

  lemma PercentsNext(strengths: seq<real>, x: real, stoch: nat)
    requires stoch >= 1
    ensures Percents(strengths + [x], stoch)
         == Percents(strengths, stoch) + (if |strengths| + 1 < stoch then [] else [PercentOf(strengths + [x], stoch)])
  {
    assert (strengths + [x])[..|strengths|] == strengths;
  }

  lemma SmoothsNext(percents: seq<real>, x: real, k: nat)
    requires k >= 1
    ensures Smooths(percents + [x], k)
         == Smooths(percents, k) + (if |percents| + 1 < k then [] else [Bounded(Mean(Tail(percents + [x], k)))])
  {
    assert (percents + [x])[..|percents|] == percents;
  }
}
