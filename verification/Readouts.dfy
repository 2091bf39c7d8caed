/** What the indicators' readings say of the prices they were taken from. */
module Readouts {
  import opened Numbers
  import opened Bars
  import opened Windows
  import opened Averages
  import opened Oscillators
  import Directional
  import Stochastics

  // ---------- averages ----------

  lemma Closes(value: real, x: real, alpha: real, n: int)
    requires n > 0 && n as real * alpha == 2.0
    ensures n as real * (Toward(value, x, alpha) - value) == 2.0 * (x - value)
  {
    assert Toward(value, x, alpha) - value == alpha * (x - value);
  }

  /** Each value closes two parts in one more than the period of the gap to it. */
  lemma EmaStep(value: real, x: real, period: nat)
    requires period >= 1
    ensures (period + 1) as real * (Toward(value, x, AlphaOf(period)) - value) == 2.0 * (x - value)
  {
    QuotientTimes(2.0, (period + 1) as real);
    Closes(value, x, AlphaOf(period), period + 1);
  }

  lemma OnePart(value: real, x: real, alpha: real, n: real)
    requires n * alpha == 1.0
    ensures n * (Toward(value, x, alpha) - value) == x - value
  {
    assert Toward(value, x, alpha) - value == alpha * (x - value);
  }

  /** Wilder's smoothing closes one part in the period of it. */
  lemma WilderStep(value: real, x: real, period: nat)
    requires period >= 1
    ensures period as real * (Toward(value, x, 1.0 / period as real) - value) == x - value
  {
    QuotientTimes(1.0, period as real);
    OnePart(value, x, 1.0 / period as real, period as real);
  }

  predicate Constant(xs: seq<real>, x: real) {
    forall i :: 0 <= i < |xs| ==> xs[i] == x
  }

  lemma {:induction false} ConstantSum(xs: seq<real>, x: real)
    requires Constant(xs, x)
    ensures Sum(xs) == Times(|xs|, x)
  {
    if xs != [] {
      ConstantSum(xs[..|xs| - 1], x);
      OneLess(|xs|, x);
    }
  }

  lemma WholeMean(n: int, x: real)
    requires n > 0
    ensures Times(n, x) / n as real == x
  {
  }

  lemma NoPull(x: real, alpha: real)
    ensures Toward(x, x, alpha) == x
  {
  }

  /** On a flat market every average is the price. */
  lemma {:induction false} FlatIsFlat(xs: seq<real>, x: real, period: nat, alpha: real)
    requires 1 <= period <= |xs| && Constant(xs, x)
    ensures Smoothed(xs, period, alpha) == x
  {
    if |xs| == period {
      ConstantSum(xs, x);
      WholeMean(|xs|, x);
    } else {
      FlatIsFlat(xs[..|xs| - 1], x, period, alpha);
      NoPull(x, alpha);
    }
  }

  lemma OneMoreWeight(n: int, x: real)
    ensures WeightOf(n + 1) * x == WeightOf(n) * x + Times(n + 1, x)
  {
    assert WeightOf(n + 1) == WeightOf(n) + (n + 1) as real;
  }

  lemma {:induction false} ConstantWeighs(xs: seq<real>, x: real)
    requires Constant(xs, x)
    ensures Weighted(xs) == WeightOf(|xs|) * x
  {
    if xs != [] {
      var n := |xs| - 1;
      ConstantWeighs(xs[..n], x);
      OneMoreWeight(n, x);
    }
  }

  lemma WholeOf(weight: real, x: real)
    requires weight > 0.0
    ensures weight * x / weight == x
  {
  }

  /** The weights are shares: what is weighed of a flat market is its price. */
  lemma FlatWeighsItself(xs: seq<real>, x: real, period: nat)
    requires 1 <= period <= |xs| && Constant(xs, x)
    ensures WeightedMean(xs, period) == x
  {
    WeightPositive(period);
    ConstantWeighs(Tail(xs, period), x);
    WholeOf(WeightOf(period), x);
  }

  // ---------- relative strength ----------

  /** A move is a rise or a fall, never both, and their difference. */
  lemma MoveSplits(from: real, to: real)
    ensures Rise(from, to) - Fall(from, to) == to - from
    ensures Rise(from, to) >= 0.0 && Fall(from, to) >= 0.0
    ensures Rise(from, to) == 0.0 || Fall(from, to) == 0.0
  {
  }

  lemma ShareOfMoves(gain: real, loss: real, ratio: real)
    requires gain >= 0.0 && loss > 0.0 && ratio * loss == gain
    ensures (100.0 - 100.0 / (1.0 + ratio)) * (gain + loss) == 100.0 * gain
  {
    var whole := 1.0 + ratio;
    assert whole > 0.0 by {
      if ratio < 0.0 {
        TimesStrict(ratio, 0.0, loss);
      }
    }
    assert gain + loss == whole * loss;
    assert 100.0 / whole * whole == 100.0;
    assert (100.0 / whole) * (whole * loss) == 100.0 * loss;
  }

  /** The index is the percentage of the average moves that was rises. */
  lemma StrengthIsShare(gain: real, loss: real)
    requires gain >= 0.0 && loss >= 0.0 && gain + loss > 0.0
    ensures Strength(gain, loss) * (gain + loss) == 100.0 * gain
  {
    if loss > 0.0 {
      QuotientTimes(gain, loss);
      RatioBounds(gain, loss);
      ShareOfMoves(gain, loss, gain / loss);
    }
  }

  predicate NeverFalls(prices: seq<real>) {
    forall i :: 0 < i < |prices| ==> prices[i - 1] <= prices[i]
  }

  predicate NeverRises(prices: seq<real>) {
    forall i :: 0 < i < |prices| ==> prices[i - 1] >= prices[i]
  }

  lemma {:induction false} NoFalls(prices: seq<real>)
    requires NeverFalls(prices)
    ensures Constant(Falls(prices), 0.0)
  {
    if |prices| > 1 {
      NoFalls(prices[..|prices| - 1]);
    }
  }

  lemma {:induction false} NoRises(prices: seq<real>)
    requires NeverRises(prices)
    ensures Constant(Rises(prices), 0.0)
  {
    if |prices| > 1 {
      NoRises(prices[..|prices| - 1]);
    }
  }

  /** Prices that never fall read 100. */
  lemma OnlyRisesIsHundred(prices: seq<real>, period: nat)
    requires 1 <= period < |prices| && NeverFalls(prices)
    ensures RsiOf(prices, period) == 100.0
  {
    NoFalls(prices);
    FlatIsFlat(Falls(prices), 0.0, period, 1.0 / period as real);
  }

  /** Prices that never rise, and do fall, read 0. */
  lemma OnlyFallsIsZero(prices: seq<real>, period: nat)
    requires 1 <= period < |prices| && NeverRises(prices) && WilderOf(Falls(prices), period) != 0.0
    ensures RsiOf(prices, period) == 0.0
  {
    NoRises(prices);
    FlatIsFlat(Rises(prices), 0.0, period, 1.0 / period as real);
    assert Strength(0.0, WilderOf(Falls(prices), period)) == 0.0;
  }

  // ---------- stochastic ----------

  /** Where in the range a value stands, in percent; the middle when there is no range. */
  lemma PercentIsPlace(x: real, top: real, bottom: real)
    ensures top > bottom ==> Stochastics.Percent(x, top, bottom) * (top - bottom) == 100.0 * (x - bottom)
    ensures top <= bottom ==> Stochastics.Percent(x, top, bottom) == 50.0
  {
    if top > bottom {
      QuotientTimes(100.0 * (x - bottom), top - bottom);
    }
  }

  lemma PercentInside(x: real, top: real, bottom: real)
    requires bottom <= x <= top
    ensures 0.0 <= Stochastics.Percent(x, top, bottom) <= 100.0
    ensures x == top > bottom ==> Stochastics.Percent(x, top, bottom) == 100.0
    ensures x == bottom < top ==> Stochastics.Percent(x, top, bottom) == 0.0
  {
    if top > bottom {
      var p := Stochastics.Percent(x, top, bottom);
      PercentIsPlace(x, top, bottom);
      FromProduct(0.0, p, top - bottom, 100.0 * (x - bottom));
      FromProduct(p, 100.0, top - bottom, 100.0 * (top - bottom));
      if x == top {
        FromProduct(100.0, p, top - bottom, 100.0 * (x - bottom));
      }
    }
  }

  lemma FromProduct(a: real, b: real, k: real, kb: real)
    requires k > 0.0 && b * k == kb
    ensures a * k <= kb ==> a <= b
  {
    if a > b {
      TimesStrict(b, a, k);
    }
  }

  /** The newest strength at the top of its window reads 100 and at the bottom 0, and always
      something between. */
  lemma StochasticInside(strengths: seq<real>, stoch: nat)
    requires strengths != [] && stoch >= 1
    ensures 0.0 <= Stochastics.PercentOf(strengths, stoch) <= 100.0
  {
    var held, x := Tail(strengths, stoch), strengths[|strengths| - 1];
    Stochastics.BestOfIs(held, true);
    Stochastics.BestOfIs(held, false);
    assert held[|held| - 1] == x;
    PercentInside(x, Stochastics.BestOf(held, true), Stochastics.BestOf(held, false));
  }

  /** Both lines stay between 0 and 100, and the second is the mean of the first's last few. */
  lemma LinesInside(s: Stochastics.Setup, prices: seq<real>)
    requires Stochastics.Sized(s) && |Stochastics.SlowOf(s, prices)| >= s.d
    ensures var slow := Stochastics.SlowOf(s, prices); var lines := Stochastics.Lines(s, slow);
      && lines[0] == slow[|slow| - 1] && 0.0 <= lines[0] <= 100.0
      && 0.0 <= lines[1] <= 100.0 && (0.0 <= Mean(Tail(slow, s.d)) <= 100.0 ==> lines[1] == Mean(Tail(slow, s.d)))
  {
  }

  // ---------- direction ----------

  /** A bar counts for one direction at most: the one it reached further in. */
  lemma MovesTakeSides(now: Sample, before: Sample)
    ensures var up, down := now.high - before.high, before.low - now.low;
      && Directional.Gain(now, before) == (if up > down && up > 0.0 then up else 0.0)
      && Directional.Drop(now, before) == (if down > up && down > 0.0 then down else 0.0)
      && (Directional.Gain(now, before) == 0.0 || Directional.Drop(now, before) == 0.0)
      && (up > 0.0 && down <= 0.0 ==> Directional.Gain(now, before) == up)
      && (down > 0.0 && up <= 0.0 ==> Directional.Drop(now, before) == down)
  {
  }

  /** The true range spans the bar and the close before it. */
  lemma RangeSpans(now: Sample, before: Sample)
    requires now.low <= now.high
    ensures Directional.TrueRange(now, before)
         == (if now.high > before.close then now.high else before.close) - (if now.low < before.close then now.low else before.close)
  {
  }

  /** Each bar's low is no lower than the one before it. */
  predicate NeverLower(fed: seq<Sample>) {
    forall i :: 0 < i < |fed| ==> fed[i - 1].low <= fed[i].low
  }

  lemma {:induction false} NoDrops(fed: seq<Sample>, period: nat)
    requires period >= 1 && NeverLower(fed)
    ensures Constant(Directional.MovesOf(fed, period).drops, 0.0)
  {
    if |fed| > 1 {
      NoDrops(fed[..|fed| - 1], period);
    }
  }

  lemma ZeroShare(moves: seq<real>, range: real, period: nat)
    requires 1 <= period <= |moves| && Constant(moves, 0.0)
    ensures Directional.Share(WilderOf(moves, period), range) == 0.0
  {
    FlatIsFlat(moves, 0.0, period, 1.0 / period as real);
  }

  /** Bars whose lows never fall leave the minus line at zero. */
  lemma OnlyUpHasNoMinus(fed: seq<Sample>, period: nat)
    requires 1 <= period < |fed| && NeverLower(fed)
    ensures Directional.MinusOf(Directional.MovesOf(fed, period), period) == 0.0
  {
    NoDrops(fed, period);
    Directional.MovesCounted(fed, period);
    ZeroShare(Directional.MovesOf(fed, period).drops, WilderOf(Directional.MovesOf(fed, period).ranges, period), period);
  }

  predicate NeverHigher(fed: seq<Sample>) {
    forall i :: 0 < i < |fed| ==> fed[i - 1].high >= fed[i].high
  }

  lemma {:induction false} NoGains(fed: seq<Sample>, period: nat)
    requires period >= 1 && NeverHigher(fed)
    ensures Constant(Directional.MovesOf(fed, period).gains, 0.0)
  {
    if |fed| > 1 {
      NoGains(fed[..|fed| - 1], period);
    }
  }

  /** And bars whose highs never rise leave the plus line there. */
  lemma OnlyDownHasNoPlus(fed: seq<Sample>, period: nat)
    requires 1 <= period < |fed| && NeverHigher(fed)
    ensures Directional.PlusOf(Directional.MovesOf(fed, period), period) == 0.0
  {
    NoGains(fed, period);
    Directional.MovesCounted(fed, period);
    ZeroShare(Directional.MovesOf(fed, period).gains, WilderOf(Directional.MovesOf(fed, period).ranges, period), period);
  }

  /** A direction's share of the range, and how one-sided the two are, in percent. */
  lemma SharesAre(move: real, range: real)
    requires range > 0.0
    ensures Directional.Share(move, range) * range == 100.0 * move
  {
    QuotientTimes(100.0 * move, range);
  }

  lemma LeanIs(plus: real, minus: real)
    requires plus >= 0.0 && minus >= 0.0 && plus + minus > 0.0
    ensures Directional.Lean(plus, minus) * (plus + minus) == 100.0 * (if plus >= minus then plus - minus else minus - plus)
    ensures minus == 0.0 || plus == 0.0 ==> Directional.Lean(plus, minus) == 100.0
    ensures plus == minus ==> Directional.Lean(plus, minus) == 0.0
  {
    var lean, both := Directional.Lean(plus, minus), plus + minus;
    QuotientTimes(100.0 * Abs(plus - minus), both);
    if minus == 0.0 || plus == 0.0 {
      FromProduct(lean, 100.0, both, 100.0 * both);
      FromProduct(100.0, lean, both, 100.0 * both);
    }
  }

  // ---------- prices ----------

  /** Each field is what it is called; the composite ones are means, so that their distances
      to the prices they are made of add up to nothing. */
  lemma PricesAre(c: Sample)
    ensures Price(Open, c) == c.open && Price(High, c) == c.high && Price(Low, c) == c.low && Price(Close, c) == c.close
    ensures Price(HL2, c) - c.low == c.high - Price(HL2, c)
    ensures (c.high - Price(HLC3, c)) + (c.low - Price(HLC3, c)) + (c.close - Price(HLC3, c)) == 0.0
    ensures (c.open - Price(OHLC4, c)) + (c.high - Price(OHLC4, c)) + (c.low - Price(OHLC4, c)) + (c.close - Price(OHLC4, c)) == 0.0
    ensures Price(Volume, c) == c.volume
  {
  }

  /** A candle is fed as it is stored, and a chained indicator sees its feed in every price. */
  lemma FedAsStored(c: Candle, sample: Sample, value: real, f: Field)
    ensures SampleOf(c) == Sample(c.ts, c.open, c.high, c.low, c.close, c.volume as real)
    ensures Price(f, Flat(sample, value)) == if f == Volume then sample.volume else value
    ensures Flat(sample, value).ts == sample.ts
  {
  }
}
