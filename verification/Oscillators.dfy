/** The relative strength index: two smoothed averages, ready one price after the period. */
module Oscillators {
  import opened Numbers
  import opened Bars
  import opened Windows
  import opened Averages

  // ---------- relative strength ----------

  function Rise(from: real, to: real): real {
    if to - from > 0.0 then to - from else 0.0
  }

  function Fall(from: real, to: real): real {
    if to - from > 0.0 then 0.0 else -(to - from)
  }

  function Rises(prices: seq<real>): (r: seq<real>)
    ensures |r| == Max(|prices| - 1, 0)
  {
    if |prices| <= 1 then []
    else Rises(prices[..|prices| - 1]) + [Rise(prices[|prices| - 2], prices[|prices| - 1])]
  }

  function Falls(prices: seq<real>): (r: seq<real>)
    ensures |r| == Max(|prices| - 1, 0)
  {
    if |prices| <= 1 then []
    else Falls(prices[..|prices| - 1]) + [Fall(prices[|prices| - 2], prices[|prices| - 1])]
  }

  function WilderOf(xs: seq<real>, period: nat): real
    requires period >= 1
  {
    Smoothed(xs, period, 1.0 / period as real)
  }

  /** 100 less 100 over one plus the ratio of the averages; 100 when nothing fell. */
  function Strength(gain: real, loss: real): real {
    if loss == 0.0 || 1.0 + gain / loss == 0.0 then 100.0 else 100.0 - 100.0 / (1.0 + gain / loss)
  }

  function RsiOf(prices: seq<real>, period: nat): real
    requires period >= 1
  {
    if |prices| <= period then 0.0 else Strength(WilderOf(Rises(prices), period), WilderOf(Falls(prices), period))
  }

  lemma RatioBounds(gain: real, loss: real)
    requires gain >= 0.0 && loss > 0.0
    ensures gain / loss >= 0.0
  {
  }

  lemma ShareBounds(x: real)
    requires x >= 1.0
    ensures 0.0 < 100.0 / x <= 100.0
  {
  }

  /** With nothing negative to average the index stays between 0 and 100, and the case the
      division leaves out never arises. */
  lemma StrengthBounded(gain: real, loss: real)
    requires gain >= 0.0 && loss >= 0.0
    ensures 0.0 <= Strength(gain, loss) <= 100.0
    ensures loss > 0.0 ==> 1.0 + gain / loss >= 1.0
  {
    if loss > 0.0 {
      RatioBounds(gain, loss);
      ShareBounds(1.0 + gain / loss);
    }
  }

  predicate NonNegative(xs: seq<real>) {
    forall i :: 0 <= i < |xs| ==> xs[i] >= 0.0
  }

  lemma {:induction false} SumNonNegative(xs: seq<real>)
    requires NonNegative(xs)
    ensures Sum(xs) >= 0.0
  {
    if xs != [] {
      SumNonNegative(xs[..|xs| - 1]);
    }
  }

  lemma TowardNonNegative(value: real, x: real, alpha: real)
    requires value >= 0.0 && x >= 0.0 && 0.0 <= alpha <= 1.0
    ensures Toward(value, x, alpha) >= 0.0
  {
    assert Toward(value, x, alpha) == value * (1.0 - alpha) + alpha * x;
    assert value * (1.0 - alpha) >= 0.0 && alpha * x >= 0.0;
  }

  lemma MeanNonNegative(s: real, n: real)
    requires s >= 0.0 && n > 0.0
    ensures s / n >= 0.0
  {
  }

  lemma {:induction false} SmoothedNonNegative(xs: seq<real>, period: nat, alpha: real)
    requires period >= 1 && NonNegative(xs) && 0.0 <= alpha <= 1.0
    ensures Smoothed(xs, period, alpha) >= 0.0
  {
    if |xs| == period {
      SumNonNegative(xs);
      MeanNonNegative(Sum(xs), period as real);
    } else if |xs| > period {
      SmoothedNonNegative(xs[..|xs| - 1], period, alpha);
      TowardNonNegative(Smoothed(xs[..|xs| - 1], period, alpha), xs[|xs| - 1], alpha);
    }
  }

  lemma {:induction false} MovesNonNegative(prices: seq<real>)
    ensures NonNegative(Rises(prices)) && NonNegative(Falls(prices))
  {
    if |prices| > 1 {
      MovesNonNegative(prices[..|prices| - 1]);
    }
  }

  lemma AlphaRange(period: nat)
    requires period >= 1
    ensures 0.0 <= 1.0 / period as real <= 1.0
  {
  }

  lemma RsiBounded(prices: seq<real>, period: nat)
    requires period >= 1
    ensures 0.0 <= RsiOf(prices, period) <= 100.0
  {
    MovesNonNegative(prices);
    AlphaRange(period);
    SmoothedNonNegative(Rises(prices), period, 1.0 / period as real);
    SmoothedNonNegative(Falls(prices), period, 1.0 / period as real);
    StrengthBounded(WilderOf(Rises(prices), period), WilderOf(Falls(prices), period));
  }

  lemma NextMove(prices: seq<real>, price: real)
    ensures prices == [] ==> Rises(prices + [price]) == Falls(prices + [price]) == []
    ensures prices != [] ==>
      && Rises(prices + [price]) == Rises(prices) + [Rise(prices[|prices| - 1], price)]
      && Falls(prices + [price]) == Falls(prices) + [Fall(prices[|prices| - 1], price)]
  {
    assert (prices + [price])[..|prices|] == prices;
  }

  class Rsi {
    const period: nat
    const source: Field
    const gains: Wilder
    const losses: Wilder
    var prev: real
    var seen: bool
    var value: real
    ghost var prices: seq<real>

    ghost predicate Valid()
      reads this, gains, losses
    {
      && period >= 1 && gains != losses
      && gains.Valid() && losses.Valid() && gains.period == losses.period == period
      && gains.pushed == Rises(prices) && losses.pushed == Falls(prices)
      && seen == (prices != []) && (seen ==> prev == prices[|prices| - 1])
      && value == RsiOf(prices, period)
    }

    constructor (period: int, source: Field)
      ensures Valid() && prices == [] && this.period == Max(period, 1) && this.source == source
      ensures fresh(gains) && fresh(losses)
    {
      this.period := Max(period, 1);
      this.source := source;
      gains := new Wilder(Max(period, 1));
      losses := new Wilder(Max(period, 1));
      prev, seen, value, prices := 0.0, false, 0.0, [];
    }

    method Update(c: Sample)
      requires Valid()
      modifies this, gains, losses
      ensures Valid() && prices == old(prices) + [Price(source, c)]
    {
      var price := Price(source, c);
      NextMove(prices, price);
      if !seen {
        prev, seen := price, true;
        prices := prices + [price];
        return;
      }
      Move(Rise(prev, price), Fall(prev, price));
      prev := price;
      prices := prices + [price];
      if gains.ready {
        value := Strength(gains.value, losses.value);
      }
    }

    method Move(rise: real, fall: real)
      requires gains != losses && gains.Valid() && losses.Valid()
      modifies gains, losses
      ensures gains.Valid() && losses.Valid()
      ensures gains.pushed == old(gains.pushed) + [rise] && losses.pushed == old(losses.pushed) + [fall]
    {
      gains.Push(rise);
      losses.Push(fall);
    }

    /** Ready exactly once `period` + 1 prices are in. */
    predicate Ready()
      requires Valid()
      reads this, gains, losses
      ensures Ready() <==> |prices| > period
    {
      gains.ready
    }

    method Reset()
      requires Valid()
      modifies this, gains, losses
      ensures Valid() && prices == []
    {
      gains.Reset();
      losses.Reset();
      prev, seen, value, prices := 0.0, false, 0.0, [];
    }
  }
}
