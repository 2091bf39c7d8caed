/** What really happened is what the scan finds: feeds that adjust earlier prices for a
    dividend, a split or nothing at all, at any scale. */
module Recoveries {
  import opened Outcomes
  import opened Numbers
  import opened Bars
  import opened Actions

  /** A price as a feed quotes it once it is adjusted for what lies ahead. */
  function Quoted(scale: real, price: real): real {
    scale * price
  }

  function Part(price: real, ratio: real): real {
    price * ratio
  }

  /** A feed's two closes, the earlier one adjusted by `ratio` on top of what lies ahead. */
  predicate Fed(prev: Candle, c: Candle, scale: real, ratio: real) {
    && scale > 0.0 && prev.close > 0.0 && c.close > 0.0
    && prev.adjusted == Some(Quoted(scale, Part(prev.close, ratio))) && c.adjusted == Some(Quoted(scale, c.close))
  }

  lemma Cancel(scale: real, x: real, y: real)
    requires y > 0.0
    ensures Quoted(scale, y * x) / y == scale * x
  {
    assert Quoted(scale, y * x) == (scale * x) * y;
  }

  lemma RatioIs(scale: real, ratio: real, before: real, after: real)
    requires scale > 0.0 && before == scale * ratio && after == scale
    ensures before / after == ratio
  {
  }

  lemma StepRatio(prev: Candle, c: Candle, scale: real, ratio: real)
    requires Fed(prev, c, scale, ratio) && ratio > 0.0
    ensures RatioOf(prev) > 0.0 && RatioOf(c) > 0.0 && RatioOf(prev) / RatioOf(c) == ratio
  {
    Cancel(scale, ratio, prev.close);
    Cancel(scale, 1.0, c.close);
    assert c.close * 1.0 == c.close;
    TimesStrict(0.0, scale, ratio);
    RatioIs(scale, ratio, RatioOf(prev), RatioOf(c));
  }

  lemma EventIsStep(prev: Candle, c: Candle, scale: real, ratio: real)
    requires Fed(prev, c, scale, ratio) && ratio > 0.0 && !(-0.000001 <= ratio - 1.0 <= 0.000001)
    ensures EventOf(prev, c) == StepEvent(prev.close, ratio)
  {
    StepRatio(prev, c, scale, ratio);
  }

  /** Prices adjusted alike say nothing happened. */
  lemma NothingRecovered(prev: Candle, c: Candle, scale: real)
    requires Fed(prev, c, scale, 1.0)
    ensures EventOf(prev, c) == Quiet
  {
    StepRatio(prev, c, scale, 1.0);
  }

  /** Nothing is read off a bar without a price or without an adjusted one, nor off the bar
      after it. */
  lemma UnadjustedIsQuiet(prev: Candle, c: Candle)
    requires prev.adjusted.None? || c.adjusted.None? || prev.close <= 0.0 || c.close <= 0.0
    ensures EventOf(prev, c) == Quiet
  {
  }

  lemma LessADividend(close: real, cash: real, share: real)
    requires share * close == cash
    ensures Part(close, 1.0 - share) == close - cash && Implied(close, 1.0 - share) == cash
  {
  }

  lemma FromTimes(x: real, y: real, k: real)
    requires k > 0.0
    ensures x * k <= y * k ==> x <= y
    ensures x * k < y * k ==> x < y
  {
    if x > y {
      TimesStrict(y, x, k);
    }
  }

  lemma ShareOf(close: real, cash: real) returns (share: real)
    requires close > 0.0 && 0.000001 * close < cash <= 0.30 * close
    ensures share * close == cash && 0.000001 < share <= 0.30
  {
    share := cash / close;
    QuotientTimes(cash, close);
    FromTimes(share, 0.30, close);
    FromTimes(0.000001, share, close);
  }

  lemma YieldIsPayable(close: real, cash: real, share: real)
    requires close > 0.0 && share * close == cash && 0.0 < cash <= 0.30 * close
    ensures Payable(close, 1.0 - share) && Implied(close, 1.0 - share) == cash
  {
    LessADividend(close, cash, share);
  }

  /** A dividend of more than a millionth of the close, and at most three tenths of it, is
      recovered to the cent and beyond. */
  lemma DividendRecovered(prev: Candle, c: Candle, scale: real, cash: real)
    requires scale > 0.0 && prev.close > 0.0 && c.close > 0.0
    requires prev.adjusted == Some(Quoted(scale, prev.close - cash)) && c.adjusted == Some(Quoted(scale, c.close))
    requires 0.000001 * prev.close < cash <= 0.30 * prev.close
    ensures EventOf(prev, c) == Dividend(cash)
  {
    var share := ShareOf(prev.close, cash);
    var ratio := 1.0 - share;
    LessADividend(prev.close, cash, share);
    assert Part(prev.close, ratio) == prev.close - cash;
    EventIsStep(prev, c, scale, ratio);
    YieldIsPayable(prev.close, cash, share);
  }

  lemma MultipleIsPositive(factor: real)
    requires Multiple(factor)
    ensures factor >= 1.5 || 0.0 < factor <= 0.67
  {
    if Term(factor) {
      TermBounds(factor);
    } else {
      var t :| Term(t) && factor == 1.0 / t;
      TermBounds(t);
      InverseBounds(t);
    }
  }

  lemma InverseOf(factor: real)
    requires factor > 0.0
    ensures 1.0 / factor > 0.0 && 1.0 / (1.0 / factor) == factor
    ensures factor >= 1.5 ==> 1.0 / factor <= 0.67
    ensures factor <= 0.67 ==> 1.0 / factor >= 1.4
  {
  }

  lemma NoYield(close: real, ratio: real)
    requires close > 0.0 && (ratio <= 0.67 || ratio >= 1.4)
    ensures !Payable(close, ratio)
  {
    ImpliedApart(close, ratio, 1.0 - ratio);
  }

  lemma ImpliedApart(close: real, ratio: real, left: real)
    requires close > 0.0 && left == 1.0 - ratio
    ensures left >= 0.33 ==> Implied(close, ratio) > close * MAX_IMPLIED_YIELD
    ensures left <= 0.0 ==> Implied(close, ratio) <= 0.0
  {
    assert Implied(close, ratio) == left * close;
    if left >= 0.33 {
      TimesStrict(0.30, left, close);
    } else if left <= 0.0 {
      TimesMonotone(left, 0.0, close);
    }
  }

  lemma OwnFactor(factor: real)
    requires Multiple(factor) && factor > 0.0
    ensures 1.0 / factor > 0.0 && SplitFactor(1.0 / factor) == Some(factor)
  {
    InverseOf(factor);
    assert Explains(factor, 1.0 / factor);
    ExplanationUnique(factor, SplitFactor(1.0 / factor).value, 1.0 / factor);
  }

  /** A split or a grouping by one of the usual multiples is recovered as that multiple. */
  lemma SplitRecovered(prev: Candle, c: Candle, scale: real, factor: real)
    requires Multiple(factor) && Fed(prev, c, scale, 1.0 / factor)
    ensures EventOf(prev, c) == Split(factor)
  {
    MultipleIsPositive(factor);
    InverseOf(factor);
    EventIsStep(prev, c, scale, 1.0 / factor);
    NoYield(prev.close, 1.0 / factor);
    OwnFactor(factor);
  }

  /** The usual multiples; twice and half the shares are among them. */
  lemma UsualMultiples(factor: real)
    requires factor in {1.5, 2.0, 2.5, 3.0, 4.0, 5.0, 6.0, 8.0, 10.0, 15.0, 20.0, 25.0, 50.0, 100.0} || 3.0 * factor == 10.0
    ensures Multiple(factor) && Multiple(1.0 / factor)
  {
    assert TERMS[0] == 1.5 && TERMS[1] == 2.0 && TERMS[2] == 2.5 && TERMS[3] == 3.0 && 3.0 * TERMS[4] == 10.0;
    assert TERMS[5] == 4.0 && TERMS[6] == 5.0 && TERMS[7] == 6.0 && TERMS[8] == 8.0 && TERMS[9] == 10.0;
    assert TERMS[10] == 15.0 && TERMS[11] == 20.0 && TERMS[12] == 25.0 && TERMS[13] == 50.0 && TERMS[14] == 100.0;
    assert Term(factor);
  }

  // ---------- over a series ----------

  /** Bar `i` went ex a dividend of `cash` a share. */
  predicate WentEx(candles: seq<Candle>, i: nat, cash: real) {
    && 0 < i < |candles| && candles[i - 1].close > 0.0 && candles[i].close > 0.0
    && 0.000001 * candles[i - 1].close < cash <= 0.30 * candles[i - 1].close
  }

  /** What the book is credited with is the dividend that was paid, and what it is adjusted by
      the split that was made, wherever in the series and whatever else it is adjusted for. */
  lemma DividendAtIs(candles: seq<Candle>, i: nat, scale: real, cash: real)
    requires WentEx(candles, i, cash) && scale > 0.0
    requires candles[i - 1].adjusted == Some(Quoted(scale, candles[i - 1].close - cash))
    requires candles[i].adjusted == Some(Quoted(scale, candles[i].close))
    ensures DividendAt(candles, i) == cash && FactorAt(candles, i) == 0.0
  {
    DividendRecovered(candles[i - 1], candles[i], scale, cash);
  }

  lemma FactorAtIs(candles: seq<Candle>, i: nat, scale: real, factor: real)
    requires 0 < i < |candles| && Multiple(factor) && Fed(candles[i - 1], candles[i], scale, 1.0 / factor)
    ensures FactorAt(candles, i) == factor && DividendAt(candles, i) == 0.0
  {
    SplitRecovered(candles[i - 1], candles[i], scale, factor);
  }

  /** The close a feed adjusts to, and what it must be for the scan to tell. */
  function Less(close: real, made: Event): real {
    match made
    case Dividend(cash) => close - cash
    case Split(factor) => if factor > 0.0 then Part(close, 1.0 / factor) else close
    case _ => close
  }

  ghost predicate Telling(close: real, made: Event) {
    match made
    case Quiet => true
    case Dividend(cash) => 0.000001 * close < cash <= 0.30 * close
    case Split(factor) => factor > 0.0 && Multiple(factor)
    case Unpriced => false
  }

  /** How a feed quotes the step from one bar to the next when this happened in between. */
  ghost predicate Adjusts(prev: Candle, c: Candle, made: Event, scale: real) {
    && scale > 0.0 && prev.close > 0.0 && c.close > 0.0
    && Telling(prev.close, made)
    && c.adjusted == Some(Quoted(scale, c.close))
    && prev.adjusted == Some(Quoted(scale, Less(prev.close, made)))
  }

  lemma EventRecovered(prev: Candle, c: Candle, made: Event, scale: real)
    requires Adjusts(prev, c, made, scale)
    ensures EventOf(prev, c) == made
  {
    match made
    case Quiet => QuietRecovered(prev, c, scale);
    case Dividend(cash) => DividendRecovered(prev, c, scale, cash);
    case Split(factor) => SplitRecovered(prev, c, scale, factor);
  }

  lemma QuietRecovered(prev: Candle, c: Candle, scale: real)
    requires scale > 0.0 && prev.close > 0.0 && c.close > 0.0
    requires prev.adjusted == Some(Quoted(scale, prev.close)) && c.adjusted == Some(Quoted(scale, c.close))
    ensures EventOf(prev, c) == Quiet
  {
    assert Part(prev.close, 1.0) == prev.close;
    NothingRecovered(prev, c, scale);
  }

  /** A feed: its own adjustment at every bar, from the newest back. */
  ghost predicate Feed(candles: seq<Candle>, made: seq<Event>, scales: seq<real>) {
    && |made| == |scales| == |candles|
    && forall i :: 0 < i < |candles| ==>
        Adjusts(candles[i - 1], candles[i], made[i], scales[i])
  }

  lemma FeedEvents(candles: seq<Candle>, made: seq<Event>, scales: seq<real>, i: nat)
    requires Feed(candles, made, scales) && 0 < i < |candles|
    ensures EventAt(candles, i) == made[i] && !made[i].Unpriced?
  {
    EventRecovered(candles[i - 1], candles[i], made[i], scales[i]);
  }

  /** The scan over a whole feed credits each dividend and applies each split on its bar. */
  lemma FeedRecovered(candles: seq<Candle>, made: seq<Event>, scales: seq<real>, found: Actions)
    requires Feed(candles, made, scales)
    requires |found.perShare| == |found.factor| == |candles| && found.totals == TotalsOf(candles, |candles|)
    requires forall i :: 0 <= i < |candles| ==>
        found.perShare[i] == DividendAt(candles, i) && found.factor[i] == FactorAt(candles, i)
    ensures forall i :: 0 < i < |candles| ==>
      && found.perShare[i] == (if made[i].Dividend? then made[i].perShare else 0.0)
      && found.factor[i] == (if made[i].Split? then made[i].factor else 0.0)
    ensures found.totals.unpriced == 0
  {
    forall i: nat | 0 < i < |candles|
      ensures found.perShare[i] == (if made[i].Dividend? then made[i].perShare else 0.0)
           && found.factor[i] == (if made[i].Split? then made[i].factor else 0.0)
    {
      FeedEvents(candles, made, scales, i);
    }
    NonePriceless(candles, made, scales, |candles|);
  }

  lemma {:induction false} NonePriceless(candles: seq<Candle>, made: seq<Event>, scales: seq<real>, n: nat)
    requires n <= |candles| && Feed(candles, made, scales)
    ensures TotalsOf(candles, n).unpriced == 0
  {
    if n > 0 {
      NonePriceless(candles, made, scales, n - 1);
      if n > 1 {
        FeedEvents(candles, made, scales, n - 1);
      }
    }
  }
}
