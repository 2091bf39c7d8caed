/** Corporate actions, read off how the adjusted close moves against the close from one bar
    to the next: a small step down is a dividend, one near a usual multiple is a split. */
module Actions {
  import opened Outcomes
  import opened Numbers
  import opened Bars

  const MAX_IMPLIED_YIELD := 0.30
  const SPLIT_TOLERANCE := 0.01
  const FLAT_RATIO := 0.000001

  /** What a split may multiply the shares by; a grouping divides by the same. */
  const TERMS: seq<real> := [1.5, 2.0, 2.5, 3.0, 10.0 / 3.0, 4.0, 5.0, 6.0, 8.0, 10.0, 15.0, 20.0, 25.0, 50.0, 100.0]

  datatype Event = Quiet | Dividend(perShare: real) | Split(factor: real) | Unpriced

  function RatioOf(c: Candle): real {
    if c.adjusted.None? || c.close <= 0.0 then 0.0 else c.adjusted.value / c.close
  }

  predicate Term(f: real) {
    f in TERMS
  }

  ghost predicate Multiple(f: real) {
    Term(f) || exists t :: Term(t) && f == 1.0 / t
  }

  function Off(f: real, want: real): real
    requires want > 0.0
  {
    Abs(f - want) / want
  }

  /** The multiple `f` accounts for an adjustment by `ratio`, to within one percent. */
  ghost predicate Explains(f: real, ratio: real)
    requires ratio > 0.0
  {
    Multiple(f) && 1.0 / ratio > 0.0 && Off(f, 1.0 / ratio) < SPLIT_TOLERANCE
  }

  ghost function SplitFactor(ratio: real): (f: Option<real>)
    requires ratio > 0.0
    ensures f.Some? ==> Explains(f.value, ratio)
    ensures f.None? ==> forall g :: !Explains(g, ratio)
  {
    if f :| Explains(f, ratio) then Some(f) else None
  }

  function Implied(close: real, ratio: real): real {
    close * (1.0 - ratio)
  }

  predicate Payable(close: real, ratio: real) {
    0.0 < Implied(close, ratio) <= close * MAX_IMPLIED_YIELD
  }

  predicate Steady(ratio: real) {
    ratio <= 0.0 || Abs(ratio - 1.0) <= FLAT_RATIO
  }

  /** What the step from one bar to the next says happened in between. */
  ghost function EventOf(prev: Candle, c: Candle): Event {
    var before, after := RatioOf(prev), RatioOf(c);
    if before <= 0.0 || after <= 0.0 || Steady(before / after) then Quiet
    else StepEvent(prev.close, before / after)
  }

  ghost function StepEvent(close: real, ratio: real): Event
    requires ratio > 0.0
  {
    if Payable(close, ratio) then Dividend(Implied(close, ratio))
    else
      match SplitFactor(ratio)
      case Some(factor) => Split(factor)
      case None => Unpriced
  }

  ghost function EventAt(candles: seq<Candle>, i: int): Event {
    if 0 < i < |candles| then EventOf(candles[i - 1], candles[i]) else Quiet
  }

  ghost function DividendAt(candles: seq<Candle>, i: int): real {
    var event := EventAt(candles, i);
    if event.Dividend? then event.perShare else 0.0
  }

  ghost function FactorAt(candles: seq<Candle>, i: int): real {
    var event := EventAt(candles, i);
    if event.Split? then event.factor else 0.0
  }

  // ---------- at most one multiple explains a step ----------

  lemma TermsSpread(i: nat, j: nat)
    requires i < j < |TERMS|
    ensures TERMS[j] >= 1.1 * TERMS[i] && TERMS[i] >= 1.5
    decreases j
  {
    if i < j - 1 {
      TermsSpread(i, j - 1);
    }
  }

  predicate Apart(a: real, b: real) {
    a >= 1.1 * b || b >= 1.1 * a
  }

  lemma TermBounds(t: real)
    requires Term(t)
    ensures 1.5 <= t <= 100.0
  {
  }

  lemma TermsApart(s: real, t: real)
    requires Term(s) && Term(t) && s != t
    ensures Apart(s, t)
  {
    var i :| 0 <= i < |TERMS| && TERMS[i] == s;
    var j :| 0 <= j < |TERMS| && TERMS[j] == t;
    if i < j {
      TermsSpread(i, j);
    } else {
      TermsSpread(j, i);
    }
  }

  lemma InverseBounds(t: real)
    requires t >= 1.5
    ensures 0.0 < 1.0 / t <= 0.67
  {
  }

  lemma InversesApart(s: real, t: real)
    requires s > 0.0 && t >= 1.1 * s
    ensures 1.0 / s >= 1.1 * (1.0 / t)
  {
    assert 1.1 * (1.0 / t) == 1.1 / t;
    assert 1.1 * s / t <= 1.0;
    assert 1.1 / t == 1.1 * s / t / s;
    assert 1.1 * s / t / s <= 1.0 / s;
  }

  lemma MultiplesApart(a: real, b: real)
    requires Multiple(a) && Multiple(b) && a != b
    ensures a > 0.0 && b > 0.0 && Apart(a, b)
  {
    if Term(a) && Term(b) {
      TermBounds(a);
      TermBounds(b);
      TermsApart(a, b);
    } else if Term(a) {
      var t :| Term(t) && b == 1.0 / t;
      TermBounds(a);
      TermBounds(t);
      InverseBounds(t);
    } else if Term(b) {
      var s :| Term(s) && a == 1.0 / s;
      TermBounds(b);
      TermBounds(s);
      InverseBounds(s);
    } else {
      var s :| Term(s) && a == 1.0 / s;
      var t :| Term(t) && b == 1.0 / t;
      InverseTermsApart(s, t);
    }
  }

  lemma InverseTermsApart(s: real, t: real)
    requires Term(s) && Term(t) && s != t
    ensures 1.0 / s > 0.0 && 1.0 / t > 0.0 && Apart(1.0 / s, 1.0 / t)
  {
    TermBounds(s);
    TermBounds(t);
    InverseBounds(s);
    InverseBounds(t);
    TermsApart(s, t);
    if t >= 1.1 * s {
      InversesApart(s, t);
    } else {
      InversesApart(t, s);
    }
  }

  lemma OffBounds(f: real, want: real)
    requires want > 0.0 && Off(f, want) < SPLIT_TOLERANCE
    ensures 0.99 * want < f < 1.01 * want
  {
    QuotientTimes(Abs(f - want), want);
    TimesStrict(Off(f, want), SPLIT_TOLERANCE, want);
  }

  /** No two multiples explain the same step, so the nearest one is the only one. */
  lemma ExplanationUnique(f: real, g: real, ratio: real)
    requires ratio > 0.0 && Explains(f, ratio) && Explains(g, ratio)
    ensures f == g
  {
    OffBounds(f, 1.0 / ratio);
    OffBounds(g, 1.0 / ratio);
    if f != g {
      MultiplesApart(f, g);
      assert false;
    }
  }

  // ---------- a position through a split ----------

  /** Every multiple is a whole number of 600ths. */
  lemma MultipleGrain(f: real) returns (n: int)
    requires Multiple(f)
    ensures f * 600.0 == n as real && n >= 6
  {
    if Term(f) {
      n := TermGrain(f);
    } else {
      var t :| Term(t) && f == 1.0 / t;
      n := InverseGrain(t);
    }
  }

  lemma TermGrain(t: real) returns (n: int)
    requires Term(t)
    ensures t * 600.0 == n as real && n >= 900
  {
    n := (t * 600.0).Floor;
  }

  lemma InverseGrain(t: real) returns (n: int)
    requires Term(t)
    ensures 1.0 / t * 600.0 == n as real && n >= 6
  {
    n := (600.0 / t).Floor;
    var i :| 0 <= i < |TERMS| && TERMS[i] == t;
    if i == 0 { assert n == 400; }
    else if i == 1 { assert n == 300; }
    else if i == 2 { assert n == 240; }
    else if i == 3 { assert n == 200; }
    else if i == 4 { assert n == 180; }
    else if i == 5 { assert n == 150; }
    else if i == 6 { assert n == 120; }
    else if i == 7 { assert n == 100; }
    else if i == 8 { assert n == 75; }
    else if i == 9 { assert n == 60; }
    else if i == 10 { assert n == 40; }
    else if i == 11 { assert n == 30; }
    else if i == 12 { assert n == 24; }
    else if i == 13 { assert n == 12; }
    else { assert n == 6; }
  }

  const SPLIT_EPSILON := 0.000000001

  function ExactShares(qty: int, factor: real): real {
    qty as real * factor
  }

  function SharesAfter(qty: int, factor: real): int {
    (ExactShares(qty, factor) + SPLIT_EPSILON).Floor
  }

  /** The epsilon under the floor never creates a share: a split leaves the whole shares it
      really leaves, and the fraction cashed out is never negative. */
  lemma SplitLeavesWholeShares(qty: int, factor: real)
    requires Multiple(factor)
    ensures SharesAfter(qty, factor) == ExactShares(qty, factor).Floor
    ensures 0.0 <= ExactShares(qty, factor) - SharesAfter(qty, factor) as real < 1.0
  {
    var n := MultipleGrain(factor);
    GrainsLeft(qty, factor, n);
  }

  lemma GrainsLeft(qty: int, factor: real, n: int)
    requires factor * 600.0 == n as real
    ensures SharesAfter(qty, factor) == ExactShares(qty, factor).Floor
  {
    Grained(qty as real, factor, n as real, qty as real * factor);
    GrainsFloor(qty as real * factor, qty * n);
  }

  lemma Grained(qty: real, factor: real, n: real, exact: real)
    requires factor * 600.0 == n && exact == qty * factor
    ensures exact * 600.0 == qty * n
  {
  }

  lemma GrainsFloor(exact: real, m: int)
    requires exact * 600.0 == m as real
    ensures (exact + SPLIT_EPSILON).Floor == exact.Floor == m / 600
  {
    var whole := m / 600;
    FloorIs(exact, whole);
    FloorIs(exact + SPLIT_EPSILON, whole);
  }

  lemma FloorIs(x: real, k: int)
    requires k as real <= x < k as real + 1.0
    ensures x.Floor == k
  {
  }

  // ---------- the scan ----------

  /** The nearest multiple so far and its distance, or none and the tolerance. */
  ghost predicate Leading(best: real, gap: real, ratio: real)
    requires ratio > 0.0
  {
    && gap <= SPLIT_TOLERANCE
    && (if best == 0.0 then gap == SPLIT_TOLERANCE else best > 0.0 && Explains(best, ratio))
  }

  method FindSplit(ratio: real) returns (factor: Option<real>)
    requires ratio > 0.0
    ensures factor == SplitFactor(ratio)
  {
    var best, gap := 0.0, SPLIT_TOLERANCE;
    for i := 0 to |TERMS|
      invariant Leading(best, gap, ratio)
      invariant best == 0.0 ==> forall k :: 0 <= k < i ==> Unexplained(TERMS[k], ratio)
    {
      assert Term(TERMS[i]);
      best, gap := Nearer(TERMS[i], ratio, best, gap);
    }
    if best == 0.0 {
      NoneExplains(ratio);
      return None;
    }
    ExplanationUnique(best, SplitFactor(ratio).value, ratio);
    return Some(best);
  }

  /** Tries a split by `term` and a grouping by it. */
  method Nearer(term: real, ratio: real, best0: real, gap0: real) returns (best: real, gap: real)
    requires ratio > 0.0 && Term(term) && Leading(best0, gap0, ratio)
    ensures Leading(best, gap, ratio)
    ensures best == 0.0 ==> best0 == 0.0 && Unexplained(term, ratio)
  {
    var want := 1.0 / ratio;
    best, gap := best0, gap0;
    TermBounds(term);
    InverseBounds(term);
    if Off(term, want) < gap {
      best, gap := term, Off(term, want);
    }
    if Off(1.0 / term, want) < gap {
      best, gap := 1.0 / term, Off(1.0 / term, want);
    }
  }

  predicate Unexplained(t: real, ratio: real)
    requires ratio > 0.0
  {
    t > 0.0 && 1.0 / ratio > 0.0
    && Off(t, 1.0 / ratio) >= SPLIT_TOLERANCE && Off(1.0 / t, 1.0 / ratio) >= SPLIT_TOLERANCE
  }

  lemma NoneExplains(ratio: real)
    requires ratio > 0.0
    requires forall k :: 0 <= k < |TERMS| ==> Unexplained(TERMS[k], ratio)
    ensures SplitFactor(ratio).None?
  {
    forall f ensures !Explains(f, ratio) {
      assert forall t :: Term(t) ==> Unexplained(t, ratio);
    }
  }

  method FindEvent(prev: Candle, c: Candle) returns (event: Event)
    ensures event == EventOf(prev, c)
  {
    var before, after := RatioOf(prev), RatioOf(c);
    if before <= 0.0 || after <= 0.0 {
      return Quiet;
    }
    var ratio := before / after;
    if Steady(ratio) {
      return Quiet;
    }
    if Payable(prev.close, ratio) {
      return Dividend(Implied(prev.close, ratio));
    }
    var factor := FindSplit(ratio);
    return if factor.Some? then Split(factor.value) else Unpriced;
  }

  datatype Totals = Totals(events: nat, splits: nat, unadjusted: nat, unpriced: nat)

  /** What was paid, by which factor shares multiplied, and how many bars say nothing. */
  datatype Actions = Actions(perShare: seq<real>, factor: seq<real>, totals: Totals)

  ghost function TotalsOf(candles: seq<Candle>, n: nat): Totals
    requires n <= |candles|
  {
    if n == 0 then Totals(0, 0, 0, 0)
    else
      var t, event := TotalsOf(candles, n - 1), EventAt(candles, n - 1);
      Totals(
        if event.Dividend? then t.events + 1 else t.events,
        if event.Split? then t.splits + 1 else t.splits,
        if candles[n - 1].adjusted.None? then t.unadjusted + 1 else t.unadjusted,
        if event.Unpriced? then t.unpriced + 1 else t.unpriced)
  }

  method ActionsOf(candles: seq<Candle>) returns (found: Actions)
    ensures |found.perShare| == |found.factor| == |candles|
    ensures forall i :: 0 <= i < |candles| ==>
        found.perShare[i] == DividendAt(candles, i) && found.factor[i] == FactorAt(candles, i)
    ensures found.totals == TotalsOf(candles, |candles|)
  {
    var perShare := new real[|candles|](_ => 0.0);
    var factor := new real[|candles|](_ => 0.0);
    var events, splits, unadjusted, unpriced := 0, 0, 0, 0;
    for i := 0 to |candles|
      invariant forall k :: 0 <= k < i ==> perShare[k] == DividendAt(candles, k) && factor[k] == FactorAt(candles, k)
      invariant forall k :: i <= k < |candles| ==> perShare[k] == 0.0 && factor[k] == 0.0
      invariant Totals(events, splits, unadjusted, unpriced) == TotalsOf(candles, i)
    {
      if candles[i].adjusted.None? {
        unadjusted := unadjusted + 1;
      }
      if i == 0 {
        continue;
      }
      var event := FindEvent(candles[i - 1], candles[i]);
      match event {
        case Quiet =>
        case Dividend(cash) => perShare[i], events := cash, events + 1;
        case Split(f) => factor[i], splits := f, splits + 1;
        case Unpriced => unpriced := unpriced + 1;
      }
    }
    found := Actions(perShare[..], factor[..], Totals(events, splits, unadjusted, unpriced));
  }

  /** A dividend is never more than the implied-yield limit, and a split factor is always
      one of the usual multiples, within one percent of undoing the adjustment. */
  lemma EventsAreUsual(candles: seq<Candle>, i: nat)
    requires 0 < i < |candles|
    ensures DividendAt(candles, i) > 0.0 ==> DividendAt(candles, i) <= candles[i - 1].close * MAX_IMPLIED_YIELD
    ensures DividendAt(candles, i) >= 0.0
    ensures FactorAt(candles, i) == 0.0 || Multiple(FactorAt(candles, i))
    ensures FactorAt(candles, i) != 0.0 ==> candles[i].close > 0.0 && candles[i - 1].close > 0.0
    ensures DividendAt(candles, i) == 0.0 || FactorAt(candles, i) == 0.0
  {
  }
}
