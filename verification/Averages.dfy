/** Moving averages kept in constant time: weighted, exponential and Wilder's. */
module Averages {
  import opened Numbers
  import opened Windows

  // ---------- weighted ----------

  /** Each value times its place, the oldest counting once. */
  function Weighted(xs: seq<real>): real {
    if xs == [] then 0.0 else Weighted(xs[..|xs| - 1]) + Times(|xs|, xs[|xs| - 1])
  }

  function Times(n: int, x: real): real {
    n as real * x
  }

  lemma WeightedAppend(xs: seq<real>, v: real)
    ensures Weighted(xs + [v]) == Weighted(xs) + Times(|xs| + 1, v)
  {
    assert (xs + [v])[..|xs|] == xs;
  }

  lemma OneLess(n: int, x: real)
    ensures Times(n - 1, x) == Times(n, x) - x
  {
  }

  /** Dropping the oldest value moves every other one place down: the sum comes off. */
  lemma {:induction false} WeightedRest(xs: seq<real>)
    requires xs != []
    ensures Weighted(xs[1..]) == Weighted(xs) - Sum(xs)
  {
    if |xs| > 1 {
      var n := |xs| - 1;
      WeightedRest(xs[..n]);
      assert xs[..n][1..] == xs[1..][..n - 1];
      OneLess(|xs|, xs[n]);
    } else {
      assert xs[..0] == [] && xs[1..] == [];
      assert Weighted(xs) == Times(1, xs[0]) && Sum(xs) == xs[0];
    }
  }

  /** So a full window slides by the newest value's weight, less the old sum. */
  lemma WeightedSlides(h: seq<real>, v: real, size: nat)
    requires 1 <= size <= |h|
    ensures Weighted(Tail(h + [v], size)) == Weighted(Tail(h, size)) + Times(size, v) - Sum(Tail(h, size))
  {
    TailGrows(h, v, size);
    WeightedRest(Tail(h, size));
    WeightedAppend(Tail(h, size)[1..], v);
  }

  function WeightOf(period: int): real {
    (period * (period + 1)) as real / 2.0
  }

  function WeightedMean(h: seq<real>, period: nat): real
    requires period >= 1
  {
    WeightPositive(period);
    Weighted(Tail(h, period)) / WeightOf(period)
  }

  lemma WeightPositive(period: nat)
    requires period >= 1
    ensures WeightOf(period) > 0.0
  {
    assert period * (period + 1) >= 1;
  }

  class Wma {
    const period: nat
    const window: Ring
    var numerator: real
    var seeded: bool
    var value: real
    var ready: bool

    ghost predicate Valid()
      reads this, window, window.values
    {
      && period >= 1
      && window.Valid() && window.values.Length == period
      && seeded == ready == (|window.pushed| >= period)
      && (seeded ==> numerator == Weighted(Tail(window.pushed, period)))
      && (ready ==> value == WeightedMean(window.pushed, period))
    }

    constructor (period: int)
      ensures Valid() && window.pushed == [] && this.period == Max(period, 1)
      ensures fresh(window) && fresh(window.values)
    {
      this.period := Max(period, 1);
      window := new Ring(Max(period, 1));
      numerator, seeded, value, ready := 0.0, false, 0.0, false;
    }

    /** The average is of the last `period` values exactly, however many came before. */
    method Push(x: real)
      requires Valid()
      modifies this, window, window.values
      ensures Valid() && window.pushed == old(window.pushed) + [x]
    {
      var previous := window.total;
      ghost var before := window.pushed;
      var _ := window.Push(x);
      if !window.Full() {
        return;
      }
      if seeded {
        WeightedSlides(before, x, period);
        numerator := numerator + Times(period, x) - previous;
      } else {
        numerator := Weigh();
        seeded := true;
      }
      WeightPositive(period);
      value := numerator / WeightOf(period);
      ready := true;
    }

    /** The first full window, weighed from scratch. */
    method Weigh() returns (total: real)
      requires window.Valid() && window.values.Length == period && |window.pushed| >= period
      ensures total == Weighted(Tail(window.pushed, period))
    {
      ghost var held := Tail(window.pushed, period);
      total := 0.0;
      for i := 0 to period
        invariant total == Weighted(held[..i])
      {
        var x := window.At(i);
        assert held[..i + 1] == held[..i] + [x];
        WeightedAppend(held[..i], x);
        total := total + Times(i + 1, x);
      }
      assert held[..period] == held;
    }

    method Reset()
      requires Valid()
      modifies this, window, window.values
      ensures Valid() && window.pushed == []
    {
      window.Reset();
      numerator, seeded, value, ready := 0.0, false, 0.0, false;
    }
  }

  /** Priming a windowed average with a window's worth of earlier values is exact. */
  lemma WeightedPrimes(older: seq<real>, h: seq<real>, period: nat)
    requires 1 <= period <= |h|
    ensures WeightedMean(older + h, period) == WeightedMean(h, period)
  {
    TailForgets(older, h, period);
  }

  // ---------- exponential and Wilder's ----------

  function Toward(value: real, x: real, alpha: real): real {
    value + alpha * (x - value)
  }

  /** Seeded with the mean of the first `period`, then drawn toward each value in turn. */
  function Smoothed(xs: seq<real>, period: nat, alpha: real): real
    requires period >= 1
  {
    if |xs| < period then 0.0
    else if |xs| == period then Mean(xs)
    else Toward(Smoothed(xs[..|xs| - 1], period, alpha), xs[|xs| - 1], alpha)
  }

  function Drawn(value: real, xs: seq<real>, alpha: real): real {
    if xs == [] then value else Toward(Drawn(value, xs[..|xs| - 1], alpha), xs[|xs| - 1], alpha)
  }

  function Power(x: real, n: nat): real {
    if n == 0 then 1.0 else Power(x, n - 1) * x
  }

  function Kept(gap: real, alpha: real): real {
    gap * (1.0 - alpha)
  }

  function Decayed(gap: real, alpha: real, n: nat): real {
    if n == 0 then gap else Kept(Decayed(gap, alpha, n - 1), alpha)
  }

  lemma KeptPower(gap: real, alpha: real, power: real)
    ensures Kept(power * gap, alpha) == (power * (1.0 - alpha)) * gap
  {
  }

  /** That is, by the n-th power of what one value leaves. */
  lemma {:induction false} DecayedIs(gap: real, alpha: real, n: nat)
    ensures Decayed(gap, alpha, n) == Power(1.0 - alpha, n) * gap
  {
    if n > 0 {
      DecayedIs(gap, alpha, n - 1);
      KeptPower(gap, alpha, Power(1.0 - alpha, n - 1));
    }
  }

  lemma GapStep(a: real, b: real, x: real, alpha: real, gap: real)
    requires a - b == gap
    ensures Toward(a, x, alpha) - Toward(b, x, alpha) == Kept(gap, alpha)
  {
  }

  /** Two averages fed the same values differ by their first gap, shrunk once a value. */
  lemma {:induction false} GapShrinks(a: real, b: real, xs: seq<real>, alpha: real)
    ensures Drawn(a, xs, alpha) - Drawn(b, xs, alpha) == Decayed(a - b, alpha, |xs|)
  {
    if xs != [] {
      var n := |xs| - 1;
      GapShrinks(a, b, xs[..n], alpha);
      GapStep(Drawn(a, xs[..n], alpha), Drawn(b, xs[..n], alpha), xs[n], alpha, Decayed(a - b, alpha, n));
    }
  }

  /** Once seeded, feeding more values is drawing toward them. */
  lemma {:induction false} SmoothedDraws(xs: seq<real>, ys: seq<real>, period: nat, alpha: real)
    requires 1 <= period <= |xs|
    ensures Smoothed(xs + ys, period, alpha) == Drawn(Smoothed(xs, period, alpha), ys, alpha)
  {
    if ys == [] {
      assert xs + ys == xs;
    } else {
      var n := |ys| - 1;
      SmoothedDraws(xs, ys[..n], period, alpha);
      assert (xs + ys)[..|xs + ys| - 1] == xs + ys[..n];
    }
  }

  /** Two streams that end alike, both seeded before that, are as far apart as they were
      when the common part began, shrunk by each common value. */
  lemma StreamsConverge(xs: seq<real>, ys: seq<real>, common: seq<real>, period: nat, alpha: real, a: real, b: real)
    requires 1 <= period <= |xs| && period <= |ys|
    requires a == Smoothed(xs, period, alpha) && b == Smoothed(ys, period, alpha)
    ensures ApartBy(Smoothed(xs + common, period, alpha), Smoothed(ys + common, period, alpha), Decayed(a - b, alpha, |common|))
  {
    SmoothedDraws(xs, common, period, alpha);
    SmoothedDraws(ys, common, period, alpha);
    GapShrinks(a, b, common, alpha);
  }

  predicate ApartBy(x: real, y: real, gap: real) {
    x - y == gap
  }

  function AlphaOf(period: nat): real {
    2.0 / (period + 1) as real
  }

  class Ema {
    const period: nat
    const alpha: real
    const seed: Ring
    var value: real
    var ready: bool
    ghost var pushed: seq<real>

    ghost predicate Valid()
      reads this, seed, seed.values
    {
      && period >= 1 && alpha == AlphaOf(period)
      && seed.Valid() && seed.values.Length == period
      && ready == (|pushed| >= period)
      && (!ready ==> seed.pushed == pushed)
      && value == Smoothed(pushed, period, alpha)
    }

    constructor (period: int)
      ensures Valid() && pushed == [] && this.period == Max(period, 1)
      ensures fresh(seed) && fresh(seed.values)
    {
      this.period := Max(period, 1);
      alpha := AlphaOf(Max(period, 1));
      seed := new Ring(Max(period, 1));
      value, ready, pushed := 0.0, false, [];
    }

    method Push(x: real)
      requires Valid()
      modifies this, seed, seed.values
      ensures Valid() && pushed == old(pushed) + [x]
    {
      assert (pushed + [x])[..|pushed|] == pushed;
      pushed := pushed + [x];
      if ready {
        value := Toward(value, x, alpha);
        return;
      }
      var _ := seed.Push(x);
      if seed.Full() {
        value := seed.MeanOf();
        ready := true;
      }
    }

    method Reset()
      requires Valid()
      modifies this, seed, seed.values
      ensures Valid() && pushed == []
    {
      seed.Reset();
      value, ready, pushed := 0.0, false, [];
    }
  }

  class Wilder {
    const period: nat
    var sum: real
    var count: nat
    var value: real
    var ready: bool
    ghost var pushed: seq<real>

    ghost predicate Valid()
      reads this
    {
      && period >= 1
      && ready == (|pushed| >= period)
      && (!ready ==> sum == Sum(pushed) && count == |pushed|)
      && value == Smoothed(pushed, period, 1.0 / period as real)
    }

    constructor (period: int)
      ensures Valid() && pushed == [] && this.period == Max(period, 1)
    {
      this.period := Max(period, 1);
      sum, count, value, ready, pushed := 0.0, 0, 0.0, false, [];
    }

    method Push(x: real)
      requires Valid()
      modifies this
      ensures Valid() && pushed == old(pushed) + [x]
    {
      assert (pushed + [x])[..|pushed|] == pushed;
      pushed := pushed + [x];
      if ready {
        OneOver(value, x, period as real);
        value := value + (x - value) / period as real;
        return;
      }
      sum := sum + x;
      count := count + 1;
      if count == period {
        value := sum / period as real;
        ready := true;
      }
    }

    method Reset()
      modifies this
      requires Valid()
      ensures Valid() && pushed == []
    {
      sum, count, value, ready, pushed := 0.0, 0, 0.0, false, [];
    }
  }

  lemma OneOver(value: real, x: real, n: real)
    requires n > 0.0
    ensures value + (x - value) / n == Toward(value, x, 1.0 / n)
  {
  }
}
