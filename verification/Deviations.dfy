/** The sliding window's squared deviation about its own mean, kept in constant time. */
module Deviations {
  import opened Numbers
  import opened Windows

  /** Sum of squared distances from `m`. */
  function Spread(xs: seq<real>, m: real): real {
    if xs == [] then 0.0
    else Spread(xs[..|xs| - 1], m) + Squared(xs[|xs| - 1], m)
  }

  function Squared(x: real, m: real): real {
    (x - m) * (x - m)
  }

  function SqDev(xs: seq<real>): real {
    Spread(xs, Mean(xs))
  }

  /** How many values, their sum, and the sum of their squares. */
  datatype Moments = Moments(n: real, sum: real, squares: real)

  function Added(m: Moments, v: real): Moments {
    Moments(m.n + 1.0, m.sum + v, m.squares + v * v)
  }

  function Removed(m: Moments, v: real): Moments {
    Moments(m.n - 1.0, m.sum - v, m.squares - v * v)
  }

  function MomentsOf(xs: seq<real>): (m: Moments)
    ensures m.n == |xs| as real && m.sum == Sum(xs)
  {
    if xs == [] then Moments(0.0, 0.0, 0.0) else Added(MomentsOf(xs[..|xs| - 1]), xs[|xs| - 1])
  }

  lemma MomentsAppend(xs: seq<real>, v: real)
    ensures MomentsOf(xs + [v]) == Added(MomentsOf(xs), v)
  {
    assert (xs + [v])[..|xs|] == xs;
  }

  lemma AddedRemoved(m: Moments, v: real, e: real)
    ensures Added(Removed(m, e), v) == Removed(Added(m, v), e)
  {
  }

  lemma {:induction false} MomentsRest(xs: seq<real>)
    requires xs != []
    ensures MomentsOf(xs[1..]) == Removed(MomentsOf(xs), xs[0])
  {
    if |xs| > 1 {
      var n := |xs| - 1;
      MomentsRest(xs[..n]);
      assert xs[..n][1..] == xs[1..][..n - 1];
      AddedRemoved(MomentsOf(xs[..n]), xs[n], xs[0]);
    } else {
      assert xs[..0] == [] && xs[1..] == [];
    }
  }

  /** `mean` is the mean, said without dividing. */
  predicate Balances(m: Moments, mean: real) {
    m.n * mean == m.sum
  }

  function Expanded(m: Moments, c: real): real {
    m.squares - 2.0 * (c * m.sum) + m.n * (c * c)
  }

  function Centered(m: Moments, mean: real): real {
    m.squares - m.n * (mean * mean)
  }

  lemma ExpandedStep(m: Moments, c: real, v: real, spread: real, more: real)
    requires spread == Expanded(m, c) && more == spread + Squared(v, c)
    ensures more == Expanded(Added(m, v), c)
  {
    var cc := c * c;
    assert (v - c) * (v - c) == v * v - 2.0 * (c * v) + cc;
    assert c * (m.sum + v) == c * m.sum + c * v;
    assert (m.n + 1.0) * cc == m.n * cc + cc;
  }

  lemma NothingExpanded(c: real)
    ensures Expanded(Moments(0.0, 0.0, 0.0), c) == 0.0
  {
  }

  lemma {:induction false} SpreadExpands(xs: seq<real>, c: real)
    ensures Spread(xs, c) == Expanded(MomentsOf(xs), c)
  {
    if xs == [] {
      NothingExpanded(c);
    } else {
      var rest, v := xs[..|xs| - 1], xs[|xs| - 1];
      SpreadExpands(rest, c);
      ExpandedStep(MomentsOf(rest), c, v, Spread(rest, c), Spread(xs, c));
    }
  }

  /** About the mean the cross term cancels: squares, less n times the mean squared. */
  lemma Cancels(m: Moments, mean: real)
    requires Balances(m, mean)
    ensures Expanded(m, mean) == Centered(m, mean)
  {
    assert mean * m.sum == m.n * (mean * mean);
  }

  lemma SpreadIs(xs: seq<real>, mean: real)
    requires Balances(MomentsOf(xs), mean)
    ensures Spread(xs, mean) == Centered(MomentsOf(xs), mean)
  {
    SpreadExpands(xs, mean);
    Cancels(MomentsOf(xs), mean);
  }

  lemma MeanTimes(s: real, n: real)
    requires n > 0.0
    ensures n * (s / n) == s
  {
  }

  lemma MeanBalances(xs: seq<real>)
    ensures Balances(MomentsOf(xs), Mean(xs))
  {
    if xs != [] {
      MeanTimes(Sum(xs), |xs| as real);
    }
  }

  function GrowBy(v: real, before: real, after: real): real {
    (v - before) * (v - after)
  }

  function SlideBy(v: real, evicted: real, before: real, after: real): real {
    (v - evicted) * (v - after + evicted - before)
  }

  /** Growing: the new value's distance from the mean before times that after. */
  lemma GrowStep(m: Moments, b: real, a: real, v: real)
    requires Balances(m, b) && Balances(Added(m, v), a)
    ensures Centered(Added(m, v), a) == Centered(m, b) + GrowBy(v, b, a)
  {
    var n, up := m.n, m.n + 1.0;
    var na, nb := n * a, n * b;
    assert up * a == na + a;
    assert v == na + a - nb;
    assert up * (a * a) == (na + a) * a;
    assert (v - b) * (v - a) == v * v - v * a - b * v + b * a;
    assert v * a == na * a + a * a - nb * a;
    assert b * v == b * na + b * a - b * nb;
    assert (na + a) * a == na * a + a * a;
    assert b * na == nb * a;
    assert b * nb == n * (b * b);
  }

  lemma GrowsBy(xs: seq<real>, v: real)
    ensures SqDev(xs + [v]) == SqDev(xs) + GrowBy(v, Mean(xs), Mean(xs + [v]))
  {
    MeanBalances(xs);
    MeanBalances(xs + [v]);
    GrowsFrom(xs, v, Mean(xs), Mean(xs + [v]));
  }

  lemma GrowsFrom(xs: seq<real>, v: real, b: real, a: real)
    requires Balances(MomentsOf(xs), b) && Balances(MomentsOf(xs + [v]), a)
    ensures Spread(xs + [v], a) == Spread(xs, b) + GrowBy(v, b, a)
  {
    SpreadIs(xs, b);
    SpreadIs(xs + [v], a);
    MomentsAppend(xs, v);
    GrowStep(MomentsOf(xs), b, a, v);
  }

  lemma SlideTerms(q: real, n: real, b: real, a: real, v: real, e: real)
    requires n * a == n * b + v - e
    ensures (q - e * e + v * v) - n * (a * a) == (q - n * (b * b)) + SlideBy(v, e, b, a)
  {
    var na, nb, gap := n * a, n * b, v - e;
    assert n * (a * a) == na * a && n * (b * b) == nb * b;
    assert gap * (v - a + e - b) == gap * v + gap * e - gap * a - gap * b;
    assert gap * v + gap * e == v * v - e * e;
    assert gap * a == na * a - nb * a;
    assert gap * b == na * b - nb * b;
    assert na * b == nb * a;
  }

  lemma SameCount(n: real, up: real, a: real)
    requires up == n
    ensures up * a == n * a && up * (a * a) == n * (a * a)
  {
  }

  /** Sliding: the difference of the two values times the sum of their distances. */
  lemma SlideStep(m: Moments, b: real, a: real, v: real, e: real)
    requires Balances(m, b) && Balances(Added(Removed(m, e), v), a)
    ensures Centered(Added(Removed(m, e), v), a) == Centered(m, b) + SlideBy(v, e, b, a)
  {
    SameCount(m.n, Added(Removed(m, e), v).n, a);
    SlideTerms(m.squares, m.n, b, a, v, e);
  }

  lemma SlidesFrom(xs: seq<real>, v: real, b: real, a: real)
    requires xs != [] && Balances(MomentsOf(xs), b) && Balances(MomentsOf(xs[1..] + [v]), a)
    ensures Spread(xs[1..] + [v], a) == Spread(xs, b) + SlideBy(v, xs[0], b, a)
  {
    SpreadIs(xs, b);
    SpreadIs(xs[1..] + [v], a);
    MomentsAppend(xs[1..], v);
    MomentsRest(xs);
    SlideStep(MomentsOf(xs), b, a, v, xs[0]);
  }

  lemma SlidesBy(xs: seq<real>, v: real)
    requires xs != []
    ensures SqDev(xs[1..] + [v]) == SqDev(xs) + SlideBy(v, xs[0], Mean(xs), Mean(xs[1..] + [v]))
  {
    MeanBalances(xs);
    MeanBalances(xs[1..] + [v]);
    SlidesFrom(xs, v, Mean(xs), Mean(xs[1..] + [v]));
  }

  /** Which is why flooring it at zero before the root changes nothing. */
  lemma {:induction false} SpreadNonNegative(xs: seq<real>, m: real)
    ensures Spread(xs, m) >= 0.0
  {
    if xs != [] {
      SpreadNonNegative(xs[..|xs| - 1], m);
      SquareNonNegative(xs[|xs| - 1] - m);
    }
  }

  lemma SquareNonNegative(x: real)
    ensures x * x >= 0.0
  {
  }

  class Window {
    const ring: Ring
    var sqDev: real

    ghost predicate Valid()
      reads this, ring, ring.values
    {
      ring.Valid() && sqDev == SqDev(Tail(ring.pushed, ring.values.Length))
    }

    constructor (size: int)
      ensures Valid() && ring.pushed == [] && ring.values.Length == Max(size, 1)
      ensures fresh(ring) && fresh(ring.values)
    {
      ring := new Ring(size);
      sqDev := 0.0;
    }

    /** The deviation after a push is the deviation of the values now in the window. */
    method Push(value: real)
      requires Valid()
      modifies this, ring, ring.values
      ensures Valid() && ring.pushed == old(ring.pushed) + [value]
    {
      var sliding, before := ring.Full(), ring.MeanOf();
      ghost var size, was := ring.values.Length, Tail(ring.pushed, ring.values.Length);
      TailGrows(ring.pushed, value, size);
      var evicted := ring.Push(value);
      var after := ring.MeanOf();
      if sliding {
        SlidesBy(was, value);
        sqDev := sqDev + SlideBy(value, evicted, before, after);
        return;
      }
      GrowsBy(was, value);
      sqDev := sqDev + GrowBy(value, before, after);
    }

    method Reset()
      requires Valid()
      modifies this, ring, ring.values
      ensures Valid() && ring.pushed == []
    {
      ring.Reset();
      sqDev := 0.0;
    }
  }
}
