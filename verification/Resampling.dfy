/** Folding base bars into wider ones, bucket by bucket. */
module Resampling {
  import opened Outcomes
  import opened Numbers
  import opened Bars
  import opened Calendars

  // ---------- one bar ----------

  predicate Valid(c: Candle) {
    && c.ts != NEVER
    && c.open > 0.0 && c.high > 0.0 && c.low > 0.0 && c.close > 0.0
    && c.high >= c.low
    && c.high >= c.open && c.high >= c.close
    && c.low <= c.open && c.low <= c.close
    && (c.adjusted.Some? ==> c.adjusted.value > 0.0)
    && c.volume >= 0
  }

  /** A valid bar has a time, positive prices, its open and close within its range, and no
      negative volume. */
  lemma ValidIs(c: Candle)
    ensures Valid(c) <==>
      && c.ts != NEVER
      && 0.0 < c.low <= MinReal(c.open, c.close)
      && MaxReal(c.open, c.close) <= c.high
      && !(c.adjusted.Some? && c.adjusted.value <= 0.0)
      && !(c.volume < 0)
  {
  }

  /** A bucket's first bar. */
  function Begin(ts: int, c: Candle): Candle {
    Absorb(Candle(ts, c.open, c.high, c.low, c.close, None, 0), c)
  }

  /** One more bar of the same bucket. */
  function Absorb(current: Candle, c: Candle): Candle {
    current.(high := MaxReal(current.high, c.high),
             low := MinReal(current.low, c.low),
             close := c.close,
             volume := current.volume + c.volume,
             adjusted := if c.adjusted.Some? then c.adjusted else current.adjusted)
  }

  lemma AbsorbAssociates(a: Candle, b: Candle, c: Candle)
    ensures Absorb(Absorb(a, b), c) == Absorb(a, Absorb(b, c))
  {
  }

  lemma BeginAbsorbs(a: Candle, ts: int, c: Candle)
    ensures Absorb(a, Begin(ts, c)) == Absorb(a, c)
    ensures forall start :: Begin(start, Begin(ts, c)) == Begin(start, c)
  {
  }

  lemma AbsorbValid(a: Candle, c: Candle)
    requires Valid(a) && Valid(c)
    ensures Valid(Absorb(a, c))
  {
  }

  // ---------- the fold ----------

  predicate Ascending(base: seq<Candle>) {
    forall i, j :: 0 <= i < j < |base| ==> base[i].ts < base[j].ts
  }

  predicate Aligned(cal: Calendar, c: Candle) {
    Valid(c) && InSession(cal, c.ts) && OpenAt(cal, M5, c.ts) == c.ts
  }

  /** What folding demands of its input: valid, aligned, strictly ascending bars. */
  predicate Foldable(cal: Calendar, base: seq<Candle>) {
    Ascending(base) && forall i :: 0 <= i < |base| ==> Aligned(cal, base[i])
  }

  /** Whether the bar belongs to the bucket already open. */
  predicate Joins(cal: Calendar, tf: Timeframe, out: seq<Candle>, c: Candle)
    requires Intraday(tf) && InSession(cal, c.ts)
  {
    out != [] && out[|out| - 1].ts == OpenAt(cal, tf, c.ts)
  }

  function Extend(cal: Calendar, tf: Timeframe, out: seq<Candle>, c: Candle): seq<Candle>
    requires Intraday(tf) && InSession(cal, c.ts)
  {
    if Joins(cal, tf, out, c) then out[..|out| - 1] + [Absorb(out[|out| - 1], c)]
    else out + [Begin(OpenAt(cal, tf, c.ts), c)]
  }

  function Folded(cal: Calendar, tf: Timeframe, base: seq<Candle>): seq<Candle>
    requires Intraday(tf) && Foldable(cal, base)
  {
    if base == [] then []
    else Extend(cal, tf, Folded(cal, tf, base[..|base| - 1]), base[|base| - 1])
  }

  datatype Fault = NotResamplable | BadCandle(at: nat) | NotAscending(at: nat) | NoBucket(at: nat) | Misaligned(at: nat)

  /** Whether bar `i` may follow `prev`. */
  method Check(cal: Calendar, base: seq<Candle>, i: nat, prev: int) returns (fault: Option<Fault>)
    requires i < |base|
    ensures fault.None? <==> Aligned(cal, base[i]) && (prev == NEVER || prev < base[i].ts)
  {
    var candle := base[i];
    if !Valid(candle) {
      return Some(BadCandle(i));
    }
    if prev != NEVER && candle.ts <= prev {
      return Some(NotAscending(i));
    }
    var aligned := BucketOpen(cal, M5, candle.ts);
    if aligned.None? {
      return Some(NoBucket(i));
    }
    if aligned.value != candle.ts {
      return Some(Misaligned(i));
    }
    return None;
  }

  /** The bars so far, the open one included. */
  function Shown(out: seq<Candle>, current: Candle, open: bool): seq<Candle> {
    if open then out + [current] else out
  }

  method Resample(cal: Calendar, base: seq<Candle>, target: Timeframe) returns (r: Result<seq<Candle>, Fault>)
    ensures r.Ok? <==> Intraday(target) && Foldable(cal, base)
    ensures r.Ok? ==> r.value == Folded(cal, target, base)
  {
    if target == D1 {
      return Err(NotResamplable);
    }
    var out: seq<Candle> := [];
    var current, open, prev := Candle(0, 0.0, 0.0, 0.0, 0.0, None, 0), false, NEVER;
    for i := 0 to |base|
      invariant Foldable(cal, base[..i])
      invariant Folded(cal, target, base[..i]) == Shown(out, current, open)
      invariant open <==> i > 0
      invariant !open ==> out == []
      invariant prev == if i == 0 then NEVER else base[i - 1].ts
      invariant i > 0 ==> prev != NEVER
    {
      var candle := base[i];
      var fault := Check(cal, base, i, prev);
      if fault.Some? {
        StopsFolding(cal, base, i);
        return Err(fault.value);
      }
      prev := candle.ts;
      OneMoreFolded(cal, target, base, i);
      var start := OpenAt(cal, target, candle.ts);
      OneMoreShown(cal, target, out, current, open, candle);
      if !open || start != current.ts {
        if open {
          out := out + [current];
        }
        open := true;
        current := Candle(start, candle.open, candle.high, candle.low, candle.close, None, 0);
      }
      current := Absorb(current, candle);
    }
    assert base[..|base|] == base;
    r := Ok(if open then out + [current] else out);
  }

  lemma OneMoreShown(cal: Calendar, tf: Timeframe, out: seq<Candle>, current: Candle, open: bool, c: Candle)
    requires Intraday(tf) && InSession(cal, c.ts) && (!open ==> out == [])
    ensures var start := OpenAt(cal, tf, c.ts);
      Extend(cal, tf, Shown(out, current, open), c)
      == if open && start == current.ts then Shown(out, Absorb(current, c), true)
         else Shown(Shown(out, current, open), Begin(start, c), true)
  {
  }

  lemma StopsFolding(cal: Calendar, base: seq<Candle>, i: nat)
    requires i < |base| && !(Aligned(cal, base[i]) && (i > 0 ==> base[i - 1].ts < base[i].ts))
    ensures !Foldable(cal, base)
  {
  }

  lemma OneMoreFolded(cal: Calendar, tf: Timeframe, base: seq<Candle>, i: nat)
    requires Intraday(tf) && i < |base| && Foldable(cal, base[..i]) && Aligned(cal, base[i])
    requires i > 0 ==> base[i - 1].ts < base[i].ts
    ensures Foldable(cal, base[..i + 1])
    ensures Folded(cal, tf, base[..i + 1]) == Extend(cal, tf, Folded(cal, tf, base[..i]), base[i])
  {
    GrowsFoldable(cal, base, i);
    assert base[..i + 1][..i] == base[..i];
  }

  lemma GrowsFoldable(cal: Calendar, base: seq<Candle>, i: nat)
    requires i < |base| && Foldable(cal, base[..i]) && Aligned(cal, base[i])
    requires i > 0 ==> base[i - 1].ts < base[i].ts
    ensures Foldable(cal, base[..i + 1])
  {
    var more := base[..i + 1];
    assert more[..i] == base[..i];
    forall j, k | 0 <= j < k < |more| ensures more[j].ts < more[k].ts {
      assert j < i && more[j] == base[..i][j];
      if k == i && j < i - 1 {
        assert base[..i][j].ts < base[..i][i - 1].ts;
      } else if k < i {
        assert base[..i][j].ts < base[..i][k].ts;
      }
    }
    forall j | 0 <= j < |more| ensures Aligned(cal, more[j]) {
      if j < i {
        assert Aligned(cal, base[..i][j]);
      }
    }
  }

  lemma FoldablePrefix(cal: Calendar, base: seq<Candle>, n: nat)
    requires Foldable(cal, base) && n <= |base|
    ensures Foldable(cal, base[..n]) && Foldable(cal, base[n..])
  {
  }

  // ---------- what comes out ----------

  /** The newest bucket: it opens where the newest bar's bucket does. */
  lemma LastBucket(cal: Calendar, tf: Timeframe, base: seq<Candle>)
    requires Regular(cal) && Intraday(tf) && Foldable(cal, base) && base != []
    ensures var out := Folded(cal, tf, base);
      out != [] && out[|out| - 1].ts == OpenAt(cal, tf, base[|base| - 1].ts)
  {
  }

  lemma OpenIsAligned(cal: Calendar, tf: Timeframe, c: Candle, b: Candle)
    requires Regular(cal) && Intraday(tf) && Aligned(cal, c) && Valid(b) && b.ts == OpenAt(cal, tf, c.ts)
    ensures Aligned(cal, b)
  {
    OpenIsInSession(cal, tf, c.ts);
    BaseOfOpen(cal, tf, c.ts);
  }

  /** A wider bucket opens on the base grid. */
  lemma BaseOfOpen(cal: Calendar, tf: Timeframe, ts: int)
    requires Regular(cal) && Intraday(tf) && InSession(cal, ts)
    ensures InSession(cal, OpenAt(cal, tf, ts)) && OpenAt(cal, M5, OpenAt(cal, tf, ts)) == OpenAt(cal, tf, ts)
  {
    OpenIsInSession(cal, tf, ts);
    OnBaseGrid((ts - SessionOf(cal, ts).value.open) / Width(tf), tf);
  }

  lemma OnBaseGrid(q: int, tf: Timeframe)
    requires Intraday(tf)
    ensures q * Width(tf) / BASE_BUCKET * BASE_BUCKET == q * Width(tf)
  {
  }

  predicate BeforeBucket(cal: Calendar, tf: Timeframe, out: seq<Candle>, ts: int)
    requires Intraday(tf) && InSession(cal, ts)
  {
    forall i :: 0 <= i < |out| ==> out[i].ts <= OpenAt(cal, tf, ts)
  }

  lemma ExtendAscends(cal: Calendar, tf: Timeframe, out: seq<Candle>, c: Candle)
    requires Regular(cal) && Intraday(tf) && Aligned(cal, c) && Foldable(cal, out) && BeforeBucket(cal, tf, out, c.ts)
    ensures Foldable(cal, Extend(cal, tf, out, c)) && BeforeBucket(cal, tf, Extend(cal, tf, out, c), c.ts)
  {
    var b := OpenAt(cal, tf, c.ts);
    var next := Extend(cal, tf, out, c);
    if Joins(cal, tf, out, c) {
      AbsorbValid(out[|out| - 1], c);
    } else {
      OpenIsAligned(cal, tf, c, Begin(b, c).(ts := b));
      if out != [] {
        assert out[|out| - 1].ts < b;
      }
    }
    forall i | 0 <= i < |next| ensures Aligned(cal, next[i]) {
      if i < |next| - 1 {
        assert Aligned(cal, out[i]);
      }
    }
  }

  /** Folded bars are valid, strictly ascending and on the grid: they can be folded again. */
  lemma {:induction false} FoldedIsFoldable(cal: Calendar, tf: Timeframe, base: seq<Candle>)
    requires Regular(cal) && Intraday(tf) && Foldable(cal, base)
    ensures Foldable(cal, Folded(cal, tf, base))
    ensures base != [] ==> BeforeBucket(cal, tf, Folded(cal, tf, base), base[|base| - 1].ts)
  {
    if base != [] {
      var n := |base| - 1;
      FoldedIsFoldable(cal, tf, base[..n]);
      var out := Folded(cal, tf, base[..n]);
      if n > 0 {
        OpenMonotone(cal, tf, base[n - 1].ts, base[n].ts);
      }
      forall i | 0 <= i < |out| ensures out[i].ts <= OpenAt(cal, tf, base[n].ts) {
        assert base[..n][n - 1] == base[n - 1];
      }
      ExtendAscends(cal, tf, out, base[n]);
    }
  }

  // ---------- folding twice ----------

  lemma Reopened(cal: Calendar, fine: Timeframe, coarse: Timeframe, c: Candle, b: Candle)
    requires Regular(cal) && Divides(fine, coarse) && Aligned(cal, c) && b.ts == OpenAt(cal, fine, c.ts)
    ensures InSession(cal, b.ts) && OpenAt(cal, coarse, b.ts) == OpenAt(cal, coarse, c.ts)
  {
    OpenOfOpen(cal, fine, coarse, c.ts);
  }

  lemma JoinTwice(cal: Calendar, tf: Timeframe, rest: seq<Candle>, last: Candle, c: Candle)
    requires Intraday(tf) && InSession(cal, last.ts) && InSession(cal, c.ts)
    requires OpenAt(cal, tf, last.ts) == OpenAt(cal, tf, c.ts)
    ensures Extend(cal, tf, rest, Absorb(last, c)) == Extend(cal, tf, Extend(cal, tf, rest, last), c)
  {
    if Joins(cal, tf, rest, last) {
      AbsorbAssociates(rest[|rest| - 1], last, c);
    } else {
      AbsorbAssociates(Candle(OpenAt(cal, tf, last.ts), last.open, last.high, last.low, last.close, None, 0), last, c);
    }
  }

  lemma BeginTwice(cal: Calendar, tf: Timeframe, rest: seq<Candle>, ts: int, c: Candle)
    requires Intraday(tf) && InSession(cal, ts) && InSession(cal, c.ts)
    requires OpenAt(cal, tf, ts) == OpenAt(cal, tf, c.ts)
    ensures Extend(cal, tf, rest, Begin(ts, c)) == Extend(cal, tf, rest, c)
  {
    if rest != [] {
      BeginAbsorbs(rest[|rest| - 1], ts, c);
    }
    BeginAbsorbs(c, ts, c);
  }

  /** Adding a bar below the fine fold adds it below the coarse one. */
  lemma ExtendTwice(cal: Calendar, fine: Timeframe, coarse: Timeframe, out: seq<Candle>, c: Candle)
    requires Regular(cal) && Divides(fine, coarse) && Aligned(cal, c) && Foldable(cal, out)
    requires BeforeBucket(cal, fine, out, c.ts)
    ensures Foldable(cal, Extend(cal, fine, out, c))
    ensures Folded(cal, coarse, Extend(cal, fine, out, c)) == Extend(cal, coarse, Folded(cal, coarse, out), c)
  {
    ExtendAscends(cal, fine, out, c);
    var next := Extend(cal, fine, out, c);
    var n := |next| - 1;
    if Joins(cal, fine, out, c) {
      assert next[..n] == out[..n] && next[n] == Absorb(out[n], c);
      Reopened(cal, fine, coarse, c, out[n]);
      JoinTwice(cal, coarse, Folded(cal, coarse, out[..n]), out[n], c);
    } else {
      assert next[..n] == out && next[n] == Begin(OpenAt(cal, fine, c.ts), c);
      Reopened(cal, fine, coarse, c, next[n]);
      BeginTwice(cal, coarse, Folded(cal, coarse, out), next[n].ts, c);
    }
  }

  lemma NextBucketIsLater(cal: Calendar, tf: Timeframe, base: seq<Candle>)
    requires Regular(cal) && Intraday(tf) && Foldable(cal, base) && base != []
    ensures BeforeBucket(cal, tf, Folded(cal, tf, base[..|base| - 1]), base[|base| - 1].ts)
  {
    var n := |base| - 1;
    if n > 0 {
      FoldedIsFoldable(cal, tf, base[..n]);
      OpenMonotone(cal, tf, base[n - 1].ts, base[n].ts);
      assert base[..n][n - 1] == base[n - 1];
    }
  }

  lemma FoldingStep(cal: Calendar, fine: Timeframe, coarse: Timeframe, out: seq<Candle>, base: seq<Candle>)
    requires Regular(cal) && Divides(fine, coarse) && Foldable(cal, base) && base != []
    requires out == Folded(cal, fine, base[..|base| - 1]) && Foldable(cal, out)
    requires Folded(cal, coarse, out) == Folded(cal, coarse, base[..|base| - 1])
    ensures Foldable(cal, Folded(cal, fine, base))
    ensures Folded(cal, coarse, Folded(cal, fine, base)) == Folded(cal, coarse, base)
  {
    NextBucketIsLater(cal, fine, base);
    ExtendTwice(cal, fine, coarse, out, base[|base| - 1]);
  }

  /** Folding to a divisor timeframe and folding that again is folding directly. */
  lemma {:induction false} FoldingTwice(cal: Calendar, fine: Timeframe, coarse: Timeframe, base: seq<Candle>)
    requires Regular(cal) && Divides(fine, coarse) && Foldable(cal, base)
    ensures Foldable(cal, Folded(cal, fine, base))
    ensures Folded(cal, coarse, Folded(cal, fine, base)) == Folded(cal, coarse, base)
  {
    if base != [] {
      FoldingTwice(cal, fine, coarse, base[..|base| - 1]);
      FoldingStep(cal, fine, coarse, Folded(cal, fine, base[..|base| - 1]), base);
    }
  }

  // ---------- each bar is the fold of its bucket ----------

  function Members(cal: Calendar, tf: Timeframe, base: seq<Candle>, b: int): seq<Candle>
    requires Intraday(tf) && Foldable(cal, base)
  {
    if base == [] then []
    else
      var rest, c := Members(cal, tf, base[..|base| - 1], b), base[|base| - 1];
      if OpenAt(cal, tf, c.ts) == b then rest + [c] else rest
  }

  function Highest(bars: seq<Candle>): real
    requires bars != []
  {
    if |bars| == 1 then bars[0].high else MaxReal(Highest(bars[..|bars| - 1]), bars[|bars| - 1].high)
  }

  function Lowest(bars: seq<Candle>): real
    requires bars != []
  {
    if |bars| == 1 then bars[0].low else MinReal(Lowest(bars[..|bars| - 1]), bars[|bars| - 1].low)
  }

  function Volume(bars: seq<Candle>): int {
    if bars == [] then 0 else Volume(bars[..|bars| - 1]) + bars[|bars| - 1].volume
  }

  function NewestAdjusted(bars: seq<Candle>): Option<real> {
    if bars == [] then None
    else if bars[|bars| - 1].adjusted.Some? then bars[|bars| - 1].adjusted
    else NewestAdjusted(bars[..|bars| - 1])
  }

  /** First open, highest high, lowest low, last close, newest adjusted close, all volume. */
  function Summary(b: int, bars: seq<Candle>): Candle
    requires bars != []
  {
    Candle(b, bars[0].open, Highest(bars), Lowest(bars), bars[|bars| - 1].close, NewestAdjusted(bars), Volume(bars))
  }

  lemma SummaryGrows(b: int, bars: seq<Candle>, c: Candle)
    ensures Summary(b, [c]) == Begin(b, c)
    ensures bars != [] ==> Summary(b, bars + [c]) == Absorb(Summary(b, bars), c)
  {
    assert (bars + [c])[..|bars|] == bars;
    assert [c][..0] == [];
    assert NewestAdjusted([c]) == c.adjusted && Volume([c]) == c.volume;
  }

  predicate Covered(cal: Calendar, tf: Timeframe, out: seq<Candle>, c: Candle)
    requires Intraday(tf) && Aligned(cal, c)
  {
    exists k :: 0 <= k < |out| && out[k].ts == OpenAt(cal, tf, c.ts)
  }

  /** Every base bar has its bucket in the output. */
  lemma {:induction false} EachIsCovered(cal: Calendar, tf: Timeframe, base: seq<Candle>)
    requires Intraday(tf) && Foldable(cal, base)
    ensures forall i :: 0 <= i < |base| ==> Covered(cal, tf, Folded(cal, tf, base), base[i])
  {
    if base != [] {
      var n := |base| - 1;
      EachIsCovered(cal, tf, base[..n]);
      forall i | 0 <= i < |base| ensures Covered(cal, tf, Folded(cal, tf, base), base[i]) {
        assert i < n ==> base[..n][i] == base[i];
        ExtendCovers(cal, tf, Folded(cal, tf, base[..n]), base[n], base[i]);
      }
    }
  }

  /** Each output bar is the exact summary of the base bars of its bucket. */
  lemma {:induction false} EachIsItsBucket(cal: Calendar, tf: Timeframe, base: seq<Candle>)
    requires Regular(cal) && Intraday(tf) && Foldable(cal, base)
    ensures forall k :: 0 <= k < |Folded(cal, tf, base)| ==> Summarizes(cal, tf, base, Folded(cal, tf, base)[k])
  {
    if base != [] {
      var n := |base| - 1;
      EachIsItsBucket(cal, tf, base[..n]);
      EachIsCovered(cal, tf, base[..n]);
      FoldedIsFoldable(cal, tf, base[..n]);
      NextBucketIsLater(cal, tf, base);
      ExtendSummarizes(cal, tf, base, Folded(cal, tf, base[..n]));
    }
  }

  lemma ExtendCovers(cal: Calendar, tf: Timeframe, out: seq<Candle>, c: Candle, x: Candle)
    requires Intraday(tf) && Aligned(cal, c) && Aligned(cal, x) && (x == c || Covered(cal, tf, out, x))
    ensures Covered(cal, tf, Extend(cal, tf, out, c), x)
  {
    var next := Extend(cal, tf, out, c);
    if x == c {
      assert next[|next| - 1].ts == OpenAt(cal, tf, c.ts);
    } else {
      var k :| 0 <= k < |out| && out[k].ts == OpenAt(cal, tf, x.ts);
      assert next[k].ts == out[k].ts;
    }
  }

  predicate Summarizes(cal: Calendar, tf: Timeframe, base: seq<Candle>, bar: Candle)
    requires Intraday(tf) && Foldable(cal, base)
  {
    Members(cal, tf, base, bar.ts) != [] && bar == Summary(bar.ts, Members(cal, tf, base, bar.ts))
  }

  lemma ExtendSummarizes(cal: Calendar, tf: Timeframe, base: seq<Candle>, out: seq<Candle>)
    requires Regular(cal) && Intraday(tf) && Foldable(cal, base) && base != [] && Ascending(out)
    requires var before := base[..|base| - 1];
      && (forall k :: 0 <= k < |out| ==> Summarizes(cal, tf, before, out[k]))
      && (forall i :: 0 <= i < |before| ==> Covered(cal, tf, out, before[i]))
      && BeforeBucket(cal, tf, out, base[|base| - 1].ts)
    ensures var next := Extend(cal, tf, out, base[|base| - 1]);
      forall k :: 0 <= k < |next| ==> Summarizes(cal, tf, base, next[k])
  {
    var n := |base| - 1;
    var before, c := base[..n], base[n];
    var b, next := OpenAt(cal, tf, c.ts), Extend(cal, tf, out, c);
    SummaryGrows(b, Members(cal, tf, before, b), c);
    if !Joins(cal, tf, out, c) {
      NoMembers(cal, tf, before, out, b);
    }
    forall k | 0 <= k < |next| ensures Summarizes(cal, tf, base, next[k]) {
      if k < |next| - 1 {
        assert Summarizes(cal, tf, before, out[k]);
        assert next[k] == out[k] && out[k].ts != b;
      }
    }
  }

  lemma {:induction false} NoMembers(cal: Calendar, tf: Timeframe, base: seq<Candle>, out: seq<Candle>, b: int)
    requires Intraday(tf) && Foldable(cal, base)
    requires forall i :: 0 <= i < |base| ==> Covered(cal, tf, out, base[i])
    requires forall k :: 0 <= k < |out| ==> out[k].ts != b
    ensures Members(cal, tf, base, b) == []
  {
    if base != [] {
      var n := |base| - 1;
      assert Covered(cal, tf, out, base[n]);
      forall i | 0 <= i < n ensures Covered(cal, tf, out, base[..n][i]) {
        assert base[..n][i] == base[i];
      }
      NoMembers(cal, tf, base[..n], out, b);
    }
  }

  datatype Totals = Untraded | Totals(volume: int, high: real, low: real)

  function TotalsOf(bars: seq<Candle>): Totals {
    if bars == [] then Untraded else Totals(Volume(bars), Highest(bars), Lowest(bars))
  }

  function Plus(t: Totals, c: Candle): Totals {
    if t.Untraded? then Totals(c.volume, c.high, c.low)
    else Totals(t.volume + c.volume, MaxReal(t.high, c.high), MinReal(t.low, c.low))
  }

  /** Nothing traded is lost: all the volume, the highest high and the lowest low. */
  lemma {:induction false} TotalsPreserved(cal: Calendar, tf: Timeframe, base: seq<Candle>)
    requires Regular(cal) && Intraday(tf) && Foldable(cal, base)
    ensures TotalsOf(Folded(cal, tf, base)) == TotalsOf(base)
  {
    if base != [] {
      var rest, c := base[..|base| - 1], base[|base| - 1];
      TotalsPreserved(cal, tf, rest);
      TotalsStep(cal, tf, Folded(cal, tf, rest), rest, c);
      assert base == rest + [c];
    }
  }

  lemma TotalsStep(cal: Calendar, tf: Timeframe, out: seq<Candle>, base: seq<Candle>, c: Candle)
    requires Intraday(tf) && InSession(cal, c.ts) && TotalsOf(out) == TotalsOf(base)
    ensures TotalsOf(Extend(cal, tf, out, c)) == TotalsOf(base + [c])
  {
    TotalsExtend(cal, tf, out, c);
    TotalsAppend(base, c);
  }

  lemma TotalsExtend(cal: Calendar, tf: Timeframe, out: seq<Candle>, c: Candle)
    requires Intraday(tf) && InSession(cal, c.ts)
    ensures TotalsOf(Extend(cal, tf, out, c)) == Plus(TotalsOf(out), c)
  {
    if Joins(cal, tf, out, c) {
      TotalsAbsorb(out, c);
    } else {
      TotalsAppend(out, Begin(OpenAt(cal, tf, c.ts), c));
    }
  }

  lemma TotalsAppend(out: seq<Candle>, bar: Candle)
    ensures TotalsOf(out + [bar]) == Plus(TotalsOf(out), bar)
  {
    assert (out + [bar])[..|out|] == out;
    if out == [] {
      assert out + [bar] == [bar];
      assert Volume([bar]) == Volume([bar][..0]) + bar.volume;
    }
  }

  lemma TotalsAbsorb(out: seq<Candle>, c: Candle)
    requires out != []
    ensures TotalsOf(out[..|out| - 1] + [Absorb(out[|out| - 1], c)]) == Plus(TotalsOf(out), c)
  {
    var rest, last := out[..|out| - 1], out[|out| - 1];
    TotalsAppend(rest, Absorb(last, c));
    TotalsAppend(rest, last);
    assert out == rest + [last];
  }
}
