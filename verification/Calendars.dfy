/** Trading sessions and the buckets a timeframe cuts them into.  Times are seconds. */
module Calendars {
  import opened Outcomes
  import opened Numbers

  datatype Timeframe = M5 | M15 | M30 | H1 | D1

  const DAY := 86400
  const BASE_BUCKET := 300

  /** The zero instant, which no stored bar carries. */
  const NEVER := -62135596800

  function Width(tf: Timeframe): int {
    match tf
    case M5 => 300
    case M15 => 900
    case M30 => 1800
    case H1 => 3600
    case D1 => 0
  }

  /** Each timeframe is a whole number of the one below it, and a day a whole number of all. */
  lemma WidthsNest()
    ensures Width(M15) == 3 * Width(M5) && Width(M30) == 2 * Width(M15) && Width(H1) == 2 * Width(M30)
    ensures 24 * Width(H1) == DAY && BASE_BUCKET == Width(M5)
    ensures BaseBars(M5) == 1 && BaseBars(M15) == 3 && BaseBars(M30) == 6 && BaseBars(H1) == 12 && BaseBars(D1) == 0
  {
  }

  predicate Intraday(tf: Timeframe) {
    tf != D1
  }

  function BaseOf(tf: Timeframe): Timeframe {
    if tf == D1 then D1 else M5
  }

  function BaseBars(tf: Timeframe): int {
    if Intraday(tf) then Width(tf) / BASE_BUCKET else 0
  }

  datatype Session = Session(open: int, close: int)

  /** The trading session of each day, if it has one. */
  datatype Calendar = Calendar(days: int -> Option<Session>)

  function SessionOf(cal: Calendar, ts: int): Option<Session> {
    cal.days(ts / DAY)
  }

  /** Every session lies within its own day, and none as far back as the zero instant. */
  ghost predicate Regular(cal: Calendar) {
    forall day :: cal.days(day).Some? ==>
      NEVER < day * DAY <= cal.days(day).value.open <= cal.days(day).value.close <= day * DAY + DAY
  }

  /** Where the bar covering `ts` opens; None outside every session. */
  function BucketOpen(cal: Calendar, tf: Timeframe, ts: int): Option<int> {
    match SessionOf(cal, ts)
    case None => None
    case Some(s) =>
      if tf == D1 then Some(s.open)
      else if ts < s.open || ts >= s.close then None
      else Some(s.open + (ts - s.open) / Width(tf) * Width(tf))
  }

  predicate InSession(cal: Calendar, ts: int) {
    SessionOf(cal, ts).Some? && SessionOf(cal, ts).value.open <= ts < SessionOf(cal, ts).value.close
  }

  function OpenAt(cal: Calendar, tf: Timeframe, ts: int): int
    requires Intraday(tf) && InSession(cal, ts)
  {
    BucketOpen(cal, tf, ts).value
  }

  /** An instant belongs to its own day's session, and is in it from the open up to the
      close; a day's one bucket opens with the session, a narrower one exists inside it only. */
  lemma SessionIsTheDays(cal: Calendar, day: int, ts: int)
    requires day * DAY <= ts < day * DAY + DAY
    ensures SessionOf(cal, ts) == cal.days(day)
    ensures InSession(cal, ts) <==> cal.days(day).Some? && cal.days(day).value.open <= ts < cal.days(day).value.close
    ensures BucketOpen(cal, D1, ts) == if cal.days(day).Some? then Some(cal.days(day).value.open) else None
    ensures forall tf :: Intraday(tf) ==> (BucketOpen(cal, tf, ts).Some? <==> InSession(cal, ts))
  {
    assert ts / DAY == day;
  }

  lemma Grid(x: int, tf: Timeframe)
    requires x >= 0 && Intraday(tf)
    ensures 0 <= x / Width(tf) * Width(tf) <= x < x / Width(tf) * Width(tf) + Width(tf)
  {
  }

  /** A bucket opens in its own session, at or before what it covers, and less than one
      width before it. */
  lemma OpenIsInSession(cal: Calendar, tf: Timeframe, ts: int)
    requires Regular(cal) && Intraday(tf) && InSession(cal, ts)
    ensures var b := OpenAt(cal, tf, ts);
      && InSession(cal, b) && SessionOf(cal, b) == SessionOf(cal, ts)
      && NEVER < b <= ts < b + Width(tf)
  {
    var s := SessionOf(cal, ts).value;
    Grid(ts - s.open, tf);
    var b := OpenAt(cal, tf, ts);
    assert ts / DAY * DAY <= s.open <= b <= ts;
    assert b / DAY == ts / DAY;
  }

  predicate Divides(fine: Timeframe, coarse: Timeframe) {
    Intraday(fine) && Intraday(coarse) && Width(coarse) % Width(fine) == 0
  }

  lemma MultiplesCancel(a: int, b: int, w: int)
    requires w > 0 && a * w < b * w
    ensures a < b
  {
  }

  lemma TwoGrids(x: int, w: int, m: int)
    requires x >= 0 && w > 0 && m > 0
    ensures x / w * w / (m * w) == x / (m * w)
  {
    var q, wide := x / w, m * w;
    var k := x / wide;
    TileOf(x, wide, k);
    TileOf(x, w, q);
    assert k * wide == (k * m) * w;
    MultiplesCancel(k * m, q + 1, w);
    MultiplesMonotone(k * m, q, w);
    TileOf(q * w, wide, k);
  }

  lemma MultiplesMonotone(a: int, b: int, w: int)
    requires a <= b && w > 0
    ensures a * w <= b * w
  {
  }

  lemma GridOfGrid(x: int, fine: Timeframe, coarse: Timeframe)
    requires x >= 0 && Divides(fine, coarse)
    ensures x / Width(fine) * Width(fine) / Width(coarse) == x / Width(coarse)
  {
    TwoGrids(x, Width(fine), Width(coarse) / Width(fine));
  }

  /** Bucketing twice, the second time coarser, is bucketing once. */
  lemma OpenOfOpen(cal: Calendar, fine: Timeframe, coarse: Timeframe, ts: int)
    requires Regular(cal) && Divides(fine, coarse) && InSession(cal, ts)
    ensures InSession(cal, OpenAt(cal, fine, ts))
    ensures OpenAt(cal, coarse, OpenAt(cal, fine, ts)) == OpenAt(cal, coarse, ts)
  {
    OpenIsInSession(cal, fine, ts);
    var s := SessionOf(cal, ts).value;
    GridOfGrid(ts - s.open, fine, coarse);
  }

  lemma GridMonotone(x: int, y: int, tf: Timeframe)
    requires 0 <= x <= y && Intraday(tf)
    ensures x / Width(tf) * Width(tf) <= y / Width(tf) * Width(tf)
  {
  }

  /** Later bars never fall in earlier buckets. */
  lemma OpenMonotone(cal: Calendar, tf: Timeframe, a: int, b: int)
    requires Regular(cal) && Intraday(tf) && a <= b && InSession(cal, a) && InSession(cal, b)
    ensures OpenAt(cal, tf, a) <= OpenAt(cal, tf, b)
    ensures OpenAt(cal, tf, a) < OpenAt(cal, tf, b) ==> a < OpenAt(cal, tf, b)
  {
    OpenIsInSession(cal, tf, a);
    OpenIsInSession(cal, tf, b);
    if a / DAY == b / DAY {
      GridMonotone(a - SessionOf(cal, a).value.open, b - SessionOf(cal, a).value.open, tf);
      if a >= OpenAt(cal, tf, b) {
        OpenOfOpen(cal, tf, tf, b);
        GridMonotone(OpenAt(cal, tf, b) - SessionOf(cal, a).value.open, a - SessionOf(cal, a).value.open, tf);
      }
    } else {
      assert a < a / DAY * DAY + DAY <= b / DAY * DAY <= SessionOf(cal, b).value.open;
    }
  }

  // ---------- the buckets of a session ----------

  function BucketCount(tf: Timeframe, s: Session): int {
    if tf == D1 then 1 else Quotient(s.close - s.open + Width(tf) - 1, Width(tf))
  }

  method SessionBuckets(tf: Timeframe, s: Session) returns (buckets: seq<int>)
    requires s.open <= s.close
    ensures |buckets| == BucketCount(tf, s)
    ensures forall i :: 0 <= i < |buckets| ==> buckets[i] == s.open + i * Width(tf)
  {
    if tf == D1 {
      return [s.open];
    }
    var count := BucketCount(tf, s);
    buckets := [];
    for i := 0 to count
      invariant |buckets| == i
      invariant forall k :: 0 <= k < i ==> buckets[k] == s.open + k * Width(tf)
    {
      buckets := buckets + [s.open + i * Width(tf)];
    }
  }

  /** They tile the session: each instant of it opens at exactly one of them, and each of
      them opens itself. */
  lemma BucketsTile(cal: Calendar, tf: Timeframe, ts: int, i: int)
    requires Regular(cal) && Intraday(tf) && InSession(cal, ts)
    ensures var s := SessionOf(cal, ts).value;
      && (OpenAt(cal, tf, ts) == s.open + i * Width(tf) <==> s.open + i * Width(tf) <= ts < s.open + (i + 1) * Width(tf))
      && (OpenAt(cal, tf, ts) == s.open + i * Width(tf) ==> 0 <= i < BucketCount(tf, s))
  {
    var x := ts - SessionOf(cal, ts).value.open;
    TileOf(x, Width(tf), i);
  }

  lemma TileOf(x: int, w: int, i: int)
    requires w > 0 && x >= 0
    ensures x / w == i <==> i * w <= x < (i + 1) * w
  {
    assert x == w * (x / w) + x % w;
    assert (i + 1) * w == i * w + w;
    MultipleBound(w, i - x / w);
    assert w * (i - x / w) == i * w - w * (x / w);
  }
}
