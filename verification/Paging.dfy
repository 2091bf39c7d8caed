/** Paging backwards through stored bars, cut so that no folded bar is ever split. */
module Paging {
  import opened Outcomes
  import opened Bars
  import opened Calendars
  import opened Resampling

  const DEFAULT_PAGE_LIMIT := 1000
  const MAX_PAGE_LIMIT := 5000
  const MAX_INT32 := 2147483647

  /** What is asked for; `before` is the cursor of the page that was read last. */
  datatype Request = Request(tf: Timeframe, from: int, to: int, before: Option<int>, limit: int)

  datatype Page = Page(start: int, end: int, candles: seq<Candle>, cursor: Option<int>, more: bool)

  function ClampPageLimit(limit: int): (r: int)
    ensures 1 <= r <= MAX_PAGE_LIMIT
  {
    if limit < 1 then DEFAULT_PAGE_LIMIT else if limit > MAX_PAGE_LIMIT then MAX_PAGE_LIMIT else limit
  }

  function BaseRowCap(tf: Timeframe, limit: int): int {
    var rows := if tf != BaseOf(tf) then limit * BaseBars(tf) + 1 else limit + 1;
    if rows < 1 || rows > MAX_INT32 then MAX_INT32 else rows
  }

  function StartOf(req: Request): int {
    req.from / DAY * DAY
  }

  function EndOf(req: Request): int {
    var end := req.to / DAY * DAY + DAY;
    if req.before.Some? && req.before.value < end then req.before.value else end
  }

  /** A page asks for what was asked, within 1 and 5000, or for 1000. */
  lemma PageLimits(limit: int)
    ensures limit < 1 ==> ClampPageLimit(limit) == 1000
    ensures 1 <= limit <= 5000 ==> ClampPageLimit(limit) == limit
    ensures limit > 5000 ==> ClampPageLimit(limit) == 5000
  {
  }

  /** A read fetches a row more than the page can need, as far as 32 bits count. */
  lemma RowCapIs(tf: Timeframe, limit: int)
    requires limit >= 1
    ensures 1 <= BaseRowCap(tf, limit) < 0x8000_0000
    ensures var needed := if tf == M5 || tf == D1 then limit else limit * (Width(tf) / Width(M5));
      needed < 0x7fff_ffff ==> BaseRowCap(tf, limit) == needed + 1
  {
  }

  /** A window is whole days, the first and the last asked for included, up to the cursor. */
  lemma WindowIsWholeDays(req: Request, ts: int)
    ensures StartOf(req) <= req.from < StartOf(req) + 86400 && StartOf(req) % 86400 == 0
    ensures req.before.None? ==> EndOf(req) - 86400 <= req.to < EndOf(req) && EndOf(req) % 86400 == 0
    ensures ts < EndOf(req) <==> ts < EndOf(req.(before := None)) && (req.before.Some? ==> ts < req.before.value)
  {
  }

  // ---------- the stored rows ----------

  /** The rows of a window, oldest first. */
  function Window(stored: seq<Candle>, start: int, end: int): seq<Candle> {
    if stored == [] then []
    else
      var rest, c := Window(stored[..|stored| - 1], start, end), stored[|stored| - 1];
      if start <= c.ts < end then rest + [c] else rest
  }

  function Last(rows: seq<Candle>, n: int): seq<Candle> {
    if 0 <= n < |rows| then rows[|rows| - n..] else rows
  }

  /** The newest `limit` rows of the window, newest first. */
  method ListDesc(stored: seq<Candle>, start: int, end: int, limit: int) returns (rows: seq<Candle>)
    requires Ascending(stored) && limit >= 0
    ensures |rows| == |Last(Window(stored, start, end), limit)|
    ensures forall i :: 0 <= i < |rows| ==> rows[i] == Last(Window(stored, start, end), limit)[|rows| - 1 - i]
  {
    var all := Window(stored, start, end);
    var kept := Last(all, limit);
    rows := seq(|kept|, i requires 0 <= i < |kept| => kept[|kept| - 1 - i]);
  }

  method Reverse(rows: seq<Candle>) returns (r: seq<Candle>)
    ensures |r| == |rows| && forall i :: 0 <= i < |r| ==> r[i] == rows[|rows| - 1 - i]
  {
    r := seq(|rows|, i requires 0 <= i < |rows| => rows[|rows| - 1 - i]);
  }

  /** The bars of a timeframe: stored ones as they are, the others folded. */
  function View(cal: Calendar, tf: Timeframe, rows: seq<Candle>): seq<Candle>
    requires tf != BaseOf(tf) ==> Foldable(cal, rows)
  {
    if tf == BaseOf(tf) then rows else Folded(cal, tf, rows)
  }

  /** Rows a page can be cut from: in order, and foldable where folding is needed. */
  predicate Readable(cal: Calendar, tf: Timeframe, rows: seq<Candle>) {
    Ascending(rows) && (tf != BaseOf(tf) ==> Foldable(cal, rows))
  }

  // ---------- one page ----------

  /** The oldest folded bar goes when rows may be missing before it, then all but the
      newest `limit`. */
  function Trimmed(folded: seq<Candle>, limit: int, truncated: bool): (kept: seq<Candle>)
    requires limit >= 1
  {
    Last(if truncated && folded != [] then folded[1..] else folded, limit)
  }

  method TrimPage(start: int, end: int, folded: seq<Candle>, limit: int, truncated: bool) returns (page: Page)
    requires limit >= 1
    ensures page.start == start && page.end == end
    ensures page.candles == Trimmed(folded, limit, truncated)
    ensures page.more <==> page.candles != folded
    ensures page.cursor == if page.more && page.candles != [] then Some(page.candles[0].ts) else None
  {
    var candles, more := folded, false;
    if truncated && candles != [] {
      candles, more := candles[1..], true;
    }
    if |candles| > limit {
      candles, more := candles[|candles| - limit..], true;
    }
    var cursor := if more && candles != [] then Some(candles[0].ts) else None;
    page := Page(start, end, candles, cursor, more);
  }

  lemma LastReadable(cal: Calendar, tf: Timeframe, rows: seq<Candle>, n: int)
    requires Readable(cal, tf, rows)
    ensures Readable(cal, tf, Last(rows, n))
  {
  }

  lemma WindowReadable(cal: Calendar, tf: Timeframe, stored: seq<Candle>, start: int, end: int)
    requires Readable(cal, tf, stored)
    ensures Readable(cal, tf, Window(stored, start, end))
    ensures forall c :: c in Window(stored, start, end) <==> c in stored && start <= c.ts < end
  {
    if stored != [] {
      var n := |stored| - 1;
      WindowReadable(cal, tf, stored[..n], start, end);
      assert stored == stored[..n] + [stored[n]];
      forall c | c in Window(stored[..n], start, end) ensures c.ts < stored[n].ts {
        assert c in stored[..n];
      }
    }
  }

  function Fetched(stored: seq<Candle>, req: Request): seq<Candle> {
    Last(Window(stored, StartOf(req), EndOf(req)), BaseRowCap(req.tf, ClampPageLimit(req.limit)))
  }

  method ReadPage(cal: Calendar, stored: seq<Candle>, req: Request) returns (r: Result<Page, Fault>)
    requires Ascending(stored)
    ensures r.Ok? <==> EndOf(req) <= StartOf(req) || Readable(cal, req.tf, Fetched(stored, req))
    ensures r.Ok? && EndOf(req) <= StartOf(req) ==> r.value.candles == [] && !r.value.more
    ensures r.Ok? && EndOf(req) > StartOf(req) ==>
      var folded, limit := View(cal, req.tf, Fetched(stored, req)), ClampPageLimit(req.limit);
      && r.value.candles == Trimmed(folded, limit, |Fetched(stored, req)| == BaseRowCap(req.tf, limit))
      && (r.value.more <==> r.value.candles != folded)
      && (r.value.more && r.value.candles != [] ==> r.value.cursor == Some(r.value.candles[0].ts))
  {
    var limit := ClampPageLimit(req.limit);
    var start, end := StartOf(req), EndOf(req);
    if end <= start {
      return Ok(Page(start, end, [], None, false));
    }
    var rowCap := BaseRowCap(req.tf, limit);
    var rows := ListDesc(stored, start, end, rowCap);
    var candles := Reverse(rows);
    assert candles == Fetched(stored, req);
    WindowReadable(cal, D1, stored, start, end);
    LastReadable(cal, D1, Window(stored, start, end), rowCap);
    var folded := candles;
    if req.tf != BaseOf(req.tf) {
      folded :- Resample(cal, candles, req.tf);
    }
    var page := TrimPage(start, end, folded, limit, |rows| == rowCap);
    if page.more && page.cursor.None? && candles != [] {
      page := page.(cursor := Some(candles[0].ts));
    }
    return Ok(page);
  }

  // ---------- a page is the newest part of everything ----------

  /** `part` is how `all` ends, but for its own first bar, which may be missing rows. */
  predicate EndsAlike(all: seq<Candle>, part: seq<Candle>) {
    && 1 <= |part| <= |all|
    && all[|all| - |part|].ts == part[0].ts
    && forall k :: 1 <= k < |part| ==> part[k] == all[|all| - |part| + k]
  }

  lemma AppendAlike(all: seq<Candle>, part: seq<Candle>, c: Candle)
    requires EndsAlike(all, part)
    ensures EndsAlike(all + [c], part + [c])
  {
  }

  lemma ReplaceAlike(all: seq<Candle>, part: seq<Candle>, c: Candle, d: Candle)
    requires EndsAlike(all, part) && c.ts == all[|all| - 1].ts && d.ts == part[|part| - 1].ts
    requires |part| > 1 ==> c == d
    ensures EndsAlike(all[..|all| - 1] + [c], part[..|part| - 1] + [d])
  {
  }

  lemma ExtendAlike(cal: Calendar, tf: Timeframe, all: seq<Candle>, part: seq<Candle>, c: Candle)
    requires Intraday(tf) && InSession(cal, c.ts) && EndsAlike(all, part)
    ensures EndsAlike(Extend(cal, tf, all, c), Extend(cal, tf, part, c))
  {
    assert |part| > 1 ==> part[|part| - 1] == all[|all| - 1];
    if Joins(cal, tf, all, c) {
      ReplaceAlike(all, part, Absorb(all[|all| - 1], c), Absorb(part[|part| - 1], c));
    } else {
      AppendAlike(all, part, Begin(OpenAt(cal, tf, c.ts), c));
    }
  }

  lemma {:induction false} FoldedEndsAlike(cal: Calendar, tf: Timeframe, base: seq<Candle>, n: nat)
    requires Regular(cal) && Intraday(tf) && Foldable(cal, base) && n < |base|
    ensures Foldable(cal, base[n..]) && EndsAlike(Folded(cal, tf, base), Folded(cal, tf, base[n..]))
    decreases |base|
  {
    var last := |base| - 1;
    FoldablePrefix(cal, base, n);
    FoldablePrefix(cal, base, last);
    if n == last {
      OneRow(cal, tf, base[n..]);
      LastBucket(cal, tf, base);
    } else {
      FoldedEndsAlike(cal, tf, base[..last], n);
      var part := base[n..];
      assert base[..last][n..] == part[..last - n] && part[last - n] == base[last];
      GrowAlike(cal, tf, base, part);
    }
  }

  lemma GrowAlike(cal: Calendar, tf: Timeframe, base: seq<Candle>, part: seq<Candle>)
    requires Intraday(tf) && Foldable(cal, base) && Foldable(cal, part) && base != [] && part != []
    requires base[|base| - 1] == part[|part| - 1]
    requires EndsAlike(Folded(cal, tf, base[..|base| - 1]), Folded(cal, tf, part[..|part| - 1]))
    ensures EndsAlike(Folded(cal, tf, base), Folded(cal, tf, part))
  {
    var all, some := Folded(cal, tf, base[..|base| - 1]), Folded(cal, tf, part[..|part| - 1]);
    ExtendAlike(cal, tf, all, some, base[|base| - 1]);
  }

  lemma OneRow(cal: Calendar, tf: Timeframe, base: seq<Candle>)
    requires Intraday(tf) && Foldable(cal, base) && |base| == 1
    ensures Folded(cal, tf, base) == [Begin(OpenAt(cal, tf, base[0].ts), base[0])]
  {
    assert base[..0] == [];
  }

  // ---------- a bucket holds only so many rows ----------

  lemma BaseStep(cal: Calendar, tf: Timeframe, a: Candle, b: Candle)
    requires Regular(cal) && Intraday(tf) && Aligned(cal, a) && Aligned(cal, b) && a.ts < b.ts
    requires OpenAt(cal, tf, a.ts) == OpenAt(cal, tf, b.ts)
    ensures b.ts >= a.ts + BASE_BUCKET
  {
    OpenIsInSession(cal, tf, a.ts);
    OpenIsInSession(cal, tf, b.ts);
    var s := SessionOf(cal, a.ts).value;
    GridApart(a.ts - s.open, b.ts - s.open);
  }

  lemma GridApart(x: int, y: int)
    requires 0 <= x < y && x / BASE_BUCKET * BASE_BUCKET == x && y / BASE_BUCKET * BASE_BUCKET == y
    ensures y >= x + BASE_BUCKET
  {
  }

  /** The most rows `k` buckets can hold. */
  function Room(tf: Timeframe, k: int): int {
    match tf
    case M5 => k
    case M15 => 3 * k
    case M30 => 6 * k
    case H1 => 12 * k
    case D1 => 0
  }

  lemma RoomIs(tf: Timeframe, k: int)
    ensures Room(tf, k) == k * BaseBars(tf)
  {
  }

  /** `m` of the `n` rows, the last at `ts`, are in the newest bucket. */
  predicate Dense(tf: Timeframe, out: seq<Candle>, ts: int, n: int, m: int) {
    && out != []
    && 1 <= m <= Room(tf, 1)
    && ts >= out[|out| - 1].ts + BASE_BUCKET * (m - 1)
    && n <= Room(tf, |out| - 1) + m
  }

  /** A bucket's rows never outnumber the base slots it covers. */
  lemma {:induction false} FoldIsDense(cal: Calendar, tf: Timeframe, base: seq<Candle>) returns (m: int)
    requires Regular(cal) && Intraday(tf) && Foldable(cal, base) && base != []
    ensures Dense(tf, Folded(cal, tf, base), base[|base| - 1].ts, |base|, m)
  {
    var n := |base| - 1;
    if n == 0 {
      OneRow(cal, tf, base);
      OpenIsInSession(cal, tf, base[0].ts);
      m := 1;
    } else {
      FoldablePrefix(cal, base, n);
      var before := FoldIsDense(cal, tf, base[..n]);
      LastBucket(cal, tf, base[..n]);
      m := DenseStep(cal, tf, Folded(cal, tf, base[..n]), base[n - 1], base[n], n, before);
    }
  }

  lemma DenseStep(cal: Calendar, tf: Timeframe, out: seq<Candle>, last: Candle, c: Candle, n: nat, before: int) returns (m: int)
    requires Regular(cal) && Intraday(tf) && Aligned(cal, last) && Aligned(cal, c) && last.ts < c.ts
    requires Dense(tf, out, last.ts, n, before) && out[|out| - 1].ts == OpenAt(cal, tf, last.ts)
    ensures Dense(tf, Extend(cal, tf, out, c), c.ts, n + 1, m)
  {
    OpenIsInSession(cal, tf, c.ts);
    if Joins(cal, tf, out, c) {
      BaseStep(cal, tf, last, c);
      m := before + 1;
    } else {
      m := 1;
    }
  }

  lemma FullFetchFillsPage(cal: Calendar, tf: Timeframe, base: seq<Candle>, limit: int)
    requires Regular(cal) && Intraday(tf) && Foldable(cal, base) && limit >= 1 && |base| == limit * BaseBars(tf) + 1
    ensures |Folded(cal, tf, base)| >= limit + 1
  {
    RoomIs(tf, limit);
    var m := FoldIsDense(cal, tf, base);
  }

  // ---------- what one page holds ----------

  lemma ViewEndsAlike(cal: Calendar, tf: Timeframe, rows: seq<Candle>, n: nat)
    requires Regular(cal) && Readable(cal, tf, rows) && n < |rows|
    ensures Readable(cal, tf, rows[n..]) && EndsAlike(View(cal, tf, rows), View(cal, tf, rows[n..]))
  {
    if tf != BaseOf(tf) {
      FoldedEndsAlike(cal, tf, rows, n);
    }
  }

  lemma FullFetch(cal: Calendar, tf: Timeframe, rows: seq<Candle>, limit: int)
    requires Regular(cal) && Readable(cal, tf, rows) && 1 <= limit <= MAX_PAGE_LIMIT && |rows| == BaseRowCap(tf, limit)
    ensures |View(cal, tf, rows)| >= limit + 1
  {
    if tf != BaseOf(tf) {
      RoomIs(tf, limit);
      FullFetchFillsPage(cal, tf, rows, limit);
    }
  }

  lemma ViewEmpty(cal: Calendar, tf: Timeframe, rows: seq<Candle>)
    requires Regular(cal) && Readable(cal, tf, rows)
    ensures View(cal, tf, rows) == [] <==> rows == []
  {
    if tf != BaseOf(tf) && rows != [] {
      LastBucket(cal, tf, rows);
    }
  }

  ghost function Kept(cal: Calendar, tf: Timeframe, rows: seq<Candle>, limit: int): seq<Candle>
    requires limit >= 1 && Readable(cal, tf, rows)
  {
    var fetched := Last(rows, BaseRowCap(tf, limit));
    LastReadable(cal, tf, rows, BaseRowCap(tf, limit));
    Trimmed(View(cal, tf, fetched), limit, |fetched| == BaseRowCap(tf, limit))
  }

  ghost predicate More(cal: Calendar, tf: Timeframe, rows: seq<Candle>, limit: int)
    requires limit >= 1 && Readable(cal, tf, rows)
  {
    LastReadable(cal, tf, rows, BaseRowCap(tf, limit));
    Kept(cal, tf, rows, limit) != View(cal, tf, Last(rows, BaseRowCap(tf, limit)))
  }

  /** `kept` is the newest part of `all`: a full page of it, or the whole of it. */
  predicate NewestOf(all: seq<Candle>, kept: seq<Candle>, more: bool, limit: int) {
    && |kept| <= |all|
    && kept == all[|all| - |kept|..]
    && (if more then |kept| == limit < |all| else kept == all)
  }

  lemma FullPageIsNewest(cal: Calendar, tf: Timeframe, rows: seq<Candle>, limit: int, cap: int)
    requires Regular(cal) && Readable(cal, tf, rows) && 1 <= limit <= MAX_PAGE_LIMIT
    requires cap == BaseRowCap(tf, limit) && 0 < cap <= |rows| && Readable(cal, tf, Last(rows, cap))
    ensures var kept := Trimmed(View(cal, tf, Last(rows, cap)), limit, true);
      kept != View(cal, tf, Last(rows, cap)) && NewestOf(View(cal, tf, rows), kept, true, limit)
  {
    var fetched := Last(rows, cap);
    assert fetched == rows[|rows| - cap..];
    FullFetch(cal, tf, fetched, limit);
    ViewEndsAlike(cal, tf, rows, |rows| - cap);
    TrimOfEnd(View(cal, tf, rows), View(cal, tf, fetched), limit);
  }

  /** A page holds the newest bars of everything in its window, whole ones only: exactly
      `limit` of them when it says there is more, and all of them when it does not. */
  lemma PageIsNewest(cal: Calendar, tf: Timeframe, rows: seq<Candle>, limit: int)
    requires Regular(cal) && Readable(cal, tf, rows) && 1 <= limit <= MAX_PAGE_LIMIT
    ensures NewestOf(View(cal, tf, rows), Kept(cal, tf, rows, limit), More(cal, tf, rows, limit), limit)
  {
    var cap := BaseRowCap(tf, limit);
    RoomIs(tf, limit);
    LastReadable(cal, tf, rows, cap);
    if |rows| >= cap {
      FullPageIsNewest(cal, tf, rows, limit, cap);
    } else {
      TrimOfAll(View(cal, tf, rows), limit);
    }
  }

  lemma TrimOfAll(all: seq<Candle>, limit: int)
    requires limit >= 1
    ensures var kept := Trimmed(all, limit, false);
      NewestOf(all, kept, kept != all, limit)
  {
  }

  lemma TrimOfEnd(all: seq<Candle>, folded: seq<Candle>, limit: int)
    requires EndsAlike(all, folded) && |folded| >= limit + 1 && limit >= 1
    ensures var kept := Trimmed(folded, limit, true);
      kept != folded && NewestOf(all, kept, true, limit)
  {
    var kept := Trimmed(folded, limit, true);
    assert |kept| == limit;
    forall k | 0 <= k < limit ensures kept[k] == all[|all| - limit + k] {
      assert kept[k] == folded[|folded| - limit + k];
    }
  }

  // ---------- following the cursor ----------

  /** The rows below a bar of the view fold into exactly the bars below it. */
  lemma {:induction false} BelowABucket(cal: Calendar, tf: Timeframe, rows: seq<Candle>, start: int, idx: nat)
    requires Regular(cal) && Intraday(tf) && Foldable(cal, rows) && forall i :: 0 <= i < |rows| ==> start <= rows[i].ts
    requires idx < |Folded(cal, tf, rows)|
    ensures Below(cal, tf, rows, start, Folded(cal, tf, rows), idx)
  {
    var n := |rows| - 1;
    FoldablePrefix(cal, rows, n);
    CutIsEarlier(cal, tf, rows, idx);
    if idx < |Folded(cal, tf, rows[..n])| {
      BelowABucket(cal, tf, rows[..n], start, idx);
      BelowGrows(cal, tf, rows, start, Folded(cal, tf, rows[..n]), idx);
    } else {
      BelowNewBucket(cal, tf, rows, start);
    }
  }

  predicate Below(cal: Calendar, tf: Timeframe, rows: seq<Candle>, start: int, all: seq<Candle>, idx: nat)
    requires Intraday(tf) && idx < |all|
  {
    var below := Window(rows, start, all[idx].ts);
    Foldable(cal, below) && Folded(cal, tf, below) == all[..idx]
  }

  lemma CutIsEarlier(cal: Calendar, tf: Timeframe, rows: seq<Candle>, idx: nat)
    requires Regular(cal) && Intraday(tf) && Foldable(cal, rows) && idx < |Folded(cal, tf, rows)|
    ensures rows != [] && Folded(cal, tf, rows)[idx].ts <= rows[|rows| - 1].ts
  {
    FoldedIsFoldable(cal, tf, rows);
    LastBucket(cal, tf, rows);
    OpenIsInSession(cal, tf, rows[|rows| - 1].ts);
  }

  lemma BelowGrows(cal: Calendar, tf: Timeframe, rows: seq<Candle>, start: int, out: seq<Candle>, idx: nat)
    requires Intraday(tf) && rows != [] && idx < |out| && Below(cal, tf, rows[..|rows| - 1], start, out, idx)
    requires var c := rows[|rows| - 1]; InSession(cal, c.ts) && Extend(cal, tf, out, c)[idx].ts <= c.ts
    ensures Below(cal, tf, rows, start, Extend(cal, tf, out, rows[|rows| - 1]), idx)
  {
    var all := Extend(cal, tf, out, rows[|rows| - 1]);
    assert all[idx].ts == out[idx].ts && all[..idx] == out[..idx];
  }

  lemma BelowNewBucket(cal: Calendar, tf: Timeframe, rows: seq<Candle>, start: int)
    requires Regular(cal) && Intraday(tf) && Foldable(cal, rows) && rows != []
    requires forall i :: 0 <= i < |rows| ==> start <= rows[i].ts
    requires !Joins(cal, tf, Folded(cal, tf, rows[..|rows| - 1]), rows[|rows| - 1])
    ensures var all := Folded(cal, tf, rows);
      all != [] && Below(cal, tf, rows, start, all, |all| - 1)
  {
    var n := |rows| - 1;
    var before, cut := rows[..n], OpenAt(cal, tf, rows[n].ts);
    FoldablePrefix(cal, rows, n);
    OpenIsInSession(cal, tf, rows[n].ts);
    forall i | 0 <= i < n ensures before[i].ts < cut {
      EarlierBucket(cal, tf, rows, i);
      OpenMonotone(cal, tf, rows[i].ts, rows[n].ts);
    }
    WholeWindow(before, start, cut);
    var out := Folded(cal, tf, before);
    assert Folded(cal, tf, rows)[..|out|] == out;
  }

  /** When the newest bar opened a bucket of its own, no earlier bar is in that bucket. */
  lemma EarlierBucket(cal: Calendar, tf: Timeframe, rows: seq<Candle>, i: nat)
    requires Regular(cal) && Intraday(tf) && Foldable(cal, rows) && i < |rows| - 1
    requires !Joins(cal, tf, Folded(cal, tf, rows[..|rows| - 1]), rows[|rows| - 1])
    ensures OpenAt(cal, tf, rows[i].ts) < OpenAt(cal, tf, rows[|rows| - 1].ts)
  {
    var n := |rows| - 1;
    FoldablePrefix(cal, rows, n);
    LastBucket(cal, tf, rows[..n]);
    OpenMonotone(cal, tf, rows[n - 1].ts, rows[n].ts);
    OpenMonotone(cal, tf, rows[i].ts, rows[n - 1].ts);
  }

  lemma WholeWindow(rows: seq<Candle>, start: int, cut: int)
    requires forall i :: 0 <= i < |rows| ==> start <= rows[i].ts < cut
    ensures Window(rows, start, cut) == rows
  {
    if rows != [] {
      WholeWindow(rows[..|rows| - 1], start, cut);
      assert rows == rows[..|rows| - 1] + [rows[|rows| - 1]];
    }
  }

  lemma {:induction false} BelowARow(rows: seq<Candle>, start: int, idx: nat)
    requires Ascending(rows) && idx < |rows| && forall i :: 0 <= i < |rows| ==> start <= rows[i].ts
    ensures Window(rows, start, rows[idx].ts) == rows[..idx]
  {
    var n := |rows| - 1;
    if idx == n {
      WholeWindow(rows[..n], start, rows[n].ts);
    } else {
      BelowARow(rows[..n], start, idx);
      assert rows[..n][..idx] == rows[..idx];
    }
  }

  lemma BelowABar(cal: Calendar, tf: Timeframe, rows: seq<Candle>, start: int, idx: nat)
    requires Regular(cal) && Readable(cal, tf, rows) && forall i :: 0 <= i < |rows| ==> start <= rows[i].ts
    requires idx < |View(cal, tf, rows)|
    ensures var below := Window(rows, start, View(cal, tf, rows)[idx].ts);
      Readable(cal, tf, below) && View(cal, tf, below) == View(cal, tf, rows)[..idx]
  {
    if tf == BaseOf(tf) {
      BelowARow(rows, start, idx);
    } else {
      BelowABucket(cal, tf, rows, start, idx);
    }
  }

  lemma WindowNested(stored: seq<Candle>, start: int, end: int, cut: int)
    requires cut <= end
    ensures Window(Window(stored, start, end), start, cut) == Window(stored, start, cut)
  {
    if stored != [] {
      var rest, c := stored[..|stored| - 1], stored[|stored| - 1];
      WindowNested(rest, start, end, cut);
      if start <= c.ts < end {
        assert (Window(rest, start, end) + [c])[..|Window(rest, start, end)|] == Window(rest, start, end);
      }
    }
  }

  function Joined(pages: seq<seq<Candle>>): seq<Candle> {
    if pages == [] then [] else pages[0] + Joined(pages[1..])
  }

  /** What a page with more behind it leaves to be read. */
  lemma PageSteps(cal: Calendar, tf: Timeframe, rows: seq<Candle>, start: int, end: int, kept: seq<Candle>)
    requires Regular(cal) && Readable(cal, tf, rows)
    requires forall i :: 0 <= i < |rows| ==> start <= rows[i].ts < end
    requires NewestOf(View(cal, tf, rows), kept, true, |kept|) && kept != []
    ensures var below := Window(rows, start, kept[0].ts);
      && start < kept[0].ts < end
      && Readable(cal, tf, below)
      && View(cal, tf, rows) == View(cal, tf, below) + kept
      && |below| < |rows|
  {
    var all := View(cal, tf, rows);
    var idx := |all| - |kept|;
    NoLaterThanNewest(cal, tf, rows, idx);
    BelowABar(cal, tf, rows, start, idx);
    FewerBelow(rows, start, kept[0].ts);
    SomethingBelow(cal, tf, rows, start, kept[0].ts);
    Rejoined(all, kept);
  }

  lemma Rejoined(all: seq<Candle>, kept: seq<Candle>)
    requires |kept| <= |all| && kept == all[|all| - |kept|..]
    ensures all == all[..|all| - |kept|] + kept
  {
  }

  lemma SomethingBelow(cal: Calendar, tf: Timeframe, rows: seq<Candle>, start: int, cut: int)
    requires Regular(cal) && Readable(cal, tf, Window(rows, start, cut)) && View(cal, tf, Window(rows, start, cut)) != []
    ensures start < cut
  {
    ViewEmpty(cal, tf, Window(rows, start, cut));
    WindowSpans(rows, start, cut);
  }

  lemma WindowSpans(rows: seq<Candle>, start: int, cut: int)
    ensures Window(rows, start, cut) != [] ==> start < cut
  {
    if rows != [] {
      WindowSpans(rows[..|rows| - 1], start, cut);
    }
  }

  lemma NoLaterThanNewest(cal: Calendar, tf: Timeframe, rows: seq<Candle>, idx: nat)
    requires Regular(cal) && Readable(cal, tf, rows) && idx < |View(cal, tf, rows)|
    ensures rows != [] && View(cal, tf, rows)[idx].ts <= rows[|rows| - 1].ts
  {
    if tf != BaseOf(tf) {
      FoldedIsFoldable(cal, tf, rows);
      LastBucket(cal, tf, rows);
      OpenIsInSession(cal, tf, rows[|rows| - 1].ts);
    }
  }

  lemma WindowShrinks(rows: seq<Candle>, start: int, cut: int)
    ensures |Window(rows, start, cut)| <= |rows|
  {
  }

  lemma FewerBelow(rows: seq<Candle>, start: int, cut: int)
    requires rows != [] && cut <= rows[|rows| - 1].ts
    ensures |Window(rows, start, cut)| < |rows|
  {
    WindowShrinks(rows[..|rows| - 1], start, cut);
  }

  /** A page and what it leaves: everything, or everything but what lies below its cursor. */
  ghost predicate Leaves(cal: Calendar, tf: Timeframe, stored: seq<Candle>, start: int, end: int, page: Page, limit: int) {
    var rows := Window(stored, start, end);
    && Readable(cal, tf, rows)
    && if !page.more then page.candles == View(cal, tf, rows)
       else
         && page.cursor.Some? && start < page.cursor.value < end
         && |page.candles| == limit
         && Readable(cal, tf, Window(stored, start, page.cursor.value))
         && View(cal, tf, rows) == View(cal, tf, Window(stored, start, page.cursor.value)) + page.candles
         && |Window(stored, start, page.cursor.value)| < |rows|
  }

  method ReadNext(cal: Calendar, stored: seq<Candle>, req: Request) returns (page: Page)
    requires Regular(cal) && Readable(cal, req.tf, stored) && StartOf(req) < EndOf(req)
    ensures Leaves(cal, req.tf, stored, StartOf(req), EndOf(req), page, ClampPageLimit(req.limit))
  {
    var limit, start, end := ClampPageLimit(req.limit), StartOf(req), EndOf(req);
    ghost var rows := Window(stored, start, end);
    WindowReadable(cal, req.tf, stored, start, end);
    LastReadable(cal, req.tf, rows, BaseRowCap(req.tf, limit));
    var r := ReadPage(cal, stored, req);
    page := r.value;
    PageIsNewest(cal, req.tf, rows, limit);
    if page.more {
      PageSteps(cal, req.tf, rows, start, end, page.candles);
      WindowNested(stored, start, end, page.candles[0].ts);
    }
  }

  /** With one more page read, what is still to come is below its cursor. */
  lemma PagesSoFar(cal: Calendar, tf: Timeframe, stored: seq<Candle>, start: int, end: int, page: Page, limit: int,
                   all: seq<Candle>, pages: seq<seq<Candle>>)
    requires Leaves(cal, tf, stored, start, end, page, limit) && page.more
    requires pages != [] && pages[0] == page.candles
    requires all == View(cal, tf, Window(stored, start, end)) + Joined(pages[1..])
    ensures all == View(cal, tf, Window(stored, start, page.cursor.value)) + Joined(pages)
  {
    assert Joined(pages) == page.candles + Joined(pages[1..]);
  }

  /** Reading back from the newest page until there is no more: the pages, oldest first,
      are together the whole window's bars, none halved, repeated or lost, and all but the
      oldest are full. */
  method ReadBack(cal: Calendar, stored: seq<Candle>, req: Request) returns (pages: seq<seq<Candle>>)
    requires Regular(cal) && Readable(cal, req.tf, stored) && StartOf(req) < EndOf(req)
    ensures Readable(cal, req.tf, Window(stored, StartOf(req), EndOf(req)))
    ensures Joined(pages) == View(cal, req.tf, Window(stored, StartOf(req), EndOf(req)))
    ensures forall i :: 1 <= i < |pages| ==> |pages[i]| == ClampPageLimit(req.limit)
  {
    var limit, start := ClampPageLimit(req.limit), StartOf(req);
    ghost var total := Window(stored, start, EndOf(req));
    var page := ReadNext(cal, stored, req);
    var next := req;
    pages := [page.candles];
    while page.more
      invariant next == req.(before := next.before)
      invariant start < EndOf(next) && Readable(cal, req.tf, total)
      invariant Leaves(cal, req.tf, stored, start, EndOf(next), page, limit)
      invariant pages != [] && pages[0] == page.candles
      invariant View(cal, req.tf, total) == View(cal, req.tf, Window(stored, start, EndOf(next))) + Joined(pages[1..])
      invariant forall i :: 1 <= i < |pages| ==> |pages[i]| == limit
      decreases |Window(stored, start, EndOf(next))|
    {
      PagesSoFar(cal, req.tf, stored, start, EndOf(next), page, limit, View(cal, req.tf, total), pages);
      next := next.(before := page.cursor);
      page := ReadNext(cal, stored, next);
      ghost var newer := pages;
      pages := [page.candles] + pages;
      assert pages[1..] == newer;
    }
  }
}
