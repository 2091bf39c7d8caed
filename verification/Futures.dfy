/** One continuous series out of expiring contracts: the front contract of each day, and
    earlier days shifted so that no roll shows as a price move. */
module Futures {
  import opened Outcomes
  import opened Text
  import opened Stamps

  /** A day's settlement of one contract; days are counted, expirations too. */
  datatype Quote = Quote(
    symbol: string,
    expiration: int,
    multiplier: real,
    day: int,
    settlement: real,
    close: Option<real>,
    volume: Option<int>)

  datatype Bar = Bar(day: int, symbol: string, settlement: real, adjustment: real, traded: bool, volume: int, roll: bool)

  datatype Roll = Roll(day: int, from: string, to: string, gap: real, measured: bool)

  datatype Series = Series(bars: seq<Bar>, rolls: seq<Roll>)

  /** A series under its root, with what a point of it is worth. */
  datatype Titled = Titled(root: string, multiplier: real, series: Series)

  datatype Refusal = NoRoot | NegativeOffset

  // ---------- a day's quotes ----------

  function On(quotes: seq<Quote>, day: int): seq<Quote> {
    if quotes == [] then []
    else
      var rest, q := On(quotes[..|quotes| - 1], day), quotes[|quotes| - 1];
      if q.day == day then rest + [q] else rest
  }

  /** The contract not yet past its cutoff that expires first. */
  function Front(quotes: seq<Quote>, cutoff: int): Option<Quote> {
    if quotes == [] then None
    else
      var best, q := Front(quotes[..|quotes| - 1], cutoff), quotes[|quotes| - 1];
      if q.expiration >= cutoff && (best.None? || q.expiration < best.value.expiration) then Some(q) else best
  }

  lemma {:induction false} FrontIsNearest(quotes: seq<Quote>, cutoff: int)
    ensures Front(quotes, cutoff).None? <==> forall q :: q in quotes ==> q.expiration < cutoff
    ensures Front(quotes, cutoff).Some? ==>
      var front := Front(quotes, cutoff).value;
      && front in quotes && front.expiration >= cutoff
      && forall q :: q in quotes && q.expiration >= cutoff ==> front.expiration <= q.expiration
  {
    if quotes != [] {
      var n := |quotes| - 1;
      FrontIsNearest(quotes[..n], cutoff);
      assert quotes == quotes[..n] + [quotes[n]];
    }
  }

  method FrontContract(quotes: seq<Quote>, day: int, offset: int) returns (front: Option<Quote>)
    ensures front == Front(quotes, day + offset)
  {
    front := None;
    for i := 0 to |quotes|
      invariant front == Front(quotes[..i], day + offset)
    {
      assert quotes[..i + 1][..i] == quotes[..i];
      if quotes[i].expiration >= day + offset && (front.None? || quotes[i].expiration < front.value.expiration) {
        front := Some(quotes[i]);
      }
    }
    assert quotes[..|quotes|] == quotes;
  }

  function SettlementOf(quotes: seq<Quote>, symbol: string): Option<real> {
    if quotes == [] then None
    else if quotes[0].symbol == symbol then Some(quotes[0].settlement)
    else SettlementOf(quotes[1..], symbol)
  }

  // ---------- rolls ----------

  /** The newest of these days on which both contracts settled gives the gap. */
  function Gap(quotes: seq<Quote>, history: seq<int>, from: string, to: string): Option<real> {
    if history == [] then None
    else
      var day := On(quotes, history[|history| - 1]);
      var out, into := SettlementOf(day, from), SettlementOf(day, to);
      if out.Some? && into.Some? then Some(into.value - out.value)
      else Gap(quotes, history[..|history| - 1], from, to)
  }

  method RollGap(byDay: map<int, seq<Quote>>, ghost quotes: seq<Quote>, history: seq<int>, from: string, to: string)
    returns (gap: real, measured: bool)
    requires forall day :: day in byDay ==> byDay[day] == On(quotes, day)
    requires forall i :: 0 <= i < |history| ==> history[i] in byDay
    ensures measured == Gap(quotes, history, from, to).Some?
    ensures gap == if measured then Gap(quotes, history, from, to).value else 0.0
  {
    var i := |history|;
    assert history[..i] == history;
    while i > 0
      invariant 0 <= i <= |history|
      invariant Gap(quotes, history, from, to) == Gap(quotes, history[..i], from, to)
    {
      i := i - 1;
      assert history[..i + 1][..i] == history[..i];
      var out := SettlementOf(byDay[history[i]], from);
      if out.None? {
        continue;
      }
      var into := SettlementOf(byDay[history[i]], to);
      if into.None? {
        continue;
      }
      return into.value - out.value, true;
    }
    return 0.0, false;
  }

  // ---------- the unadjusted series ----------

  function DaysOf(bars: seq<Bar>): (days: seq<int>)
    ensures |days| == |bars| && forall i :: 0 <= i < |bars| ==> days[i] == bars[i].day
  {
    seq(|bars|, i requires 0 <= i < |bars| => bars[i].day)
  }

  function BarOf(front: Quote, day: int, roll: bool): Bar {
    Bar(day, front.symbol, front.settlement, 0.0, front.close.Some?,
        if front.volume.Some? then front.volume.value else 0, roll)
  }

  predicate RollsTo(bars: seq<Bar>, front: Quote) {
    bars != [] && bars[|bars| - 1].symbol != front.symbol
  }

  function RollOf(quotes: seq<Quote>, bars: seq<Bar>, front: Quote, day: int): Roll
    requires bars != []
  {
    var from := bars[|bars| - 1].symbol;
    var gap := Gap(quotes, DaysOf(bars), from, front.symbol);
    Roll(day, from, front.symbol, if gap.Some? then gap.value else 0.0, gap.Some?)
  }

  /** The series after one more day: nothing when every contract is past its cutoff. */
  function WithDay(s: Series, quotes: seq<Quote>, day: int, offset: int): Series {
    match Front(On(quotes, day), day + offset)
    case None => s
    case Some(front) =>
      var roll := RollsTo(s.bars, front);
      Series(s.bars + [BarOf(front, day, roll)],
             if roll then s.rolls + [RollOf(quotes, s.bars, front, day)] else s.rolls)
  }

  function Unadjusted(quotes: seq<Quote>, days: seq<int>, offset: int): Series {
    if days == [] then Series([], [])
    else WithDay(Unadjusted(quotes, days[..|days| - 1], offset), quotes, days[|days| - 1], offset)
  }

  function QuotedDays(quotes: seq<Quote>): set<int> {
    set i | 0 <= i < |quotes| :: quotes[i].day
  }

  // ---------- back-adjustment ----------

  function GapAt(rolls: seq<Roll>, day: int): real {
    if rolls == [] then 0.0
    else if rolls[|rolls| - 1].day == day then rolls[|rolls| - 1].gap
    else GapAt(rolls[..|rolls| - 1], day)
  }

  /** The gaps of every roll after bar `i`. */
  function LaterGaps(bars: seq<Bar>, rolls: seq<Roll>, i: nat): real
    requires i < |bars|
    decreases |bars| - i
  {
    if i == |bars| - 1 then 0.0 else LaterGaps(bars, rolls, i + 1) + GapAt(rolls, bars[i + 1].day)
  }

  function Shifted(b: Bar, offset: real): Bar {
    b.(adjustment := offset, settlement := b.settlement + offset)
  }

  function Adjusted(s: Series): (bars: seq<Bar>)
    ensures |bars| == |s.bars|
    ensures forall i :: 0 <= i < |bars| ==> bars[i] == Shifted(s.bars[i], LaterGaps(s.bars, s.rolls, i))
  {
    seq(|s.bars|, i requires 0 <= i < |s.bars| => Shifted(s.bars[i], LaterGaps(s.bars, s.rolls, i)))
  }

  method GapsOf(rolls: seq<Roll>) returns (gaps: map<int, real>)
    ensures forall day :: (if day in gaps then gaps[day] else 0.0) == GapAt(rolls, day)
  {
    gaps := map[];
    for k := 0 to |rolls|
      invariant forall day :: (if day in gaps then gaps[day] else 0.0) == GapAt(rolls[..k], day)
    {
      assert rolls[..k + 1][..k] == rolls[..k];
      gaps := gaps[rolls[k].day := rolls[k].gap];
    }
    assert rolls[..|rolls|] == rolls;
  }

  /** One backward pass, in place. */
  method BackAdjust(bars: array<Bar>, rolls: seq<Roll>)
    requires forall i :: 0 <= i < bars.Length ==> bars[i].adjustment == 0.0
    modifies bars
    ensures bars[..] == Adjusted(Series(old(bars[..]), rolls))
  {
    ghost var s := Series(bars[..], rolls);
    if rolls == [] {
      NoRollsNoShift(s);
      return;
    }
    var gaps := GapsOf(rolls);
    var offset, i := 0.0, bars.Length;
    while i > 0
      invariant 0 <= i <= bars.Length
      invariant 0 < i < bars.Length ==> offset == LaterGaps(s.bars, rolls, i) + GapAt(rolls, s.bars[i].day)
      invariant i == bars.Length ==> offset == 0.0
      invariant forall k :: 0 <= k < i ==> bars[k] == s.bars[k]
      invariant forall k :: i <= k < bars.Length ==> bars[k] == Shifted(s.bars[k], LaterGaps(s.bars, rolls, k))
    {
      i := i - 1;
      var day := bars[i].day;
      bars[i] := Shifted(bars[i], offset);
      if day in gaps {
        offset := offset + gaps[day];
      }
    }
  }

  lemma {:induction false} NoRollsNoShift(s: Series)
    requires s.rolls == [] && forall i :: 0 <= i < |s.bars| ==> s.bars[i].adjustment == 0.0
    ensures Adjusted(s) == s.bars
  {
    forall i | 0 <= i < |s.bars| ensures LaterGaps(s.bars, s.rolls, i) == 0.0 {
      NoGaps(s, i);
    }
  }

  lemma {:induction false} NoGaps(s: Series, i: nat)
    requires s.rolls == [] && i < |s.bars|
    ensures LaterGaps(s.bars, s.rolls, i) == 0.0
    decreases |s.bars| - i
  {
    if i < |s.bars| - 1 {
      NoGaps(s, i + 1);
    }
  }

  // ---------- building it ----------

  function Continuous(quotes: seq<Quote>, offset: int, adjust: bool): Series {
    var s := Unadjusted(quotes, Ascending(QuotedDays(quotes)), offset);
    if adjust then s.(bars := Adjusted(s)) else s
  }

  lemma OneMoreQuote(quotes: seq<Quote>, q: Quote)
    ensures forall day :: On(quotes + [q], day) == if q.day == day then On(quotes, day) + [q] else On(quotes, day)
    ensures QuotedDays(quotes + [q]) == QuotedDays(quotes) + {q.day}
  {
    assert (quotes + [q])[..|quotes|] == quotes;
    assert forall i :: 0 <= i < |quotes| ==> (quotes + [q])[i] == quotes[i];
    assert (quotes + [q])[|quotes|] == q;
  }

  function RootOf(root: string): string {
    Upper(TrimRight(TrimLeft(root)))
  }

  /** The last quote read decides, whichever contract it is of. */
  function NewestMultiplier(quotes: seq<Quote>): real {
    if quotes == [] then 0.0 else quotes[|quotes| - 1].multiplier
  }

  method GroupByDay(quotes: seq<Quote>) returns (byDay: map<int, seq<Quote>>, multiplier: real)
    ensures multiplier == NewestMultiplier(quotes)
    ensures byDay.Keys == QuotedDays(quotes)
    ensures forall day :: day in byDay ==> byDay[day] == On(quotes, day)
  {
    byDay, multiplier := map[], 0.0;
    for i := 0 to |quotes|
      invariant multiplier == NewestMultiplier(quotes[..i])
      invariant byDay.Keys == QuotedDays(quotes[..i])
      invariant forall day :: day in byDay ==> byDay[day] == On(quotes[..i], day)
      invariant forall day :: day !in byDay ==> On(quotes[..i], day) == []
    {
      OneMoreQuote(quotes[..i], quotes[i]);
      assert quotes[..i + 1] == quotes[..i] + [quotes[i]];
      var day := quotes[i].day;
      var held := if day in byDay then byDay[day] else [];
      byDay := byDay[day := held + [quotes[i]]];
      multiplier := quotes[i].multiplier;
    }
    assert quotes[..|quotes|] == quotes;
  }

  method BuildContinuous(root: string, quotes: seq<Quote>, offset: int, adjust: bool) returns (r: Result<Titled, Refusal>)
    ensures r.Err? <==> RootOf(root) == "" || offset < 0
    ensures r.Err? ==> r.error == if RootOf(root) == "" then NoRoot else NegativeOffset
    ensures r.Ok? ==> r.value == Titled(RootOf(root), NewestMultiplier(quotes), Continuous(quotes, offset, adjust))
  {
    var name := RootOf(root);
    if name == "" {
      return Err(NoRoot);
    }
    if offset < 0 {
      return Err(NegativeOffset);
    }
    var byDay, multiplier := GroupByDay(quotes);
    var days := Ascending(byDay.Keys);
    var s := Walk(byDay, quotes, days, offset);
    if adjust {
      Raw(quotes, days, offset);
      var bars := new Bar[|s.bars|](i requires 0 <= i < |s.bars| => s.bars[i]);
      assert bars[..] == s.bars;
      BackAdjust(bars, s.rolls);
      s := s.(bars := bars[..]);
    }
    return Ok(Titled(name, multiplier, s));
  }

  method Walk(byDay: map<int, seq<Quote>>, ghost quotes: seq<Quote>, days: seq<int>, offset: int) returns (s: Series)
    requires forall day :: day in byDay ==> byDay[day] == On(quotes, day)
    requires forall i :: 0 <= i < |days| ==> days[i] in byDay
    ensures s == Unadjusted(quotes, days, offset)
  {
    s := Series([], []);
    for i := 0 to |days|
      invariant s == Unadjusted(quotes, days[..i], offset)
      invariant forall k :: 0 <= k < |s.bars| ==> s.bars[k].day in byDay
    {
      assert days[..i + 1][..i] == days[..i];
      s := AddDay(s, byDay, quotes, days[i], offset);
    }
    assert days[..|days|] == days;
  }

  method AddDay(s: Series, byDay: map<int, seq<Quote>>, ghost quotes: seq<Quote>, day: int, offset: int) returns (next: Series)
    requires day in byDay && forall d :: d in byDay ==> byDay[d] == On(quotes, d)
    requires forall k :: 0 <= k < |s.bars| ==> s.bars[k].day in byDay
    ensures next == WithDay(s, quotes, day, offset)
    ensures forall k :: 0 <= k < |next.bars| ==> next.bars[k].day in byDay
  {
    var front := FrontContract(byDay[day], day, offset);
    if front.None? {
      return s;
    }
    var roll := RollsTo(s.bars, front.value);
    var rolls := s.rolls;
    if roll {
      var from := s.bars[|s.bars| - 1].symbol;
      var gap, measured := RollGap(byDay, quotes, DaysOf(s.bars), from, front.value.symbol);
      rolls := rolls + [Roll(day, from, front.value.symbol, gap, measured)];
    }
    next := Series(s.bars + [BarOf(front.value, day, roll)], rolls);
  }

  lemma {:induction false} Raw(quotes: seq<Quote>, days: seq<int>, offset: int)
    ensures forall k :: 0 <= k < |Unadjusted(quotes, days, offset).bars| ==>
      Unadjusted(quotes, days, offset).bars[k].adjustment == 0.0
  {
    if days != [] {
      Raw(quotes, days[..|days| - 1], offset);
    }
  }

  // ---------- whose bar each day is ----------

  /** The contract a bar holds: quoted that day, alive for the offset at least, and of those
      the first to expire; the bar carries its settlement, less whatever it is adjusted by. */
  predicate Holds(quotes: seq<Quote>, b: Bar, offset: int, q: Quote) {
    && q in quotes && q.day == b.day && q.symbol == b.symbol && q.settlement == b.settlement - b.adjustment
    && (b.traded <==> q.close.Some?) && b.volume == (match q.volume case None => 0 case Some(v) => v)
    && b.day + offset <= q.expiration
    && forall other :: other in quotes && other.day == b.day && b.day + offset <= other.expiration ==>
        q.expiration <= other.expiration
  }

  ghost predicate HasFront(quotes: seq<Quote>, b: Bar, offset: int) {
    exists q :: Holds(quotes, b, offset, q)
  }

  lemma {:induction false} OnAre(quotes: seq<Quote>, day: int)
    ensures forall q :: q in On(quotes, day) <==> q in quotes && q.day == day
  {
    if quotes != [] {
      var n := |quotes| - 1;
      OnAre(quotes[..n], day);
      assert quotes == quotes[..n] + [quotes[n]];
    }
  }

  lemma DayHolds(s: Series, quotes: seq<Quote>, day: int, offset: int)
    ensures var next := WithDay(s, quotes, day, offset);
      && s.bars <= next.bars && |next.bars| <= |s.bars| + 1
      && (|next.bars| > |s.bars| ==>
            && HasFront(quotes, next.bars[|s.bars|], offset)
            && next.bars[|s.bars|].day == day
            && (next.bars[|s.bars|].roll <==> s.bars != [] && s.bars[|s.bars| - 1].symbol != next.bars[|s.bars|].symbol))
      && (|next.bars| > |s.bars| <==> exists q :: q in quotes && q.day == day && day + offset <= q.expiration)
  {
    OnAre(quotes, day);
    FrontIsNearest(On(quotes, day), day + offset);
    var front := Front(On(quotes, day), day + offset);
    if front.Some? {
      assert Holds(quotes, WithDay(s, quotes, day, offset).bars[|s.bars|], offset, front.value);
    } else {
      assert forall q :: q in quotes && q.day == day ==> q in On(quotes, day);
    }
  }

  /** A quote that is alive for the offset makes its day a bar. */
  predicate Alive(quotes: seq<Quote>, day: int, offset: int) {
    exists q :: q in quotes && q.day == day && day + offset <= q.expiration
  }

  lemma {:induction false} DaysHold(quotes: seq<Quote>, days: seq<int>, offset: int)
    ensures var s := Unadjusted(quotes, days, offset);
      && (forall i :: 0 <= i < |s.bars| ==> HasFront(quotes, s.bars[i], offset))
      && (forall i :: 1 <= i < |s.bars| ==> (s.bars[i].roll <==> s.bars[i].symbol != s.bars[i - 1].symbol))
      && (s.bars != [] ==> !s.bars[0].roll)
      && (forall day :: day in days && Alive(quotes, day, offset) ==> exists i :: 0 <= i < |s.bars| && s.bars[i].day == day)
  {
    if days != [] {
      var rest, last := days[..|days| - 1], days[|days| - 1];
      DaysHold(quotes, rest, offset);
      var before, s := Unadjusted(quotes, rest, offset), Unadjusted(quotes, days, offset);
      DayHolds(before, quotes, last, offset);
      assert forall i :: 0 <= i < |before.bars| ==> s.bars[i] == before.bars[i];
      forall day | day in days && Alive(quotes, day, offset)
        ensures exists i :: 0 <= i < |s.bars| && s.bars[i].day == day
      {
        if day == last {
          assert s.bars[|before.bars|].day == day;
        } else {
          assert day in rest;
          var i :| 0 <= i < |before.bars| && before.bars[i].day == day;
          assert s.bars[i].day == day;
        }
      }
    }
  }

  lemma ShiftHolds(quotes: seq<Quote>, b: Bar, offset: int, shift: real)
    requires HasFront(quotes, b, offset) && b.adjustment == 0.0
    ensures HasFront(quotes, Shifted(b, shift), offset)
  {
    var q :| Holds(quotes, b, offset, q);
    assert Holds(quotes, Shifted(b, shift), offset, q);
  }

  /** Every bar of a series, adjusted or not, is its day's first contract to expire of those
      with the offset still to go; and every day with such a contract has its bar. */
  lemma BarsAreFronts(quotes: seq<Quote>, offset: int, adjust: bool)
    ensures var s := Continuous(quotes, offset, adjust);
      && (forall i :: 0 <= i < |s.bars| ==> HasFront(quotes, s.bars[i], offset))
      && (forall i :: 1 <= i < |s.bars| ==> (s.bars[i].roll <==> s.bars[i].symbol != s.bars[i - 1].symbol))
      && (s.bars != [] ==> !s.bars[0].roll)
      && (forall q :: q in quotes && q.day + offset <= q.expiration ==> exists i :: 0 <= i < |s.bars| && s.bars[i].day == q.day)
  {
    var days := Ascending(QuotedDays(quotes));
    var raw, s := Unadjusted(quotes, days, offset), Continuous(quotes, offset, adjust);
    DaysHold(quotes, days, offset);
    Raw(quotes, days, offset);
    forall i | 0 <= i < |s.bars| ensures HasFront(quotes, s.bars[i], offset) {
      if adjust {
        ShiftHolds(quotes, raw.bars[i], offset, LaterGaps(raw.bars, raw.rolls, i));
      }
    }
    forall q | q in quotes && q.day + offset <= q.expiration ensures exists i :: 0 <= i < |s.bars| && s.bars[i].day == q.day {
      assert q.day in QuotedDays(quotes) && Alive(quotes, q.day, offset);
      var i :| 0 <= i < |raw.bars| && raw.bars[i].day == q.day;
      assert s.bars[i].day == q.day;
    }
  }

  /** How much higher one contract settled than another on a day, if both did. */
  function Spread(quotes: seq<Quote>, day: int, from: string, to: string): Option<real> {
    var out, into := SettlementOf(On(quotes, day), from), SettlementOf(On(quotes, day), to);
    if out.Some? && into.Some? then Some(into.value - out.value) else None
  }

  function NewestOf(on: int -> Option<real>, history: seq<int>): Option<real> {
    if history == [] then None
    else if on(history[|history| - 1]).Some? then on(history[|history| - 1])
    else NewestOf(on, history[..|history| - 1])
  }

  /** The newest day of the history with an answer is its `i`-th. */
  ghost predicate IsNewest(on: int -> Option<real>, history: seq<int>, i: nat) {
    i < |history| && on(history[i]).Some? && forall j :: i < j < |history| ==> on(history[j]).None?
  }

  lemma {:induction false} NewestOfIs(on: int -> Option<real>, history: seq<int>)
    ensures NewestOf(on, history).None? <==> forall i :: 0 <= i < |history| ==> on(history[i]).None?
    ensures NewestOf(on, history).Some? ==>
      exists i: nat :: IsNewest(on, history, i) && NewestOf(on, history) == on(history[i])
  {
    if history != [] {
      var n := |history| - 1;
      if on(history[n]).Some? {
        assert IsNewest(on, history, n);
      } else {
        NewestOfIs(on, history[..n]);
        if NewestOf(on, history[..n]).Some? {
          var i: nat :| IsNewest(on, history[..n], i) && NewestOf(on, history[..n]) == on(history[..n][i]);
          assert IsNewest(on, history, i);
        }
      }
    }
  }

  lemma {:induction false} GapIsNewestOf(quotes: seq<Quote>, history: seq<int>, from: string, to: string)
    ensures Gap(quotes, history, from, to) == NewestOf(day => Spread(quotes, day, from, to), history)
  {
    if history != [] {
      GapIsNewestOf(quotes, history[..|history| - 1], from, to);
    }
  }

  /** A roll's gap is how much higher the contract rolled to settled than the one left, on
      the newest day before on which both did; there is none if there was no such day. */
  lemma GapIsNewest(quotes: seq<Quote>, history: seq<int>, from: string, to: string)
    ensures var on, gap := (day: int) => Spread(quotes, day, from, to), Gap(quotes, history, from, to);
      && (gap.None? <==> forall i :: 0 <= i < |history| ==> on(history[i]).None?)
      && (gap.Some? ==> exists i: nat :: IsNewest(on, history, i) && gap == on(history[i]))
  {
    var on := day => Spread(quotes, day, from, to);
    GapIsNewestOf(quotes, history, from, to);
    NewestOfIs(on, history);
  }

  // ---------- what back-adjustment promises ----------

  ghost predicate RollsOn(bars: seq<Bar>, day: int) {
    exists i :: 0 <= i < |bars| && bars[i].day == day && bars[i].roll
  }

  /** Bars in order of day; every roll on a roll bar, in the same order. */
  ghost predicate Sound(s: Series) {
    && (forall i, j :: 0 <= i < j < |s.bars| ==> s.bars[i].day < s.bars[j].day)
    && (forall k :: 0 <= k < |s.rolls| ==> RollsOn(s.bars, s.rolls[k].day))
    && (forall i, j :: 0 <= i < j < |s.rolls| ==> s.rolls[i].day < s.rolls[j].day)
  }

  lemma {:induction false} UnadjustedIsSound(quotes: seq<Quote>, days: seq<int>, offset: int)
    requires Rising(days)
    ensures Sound(Unadjusted(quotes, days, offset))
    ensures forall i :: 0 <= i < |Unadjusted(quotes, days, offset).bars| ==>
      Unadjusted(quotes, days, offset).bars[i].day in days
  {
    if days != [] {
      var rest, day := days[..|days| - 1], days[|days| - 1];
      UnadjustedIsSound(quotes, rest, offset);
      DayAdded(Unadjusted(quotes, rest, offset), quotes, day, offset);
    }
  }

  lemma DayAdded(s: Series, quotes: seq<Quote>, day: int, offset: int)
    requires Sound(s) && forall i :: 0 <= i < |s.bars| ==> s.bars[i].day < day
    ensures Sound(WithDay(s, quotes, day, offset))
  {
    var next := WithDay(s, quotes, day, offset);
    forall k | 0 <= k < |s.rolls| ensures RollsOn(next.bars, s.rolls[k].day) {
      assert RollsOn(s.bars, s.rolls[k].day);
      var i :| 0 <= i < |s.bars| && s.bars[i].day == s.rolls[k].day && s.bars[i].roll;
      assert next.bars[i] == s.bars[i];
    }
    if |next.rolls| > |s.rolls| {
      var last := next.bars[|s.bars|];
      assert last.day == day && last.roll;
      assert RollsOn(next.bars, day);
    }
    forall k | 0 <= k < |s.rolls| ensures s.rolls[k].day < day {
      assert RollsOn(s.bars, s.rolls[k].day);
    }
  }

  // ---------- adjustments are sums of later gaps ----------

  /** The gaps of the rolls after a day. */
  function GapsAfter(rolls: seq<Roll>, day: int): real {
    if rolls == [] then 0.0
    else GapsAfter(rolls[..|rolls| - 1], day) + if rolls[|rolls| - 1].day > day then rolls[|rolls| - 1].gap else 0.0
  }

  lemma {:induction false} NoGapAt(rolls: seq<Roll>, day: int)
    requires forall k :: 0 <= k < |rolls| ==> rolls[k].day != day
    ensures GapAt(rolls, day) == 0.0
  {
    if rolls != [] {
      NoGapAt(rolls[..|rolls| - 1], day);
    }
  }

  lemma {:induction false} GapsSplit(rolls: seq<Roll>, day: int, next: int)
    requires day < next && forall i, j :: 0 <= i < j < |rolls| ==> rolls[i].day < rolls[j].day
    requires forall k :: 0 <= k < |rolls| ==> rolls[k].day <= day || rolls[k].day >= next
    ensures GapsAfter(rolls, day) == GapsAfter(rolls, next) + GapAt(rolls, next)
  {
    if rolls != [] {
      var n := |rolls| - 1;
      GapsSplit(rolls[..n], day, next);
      if rolls[n].day == next {
        NoGapAt(rolls[..n], next);
      }
    }
  }

  lemma {:induction false} NoGapsAfter(rolls: seq<Roll>, day: int)
    requires forall k :: 0 <= k < |rolls| ==> rolls[k].day <= day
    ensures GapsAfter(rolls, day) == 0.0
  {
    if rolls != [] {
      NoGapsAfter(rolls[..|rolls| - 1], day);
    }
  }

  lemma NoRollBetween(s: Series, i: nat)
    requires Sound(s) && i < |s.bars|
    ensures forall k :: 0 <= k < |s.rolls| ==>
      s.rolls[k].day <= s.bars[i].day || (i + 1 < |s.bars| && s.rolls[k].day >= s.bars[i + 1].day)
  {
    forall k | 0 <= k < |s.rolls|
      ensures s.rolls[k].day <= s.bars[i].day || (i + 1 < |s.bars| && s.rolls[k].day >= s.bars[i + 1].day)
    {
      assert RollsOn(s.bars, s.rolls[k].day);
      var j :| 0 <= j < |s.bars| && s.bars[j].day == s.rolls[k].day && s.bars[j].roll;
    }
  }

  lemma {:induction false} LaterGapsAre(s: Series, i: nat)
    requires Sound(s) && i < |s.bars|
    ensures LaterGaps(s.bars, s.rolls, i) == GapsAfter(s.rolls, s.bars[i].day)
    decreases |s.bars| - i
  {
    NoRollBetween(s, i);
    if i == |s.bars| - 1 {
      NoGapsAfter(s.rolls, s.bars[i].day);
    } else {
      LaterGapsAre(s, i + 1);
      GapsSplit(s.rolls, s.bars[i].day, s.bars[i + 1].day);
    }
  }

  /** A bar's adjustment is the sum of the gaps of every roll after it, so the newest bar
      has none. */
  lemma AdjustmentIsLaterGaps(s: Series, i: nat)
    requires Sound(s) && i < |s.bars|
    ensures Adjusted(s)[i].adjustment == GapsAfter(s.rolls, s.bars[i].day)
    ensures i == |s.bars| - 1 ==> Adjusted(s)[i].adjustment == 0.0
  {
    LaterGapsAre(s, i);
  }

  // ---------- day over day ----------

  /** No contract is quoted twice on a day. */
  predicate Unique(quotes: seq<Quote>) {
    forall i, j :: 0 <= i < j < |quotes| ==> quotes[i].day != quotes[j].day || quotes[i].symbol != quotes[j].symbol
  }

  function Settled(quotes: seq<Quote>, day: int, symbol: string): Option<real> {
    SettlementOf(On(quotes, day), symbol)
  }

  predicate Once(day: seq<Quote>) {
    forall i, j :: 0 <= i < j < |day| ==> day[i].symbol != day[j].symbol
  }

  lemma {:induction false} OnIsOnce(quotes: seq<Quote>, day: int)
    requires Unique(quotes)
    ensures Once(On(quotes, day)) && forall q :: q in On(quotes, day) ==> q in quotes && q.day == day
  {
    if quotes != [] {
      var n := |quotes| - 1;
      OnIsOnce(quotes[..n], day);
      forall q | q in On(quotes[..n], day) ensures quotes[n].day == day ==> q.symbol != quotes[n].symbol {
        var i :| 0 <= i < n && quotes[..n][i] == q;
      }
    }
  }

  lemma {:induction false} SettledOnce(day: seq<Quote>, q: Quote)
    requires Once(day) && q in day
    ensures SettlementOf(day, q.symbol) == Some(q.settlement)
  {
    if day[0] != q {
      SettledOnce(day[1..], q);
    }
  }

  /** Each bar is its day's front contract; each roll bar's gap is the one measured back
      from the bar before it. */
  ghost predicate Built(quotes: seq<Quote>, s: Series) {
    && (forall i :: 0 <= i < |s.bars| ==> Settled(quotes, s.bars[i].day, s.bars[i].symbol) == Some(s.bars[i].settlement))
    && (forall i :: 1 <= i < |s.bars| ==> RollBuilt(quotes, s, i))
  }

  ghost predicate RollBuilt(quotes: seq<Quote>, s: Series, i: int)
    requires 1 <= i < |s.bars|
  {
    var gap := Gap(quotes, DaysOf(s.bars[..i]), s.bars[i - 1].symbol, s.bars[i].symbol);
    && (s.bars[i].roll <==> s.bars[i].symbol != s.bars[i - 1].symbol)
    && (s.bars[i].roll ==> GapAt(s.rolls, s.bars[i].day) == if gap.Some? then gap.value else 0.0)
  }

  lemma {:induction false} UnadjustedIsBuilt(quotes: seq<Quote>, days: seq<int>, offset: int)
    requires Unique(quotes) && Rising(days)
    ensures Built(quotes, Unadjusted(quotes, days, offset))
  {
    if days != [] {
      var rest, day := days[..|days| - 1], days[|days| - 1];
      UnadjustedIsBuilt(quotes, rest, offset);
      UnadjustedIsSound(quotes, rest, offset);
      DayBuilt(quotes, Unadjusted(quotes, rest, offset), day, offset);
    }
  }

  lemma DayBuilt(quotes: seq<Quote>, s: Series, day: int, offset: int)
    requires Unique(quotes) && Built(quotes, s) && Sound(s) && forall i :: 0 <= i < |s.bars| ==> s.bars[i].day < day
    ensures Built(quotes, WithDay(s, quotes, day, offset))
  {
    var next, n := WithDay(s, quotes, day, offset), |s.bars|;
    OnIsOnce(quotes, day);
    FrontIsNearest(On(quotes, day), day + offset);
    if |next.bars| > n {
      var front := Front(On(quotes, day), day + offset).value;
      SettledOnce(On(quotes, day), front);
      forall i | 1 <= i < |next.bars| ensures RollBuilt(quotes, next, i) {
        assert next.bars[..i] == s.bars[..i];
        if i < n {
          assert RollBuilt(quotes, s, i);
        } else {
          assert s.bars[..n] == s.bars;
        }
      }
    }
  }

  /** The day-over-day change is the settlement change of the one contract held today,
      rolls included, as long as that contract settled on the bar before too: which is to
      say, as long as a roll's gap was measured there. */
  lemma ChangeIsTheHeldContracts(quotes: seq<Quote>, offset: int, i: nat)
    requires Unique(quotes)
    requires var raw := Continuous(quotes, offset, false);
      && 1 <= i < |raw.bars|
      && Settled(quotes, raw.bars[i - 1].day, raw.bars[i].symbol).Some?
    ensures var raw, bars := Continuous(quotes, offset, false), Continuous(quotes, offset, true).bars;
      var held := raw.bars[i].symbol;
      && |bars| == |raw.bars|
      && Settled(quotes, raw.bars[i].day, held).Some?
      && bars[i].settlement - bars[i - 1].settlement
         == Settled(quotes, raw.bars[i].day, held).value - Settled(quotes, raw.bars[i - 1].day, held).value
  {
    var days := Ascending(QuotedDays(quotes));
    var raw := Unadjusted(quotes, days, offset);
    UnadjustedIsSound(quotes, days, offset);
    UnadjustedIsBuilt(quotes, days, offset);
    HeldChange(quotes, raw, i);
  }

  lemma HeldChange(quotes: seq<Quote>, raw: Series, i: nat)
    requires Built(quotes, raw) && Sound(raw) && 1 <= i < |raw.bars|
    requires Settled(quotes, raw.bars[i - 1].day, raw.bars[i].symbol).Some?
    ensures var held := raw.bars[i].symbol;
      && Settled(quotes, raw.bars[i].day, held).Some?
      && Adjusted(raw)[i].settlement - Adjusted(raw)[i - 1].settlement
         == Settled(quotes, raw.bars[i].day, held).value - Settled(quotes, raw.bars[i - 1].day, held).value
  {
    var before, now := raw.bars[i - 1], raw.bars[i];
    assert RollBuilt(quotes, raw, i);
    assert LaterGaps(raw.bars, raw.rolls, i - 1) == LaterGaps(raw.bars, raw.rolls, i) + GapAt(raw.rolls, now.day);
    if now.roll {
      assert DaysOf(raw.bars[..i])[i - 1] == before.day;
    } else {
      forall k | 0 <= k < |raw.rolls| ensures raw.rolls[k].day != now.day {
        assert RollsOn(raw.bars, raw.rolls[k].day);
      }
      NoGapAt(raw.rolls, now.day);
    }
  }
}
