/** What an entry opens: a position between its levels, sized by its rule, paid for once. */
module Openings {
  import opened Outcomes
  import opened Numbers
  import opened Bars
  import opened Specs
  import opened Wirings
  import opened Tapes
  import opened Broker
  import opened Sizing
  import opened Books

  // ---------- levels ----------

  /** How far from the entry a guard asks its level to be. */
  predicate IsGap(g: Guard, entry: real, gap: real) {
    match g
    case Unset => false
    case Percent(value) => gap == entry * value
    case Points(value) => gap == value
  }

  /** A level on the losing side of the entry for a stop, on the winning side for a target. */
  predicate Behind(short: bool, entry: real, level: real, gap: real) {
    if short then level == entry + gap else level == entry - gap
  }

  predicate Ahead(short: bool, entry: real, level: real, gap: real) {
    if short then level == entry - gap else level == entry + gap
  }

  predicate Opens(d: Desk, s: State, want: Intent, ts: int, open: real) {
    want.Enter? && s.pos.None? && Entered(d, s, want, ts, open).pos.Some?
  }

  /** An entry that opens is a new position, sized and paid for. */
  lemma OpensAt(d: Desk, s: State, want: Intent, ts: int, open: real) returns (qty: int, price: real)
    requires Opens(d, s, want, ts, open)
    ensures qty >= 1 && price > 0.0 && qty == EntrySize(d, s.cash, price, want.stop)
    ensures price == FillPrice(CostingOf(d), ToOpen(want.short), open)
    ensures Entered(d, s, want, ts, open).pos == Some(NewPosition(d, want, qty, price, ts))
    ensures Entered(d, s, want, ts, open) ==
      s.(cash := Paid(s, NewPosition(d, want, qty, price, ts)), pos := Some(NewPosition(d, want, qty, price, ts)))
  {
    price := FillPrice(CostingOf(d), ToOpen(want.short), open);
    qty := EntrySize(d, s.cash, price, want.stop);
  }

  lemma NewStop(d: Desk, want: Intent, qty: int, price: real, ts: int, gap: real)
    requires want.Enter? && (want.stop != Unset ==> IsGap(want.stop, price, gap))
    ensures var p := NewPosition(d, want, qty, price, ts);
      if want.stop == Unset then p.stop == 0.0 else Behind(want.short, price, p.stop, gap)
  {
  }

  lemma NewTarget(d: Desk, want: Intent, qty: int, price: real, ts: int, gap: real)
    requires want.Enter? && (want.target != Unset ==> IsGap(want.target, price, gap))
    ensures var p := NewPosition(d, want, qty, price, ts);
      if want.target == Unset then p.target == 0.0 else Ahead(want.short, price, p.target, gap)
  {
  }

  /** A stop is behind the entry and a target ahead of it, by exactly what was asked; without
      one there is no level. */
  lemma OpensBetweenItsLevels(d: Desk, s: State, want: Intent, ts: int, open: real, p: Position, stopGap: real, targetGap: real)
    requires Opens(d, s, want, ts, open) && Entered(d, s, want, ts, open).pos == Some(p)
    requires want.stop != Unset ==> IsGap(want.stop, p.entryPrice, stopGap)
    requires want.target != Unset ==> IsGap(want.target, p.entryPrice, targetGap)
    ensures p.short == want.short && p.entryTs == ts && p.entryPrice > 0.0 && p.qty >= 1
    ensures if want.stop == Unset then p.stop == 0.0 else Behind(p.short, p.entryPrice, p.stop, stopGap)
    ensures if want.target == Unset then p.target == 0.0 else Ahead(p.short, p.entryPrice, p.target, targetGap)
  {
    var qty, price := OpensAt(d, s, want, ts, open);
    NewStop(d, want, qty, price, ts, stopGap);
    NewTarget(d, want, qty, price, ts, targetGap);
  }

  /** So a long opens above its stop and below its target, and a short the other way round. */
  lemma LevelsAreApart(d: Desk, s: State, want: Intent, ts: int, open: real, p: Position, stopGap: real, targetGap: real)
    requires Opens(d, s, want, ts, open) && Entered(d, s, want, ts, open).pos == Some(p)
    requires IsGap(want.stop, p.entryPrice, stopGap) && stopGap > 0.0
    requires IsGap(want.target, p.entryPrice, targetGap) && targetGap > 0.0
    ensures if want.short then p.target < p.entryPrice < p.stop else p.stop < p.entryPrice < p.target
  {
    OpensBetweenItsLevels(d, s, want, ts, open, p, stopGap, targetGap);
  }

  lemma PartIsInside(entry: real, part: real, gap: real)
    requires entry > 0.0 && 0.0 < part < 1.0 && gap == entry * part
    ensures 0.0 < gap < entry
  {
    assert gap == part * entry;
    TimesStrict(0.0, part, entry);
    TimesStrict(part, 1.0, entry);
  }

  lemma NewPercentStop(d: Desk, want: Intent, qty: int, price: real, ts: int, gap: real)
    requires want.Enter? && IsGap(want.stop, price, gap) && 0.0 < gap < price
    ensures var p := NewPosition(d, want, qty, price, ts);
      p.short == want.short && p.entryPrice == price && if want.short then p.stop > price else 0.0 < p.stop < price
  {
    NewStop(d, want, qty, price, ts, gap);
  }

  lemma PercentGap(g: Guard, price: real) returns (gap: real)
    requires g.Percent? && 0.0 < g.value < 1.0 && price > 0.0
    ensures IsGap(g, price, gap) && 0.0 < gap < price
  {
    gap := price * g.value;
    PartIsInside(price, g.value, gap);
  }

  /** A stop in percent of the entry is always behind it, and a long's still above zero. */
  lemma PercentStop(d: Desk, s: State, want: Intent, ts: int, open: real, p: Position)
    requires Opens(d, s, want, ts, open) && Entered(d, s, want, ts, open).pos == Some(p)
    requires want.stop.Percent? && 0.0 < want.stop.value < 1.0
    ensures if want.short then p.stop > p.entryPrice else 0.0 < p.stop < p.entryPrice
  {
    var qty, price := OpensAt(d, s, want, ts, open);
    var gap := PercentGap(want.stop, price);
    NewPercentStop(d, want, qty, price, ts, gap);
  }

  lemma GapIsDistance(g: Guard, entry: real, gap: real)
    requires IsGap(g, entry, gap)
    ensures Distance(g, entry) == gap
  {
  }

  lemma SizedWith(d: Desk, cash: int, stop: Guard, price: real, gap: real)
    requires Distance(stop, price) == gap
    ensures EntrySize(d, cash, price, stop) == SizeOf(d.plan.spec.sizing, cash, d.symbol.lotSize, price, gap, CostingOf(d))
  {
  }

  lemma RiskOf(d: Desk, cash: int, price: real, gap: real, qty: int)
    requires d.plan.spec.sizing.kind == RiskPct && gap > 0.0 && qty >= 1
    requires qty == SizeOf(d.plan.spec.sizing, cash, d.symbol.lotSize, price, gap, CostingOf(d))
    ensures RiskCents(qty, gap) <= PartOf(cash, d.plan.spec.sizing.value)
  {
    RiskIsBounded(d.plan.spec.sizing, cash, d.symbol.lotSize, price, gap, CostingOf(d));
  }

  lemma SizedByRisk(d: Desk, cash: int, stop: Guard, qty: int, price: real, gap: real)
    requires d.plan.spec.sizing.kind == RiskPct && gap > 0.0 && Distance(stop, price) == gap
    requires qty >= 1 && qty == EntrySize(d, cash, price, stop)
    ensures RiskCents(qty, gap) <= PartOf(cash, d.plan.spec.sizing.value)
  {
    SizedWith(d, cash, stop, price, gap);
    RiskOf(d, cash, price, gap, qty);
  }

  /** The distance it was sized with is the gap to the stop it carries, so a position sized
      by risk loses at its stop at most its part of cash. */
  lemma StopRiskIsBounded(d: Desk, s: State, want: Intent, ts: int, open: real, p: Position, gap: real)
    requires Opens(d, s, want, ts, open) && Entered(d, s, want, ts, open).pos == Some(p)
    requires d.plan.spec.sizing.kind == RiskPct && gap > 0.0 && IsGap(want.stop, p.entryPrice, gap)
    ensures Behind(p.short, p.entryPrice, p.stop, gap)
    ensures RiskCents(p.qty, gap) <= PartOf(s.cash, d.plan.spec.sizing.value)
  {
    var qty, price := OpensAt(d, s, want, ts, open);
    NewStop(d, want, qty, price, ts, gap);
    GapIsDistance(want.stop, price, gap);
    SizedByRisk(d, s.cash, want.stop, qty, price, gap);
  }

  // ---------- what it cost ----------

  lemma NewIsPaid(d: Desk, s: State, want: Intent, qty: int, price: real, ts: int)
    requires want.Enter?
    ensures var p := NewPosition(d, want, qty, price, ts);
      && p.short == want.short && p.entryCents == Notional(qty, price)
      && Paid(s, p) == s.cash + (if p.short then p.entryCents else -p.entryCents) - p.feesCents
      && p.feesCents == Fees(CostingOf(d), p.entryCents)
      && p.divCents == 0 && p.borrowCents == 0 && p.borrowOwed == 0.0 && p.splitCents == 0
  {
  }

  /** An entry changes cash by its price and its fees, once: a long pays both, a short is paid
      the one and pays the other. */
  lemma EntryIsPaid(d: Desk, s: State, want: Intent, ts: int, open: real, p: Position)
    requires Opens(d, s, want, ts, open) && Entered(d, s, want, ts, open).pos == Some(p)
    ensures var end := Entered(d, s, want, ts, open);
      && p.entryCents == Notional(p.qty, p.entryPrice) && p.feesCents == Fees(CostingOf(d), p.entryCents)
      && end.cash == s.cash + (if p.short then p.entryCents else -p.entryCents) - p.feesCents
      && p.divCents == 0 && p.borrowCents == 0 && p.borrowOwed == 0.0 && p.splitCents == 0
      && end.trades == s.trades && end.equity == s.equity && end.pending == s.pending
  {
    var qty, price := OpensAt(d, s, want, ts, open);
    NewIsPaid(d, s, want, qty, price, ts);
  }

  /** Whatever the open, a buyer pays no less and a seller gets no more. */
  lemma EntryIsAdverse(d: Desk, s: State, want: Intent, ts: int, open: real, p: Position)
    requires Opens(d, s, want, ts, open) && Entered(d, s, want, ts, open).pos == Some(p)
    requires open > 0.0 && 0.0 <= d.plan.spec.costs.slippageBps < 10000.0
    ensures if p.short then p.entryPrice <= open else p.entryPrice >= open
  {
    var qty, price := OpensAt(d, s, want, ts, open);
    FillIsAdverse(CostingOf(d), ToOpen(want.short), open);
  }

  // ---------- from the rule to the level ----------

  /** What a leg's bracket becomes at the close that fires it: its part of the price to come,
      or its multiple of the newest span; nothing is offered while that is unknown. */
  lemma BracketBecomes(p: Plan, b: Bracket, h: seq<Sample>)
    requires Ready(p)
    ensures b.level.Pct? ==> GuardFor(p, Some(b), h) == Some(Percent(b.level.value))
    ensures b.level.Atr? ==>
      var span := History(p.wiring, h).slot(b.slot, 0);
      && (GuardFor(p, Some(b), h).Some? <==> span.Some? && span.value > 0.0)
      && (GuardFor(p, Some(b), h).Some? ==> GuardFor(p, Some(b), h) == Some(Points(b.level.mult * span.value)))
    ensures GuardFor(p, None, h) == Some(Unset)
  {
  }

  // ---------- what is not opened ----------

  /** A flat book opens a position exactly when the shares can be had, the fill has a price
      and at least a share is taken; what could not be had or afforded is counted, and cash
      does not move. */
  lemma EntryIsRefused(d: Desk, s: State, want: Intent, ts: int, open: real)
    requires want.Enter? && s.pos.None?
    ensures var t := Entered(d, s, want, ts, open);
      var price := FillPrice(CostingOf(d), ToOpen(want.short), open);
      var barred := want.short && d.borrow.Some? && !d.borrow.value.available(ts);
      && (t.pos.Some? <==> !barred && price > 0.0 && EntrySize(d, s.cash, price, want.stop) >= 1)
      && t.tally.shortsUnavailable - s.tally.shortsUnavailable == (if barred then 1 else 0)
      && t.tally.skippedEntries - s.tally.skippedEntries
         == (if barred || (price > 0.0 && t.pos.None?) then 1 else 0)
      && (t.pos.None? ==> t.cash == s.cash)
  {
  }

  /** Sized by risk, nothing is opened without a stop, and nothing ever is at no price. */
  lemma NoStopNoRisk(d: Desk, cash: int, price: real, stop: Guard)
    ensures stop == Unset && d.plan.spec.sizing.kind == RiskPct ==> EntrySize(d, cash, price, stop) == 0
    ensures price <= 0.0 ==> EntrySize(d, cash, price, stop) == 0
  {
    if price > 0.0 && stop == Unset && d.plan.spec.sizing.kind == RiskPct {
      NothingAsked(d.plan.spec.sizing, cash, d.symbol.lotSize, price, 0.0, CostingOf(d));
    }
  }

  // ---------- levels on a bar ----------

  /** A resting stop or target is reached exactly when the bar trades through to it, from the
      side the position is on. */
  lemma LevelsAreReached(p: Position, c: Candle)
    requires Sane(BarOf(c))
    ensures StopHit(p, c) <==> p.stop > 0.0 && if p.short then c.high >= p.stop else c.low <= p.stop
    ensures TargetHit(p, c) <==> p.target > 0.0 && if p.short then c.low <= p.target else c.high >= p.target
  {
  }
}
