/** How positions end and what is written of them, and what a close decides. */
module Closings {
  import opened Outcomes
  import opened Numbers
  import opened Bars
  import opened Rules
  import opened Wirings
  import opened Tapes
  import opened Broker
  import opened Books

  // ---------- the trade ----------

  /** What is written of a position that ends. */
  predicate Writes(t: Trade, d: Desk, p: Position, ts: int, price: real, reason: Reason) {
    && t.symbol == d.symbol.ticker && t.short == p.short && t.qty == p.qty
    && t.entryTs == p.entryTs && t.entryPrice == p.entryPrice && t.exitTs == ts && t.exitPrice == price
    && t.dividendsCents == p.divCents && t.splitCashCents == p.splitCents && t.reason == reason
  }

  /** What was owed for borrowing, to the nearest cent. */
  predicate Settles(t: Trade, p: Position) {
    p.borrowOwed >= 0.0 ==> p.borrowOwed - 0.5 <= (t.borrowCents - p.borrowCents) as real <= p.borrowOwed + 0.5
  }

  /** What an order at a raw price does to the book that holds the position. */
  predicate Ends(d: Desk, s: State, t: State, ts: int, raw: real, o: Order, reason: Reason)
    requires s.pos.Some?
  {
    var p, price := s.pos.value, FillPrice(CostingOf(d), o, raw);
    var notional := Notional(p.qty, price);
    var fees := Fees(CostingOf(d), notional);
    && t.pos.None? && |t.trades| == |s.trades| + 1 && t.trades[..|s.trades|] == s.trades
    && var trade := t.trades[|s.trades|];
      && Writes(trade, d, p, ts, price, reason) && Settles(trade, p) && trade.seqNo == |s.trades| + 1
      && trade.feesCents == p.feesCents + fees
      && trade.pnlCents == (if p.short then p.entryCents - notional else notional - p.entryCents)
                           + trade.dividendsCents + trade.splitCashCents - trade.borrowCents - trade.feesCents
      && t.cash == s.cash + (if p.short then -notional else notional) - fees - (trade.borrowCents - p.borrowCents)
      && t.tally == s.tally.(borrowCents := s.tally.borrowCents + (trade.borrowCents - p.borrowCents)) && t.equity == s.equity
  }

  /** What is still owed for borrowing is settled to the nearest cent before the trade is
      written. */
  lemma LastRent(s: State)
    requires s.pos.Some?
    ensures var p := s.pos.value;
      var t := BorrowPaid(s, Round(p.borrowOwed));
      && t.pos.Some? && s.cash - t.cash == t.pos.value.borrowCents - p.borrowCents
      && (p.borrowOwed >= 0.0 ==> p.borrowOwed - 0.5 <= (s.cash - t.cash) as real <= p.borrowOwed + 0.5)
      && t.pos.value == p.(borrowOwed := t.pos.value.borrowOwed, borrowCents := t.pos.value.borrowCents)
      && t.trades == s.trades
  {
    RoundNearest(s.pos.value.borrowOwed);
  }

  lemma RecordedIs(d: Desk, s: State, ts: int, price: real, gross: int, fees: int, reason: Reason)
    requires s.pos.Some?
    ensures var p, t := s.pos.value, Recorded(d, s, ts, price, gross, fees, reason);
      && t.pos.None? && |t.trades| == |s.trades| + 1 && t.trades[..|s.trades|] == s.trades
      && var trade := t.trades[|s.trades|];
        && Writes(trade, d, p, ts, price, reason) && Settles(trade, p) && trade.seqNo == |s.trades| + 1
        && trade.feesCents == p.feesCents + fees
        && trade.pnlCents == gross + trade.dividendsCents + trade.splitCashCents - trade.borrowCents - trade.feesCents
        && t.cash == s.cash - (trade.borrowCents - p.borrowCents)
        && t.tally == s.tally.(borrowCents := s.tally.borrowCents + (trade.borrowCents - p.borrowCents)) && t.equity == s.equity
  {
    LastRent(s);
  }

  lemma UnwoundIs(d: Desk, s: State, ts: int, raw: real, o: Order, reason: Reason)
    requires s.pos.Some?
    ensures var price := FillPrice(CostingOf(d), o, raw);
      var notional := Notional(s.pos.value.qty, price);
      Ends(d, s, Unwound(d, s, ts, price, notional, Fees(CostingOf(d), notional), reason), ts, raw, o, reason)
  {
    var p, price := s.pos.value, FillPrice(CostingOf(d), o, raw);
    var notional := Notional(p.qty, price);
    var fees := Fees(CostingOf(d), notional);
    RecordedIs(d, s.(cash := s.cash + Proceeds(p, notional) - fees), ts, price, Gross(p, notional), fees, reason);
  }

  /** An order that fills ends the position; one that does not changes nothing. */
  lemma ExitIs(d: Desk, s: State, ts: int, bar: Bar, o: Order, reason: Reason)
    requires s.pos.Some?
    ensures if Filled(o, bar).Some? then Ends(d, s, Exited(d, s, ts, bar, o, reason), ts, Filled(o, bar).value, o, reason)
            else Exited(d, s, ts, bar, o, reason) == s
  {
    if Filled(o, bar).Some? {
      UnwoundIs(d, s, ts, Filled(o, bar).value, o, reason);
    }
  }

  /** The order that ends a position is the other side's. */
  predicate Counters(o: Order, p: Position) {
    o.side == if p.short then Buy else Sell
  }

  // ---------- at the open ----------

  /** A signal to leave is carried out at the next open, and every intent is used up there. */
  lemma SignalLeavesAtTheOpen(d: Desk, s: State, c: Candle)
    requires s.pending.Leave?
    ensures var t := Served(d, s, c);
      && t.pending == Nothing
      && (if s.pos.Some? then
            exists o: Order :: o.kind == Market && Counters(o, s.pos.value)
              && Ends(d, s.(pending := Nothing), t, c.ts, c.open, o, BySignal)
          else t == s.(pending := Nothing))
  {
    if s.pos.Some? {
      ExitIs(d, s.(pending := Nothing), c.ts, BarOf(c), ToClose(s.pos.value), BySignal);
      assert Counters(ToClose(s.pos.value), s.pos.value);
    }
  }

  /** An intent to enter is carried out only by a flat book. */
  lemma EntryIsTaken(d: Desk, s: State, c: Candle)
    requires !s.pending.Leave?
    ensures Served(d, s, c) ==
      if s.pending.Enter? && s.pos.None? then Entered(d, s.(pending := Nothing), s.pending, c.ts, c.open)
      else s.(pending := Nothing)
  {
  }

  // ---------- within the bar ----------

  /** Where a resting order is filled: at the open if that is already past its level, and at
      the level otherwise. */
  function Taken(open: real, level: real, past: bool): real {
    if past then open else level
  }

  predicate Stopped(p: Position, c: Candle) {
    p.stop > 0.0 && if p.short then c.high >= p.stop else c.low <= p.stop
  }

  predicate Reached(p: Position, c: Candle) {
    p.target > 0.0 && if p.short then c.low <= p.target else c.high >= p.target
  }

  /** A bar that reaches both is counted: which came first it does not tell. */
  function Noticed(s: State, c: Candle): State
    requires s.pos.Some?
  {
    if Stopped(s.pos.value, c) && Reached(s.pos.value, c)
    then s.(tally := s.tally.(ambiguousBars := s.tally.ambiguousBars + 1)) else s
  }

  lemma StopEnds(d: Desk, s: State, c: Candle)
    requires s.pos.Some? && Stopped(s.pos.value, c)
    ensures var p := s.pos.value;
      Ends(d, Noticed(s, c), Guarded(d, s, c), c.ts,
           Taken(c.open, p.stop, if p.short then c.open >= p.stop else c.open <= p.stop), StopOrder(p), ByStop)
  {
    ExitIs(d, Noticed(s, c), c.ts, BarOf(c), StopOrder(s.pos.value), ByStop);
  }

  lemma TargetEnds(d: Desk, s: State, c: Candle)
    requires s.pos.Some? && !Stopped(s.pos.value, c) && Reached(s.pos.value, c)
    ensures var p := s.pos.value;
      Ends(d, s, Guarded(d, s, c), c.ts,
           Taken(c.open, p.target, if p.short then c.open <= p.target else c.open >= p.target), TargetOrder(p), ByTarget)
  {
    ExitIs(d, s, c.ts, BarOf(c), TargetOrder(s.pos.value), ByTarget);
  }

  /** A bar that reaches the stop ends the position there, whatever else it reaches; one that
      reaches only the target ends it at the target; and no other bar ends it. */
  lemma BracketsEnd(d: Desk, s: State, c: Candle)
    requires s.pos.Some?
    ensures var p, t := s.pos.value, Guarded(d, s, c);
      if Stopped(p, c) then
        Ends(d, Noticed(s, c), t, c.ts, Taken(c.open, p.stop, if p.short then c.open >= p.stop else c.open <= p.stop),
             StopOrder(p), ByStop)
      else if Reached(p, c) then
        Ends(d, s, t, c.ts, Taken(c.open, p.target, if p.short then c.open <= p.target else c.open >= p.target),
             TargetOrder(p), ByTarget)
      else t == s
  {
    if Stopped(s.pos.value, c) {
      StopEnds(d, s, c);
    } else if Reached(s.pos.value, c) {
      TargetEnds(d, s, c);
    }
  }

  lemma RestingOrders(p: Position)
    ensures Counters(StopOrder(p), p) && StopOrder(p).kind == OrderKind.Stop && StopOrder(p).price == p.stop
    ensures Counters(TargetOrder(p), p) && TargetOrder(p).kind == Limit && TargetOrder(p).price == p.target
  {
  }

  // ---------- at the close ----------

  /** The last close ends whatever is open. */
  lemma RunEndsAtTheClose(d: Desk, s: State, c: Candle)
    ensures var t := ClosedOut(d, s, c);
      && t.pending == Nothing
      && (if s.pos.Some? then
            exists o: Order :: o.kind == Market && Counters(o, s.pos.value)
              && Ends(d, s.(pending := Nothing), t, c.ts, c.close, o, EndOfRun)
          else t == s.(pending := Nothing))
  {
    if s.pos.Some? {
      ExitIs(d, s.(pending := Nothing), c.ts, CloseOf(c), ToClose(s.pos.value), EndOfRun);
      assert Counters(ToClose(s.pos.value), s.pos.value);
    }
  }

  /** A leg's levels, when all of them are known. */
  ghost predicate Known(p: Plan, leg: Leg, h: seq<Sample>)
    requires Ready(p)
  {
    GuardFor(p, leg.stop, h).Some? && GuardFor(p, leg.target, h).Some?
  }

  /** A book that holds leaves when its own side's exit fires.  A flat one enters long when
      the long entry fires, else short when the short one does, unless the levels of the leg
      it would enter are not known, which is counted; and nothing else is left pending. */
  lemma CloseDecides(d: Desk, s: State, h: seq<Sample>)
    requires Ready(d.plan) && LegUsable(d.plan.long, d.plan) && LegUsable(d.plan.short, d.plan)
    ensures var f, t := History(d.plan.wiring, h), Signalled(d, s, h);
      var leg := if Fires(d.plan.long.entry, f) then d.plan.long else d.plan.short;
      && (t.pending == Leave <==> s.pos.Some? && Fires((if s.pos.value.short then d.plan.short else d.plan.long).exit, f))
      && (t.pending.Enter? <==> s.pos.None? && Fires(leg.entry, f) && Known(d.plan, leg, h))
      && (t.pending.Enter? ==>
            && t.pending.short == !Fires(d.plan.long.entry, f)
            && Some(t.pending.stop) == GuardFor(d.plan, leg.stop, h)
            && Some(t.pending.target) == GuardFor(d.plan, leg.target, h))
      && t == s.(pending := t.pending, tally := s.tally.(skippedEntries := t.tally.skippedEntries))
      && t.tally.skippedEntries - s.tally.skippedEntries
         == if s.pos.None? && Fires(leg.entry, f) && !Known(d.plan, leg, h) then 1 else 0
  {
  }

  /** What the curve shows at a close: cash, and what the shares would bring or cost there. */
  lemma CurveShowsTheBook(s: State, c: Candle)
    ensures var t := Marked(s, c);
      && |t.equity| == |s.equity| + 1 && t.equity[..|s.equity|] == s.equity
      && t.equity[|s.equity|] == Point(c.ts,
           match s.pos
           case None => s.cash
           case Some(p) => if p.short then s.cash - Notional(p.qty, c.close) else s.cash + Notional(p.qty, c.close))
      && t.held == (if s.pos.Some? then s.held + [c.ts] else s.held)
      && t.tally.barsInMarket - s.tally.barsInMarket == |t.held| - |s.held|
      && t.cash == s.cash && t.pos == s.pos && t.trades == s.trades && t.pending == s.pending
  {
  }
}
