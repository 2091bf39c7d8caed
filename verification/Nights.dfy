/** What a night does to a position: dividends, borrow and splits, each in terms of what was
    held, and nothing else. */
module Nights {
  import opened Outcomes
  import opened Numbers
  import opened Bars
  import opened Broker
  import opened Actions
  import opened Books

  // ---------- dividends ----------

  /** A dividend brings a long its cents a share and costs a short the same, to the nearest
      cent, and is noted on the position; without one, or without a position, nothing moves. */
  lemma DividendIsPaid(s: State, perShare: real)
    ensures var t := Credited(s, perShare);
      if s.pos.Some? && perShare > 0.0 then
        var p := s.pos.value;
        var paid := t.cash - s.cash;
        && (if p.short then Nearest(-paid, p.qty as real * perShare * 100.0) else Nearest(paid, p.qty as real * perShare * 100.0))
        && t.pos == Some(p.(divCents := p.divCents + paid))
        && t.trades == s.trades && t.equity == s.equity && t.pending == s.pending
        && t.tally.dividendEvents == s.tally.dividendEvents + 1
      else
        t == s
  {
    if s.pos.Some? {
      RoundNearest(s.pos.value.qty as real * perShare * 100.0);
    }
  }

  function ExactCents(shares: real, price: real): real {
    shares * price * 100.0
  }

  predicate Nearest(cents: int, exact: real) {
    exact - 0.5 <= cents as real <= exact + 0.5
  }

  lemma PositiveCents(qty: int, perShare: real)
    requires qty >= 1 && perShare >= 0.01
    ensures qty as real * perShare * 100.0 >= 1.0
  {
    TimesMonotone(1.0, qty as real, perShare);
  }

  /** So a dividend of a cent or more raises a long's cash and lowers a short's. */
  lemma DividendTakesSides(s: State, perShare: real)
    requires s.pos.Some? && s.pos.value.qty >= 1 && perShare >= 0.01
    ensures if s.pos.value.short then Credited(s, perShare).cash < s.cash else Credited(s, perShare).cash > s.cash
  {
    DividendIsPaid(s, perShare);
    PositiveCents(s.pos.value.qty, perShare);
  }

  // ---------- borrow ----------

  /** Only a short that borrows pays rent, from its second bar on: the rate on the value of
      its shares at the previous close.  Whole cents of what is owed leave cash and the rest,
      less than a cent, stays owed. */
  lemma RentIsCharged(d: Desk, s: State, prev: Candle)
    requires s.pos.Some? && s.pos.value.short && d.borrow.Some? && d.borrow.value.rate(prev.ts) > 0.0
    requires s.pos.value.borrowOwed >= 0.0 && s.pos.value.qty >= 1 && prev.close >= 0.0
    ensures var p, t := s.pos.value, Charged(d, s, Some(prev));
      && t.pos.Some?
      && var q := t.pos.value;
        && s.cash - t.cash == q.borrowCents - p.borrowCents >= 0
        && q.borrowOwed + (q.borrowCents - p.borrowCents) as real
           == p.borrowOwed + Notional(p.qty, prev.close) as real * d.borrow.value.rate(prev.ts)
        && 0.0 <= q.borrowOwed < 1.0
        && t.trades == s.trades && t.equity == s.equity
  {
    var p, rate := s.pos.value, d.borrow.value.rate(prev.ts);
    NotionalMonotone(0, p.qty, prev.close);
    TimesMonotone(0.0, Notional(p.qty, prev.close) as real, rate);
    RentMoves(s, OwedAfter(d, p, prev, rate));
  }

  lemma RentMoves(s: State, owed: real)
    requires s.pos.Some? && owed >= 0.0
    ensures var p := s.pos.value;
      var t := BorrowPaid(s.(pos := Some(p.(borrowOwed := owed))), Truncate(owed));
      && t.pos.Some?
      && var q := t.pos.value;
        && s.cash - t.cash == q.borrowCents - p.borrowCents >= 0
        && q.borrowOwed + (q.borrowCents - p.borrowCents) as real == owed
        && 0.0 <= q.borrowOwed < 1.0
        && t.trades == s.trades && t.equity == s.equity
  {
  }

  /** Everyone else pays none. */
  lemma NoRent(d: Desk, s: State, prev: Option<Candle>)
    requires s.pos.None? || !s.pos.value.short || prev.None? || d.borrow.None? || d.borrow.value.rate(prev.value.ts) <= 0.0
    ensures Charged(d, s, prev) == s
  {
  }

  // ---------- splits ----------

  lemma SamePart(x: real, factor: real)
    requires factor > 0.0
    ensures x / factor * factor == x
  {
    QuotientTimes(x, factor);
  }

  /** What the fraction is worth at the open changes hands, to the nearest cent. */
  lemma FractionIsPaid(s: State, shares: real, price: real)
    requires s.pos.Some?
    ensures var p, t := s.pos.value, CashedOut(s, shares, price);
      && t.pos == Some(p.(splitCents := p.splitCents + (t.cash - s.cash)))
      && (shares > 0.0 && price > 0.0 ==>
            Nearest(if p.short then s.cash - t.cash else t.cash - s.cash, ExactCents(shares, price)))
      && (shares <= 0.0 || price <= 0.0 ==> t.cash == s.cash)
  {
    RoundNearest(shares * price * 100.0);
  }

  /** The levels and the price of a position once its shares are multiplied. */
  predicate Rescaled(p: Position, q: Position, factor: real) {
    && q.entryPrice * factor == p.entryPrice
    && (if p.stop > 0.0 then q.stop * factor == p.stop else q.stop == p.stop)
    && (if p.target > 0.0 then q.target * factor == p.target else q.target == p.target)
    && q.short == p.short && q.entryTs == p.entryTs && q.entryCents == p.entryCents && q.feesCents == p.feesCents
    && q.divCents == p.divCents && q.borrowCents == p.borrowCents && q.borrowOwed == p.borrowOwed
  }

  lemma ShapeRescales(p: Position, qty: int, factor: real)
    requires factor > 0.0
    ensures Rescaled(p, Reshaped(p, qty, factor), factor)
    ensures Reshaped(p, qty, factor).qty == qty && Reshaped(p, qty, factor).splitCents == p.splitCents
  {
    SamePart(p.entryPrice, factor);
    SamePart(p.stop, factor);
    SamePart(p.target, factor);
  }

  lemma RescaledThrough(p: Position, q: Position, r: Position, factor: real)
    requires q == p.(splitCents := q.splitCents) && Rescaled(q, r, factor)
    ensures Rescaled(p, r, factor)
  {
  }

  lemma SplitGoesOn(s: State, qty: int, factor: real, rest: real, price: real)
    requires s.pos.Some? && factor > 0.0
    ensures var p, t := s.pos.value, SplitKept(s, qty, factor, rest, price);
      && t.pos.Some? && t.pos.value.qty == qty && Rescaled(p, t.pos.value, factor)
      && t.pos.value.splitCents - p.splitCents == t.cash - s.cash == CashedOut(s, rest, price).cash - s.cash
      && t.tally.splitsApplied == s.tally.splitsApplied + 1 && t.tally.splitEvents == s.tally.splitEvents
      && t.trades == s.trades
  {
    var paid := CashedOut(s, rest, price);
    FractionIsPaid(s, rest, price);
    ShapeRescales(paid.pos.value, qty, factor);
    RescaledThrough(s.pos.value, paid.pos.value, Reshaped(paid.pos.value, qty, factor), factor);
  }

  lemma SharesLeft(qty: int, factor: real)
    requires Multiple(factor) && ExactShares(qty, factor) >= 1.0
    ensures SharesAfter(qty, factor) >= 1 && 0.0 <= ExactShares(qty, factor) - SharesAfter(qty, factor) as real < 1.0
  {
    SplitLeavesWholeShares(qty, factor);
  }

  lemma SplitIsKept(d: Desk, s: State, c: Candle, factor: real, exact: real, qty: int)
    requires s.pos.Some? && factor > 0.0
    requires exact == ExactShares(s.pos.value.qty, factor) && qty == SharesAfter(s.pos.value.qty, factor) >= 1
    ensures Adjusted(d, s, c, factor) ==
      SplitKept(s.(tally := s.tally.(splitEvents := s.tally.splitEvents + 1)), qty, factor, exact - qty as real, SplitPrice(c))
  {
  }

  /** What a split that leaves a share makes of a book: `rest` is the fraction left over. */
  predicate SplitThrough(s: State, t: State, factor: real, rest: real, open: real)
    requires s.pos.Some?
  {
    && t.pos.Some? && Rescaled(s.pos.value, t.pos.value, factor)
    && t.pos.value.splitCents - s.pos.value.splitCents == t.cash - s.cash
    && (if rest <= 0.0 then t.cash == s.cash
        else Nearest(if s.pos.value.short then s.cash - t.cash else t.cash - s.cash, ExactCents(rest, open)))
    && t.tally.splitsApplied == s.tally.splitsApplied + 1 && t.tally.splitEvents == s.tally.splitEvents + 1
    && t.trades == s.trades
  }

  lemma SplitsThrough(s: State, qty: int, factor: real, rest: real, open: real)
    requires s.pos.Some? && factor > 0.0 && open > 0.0
    ensures var t := SplitKept(s.(tally := s.tally.(splitEvents := s.tally.splitEvents + 1)), qty, factor, rest, open);
      SplitThrough(s, t, factor, rest, open) && t.pos.value.qty == qty
  {
    var seen := s.(tally := s.tally.(splitEvents := s.tally.splitEvents + 1));
    SplitGoesOn(seen, qty, factor, rest, open);
    FractionIsPaid(seen, rest, open);
  }

  /** A split that leaves a share multiplies the shares and divides the price and the levels
      by the same number, and pays the fraction in cash at the open: a long is paid for it
      and a short pays.  What the position cost stays as it was. */
  lemma SplitKeepsShape(d: Desk, s: State, c: Candle, factor: real, rest: real)
    requires s.pos.Some? && Multiple(factor) && factor > 0.0 && c.open > 0.0
    requires ExactShares(s.pos.value.qty, factor) >= 1.0
    requires rest == ExactShares(s.pos.value.qty, factor) - SharesAfter(s.pos.value.qty, factor) as real
    ensures var t := Adjusted(d, s, c, factor);
      SplitThrough(s, t, factor, rest, c.open) && 0.0 <= rest < 1.0
      && t.pos.value.qty as real + rest == ExactShares(s.pos.value.qty, factor)
  {
    var exact, qty := ExactShares(s.pos.value.qty, factor), SharesAfter(s.pos.value.qty, factor);
    SharesLeft(s.pos.value.qty, factor);
    SplitIsKept(d, s, c, factor, exact, qty);
    SplitsThrough(s, qty, factor, rest, c.open);
  }

  /** A grouping that leaves no share pays for all of it and closes the trade, at no fee. */
  lemma GroupingPaysOut(d: Desk, s: State, c: Candle, factor: real)
    requires s.pos.Some? && factor > 0.0 && SharesAfter(s.pos.value.qty, factor) < 1
    ensures var t := Adjusted(d, s, c, factor);
      && t.pos.None? && |t.trades| == |s.trades| + 1
      && var trade := t.trades[|s.trades|];
        trade.reason == BySplit && trade.feesCents == s.pos.value.feesCents && trade.exitTs == c.ts
  {
  }
}
