/** The run's totals are its trades': what was paid in dividends, borrow and split cash adds
    up over the log and the open position, and every stamp held is counted. */
module Tallies {
  import opened Outcomes
  import opened Numbers
  import opened Bars
  import opened Tapes
  import opened Broker
  import opened Actions
  import opened Books

  /** The streams of cash a trade records besides its price and fees. */
  datatype Stream = Dividends | Borrow | SplitCash

  function InTrade(k: Stream, t: Trade): int {
    match k
    case Dividends => t.dividendsCents
    case Borrow => t.borrowCents
    case SplitCash => t.splitCashCents
  }

  function InTrades(k: Stream, trades: seq<Trade>): int {
    if trades == [] then 0 else InTrades(k, trades[..|trades| - 1]) + InTrade(k, trades[|trades| - 1])
  }

  function InPosition(k: Stream, pos: Option<Position>): int {
    match (k, pos)
    case (_, None) => 0
    case (Dividends, Some(p)) => p.divCents
    case (Borrow, Some(p)) => p.borrowCents
    case (SplitCash, Some(p)) => p.splitCents
  }

  function InTally(k: Stream, t: Tally): int {
    match k
    case Dividends => t.dividendsCents
    case Borrow => t.borrowCents
    case SplitCash => t.splitCashCents
  }

  predicate Tallied(k: Stream, s: State) {
    InTally(k, s.tally) == InTrades(k, s.trades) + InPosition(k, s.pos)
  }

  lemma TradesGrow(k: Stream, trades: seq<Trade>, t: Trade)
    ensures InTrades(k, trades + [t]) == InTrades(k, trades) + InTrade(k, t)
  {
    assert (trades + [t])[..|trades|] == trades;
  }

  lemma BorrowTallies(k: Stream, s: State, cents: int)
    requires Tallied(k, s)
    ensures Tallied(k, BorrowPaid(s, cents)) && BorrowPaid(s, cents).trades == s.trades
    ensures s.pos.Some? ==> BorrowPaid(s, cents).pos.Some?
  {
  }

  lemma RecordTallies(k: Stream, d: Desk, s: State, ts: int, price: real, gross: int, fees: int, reason: Reason)
    requires s.pos.Some? && Tallied(k, s)
    ensures Tallied(k, Recorded(d, s, ts, price, gross, fees, reason))
  {
    var settled := BorrowPaid(s, Round(s.pos.value.borrowOwed));
    BorrowTallies(k, s, Round(s.pos.value.borrowOwed));
    TradesGrow(k, settled.trades, TradeOf(d, settled, settled.pos.value, ts, price, gross, fees, reason));
  }

  lemma UnwindTallies(k: Stream, d: Desk, s: State, ts: int, price: real, notional: int, fees: int, reason: Reason)
    requires s.pos.Some? && Tallied(k, s)
    ensures Tallied(k, Unwound(d, s, ts, price, notional, fees, reason))
  {
    var paid := s.(cash := s.cash + Proceeds(s.pos.value, notional) - fees);
    RecordTallies(k, d, paid, ts, price, Gross(s.pos.value, notional), fees, reason);
  }

  lemma ExitTallies(k: Stream, d: Desk, s: State, ts: int, bar: Bar, o: Order, reason: Reason)
    requires s.pos.Some? && Tallied(k, s)
    ensures Tallied(k, Exited(d, s, ts, bar, o, reason))
  {
    var raw := Filled(o, bar);
    if raw.Some? {
      var price := FillPrice(CostingOf(d), o, raw.value);
      var notional := Notional(s.pos.value.qty, price);
      UnwindTallies(k, d, s, ts, price, notional, Fees(CostingOf(d), notional), reason);
    }
  }

  lemma CreditTallies(k: Stream, s: State, perShare: real)
    requires Tallied(k, s)
    ensures Tallied(k, Credited(s, perShare))
  {
  }

  lemma ChargeTallies(k: Stream, d: Desk, s: State, prev: Option<Candle>)
    requires Tallied(k, s)
    ensures Tallied(k, Charged(d, s, prev))
  {
    if RateFor(d, s, prev) > 0.0 {
      var owed := OwedAfter(d, s.pos.value, prev.value, RateFor(d, s, prev));
      BorrowTallies(k, s.(pos := Some(s.pos.value.(borrowOwed := owed))), Truncate(owed));
    }
  }

  lemma CashOutTallies(k: Stream, s: State, shares: real, price: real)
    requires Tallied(k, s)
    ensures Tallied(k, CashedOut(s, shares, price)) && (s.pos.Some? ==> CashedOut(s, shares, price).pos.Some?)
  {
  }

  lemma SplitTallies(k: Stream, d: Desk, s: State, c: Candle, factor: real)
    requires Tallied(k, s)
    ensures Tallied(k, Adjusted(d, s, c, factor))
  {
    if factor > 0.0 && s.pos.Some? {
      var seen := s.(tally := s.tally.(splitEvents := s.tally.splitEvents + 1));
      var exact, qty := ExactShares(seen.pos.value.qty, factor), SharesAfter(seen.pos.value.qty, factor);
      if qty < 1 {
        var gross := if s.pos.value.short then s.pos.value.entryCents else -s.pos.value.entryCents;
        CashOutTallies(k, seen, exact, SplitPrice(c));
        RecordTallies(k, d, CashedOut(seen, exact, SplitPrice(c)), c.ts, SplitPrice(c), gross, 0, BySplit);
      } else {
        CashOutTallies(k, seen, exact - qty as real, SplitPrice(c));
      }
    }
  }

  lemma ServeTallies(k: Stream, d: Desk, s: State, c: Candle)
    requires Tallied(k, s)
    ensures Tallied(k, Served(d, s, c))
  {
    if s.pending.Leave? && s.pos.Some? {
      ExitTallies(k, d, s.(pending := Nothing), c.ts, BarOf(c), ToClose(s.pos.value), BySignal);
    }
  }

  lemma GuardTallies(k: Stream, d: Desk, s: State, c: Candle)
    requires Tallied(k, s)
    ensures Tallied(k, Guarded(d, s, c))
  {
    if s.pos.Some? {
      var p := s.pos.value;
      var seen := s.(tally := s.tally.(ambiguousBars := s.tally.ambiguousBars + 1));
      forall t | t == s || t == seen
        ensures Tallied(k, Exited(d, t, c.ts, BarOf(c), StopOrder(p), ByStop))
        ensures Tallied(k, Exited(d, t, c.ts, BarOf(c), TargetOrder(p), ByTarget))
      {
        ExitTallies(k, d, t, c.ts, BarOf(c), StopOrder(p), ByStop);
        ExitTallies(k, d, t, c.ts, BarOf(c), TargetOrder(p), ByTarget);
      }
    }
  }

  lemma DecideTallies(k: Stream, job: Job, s: State, i: nat)
    requires Ready(job.desk.plan) && i < |job.candles| && Tallied(k, s)
    ensures Tallied(k, Decided(job, s, i))
  {
    if Final(job, i) && s.pos.Some? {
      ExitTallies(k, job.desk, s.(pending := Nothing), job.candles[i].ts, CloseOf(job.candles[i]), ToClose(s.pos.value), EndOfRun);
    }
  }

  lemma StepTallies(k: Stream, job: Job, s: State, i: nat)
    requires Ready(job.desk.plan) && i < |job.candles| && Tallied(k, s)
    ensures Tallied(k, Step(job, s, i))
  {
    var d, c := job.desk, job.candles[i];
    var credited := Credited(s, DividendAt(job.candles, i));
    CreditTallies(k, s, DividendAt(job.candles, i));
    ChargeTallies(k, d, credited, Before(job, i));
    SplitTallies(k, d, Charged(d, credited, Before(job, i)), c, FactorAt(job.candles, i));
    var morning := Overnight(job, s, i);
    ServeTallies(k, d, morning, c);
    GuardTallies(k, d, Served(d, morning, c), c);
    DecideTallies(k, job, Guarded(d, Served(d, morning, c), c), i);
  }

  /** After every bar the totals are the log's and the open position's; a run ends flat, so
      at its end they are the log's alone. */
  lemma {:induction false} TotalsAreTheLogs(k: Stream, job: Job, n: nat)
    requires Ready(job.desk.plan) && n <= |job.candles|
    ensures Tallied(k, After(job, n))
  {
    if n > 0 {
      TotalsAreTheLogs(k, job, n - 1);
      StepTallies(k, job, After(job, n - 1), n - 1);
    }
  }
}
