/** Money is neither made nor lost by the engine: cash is always the starting capital, plus
    what closed trades brought, plus what the open position has moved so far. */
module Conservation {
  import opened Outcomes
  import opened Numbers
  import opened Bars
  import opened Tapes
  import opened Broker
  import opened Actions
  import opened Books

  function PnlTotal(trades: seq<Trade>): int {
    if trades == [] then 0 else PnlTotal(trades[..|trades| - 1]) + trades[|trades| - 1].pnlCents
  }

  lemma PnlGrows(trades: seq<Trade>, t: Trade)
    ensures PnlTotal(trades + [t]) == PnlTotal(trades) + t.pnlCents
  {
    assert (trades + [t])[..|trades|] == trades;
  }

  /** What an open position has taken out of cash, or brought in, so far. */
  function Carried(pos: Option<Position>): int {
    match pos
    case None => 0
    case Some(p) => (if p.short then p.entryCents else -p.entryCents) + Moved(p)
  }

  /** The entry's fees, and everything that came and went since. */
  function Moved(p: Position): int {
    p.divCents + p.splitCents - p.borrowCents - p.feesCents
  }

  predicate Balanced(s: State, capital: int) {
    s.cash == capital + PnlTotal(s.trades) + Carried(s.pos)
  }

  lemma RecordBalances(d: Desk, s: State, ts: int, price: real, gross: int, fees: int, reason: Reason, capital: int)
    requires s.pos.Some?
    requires s.cash == capital + PnlTotal(s.trades) + gross + Moved(s.pos.value) - fees
    ensures Balanced(Recorded(d, s, ts, price, gross, fees, reason), capital)
    ensures Recorded(d, s, ts, price, gross, fees, reason).pos.None?
    ensures Recorded(d, s, ts, price, gross, fees, reason).equity == s.equity
  {
    var settled := BorrowPaid(s, Round(s.pos.value.borrowOwed));
    PnlGrows(settled.trades, TradeOf(d, settled, settled.pos.value, ts, price, gross, fees, reason));
  }

  lemma UnwindBalances(d: Desk, s: State, ts: int, price: real, notional: int, fees: int, reason: Reason, capital: int)
    requires s.pos.Some? && Balanced(s, capital)
    ensures Kept(Unwound(d, s, ts, price, notional, fees, reason), s, capital)
    ensures Unwound(d, s, ts, price, notional, fees, reason).pos.None?
  {
    var paid := s.(cash := s.cash + Proceeds(s.pos.value, notional) - fees);
    RecordBalances(d, paid, ts, price, Gross(s.pos.value, notional), fees, reason, capital);
  }

  lemma ExitBalances(d: Desk, s: State, ts: int, bar: Bar, o: Order, reason: Reason, capital: int)
    requires s.pos.Some? && Balanced(s, capital)
    ensures Balanced(Exited(d, s, ts, bar, o, reason), capital) && Exited(d, s, ts, bar, o, reason).equity == s.equity
    ensures o.kind == Market ==> Exited(d, s, ts, bar, o, reason).pos.None?
  {
    var raw := Filled(o, bar);
    if raw.Some? {
      var price := FillPrice(CostingOf(d), o, raw.value);
      var notional := Notional(s.pos.value.qty, price);
      UnwindBalances(d, s, ts, price, notional, Fees(CostingOf(d), notional), reason, capital);
    }
  }

  lemma AdjustBalances(d: Desk, s: State, c: Candle, factor: real, capital: int)
    requires Balanced(s, capital)
    ensures Balanced(Adjusted(d, s, c, factor), capital) && Adjusted(d, s, c, factor).equity == s.equity
  {
    if factor > 0.0 && s.pos.Some? {
      var seen := s.(tally := s.tally.(splitEvents := s.tally.splitEvents + 1));
      var exact := ExactShares(seen.pos.value.qty, factor);
      if SharesAfter(seen.pos.value.qty, factor) < 1 {
        var gross := if s.pos.value.short then s.pos.value.entryCents else -s.pos.value.entryCents;
        var paid := CashedOut(seen, exact, SplitPrice(c));
        RecordBalances(d, paid, c.ts, SplitPrice(c), gross, 0, BySplit, capital);
      }
    }
  }

  lemma OvernightBalances(job: Job, s: State, i: nat, capital: int)
    requires i < |job.candles| && Balanced(s, capital)
    ensures Balanced(Overnight(job, s, i), capital) && Overnight(job, s, i).equity == s.equity
  {
    var credited := Credited(s, DividendAt(job.candles, i));
    var charged := Charged(job.desk, credited, Before(job, i));
    AdjustBalances(job.desk, charged, job.candles[i], FactorAt(job.candles, i), capital);
  }

  lemma ServeBalances(d: Desk, s: State, c: Candle, capital: int)
    requires Balanced(s, capital)
    ensures Balanced(Served(d, s, c), capital) && Served(d, s, c).equity == s.equity
  {
    if s.pending.Leave? && s.pos.Some? {
      ExitBalances(d, s.(pending := Nothing), c.ts, BarOf(c), ToClose(s.pos.value), BySignal, capital);
    }
  }

  predicate Kept(t: State, s: State, capital: int) {
    Balanced(t, capital) && t.equity == s.equity
  }

  lemma GuardBalances(d: Desk, s: State, c: Candle, capital: int)
    requires Balanced(s, capital)
    ensures Balanced(Guarded(d, s, c), capital) && Guarded(d, s, c).equity == s.equity
  {
    if s.pos.Some? {
      var p := s.pos.value;
      var seen := s.(tally := s.tally.(ambiguousBars := s.tally.ambiguousBars + 1));
      forall t | t == s || t == seen
        ensures Kept(Exited(d, t, c.ts, BarOf(c), StopOrder(p), ByStop), s, capital)
        ensures Kept(Exited(d, t, c.ts, BarOf(c), TargetOrder(p), ByTarget), s, capital)
      {
        ExitBalances(d, t, c.ts, BarOf(c), StopOrder(p), ByStop, capital);
        ExitBalances(d, t, c.ts, BarOf(c), TargetOrder(p), ByTarget, capital);
      }
    }
  }

  lemma CloseBalances(d: Desk, s: State, c: Candle, capital: int)
    requires Balanced(s, capital)
    ensures Balanced(ClosedOut(d, s, c), capital) && ClosedOut(d, s, c).equity == s.equity
    ensures ClosedOut(d, s, c).pos.None?
  {
    if s.pos.Some? {
      ExitBalances(d, s.(pending := Nothing), c.ts, CloseOf(c), ToClose(s.pos.value), EndOfRun, capital);
    }
  }

  lemma DecideBalances(job: Job, s: State, i: nat, capital: int)
    requires Ready(job.desk.plan) && i < |job.candles| && Balanced(s, capital)
    ensures Balanced(Decided(job, s, i), capital) && Decided(job, s, i).equity == s.equity
    ensures Final(job, i) ==> Decided(job, s, i).pos.None?
  {
    if Final(job, i) {
      CloseBalances(job.desk, s, job.candles[i], capital);
    } else {
      SignalMovesNoMoney(job.desk, s, Seen(job, i + 1));
    }
  }

  lemma SignalMovesNoMoney(d: Desk, s: State, h: seq<Sample>)
    requires Ready(d.plan)
    ensures var t := Signalled(d, s, h);
      t.cash == s.cash && t.pos == s.pos && t.trades == s.trades && t.equity == s.equity
  {
  }

  /** The last point of the curve is what the book was worth at the last close. */
  predicate MarkedAt(s: State, c: Candle) {
    s.equity != [] && s.equity[|s.equity| - 1] == Point(c.ts, Worth(s, c.close))
  }

  lemma StepBalances(job: Job, s: State, i: nat, capital: int)
    requires Ready(job.desk.plan) && i < |job.candles| && Balanced(s, capital)
    ensures Balanced(Step(job, s, i), capital)
    ensures |Step(job, s, i).equity| == |s.equity| + 1 && Step(job, s, i).equity[..|s.equity|] == s.equity
    ensures MarkedAt(Step(job, s, i), job.candles[i])
    ensures Final(job, i) ==> Step(job, s, i).pos.None?
  {
    var c := job.candles[i];
    OvernightBalances(job, s, i, capital);
    var morning := Overnight(job, s, i);
    ServeBalances(job.desk, morning, c, capital);
    var served := Served(job.desk, morning, c);
    GuardBalances(job.desk, served, c, capital);
    DecideBalances(job, Guarded(job.desk, served, c), i, capital);
  }

  /** Nothing can be bought before the first close. */
  lemma FirstBarIsFlat(job: Job)
    requires Ready(job.desk.plan) && job.candles != []
    ensures Step(job, Opening(job.capital), 0).pos.None? && Step(job, Opening(job.capital), 0).cash == job.capital
  {
    var start, c := Opening(job.capital), job.candles[0];
    assert Overnight(job, start, 0) == start;
    assert Guarded(job.desk, Served(job.desk, start, c), c) == start;
  }

  /** After every bar cash balances, and the curve's newest point is cash plus the open
      position at this close. */
  lemma {:induction false} CashBalances(job: Job, n: nat)
    requires Ready(job.desk.plan) && n <= |job.candles|
    ensures Balanced(After(job, n), job.capital)
    ensures |After(job, n).equity| == n
    ensures n > 0 ==> MarkedAt(After(job, n), job.candles[n - 1])
    ensures 0 < n == |job.candles| ==> After(job, n).pos.None?
  {
    if n > 0 {
      CashBalances(job, n - 1);
      StepBalances(job, After(job, n - 1), n - 1, job.capital);
    }
  }

  /** A run ends flat, so what it gained is exactly what its trades say. */
  lemma RunsEndFlat(job: Job)
    requires Ready(job.desk.plan) && job.candles != []
    ensures var s := After(job, |job.candles|);
      && s.pos.None?
      && s.equity != []
      && s.equity[|s.equity| - 1].cents == s.cash
      && s.cash - job.capital == PnlTotal(s.trades)
  {
    CashBalances(job, |job.candles|);
  }

  /** The curve carries the bars' own times and starts at the capital. */
  predicate Follows(equity: seq<Point>, candles: seq<Candle>, n: nat, capital: int)
    requires n <= |candles|
  {
    && |equity| == n
    && (forall i :: 0 <= i < n ==> equity[i].ts == candles[i].ts)
    && (n > 0 ==> equity[0].cents == capital)
  }

  lemma CurveGrows(candles: seq<Candle>, capital: int, s: State, i: nat, s': State)
    requires i < |candles| && Follows(s.equity, candles, i, capital)
    requires |s'.equity| == i + 1 && s'.equity[..i] == s.equity && MarkedAt(s', candles[i])
    requires i == 0 ==> s'.pos.None? && s'.cash == capital
    ensures Follows(s'.equity, candles, i + 1, capital)
  {
    assert forall k :: 0 <= k < i ==> s'.equity[k] == s'.equity[..i][k];
  }

  lemma FollowsStep(job: Job, s: State, i: nat, s': State)
    requires Ready(job.desk.plan) && 1 <= i < |job.candles| && s' == Step(job, s, i)
    requires Balanced(s, job.capital) && Follows(s.equity, job.candles, i, job.capital)
    ensures Balanced(s', job.capital) && Follows(s'.equity, job.candles, i + 1, job.capital)
  {
    StepBalances(job, s, i, job.capital);
    CurveGrows(job.candles, job.capital, s, i, s');
  }

  lemma FollowsFirst(job: Job, s: State)
    requires Ready(job.desk.plan) && job.candles != [] && s == Step(job, Opening(job.capital), 0)
    ensures Balanced(s, job.capital) && Follows(s.equity, job.candles, 1, job.capital)
  {
    FirstBarIsFlat(job);
    StepBalances(job, Opening(job.capital), 0, job.capital);
    CurveGrows(job.candles, job.capital, Opening(job.capital), 0, s);
  }

  predicate OnCourse(job: Job, s: State, i: nat) {
    1 <= i <= |job.candles| && Balanced(s, job.capital) && Follows(s.equity, job.candles, i, job.capital)
  }

  lemma FollowsOnward(job: Job, s: State, i: nat)
    requires Ready(job.desk.plan) && 1 <= i <= |job.candles| && OnCourse(job, s, i)
    ensures OnCourse(job, Onward(job, s, i), |job.candles|)
  {
    var keeps := (t: State, j: nat) => OnCourse(job, t, j);
    forall t, j: nat | j < |job.candles| ensures KeptBy(job, keeps, t, j) {
      if OnCourse(job, t, j) {
        FollowsStep(job, t, j, Step(job, t, j));
      }
    }
    OnwardKeeps(job, keeps, s, i);
  }

  lemma CurveFollowsBars(job: Job)
    requires Ready(job.desk.plan) && job.candles != []
    ensures Follows(After(job, |job.candles|).equity, job.candles, |job.candles|, job.capital)
  {
    var first := Step(job, Opening(job.capital), 0);
    FollowsFirst(job, first);
    FollowsOnward(job, first, 1);
    OnwardIsAfter(job, 0);
  }
}
