/** The backtest engine: one book, one tape, and cash that moves bar by bar. */
module Engines {
  import opened Outcomes
  import opened Numbers
  import opened Bars
  import opened Tapes
  import opened Broker
  import opened Sizing
  import opened Actions
  import opened Books

  class Engine {
    const job: Job
    const tape: Tape
    const acts: Actions
    var at: nat
    var cash: int
    var pos: Option<Position>
    var pending: Intent
    var trades: seq<Trade>
    var equity: seq<Point>
    var held: seq<int>
    var tally: Tally

    function Now(): State
      reads this
    {
      State(cash, pos, pending, trades, equity, held, tally)
    }

    ghost predicate Valid()
      reads this, tape, tape.Repr()
    {
      && tape.Valid()
      && tape.plan == job.desk.plan
      && Ready(job.desk.plan)
      && at <= |job.candles|
    }

    /** The dividends and factors were read off these candles. */
    ghost predicate Read() {
      && |acts.perShare| == |acts.factor| == |job.candles|
      && forall i :: 0 <= i < |job.candles| ==>
          acts.perShare[i] == DividendAt(job.candles, i) && acts.factor[i] == FactorAt(job.candles, i)
    }

    constructor (job: Job)
      requires Ready(job.desk.plan)
      modifies job.desk.plan.gauges
      ensures this.job == job && Valid() && Read() && at == 0
      ensures Now() == Opening(job.capital)
      ensures tape.hist == Samples(job.prime)
      ensures fresh(tape) && fresh(tape.bars) && fresh(tape.values)
    {
      this.job := job;
      var found := ActionsOf(job.candles);
      var ring := new Tape(job.desk.plan);
      acts, tape := found, ring;
      at, cash, pos, pending, trades, equity, held := 0, job.capital, None, Nothing, [], [], [];
      tally := Tally(0, 0, 0, 0, 0, 0, 0, 0, 0, 0);
      new;
      Prime();
    }

    /** The bars before the run warm the indicators up. */
    method Prime()
      requires Valid() && tape.hist == []
      modifies tape, tape.Repr()
      ensures Valid() && tape.hist == Samples(job.prime)
    {
      for i := 0 to |job.prime|
        invariant Valid() && tape.hist == Samples(job.prime[..i])
      {
        SamplesGrow(job.prime, i);
        tape.Push(SampleOf(job.prime[i]));
      }
      assert job.prime[..|job.prime|] == job.prime;
    }

    /** The book's next bar, if it is this stamp's. */
    method Advance(ts: int) returns (found: Option<nat>)
      requires Valid()
      modifies this`at
      ensures Valid()
      ensures found == if old(at) < |job.candles| && job.candles[old(at)].ts == ts then Some(old(at)) else None
      ensures at == if found.Some? then old(at) + 1 else old(at)
    {
      if at >= |job.candles| || job.candles[at].ts != ts {
        return None;
      }
      at := at + 1;
      return Some(at - 1);
    }

    method Credit(i: nat)
      requires i < |acts.perShare|
      modifies this`cash, this`pos, this`tally
      ensures Now() == Credited(old(Now()), acts.perShare[i])
    {
      if pos.None? {
        return;
      }
      var perShare := acts.perShare[i];
      if perShare <= 0.0 {
        return;
      }
      var paid := DividendCents(pos.value, perShare);
      cash := cash + paid;
      pos := Some(pos.value.(divCents := pos.value.divCents + paid));
      tally := tally.(dividendsCents := tally.dividendsCents + paid, dividendEvents := tally.dividendEvents + 1);
    }

    method Charge(i: nat)
      requires i < |job.candles|
      modifies this`cash, this`pos, this`tally
      ensures Now() == Charged(job.desk, old(Now()), Before(job, i))
    {
      if pos.None? || !pos.value.short || i == 0 || job.desk.borrow.None? {
        return;
      }
      var prev := job.candles[i - 1];
      var rate := job.desk.borrow.value.rate(prev.ts);
      if rate <= 0.0 {
        return;
      }
      var owed := OwedAfter(job.desk, pos.value, prev, rate);
      pos := Some(pos.value.(borrowOwed := owed));
      SettleBorrow(Truncate(owed));
    }

    method SettleBorrow(cents: int)
      requires pos.Some?
      modifies this`cash, this`pos, this`tally
      ensures Now() == BorrowPaid(old(Now()), cents)
    {
      if cents <= 0 {
        return;
      }
      cash := cash - cents;
      pos := Some(pos.value.(borrowOwed := pos.value.borrowOwed - cents as real, borrowCents := pos.value.borrowCents + cents));
      tally := tally.(borrowCents := tally.borrowCents + cents);
    }

    method Adjust(i: nat)
      requires i < |acts.factor| && i < |job.candles|
      modifies this`cash, this`pos, this`tally, this`trades
      ensures Now() == Adjusted(job.desk, old(Now()), job.candles[i], acts.factor[i])
    {
      var factor, candle := acts.factor[i], job.candles[i];
      if factor <= 0.0 {
        return;
      }
      tally := tally.(splitEvents := tally.splitEvents + 1);
      if pos.None? {
        return;
      }
      var exact, qty := ExactShares(pos.value.qty, factor), SharesAfter(pos.value.qty, factor);
      if qty < 1 {
        Settle(candle, exact);
        return;
      }
      Carry(qty, factor, exact - qty as real, SplitPrice(candle));
    }

    method Carry(qty: int, factor: real, rest: real, price: real)
      requires pos.Some? && factor > 0.0
      modifies this`cash, this`pos, this`tally
      ensures Now() == SplitKept(old(Now()), qty, factor, rest, price)
    {
      CashOut(rest, price);
      pos := Some(Reshaped(pos.value, qty, factor));
      tally := tally.(splitsApplied := tally.splitsApplied + 1);
    }

    method CashOut(shares: real, price: real)
      requires pos.Some?
      modifies this`cash, this`pos, this`tally
      ensures Now() == CashedOut(old(Now()), shares, price)
    {
      var paid := CashForShares(pos.value, shares, price);
      cash := cash + paid;
      pos := Some(pos.value.(splitCents := pos.value.splitCents + paid));
      tally := tally.(splitCashCents := tally.splitCashCents + paid);
    }

    method Settle(c: Candle, shares: real)
      requires pos.Some?
      modifies this`cash, this`pos, this`tally, this`trades
      ensures Now() == SplitOut(job.desk, old(Now()), c, shares)
    {
      var gross := if pos.value.short then pos.value.entryCents else -pos.value.entryCents;
      CashOut(shares, SplitPrice(c));
      Record(c.ts, SplitPrice(c), gross, 0, BySplit);
    }

    method Record(ts: int, price: real, gross: int, fees: int, reason: Reason)
      requires pos.Some?
      modifies this`cash, this`pos, this`tally, this`trades
      ensures Now() == Recorded(job.desk, old(Now()), ts, price, gross, fees, reason)
    {
      SettleBorrow(Round(pos.value.borrowOwed));
      trades := trades + [TradeOf(job.desk, Now(), pos.value, ts, price, gross, fees, reason)];
      pos := None;
    }

    method Fill(c: Candle)
      modifies this`cash, this`pos, this`tally, this`trades, this`pending
      ensures Now() == Served(job.desk, old(Now()), c)
    {
      var want := pending;
      pending := Nothing;
      match want {
        case Nothing =>
        case Enter(_, _, _) =>
          if pos.None? {
            EnterAt(want, c);
          }
        case Leave =>
          if pos.Some? {
            Exit(c, BarOf(c), ToClose(pos.value), BySignal);
          }
      }
    }

    method EnterAt(want: Intent, c: Candle)
      requires want.Enter? && pos.None?
      modifies this`cash, this`pos, this`tally
      ensures Now() == Entered(job.desk, old(Now()), want, c.ts, c.open)
    {
      if !Lendable(job.desk, want.short, c.ts) {
        tally := tally.(shortsUnavailable := tally.shortsUnavailable + 1, skippedEntries := tally.skippedEntries + 1);
        return;
      }
      var price := FillPrice(CostingOf(job.desk), ToOpen(want.short), c.open);
      if price <= 0.0 {
        return;
      }
      var qty := Size(job.desk.plan.spec.sizing, cash, job.desk.symbol.lotSize, price,
                      Distance(want.stop, price), CostingOf(job.desk));
      if qty < 1 {
        tally := tally.(skippedEntries := tally.skippedEntries + 1);
        return;
      }
      var taken := NewPosition(job.desk, want, qty, price, c.ts);
      if want.short {
        cash := cash + (taken.entryCents - taken.feesCents);
      } else {
        cash := cash - (taken.entryCents + taken.feesCents);
      }
      pos := Some(taken);
    }

    method Brackets(c: Candle)
      modifies this`cash, this`pos, this`tally, this`trades
      ensures Now() == Guarded(job.desk, old(Now()), c)
    {
      if pos.None? {
        return;
      }
      var p := pos.value;
      var hitStop, hitTarget := StopHit(p, c), TargetHit(p, c);
      if hitStop && hitTarget {
        tally := tally.(ambiguousBars := tally.ambiguousBars + 1);
      }
      if hitStop {
        Exit(c, BarOf(c), StopOrder(p), ByStop);
      } else if hitTarget {
        Exit(c, BarOf(c), TargetOrder(p), ByTarget);
      }
    }

    method CloseOut(c: Candle)
      modifies this`cash, this`pos, this`tally, this`trades, this`pending
      ensures Now() == ClosedOut(job.desk, old(Now()), c)
    {
      pending := Nothing;
      if pos.None? {
        return;
      }
      Exit(c, CloseOf(c), ToClose(pos.value), EndOfRun);
    }

    method Exit(c: Candle, bar: Bar, o: Order, reason: Reason)
      requires pos.Some?
      modifies this`cash, this`pos, this`tally, this`trades
      ensures Now() == Exited(job.desk, old(Now()), c.ts, bar, o, reason)
    {
      var raw := Filled(o, bar);
      if raw.None? {
        return;
      }
      var price := FillPrice(CostingOf(job.desk), o, raw.value);
      Unwind(c.ts, price, Notional(pos.value.qty, price), reason);
    }

    method Unwind(ts: int, price: real, notional: int, reason: Reason)
      requires pos.Some?
      modifies this`cash, this`pos, this`tally, this`trades
      ensures Now() == Unwound(job.desk, old(Now()), ts, price, notional, Fees(CostingOf(job.desk), notional), reason)
    {
      var fees := Fees(CostingOf(job.desk), notional);
      var gross := notional - pos.value.entryCents;
      if pos.value.short {
        cash := cash - (notional + fees);
        gross := pos.value.entryCents - notional;
      } else {
        cash := cash + (notional - fees);
      }
      Record(ts, price, gross, fees, reason);
    }

    method Signal()
      requires Valid()
      modifies this`pending, this`tally
      ensures Now() == Signalled(job.desk, old(Now()), tape.hist)
    {
      pending := Nothing;
      var plan := job.desk.plan;
      if pos.Some? {
        var leaves := tape.Exit(LegOf(plan, pos.value.short));
        if leaves {
          pending := Leave;
        }
        return;
      }
      var long := tape.Entry(plan.long);
      if long {
        Offer(false);
        return;
      }
      var short := tape.Entry(plan.short);
      if short {
        Offer(true);
      }
    }

    method Offer(short: bool)
      requires Valid() && pending == Nothing
      modifies this`pending, this`tally
      ensures Now() == Offered(job.desk, old(Now()), short, tape.hist)
    {
      var leg := LegOf(job.desk.plan, short);
      var stop := GuardAt(leg.stop);
      if stop.None? {
        tally := tally.(skippedEntries := tally.skippedEntries + 1);
        return;
      }
      var target := GuardAt(leg.target);
      if target.None? {
        tally := tally.(skippedEntries := tally.skippedEntries + 1);
        return;
      }
      pending := Enter(short, stop.value, target.value);
    }

    method GuardAt(b: Option<Bracket>) returns (guard: Option<Guard>)
      requires Valid()
      ensures guard == GuardFor(job.desk.plan, b, tape.hist)
    {
      match b {
        case None => return Some(Unset);
        case Some(Bracket(Pct(value), _)) => return Some(Percent(value));
        case Some(Bracket(Atr(_, mult), slot)) =>
          var span := tape.Newest(slot);
          return Scaled(mult, span);
      }
    }

    method Mark(ts: int)
      requires Valid() && 0 < at && job.candles[at - 1].ts == ts
      modifies this`equity, this`held, this`tally
      ensures Valid()
      ensures Now() == Marked(old(Now()), job.candles[at - 1])
    {
      var worth := cash;
      if pos.Some? {
        var value := Notional(pos.value.qty, job.candles[at - 1].close);
        worth := if pos.value.short then worth - value else worth + value;
        tally := tally.(barsInMarket := tally.barsInMarket + 1);
        held := held + [ts];
      }
      equity := equity + [Point(ts, worth)];
    }

    /** One stamp of the timeline. */
    method Bar(ts: int)
      requires Valid() && Read()
      requires at < |job.candles| && job.candles[at].ts == ts && tape.hist == Seen(job, at)
      modifies this, tape, tape.Repr()
      ensures Valid() && at == old(at) + 1 && tape.hist == Seen(job, at)
      ensures Now() == Step(job, old(Now()), old(at))
    {
      var i := Open(ts);
      Close(i, ts);
    }

    /** The stamp's bar is taken up and traded on. */
    method Open(ts: int) returns (i: nat)
      requires Valid() && Read()
      requires at < |job.candles| && job.candles[at].ts == ts
      modifies this`at, this`cash, this`pos, this`tally, this`trades, this`pending
      ensures Valid() && i == old(at) && at == i + 1
      ensures Now() == Guarded(job.desk, Served(job.desk, Overnight(job, old(Now()), i), job.candles[i]), job.candles[i])
    {
      var found := Advance(ts);
      i := found.value;
      Trade(i);
    }

    /** The tape sees the bar, the close decides on it, and the stamp is marked. */
    method Close(i: nat, ts: int)
      requires Valid() && i < |job.candles| && at == i + 1 && job.candles[i].ts == ts && tape.hist == Seen(job, i)
      modifies this`cash, this`pos, this`pending, this`trades, this`equity, this`held, this`tally, tape, tape.Repr()
      ensures Valid() && tape.hist == Seen(job, i + 1)
      ensures Now() == Marked(Decided(job, old(Now()), i), job.candles[i])
    {
      Show(i);
      Decide(i);
      Mark(ts);
    }

    method Show(i: nat)
      requires Valid() && i < |job.candles| && tape.hist == Seen(job, i)
      modifies tape, tape.Repr()
      ensures Valid() && tape.hist == Seen(job, i + 1)
      ensures Now() == old(Now()) && at == old(at)
    {
      SeenGrows(job, i);
      tape.Push(SampleOf(job.candles[i]));
    }

    /** Everything a bar does before the tape sees it. */
    method Trade(i: nat)
      requires Read() && i < |job.candles|
      modifies this`cash, this`pos, this`tally, this`trades, this`pending
      ensures Now() == Guarded(job.desk, Served(job.desk, Overnight(job, old(Now()), i), job.candles[i]), job.candles[i])
    {
      Reopen(i);
      Fill(job.candles[i]);
      Brackets(job.candles[i]);
    }

    /** What the position earned, owes and became overnight. */
    method Reopen(i: nat)
      requires Read() && i < |job.candles|
      modifies this`cash, this`pos, this`tally, this`trades
      ensures Now() == Overnight(job, old(Now()), i)
    {
      Credit(i);
      Charge(i);
      Adjust(i);
    }

    method Decide(i: nat)
      requires Valid() && i < |job.candles| && tape.hist == Seen(job, i + 1)
      modifies this`cash, this`pos, this`tally, this`trades, this`pending
      ensures Valid()
      ensures Now() == Decided(job, old(Now()), i)
    {
      if i == |job.candles| - 1 {
        CloseOut(job.candles[i]);
      } else {
        Signal();
      }
    }

    method Run()
      requires Valid() && Read() && at == 0 && tape.hist == Samples(job.prime)
      requires Now() == Opening(job.capital)
      modifies this, tape, tape.Repr()
      ensures Valid()
      ensures Now() == After(job, |job.candles|)
    {
      var stamps := Timeline(job.candles);
      assert Seen(job, 0) == Samples(job.prime);
      ghost var states := [Now()];
      for k := 0 to |stamps|
        invariant Valid() && Read() && at == k && tape.hist == Seen(job, k)
        invariant Trail(job, states) && |states| == k + 1 && states[k] == Now()
      {
        Bar(stamps[k]);
        TrailGrows(job, states, Now());
        states := states + [Now()];
      }
      TrailIsAfter(job, states, |job.candles|);
    }
  }

  ghost predicate Goes(job: Job, i: nat, s: State, s': State)
    requires Ready(job.desk.plan)
  {
    i < |job.candles| && s' == Step(job, s, i)
  }

  /** The states of a run so far, each a step from the one before. */
  ghost predicate Trail(job: Job, states: seq<State>)
    requires Ready(job.desk.plan)
  {
    && states != [] && states[0] == Opening(job.capital)
    && forall i :: 0 < i < |states| ==> Goes(job, i - 1, states[i - 1], states[i])
  }

  lemma TrailGrows(job: Job, states: seq<State>, s': State)
    requires Ready(job.desk.plan) && Trail(job, states)
    requires Goes(job, |states| - 1, states[|states| - 1], s')
    ensures Trail(job, states + [s'])
  {
  }

  lemma {:induction false} TrailIsAfter(job: Job, states: seq<State>, n: nat)
    requires Ready(job.desk.plan) && Trail(job, states) && n < |states| && n <= |job.candles|
    ensures states[n] == After(job, n)
  {
    if n > 0 {
      TrailIsAfter(job, states, n - 1);
      assert Goes(job, n - 1, states[n - 1], states[n]);
    }
  }

  lemma SamplesGrow(candles: seq<Candle>, i: nat)
    requires i < |candles|
    ensures Samples(candles[..i + 1]) == Samples(candles[..i]) + [SampleOf(candles[i])]
  {
    assert candles[..i + 1][..i] == candles[..i];
  }

  lemma SeenGrows(job: Job, i: nat)
    requires i < |job.candles|
    ensures Seen(job, i + 1) == Seen(job, i) + [SampleOf(job.candles[i])]
  {
    assert job.candles[..i + 1][..i] == job.candles[..i];
  }

  method Timeline(candles: seq<Candle>) returns (stamps: seq<int>)
    ensures |stamps| == |candles|
    ensures forall i :: 0 <= i < |candles| ==> stamps[i] == candles[i].ts
  {
    var all := new int[|candles|];
    for i := 0 to |candles|
      invariant forall k :: 0 <= k < i ==> all[k] == candles[k].ts
    {
      all[i] := candles[i].ts;
    }
    stamps := all[..];
  }

  /** A whole run, whatever the plan's indicators held before it. */
  method Simulate(job: Job) returns (end: State)
    requires Ready(job.desk.plan)
    modifies job.desk.plan.gauges
    ensures end == After(job, |job.candles|)
  {
    var e := new Engine(job);
    e.Run();
    end := e.Now();
  }
}
