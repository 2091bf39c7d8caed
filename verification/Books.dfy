/** What one bar does to one symbol's book: the steps of the backtest, each as a function
    of the state before it. */
module Books {
  import opened Outcomes
  import opened Numbers
  import opened Bars
  import opened Rules
  import opened Wirings
  import opened Tapes
  import opened Broker
  import opened Sizing
  import opened Actions

  datatype Symbol = Symbol(ticker: string, lotSize: int, tickSize: real)

  /** Who lends shares: the fee for a period and whether any are to be had, by the time. */
  datatype Lender = Lender(rate: int -> real, available: int -> bool)

  /** What stays fixed over a run. */
  datatype Desk = Desk(plan: Plan, symbol: Symbol, borrow: Option<Lender>)

  datatype Job = Job(desk: Desk, prime: seq<Candle>, candles: seq<Candle>, capital: int)

  function CostingOf(d: Desk): Costing {
    Costing(d.plan.spec.costs, d.symbol.tickSize)
  }

  /** A bracket as it is carried from the signal to the fill. */
  datatype Guard = Unset | Percent(value: real) | Points(value: real)

  function Distance(g: Guard, entry: real): real {
    match g
    case Unset => 0.0
    case Percent(value) => entry * value
    case Points(value) => value
  }

  function LevelOf(g: Guard, entry: real, above: bool): real {
    if g.Unset? then 0.0
    else if above then entry + Distance(g, entry)
    else entry - Distance(g, entry)
  }

  datatype Intent = Nothing | Enter(short: bool, stop: Guard, target: Guard) | Leave

  datatype Position = Position(
    short: bool,
    qty: int,
    entryTs: int,
    entryPrice: real,
    entryCents: int,
    feesCents: int,
    divCents: int,
    borrowCents: int,
    borrowOwed: real,
    splitCents: int,
    stop: real,
    target: real)

  datatype Reason = BySignal | ByStop | ByTarget | BySplit | EndOfRun

  datatype Trade = Trade(
    seqNo: nat,
    symbol: string,
    short: bool,
    qty: int,
    entryTs: int,
    entryPrice: real,
    exitTs: int,
    exitPrice: real,
    pnlCents: int,
    feesCents: int,
    dividendsCents: int,
    borrowCents: int,
    splitCashCents: int,
    reason: Reason)

  datatype Point = Point(ts: int, cents: int)

  datatype Tally = Tally(
    dividendsCents: int,
    dividendEvents: nat,
    borrowCents: int,
    splitEvents: nat,
    splitsApplied: nat,
    splitCashCents: int,
    skippedEntries: nat,
    shortsUnavailable: nat,
    ambiguousBars: nat,
    barsInMarket: nat)

  datatype State = State(
    cash: int,
    pos: Option<Position>,
    pending: Intent,
    trades: seq<Trade>,
    equity: seq<Point>,
    held: seq<int>,
    tally: Tally)

  function Opening(capital: int): State {
    State(capital, None, Nothing, [], [], [], Tally(0, 0, 0, 0, 0, 0, 0, 0, 0, 0))
  }

  // ---------- dividends ----------

  /** What a dividend brings a long, and costs a short. */
  function DividendCents(p: Position, perShare: real): int {
    var paid := Round(p.qty as real * perShare * 100.0);
    if p.short then -paid else paid
  }

  function Credited(s: State, perShare: real): State {
    if s.pos.None? || perShare <= 0.0 then s
    else
      var p := s.pos.value;
      var paid := DividendCents(p, perShare);
      s.(cash := s.cash + paid,
         pos := Some(p.(divCents := p.divCents + paid)),
         tally := s.tally.(dividendsCents := s.tally.dividendsCents + paid,
                           dividendEvents := s.tally.dividendEvents + 1))
  }

  // ---------- borrow ----------

  /** Moves whole cents of the borrow owed out of cash. */
  function BorrowPaid(s: State, cents: int): State {
    if s.pos.None? || cents <= 0 then s
    else
      var p := s.pos.value;
      s.(cash := s.cash - cents,
         pos := Some(p.(borrowOwed := p.borrowOwed - cents as real, borrowCents := p.borrowCents + cents)),
         tally := s.tally.(borrowCents := s.tally.borrowCents + cents))
  }

  /** The rate a short pays for the bar just past, read at that bar. */
  function RateFor(d: Desk, s: State, prev: Option<Candle>): real {
    if s.pos.None? || !s.pos.value.short || prev.None? || d.borrow.None? then 0.0
    else d.borrow.value.rate(prev.value.ts)
  }

  function OwedAfter(d: Desk, p: Position, prev: Candle, rate: real): real {
    p.borrowOwed + Notional(p.qty, prev.close) as real * rate
  }

  function Charged(d: Desk, s: State, prev: Option<Candle>): State {
    if RateFor(d, s, prev) <= 0.0 then s
    else
      var owed := OwedAfter(d, s.pos.value, prev.value, RateFor(d, s, prev));
      BorrowPaid(s.(pos := Some(s.pos.value.(borrowOwed := owed))), Truncate(owed))
  }

  // ---------- closing ----------

  function TradeOf(d: Desk, s: State, p: Position, ts: int, price: real, gross: int, fees: int, reason: Reason): Trade {
    var total := p.feesCents + fees;
    Trade(
      |s.trades| + 1, d.symbol.ticker, p.short, p.qty, p.entryTs, p.entryPrice, ts, price,
      gross + p.divCents + p.splitCents - p.borrowCents - total,
      total, p.divCents, p.borrowCents, p.splitCents, reason)
  }

  /** Settles what borrow is still owed, to the nearest cent, and writes the trade. */
  function Recorded(d: Desk, s: State, ts: int, price: real, gross: int, fees: int, reason: Reason): State
    requires s.pos.Some?
  {
    var settled := BorrowPaid(s, Round(s.pos.value.borrowOwed));
    settled.(
      trades := settled.trades + [TradeOf(d, settled, settled.pos.value, ts, price, gross, fees, reason)],
      pos := None)
  }

  /** A long sells and a short buys back: what cash gains, before fees. */
  function Proceeds(p: Position, notional: int): int {
    if p.short then -notional else notional
  }

  /** What the round trip made on the price alone. */
  function Gross(p: Position, notional: int): int {
    if p.short then p.entryCents - notional else notional - p.entryCents
  }

  function Unwound(d: Desk, s: State, ts: int, price: real, notional: int, fees: int, reason: Reason): State
    requires s.pos.Some?
  {
    var paid := s.(cash := s.cash + Proceeds(s.pos.value, notional) - fees);
    Recorded(d, paid, ts, price, Gross(s.pos.value, notional), fees, reason)
  }

  function Exited(d: Desk, s: State, ts: int, bar: Bar, o: Order, reason: Reason): State
    requires s.pos.Some?
  {
    match Filled(o, bar)
    case None => s
    case Some(raw) =>
      var price := FillPrice(CostingOf(d), o, raw);
      var notional := Notional(s.pos.value.qty, price);
      Unwound(d, s, ts, price, notional, Fees(CostingOf(d), notional), reason)
  }

  function ClosingSide(short: bool): Direction {
    if short then Buy else Sell
  }

  function ToClose(p: Position): Order {
    Order(Market, ClosingSide(p.short), 0.0)
  }

  // ---------- splits ----------

  function CashForShares(p: Position, shares: real, price: real): int {
    if shares <= 0.0 || price <= 0.0 then 0
    else
      var cash := Round(shares * price * 100.0);
      if p.short then -cash else cash
  }

  function CashedOut(s: State, shares: real, price: real): State {
    if s.pos.None? then s
    else
      var p := s.pos.value;
      var cash := CashForShares(p, shares, price);
      s.(cash := s.cash + cash,
         pos := Some(p.(splitCents := p.splitCents + cash)),
         tally := s.tally.(splitCashCents := s.tally.splitCashCents + cash))
  }

  function SplitPrice(c: Candle): real {
    if c.open <= 0.0 then c.close else c.open
  }

  /** Nothing whole is left: the holder is paid for the fraction and the trade ends. */
  function SplitOut(d: Desk, s: State, c: Candle, shares: real): State
    requires s.pos.Some?
  {
    var gross := if s.pos.value.short then s.pos.value.entryCents else -s.pos.value.entryCents;
    Recorded(d, CashedOut(s, shares, SplitPrice(c)), c.ts, SplitPrice(c), gross, 0, BySplit)
  }

  /** The levels move with the price; what the position cost does not. */
  function Reshaped(p: Position, qty: int, factor: real): Position
    requires factor > 0.0
  {
    p.(qty := qty,
       entryPrice := p.entryPrice / factor,
       stop := if p.stop > 0.0 then p.stop / factor else p.stop,
       target := if p.target > 0.0 then p.target / factor else p.target)
  }

  function Adjusted(d: Desk, s: State, c: Candle, factor: real): State {
    if factor <= 0.0 then s
    else
      var seen := s.(tally := s.tally.(splitEvents := s.tally.splitEvents + 1));
      if seen.pos.None? then seen
      else
        var exact, qty := ExactShares(seen.pos.value.qty, factor), SharesAfter(seen.pos.value.qty, factor);
        if qty < 1 then SplitOut(d, seen, c, exact)
        else SplitKept(seen, qty, factor, exact - qty as real, SplitPrice(c))
  }

  /** The whole shares are carried on and the fraction is paid out. */
  function SplitKept(s: State, qty: int, factor: real, rest: real, price: real): State
    requires s.pos.Some? && factor > 0.0
  {
    var paid := CashedOut(s, rest, price);
    paid.(pos := Some(Reshaped(paid.pos.value, qty, factor)),
          tally := paid.tally.(splitsApplied := paid.tally.splitsApplied + 1))
  }

  // ---------- entries ----------

  function ToOpen(short: bool): Order {
    Order(Market, if short then Sell else Buy, 0.0)
  }

  predicate Lendable(d: Desk, short: bool, ts: int) {
    short && d.borrow.Some? ==> d.borrow.value.available(ts)
  }

  function EntrySize(d: Desk, cash: int, price: real, stop: Guard): int {
    SizeOf(d.plan.spec.sizing, cash, d.symbol.lotSize, price, Distance(stop, price), CostingOf(d))
  }

  function NewPosition(d: Desk, want: Intent, qty: int, price: real, ts: int): Position
    requires want.Enter?
  {
    var notional := Notional(qty, price);
    Position(
      want.short, qty, ts, price, notional, Fees(CostingOf(d), notional), 0, 0, 0.0, 0,
      LevelOf(want.stop, price, want.short), LevelOf(want.target, price, !want.short))
  }

  function Paid(s: State, p: Position): int {
    if p.short then s.cash + (p.entryCents - p.feesCents) else s.cash - (p.entryCents + p.feesCents)
  }

  function Entered(d: Desk, s: State, want: Intent, ts: int, open: real): State
    requires want.Enter?
  {
    if !Lendable(d, want.short, ts) then
      s.(tally := s.tally.(shortsUnavailable := s.tally.shortsUnavailable + 1,
                           skippedEntries := s.tally.skippedEntries + 1))
    else
      var price := FillPrice(CostingOf(d), ToOpen(want.short), open);
      if price <= 0.0 then s
      else
        var qty := EntrySize(d, s.cash, price, want.stop);
        if qty < 1 then s.(tally := s.tally.(skippedEntries := s.tally.skippedEntries + 1))
        else
          var p := NewPosition(d, want, qty, price, ts);
          s.(cash := Paid(s, p), pos := Some(p))
  }

  /** The intent left by the last close is carried out at this open. */
  function Served(d: Desk, s: State, c: Candle): State {
    var idle := s.(pending := Nothing);
    match s.pending
    case Nothing => idle
    case Enter(_, _, _) => if s.pos.None? then Entered(d, idle, s.pending, c.ts, c.open) else idle
    case Leave =>
      if s.pos.Some? then Exited(d, idle, c.ts, BarOf(c), ToClose(s.pos.value), BySignal) else idle
  }

  // ---------- brackets ----------

  function StopOrder(p: Position): Order {
    Order(Stop, ClosingSide(p.short), p.stop)
  }

  function TargetOrder(p: Position): Order {
    Order(Limit, ClosingSide(p.short), p.target)
  }

  predicate StopHit(p: Position, c: Candle) {
    p.stop > 0.0 && Filled(StopOrder(p), BarOf(c)).Some?
  }

  predicate TargetHit(p: Position, c: Candle) {
    p.target > 0.0 && Filled(TargetOrder(p), BarOf(c)).Some?
  }

  /** When one bar reaches both levels, the stop is taken. */
  function Guarded(d: Desk, s: State, c: Candle): State {
    if s.pos.None? then s
    else
      var p := s.pos.value;
      var seen :=
        if StopHit(p, c) && TargetHit(p, c)
        then s.(tally := s.tally.(ambiguousBars := s.tally.ambiguousBars + 1)) else s;
      if StopHit(p, c) then Exited(d, seen, c.ts, BarOf(c), StopOrder(p), ByStop)
      else if TargetHit(p, c) then Exited(d, seen, c.ts, BarOf(c), TargetOrder(p), ByTarget)
      else seen
  }

  // ---------- the close ----------

  function ClosedOut(d: Desk, s: State, c: Candle): State {
    var idle := s.(pending := Nothing);
    if s.pos.None? then idle
    else Exited(d, idle, c.ts, CloseOf(c), ToClose(s.pos.value), EndOfRun)
  }

  ghost function GuardFor(p: Plan, b: Option<Bracket>, h: seq<Sample>): Option<Guard>
    requires Ready(p)
  {
    match b
    case None => Some(Unset)
    case Some(Bracket(Pct(value), _)) => Some(Percent(value))
    case Some(Bracket(Atr(_, mult), slot)) =>
      Scaled(mult, History(p.wiring, h).slot(slot, 0))
  }

  function Scaled(mult: real, span: Option<real>): Option<Guard> {
    if span.None? || span.value <= 0.0 then None else Some(Points(mult * span.value))
  }

  /** A leg that fires becomes an intent, unless a level it needs is not known yet. */
  ghost function Offered(d: Desk, s: State, short: bool, h: seq<Sample>): State
    requires Ready(d.plan)
  {
    var leg := LegOf(d.plan, short);
    var stop, target := GuardFor(d.plan, leg.stop, h), GuardFor(d.plan, leg.target, h);
    if stop.None? || target.None?
    then s.(tally := s.tally.(skippedEntries := s.tally.skippedEntries + 1))
    else s.(pending := Enter(short, stop.value, target.value))
  }

  /** What this close decides; the short leg is asked only when the long one is silent. */
  ghost function Signalled(d: Desk, s: State, h: seq<Sample>): State
    requires Ready(d.plan)
  {
    var idle, f := s.(pending := Nothing), History(d.plan.wiring, h);
    assert LegUsable(LegOf(d.plan, false), d.plan) && LegUsable(LegOf(d.plan, true), d.plan);
    if s.pos.Some? then
      if Fires(LegOf(d.plan, s.pos.value.short).exit, f) then idle.(pending := Leave) else idle
    else if Fires(d.plan.long.entry, f) then Offered(d, idle, false, h)
    else if Fires(d.plan.short.entry, f) then Offered(d, idle, true, h)
    else idle
  }

  function Worth(s: State, close: real): int {
    if s.pos.None? then s.cash
    else
      var value := Notional(s.pos.value.qty, close);
      if s.pos.value.short then s.cash - value else s.cash + value
  }

  function Marked(s: State, c: Candle): State {
    var marked := s.(equity := s.equity + [Point(c.ts, Worth(s, c.close))]);
    if s.pos.None? then marked
    else marked.(held := s.held + [c.ts], tally := s.tally.(barsInMarket := s.tally.barsInMarket + 1))
  }

  // ---------- one bar, and all of them ----------

  predicate Final(job: Job, i: int) {
    i == |job.candles| - 1
  }

  function Samples(candles: seq<Candle>): (h: seq<Sample>)
    ensures |h| == |candles|
    ensures forall i :: 0 <= i < |h| ==> h[i] == SampleOf(candles[i])
  {
    if candles == [] then [] else Samples(candles[..|candles| - 1]) + [SampleOf(candles[|candles| - 1])]
  }

  /** Everything the tape has been fed once bar `n` - 1 is over. */
  function Seen(job: Job, n: nat): seq<Sample>
    requires n <= |job.candles|
  {
    Samples(job.prime) + Samples(job.candles[..n])
  }

  function Before(job: Job, i: nat): Option<Candle>
    requires i < |job.candles|
  {
    if i == 0 then None else Some(job.candles[i - 1])
  }

  /** Before bar `i`'s open price is used: what the night brought. */
  ghost function Overnight(job: Job, s: State, i: nat): State
    requires i < |job.candles|
  {
    var credited := Credited(s, DividendAt(job.candles, i));
    var charged := Charged(job.desk, credited, Before(job, i));
    Adjusted(job.desk, charged, job.candles[i], FactorAt(job.candles, i))
  }

  ghost function Decided(job: Job, s: State, i: nat): State
    requires Ready(job.desk.plan) && i < |job.candles|
  {
    if Final(job, i) then ClosedOut(job.desk, s, job.candles[i]) else Signalled(job.desk, s, Seen(job, i + 1))
  }

  ghost function Step(job: Job, s: State, i: nat): State
    requires Ready(job.desk.plan) && i < |job.candles|
  {
    var c := job.candles[i];
    var served := Served(job.desk, Overnight(job, s, i), c);
    Marked(Decided(job, Guarded(job.desk, served, c), i), c)
  }

  /** The engine's state once the first `n` bars are over. */
  ghost function After(job: Job, n: nat): State
    requires Ready(job.desk.plan) && n <= |job.candles|
    decreases n, 0
  {
    if n == 0 then Opening(job.capital) else AfterBar(job, n - 1)
  }

  ghost function AfterBar(job: Job, i: nat): State
    requires Ready(job.desk.plan) && i < |job.candles|
    decreases i, 1
  {
    Step(job, After(job, i), i)
  }

  /** What `next` makes of a value from index `i` to `n`. */
  ghost function Iterated<T>(next: (T, nat) -> T, x: T, i: nat, n: nat): T
    requires i <= n
    decreases n - i
  {
    if i == n then x else Iterated(next, next(x, i), i + 1, n)
  }

  lemma {:induction false} IteratedKeeps<T>(next: (T, nat) -> T, keeps: (T, nat) -> bool, x: T, i: nat, n: nat)
    requires i <= n && keeps(x, i)
    requires forall y, j: nat :: j < n && keeps(y, j) ==> keeps(next(y, j), j + 1)
    ensures keeps(Iterated(next, x, i, n), n)
    decreases n - i
  {
    if i < n {
      IteratedKeeps(next, keeps, next(x, i), i + 1, n);
    }
  }

  ghost function NextOf(job: Job): (next: (State, nat) -> State)
    requires Ready(job.desk.plan)
    ensures forall s, i: nat :: i < |job.candles| ==> next(s, i) == Step(job, s, i)
  {
    (s: State, i: nat) => if i < |job.candles| then Step(job, s, i) else s
  }

  /** The rest of a run, from any state before bar `i`. */
  ghost function Onward(job: Job, s: State, i: nat): State
    requires Ready(job.desk.plan) && i <= |job.candles|
  {
    Iterated(NextOf(job), s, i, |job.candles|)
  }

  ghost predicate KeptBy(job: Job, keeps: (State, nat) -> bool, s: State, i: nat)
    requires Ready(job.desk.plan) && i < |job.candles|
  {
    keeps(s, i) ==> keeps(Step(job, s, i), i + 1)
  }

  /** What every bar keeps holds at the end. */
  lemma OnwardKeeps(job: Job, keeps: (State, nat) -> bool, s: State, i: nat)
    requires Ready(job.desk.plan) && i <= |job.candles| && keeps(s, i)
    requires forall t, j: nat :: j < |job.candles| ==> KeptBy(job, keeps, t, j)
    ensures keeps(Onward(job, s, i), |job.candles|)
  {
    var next := NextOf(job);
    forall t, j: nat | j < |job.candles| && keeps(t, j) ensures keeps(next(t, j), j + 1) {
      assert KeptBy(job, keeps, t, j);
    }
    IteratedKeeps(next, keeps, s, i, |job.candles|);
  }

  lemma {:induction false} OnwardIsAfter(job: Job, i: nat)
    requires Ready(job.desk.plan) && i <= |job.candles|
    ensures Onward(job, After(job, i), i) == After(job, |job.candles|)
    decreases |job.candles| - i
  {
    if i < |job.candles| {
      OnwardIsAfter(job, i + 1);
    }
  }
}
