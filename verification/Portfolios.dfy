/** Running a basket: the sleeves share a plan's mutable indicators and still do not touch
    each other, and their sum is a real portfolio. */
module Portfolios {
  import opened Outcomes
  import opened Numbers
  import opened Bars
  import opened Indicators
  import opened Tapes
  import opened Actions
  import opened Books
  import opened Engines
  import opened Conservation
  import opened Merging
  import opened Stamps
  import opened Baskets

  datatype Portfolio = Portfolio(trades: seq<Trade>, equity: seq<Point>, sleeves: seq<seq<int>>)

  datatype Refusal = NoCapital | NoSymbols | TooFewCandles(symbol: string) | TooThin

  ghost function Alone(req: Request, k: nat, share: int): State
    requires Ready(req.plan) && k < |req.instruments|
  {
    After(JobOf(req, req.instruments[k], share), |req.instruments[k].candles|)
  }

  function Curves(ends: seq<State>): (r: seq<seq<Point>>)
    ensures |r| == |ends| && forall k :: 0 <= k < |ends| ==> r[k] == ends[k].equity
  {
    seq(|ends|, k requires 0 <= k < |ends| => ends[k].equity)
  }

  function Logs(ends: seq<State>): (r: seq<seq<Trade>>)
    ensures |r| == |ends| && forall k :: 0 <= k < |ends| ==> r[k] == ends[k].trades
  {
    seq(|ends|, k requires 0 <= k < |ends| => ends[k].trades)
  }

  /** The portfolio made of runs that ended like this. */
  predicate Combines(r: Portfolio, shares: seq<int>, ends: seq<State>)
    requires |shares| == |ends|
  {
    var stamps := Ascending(AllStamps(Curves(ends)));
    && r.trades == Numbered(Sort(Joined(Logs(ends))))
    && |r.sleeves| == |ends|
    && (forall k :: 0 <= k < |ends| ==> r.sleeves[k] == Aligned(stamps, ends[k].equity, shares[k]))
    && |r.equity| == |stamps|
    && (forall i :: 0 <= i < |stamps| ==> r.equity[i] == Point(stamps[i], SumAt(r.sleeves, i)))
  }

  ghost predicate RunAlone(req: Request, shares: seq<int>, ends: seq<State>)
    requires Ready(req.plan)
  {
    && |ends| <= |req.instruments| == |shares|
    && forall k :: 0 <= k < |ends| ==> ends[k] == Alone(req, k, shares[k])
  }

  method RunSleeve(req: Request, k: nat, share: int) returns (end: State)
    requires Ready(req.plan) && k < |req.instruments|
    modifies req.plan.gauges
    ensures end == Alone(req, k, share)
  {
    end := Simulate(JobOf(req, req.instruments[k], share));
  }

  method RunSleeves(req: Request, shares: seq<int>) returns (ends: seq<State>)
    requires Ready(req.plan) && |shares| == |req.instruments|
    modifies req.plan.gauges
    ensures |ends| == |req.instruments| && RunAlone(req, shares, ends)
  {
    ends := [];
    for k := 0 to |req.instruments|
      invariant |ends| == k && RunAlone(req, shares, ends)
    {
      var end := RunSleeve(req, k, shares[k]);
      ends := ends + [end];
    }
  }

  method Combine(shares: seq<int>, ends: seq<State>) returns (r: Portfolio)
    requires |shares| == |ends|
    ensures Combines(r, shares, ends)
  {
    var stamps := UnionStamps(Curves(ends));
    var trades := MergeTrades(Logs(ends));
    var aligned: seq<seq<int>> := [];
    for k := 0 to |ends|
      invariant |aligned| == k
      invariant forall j :: 0 <= j < k ==> aligned[j] == Aligned(stamps, ends[j].equity, shares[j])
    {
      var out := AlignSleeve(stamps, ends[k].equity, shares[k]);
      aligned := aligned + [out];
    }
    var equity := SumAligned(aligned, stamps);
    r := Portfolio(trades, equity, aligned);
  }

  /** Every sleeve of a basket ends exactly as it would have alone, whatever the sleeves
      before it left in the plan's indicators. */
  method RunBasket(req: Request, shares: seq<int>) returns (r: Portfolio, ends: seq<State>)
    requires Ready(req.plan) && |shares| == |req.instruments|
    modifies req.plan.gauges
    ensures |ends| == |req.instruments| && RunAlone(req, shares, ends)
    ensures Combines(r, shares, ends)
  {
    ends := RunSleeves(req, shares);
    r := Combine(shares, ends);
  }

  // ---------- the checks before a run ----------

  function Shares(req: Request): (r: seq<int>)
    requires req.instruments != []
    ensures |r| == |req.instruments|
    ensures forall i :: 0 <= i < |r| ==> r[i] == Share(req.capital, |req.instruments|, i)
  {
    seq(|req.instruments|, i requires 0 <= i < |req.instruments| => Share(req.capital, |req.instruments|, i))
  }

  /** Every symbol can trade at all and gets at least a cent. */
  predicate Fundable(req: Request) {
    && req.capital >= 1
    && req.instruments != []
    && (forall k :: 0 <= k < |req.instruments| ==> |req.instruments[k].candles| >= 2)
    && |req.instruments| <= req.capital
  }

  method Run(req: Request) returns (r: Result<(Portfolio, seq<State>), Refusal>)
    requires Ready(req.plan)
    modifies req.plan.gauges
    ensures r.Ok? <==> Fundable(req)
    ensures r.Ok? ==> var (portfolio, ends) := r.value;
      && |ends| == |req.instruments|
      && RunAlone(req, Shares(req), ends)
      && (|ends| > 1 ==> Combines(portfolio, Shares(req), ends))
      && (|ends| == 1 ==> portfolio.trades == ends[0].trades && portfolio.equity == ends[0].equity)
  {
    if req.capital < 1 {
      return Err(NoCapital);
    }
    if req.instruments == [] {
      return Err(NoSymbols);
    }
    for k := 0 to |req.instruments|
      invariant forall j :: 0 <= j < k ==> |req.instruments[j].candles| >= 2
    {
      if |req.instruments[k].candles| < 2 {
        return Err(TooFewCandles(req.instruments[k].symbol.ticker));
      }
    }
    var n := |req.instruments|;
    var shares := SplitCapital(req.capital, n);
    assert shares == Shares(req);
    ThinnestShare(req.capital, n);
    if shares[n - 1] < 1 {
      return Err(TooThin);
    }
    if n == 1 {
      var end := RunSleeve(req, 0, shares[0]);
      return Ok((Portfolio(end.trades, end.equity, []), [end]));
    }
    var portfolio, ends := RunBasket(req, shares);
    return Ok((portfolio, ends));
  }

  lemma ThinnestShare(total: int, n: nat)
    requires n > 0 && total >= 1
    ensures Share(total, n, n - 1) >= 1 <==> n <= total
  {
    RemainderRange(total, n);
    if Quotient(total, n) == 0 {
    } else {
      assert Quotient(total, n) >= 1;
      TimesAtLeast(n, Quotient(total, n));
    }
  }

  lemma TimesAtLeast(n: nat, q: int)
    requires q >= 1
    ensures n * q >= n
  {
  }

  // ---------- isolation ----------

  function Refitted(job: Job, gauges: seq<Indicator>): Job {
    job.(desk := job.desk.(plan := job.desk.plan.(gauges := gauges)))
  }

  /** A run does not depend on which indicator objects its plan holds, only on how they are
      wired: a sleeve on the shared plan is a run alone on a fresh one. */
  lemma {:induction false} RunIgnoresGauges(job: Job, gauges: seq<Indicator>, n: nat)
    requires n <= |job.candles|
    requires Ready(job.desk.plan) && Ready(Refitted(job, gauges).desk.plan)
    ensures After(Refitted(job, gauges), n) == After(job, n)
  {
    if n > 0 {
      RunIgnoresGauges(job, gauges, n - 1);
      StepIgnoresGauges(job, gauges, After(job, n - 1), n - 1);
    }
  }

  lemma NightIgnoresGauges(job: Job, gauges: seq<Indicator>, s: State, i: nat)
    requires i < |job.candles|
    ensures Overnight(Refitted(job, gauges), s, i) == Overnight(job, s, i)
  {
    var d, e := job.desk, Refitted(job, gauges).desk;
    var credited := Credited(s, DividendAt(job.candles, i));
    ChargeIgnoresGauges(d, e, credited, Before(job, i));
    var charged := Charged(d, credited, Before(job, i));
    assert Adjusted(e, charged, job.candles[i], FactorAt(job.candles, i)) == Adjusted(d, charged, job.candles[i], FactorAt(job.candles, i));
  }

  lemma ChargeIgnoresGauges(d: Desk, e: Desk, s: State, prev: Option<Candle>)
    requires d.borrow == e.borrow
    ensures Charged(d, s, prev) == Charged(e, s, prev)
  {
    assert RateFor(d, s, prev) == RateFor(e, s, prev);
    if RateFor(d, s, prev) > 0.0 {
      var p, rate := s.pos.value, RateFor(d, s, prev);
      assert OwedAfter(d, p, prev.value, rate) == OwedAfter(e, p, prev.value, rate);
    }
  }

  lemma DayIgnoresGauges(d: Desk, e: Desk, s: State, c: Candle)
    requires d.symbol == e.symbol && d.borrow == e.borrow && d.plan.spec == e.plan.spec
    ensures Served(d, s, c) == Served(e, s, c)
    ensures Guarded(d, s, c) == Guarded(e, s, c)
    ensures ClosedOut(d, s, c) == ClosedOut(e, s, c)
  {
  }

  lemma SignalIgnoresGauges(d: Desk, e: Desk, s: State, h: seq<Sample>)
    requires Ready(d.plan) && Ready(e.plan)
    requires d.plan.wiring == e.plan.wiring && d.plan.long == e.plan.long && d.plan.short == e.plan.short
    ensures Signalled(d, s, h) == Signalled(e, s, h)
  {
    assert forall b :: GuardFor(d.plan, b, h) == GuardFor(e.plan, b, h);
  }

  lemma StepIgnoresGauges(job: Job, gauges: seq<Indicator>, s: State, i: nat)
    requires i < |job.candles|
    requires Ready(job.desk.plan) && Ready(Refitted(job, gauges).desk.plan)
    ensures Step(Refitted(job, gauges), s, i) == Step(job, s, i)
  {
    var d, e, c := job.desk, Refitted(job, gauges).desk, job.candles[i];
    NightIgnoresGauges(job, gauges, s, i);
    DayIgnoresGauges(d, e, Overnight(job, s, i), c);
    var served := Served(d, Overnight(job, s, i), c);
    DayIgnoresGauges(d, e, served, c);
    var guarded := Guarded(d, served, c);
    DayIgnoresGauges(d, e, guarded, c);
    SignalIgnoresGauges(d, e, guarded, Seen(job, i + 1));
  }

  /** The same sleeve of a request on another copy of the plan ends the same. */
  lemma SleeveIsARunAlone(req: Request, others: seq<Indicator>, k: nat, share: int)
    requires k < |req.instruments| && Ready(req.plan) && Ready(req.plan.(gauges := others))
    ensures Alone(Only(req, others, k), 0, share) == Alone(req, k, share)
  {
    RunIgnoresGauges(JobOf(req, req.instruments[k], share), others, |req.instruments[k].candles|);
    assert JobOf(Only(req, others, k), req.instruments[k], share) == Refitted(JobOf(req, req.instruments[k], share), others);
  }

  /** A request for just one of the symbols, on a plan with its own indicators. */
  function Only(req: Request, gauges: seq<Indicator>, k: nat): Request
    requires k < |req.instruments|
  {
    req.(plan := req.plan.(gauges := gauges), instruments := [req.instruments[k]])
  }

  // ---------- what the portfolio adds up to ----------

  predicate Chronological(candles: seq<Candle>) {
    forall i, j :: 0 <= i < j < |candles| ==> candles[i].ts < candles[j].ts
  }

  /** What a run's end must satisfy for its sleeve to add up. */
  predicate Sound(end: State, share: int) {
    && end.equity != []
    && (forall i, j :: 0 <= i < j < |end.equity| ==> end.equity[i].ts < end.equity[j].ts)
    && end.equity[0].cents == share
    && end.equity[|end.equity| - 1].cents == share + PnlTotal(end.trades)
  }

  lemma RunIsSound(job: Job)
    requires Ready(job.desk.plan) && job.candles != [] && Chronological(job.candles)
    ensures Sound(After(job, |job.candles|), job.capital)
  {
    RunsEndFlat(job);
    CurveFollowsBars(job);
  }

  lemma FirstAligned(stamps: seq<int>, end: State, share: int)
    requires Sound(end, share) && stamps != [] && (forall i :: 0 <= i < |end.equity| ==> stamps[0] <= end.equity[i].ts)
    ensures Aligned(stamps, end.equity, share)[0] == share
  {
    LeadingPrefix(end.equity, stamps[0]);
  }

  lemma LastAligned(stamps: seq<int>, end: State, share: int)
    requires Sound(end, share) && stamps != []
    requires forall i :: 0 <= i < |end.equity| ==> end.equity[i].ts <= stamps[|stamps| - 1]
    ensures Aligned(stamps, end.equity, share)[|stamps| - 1] == share + PnlTotal(end.trades)
  {
    LeadingIs(end.equity, stamps[|stamps| - 1], |end.equity|);
  }

  lemma StampsCover(ends: seq<State>, k: nat, i: nat)
    requires k < |ends| && i < |ends[k].equity|
    ensures var stamps := Ascending(AllStamps(Curves(ends)));
      stamps != [] && stamps[0] <= ends[k].equity[i].ts <= stamps[|stamps| - 1]
  {
    var stamps := Ascending(AllStamps(Curves(ends)));
    assert Curves(ends)[k][i].ts in AllStamps(Curves(ends));
    assert ends[k].equity[i].ts in stamps;
  }

  lemma {:induction false} ColumnSums(sleeves: seq<seq<int>>, i: nat, values: seq<int>)
    requires Column(sleeves, i, values)
    ensures SumAt(sleeves, i) == Sum(values)
  {
    if values != [] {
      ColumnSums(sleeves[..|sleeves| - 1], i, values[..|values| - 1]);
    }
  }

  function Gains(ends: seq<State>, shares: seq<int>): (r: seq<int>)
    requires |ends| == |shares|
    ensures |r| == |ends| && forall k :: 0 <= k < |r| ==> r[k] == shares[k] + PnlTotal(ends[k].trades)
  {
    seq(|ends|, k requires 0 <= k < |ends| => shares[k] + PnlTotal(ends[k].trades))
  }

  lemma {:induction false} GainsSum(ends: seq<State>, shares: seq<int>)
    requires |ends| == |shares|
    ensures Sum(Gains(ends, shares)) == Sum(shares) + PnlOf(Logs(ends))
  {
    if ends != [] {
      var n := |ends| - 1;
      GainsSum(ends[..n], shares[..n]);
      assert Gains(ends[..n], shares[..n]) == Gains(ends, shares)[..n];
      assert Logs(ends[..n]) == Logs(ends)[..n];
    }
  }

  lemma SleeveEdges(shares: seq<int>, ends: seq<State>, k: nat)
    requires |shares| == |ends| && k < |ends| && Sound(ends[k], shares[k])
    ensures var stamps := Ascending(AllStamps(Curves(ends)));
      var sleeve := Aligned(stamps, ends[k].equity, shares[k]);
      stamps != [] && sleeve[0] == shares[k] && sleeve[|stamps| - 1] == Gains(ends, shares)[k]
  {
    var stamps := Ascending(AllStamps(Curves(ends)));
    StampsCover(ends, k, 0);
    forall i | 0 <= i < |ends[k].equity| ensures stamps[0] <= ends[k].equity[i].ts <= stamps[|stamps| - 1] {
      StampsCover(ends, k, i);
    }
    FirstAligned(stamps, ends[k], shares[k]);
    LastAligned(stamps, ends[k], shares[k]);
  }

  predicate Column(sleeves: seq<seq<int>>, i: nat, values: seq<int>) {
    |sleeves| == |values| && forall k :: 0 <= k < |values| ==> i < |sleeves[k]| && sleeves[k][i] == values[k]
  }

  lemma EdgeColumns(r: Portfolio, shares: seq<int>, ends: seq<State>)
    requires |shares| == |ends| > 0 && Combines(r, shares, ends)
    requires forall k :: 0 <= k < |ends| ==> Sound(ends[k], shares[k])
    ensures r.equity != []
    ensures Column(r.sleeves, 0, shares) && Column(r.sleeves, |r.equity| - 1, Gains(ends, shares))
  {
    SleeveEdges(shares, ends, 0);
    forall k | 0 <= k < |ends|
      ensures r.sleeves[k][0] == shares[k] && r.sleeves[k][|r.equity| - 1] == Gains(ends, shares)[k]
    {
      SleeveEdges(shares, ends, k);
    }
  }

  /** The aggregate starts at the capital, and what it ends up ahead is exactly what the
      merged log says was made. */
  lemma PortfolioAddsUp(r: Portfolio, shares: seq<int>, ends: seq<State>)
    requires |shares| == |ends| > 0 && Combines(r, shares, ends)
    requires forall k :: 0 <= k < |ends| ==> Sound(ends[k], shares[k])
    ensures r.equity != []
    ensures r.equity[0].cents == Sum(shares)
    ensures r.equity[|r.equity| - 1].cents - Sum(shares) == PnlTotal(r.trades)
  {
    EdgeColumns(r, shares, ends);
    ColumnSums(r.sleeves, 0, shares);
    ColumnSums(r.sleeves, |r.equity| - 1, Gains(ends, shares));
    GainsSum(ends, shares);
    LogIsMerged(Logs(ends), r.trades);
  }

  /** And so for every request that runs: from its capital to its capital plus its trades. */
  lemma BasketAddsUp(req: Request, r: Portfolio, ends: seq<State>)
    requires Ready(req.plan) && Fundable(req) && |ends| == |req.instruments|
    requires RunAlone(req, Shares(req), ends) && Combines(r, Shares(req), ends)
    requires forall k :: 0 <= k < |req.instruments| ==> Chronological(req.instruments[k].candles)
    ensures r.equity != []
    ensures r.equity[0].cents == req.capital
    ensures r.equity[|r.equity| - 1].cents - req.capital == PnlTotal(r.trades)
  {
    forall k | 0 <= k < |ends| ensures Sound(ends[k], Shares(req)[k]) {
      RunIsSound(JobOf(req, req.instruments[k], Shares(req)[k]));
    }
    PortfolioAddsUp(r, Shares(req), ends);
    SharesAddUp(req.capital, |req.instruments|, Shares(req));
  }
}
