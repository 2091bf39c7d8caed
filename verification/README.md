# Verified model of the backtester

The backtester compiles a JSON strategy into indicator units and rules, runs it bar by bar over
candles, compares the run with buying and holding, sums baskets of runs, resamples and pages
stored candles, and queues walk-forward sweeps. This project models those parts in Dafny and
proves what each is for.

How the original is rendered:

* Prices are reals, money is whole cents rounded half away from zero, times are integers (reals
  for the two rate limiters). Nothing overflows and no price is NaN; "unknown" stands for the
  tape's NaN marker only.
* What the original updates in place is a class (`Tape`, `Builder`, `Parser`, `Engine`, `Ring`,
  `Window`, `Wma`, `Ema`, `Wilder`, `Extreme`, `Rsi`, `StochRsi`, `Adx`, `Table`, `Limiter`,
  `Provider`) or a method with a loop; each is proved equal to a function of its inputs or of its
  old state, and the properties are then proved of those functions. What the original computes
  by recursion over values stays functions.
* An indicator is a `Study`: readiness and values as functions of everything fed since the last
  reset, which must be ready exactly once its declared warm-up is over (`Lawful`). `StochRsi` and
  `Adx` are modelled in full and shown to satisfy that contract.
* JSON is modelled after decoding, as `Json` values; a registry maps indicator names to what they
  declare and make. How numbers are spelled is a parameter that tells the machine's numbers apart.
* The stored candle table is an ascending sequence; a trading session is an interval inside one
  day. The lending service is a pair of functions of time. The unique index and the run table's
  statements are atomic.

## What is proved

* **Compiler.** A plan with shared units and slots computes, for every input and every history,
  what a private unshared evaluation would (`Compilation.InputSlotIsPrivateValue`); two slots that
  compute the same pipe are one slot (`Wirings.SharingIsComplete`). The texts units and slots are looked
  up by tell instances, feeds and outputs apart (`Keys.SlotTextDetermines`). Exit rules keep their
  three-valued verdict when brackets are hoisted off them (`Hoisting.HoistingKeepsVerdict`). On the
  fixed ring every rule decides what the specification means on the whole history
  (`Compilation.TapeDecides`), and after the plan's warm-up no rule is unknown
  (`Compilation.KnownAfterPlanWarmup`). The cycle check accepts exactly the acyclic inputs
  (`Chaining.FindCycle`).
* **Parser and printer.** The parser accepts exactly the printed images of well-formed
  specifications up to reading (`RoundTrip.ParserImage`); printing what it returned and parsing again
  returns the same specification (`RoundTrip.ReparseIsIdentity`). Its words mean what they are called,
  from the text to the verdict (`Wordings`). What was parsed always compiles (`Loading.Load`), and what is
  stored of it later loads as the same strategy (`Loading.Admit`).
* **Engine.** Money is conserved on every bar and every run ends flat (`Conservation`); nothing looks
  ahead (`Causality`); sizes fit cash, are the largest that do, bound the loss at the stop, and need
  at most one correction (`Sizing`). Positions open between their stop and target, at the distances asked
  (`Openings`), end where those or a signal say (`Closings`), and are paid and charged on their own side
  overnight (`Nights`); the totals are the log's (`Tallies`). Whatever dividends and splits a feed is
  adjusted for are recovered, each on its bar (`Recoveries.FeedRecovered`). The separately written
  benchmark draws the engine's curve cent for cent (`Holding.BenchmarkIsTheEngine`).
* **Basket.** Each sleeve ends as it would alone although all share a plan's indicators
  (`Portfolios.RunBasket`, `Portfolios.SleeveIsARunAlone`), and the sum starts at the capital and ends
  ahead by the merged log's profit (`Portfolios.BasketAddsUp`). It is compared with the sum of the
  sleeves' own benchmarks, which starts where it does (`Comparisons.BasketBenchmarkStarts`) and is its
  own curve if all of them buy and hold (`Comparisons.BasketIsItsBenchmark`). The benchmark's form for
  several books, which a run only ever uses for one, is the sum of its parts as well
  (`Allotments.BasketIsItsParts`).
* **Candles.** Folding twice is folding once, folding preserves totals, and pages read back along the
  cursor are together exactly the fold of the window (`Resampling`, `Paging.ReadBack`).
* **Queue.** In every interleaving a settled run stays settled and a fold gets at most one test run,
  after all its in-sample runs settled. A run keeps its first result for good
  (`Promotions.ResultIsForGood`). The test run carries the fold's winner for as long as no settled run is
  failed and no failed one finished (`Promotions.TimelyTestsCarryTheWinner`), which the lease ensures
  (`Promotions.TestRunsCarryTheWinner`). Without it that fails in both ways
  (`Promotions.LateWorkerUnseatsWinner`, `Latecomers.LateResultUnseatsWinner`), and exactly when is known
  before the write: a failure must not be of a winner under test (`Latecomers.FailKeepsWon`), a run's
  first result must not overtake one (`Latecomers.FinishKeepsWon`). The table's own choice is one the
  protocol allows (`WalkForward.AdvanceIsPickThenPromote`), and the winner is best on the runs' own
  metrics (`Queues.WinnerIsBest`).
* **Indicator kernels, limiters, continuous futures.** Constant-time updates equal recomputation;
  smoothers contract by exactly their factor; both limiters pass at most a burst plus what accrued;
  back-adjustment adds exactly the later gaps and leaves the held contract's daily change, and each bar
  is its day's front contract (`Futures.BarsAreFronts`). What the kernels read off rising, falling and
  flat markets is in `Readouts`.

## Worth knowing about the code

* A limit order can fill past its limit: the grid rounds a buy up and a sell, a long's take-profit
  among them, down, after the limit was applied (`internal/backtest/broker.go:86-92`).
  `Limits.BuyLimitBroken` and `Limits.SellLimitBroken` are such fills. `Limits.LimitIsKept` says exactly
  when a fill keeps the limit; on a bar which opens at the limit or short of it, this is whether the
  limit is on the grid (`Limits.LimitOnTheGridIsKept`). Which limits are kept on every bar is known
  when the order is placed (`Limits.KeptOnEveryBarIs`).
* `Paging`: the cursor fallback after trimming never applies, since a page with more behind it is never
  empty (`internal/market/page.go:107-109`).
* `Queues`: a second result of a run is never stored. It is inserted with its equity curve, whose key is
  run and stamp (`sql/schema/00012_backtests.sql:40-45`), and nothing deletes a curve
  (`internal/backtest/runner.go:367-390`). The model takes it that two curves of one run share a stamp:
  both cover the run's window, and candles are only ever added or corrected.
* `Limiters`: the bounds hold for calls in time order. The API limiter reads the clock before it takes
  its lock, so calls racing for the lock may be served out of that order.

## Model

| member | source | states |
|---|---|---|
| Keys.KeyTextDetermines | internal/indicator/request.go:172-184 | two made instances have the same key text iff they are the same instance |
| Keys.UnitTextDetermines | internal/strategy/compile.go:183-191 | two unit texts are equal iff instance and feed are |
| Keys.SlotTextDetermines | internal/strategy/compile.go:193-200 | two slot texts are equal iff instance, feed and output are |
| Keys.NewIsMade | internal/indicator/registry.go:168-209 | what the constructor returns holds exactly the declared parameters, in range, and a source only if it takes one |
| Indicators.ResolveAgain | internal/indicator/registry.go:168-209 | resolving already resolved parameters changes nothing |
| Indicators.ResolveIs | internal/indicator/registry.go:168-209 | parameters resolve exactly when all are declared, each is in its bounds and whole where it counts, a source is only given where one is read, and the whole is accepted; to what was given, completed by the defaults |
| Readouts.PricesAre | internal/indicator/source.go:29-46 | a price is what it is called; the composite ones are as far above the lower prices they are made of as below the higher |
| Readouts.FedAsStored | internal/strategy/eval.go:284-315 | a candle is fed as stored, and a chained indicator sees its feed in every price but the volume |
| Rules.DepthBoundsLookback | internal/strategy/eval.go:197-235 | two frames that agree as far back as a rule's depth give it the same three-valued verdict |
| Rules.DepthIsNeeded | internal/strategy/eval.go:203-220 | no shorter look back would do: two frames alike but for the bar that deep are told apart by the comparison |
| Rules.SettledWhenKnown | internal/strategy/eval.go:52-195 | a rule is not unknown when every slot and price it may read is known |
| Rules.AllIsKleene | internal/strategy/eval.go:52-69 | conjunction: no iff some rule is no, yes iff all are yes, else unknown |
| Rules.AnyIsKleene | internal/strategy/eval.go:71-88 | disjunction: yes iff some rule is yes, no iff all are no, else unknown |
| Wirings.SharingIsSound | internal/strategy/compile.go:142-205 | a slot of the shared units holds what the private pipe it stands for computes, on every history |
| Wirings.SharingIsComplete | internal/strategy/compile.go:183-205 | two slots that stand for the same pipe are the same slot: nothing is computed twice |
| Wirings.KnownAfterWarmup | internal/strategy/compile.go:332-355 | a slot is known once more bars than its unit's measured warm-up were pushed |
| Wirings.NeverUnknownAfterWarmup | internal/strategy/compile.go:332-355 | past warm-up plus depth no rule over the units is unknown |
| Tapes.Tape.constructor | internal/strategy/eval.go:254-273 | a new tape is empty and every unit of its plan has been reset |
| Tapes.Tape.Push | internal/strategy/eval.go:275-316 | after a push the ring and the units hold what the history plus the new bar determines; upstream slots are written before their readers |
| Tapes.Tape.Feed | internal/strategy/eval.go:284-315 | a unit sees the bar, or its upstream's value flattened, or nothing while that is unknown, and its slots are written or blanked to match |
| Tapes.Tape.RingRefinesHistory | internal/strategy/eval.go:330-355 | within its size the ring answers what the unbounded history would |
| Tapes.Tape.RingVerdict | internal/strategy/eval.go:254-348 | every rule no deeper than the plan has on the ring the verdict it has on the whole history |
| Tapes.Tape.Entry | internal/strategy/eval.go:366-384 | fires exactly when the entry rule is true on the whole history |
| Tapes.Tape.Exit | internal/strategy/eval.go:368-384 | fires exactly when the exit rule is true on the whole history |
| Meanings.ExpansionUnique | internal/strategy/compile.go:142-181 | an input's unshared expansion is unique |
| Meanings.TranscriptMeans | internal/strategy/compile.go:262-330 | a compiled rule's verdict on the history is the specified rule's meaning |
| Meanings.PlainMeans | internal/strategy/eval.go:106-131 | a plain comparison is unknown iff an operand is; else gt, lt, gte and lte hold as of numbers and eq to within a billionth, absolute or of either number |
| Hoisting.HoistingKeepsVerdict | internal/strategy/compile.go:207-247 | the residue of an exit rule has the verdict of the rule with brackets read as false, unknown included |
| Chaining.FindCycle | internal/strategy/parse.go:778-809 | reports a loop, an actual one, exactly when the inputs feed each other in one |
| Chaining.Order | internal/strategy/compile.go:388-409 | every input exactly once, after the one that feeds it |
| Compiler.Builder.UnitFor | internal/strategy/compile.go:183-191 | finds the unit of this key and feed or appends one; what was laid out stays |
| Compiler.Builder.Input | internal/strategy/compile.go:142-181 | an input's slot stands for its expansion and earlier inputs keep theirs |
| Compiler.Builder.HoistAll | internal/strategy/compile.go:207-247 | what remains of the rules, and the last stop and target hoisted off them |
| Wirings.MeasureUnits | internal/strategy/compile.go:332-355 | each unit's warm-up and priming are its own plus its feeder's; the largest of each, attained by a unit or zero |
| Wirings.MeasuresAre | internal/indicator/request.go:157-163 | a unit wants its own warm-up and priming, at most 5000 bars of the latter, on top of those of the unit it reads |
| Compiler.Builder.Measure | internal/strategy/compile.go:332-351 | the measures are recorded, nothing else of the wiring or its indicators changes, and the largest are returned |
| Compiler.Compile | internal/strategy/compile.go:76-102 | the plan implements the specification, its depth the deepest rule's, its warm-up the longest unit's and that depth, its priming the capped sum; a well-formed specification always compiles |
| Loading.Load | internal/backtest/runner.go:201-209 | a plan for exactly the documents the parser accepts, implementing what it read: compiling what was parsed never fails |
| Loading.Admit | internal/api/strategies.go:289-321 | what is stored of an accepted document reads as the same strategy, so it loads again, as a plan of that strategy |
| Compilation.InputSlotIsPrivateValue | internal/strategy/compile.go:142-205 | each input's slot holds what its own private indicator, fed recursively, would |
| Compilation.LegMeans | internal/strategy/compile.go:104-140 | a leg fires on the history exactly when its rule, as written, is true |
| Compilation.TapeDecides | internal/strategy/eval.go:254-384 | entry and exit fire on the ring exactly when the specified rules are true of everything pushed |
| Compilation.BracketsHoisted | internal/strategy/compile.go:207-260 | a leg has a stop (target) iff its exit carries one, and that one |
| Compilation.PlanBracketsHoisted | internal/strategy/compile.go:104-140 | at most one stop and one target per leg of a well-formed specification |
| Compilation.KnownAfterPlanWarmup | internal/strategy/compile.go:332-355 | once more than the plan's warm-up bars are pushed no rule of it is unknown |
| Parser.Parser.Node | internal/strategy/parse.go:371-413 | accepts and counts exactly what the reading of one rule specifies |
| Parser.Parser.Combine | internal/strategy/parse.go:415-440 | reads the rules under all or any in order, counts carried through |
| Parser.Parser.ReadInputs | internal/strategy/parse.go:120-190 | succeeds exactly when every input is usable, acyclic and makeable, and keeps them all |
| Parser.Parser.Side | internal/strategy/parse.go:320-369 | both legs, brackets counted per leg, and which legs carry a stop |
| Parser.Parse | internal/strategy/parse.go:14-118 | accepts exactly the documents the reading accepts, with its value |
| RoundTrip.NodeRoundTrips | internal/strategy/spec.go:263-292 | a printed rule reads back as itself and counts what it holds |
| RoundTrip.NodeSound | internal/strategy/parse.go:371-605 | whatever rule is read is well formed and counted for what it holds |
| RoundTrip.SideRoundTrips | internal/strategy/spec.go:137-147 | a printed side reads back as itself |
| RoundTrip.InputsRoundTrip | internal/strategy/spec.go:158-177 | printed inputs read back as themselves |
| RoundTrip.ParsedIsWellFormed | internal/strategy/parse.go:40-118 | whatever the parser accepts is well formed |
| RoundTrip.PrintedParsesBack | internal/strategy/spec.go:137-307 | a well-formed specification, printed and parsed, comes back |
| RoundTrip.ParserImage | internal/strategy/parse.go:14-118 | the specifications the parser can return are exactly the well-formed ones |
| RoundTrip.ReparseIsIdentity | internal/strategy/spec.go:137-307 | printing what the parser returned and parsing again returns it |
| Text.CleanIs | internal/strategy/parse.go:919-921 | blanks around a word do not matter, nor capitals |
| Wordings.PlainWordsMean | internal/strategy/parse.go:371-512 | a document {"gt": [a, b]}, and lt, gte, lte and eq alike, has the verdict the word says of its operands' values, unknown iff one is |
| Wordings.CrossingWordsMean | internal/strategy/eval.go:133-155 | crosses_above is above now and not on the bar before, crosses_below the mirror image, unknown iff one of the four values is |
| Wordings.TrendWordsMean | internal/strategy/parse.go:500-510 | rising and falling with no count compare with the one bar before |
| Wordings.PriceWordsMean | internal/strategy/parse.go:514-581 | a price word, alone or as a ref some bars back, is that price of the bar so many before the newest |
| Wordings.PriceNames | internal/strategy/spec.go:18-38 | the words for the eight prices |
| Wordings.RefsReach | internal/strategy/parse.go:500-561 | nothing is read from more than 500 bars back, and trends count 1 to 500 whole bars |
| Wordings.SideWordsMean | internal/strategy/parse.go:320-369 | what stands under long is the long leg and under short the short one, of the entry and of the exit |
| Wordings.DocumentMeans | internal/strategy/parse.go:40-118 | a document's strategy is what stands under inputs, entry, exit, sizing and costs, each read as such; no exit iff it is absent or null |
| Wordings.InputWordsMean | internal/strategy/parse.go:241-293 | an input's indicator, source, output and parameters are what stands under those words, cleaned |
| Wordings.PercentBracketsMean | internal/strategy/parse.go:442-467 | stop_loss is a stop and take_profit a target, of that percentage |
| Wordings.RangeBracketMeans | internal/strategy/parse.go:607-662 | an atr bracket has the period and the multiple given |
| Wordings.SizingWordsMean | internal/strategy/parse.go:683-728 | the four sizing words, each with its own range of values |
| Wordings.SizingsAllowed | internal/strategy/parse.go:683-728 | whole shares and whole cents of at least one, parts of the purse above nothing and up to all |
| Wordings.CostWordsMean | internal/strategy/parse.go:730-776 | the three costs are read each by its name, if all are in their bounds |
| Wordings.CostsAllowed | internal/strategy/parse.go:730-776 | no cost is negative, fees and slippage are up to 1000 basis points and brokerage up to 10,000.00 |
| Wordings.NoCostsGiven | internal/strategy/parse.go:730-776 | without costs: no brokerage, 3.25 basis points of fees, 5 of slippage |
| Wordings.LimitsAre | internal/strategy/spec.go:10-21 | at most 12 inputs with names of up to 24 characters, 200 rules, 8 of them on top of one another, and costs in their bounds |
| Broker.FillIsInsideTheBar | internal/backtest/broker.go:48-79 | a fill is at a traded price on the order's right side; refused iff no traded price meets the order |
| Broker.FillIsAtOpenOrPrice | internal/backtest/broker.go:48-79 | a market order fills at the open, a limit or stop at its price or at an open already past it |
| Broker.TickIsAdverse | internal/backtest/broker.go:113-128 | the grid moves a price less than a tick, up for a buyer and down for a seller |
| Broker.FillIsAdverse | internal/backtest/broker.go:86-111 | a buyer pays at least the raw price and a seller gets at most it |
| Broker.SlippageIs | internal/backtest/broker.go:86-111 | before the grid the price is worse by that many basis points of itself, up for a buyer, down for a seller |
| Limits.OnGridIs | internal/backtest/broker.go:113-128 | what counts as on the grid is being within a billionth of a tick of a whole number of ticks |
| Limits.LimitIsKept | internal/backtest/broker.go:86-128 | a limit order fills no worse than its limit iff its raw price is on the grid or some step lies between that price and the limit |
| Limits.LimitOnTheGridIsKept | internal/backtest/broker.go:86-128 | on a bar opening at the limit or short of it, the limit is kept iff the limit price is on the grid |
| Limits.KeptOnEveryBarIs | internal/backtest/broker.go:86-128 | a limit is kept on every bar iff, when it is placed, it is a step of the grid, within the tolerance of one on its own side, or so high that every price around it is left alone |
| Limits.BuyLimitBroken | internal/backtest/broker.go:86-128 | a buy limited to 10.50 on whole ticks that pays more |
| Limits.SellLimitBroken | internal/backtest/broker.go:86-128 | a sell limited to 10.50 on whole ticks that is paid less |
| Broker.CostMonotone | internal/backtest/sizing.go:51-54 | more shares never cost less, fees and rounding included |
| Broker.CostIs | internal/backtest/broker.go:94-103 | a cost is price times shares, the fee on it and the brokerage, each to the nearest cent |
| Actions.ExplanationUnique | internal/backtest/actions.go:82-96 | no two multiples lie within one percent of undoing the same adjustment |
| Actions.FindSplit | internal/backtest/actions.go:82-96 | the scan finds the one multiple that explains a ratio, or none when none does |
| Actions.FindEvent | internal/backtest/actions.go:51-71 | one step of adjusted against plain close is quiet, a dividend, a split or unexplained |
| Actions.ActionsOf | internal/backtest/actions.go:34-76 | per bar the dividend and the factor, and the counts of each kind |
| Actions.EventsAreUsual | internal/backtest/actions.go:34-96 | a dividend is within the yield limit, a factor a usual multiple, never both on one bar |
| Recoveries.DividendAtIs | internal/backtest/actions.go:34-76 | a feed adjusted on one bar for a dividend over a millionth and up to three tenths of the close credits exactly that dividend there, whatever it is adjusted for later |
| Recoveries.FactorAtIs | internal/backtest/actions.go:34-96 | a feed adjusted on one bar for a split or grouping by a usual multiple is adjusted by that multiple there |
| Recoveries.FeedRecovered | internal/backtest/actions.go:34-76 | of a whole feed made from any dividends, splits and quiet bars in those ranges, the scan finds each on its own bar and nothing else |
| Recoveries.UnadjustedIsQuiet | internal/backtest/actions.go:42-50 | a bar without an adjusted close says nothing, nor does the one after it |
| Recoveries.UsualMultiples | internal/backtest/actions.go:82-96 | which numbers are usual multiples: the listed ones and their inverses |
| Actions.SplitLeavesWholeShares | internal/backtest/engine.go:201-216 | the floor's epsilon never makes a share: the fraction cashed out is in [0,1) |
| Sizing.Size | internal/backtest/sizing.go:9-40 | the size the rule, cash, lot and costs determine |
| Sizing.SizeFits | internal/backtest/sizing.go:9-54 | whole lots, at most the request, and covered by cash with rounded notional and fees |
| Sizing.SizeIsLargest | internal/backtest/sizing.go:9-54 | no larger number of whole lots within request and budget is covered by cash |
| Sizing.SizeIsTheRules | internal/backtest/sizing.go:9-61 | a positive size of each rule in its own terms: the fixed shares, the cash, the part of the purse, or the part of it over the stop distance; whole lots inside that and the budget, and no larger number of lots is |
| Sizing.RiskIsBounded | internal/backtest/sizing.go:25-29 | sized by risk, the loss at the stop is at most that part of cash |
| Sizing.AffordableOvershoot | internal/backtest/sizing.go:42-54 | what fits the budget costs at most one cent more than cash |
| Sizing.OneCorrectionIsEnough | internal/backtest/sizing.go:35-37 | at a centavo or more, and fees up to 1000 bps, the correction drops at most one lot |
| Engines.Engine.constructor | internal/backtest/engine.go:70-89 | starts with the capital, no position, the actions read and the tape primed |
| Engines.Engine.Credit | internal/backtest/engine.go:128-150 | the holder is paid and a short owes the rounded dividend; nothing else moves |
| Nights.DividendTakesSides | internal/backtest/engine.go:128-150 | a dividend of a cent or more raises a long's cash and lowers a short's |
| Engines.Engine.Charge | internal/backtest/engine.go:156-181 | a short accrues rent on the previous close and pays its whole cents |
| Nights.RentIsCharged | internal/backtest/engine.go:156-181 | a borrowing short owes the rate on its shares' value at the previous close; whole cents leave cash, less than one stays owed |
| Nights.NoRent | internal/backtest/engine.go:156-169 | nobody else pays rent |
| Engines.Engine.Adjust | internal/backtest/engine.go:186-257 | shares, entry price and levels move with a split, the fraction is cashed, less than a share settles |
| Nights.SplitKeepsShape | internal/backtest/engine.go:186-246 | a split multiplies the shares and divides price, stop and target by one number, and pays the fraction to a long and by a short |
| Nights.GroupingPaysOut | internal/backtest/engine.go:230-257 | a grouping that leaves no share pays for all of it and closes the trade at no fee |
| Engines.Engine.Fill | internal/backtest/engine.go:311-325 | the pending intent is consumed, and carried out if the position allows |
| Closings.EntryIsTaken | internal/backtest/engine.go:311-325 | an intent to enter is carried out only by a flat book |
| Closings.SignalLeavesAtTheOpen | internal/backtest/engine.go:311-334 | a signal to leave closes the position at the next open with the other side's order |
| Engines.Engine.EnterAt | internal/backtest/engine.go:336-387 | unavailable, unpriced and unaffordable entries leave the book; the rest open the sized position |
| Openings.OpensBetweenItsLevels | internal/backtest/engine.go:27-46 | a position opens with its stop behind the entry price and its target ahead of it by exactly the distances asked, and with none where none was asked |
| Openings.LevelsAreApart | internal/backtest/engine.go:27-46 | so a long has stop < entry < target and a short target < entry < stop |
| Openings.PercentStop | internal/backtest/engine.go:27-46 | a percentage stop is always behind the entry, a long's still above zero |
| Openings.StopRiskIsBounded | internal/backtest/engine.go:336-387 | a position sized by risk loses at the stop it carries at most its part of cash |
| Openings.NoStopNoRisk | internal/backtest/sizing.go:9-40 | sized by risk nothing is bought without a stop, and nothing ever at no price |
| Openings.EntryIsPaid | internal/backtest/engine.go:336-387 | an entry moves cash by the price of its shares and the fees once; nothing else of the book |
| Openings.EntryIsAdverse | internal/backtest/engine.go:336-387 | a long enters at no less than the open and a short at no more |
| Openings.EntryIsRefused | internal/backtest/engine.go:336-387 | a flat book opens exactly when the shares can be had, the price is positive and a share is taken; what could not be had or afforded is counted, and no refusal moves cash |
| Openings.BracketBecomes | internal/backtest/engine.go:295-309 | a percentage bracket is offered as it is, one in average ranges as its multiple of the newest range, and not at all while that is unknown |
| Openings.LevelsAreReached | internal/backtest/engine.go:389-412 | a resting stop or target is hit exactly when the bar trades through it from the position's side |
| Engines.Engine.Brackets | internal/backtest/engine.go:389-412 | the stop before the target, and a bar that reaches both counted |
| Closings.BracketsEnd | internal/backtest/engine.go:389-412 | a bar that reaches the stop ends the position there, one that reaches only the target ends it at the target, no other bar ends it |
| Closings.RestingOrders | internal/backtest/engine.go:389-412 | a stop rests as a stop order and a target as a limit order, at their levels, on the side that closes |
| Engines.Engine.Exit | internal/backtest/engine.go:422-480 | closes at the order's fill, settles the borrow owed and writes the trade |
| Closings.ExitIs | internal/backtest/engine.go:422-480 | an exit that fills pays the notional and the fees, writes one trade with entry, exit, fees, dividends, rent and profit as they were, and leaves the book flat; one that does not fill changes nothing |
| Closings.RunEndsAtTheClose | internal/backtest/engine.go:414-420 | the last close ends whatever is open |
| Engines.Engine.Signal | internal/backtest/engine.go:259-309 | the close's decision on the whole history, long offered first |
| Closings.CloseDecides | internal/backtest/engine.go:259-293 | a holding book leaves when its own exit fires; a flat one enters long if the long entry fires, else short if the short one does, unless that leg's levels are unknown, which is counted |
| Engines.Engine.Mark | internal/backtest/engine.go:482-512 | one curve point: cash plus the position at this close |
| Closings.CurveShowsTheBook | internal/backtest/engine.go:482-512 | the point is cash plus what a long's shares are worth at the close, or less what a short's are |
| Engines.Engine.Bar | internal/backtest/engine.go:93-113 | one stamp is exactly one step of the specification, and the tape has seen the bar |
| Engines.Simulate | internal/backtest/engine.go:91-119 | a run ends where the specification says, whatever the plan's indicators held before |
| Books.OnwardIsAfter | internal/backtest/engine.go:91-119 | the state after all bars, from any bar on |
| Conservation.UnwindBalances | internal/backtest/engine.go:422-480 | an exit leaves cash equal to capital plus recorded profit |
| Conservation.StepBalances | internal/backtest/engine.go:93-113 | a bar keeps cash balanced and adds one curve point at this close |
| Conservation.CashBalances | internal/backtest/engine.go:128-512 | after every bar cash is capital, plus recorded PnL, plus what the open position moved; the newest point marks it |
| Conservation.RunsEndFlat | internal/backtest/engine.go:414-480 | a run ends with no position, and final equity less capital is the sum of trade PnL |
| Tallies.TotalsAreTheLogs | internal/backtest/engine.go:128-480 | after every bar the totals of dividends, rent and split cash are the sums over the log and the open position |
| Conservation.CurveFollowsBars | internal/backtest/engine.go:482-512 | the curve carries the bars' times and starts at the capital |
| Causality.NoLookAhead | internal/backtest/engine.go:91-119 | series that agree up to a bar final in neither leave the same state after it |
| Causality.EntryUsesOnlyTheOpen | internal/backtest/engine.go:311-387 | an entry depends on earlier bars and this bar's time and open alone |
| Causality.AlwaysPoised | internal/backtest/engine.go:259-293 | an entry is only ever pending on a flat book |
| Causality.EventsFromPrefix | internal/backtest/actions.go:34-76 | a bar's corporate action reads that bar and the one before |
| Benchmarks.HoldBenchmark | internal/backtest/benchmark.go:48-146 | the buy-and-hold curve of one symbol, or none under two bars or when nothing was bought; several are `Allotments.HoldBasket` |
| Benchmarks.Buyable | internal/backtest/benchmark.go:211-228 | whole lots within the fee-inclusive budget, covered by the capital, and no larger number of them is |
| Holding.SameQuantity | internal/backtest/sizing.go:9-61 | sized with everything the engine takes the benchmark's quantity |
| Holding.SameSplit | internal/backtest/benchmark.go:79-87 | the unguarded split arithmetic of the benchmark equals the engine's |
| Holding.BenchmarkIsTheEngine | internal/backtest/benchmark.go:48-146 | on every bar the benchmark's curve is the engine's, for an all-in entry at the first close and no exit, if the purchase succeeds and splits leave a share |
| Allotments.HoldBasket | internal/backtest/benchmark.go:48-146 | holding several symbols out of one purse: the curve, or none when there is nothing to hold or nothing was bought |
| Allotments.BasketIsItsParts | internal/backtest/benchmark.go:44-146 | of several books, on a timeline with every bar, it is the sum of the symbols' own curves at equal parts of the capital, each at its last bar and sold at the end, and of what the division left over |
| Allotments.OneSymbolIsItself | internal/backtest/benchmark.go:44-146 | a basket of one symbol draws that symbol's own curve |
| Allotments.IdleIsSmall | internal/backtest/benchmark.go:56-56 | what the division leaves uninvested is less than a cent a symbol |
| Baskets.SplitCapital | internal/backtest/basket.go:64-76 | each share: the quotient, and one more for the first remainder-many |
| Baskets.SharesAddUp | internal/backtest/basket.go:64-76 | shares sum to the capital and differ by at most a cent |
| Baskets.UnionStamps | internal/backtest/basket.go:78-98 | every stamp of every curve, once, ascending |
| Baskets.AlignSleeve | internal/backtest/basket.go:103-116 | two cursors give each stamp the value after its leading points |
| Baskets.AlignedIsLastKnown | internal/backtest/basket.go:103-116 | on an ascending curve that is the last value at or before the stamp, else the untouched share |
| Baskets.SumAligned | internal/backtest/basket.go:134-151 | each point is the sum of the aligned curves |
| Merging.SortIsStable | internal/backtest/basket.go:183-191 | in order by entry, exit and symbol, a permutation, ties in their original order |
| Merging.MergeTrades | internal/backtest/basket.go:177-200 | the joined logs, sorted and numbered from one |
| Merging.LogIsMerged | internal/backtest/basket.go:177-200 | ascending by entry, then exit, then symbol, numbered 1..n, the same trades, the same total PnL |
| Text.LeqIsFirstDifference | internal/backtest/basket.go:183-191 | symbols are ordered by their first different character, a shorter one before a longer that begins with it |
| Portfolios.RunBasket | internal/backtest/basket.go:15-60 | every sleeve ends as it would alone, on one shared plan, and the result combines them |
| Portfolios.Run | internal/backtest/run.go:104-139 | the refusals, exactly; one symbol is its own result, several a basket |
| Portfolios.RunIgnoresGauges | internal/backtest/book.go:42-55 | a run depends on how the plan is wired, not on the state of its indicator objects |
| Portfolios.SleeveIsARunAlone | internal/backtest/basket.go:15-60 | a sleeve equals the same symbol run alone on a fresh plan with the same capital |
| Portfolios.PortfolioAddsUp | internal/backtest/basket.go:15-52 | the aggregate starts at the shares' sum and gains what the merged log says |
| Portfolios.BasketAddsUp | internal/backtest/basket.go:15-200 | for every request: from the capital to the capital plus the merged PnL |
| Comparisons.SumBenchmark | internal/backtest/basket.go:156-175 | the aligned benchmarks added up; none if some sleeve has no curve as long as its own |
| Comparisons.CompareBasket | internal/backtest/basket.go:15-52 | each sleeve's own benchmark at its own share, summed on the common timeline |
| Comparisons.BasketBenchmarkIsSum | internal/backtest/basket.go:156-175 | for a basket that ran: none iff some sleeve has no benchmark, else at every stamp the sum of theirs, each at its last bar or its untouched share |
| Comparisons.BasketBenchmarkStarts | internal/backtest/basket.go:156-175 | it starts at the whole capital |
| Comparisons.BasketIsItsBenchmark | internal/backtest/basket.go:15-52 | a basket of strategies that buy and hold draws its own benchmark, cent for cent |
| Queues.Table.Claim | internal/db/backtests.sql.go:15-28 | takes the oldest queued run, user runs before sweeps, and marks it running now; none iff none is queued |
| Queues.Table.Finish | internal/backtest/runner.go:333-418 | stored, whatever the run's status was, iff the run has no result yet: then it is done with these metrics; else nothing changes; the same runs ask for the same things, every other row is unchanged |
| Queues.Table.Fail | internal/db/backtests.sql.go:237-253 | this run is failed whatever it was, so no longer a candidate of any fold; every other row is unchanged |
| Queues.Table.Requeue | internal/db/backtests.sql.go:659-669 | an active run is queued, a settled one is left as it is; every other row is unchanged |
| Queues.Table.RequeueStale | internal/db/backtests.sql.go:671-684 | exactly the runs running since before the cutoff are freed, as many as it says, and none is left |
| Queues.Table.FoldRuns | internal/db/sweeps.sql.go:225-230 | a fold's done in-sample runs, all of them, in grid order |
| Queues.Table.CreateTest | internal/backtest/runner.go:508-534 | a fold of a standing sweep is under test afterwards, and by the new run alone if it was not before; no other row changes |
| Queues.Table.Choose | internal/backtest/runner.go:469-506 | the winner of the fold, which has traded and is on the objective's own metric beaten by no done run that has; nothing iff none has, the objective is unnamed, or there is no such fold |
| Queues.Table.Advance | internal/backtest/runner.go:469-534 | either nothing scored and nothing changes, or the fold's winner is what its test run is made of |
| Queues.BestOf | internal/backtest/runner.go:559-581 | the first strictly best score in grid order; none iff no listed run traded, or the objective is unnamed |
| Queues.BestIsWinner | internal/backtest/runner.go:559-581 | over a fold's listing the loop finds the winner the relation defines |
| Queues.WinnerIsBest | internal/backtest/score.go:13-45 | the winner has traded; no done run of the fold that traded has a larger value of the objective's own metric, and none before it in the grid an equal one; without a losing trade the profit factor is outranked by none |
| Queues.WinnerUnique | internal/backtest/runner.go:559-581 | with distinct points a fold has at most one winner |
| WalkForward.StepKeepsBase | internal/backtest/runner.go:125-198 | no event, late workers included, breaks the table's invariants |
| WalkForward.AdvanceIsPickThenPromote | internal/backtest/runner.go:442-557 | what the table's choice answers the protocol allows, and choosing and carrying forward is its pick and then its promotion |
| Promotions.OneTestAfterAllSettled | internal/db/sweeps.sql.go:434-446 | a fold has at most one test run, and only with all its in-sample runs settled |
| Promotions.SettledStaysSettled | internal/db/backtests.sql.go:659-676 | a settled run is never queued or running again, lease or no lease |
| Promotions.StaleSparesTheLeased | internal/backtest/runner.go:34-38 | the stale requeue never takes a run from a worker within its lease |
| Promotions.LeasedRunsAreFrozen | internal/backtest/runner.go:150-188 | within the lease a settled run does not change at all |
| Promotions.TimelyTestsCarryTheWinner | internal/backtest/runner.go:442-557 | lease or no lease, while no settled run is failed and no failed one finished a test run carries its fold's winner |
| Promotions.LeasedIsTimely | internal/backtest/runner.go:150-188 | within the lease nothing is written over a settled run |
| Promotions.ResultIsForGood | sql/schema/00012_backtests.sql:25-45 | lease or no lease, a run that has a result keeps that one for good, whatever late workers bring |
| Promotions.LeasedResultIsStored | internal/backtest/runner.go:333-418 | within the lease no result is refused: the run is done with it |
| Promotions.TestRunsCarryTheWinner | internal/backtest/runner.go:442-557 | within the lease a test run carries the spec of its fold's first best-scoring run, at every moment |
| Promotions.LateWorkerUnseatsWinner | internal/db/backtests.sql.go:237-243 | a history in which a worker outlives its lease and the test run is left with no winner |
| Latecomers.FailKeepsWon | internal/db/backtests.sql.go:237-253 | a failure, late or not, leaves every test run with its winner iff the run failed is not the winner of a fold under test |
| Latecomers.FinishKeepsWon | internal/backtest/runner.go:333-418 | a result, late or not, leaves every test run with its winner iff its run has one already, or it does not overtake the winner of any tested fold the run is in |
| Latecomers.LateResultUnseatsWinner | internal/backtest/runner.go:333-418 | a history in which a worker given up on brings a better result for a run that failed since, and the test run is left without its winner |
| Calendars.OpenIsInSession | internal/market/candle.go:39-65 | a bucket opens in the same session, less than a width before what it covers |
| Calendars.SessionIsTheDays | internal/market/candle.go:39-65 | an instant belongs to its own day's session; a daily bucket opens with it, a narrower one exists exactly from the open up to the close |
| Calendars.WidthsNest | internal/market/timeframe.go:35-62 | each timeframe is a whole number of the next narrower one, and what number of base bars it holds |
| Calendars.OpenOfOpen | internal/market/candle.go:39-65 | bucketing at a divisor width first changes no bucket |
| Calendars.SessionBuckets | internal/market/candle.go:113-126 | the session's opens, one width apart |
| Calendars.BucketsTile | internal/market/candle.go:39-126 | an instant's bucket is the listed one that covers it |
| Resampling.Resample | internal/market/resample.go:11-80 | accepts exactly valid ascending aligned bars for an intraday target and returns their fold |
| Resampling.ValidIs | internal/market/candle.go:19-37 | which bars are valid: a time, positive prices, open and close within low and high, no negative volume |
| Resampling.FoldedIsFoldable | internal/market/resample.go:11-80 | folded bars are valid, strictly ascending and on the grid |
| Resampling.FoldingTwice | internal/market/resample.go:11-80 | folding to a divisor timeframe and folding that again is folding directly |
| Resampling.EachIsItsBucket | internal/market/resample.go:56-75 | each bar is first open, highest high, lowest low, last close, newest adjusted close and total volume of its bucket |
| Resampling.EachIsCovered | internal/market/resample.go:56-75 | every base bar has its bucket in the output |
| Resampling.TotalsPreserved | internal/market/resample.go:11-80 | total volume, highest high and lowest low are kept |
| Paging.TrimPage | internal/market/page.go:125-142 | drops the oldest bar of a truncated read, keeps the newest limit, and says whether more is left |
| Paging.ReadPage | internal/market/page.go:55-112 | what a page holds, its cursor, and when it fails |
| Paging.PageLimits | internal/market/page.go:44-53 | a limit within 1 and 5000 is kept, a larger one is 5000, a smaller one 1000 |
| Paging.RowCapIs | internal/market/page.go:114-123 | a read fetches one row more than a page of that timeframe can need, as far as 32 bits count |
| Paging.WindowIsWholeDays | internal/market/page.go:55-73 | the window is whole days from the first to the last asked for, up to the cursor |
| Paging.FoldIsDense | internal/market/page.go:114-123 | a bucket holds no more rows than base slots, so a full read fills a page |
| Paging.PageIsNewest | internal/market/page.go:88-142 | a page is the newest part of everything: full when there is more, all of it when not |
| Paging.ReadBack | internal/market/page.go:55-142 | following the cursor gives pages that together are the window's bars, all but the oldest full |
| Futures.FrontIsNearest | internal/market/futures.go:125-140 | the front contract is past no cutoff and expires no later than any other such; none iff all are past |
| Futures.BarsAreFronts | internal/market/futures.go:56-140 | every bar is a contract quoted that day that expires no earlier than the day plus the offset, the first such to expire; every day with one has a bar; a bar is a roll iff its contract is not the one before |
| Futures.GapIsNewest | internal/market/futures.go:142-168 | a roll's gap is the contract rolled to less the one left, on the newest day before on which both settled; none iff there is no such day |
| Futures.RollGap | internal/market/futures.go:142-168 | the gap on the newest day both contracts settled, or unmeasured |
| Futures.BackAdjust | internal/market/futures.go:170-189 | one backward pass shifts every bar by its later gaps |
| Futures.BuildContinuous | internal/market/futures.go:56-123 | under the root in capitals without blanks, the last multiplier read and the series the quotes determine; refused iff no root or a negative offset, and for which |
| Futures.AdjustmentIsLaterGaps | internal/market/futures.go:170-189 | an adjustment is the sum of the gaps of all later rolls, nothing on the newest bar |
| Futures.ChangeIsTheHeldContracts | internal/market/futures.go:85-189 | the adjusted day-over-day change is the held contract's settlement change when it settled on the bar before, rolls included |
| Deques.Extreme.Push | internal/indicator/extreme.go:23-45 | the deque and its circular arrays hold the monotonic queue of the last values; every push adds one entry, and entries popped and held add up to those pushed |
| Deques.Extreme.Value | internal/indicator/extreme.go:49-54 | the best of the last min(n, size) values |
| Deques.BestIsExtreme | internal/indicator/extreme.go:49-54 | the best is the highest, or the lowest |
| Deques.Extreme.Age | internal/indicator/extreme.go:56-61 | the distance to the newest occurrence of that value |
| Deques.ExpiryLeaves | internal/indicator/extreme.go:24-27 | expiring at most one entry leaves no index past the window |
| Deques.PushKeepsQueue | internal/indicator/extreme.go:29-44 | dropping the beaten and appending keeps the queue monotonic and covering |
| Deques.TailWritten | internal/indicator/extreme.go:40-42 | the slot written overwrites no live entry |
| Windows.Ring.Push | internal/indicator/ring.go:16-25 | the running sum is the sum of the last values; what left is returned |
| Windows.Ring.At | internal/indicator/ring.go:29-35 | the i-th oldest held value, or zero |
| Windows.CellAt | internal/indicator/ring.go:16-25 | a held value is never overwritten |
| Windows.TailForgets | internal/indicator/ring.go:16-35 | values older than the window do not matter: priming with a window's worth is exact |
| Deviations.Window.Push | internal/indicator/ring.go:64-75 | the kept deviation is the squared deviation of the window about its own mean |
| Deviations.SlidesBy | internal/indicator/ring.go:70-72 | the sliding update of the squared deviation is exact |
| Deviations.GrowsBy | internal/indicator/ring.go:74-74 | the growing update is exact |
| Averages.Wma.Push | internal/indicator/wma.go:35-54 | the average is of the last period values exactly |
| Averages.WeightedSlides | internal/indicator/wma.go:42-43 | the numerator slides by the newest weight less the old sum |
| Readouts.FlatWeighsItself | internal/indicator/wma.go:26-54 | the weights are shares of one: a flat market's weighted mean is its price |
| Averages.WeightedPrimes | internal/indicator/wma.go:35-54 | priming with a period of earlier values is exact |
| Averages.Ema.Push | internal/indicator/ema.go:34-45 | seeded with the mean of the first period, then smoothed; ready from the period-th value |
| Readouts.EmaStep | internal/indicator/ema.go:29-45 | a value closes two parts in one more than the period of the gap to it |
| Averages.Wilder.Push | internal/indicator/smooth.go:17-29 | the same smoothing at one over the period |
| Readouts.WilderStep | internal/indicator/smooth.go:17-29 | a value closes one part in the period of the gap to it |
| Readouts.FlatIsFlat | internal/indicator/smooth.go:17-29 | on a flat market an average is the price |
| Averages.GapShrinks | internal/indicator/ema.go:34-38 | two ready states fed the same values differ by their gap shrunk once a value |
| Averages.DecayedIs | internal/indicator/smooth.go:17-21 | that is by the n-th power of one less the factor |
| Averages.StreamsConverge | internal/indicator/ema.go:34-45 | streams with a common end converge by exactly that factor |
| Oscillators.Rsi.Update | internal/indicator/rsi.go:30-58 | the index of all prices so far, ready after one price more than the period |
| Oscillators.RsiBounded | internal/indicator/rsi.go:30-58 | the index is always between 0 and 100 |
| Readouts.MoveSplits | internal/indicator/rsi.go:36-45 | a move is a rise or a fall and never both |
| Readouts.StrengthIsShare | internal/indicator/rsi.go:30-58 | the index is the rises' percentage of the averaged moves |
| Readouts.OnlyRisesIsHundred | internal/indicator/rsi.go:30-58 | prices that never fall read 100 |
| Readouts.OnlyFallsIsZero | internal/indicator/rsi.go:30-58 | prices that never rise, and do fall, read 0 |
| Stochastics.SlowFills | internal/indicator/stochrsi.go:48-82 | the last of the nested stages fills exactly when the declared warm-up is over |
| Stochastics.StudyIsLawful | internal/indicator/stochrsi.go:48-82 | the stochastic keeps the contract the compiler relies on |
| Readouts.PercentInside | internal/indicator/stochrsi.go:48-74 | the top of the range reads 100, its bottom 0, and between is between |
| Readouts.StochasticInside | internal/indicator/stochrsi.go:48-74 | the raw stochastic is always between 0 and 100 |
| Readouts.LinesInside | internal/indicator/stochrsi.go:48-74 | both lines stay between 0 and 100, and the second is the mean of the first's last few |
| Stochastics.StochRsi.Update | internal/indicator/stochrsi.go:48-74 | each stage has been given what the stages before let through, and the lines follow |
| Stochastics.StochRsi.Reset | internal/indicator/stochrsi.go:88-95 | back to having been fed nothing |
| Directional.StudyIsLawful | internal/indicator/adx.go:38-90 | ready exactly after two periods of bars, three lines from then on, primed with sixteen times as many |
| Readouts.MovesTakeSides | internal/indicator/adx.go:38-62 | a bar counts for one direction at most: the one it reached further in |
| Readouts.RangeSpans | internal/indicator/adx.go:54-54 | the true range spans the bar and the close before it |
| Readouts.OnlyUpHasNoMinus | internal/indicator/adx.go:38-84 | bars whose lows never fall leave the minus line at zero |
| Readouts.OnlyDownHasNoPlus | internal/indicator/adx.go:38-84 | bars whose highs never rise leave the plus line at zero |
| Readouts.LeanIs | internal/indicator/adx.go:62-84 | the lean is how far apart the two lines are, in percent of their sum: 100 when one is zero, 0 when they are equal |
| Directional.Adx.Update | internal/indicator/adx.go:38-84 | the four averages have been given every bar's movements and leans |
| Limiters.Limiter.Allow | internal/api/ratelimit.go:46-69 | answers, spends and remembers as the history of calls determines |
| Limiters.SweepNeverMatters | internal/api/ratelimit.go:71-82 | sweeping idle callers never changes an answer |
| Limiters.SpanIsBounded | internal/api/ratelimit.go:46-69 | in any span at most a burst plus the accrued refill of one caller's calls pass |
| Limiters.MinuteIsBounded | internal/api/server.go:16-21 | in no minute do more than 40 calls of one address get through, or 60 of one user |
| Limiters.ServerLimitersForget | internal/api/server.go:16-21 | both of the server's limiters refill within the idle limit |
| Limiters.Provider.Reserve | internal/brapi/limiter.go:45-67 | a reservation is always taken, into debt if need be, and told its wait until the release that all reservations so far determine |
| Limiters.ReleasesAreBounded | internal/brapi/limiter.go:45-67 | in any span at most a burst plus the accrued refill of reservations go ahead |

## Left out

- Parser.Parse: fault messages and exact JSON pointers; a fault carries the path of the rule, input or
  section it is in and a fixed message.
- Strings: the text of JSON and of numbers; `Keys` takes the spelling of numbers as given. Trimming and
  the two cases are those of ASCII.
- Rate, Sharpe, Sortino, drawdown and per-symbol statistics, and the index benchmark: arithmetic over a
  finished curve.
- Several books in one engine: sleeves are always run one symbol at a time, and books of one plan would
  share indicators.
- Indicators other than the relative strength index, its stochastic and the directional index: the
  compiler and the tape are proved for every indicator that keeps `Lawful`.
- The square root of the windowed deviation, and compounding of borrow and risk-free rates (the rate is
  an arbitrary function of time).
- Float rounding, NaN and infinities, 64-bit overflow, nanosecond truncation of waits.
- Time zones, daylight saving and the holiday file: a calendar is any map from days to sessions inside
  them.
- SQL beyond the run statements and the readiness query, user deletion, and the rows of a test run's basket,
  which are written after it and outside its transaction.
- The order of equal expirations: the original's sort is not stable, the model takes the first.
- Resampling futures, gap reports, grids of sweep points, fold windows, HTTP, authentication and the user
  interface.
