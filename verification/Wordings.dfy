/** What the words of a strategy document mean, from the text that is read to the verdict,
    the price or the number it stands for. */
module Wordings {
  import opened Outcomes
  import opened Numbers
  import opened Text
  import opened Bars
  import opened Specs
  import opened Forms
  import opened Reading
  import opened Rules
  import opened Printing
  import opened Indicators
  import RoundTrip
  import Meanings

  // ---------- comparisons ----------

  /** What one of the five plain words says of two numbers. */
  predicate Says(word: string, x: real, y: real) {
    || (word == "gt" && x > y)
    || (word == "lt" && y > x)
    || (word == "gte" && (x > y || x == y))
    || (word == "lte" && (y > x || x == y))
    || (word == "eq" && Meanings.Holds(EQ, x, y))
  }

  /** The verdict on a one-rule document `{word: items}`. */
  ghost function Reads(scope: Scope, word: string, items: seq<Json>, h: seq<Sample>): Option<Verdict> {
    match NodeIn(scope, Obj(map[word := Arr(items)]), 1, false, Counts(0, 0, 0))
    case None => None
    case Some(r) => Some(Meanings.Meaning(scope, r.0, h))
  }

  /** An item's value some bars back. */
  ghost function ItemAt(scope: Scope, item: Json, h: seq<Sample>, back: int): Option<real>
    requires OperandIn(scope, item).Some?
  {
    Meanings.OperandAt(scope, OperandIn(scope, item).value, h, back)
  }

  ghost predicate Readable(scope: Scope, items: seq<Json>) {
    forall i :: 0 <= i < |items| ==> OperandIn(scope, items[i]).Some?
  }

  lemma {:induction false} OperandsRead(scope: Scope, items: seq<Json>)
    requires Readable(scope, items)
    ensures OperandsIn(scope, items).Some? && |OperandsIn(scope, items).value| == |items|
    ensures forall i :: 0 <= i < |items| ==> OperandsIn(scope, items).value[i] == OperandIn(scope, items[i]).value
  {
    if items != [] {
      OperandsRead(scope, items[..|items| - 1]);
    }
  }

  lemma WordRead(scope: Scope, op: Comparator, items: seq<Json>, operands: seq<Operand>, h: seq<Sample>)
    requires CompareIn(scope, op, Arr(items)) == Some(Compare(op, operands)) && |operands| == Arity(op).1
    ensures Reads(scope, KeywordName(OpKey(op)), items, h) == Some(Meanings.Judged(scope, op, operands, h))
  {
    RoundTrip.KeyedRead(scope, OpKey(op), Arr(items), 1, false, Counts(0, 0, 0));
    assert Keyed(OpKey(op), Arr(items)) == Obj(map[KeywordName(OpKey(op)) := Arr(items)]);
  }

  lemma PlainMeans(scope: Scope, op: Comparator, items: seq<Json>, h: seq<Sample>)
    requires op in {GT, LT, GTE, LTE, EQ} && |items| == 2 && Readable(scope, items)
    ensures var x, y := ItemAt(scope, items[0], h, 0), ItemAt(scope, items[1], h, 0);
      Reads(scope, KeywordName(OpKey(op)), items, h)
      == Some(if x.None? || y.None? then Unknown else if Meanings.Holds(op, x.value, y.value) then Yes else No)
  {
    OperandsRead(scope, items);
    WordRead(scope, op, items, OperandsIn(scope, items).value, h);
  }

  /** gt, lt, gte, lte and eq say of their two operands what they are called. */
  lemma PlainWordsMean(scope: Scope, word: string, items: seq<Json>, h: seq<Sample>)
    requires word in {"gt", "lt", "gte", "lte", "eq"} && |items| == 2 && Readable(scope, items)
    ensures var x, y := ItemAt(scope, items[0], h, 0), ItemAt(scope, items[1], h, 0);
      Reads(scope, word, items, h)
      == Some(if x.None? || y.None? then Unknown else if Says(word, x.value, y.value) then Yes else No)
  {
    PlainMeans(scope,
      if word == "gt" then GT else if word == "lt" then LT else if word == "gte" then GTE else if word == "lte" then LTE else EQ,
      items, h);
  }

  /** Being above, or below, now and not on the bar before. */
  function Crossed(above: bool, x: Option<real>, y: Option<real>, before: Option<real>, against: Option<real>): Verdict {
    if x.None? || y.None? || before.None? || against.None? then Unknown
    else if above then if x.value > y.value && before.value <= against.value then Yes else No
    else if x.value < y.value && before.value >= against.value then Yes
    else No
  }

  lemma CrossingMeans(scope: Scope, op: Comparator, items: seq<Json>, h: seq<Sample>)
    requires Crossing(op) && |items| == 2 && Readable(scope, items)
    ensures Reads(scope, KeywordName(OpKey(op)), items, h)
         == Some(Crossed(op == CrossesAbove, ItemAt(scope, items[0], h, 0), ItemAt(scope, items[1], h, 0),
                         ItemAt(scope, items[0], h, 1), ItemAt(scope, items[1], h, 1)))
  {
    OperandsRead(scope, items);
    WordRead(scope, op, items, OperandsIn(scope, items).value, h);
  }

  /** A line crosses above another when it is above now and was not on the bar before. */
  lemma CrossingWordsMean(scope: Scope, items: seq<Json>, h: seq<Sample>)
    requires |items| == 2 && Readable(scope, items)
    ensures var x, y := ItemAt(scope, items[0], h, 0), ItemAt(scope, items[1], h, 0);
      var before, against := ItemAt(scope, items[0], h, 1), ItemAt(scope, items[1], h, 1);
      && Reads(scope, "crosses_above", items, h) == Some(Crossed(true, x, y, before, against))
      && Reads(scope, "crosses_below", items, h) == Some(Crossed(false, x, y, before, against))
  {
    assert KeywordName(OpKey(CrossesAbove)) == "crosses_above" && KeywordName(OpKey(CrossesBelow)) == "crosses_below";
    CrossingMeans(scope, CrossesAbove, items, h);
    CrossingMeans(scope, CrossesBelow, items, h);
  }

  lemma OneStep(scope: Scope, op: Comparator, o: Operand, h: seq<Sample>)
    requires Trending(op)
    ensures Meanings.Judged(scope, op, [o, Literal(1.0)], h) == Meanings.Moved(scope, op, o, h, 0)
  {
    if Meanings.Moved(scope, op, o, h, 0) != Yes {
      assert Meanings.FirstUnmet(scope, op, o, h, 0);
    }
  }

  /** Rising with no count is higher than on the bar before, falling lower. */
  lemma TrendWordsMean(scope: Scope, items: seq<Json>, h: seq<Sample>)
    requires |items| == 1 && Readable(scope, items)
    ensures var now, before := ItemAt(scope, items[0], h, 0), ItemAt(scope, items[0], h, 1);
      if now.None? || before.None? then
        Reads(scope, "rising", items, h) == Reads(scope, "falling", items, h) == Some(Unknown)
      else
        && Reads(scope, "rising", items, h) == Some(if now.value > before.value then Yes else No)
        && Reads(scope, "falling", items, h) == Some(if now.value < before.value then Yes else No)
  {
    OperandsRead(scope, items);
    var o := OperandIn(scope, items[0]).value;
    assert OperandsIn(scope, items).value == [o];
    RoundTrip.WholeBack(1);
    assert CountsBars(Literal(1.0));
    assert [o] + [Literal(1.0)] == [o, Literal(1.0)];
    WordRead(scope, Rising, items, [o, Literal(1.0)], h);
    WordRead(scope, Falling, items, [o, Literal(1.0)], h);
    OneStep(scope, Rising, o, h);
    OneStep(scope, Falling, o, h);
  }

  // ---------- prices ----------

  /** A price by its name, some bars back: the newest bar is none back. */
  lemma PriceWordsMean(scope: Scope, f: Field, back: nat, h: seq<Sample>)
    requires RoundTrip.ScopeOk(scope) && back <= 500 && back < |h|
    ensures OperandIn(scope, Str(FieldName(f))).Some? && ItemAt(scope, Str(FieldName(f)), h, back) == Some(Price(f, h[|h| - 1 - back]))
    ensures var item := Obj(map["ref" := Arr([Str(FieldName(f)), Num(back as real)])]);
      OperandIn(scope, item).Some? && ItemAt(scope, item, h, 0) == Some(Price(f, h[|h| - 1 - back]))
  {
    RoundTrip.FieldClean(f);
    assert FieldNamed(FieldName(f)) == Some(f);
    RoundTrip.WholeBack(back);
    assert forall name :: name in scope.inputs ==> RoundTrip.Spoken(scope, name);
  }

  /** Nothing is read from more than 500 bars back, nor a trend counted over more. */
  lemma RefsReach(scope: Scope, name: string, back: int, bars: real)
    ensures OperandIn(scope, Obj(map["ref" := Arr([Str(name), Num(back as real)])])).Some? ==> 0 <= back <= 500
    ensures CountsBars(Literal(bars)) <==> 1.0 <= bars <= 500.0 && bars.Floor as real == bars
  {
    RoundTrip.WholeBack(back);
  }

  /** And their spelling. */
  lemma PriceNames()
    ensures FieldNamed("close") == Some(Close) && FieldNamed("open") == Some(Open)
    ensures FieldNamed("high") == Some(High) && FieldNamed("low") == Some(Low)
    ensures FieldNamed("volume") == Some(Volume)
    ensures FieldNamed("hl2") == Some(HL2) && FieldNamed("hlc3") == Some(HLC3) && FieldNamed("ohlc4") == Some(OHLC4)
  {
  }

  // ---------- sides ----------

  /** What stands under "long" is the long leg and what stands under "short" the short one,
      each by itself, of the entry and of the exit. */
  lemma SideWordsMean(scope: Scope, long: Json, short: Json, brackets: bool, spec: Spec)
    requires var r := SideIn(scope, Obj(map["long" := long, "short" := short]), brackets, 0);
      r.Some? && (if brackets then spec.exit == Some(SideOf(r.value)) else spec.entry == SideOf(r.value))
    ensures var first := NodeIn(scope, long, 1, brackets, Counts(0, 0, 0));
      && first.Some? && first.value.0 == (if brackets then ExitLeg(spec, false) else EntryLeg(spec, false)).value
      && var second := NodeIn(scope, short, 1, brackets, Counts(first.value.1.nodes, 0, 0));
        second.Some? && second.value.0 == (if brackets then ExitLeg(spec, true) else EntryLeg(spec, true)).value
  {
  }

  // ---------- brackets, sizing and costs ----------

  ghost function Percent(x: real): Json {
    Obj(map["type" := Str("pct"), "value" := Num(x)])
  }

  lemma PercentRead(x: real)
    requires 0.0 < x < 1.0
    ensures LevelIn(Percent(x)) == Some(Pct(x))
  {
    RoundTrip.LevelsClean();
  }

  lemma BracketRead(scope: Scope, key: Keyword, v: Json, level: Level)
    requires LevelIn(v) == Some(level) && (key == StopKey || key == TargetKey)
    ensures NodeIn(scope, Obj(map[KeywordName(key) := v]), 1, true, Counts(0, 0, 0))
         == Some(if key == StopKey then (StopLoss(level), Counts(1, 1, 0)) else (TakeProfit(level), Counts(1, 0, 1)))
  {
    RoundTrip.KeyedRead(scope, key, v, 1, true, Counts(0, 0, 0));
    assert Keyed(key, v) == Obj(map[KeywordName(key) := v]);
  }

  /** A percentage stop or target, where one may stand. */
  lemma PercentBracketsMean(scope: Scope, x: real)
    requires 0.0 < x < 1.0
    ensures NodeIn(scope, Obj(map["stop_loss" := Percent(x)]), 1, true, Counts(0, 0, 0)) == Some((StopLoss(Pct(x)), Counts(1, 1, 0)))
    ensures NodeIn(scope, Obj(map["take_profit" := Percent(x)]), 1, true, Counts(0, 0, 0)) == Some((TakeProfit(Pct(x)), Counts(1, 0, 1)))
  {
    PercentRead(x);
    BracketRead(scope, StopKey, Percent(x), Pct(x));
    BracketRead(scope, TargetKey, Percent(x), Pct(x));
  }

  /** A bracket in average ranges: how many bars they are taken over, and how many of them. */
  lemma RangeBracketMeans(period: int, mult: real)
    requires 1 <= period <= 2000 && 0.0 < mult <= 100.0
    ensures LevelIn(Obj(map["type" := Str("atr"), "period" := Num(period as real), "mult" := Num(mult)])) == Some(Atr(period, mult))
  {
    RoundTrip.LevelsClean();
    RoundTrip.WholeBack(period);
  }

  /** The three costs, each by its name. */
  lemma CostWordsMean(brokerage: int, fee: real, slippage: real)
    ensures var costs := Costs(brokerage, fee, slippage);
      CostsIn(Obj(map["brokerage_cents" := Num(brokerage as real), "fee_bps" := Num(fee), "slippage_bps" := Num(slippage)]))
      == if CostsOk(costs) then Some(costs) else None
  {
    RoundTrip.WholeBack(brokerage);
  }

  function SizingAs(word: string, x: real): Option<Sizing> {
    SizingIn(Obj(map["type" := Str(word), "value" := Num(x)]))
  }

  predicate ReadsAs(word: string, kind: SizingKind, x: real) {
    SizingAs(word, x) == if SizingOk(Sizing(kind, x)) then Some(Sizing(kind, x)) else None
  }

  lemma KindRead(kind: SizingKind, x: real)
    ensures ReadsAs(SizingName(kind), kind, x)
  {
    RoundTrip.SizingClean(kind);
    assert SizingKindNamed(SizingName(kind)) == Some(kind);
  }

  lemma SizingWordsMean(x: real)
    ensures ReadsAs("fixed_qty", FixedQty, x) && ReadsAs("pct_equity", PctEquity, x)
    ensures ReadsAs("fixed_cash", FixedCash, x) && ReadsAs("risk_pct", RiskPct, x)
  {
    KindRead(FixedQty, x);
    KindRead(PctEquity, x);
    KindRead(FixedCash, x);
    KindRead(RiskPct, x);
  }

  /** What is allowed of each sizing: whole shares, whole cents, or a part of the purse. */
  lemma SizingsAllowed(x: real)
    ensures SizingOk(Sizing(FixedQty, x)) <==> x.Floor as real == x && 1.0 <= x <= 1000000000.0
    ensures SizingOk(Sizing(FixedCash, x)) <==> x.Floor as real == x && 1.0 <= x <= 1000000000000000.0
    ensures SizingOk(Sizing(PctEquity, x)) <==> 0.0 < x <= 1.0
    ensures SizingOk(Sizing(RiskPct, x)) <==> 0.0 < x <= 1.0
  {
  }

  /** And of costs: none below nothing, fees and slippage up to a tenth, brokerage up to
      10,000.00. */
  lemma CostsAllowed(costs: Costs)
    ensures CostsOk(costs) <==>
      && !(costs.brokerageCents < 0 || costs.feeBps < 0.0 || costs.slippageBps < 0.0)
      && !(costs.brokerageCents > 1_000_000 || costs.feeBps > 1000.0 || costs.slippageBps > 1000.0)
  {
  }

  /** No costs given: no brokerage, 3.25 basis points of fees and 5 of slippage. */
  lemma NoCostsGiven()
    ensures CostsIn(Null) == CostsIn(Obj(map[])) == Some(Costs(0, 3.25, 5.0))
  {
  }

  // ---------- limits ----------

  lemma {:induction false} DepthsAreSmall(scope: Scope, node: Node, depth: nat, brackets: bool)
    requires NodeOk(scope, node, depth, brackets)
    ensures depth + Height(node) <= 8
    decreases node
  {
    match node
    case All(nodes) => TallestIsSmall(scope, nodes, depth + 1, false);
    case Any(nodes) => TallestIsSmall(scope, nodes, depth + 1, brackets);
    case Not(inner) => DepthsAreSmall(scope, inner, depth + 1, false);
    case _ =>
  }

  lemma {:induction false} TallestIsSmall(scope: Scope, nodes: seq<Node>, depth: nat, brackets: bool)
    requires nodes != [] && forall i :: 0 <= i < |nodes| ==> NodeOk(scope, nodes[i], depth, brackets)
    ensures depth + Tallest(nodes) <= 8
    decreases nodes
  {
    DepthsAreSmall(scope, nodes[0], depth, brackets);
    if |nodes| > 1 {
      TallestIsSmall(scope, nodes[1..], depth, brackets);
    }
  }

  /** How many rules stand above the deepest one. */
  function Height(node: Node): nat
    decreases node
  {
    match node
    case All(nodes) => 1 + Tallest(nodes)
    case Any(nodes) => 1 + Tallest(nodes)
    case Not(inner) => 1 + Height(inner)
    case _ => 0
  }

  function Tallest(nodes: seq<Node>): nat
    decreases nodes
  {
    if nodes == [] then 0 else Max(Height(nodes[0]), Tallest(nodes[1..]))
  }

  predicate Shallow(leg: Option<Node>) {
    leg.Some? ==> Height(leg.value) < 8
  }

  lemma LegIsShallow(scope: Scope, leg: Option<Node>, brackets: bool)
    requires LegOk(scope, leg, brackets)
    ensures Shallow(leg)
  {
    if leg.Some? {
      DepthsAreSmall(scope, leg.value, 1, brackets);
    }
  }

  /** A strategy is of version 1, has one to twelve inputs with names of up to 24 letters,
      digits and underscores, at most 200 rules, none under more than seven others, and at
      most 1000 basis points of fees and of slippage and 10,000.00 of brokerage. */
  lemma LimitsAre(registry: Registry, spec: Spec)
    requires WellFormed(registry, spec)
    ensures spec.version == 1 && 1 <= |spec.inputs| <= 12 && NodeTotal(spec) <= 200
    ensures forall name :: name in spec.inputs ==> 1 <= |name| <= 24 && FieldNamed(name).None?
    ensures Shallow(spec.entry.long) && Shallow(spec.entry.short)
    ensures Shallow(ExitLeg(spec, false)) && Shallow(ExitLeg(spec, true))
    ensures 0 <= spec.costs.brokerageCents <= 1_000_000
    ensures 0.0 <= spec.costs.feeBps <= 1000.0 && 0.0 <= spec.costs.slippageBps <= 1000.0
  {
    var scope := Scope(registry, spec.inputs);
    forall name | name in spec.inputs ensures 1 <= |name| <= 24 && FieldNamed(name).None? {
      assert InputOk(scope, name);
    }
    LegIsShallow(scope, spec.entry.long, false);
    LegIsShallow(scope, spec.entry.short, false);
    if spec.exit.Some? {
      LegIsShallow(scope, spec.exit.value.long, true);
      LegIsShallow(scope, spec.exit.value.short, true);
    }
  }

  // ---------- the document ----------

  /** What an input says of itself. */
  lemma InputWordsMean(indicator: string, source: string, output: string, name: string, x: real)
    ensures RawIn(Obj(map["indicator" := Str(indicator), "source" := Str(source), "output" := Str(output),
                          "params" := Obj(map[name := Num(x)])]))
         == Some(RawInput(Clean(indicator), map[Clean(name) := x], Clean(source), Clean(output)))
  {
    var params: map<string, Json> := map[name := Num(x)];
    assert params.Keys == {name};
    OnlyName(name);
    assert Sorted(params.Keys) == [name];
    assert ParamsIn([], params) == Some(map[]);
    assert ParamsIn([name], params) == Some(map[Clean(name) := x]);
  }

  lemma OnlyName(name: string)
    ensures Sorted({name}) == [name]
  {
    LeqTotal(name, name);
    assert {name} - {name} == {};
    assert Sorted({}) == [];
  }

  /** A document's strategy is what stands under each of its six words; without an exit, or
      with null for one, there is none. */
  lemma DocumentMeans(registry: Registry, fields: map<string, Json>, spec: Spec)
    requires SpecIn(registry, Obj(fields)) == Some(spec)
    ensures InputsIn(registry, FieldAt(fields, "inputs")) == Some(spec.inputs)
    ensures var scope := Scope(registry, spec.inputs);
      && "entry" in fields && "sizing" in fields
      && var entry := SideIn(scope, fields["entry"], false, 0);
        && entry.Some? && spec.entry == SideOf(entry.value)
        && (spec.exit.None? <==> FieldAt(fields, "exit").Null?)
        && (spec.exit.Some? ==>
              var exit := SideIn(scope, fields["exit"], true, entry.value.short.nodes);
              exit.Some? && spec.exit.value == SideOf(exit.value))
    ensures SizingIn(fields["sizing"]) == Some(spec.sizing)
    ensures CostsIn(FieldAt(fields, "costs")) == Some(spec.costs)
  {
  }
}
