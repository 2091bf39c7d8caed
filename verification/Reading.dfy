/** Which JSON documents are strategies, and which strategy each one is.  Every function
    here answers None where the parser reports a fault. */
module Reading {
  import opened Outcomes
  import opened Numbers
  import opened Text
  import opened Bars
  import opened Indicators
  import opened Specs
  import opened Forms

  datatype Json =
    | Null
    | Bool(b: bool)
    | Num(x: real)
    | Str(s: string)
    | Arr(items: seq<Json>)
    | Obj(fields: map<string, Json>)

  const MAX_INT32 := 2147483647.0

  function NumberIn(v: Json): Option<real> {
    if v.Num? then Some(v.x) else None
  }

  function WholeIn(v: Json): Option<int> {
    if v.Num? && Whole(v.x) && Abs(v.x) <= MAX_INT32 then Some(Truncate(v.x)) else None
  }

  function WordIn(v: Json): Option<string> {
    if v.Str? then Some(Clean(v.s)) else None
  }

  predicate Only(fields: map<string, Json>, allowed: set<string>) {
    fields.Keys <= allowed
  }

  function NumberAt(fields: map<string, Json>, name: string): Option<real> {
    if name in fields then NumberIn(fields[name]) else None
  }

  function WordAt(fields: map<string, Json>, name: string): Option<string> {
    if name in fields then WordIn(fields[name]) else None
  }

  // ---------- leaves ----------

  function LevelIn(v: Json): Option<Level> {
    if !v.Obj? || !Only(v.fields, {"type", "value", "period", "mult"}) then None
    else
      match WordAt(v.fields, "type")
      case None => None
      case Some(kind) =>
        if kind == "pct" then PctIn(v.fields)
        else if kind == "atr" then AtrIn(v.fields)
        else None
  }

  function PctIn(fields: map<string, Json>): Option<Level> {
    match NumberAt(fields, "value")
    case None => None
    case Some(value) =>
      if value <= 0.0 || value >= 1.0 || "period" in fields || "mult" in fields then None
      else Some(Pct(value))
  }

  function AtrIn(fields: map<string, Json>): Option<Level> {
    var period := if "period" in fields then WholeIn(fields["period"]) else None;
    var mult := NumberAt(fields, "mult");
    if period.None? || period.value < 1 || period.value > MAX_PERIOD.Floor then None
    else if mult.None? || mult.value <= 0.0 || mult.value > 100.0 || "value" in fields then None
    else Some(Atr(period.value, mult.value))
  }

  function SizingKindNamed(name: string): Option<SizingKind> {
    if name == "fixed_qty" then Some(FixedQty)
    else if name == "pct_equity" then Some(PctEquity)
    else if name == "fixed_cash" then Some(FixedCash)
    else if name == "risk_pct" then Some(RiskPct)
    else None
  }

  function SizingIn(v: Json): Option<Sizing> {
    if !v.Obj? || !Only(v.fields, {"type", "value"}) then None
    else
      match (WordAt(v.fields, "type"), NumberAt(v.fields, "value"))
      case (Some(name), Some(value)) =>
        (match SizingKindNamed(name)
         case None => None
         case Some(kind) => if SizingOk(Sizing(kind, value)) then Some(Sizing(kind, value)) else None)
      case _ => None
  }

  const DEFAULT_COSTS := Costs(0, 3.25, 5.0)

  function CostsIn(v: Json): Option<Costs> {
    if v.Null? then Some(DEFAULT_COSTS)
    else if !v.Obj? || !Only(v.fields, {"brokerage_cents", "fee_bps", "slippage_bps"}) then None
    else
      var brokerage :=
        if "brokerage_cents" in v.fields then WholeIn(v.fields["brokerage_cents"]) else Some(DEFAULT_COSTS.brokerageCents);
      var fee := if "fee_bps" in v.fields then NumberIn(v.fields["fee_bps"]) else Some(DEFAULT_COSTS.feeBps);
      var slip := if "slippage_bps" in v.fields then NumberIn(v.fields["slippage_bps"]) else Some(DEFAULT_COSTS.slippageBps);
      if brokerage.None? || fee.None? || slip.None? then None
      else
        var costs := Costs(brokerage.value, fee.value, slip.value);
        if CostsOk(costs) then Some(costs) else None
  }

  // ---------- operands and comparisons ----------

  function NamedIn(scope: Scope, name: string, back: int): Option<Operand> {
    var word := Clean(name);
    if !Dotless(word) then LineIn(scope, Cut(word).0, Cut(word).1, back)
    else if word in scope.inputs then Some(FromInput(word, "", back))
    else if FieldNamed(word).Some? then Some(FromField(FieldNamed(word).value, back))
    else None
  }

  /** One line of an input.  An indicator with a single line has nothing to tell apart, so
      the dotted name collapses onto the plain one. */
  function LineIn(scope: Scope, held: string, line: string, back: int): Option<Operand> {
    if held !in scope.inputs || scope.inputs[held].indicator !in scope.registry then None
    else
      var outputs := scope.registry[scope.inputs[held].indicator].outputs;
      if line !in outputs then None
      else if |outputs| == 1 then Some(FromInput(held, "", back))
      else Some(FromInput(held, line, back))
  }

  function OperandIn(scope: Scope, v: Json): Option<Operand> {
    match v
    case Num(x) => Some(Literal(x))
    case Str(s) => NamedIn(scope, s, 0)
    case Obj(fields) =>
      if fields.Keys != {"ref"} || !fields["ref"].Arr? || |fields["ref"].items| != 2 then None
      else
        var items := fields["ref"].items;
        var back := WholeIn(items[1]);
        if !items[0].Str? || back.None? || !(0 <= back.value <= MAX_BACK) then None
        else NamedIn(scope, items[0].s, back.value)
    case _ => None
  }

  function OperandsIn(scope: Scope, items: seq<Json>): Option<seq<Operand>> {
    if items == [] then Some([])
    else
      match (OperandsIn(scope, items[..|items| - 1]), OperandIn(scope, items[|items| - 1]))
      case (Some(before), Some(last)) => Some(before + [last])
      case _ => None
  }

  function CompareIn(scope: Scope, op: Comparator, v: Json): Option<Node> {
    if !v.Arr? || !(Arity(op).0 <= |v.items| <= Arity(op).1) then None
    else
      match OperandsIn(scope, v.items)
      case None => None
      case Some(operands) => Checked(op, if Trending(op) && |operands| == 1 then operands + [Literal(1.0)] else operands)
  }

  /** The checks that look across a comparison's operands. */
  function Checked(op: Comparator, operands: seq<Operand>): Option<Node> {
    if op == Between && |operands| > 2 && operands[1].Literal? && operands[2].Literal?
       && operands[1].value > operands[2].value then None
    else if Trending(op) && (|operands| < 2 || !CountsBars(operands[1])) then None
    else Some(Compare(op, operands))
  }

  // ---------- rules ----------

  /** What the parser counts as it goes: nodes over the whole document, brackets per leg. */
  datatype Counts = Counts(nodes: nat, stops: nat, targets: nat)

  /** The words a rule object may carry. */
  datatype Keyword = AllKey | AnyKey | NotKey | StopKey | TargetKey | OpKey(op: Comparator) | NoKey

  function KeywordName(key: Keyword): string
    requires key != NoKey
  {
    match key
    case AllKey => "all"
    case AnyKey => "any"
    case NotKey => "not"
    case StopKey => "stop_loss"
    case TargetKey => "take_profit"
    case OpKey(GT) => "gt"
    case OpKey(LT) => "lt"
    case OpKey(GTE) => "gte"
    case OpKey(LTE) => "lte"
    case OpKey(EQ) => "eq"
    case OpKey(CrossesAbove) => "crosses_above"
    case OpKey(CrossesBelow) => "crosses_below"
    case OpKey(Rising) => "rising"
    case OpKey(Falling) => "falling"
    case OpKey(Between) => "between"
  }

  /** The keyword a name spells, if it spells one. */
  ghost function KeywordOf(name: string): Keyword {
    if key: Keyword :| key != NoKey && KeywordName(key) == name then key else NoKey
  }

  ghost function TheKey(fields: map<string, Json>): string
    requires |fields.Keys| == 1
  {
    var key :| key in fields.Keys;
    key
  }

  /** A resting order: only where brackets may stand, and one of each kind per leg. */
  function BracketIn(stop: bool, v: Json, brackets: bool, c: Counts): Option<(Node, Counts)> {
    match LevelIn(v)
    case None => None
    case Some(level) =>
      if !brackets then None
      else if stop then
        if c.stops > 0 then None else Some((StopLoss(level), c.(stops := c.stops + 1)))
      else
        if c.targets > 0 then None else Some((TakeProfit(level), c.(targets := c.targets + 1)))
  }

  ghost function NodeIn(scope: Scope, v: Json, depth: nat, brackets: bool, c: Counts): Option<(Node, Counts)>
    decreases Max(MAX_DEPTH + 1 - depth, 0), 1
  {
    if depth > MAX_DEPTH || c.nodes + 1 > MAX_NODES || !v.Obj? || |v.fields.Keys| != 1 then None
    else
      var key := TheKey(v.fields);
      KeyedIn(scope, KeywordOf(key), v.fields[key], depth, brackets, c.(nodes := c.nodes + 1))
  }

  ghost function KeyedIn(scope: Scope, key: Keyword, v: Json, depth: nat, brackets: bool, c: Counts): Option<(Node, Counts)>
    requires depth <= MAX_DEPTH
    decreases Max(MAX_DEPTH + 1 - depth, 0), 0
  {
    match key
    case AllKey =>
      (match NodesIn(scope, v, depth, false, c) case None => None case Some(r) => Some((All(r.0), r.1)))
    case AnyKey =>
      (match NodesIn(scope, v, depth, brackets, c) case None => None case Some(r) => Some((Any(r.0), r.1)))
    case NotKey =>
      (match NodeIn(scope, v, depth + 1, false, c) case None => None case Some(r) => Some((Not(r.0), r.1)))
    case StopKey => BracketIn(true, v, brackets, c)
    case TargetKey => BracketIn(false, v, brackets, c)
    case OpKey(op) =>
      (match CompareIn(scope, op, v) case None => None case Some(node) => Some((node, c)))
    case NoKey => None
  }

  ghost function NodesIn(scope: Scope, v: Json, depth: nat, brackets: bool, c: Counts): Option<(seq<Node>, Counts)>
    requires depth <= MAX_DEPTH
    decreases Max(MAX_DEPTH + 1 - depth, 0) - 1, if v.Arr? then |v.items| + 2 else 1
  {
    if !v.Arr? || v.items == [] then None else ItemsIn(scope, v.items, depth, brackets, c)
  }

  ghost function ItemsIn(scope: Scope, items: seq<Json>, depth: nat, brackets: bool, c: Counts): Option<(seq<Node>, Counts)>
    requires depth <= MAX_DEPTH
    decreases Max(MAX_DEPTH + 1 - depth, 0) - 1, |items| + 1
  {
    if items == [] then Some(([], c))
    else
      match ItemsIn(scope, items[..|items| - 1], depth, brackets, c)
      case None => None
      case Some(before) =>
        match NodeIn(scope, items[|items| - 1], depth + 1, brackets, before.1)
        case None => None
        case Some(last) => Some((before.0 + [last.0], last.1))
  }

  /** Where brackets may not stand none is counted. */
  lemma {:induction false} NoneCounted(scope: Scope, v: Json, depth: nat, c: Counts)
    ensures var r := NodeIn(scope, v, depth, false, c);
      r.Some? ==> r.value.1.stops == c.stops && r.value.1.targets == c.targets
    decreases Max(MAX_DEPTH + 1 - depth, 0), 1
  {
    if depth <= MAX_DEPTH && c.nodes + 1 <= MAX_NODES && v.Obj? && |v.fields.Keys| == 1 {
      var counted, value := c.(nodes := c.nodes + 1), v.fields[TheKey(v.fields)];
      match KeywordOf(TheKey(v.fields))
      case AllKey => NoneCountedIn(scope, value, depth, counted);
      case AnyKey => NoneCountedIn(scope, value, depth, counted);
      case NotKey => NoneCounted(scope, value, depth + 1, counted);
      case _ =>
    }
  }

  lemma {:induction false} NoneCountedIn(scope: Scope, v: Json, depth: nat, c: Counts)
    requires depth <= MAX_DEPTH
    ensures var r := NodesIn(scope, v, depth, false, c);
      r.Some? ==> r.value.1.stops == c.stops && r.value.1.targets == c.targets
    decreases Max(MAX_DEPTH + 1 - depth, 0) - 1, if v.Arr? then |v.items| + 3 else 2
  {
    if v.Arr? {
      NoneCountedOver(scope, v.items, depth, c);
    }
  }

  lemma {:induction false} NoneCountedOver(scope: Scope, items: seq<Json>, depth: nat, c: Counts)
    requires depth <= MAX_DEPTH
    ensures var r := ItemsIn(scope, items, depth, false, c);
      r.Some? ==> r.value.1.stops == c.stops && r.value.1.targets == c.targets
    decreases Max(MAX_DEPTH + 1 - depth, 0) - 1, |items| + 2
  {
    if items != [] {
      NoneCountedOver(scope, items[..|items| - 1], depth, c);
      var before := ItemsIn(scope, items[..|items| - 1], depth, false, c);
      if before.Some? {
        NoneCounted(scope, items[|items| - 1], depth + 1, before.value.1);
      }
    }
  }

  /** One leg of a side, if it is there: its rule, the nodes counted so far over the whole
      document, and whether it carries a stop.  A leg counts its own brackets from zero. */
  datatype LegRead = LegRead(leg: Option<Node>, nodes: nat, stop: bool)

  ghost function LegIn(scope: Scope, fields: map<string, Json>, name: string, brackets: bool, nodes: nat): Option<LegRead> {
    if name !in fields then Some(LegRead(None, nodes, false))
    else
      match NodeIn(scope, fields[name], 1, brackets, Counts(nodes, 0, 0))
      case None => None
      case Some(r) => Some(LegRead(Some(r.0), r.1.nodes, r.1.stops > 0))
  }

  datatype SideRead = SideRead(long: LegRead, short: LegRead)

  function SideOf(r: SideRead): Side {
    Side(r.long.leg, r.short.leg)
  }

  ghost function SideIn(scope: Scope, v: Json, brackets: bool, nodes: nat): Option<SideRead> {
    if !v.Obj? || !Only(v.fields, {"long", "short"}) || v.fields.Keys == {} then None
    else
      match LegIn(scope, v.fields, "long", brackets, nodes)
      case None => None
      case Some(long) =>
        match LegIn(scope, v.fields, "short", brackets, long.nodes)
        case None => None
        case Some(short) => Some(SideRead(long, short))
  }

  // ---------- inputs ----------

  datatype RawInput = RawInput(indicator: string, params: Params, source: string, output: string)

  /** Parameters by cleaned name; of two that clean alike the later in order stands. */
  function ParamsIn(keys: seq<string>, fields: map<string, Json>): Option<Params>
    requires forall i :: 0 <= i < |keys| ==> keys[i] in fields
  {
    if keys == [] then Some(map[])
    else
      var last := keys[|keys| - 1];
      match (ParamsIn(keys[..|keys| - 1], fields), NumberIn(fields[last]))
      case (Some(before), Some(value)) => Some(before[Clean(last) := value])
      case _ => None
  }

  function WordOr(fields: map<string, Json>, name: string): Option<string> {
    if name !in fields || fields[name].Null? then Some("") else WordIn(fields[name])
  }

  function RawIn(v: Json): Option<RawInput> {
    if !v.Obj? || !Only(v.fields, {"indicator", "params", "source", "output"}) then None
    else
      var params :=
        if "params" !in v.fields || v.fields["params"].Null? then Some(map[])
        else if v.fields["params"].Obj? then ParamsIn(Sorted(v.fields["params"].fields.Keys), v.fields["params"].fields)
        else None;
      match (WordAt(v.fields, "indicator"), params, WordOr(v.fields, "source"), WordOr(v.fields, "output"))
      case (Some(indicator), Some(given), Some(source), Some(output)) => Some(RawInput(indicator, given, source, output))
      case _ => None
  }

  /** May an input of this name read this source, among inputs of these names? */
  predicate SourceOk(name: string, source: string, names: set<string>) {
    source == "" || (source != FieldName(Volume) && (FieldNamed(source).Some? || (source != name && source in names)))
  }

  predicate ParamsOk(kind: Kind, params: Params) {
    && params.Keys <= Declared(kind.params)
    && forall i :: 0 <= i < |kind.params| ==>
         (kind.params[i].name in params ==> InRange(kind.params[i], params[kind.params[i].name]))
  }

  /** parse.go's build: check the request against the registry and fill in the defaults. */
  function InputIn(registry: Registry, raw: RawInput): Option<Input> {
    if raw.indicator !in registry then None
    else
      var kind := registry[raw.indicator];
      if (raw.source != "" && !kind.sourced) || !ParamsOk(kind, raw.params) then None
      else
        var instance := New(registry, raw.indicator, raw.params, FieldNamed(raw.source));
        if instance.None? || kind.outputs == [] then None
        else
          var output := if raw.output == "" then kind.outputs[0] else raw.output;
          if output !in kind.outputs then None
          else
            var source := if !kind.sourced then "" else if raw.source == "" then FieldName(Close) else raw.source;
            Some(Input(raw.indicator, instance.value.key.params, source, output, kind.sourced, |kind.outputs| > 1))
  }

  predicate RawOk(fields: map<string, Json>, name: string)
    requires name in fields
  {
    && UsableName(name)
    && RawIn(fields[name]).Some?
    && SourceOk(name, RawIn(fields[name]).value.source, fields.Keys)
  }

  predicate RawsOk(fields: map<string, Json>) {
    0 < |fields| <= MAX_INPUTS && forall name :: name in fields ==> RawOk(fields, name)
  }

  function RawChains(fields: map<string, Json>): map<string, string>
    requires RawsOk(fields)
  {
    map name | name in fields && RawIn(fields[name]).value.source != ""
               && FieldNamed(RawIn(fields[name]).value.source).None?
      :: RawIn(fields[name]).value.source
  }

  /** Every request built, or nothing. */
  ghost function AllBuilt(built: map<string, Option<Input>>): Option<map<string, Input>> {
    if exists name :: name in built && built[name].None? then None
    else Some(map name | name in built :: built[name].value)
  }

  lemma AllBuiltIs(built: map<string, Option<Input>>, inputs: map<string, Input>)
    requires built.Keys == inputs.Keys && forall name :: name in built ==> built[name] == Some(inputs[name])
    ensures AllBuilt(built) == Some(inputs)
  {
    assert (map name | name in built :: built[name].value) == inputs;
  }

  function Builds(registry: Registry, fields: map<string, Json>): map<string, Option<Input>>
    requires RawsOk(fields)
  {
    map name | name in fields :: InputIn(registry, RawIn(fields[name]).value)
  }

  ghost function InputsIn(registry: Registry, v: Json): Option<map<string, Input>> {
    if !v.Obj? || !RawsOk(v.fields) || !Acyclic(RawChains(v.fields)) then None
    else AllBuilt(Builds(registry, v.fields))
  }

  // ---------- the document ----------

  function FieldAt(fields: map<string, Json>, name: string): Json {
    if name in fields then fields[name] else Null
  }

  ghost function SpecIn(registry: Registry, v: Json): Option<Spec> {
    if !v.Obj? || !Only(v.fields, {"version", "inputs", "entry", "exit", "sizing", "costs"})
       || ("version" in v.fields && WholeIn(v.fields["version"]) != Some(VERSION))
       || "entry" !in v.fields || "sizing" !in v.fields
    then None
    else
      match InputsIn(registry, FieldAt(v.fields, "inputs"))
      case None => None
      case Some(inputs) =>
        match SideIn(Scope(registry, inputs), v.fields["entry"], false, 0)
        case None => None
        case Some(entry) => RestIn(registry, inputs, entry, v.fields)
  }

  ghost function RestIn(registry: Registry, inputs: map<string, Input>, entry: SideRead, fields: map<string, Json>): Option<Spec>
    requires "sizing" in fields
  {
    var raw := FieldAt(fields, "exit");
    if raw.Null? then ClosedIn(inputs, entry, None, fields)
    else
      match SideIn(Scope(registry, inputs), raw, true, entry.short.nodes)
      case None => None
      case Some(exit) => ClosedIn(inputs, entry, Some(exit), fields)
  }

  /** No side may have an exit without an entry, and under sizing by risk no side may have
      an entry without a stop. */
  predicate SidesAgree(entry: SideRead, exit: Option<SideRead>, kind: SizingKind) {
    && (exit.Some? && exit.value.long.leg.Some? ==> entry.long.leg.Some?)
    && (exit.Some? && exit.value.short.leg.Some? ==> entry.short.leg.Some?)
    && (kind == RiskPct && entry.long.leg.Some? ==> exit.Some? && exit.value.long.stop)
    && (kind == RiskPct && entry.short.leg.Some? ==> exit.Some? && exit.value.short.stop)
  }

  function ClosedIn(inputs: map<string, Input>, entry: SideRead, exit: Option<SideRead>, fields: map<string, Json>): Option<Spec>
    requires "sizing" in fields
  {
    match (SizingIn(fields["sizing"]), CostsIn(FieldAt(fields, "costs")))
    case (Some(sizing), Some(costs)) =>
      if !SidesAgree(entry, exit, sizing.kind) then None
      else
        var rest := if exit.Some? then Some(SideOf(exit.value)) else None;
        Some(Spec(VERSION, inputs, SideOf(entry), rest, sizing, costs))
    case _ => None
  }
}
