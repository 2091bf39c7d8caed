/** Specifications printed back to JSON: the canonical spelling that is stored. */
module Printing {
  import opened Indicators
  import opened Specs
  import opened Reading

  function PrintLevel(level: Level): Json {
    match level
    case Atr(period, mult) => Obj(map["type" := Str("atr"), "period" := Num(period as real), "mult" := Num(mult)])
    case Pct(value) => Obj(map["type" := Str("pct"), "value" := Num(value)])
  }

  /** An operand in writing: an input, or one of its other lines after a dot. */
  function Ref(input: string, output: string): string {
    if output == "" then input else input + "." + output
  }

  function PrintBack(head: string, back: int): Json {
    if back == 0 then Str(head) else Obj(map["ref" := Arr([Str(head), Num(back as real)])])
  }

  function PrintOperand(o: Operand): Json {
    match o
    case FromInput(input, output, back) => PrintBack(Ref(input, output), back)
    case FromField(field, back) => PrintBack(FieldName(field), back)
    case Literal(value) => Num(value)
  }

  function PrintOperands(operands: seq<Operand>): seq<Json> {
    if operands == [] then []
    else PrintOperands(operands[..|operands| - 1]) + [PrintOperand(operands[|operands| - 1])]
  }

  /** A rule object: one keyword and what it applies to. */
  function Keyed(key: Keyword, value: Json): Json
    requires key != NoKey
  {
    Obj(map[KeywordName(key) := value])
  }

  function PrintNode(node: Node): Json
    decreases node
  {
    match node
    case All(nodes) => Keyed(AllKey, Arr(PrintNodes(nodes)))
    case Any(nodes) => Keyed(AnyKey, Arr(PrintNodes(nodes)))
    case Not(inner) => Keyed(NotKey, PrintNode(inner))
    case Compare(op, operands) => Keyed(OpKey(op), Arr(PrintOperands(operands)))
    case StopLoss(level) => Keyed(StopKey, PrintLevel(level))
    case TakeProfit(level) => Keyed(TargetKey, PrintLevel(level))
  }

  function PrintNodes(nodes: seq<Node>): seq<Json>
    decreases nodes
  {
    if nodes == [] then []
    else PrintNodes(nodes[..|nodes| - 1]) + [PrintNode(nodes[|nodes| - 1])]
  }

  function PrintSide(side: Side): Json {
    var long := if side.long.Some? then map["long" := PrintNode(side.long.value)] else map[];
    var short := if side.short.Some? then map["short" := PrintNode(side.short.value)] else map[];
    Obj(long + short)
  }

  function PrintParams(params: Params): map<string, Json> {
    map name | name in params :: Num(params[name])
  }

  /** The source only when the indicator takes one, the line only when there are several. */
  function PrintInput(x: Input): Json {
    var head := map["indicator" := Str(x.indicator), "params" := Obj(PrintParams(x.params))];
    var source := if x.sourced && x.source != "" then map["source" := Str(x.source)] else map[];
    var output := if x.multi && x.output != "" then map["output" := Str(x.output)] else map[];
    Obj(head + source + output)
  }

  function PrintInputs(inputs: map<string, Input>): map<string, Json> {
    map name | name in inputs :: PrintInput(inputs[name])
  }

  function SizingName(kind: SizingKind): string {
    match kind
    case FixedQty => "fixed_qty"
    case PctEquity => "pct_equity"
    case FixedCash => "fixed_cash"
    case RiskPct => "risk_pct"
  }

  function PrintSizing(sizing: Sizing): Json {
    Obj(map["type" := Str(SizingName(sizing.kind)), "value" := Num(sizing.value)])
  }

  function PrintCosts(costs: Costs): Json {
    Obj(map["brokerage_cents" := Num(costs.brokerageCents as real), "fee_bps" := Num(costs.feeBps),
            "slippage_bps" := Num(costs.slippageBps)])
  }

  function PrintSpec(spec: Spec): Json {
    var body := map[
      "version" := Num(spec.version as real),
      "inputs" := Obj(PrintInputs(spec.inputs)),
      "entry" := PrintSide(spec.entry),
      "sizing" := PrintSizing(spec.sizing),
      "costs" := PrintCosts(spec.costs)];
    Obj(if spec.exit.Some? then body["exit" := PrintSide(spec.exit.value)] else body)
  }
}
