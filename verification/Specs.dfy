/** The strategy specification: what the parser returns, the printer prints and the
    compiler compiles. */
module Specs {
  import opened Outcomes
  import opened Bars
  import opened Indicators

  const VERSION := 1
  const MAX_INPUTS := 12
  const MAX_NODES := 200
  const MAX_DEPTH := 8
  const MAX_NAME := 24
  const MAX_BACK := 500
  const MAX_BPS := 1000.0
  const MAX_BROKERAGE := 1_000_000

  datatype Comparator =
    | GT | LT | GTE | LTE | EQ
    | CrossesAbove | CrossesBelow
    | Rising | Falling
    | Between

  /** An operand reads an input's line, a price field, or is a number; the first two may
      look some bars back.  An empty output is the input's own declared line. */
  datatype Operand =
    | FromInput(input: string, output: string, back: int)
    | FromField(field: Field, back: int)
    | Literal(value: real)

  datatype Level = Pct(value: real) | Atr(period: int, mult: real)

  datatype Node =
    | All(nodes: seq<Node>)
    | Any(nodes: seq<Node>)
    | Not(node: Node)
    | Compare(op: Comparator, operands: seq<Operand>)
    | StopLoss(level: Level)
    | TakeProfit(level: Level)

  datatype Side = Side(long: Option<Node>, short: Option<Node>)

  datatype Input = Input(
    indicator: string,
    params: Params,
    source: string,
    output: string,
    sourced: bool,
    multi: bool)

  datatype SizingKind = FixedQty | PctEquity | FixedCash | RiskPct

  datatype Sizing = Sizing(kind: SizingKind, value: real)

  datatype Costs = Costs(brokerageCents: int, feeBps: real, slippageBps: real)

  datatype Spec = Spec(
    version: int,
    inputs: map<string, Input>,
    entry: Side,
    exit: Option<Side>,
    sizing: Sizing,
    costs: Costs)

  function FieldName(f: Field): string {
    match f
    case Close => "close"
    case Open => "open"
    case High => "high"
    case Low => "low"
    case HL2 => "hl2"
    case HLC3 => "hlc3"
    case OHLC4 => "ohlc4"
    case Volume => "volume"
  }

  function FieldNamed(name: string): Option<Field> {
    if name == "close" then Some(Close)
    else if name == "open" then Some(Open)
    else if name == "high" then Some(High)
    else if name == "low" then Some(Low)
    else if name == "hl2" then Some(HL2)
    else if name == "hlc3" then Some(HLC3)
    else if name == "ohlc4" then Some(OHLC4)
    else if name == "volume" then Some(Volume)
    else None
  }

  /** An input is chained when its source names another input rather than a price. */
  predicate Chained(x: Input) {
    x.sourced && FieldNamed(x.source).None?
  }

  function Chains(inputs: map<string, Input>): map<string, string> {
    map name | name in inputs && Chained(inputs[name]) :: inputs[name].source
  }

  /** The number of operands a comparator takes. */
  function Arity(op: Comparator): (int, int) {
    match op
    case Rising => (1, 2)
    case Falling => (1, 2)
    case Between => (3, 3)
    case _ => (2, 2)
  }

  predicate Trending(op: Comparator) {
    op == Rising || op == Falling
  }

  predicate Crossing(op: Comparator) {
    op == CrossesAbove || op == CrossesBelow
  }
}
