/** When a specification is well formed: the conditions the parser enforces, stated once
    on the specification itself. */
module Forms {
  import opened Outcomes
  import opened Numbers
  import opened Bars
  import opened Indicators
  import opened Specs

  /** What an operand's name is looked up in. */
  datatype Scope = Scope(registry: Registry, inputs: map<string, Input>)

  predicate Identifier(name: string) {
    && name != ""
    && 'a' <= name[0] <= 'z'
    && forall i :: 0 <= i < |name| ==> IdentifierChar(name[i])
  }

  predicate IdentifierChar(c: char) {
    'a' <= c <= 'z' || '0' <= c <= '9' || c == '_'
  }

  predicate UsableName(name: string) {
    |name| <= MAX_NAME && Identifier(name) && FieldNamed(name).None?
  }

  /** The price an unchained input reads: its own source, or none to declare. */
  function SourceOf(x: Input): Option<Field> {
    if x.sourced then FieldNamed(x.source) else None
  }

  ghost predicate InputOk(scope: Scope, name: string)
    requires name in scope.inputs
  {
    var x := scope.inputs[name];
    && UsableName(name)
    && x.indicator in scope.registry
    && var kind := scope.registry[x.indicator];
    && x.sourced == kind.sourced
    && x.multi == (|kind.outputs| > 1)
    && x.output in kind.outputs
    && (x.sourced ==> x.source != FieldName(Volume) && (FieldNamed(x.source).None? ==> x.source in scope.inputs && x.source != name))
    && (!x.sourced ==> x.source == "")
    && Resolve(kind, x.params, SourceOf(x)) == Some(x.params)
  }

  /** The inputs feed one another without a loop: each sits above what it reads. */
  ghost predicate Ranked(chains: map<string, string>, rank: map<string, nat>) {
    forall name :: name in chains ==> name in rank && chains[name] in rank && rank[chains[name]] < rank[name]
  }

  ghost predicate Acyclic(chains: map<string, string>) {
    exists rank :: Ranked(chains, rank)
  }

  ghost predicate OperandOk(scope: Scope, o: Operand) {
    match o
    case Literal(_) => true
    case FromField(_, back) => 0 <= back <= MAX_BACK
    case FromInput(name, output, back) =>
      && 0 <= back <= MAX_BACK
      && name in scope.inputs
      && scope.inputs[name].indicator in scope.registry
      && var kind := scope.registry[scope.inputs[name].indicator];
      && (output != "" ==> |kind.outputs| > 1 && output in kind.outputs)
  }

  ghost predicate CompareOk(scope: Scope, op: Comparator, operands: seq<Operand>) {
    && |operands| == Arity(op).1
    && (forall i :: 0 <= i < |operands| ==> OperandOk(scope, operands[i]))
    && (Trending(op) ==> CountsBars(operands[1]))
    && (op == Between && operands[1].Literal? && operands[2].Literal? ==> operands[1].value <= operands[2].value)
  }

  predicate CountsBars(o: Operand) {
    o.Literal? && 1.0 <= o.value <= MAX_BACK as real && Whole(o.value)
  }

  predicate LevelOk(level: Level) {
    match level
    case Pct(value) => 0.0 < value < 1.0
    case Atr(period, mult) => 1 <= period <= MAX_PERIOD.Floor && 0.0 < mult <= 100.0
  }

  /** `brackets` says whether a stop or target may stand here: at the top of an exit, or
      under nothing but "any" from there. */
  ghost predicate NodeOk(scope: Scope, node: Node, depth: nat, brackets: bool)
    decreases node
  {
    && depth <= MAX_DEPTH
    && match node
       case All(nodes) => nodes != [] && forall i :: 0 <= i < |nodes| ==> NodeOk(scope, nodes[i], depth + 1, false)
       case Any(nodes) => nodes != [] && forall i :: 0 <= i < |nodes| ==> NodeOk(scope, nodes[i], depth + 1, brackets)
       case Not(inner) => NodeOk(scope, inner, depth + 1, false)
       case Compare(op, operands) => CompareOk(scope, op, operands)
       case StopLoss(level) => brackets && LevelOk(level)
       case TakeProfit(level) => brackets && LevelOk(level)
  }

  function Nodes(node: Node): nat
    decreases node
  {
    1 + match node
        case All(nodes) => NodesOf(nodes)
        case Any(nodes) => NodesOf(nodes)
        case Not(inner) => Nodes(inner)
        case _ => 0
  }

  function NodesOf(nodes: seq<Node>): nat
    decreases nodes
  {
    if nodes == [] then 0 else Nodes(nodes[0]) + NodesOf(nodes[1..])
  }

  /** The stop levels a rule carries where brackets are allowed, in reading order. */
  function Stops(node: Node): seq<Level>
    decreases node
  {
    match node
    case StopLoss(level) => [level]
    case Any(nodes) => StopsOf(nodes)
    case _ => []
  }

  function StopsOf(nodes: seq<Node>): seq<Level>
    decreases nodes
  {
    if nodes == [] then [] else Stops(nodes[0]) + StopsOf(nodes[1..])
  }

  function Targets(node: Node): seq<Level>
    decreases node
  {
    match node
    case TakeProfit(level) => [level]
    case Any(nodes) => TargetsOf(nodes)
    case _ => []
  }

  function TargetsOf(nodes: seq<Node>): seq<Level>
    decreases nodes
  {
    if nodes == [] then [] else Targets(nodes[0]) + TargetsOf(nodes[1..])
  }

  ghost predicate LegOk(scope: Scope, leg: Option<Node>, brackets: bool) {
    leg.Some? ==>
      && NodeOk(scope, leg.value, 1, brackets)
      && |Stops(leg.value)| <= 1
      && |Targets(leg.value)| <= 1
  }

  ghost predicate SideOk(scope: Scope, side: Side, brackets: bool) {
    && (side.long.Some? || side.short.Some?)
    && LegOk(scope, side.long, brackets)
    && LegOk(scope, side.short, brackets)
  }

  function LegNodes(leg: Option<Node>): nat {
    if leg.None? then 0 else Nodes(leg.value)
  }

  function ExitLeg(spec: Spec, short: bool): Option<Node> {
    if spec.exit.None? then None else if short then spec.exit.value.short else spec.exit.value.long
  }

  function EntryLeg(spec: Spec, short: bool): Option<Node> {
    if short then spec.entry.short else spec.entry.long
  }

  function NodeTotal(spec: Spec): nat {
    LegNodes(spec.entry.long) + LegNodes(spec.entry.short) +
    LegNodes(ExitLeg(spec, false)) + LegNodes(ExitLeg(spec, true))
  }

  predicate HasStop(leg: Option<Node>) {
    leg.Some? && Stops(leg.value) != []
  }

  predicate SizingOk(sizing: Sizing) {
    match sizing.kind
    case FixedQty => 1.0 <= sizing.value <= 1000000000.0 && Whole(sizing.value)
    case FixedCash => 1.0 <= sizing.value <= 1000000000000000.0 && Whole(sizing.value)
    case _ => 0.0 < sizing.value <= 1.0
  }

  predicate CostsOk(costs: Costs) {
    && 0 <= costs.brokerageCents <= MAX_BROKERAGE
    && 0.0 <= costs.feeBps <= MAX_BPS
    && 0.0 <= costs.slippageBps <= MAX_BPS
  }

  ghost predicate WellFormed(registry: Registry, spec: Spec) {
    var scope := Scope(registry, spec.inputs);
    && spec.version == VERSION
    && 0 < |spec.inputs| <= MAX_INPUTS
    && (forall name :: name in spec.inputs ==> InputOk(scope, name))
    && Acyclic(Chains(spec.inputs))
    && SideOk(scope, spec.entry, false)
    && (spec.exit.Some? ==> SideOk(scope, spec.exit.value, true))
    && (forall short :: ExitLeg(spec, short).Some? ==> EntryLeg(spec, short).Some?)
    && NodeTotal(spec) <= MAX_NODES
    && SizingOk(spec.sizing)
    && (spec.sizing.kind == RiskPct ==>
          forall short :: EntryLeg(spec, short).Some? ==> HasStop(ExitLeg(spec, short)))
    && CostsOk(spec.costs)
  }
}
