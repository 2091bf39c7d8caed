/** Parsing and printing are inverse: the parser returns exactly the well-formed
    specifications, and reads each of them back from its printed form. */
module RoundTrip {
  import opened Outcomes
  import opened Numbers
  import opened Text
  import opened Bars
  import opened Indicators
  import opened Specs
  import opened Forms
  import opened Reading
  import opened Printing

  // ---------- leaves ----------

  lemma FieldClean(f: Field)
    ensures Clean(FieldName(f)) == FieldName(f) && Dotless(FieldName(f))
  {
    CleanPlain(FieldName(f));
  }

  lemma SizingClean(k: SizingKind)
    ensures Clean(SizingName(k)) == SizingName(k)
  {
    CleanPlain(SizingName(k));
  }

  lemma LevelsClean()
    ensures Clean("pct") == "pct" && Clean("atr") == "atr"
  {
    CleanPlain("pct");
    CleanPlain("atr");
  }

  lemma WholeBack(n: int)
    ensures Whole(n as real) && Truncate(n as real) == n
  {
  }

  lemma LevelRoundTrips(level: Level)
    requires LevelOk(level)
    ensures LevelIn(PrintLevel(level)) == Some(level)
  {
    LevelsClean();
    if level.Atr? {
      WholeBack(level.period);
    }
  }

  lemma LevelSound(v: Json)
    ensures LevelIn(v).Some? ==> LevelOk(LevelIn(v).value)
  {
  }

  lemma SizingRoundTrips(sizing: Sizing)
    requires SizingOk(sizing)
    ensures SizingIn(PrintSizing(sizing)) == Some(sizing)
  {
    SizingClean(sizing.kind);
    assert SizingKindNamed(SizingName(sizing.kind)) == Some(sizing.kind);
  }

  lemma CostsRoundTrip(costs: Costs)
    requires CostsOk(costs)
    ensures CostsIn(PrintCosts(costs)) == Some(costs)
  {
    WholeBack(costs.brokerageCents);
  }

  // ---------- operands ----------

  /** The names a scope declares are identifiers, and their lines plain words. */
  ghost predicate ScopeOk(scope: Scope) {
    forall name :: name in scope.inputs ==> Spoken(scope, name)
  }

  ghost predicate Spoken(scope: Scope, name: string)
    requires name in scope.inputs
  {
    && UsableName(name)
    && scope.inputs[name].indicator in scope.registry
    && forall line :: line in scope.registry[scope.inputs[name].indicator].outputs ==> Plain(line)
  }

  lemma IdentifierIsPlain(name: string)
    requires Identifier(name)
    ensures Plain(name) && Dotless(name) && Clean(name) == name
  {
    forall i | 0 <= i < |name|
      ensures !('A' <= name[i] <= 'Z') && !Blank(name[i]) && name[i] != '.'
    {
      assert IdentifierChar(name[i]);
    }
    CleanPlain(name);
  }

  lemma NamedRoundTrips(scope: Scope, o: Operand)
    requires ScopeOk(scope) && OperandOk(scope, o) && !o.Literal?
    ensures NamedIn(scope, if o.FromInput? then Ref(o.input, o.output) else FieldName(o.field), o.back) == Some(o)
  {
    match o
    case FromField(field, back) =>
      FieldClean(field);
      assert FieldNamed(FieldName(field)) == Some(field);
    case FromInput(name, output, back) =>
      assert Spoken(scope, name);
      IdentifierIsPlain(name);
      if output != "" {
        var word := name + "." + output;
        assert Plain(word) by {
          assert Plain(output);
        }
        CleanPlain(word);
        CutJoined(name, output);
      }
  }

  lemma OperandRoundTrips(scope: Scope, o: Operand)
    requires ScopeOk(scope) && OperandOk(scope, o)
    ensures OperandIn(scope, PrintOperand(o)) == Some(o)
  {
    if !o.Literal? {
      NamedRoundTrips(scope, o);
      WholeBack(o.back);
    }
  }

  lemma OperandSound(scope: Scope, v: Json)
    requires ScopeOk(scope)
    ensures OperandIn(scope, v).Some? ==> OperandOk(scope, OperandIn(scope, v).value)
  {
    forall name | name in scope.inputs ensures scope.inputs[name].indicator in scope.registry {
      assert Spoken(scope, name);
    }
  }

  lemma OneMoreOperand(scope: Scope, items: seq<Json>, v: Json, operands: seq<Operand>, o: Operand)
    requires OperandsIn(scope, items) == Some(operands) && OperandIn(scope, v) == Some(o)
    ensures OperandsIn(scope, items + [v]) == Some(operands + [o])
  {
    assert (items + [v])[..|items|] == items;
  }

  lemma {:induction false} OperandsRoundTrip(scope: Scope, operands: seq<Operand>)
    requires ScopeOk(scope) && forall i :: 0 <= i < |operands| ==> OperandOk(scope, operands[i])
    ensures OperandsIn(scope, PrintOperands(operands)) == Some(operands)
    ensures |PrintOperands(operands)| == |operands|
  {
    if operands != [] {
      var before, last := operands[..|operands| - 1], operands[|operands| - 1];
      OperandsRoundTrip(scope, before);
      OperandRoundTrips(scope, last);
      OneMoreOperand(scope, PrintOperands(before), PrintOperand(last), before, last);
      assert operands == before + [last];
    }
  }

  lemma {:induction false} OperandsSound(scope: Scope, items: seq<Json>)
    requires ScopeOk(scope)
    ensures OperandsIn(scope, items).Some? ==>
        |OperandsIn(scope, items).value| == |items|
    ensures OperandsIn(scope, items).Some? ==>
        forall i :: 0 <= i < |items| ==> OperandOk(scope, OperandsIn(scope, items).value[i])
  {
    if items != [] {
      OperandsSound(scope, items[..|items| - 1]);
      OperandSound(scope, items[|items| - 1]);
    }
  }

  lemma CompareRoundTrips(scope: Scope, op: Comparator, operands: seq<Operand>)
    requires ScopeOk(scope) && CompareOk(scope, op, operands)
    ensures CompareIn(scope, op, Arr(PrintOperands(operands))) == Some(Compare(op, operands))
  {
    OperandsRoundTrip(scope, operands);
    CompareFromOperands(scope, op, PrintOperands(operands), operands);
  }

  lemma CompareFromOperands(scope: Scope, op: Comparator, items: seq<Json>, operands: seq<Operand>)
    requires CompareOk(scope, op, operands)
    requires OperandsIn(scope, items) == Some(operands) && |items| == |operands|
    ensures CompareIn(scope, op, Arr(items)) == Some(Compare(op, operands))
  {
  }

  lemma CompareSound(scope: Scope, op: Comparator, v: Json)
    requires ScopeOk(scope)
    ensures CompareIn(scope, op, v).Some? ==>
        exists operands :: CompareIn(scope, op, v) == Some(Compare(op, operands)) && CompareOk(scope, op, operands)
  {
    if CompareIn(scope, op, v).Some? {
      OperandsSound(scope, v.items);
      var operands := OperandsIn(scope, v.items).value;
      var all := if Trending(op) && |operands| == 1 then operands + [Literal(1.0)] else operands;
      assert CompareIn(scope, op, v) == Checked(op, all);
      assert Whole(1.0);
      assert CompareOk(scope, op, all);
    }
  }

  // ---------- rules ----------

  function Tallied(c: Counts, node: Node): Counts {
    Counts(c.nodes + Nodes(node), c.stops + |Stops(node)|, c.targets + |Targets(node)|)
  }

  function TalliedAll(c: Counts, nodes: seq<Node>): Counts {
    Counts(c.nodes + NodesOf(nodes), c.stops + |StopsOf(nodes)|, c.targets + |TargetsOf(nodes)|)
  }

  predicate Within(c: Counts) {
    c.nodes <= MAX_NODES && c.stops <= 1 && c.targets <= 1
  }

  lemma {:induction false} TallyAppend(c: Counts, nodes: seq<Node>, last: Node)
    ensures TalliedAll(c, nodes + [last]) == Tallied(TalliedAll(c, nodes), last)
    decreases nodes
  {
    var all := nodes + [last];
    if nodes == [] {
      assert all[1..] == [];
    } else {
      assert all[1..] == nodes[1..] + [last] && all[0] == nodes[0];
      TallyAppend(Tallied(c, nodes[0]), nodes[1..], last);
    }
  }

  /** Where brackets may not stand there are none to count. */
  lemma {:induction false} NoBracketsCounted(scope: Scope, node: Node, depth: nat)
    requires NodeOk(scope, node, depth, false)
    ensures Stops(node) == [] && Targets(node) == []
    decreases node
  {
    if node.Any? {
      NoBracketsCountedIn(scope, node.nodes, depth + 1);
    }
  }

  lemma {:induction false} NoBracketsCountedIn(scope: Scope, nodes: seq<Node>, depth: nat)
    requires forall i :: 0 <= i < |nodes| ==> NodeOk(scope, nodes[i], depth, false)
    ensures StopsOf(nodes) == [] && TargetsOf(nodes) == []
    decreases nodes
  {
    if nodes != [] {
      NoBracketsCounted(scope, nodes[0], depth);
      NoBracketsCountedIn(scope, nodes[1..], depth);
    }
  }

  function RankOf(name: string): nat {
    if name == "all" then 0 else if name == "any" then 1 else if name == "not" then 2
    else if name == "stop_loss" then 3 else if name == "take_profit" then 4
    else if name == "gt" then 5 else if name == "lt" then 6 else if name == "gte" then 7
    else if name == "lte" then 8 else if name == "eq" then 9 else if name == "crosses_above" then 10
    else if name == "crosses_below" then 11 else if name == "rising" then 12
    else if name == "falling" then 13 else 14
  }

  function Rank(key: Keyword): nat
    requires key != NoKey
  {
    match key
    case AllKey => 0
    case AnyKey => 1
    case NotKey => 2
    case StopKey => 3
    case TargetKey => 4
    case OpKey(GT) => 5
    case OpKey(LT) => 6
    case OpKey(GTE) => 7
    case OpKey(LTE) => 8
    case OpKey(EQ) => 9
    case OpKey(CrossesAbove) => 10
    case OpKey(CrossesBelow) => 11
    case OpKey(Rising) => 12
    case OpKey(Falling) => 13
    case OpKey(Between) => 14
  }

  lemma NameRanks(key: Keyword)
    requires key != NoKey
    ensures RankOf(KeywordName(key)) == Rank(key)
  {
  }

  lemma RankTells(a: Keyword, b: Keyword)
    requires a != NoKey && b != NoKey && Rank(a) == Rank(b)
    ensures a == b
  {
  }

  lemma KeywordRoundTrips(key: Keyword)
    requires key != NoKey
    ensures KeywordOf(KeywordName(key)) == key
  {
    forall other | other != NoKey && KeywordName(other) == KeywordName(key)
      ensures other == key
    {
      NameRanks(key);
      NameRanks(other);
      RankTells(other, key);
    }
  }

  /** A printed rule object is read by its one keyword. */
  lemma KeyedRead(scope: Scope, key: Keyword, value: Json, depth: nat, brackets: bool, c: Counts)
    requires key != NoKey && depth <= MAX_DEPTH && c.nodes < MAX_NODES
    ensures NodeIn(scope, Keyed(key, value), depth, brackets, c) ==
        KeyedIn(scope, key, value, depth, brackets, c.(nodes := c.nodes + 1))
  {
    KeywordRoundTrips(key);
    var name := KeywordName(key);
    var fields := map[name := value];
    assert fields.Keys == {name};
    assert TheKey(fields) in fields.Keys;
  }

  /** Printing a rule and reading it back gives the rule, and counts what it holds. */
  lemma {:induction false} NodeRoundTrips(scope: Scope, node: Node, depth: nat, brackets: bool, c: Counts)
    requires ScopeOk(scope) && NodeOk(scope, node, depth, brackets) && Within(Tallied(c, node))
    ensures NodeIn(scope, PrintNode(node), depth, brackets, c) == Some((node, Tallied(c, node)))
    decreases node, 2
  {
    match node
    case All(nodes) =>
      KeyedRead(scope, AllKey, Arr(PrintNodes(nodes)), depth, brackets, c);
      AllRoundTrips(scope, nodes, depth, brackets, c);
    case Any(nodes) =>
      KeyedRead(scope, AnyKey, Arr(PrintNodes(nodes)), depth, brackets, c);
      AnyRoundTrips(scope, nodes, depth, brackets, c);
    case Not(inner) =>
      KeyedRead(scope, NotKey, PrintNode(inner), depth, brackets, c);
      NotRoundTrips(scope, inner, depth, brackets, c);
    case _ => LeafRoundTrips(scope, node, depth, brackets, c);
  }

  lemma LeafRoundTrips(scope: Scope, node: Node, depth: nat, brackets: bool, c: Counts)
    requires ScopeOk(scope) && NodeOk(scope, node, depth, brackets) && Within(Tallied(c, node))
    requires node.Compare? || node.StopLoss? || node.TakeProfit?
    ensures NodeIn(scope, PrintNode(node), depth, brackets, c) == Some((node, Tallied(c, node)))
  {
    match node
    case Compare(op, operands) => ComparisonRoundTrips(scope, op, operands, depth, brackets, c);
    case StopLoss(level) =>
      KeyedRead(scope, StopKey, PrintLevel(level), depth, brackets, c);
      BracketRoundTrips(scope, node, true, level, depth, c);
    case TakeProfit(level) =>
      KeyedRead(scope, TargetKey, PrintLevel(level), depth, brackets, c);
      BracketRoundTrips(scope, node, false, level, depth, c);
  }

  lemma ComparisonRoundTrips(scope: Scope, op: Comparator, operands: seq<Operand>, depth: nat, brackets: bool, c: Counts)
    requires ScopeOk(scope) && CompareOk(scope, op, operands) && depth <= MAX_DEPTH
    requires Within(Tallied(c, Compare(op, operands)))
    ensures NodeIn(scope, PrintNode(Compare(op, operands)), depth, brackets, c)
         == Some((Compare(op, operands), Tallied(c, Compare(op, operands))))
  {
    CompareRoundTrips(scope, op, operands);
    ComparisonFromOperands(scope, op, Arr(PrintOperands(operands)), Compare(op, operands), depth, brackets, c);
    assert PrintNode(Compare(op, operands)) == Keyed(OpKey(op), Arr(PrintOperands(operands)));
  }

  lemma ComparisonFromOperands(scope: Scope, op: Comparator, v: Json, node: Node, depth: nat, brackets: bool, c: Counts)
    requires node.Compare? && depth <= MAX_DEPTH && c.nodes < MAX_NODES && CompareIn(scope, op, v) == Some(node)
    ensures NodeIn(scope, Keyed(OpKey(op), v), depth, brackets, c) == Some((node, Tallied(c, node)))
  {
    KeyedRead(scope, OpKey(op), v, depth, brackets, c);
    assert KeyedIn(scope, OpKey(op), v, depth, brackets, c.(nodes := c.nodes + 1)) == Some((node, c.(nodes := c.nodes + 1)));
  }

  lemma BracketRoundTrips(scope: Scope, node: Node, stop: bool, level: Level, depth: nat, c: Counts)
    requires LevelOk(level) && depth <= MAX_DEPTH && Within(Tallied(c, node))
    requires node == if stop then StopLoss(level) else TakeProfit(level)
    ensures KeyedIn(scope, if stop then StopKey else TargetKey, PrintLevel(level), depth, true, c.(nodes := c.nodes + 1)) ==
        Some((node, Tallied(c, node)))
  {
    LevelRoundTrips(level);
  }

  lemma {:induction false} AnyRoundTrips(scope: Scope, nodes: seq<Node>, depth: nat, brackets: bool, c: Counts)
    requires ScopeOk(scope) && nodes != [] && Within(Tallied(c, Any(nodes))) && depth <= MAX_DEPTH
    requires forall i :: 0 <= i < |nodes| ==> NodeOk(scope, nodes[i], depth + 1, brackets)
    ensures KeyedIn(scope, AnyKey, Arr(PrintNodes(nodes)), depth, brackets, c.(nodes := c.nodes + 1)) ==
        Some((Any(nodes), Tallied(c, Any(nodes))))
    decreases nodes, 1
  {
    TallyCombined(c, nodes);
    NodesRoundTrip(scope, nodes, depth, brackets, c.(nodes := c.nodes + 1));
    CombineFromItems(scope, PrintNodes(nodes), nodes, depth, brackets, c.(nodes := c.nodes + 1));
  }

  lemma TallyCombined(c: Counts, nodes: seq<Node>)
    ensures Tallied(c, Any(nodes)) == TalliedAll(c.(nodes := c.nodes + 1), nodes)
    ensures StopsOf(nodes) == [] && TargetsOf(nodes) == [] ==>
      Tallied(c, All(nodes)) == TalliedAll(c.(nodes := c.nodes + 1), nodes)
  {
  }

  lemma CombineFromItems(scope: Scope, items: seq<Json>, nodes: seq<Node>, depth: nat, brackets: bool, c: Counts)
    requires depth <= MAX_DEPTH && items != []
    requires ItemsIn(scope, items, depth, brackets, c) == Some((nodes, TalliedAll(c, nodes)))
    ensures KeyedIn(scope, AnyKey, Arr(items), depth, brackets, c) == Some((Any(nodes), TalliedAll(c, nodes)))
    ensures !brackets ==> KeyedIn(scope, AllKey, Arr(items), depth, true, c) == Some((All(nodes), TalliedAll(c, nodes)))
    ensures !brackets ==> KeyedIn(scope, AllKey, Arr(items), depth, false, c) == Some((All(nodes), TalliedAll(c, nodes)))
  {
  }

  lemma {:induction false} NotRoundTrips(scope: Scope, inner: Node, depth: nat, brackets: bool, c: Counts)
    requires ScopeOk(scope) && NodeOk(scope, inner, depth + 1, false) && Within(Tallied(c, Not(inner)))
    requires depth <= MAX_DEPTH
    ensures KeyedIn(scope, NotKey, PrintNode(inner), depth, brackets, c.(nodes := c.nodes + 1)) ==
        Some((Not(inner), Tallied(c, Not(inner))))
    decreases inner, 3
  {
    NoBracketsCounted(scope, inner, depth + 1);
    TallyNot(c, inner);
    NodeRoundTrips(scope, inner, depth + 1, false, c.(nodes := c.nodes + 1));
    NotFromNode(scope, PrintNode(inner), inner, depth, brackets, c.(nodes := c.nodes + 1));
  }

  lemma TallyNot(c: Counts, inner: Node)
    requires Stops(inner) == [] && Targets(inner) == []
    ensures Tallied(c, Not(inner)) == Tallied(c.(nodes := c.nodes + 1), inner)
  {
  }

  lemma NotFromNode(scope: Scope, v: Json, inner: Node, depth: nat, brackets: bool, c: Counts)
    requires depth <= MAX_DEPTH
    requires NodeIn(scope, v, depth + 1, false, c) == Some((inner, Tallied(c, inner)))
    ensures KeyedIn(scope, NotKey, v, depth, brackets, c) == Some((Not(inner), Tallied(c, inner)))
  {
  }

  lemma {:induction false} AllRoundTrips(scope: Scope, nodes: seq<Node>, depth: nat, brackets: bool, c: Counts)
    requires ScopeOk(scope) && nodes != [] && Within(Tallied(c, All(nodes))) && depth <= MAX_DEPTH
    requires forall i :: 0 <= i < |nodes| ==> NodeOk(scope, nodes[i], depth + 1, false)
    ensures KeyedIn(scope, AllKey, Arr(PrintNodes(nodes)), depth, brackets, c.(nodes := c.nodes + 1)) ==
        Some((All(nodes), Tallied(c, All(nodes))))
    decreases nodes, 1
  {
    NoBracketsCountedIn(scope, nodes, depth + 1);
    TallyCombined(c, nodes);
    NodesRoundTrip(scope, nodes, depth, false, c.(nodes := c.nodes + 1));
    CombineFromItems(scope, PrintNodes(nodes), nodes, depth, false, c.(nodes := c.nodes + 1));
  }

  lemma {:induction false} NodesRoundTrip(scope: Scope, nodes: seq<Node>, depth: nat, brackets: bool, c: Counts)
    requires ScopeOk(scope) && depth <= MAX_DEPTH && Within(TalliedAll(c, nodes))
    requires forall i :: 0 <= i < |nodes| ==> NodeOk(scope, nodes[i], depth + 1, brackets)
    ensures ItemsIn(scope, PrintNodes(nodes), depth, brackets, c) == Some((nodes, TalliedAll(c, nodes)))
    ensures |PrintNodes(nodes)| == |nodes|
    decreases nodes, 0
  {
    if nodes != [] {
      var before, last := nodes[..|nodes| - 1], nodes[|nodes| - 1];
      assert nodes == before + [last];
      TallyAppend(c, before, last);
      NodesRoundTrip(scope, before, depth, brackets, c);
      NodeRoundTrips(scope, last, depth + 1, brackets, TalliedAll(c, before));
      OneMoreItem(scope, PrintNodes(before), PrintNode(last), depth, brackets, c);
    }
  }

  lemma OneMoreItem(scope: Scope, items: seq<Json>, v: Json, depth: nat, brackets: bool, c: Counts)
    requires depth <= MAX_DEPTH && ItemsIn(scope, items, depth, brackets, c).Some?
    ensures var before := ItemsIn(scope, items, depth, brackets, c).value;
      var last := NodeIn(scope, v, depth + 1, brackets, before.1);
      last.Some? ==> ItemsIn(scope, items + [v], depth, brackets, c) == Some((before.0 + [last.value.0], last.value.1))
  {
    assert (items + [v])[..|items|] == items;
  }

  lemma BracketSound(scope: Scope, stop: bool, v: Json, depth: nat, brackets: bool, c: Counts)
    requires depth <= MAX_DEPTH && Within(c.(nodes := c.nodes + 1))
    ensures Kept(scope, BracketIn(stop, v, brackets, c.(nodes := c.nodes + 1)), depth, brackets, c)
  {
    LevelSound(v);
  }

  /** What the reader returned, as far as it reads on. */
  ghost predicate Kept(scope: Scope, r: Option<(Node, Counts)>, depth: nat, brackets: bool, c: Counts) {
    r.Some? ==> NodeOk(scope, r.value.0, depth, brackets) && r.value.1 == Tallied(c, r.value.0) && Within(r.value.1)
  }

  ghost predicate KeptAll(scope: Scope, r: Option<(seq<Node>, Counts)>, depth: nat, brackets: bool, c: Counts) {
    r.Some? ==>
      && (forall i :: 0 <= i < |r.value.0| ==> NodeOk(scope, r.value.0[i], depth, brackets))
      && r.value.1 == TalliedAll(c, r.value.0) && Within(r.value.1)
  }

  /** Whatever is read is well formed, and counted for what it holds. */
  lemma {:induction false} NodeSound(scope: Scope, v: Json, depth: nat, brackets: bool, c: Counts)
    requires ScopeOk(scope) && c.stops <= 1 && c.targets <= 1
    ensures Kept(scope, NodeIn(scope, v, depth, brackets, c), depth, brackets, c)
    decreases Max(MAX_DEPTH + 1 - depth, 0), 1
  {
    if depth <= MAX_DEPTH && c.nodes + 1 <= MAX_NODES && v.Obj? && |v.fields.Keys| == 1 {
      KeyedSound(scope, KeywordOf(TheKey(v.fields)), v.fields[TheKey(v.fields)], depth, brackets, c);
    }
  }

  lemma {:induction false} KeyedSound(scope: Scope, key: Keyword, v: Json, depth: nat, brackets: bool, c: Counts)
    requires ScopeOk(scope) && depth <= MAX_DEPTH && Within(c.(nodes := c.nodes + 1))
    ensures Kept(scope, KeyedIn(scope, key, v, depth, brackets, c.(nodes := c.nodes + 1)), depth, brackets, c)
    decreases Max(MAX_DEPTH + 1 - depth, 0), 0
  {
    var counted := c.(nodes := c.nodes + 1);
    match key
    case AllKey =>
      if v.Arr? && v.items != [] {
        ItemsSound(scope, v.items, depth, false, counted);
        var r := ItemsIn(scope, v.items, depth, false, counted);
        if r.Some? {
          NoBracketsCountedIn(scope, r.value.0, depth + 1);
        }
      }
    case AnyKey =>
      if v.Arr? && v.items != [] {
        ItemsSound(scope, v.items, depth, brackets, counted);
      }
    case NotKey =>
      NodeSound(scope, v, depth + 1, false, counted);
      var r := NodeIn(scope, v, depth + 1, false, counted);
      if r.Some? {
        NoBracketsCounted(scope, r.value.0, depth + 1);
      }
    case _ => LeafSound(scope, key, v, depth, brackets, c);
  }

  lemma LeafSound(scope: Scope, key: Keyword, v: Json, depth: nat, brackets: bool, c: Counts)
    requires !key.AllKey? && !key.AnyKey? && !key.NotKey?
    requires ScopeOk(scope) && depth <= MAX_DEPTH && Within(c.(nodes := c.nodes + 1))
    ensures Kept(scope, KeyedIn(scope, key, v, depth, brackets, c.(nodes := c.nodes + 1)), depth, brackets, c)
  {
    match key
    case StopKey => BracketSound(scope, true, v, depth, brackets, c);
    case TargetKey => BracketSound(scope, false, v, depth, brackets, c);
    case OpKey(op) => CompareSound(scope, op, v);
    case NoKey =>
  }

  lemma {:induction false} ItemsSound(scope: Scope, items: seq<Json>, depth: nat, brackets: bool, c: Counts)
    requires ScopeOk(scope) && depth <= MAX_DEPTH && Within(c)
    ensures KeptAll(scope, ItemsIn(scope, items, depth, brackets, c), depth + 1, brackets, c)
    ensures ItemsIn(scope, items, depth, brackets, c).Some? ==>
        |ItemsIn(scope, items, depth, brackets, c).value.0| == |items|
    decreases Max(MAX_DEPTH + 1 - depth, 0) - 1, |items| + 1
  {
    if items != [] {
      ItemsSound(scope, items[..|items| - 1], depth, brackets, c);
      var before := ItemsIn(scope, items[..|items| - 1], depth, brackets, c);
      if before.Some? {
        NodeSound(scope, items[|items| - 1], depth + 1, brackets, before.value.1);
        var last := NodeIn(scope, items[|items| - 1], depth + 1, brackets, before.value.1);
        if last.Some? {
          TallyAppend(c, before.value.0, last.value.0);
        }
      }
    }
  }

  // ---------- sides ----------

  /** What reading a well-formed leg gives. */
  function LegReadOf(leg: Option<Node>, nodes: nat): LegRead {
    LegRead(leg, nodes + LegNodes(leg), HasStop(leg))
  }

  lemma LegRoundTrips(scope: Scope, fields: map<string, Json>, name: string, leg: Option<Node>, brackets: bool, nodes: nat)
    requires ScopeOk(scope) && LegOk(scope, leg, brackets) && nodes + LegNodes(leg) <= MAX_NODES
    requires LegAt(fields, name) == LegJson(leg)
    ensures LegIn(scope, fields, name, brackets, nodes) == Some(LegReadOf(leg, nodes))
  {
    if leg.Some? {
      NodeRoundTrips(scope, leg.value, 1, brackets, Counts(nodes, 0, 0));
      LegFromNode(scope, fields, name, brackets, nodes, leg.value);
    }
  }

  lemma LegFromNode(scope: Scope, fields: map<string, Json>, name: string, brackets: bool, nodes: nat, node: Node)
    requires name in fields
    requires NodeIn(scope, fields[name], 1, brackets, Counts(nodes, 0, 0)) == Some((node, Tallied(Counts(nodes, 0, 0), node)))
    ensures LegIn(scope, fields, name, brackets, nodes) == Some(LegReadOf(Some(node), nodes))
  {
  }

  lemma LegSound(scope: Scope, fields: map<string, Json>, name: string, brackets: bool, nodes: nat)
    requires ScopeOk(scope)
    ensures var r := LegIn(scope, fields, name, brackets, nodes);
      r.Some? ==>
        && (r.value.leg.Some? <==> name in fields)
        && LegOk(scope, r.value.leg, brackets)
        && r.value == LegReadOf(r.value.leg, nodes)
        && (nodes <= MAX_NODES ==> r.value.nodes <= MAX_NODES)
  {
    if name in fields {
      NodeSound(scope, fields[name], 1, brackets, Counts(nodes, 0, 0));
    }
  }

  function SideReadOf(side: Side, nodes: nat): SideRead {
    var long := LegReadOf(side.long, nodes);
    SideRead(long, LegReadOf(side.short, long.nodes))
  }

  function LegAt(fields: map<string, Json>, name: string): Option<Json> {
    if name in fields then Some(fields[name]) else None
  }

  function LegJson(leg: Option<Node>): Option<Json> {
    if leg.None? then None else Some(PrintNode(leg.value))
  }

  /** The fields of an object that may be a side, and has at least one leg. */
  function SideFields(v: Json): Option<map<string, Json>> {
    if v.Obj? && v.fields.Keys <= {"long", "short"} && v.fields.Keys != {} then Some(v.fields) else None
  }

  lemma {:induction false} SidePrinted(side: Side) returns (fields: map<string, Json>)
    requires side.long.Some? || side.short.Some?
    ensures SideFields(PrintSide(side)) == Some(fields)
    ensures LegAt(fields, "long") == LegJson(side.long) && LegAt(fields, "short") == LegJson(side.short)
  {
    fields := PrintSide(side).fields;
    assert "long" in fields.Keys || "short" in fields.Keys;
  }

  lemma {:induction false} LegsRead(scope: Scope, side: Side, brackets: bool, nodes: nat, long: LegRead, short: LegRead)
      returns (fields: map<string, Json>)
    requires ScopeOk(scope) && SideOk(scope, side, brackets)
    requires long == LegReadOf(side.long, nodes) && short == LegReadOf(side.short, long.nodes) && short.nodes <= MAX_NODES
    ensures SideFields(PrintSide(side)) == Some(fields)
    ensures LegIn(scope, fields, "long", brackets, nodes) == Some(long)
    ensures LegIn(scope, fields, "short", brackets, long.nodes) == Some(short)
  {
    fields := SidePrinted(side);
    LegReads(scope, fields, "long", side.long, brackets, nodes, long);
    LegReads(scope, fields, "short", side.short, brackets, long.nodes, short);
  }

  lemma {:induction false} SideRoundTrips(scope: Scope, side: Side, brackets: bool, nodes: nat, read: SideRead)
    requires ScopeOk(scope) && SideOk(scope, side, brackets)
    requires read == SideReadOf(side, nodes) && read.short.nodes <= MAX_NODES
    ensures SideIn(scope, PrintSide(side), brackets, nodes) == Some(read)
  {
    var fields := LegsRead(scope, side, brackets, nodes, read.long, read.short);
    SideFromLegs(scope, PrintSide(side), fields, brackets, nodes, read.long, read.short);
  }

  lemma {:induction false} LegReads(scope: Scope, fields: map<string, Json>, name: string, leg: Option<Node>, brackets: bool, nodes: nat, read: LegRead)
    requires ScopeOk(scope) && LegOk(scope, leg, brackets) && read == LegReadOf(leg, nodes) && read.nodes <= MAX_NODES
    requires LegAt(fields, name) == LegJson(leg)
    ensures LegIn(scope, fields, name, brackets, nodes) == Some(read)
  {
    LegRoundTrips(scope, fields, name, leg, brackets, nodes);
  }

  lemma SideFromLegs(scope: Scope, v: Json, fields: map<string, Json>, brackets: bool, nodes: nat, long: LegRead, short: LegRead)
    requires SideFields(v) == Some(fields)
    requires LegIn(scope, fields, "long", brackets, nodes) == Some(long)
    requires LegIn(scope, fields, "short", brackets, long.nodes) == Some(short)
    ensures SideIn(scope, v, brackets, nodes) == Some(SideRead(long, short))
  {
  }

  lemma SideSound(scope: Scope, v: Json, brackets: bool, nodes: nat)
    requires ScopeOk(scope) && nodes <= MAX_NODES
    ensures var r := SideIn(scope, v, brackets, nodes);
      r.Some? ==>
        && SideOk(scope, SideOf(r.value), brackets)
        && r.value == SideReadOf(SideOf(r.value), nodes)
        && r.value.short.nodes <= MAX_NODES
  {
    if SideIn(scope, v, brackets, nodes).Some? {
      LegSound(scope, v.fields, "long", brackets, nodes);
      var long := LegIn(scope, v.fields, "long", brackets, nodes).value;
      LegSound(scope, v.fields, "short", brackets, long.nodes);
      var key :| key in v.fields.Keys;
    }
  }

  // ---------- inputs ----------

  /** What reading and printing rest on in the registry: plain, distinct names. */
  ghost predicate Legible(registry: Registry) {
    forall name :: name in registry ==> LegibleKind(name, registry[name])
  }

  ghost predicate LegibleKind(name: string, kind: Kind) {
    && Plain(name)
    && Distinct(kind.params)
    && (forall key :: key in Declared(kind.params) ==> Plain(key))
    && kind.outputs != []
    && forall line :: line in kind.outputs ==> Plain(line)
  }

  lemma RegisteredIsLegible(registry: Registry)
    requires Registered(registry)
    ensures Legible(registry)
  {
    forall name | name in registry ensures LegibleKind(name, registry[name]) {
      assert WellMade(name, registry[name]);
      DeclaredPlain(registry[name].params);
    }
  }

  function Restricted(keys: seq<string>, params: Params): Params {
    map name | name in params && name in keys :: params[name]
  }

  lemma {:induction false} ParamsRoundTrip(keys: seq<string>, params: Params)
    requires forall i :: 0 <= i < |keys| ==> keys[i] in params && Plain(keys[i])
    ensures forall i :: 0 <= i < |keys| ==> keys[i] in PrintParams(params)
    ensures ParamsIn(keys, PrintParams(params)) == Some(Restricted(keys, params))
    decreases keys
  {
    if keys == [] {
      assert Restricted(keys, params) == map[];
    } else {
      var before, last := keys[..|keys| - 1], keys[|keys| - 1];
      ParamsRoundTrip(before, params);
      CleanPlain(last);
      assert keys == before + [last];
      assert Restricted(keys, params) == Restricted(before, params)[last := params[last]];
    }
  }

  lemma DeclaredPlain(params: seq<Param>)
    requires forall i :: 0 <= i < |params| ==> Plain(params[i].name)
    ensures forall name :: name in Declared(params) ==> Plain(name)
  {
  }

  /** What an input reads back as, before the registry is asked. */
  function RawOf(x: Input): RawInput {
    RawInput(x.indicator, x.params, if x.sourced then x.source else "", if x.multi then x.output else "")
  }

  /** An input whose words are all already clean. */
  ghost predicate Spelled(x: Input) {
    && Clean(x.indicator) == x.indicator
    && (x.sourced ==> x.source != "" && Clean(x.source) == x.source)
    && (x.multi ==> x.output != "" && Clean(x.output) == x.output)
    && forall key :: key in x.params ==> Plain(key)
  }

  lemma InputSpelled(scope: Scope, name: string)
    requires Legible(scope.registry) && name in scope.inputs && InputOk(scope, name)
    requires forall other :: other in scope.inputs ==> UsableName(other)
    ensures Spelled(scope.inputs[name])
  {
    var x := scope.inputs[name];
    assert LegibleKind(x.indicator, scope.registry[x.indicator]);
    CleanPlain(x.indicator);
    CleanPlain(x.output);
    SourcePlain(scope, name);
  }

  lemma PrintedFields(x: Input)
    requires Spelled(x)
    ensures var fields := PrintInput(x).fields;
      && fields.Keys <= {"indicator", "params", "source", "output"}
      && WordAt(fields, "indicator") == Some(x.indicator)
      && "params" in fields && fields["params"] == Obj(PrintParams(x.params))
      && WordOr(fields, "source") == Some(RawOf(x).source)
      && WordOr(fields, "output") == Some(RawOf(x).output)
  {
    var fields := PrintInput(x).fields;
    assert "source" in fields <==> x.sourced && x.source != "";
    assert "output" in fields <==> x.multi && x.output != "";
  }

  lemma {:induction false} PrintedParams(params: Params)
    requires forall key :: key in params ==> Plain(key)
    ensures ParamsIn(Sorted(PrintParams(params).Keys), PrintParams(params)) == Some(params)
  {
    ParamsReadBack(Sorted(PrintParams(params).Keys), params);
  }

  lemma {:induction false} ParamsReadBack(keys: seq<string>, params: Params)
    requires forall key :: key in keys <==> key in params
    requires forall key :: key in params ==> Plain(key)
    ensures ParamsIn(keys, PrintParams(params)) == Some(params)
  {
    ParamsRoundTrip(keys, params);
    assert Restricted(keys, params) == params;
  }

  lemma RawRoundTrips(x: Input)
    requires Spelled(x)
    ensures RawIn(PrintInput(x)) == Some(RawOf(x))
  {
    PrintedFields(x);
    PrintedParams(x.params);
  }

  lemma SourcePlain(scope: Scope, name: string)
    requires name in scope.inputs && InputOk(scope, name)
    requires forall other :: other in scope.inputs ==> UsableName(other)
    ensures var x := scope.inputs[name]; x.sourced ==> x.source != "" && Clean(x.source) == x.source
  {
    var x := scope.inputs[name];
    if x.sourced {
      if FieldNamed(x.source).Some? {
        FieldClean(FieldNamed(x.source).value);
        assert x.source == FieldName(FieldNamed(x.source).value);
      } else {
        IdentifierIsPlain(x.source);
      }
    }
  }

  lemma InputRoundTrips(scope: Scope, name: string)
    requires Legible(scope.registry) && name in scope.inputs && InputOk(scope, name) && Spelled(scope.inputs[name])
    ensures InputIn(scope.registry, RawOf(scope.inputs[name])) == Some(scope.inputs[name])
  {
    var x := scope.inputs[name];
    var kind, raw := scope.registry[x.indicator], RawOf(x);
    assert LegibleKind(x.indicator, kind);
    ParamsAreOk(kind, x.params, SourceOf(x));
    assert FieldNamed(raw.source) == SourceOf(x);
    assert New(scope.registry, x.indicator, x.params, FieldNamed(raw.source)).Some?;
    if !x.multi {
      assert kind.outputs == [kind.outputs[0]];
    }
  }

  lemma ParamsAreOk(kind: Kind, params: Params, source: Option<Field>)
    requires Distinct(kind.params) && Resolve(kind, params, source) == Some(params)
    ensures ParamsOk(kind, params)
  {
    forall i | 0 <= i < |kind.params| && kind.params[i].name in params
      ensures InRange(kind.params[i], params[kind.params[i].name])
    {
      FilledValue(kind.params, params, i);
    }
  }

  /** What an accepted request was built into. */
  lemma InputBuilt(registry: Registry, raw: RawInput, x: Input)
    requires Legible(registry) && InputIn(registry, raw) == Some(x)
    ensures x.indicator in registry
    ensures var kind := registry[x.indicator];
      && x.sourced == kind.sourced && x.multi == (|kind.outputs| > 1) && x.output in kind.outputs
      && (raw.source != "" ==> kind.sourced)
      && x.source == (if !kind.sourced then "" else if raw.source == "" then FieldName(Close) else raw.source)
      && Resolve(kind, raw.params, FieldNamed(raw.source)) == Some(x.params)
  {
  }

  lemma InputSound(registry: Registry, fields: map<string, Json>, name: string, inputs: map<string, Input>)
    requires Legible(registry) && RawsOk(fields) && name in fields && inputs.Keys == fields.Keys
    requires InputIn(registry, RawIn(fields[name]).value) == Some(inputs[name])
    ensures InputOk(Scope(registry, inputs), name)
    ensures Chained(inputs[name]) <==> name in RawChains(fields)
    ensures Chained(inputs[name]) ==> inputs[name].source == RawChains(fields)[name]
  {
    var raw, x := RawIn(fields[name]).value, inputs[name];
    InputBuilt(registry, raw, x);
    assert UsableName(name) && SourceOk(name, raw.source, fields.Keys);
    BuiltIsOk(registry, raw, inputs, name);
  }

  lemma BuiltIsOk(registry: Registry, raw: RawInput, inputs: map<string, Input>, name: string)
    requires Legible(registry) && name in inputs && UsableName(name) && SourceOk(name, raw.source, inputs.Keys)
    requires inputs[name].indicator in registry
    requires var kind, x := registry[inputs[name].indicator], inputs[name];
      && x.sourced == kind.sourced && x.multi == (|kind.outputs| > 1) && x.output in kind.outputs
      && (raw.source != "" ==> kind.sourced)
      && x.source == (if !kind.sourced then "" else if raw.source == "" then FieldName(Close) else raw.source)
      && Resolve(kind, raw.params, FieldNamed(raw.source)) == Some(x.params)
    ensures InputOk(Scope(registry, inputs), name)
    ensures Chained(inputs[name]) <==> raw.source != "" && FieldNamed(raw.source).None?
    ensures Chained(inputs[name]) ==> inputs[name].source == raw.source
  {
    var x := inputs[name];
    var kind := registry[x.indicator];
    assert LegibleKind(x.indicator, kind);
    ResolveAgain(kind, raw.params, FieldNamed(raw.source), SourceOf(x));
  }

  lemma InputsSound(registry: Registry, v: Json)
    requires Legible(registry) && InputsIn(registry, v).Some?
    ensures var inputs := InputsIn(registry, v).value;
      && 0 < |inputs| <= MAX_INPUTS
      && Acyclic(Chains(inputs))
      && forall name :: name in inputs ==> InputOk(Scope(registry, inputs), name)
  {
    var inputs := InputsIn(registry, v).value;
    AllInputsSound(registry, v.fields, inputs);
    SameSize(inputs, v.fields);
  }

  lemma AllInputsSound(registry: Registry, fields: map<string, Json>, inputs: map<string, Input>)
    requires Legible(registry) && RawsOk(fields) && inputs.Keys == fields.Keys
    requires forall name :: name in inputs ==> InputIn(registry, RawIn(fields[name]).value) == Some(inputs[name])
    ensures Chains(inputs) == RawChains(fields)
    ensures forall name :: name in inputs ==> InputOk(Scope(registry, inputs), name)
  {
    forall name | name in inputs
      ensures InputOk(Scope(registry, inputs), name)
      ensures ChainsAlike(inputs, RawChains(fields), name)
    {
      InputSound(registry, fields, name, inputs);
    }
    ChainsEqual(inputs, RawChains(fields));
  }

  ghost predicate ChainsAlike(inputs: map<string, Input>, chains: map<string, string>, name: string)
    requires name in inputs
  {
    && (Chained(inputs[name]) <==> name in chains)
    && (Chained(inputs[name]) ==> inputs[name].source == chains[name])
  }

  lemma ChainsEqual(inputs: map<string, Input>, chains: map<string, string>)
    requires chains.Keys <= inputs.Keys && forall name :: name in inputs ==> ChainsAlike(inputs, chains, name)
    ensures Chains(inputs) == chains
  {
  }

  lemma SameSize<A, B>(a: map<string, A>, b: map<string, B>)
    requires a.Keys == b.Keys
    ensures |a| == |b|
  {
    assert |a| == |a.Keys| && |b| == |b.Keys|;
  }

  lemma InputsRoundTrip(registry: Registry, inputs: map<string, Input>)
    requires Legible(registry) && 0 < |inputs| <= MAX_INPUTS && Acyclic(Chains(inputs))
    requires forall name :: name in inputs ==> InputOk(Scope(registry, inputs), name)
    ensures InputsIn(registry, Obj(PrintInputs(inputs))) == Some(inputs)
  {
    var fields := PrintInputs(inputs);
    assert fields.Keys == inputs.Keys;
    forall name | name in fields
      ensures ReadWell(registry, inputs, fields, name)
    {
      assert forall other :: other in inputs ==> InputOk(Scope(registry, inputs), other);
      InputSpelled(Scope(registry, inputs), name);
      RawRoundTrips(inputs[name]);
      InputRoundTrips(Scope(registry, inputs), name);
    }
    InputsFromParts(registry, inputs, fields);
  }

  /** One document field reads back as its input, names a usable source and builds into it. */
  ghost predicate ReadWell(registry: Registry, inputs: map<string, Input>, fields: map<string, Json>, name: string)
    requires name in inputs && name in fields
  {
    && UsableName(name)
    && RawIn(fields[name]) == Some(RawOf(inputs[name]))
    && SourceOk(name, RawOf(inputs[name]).source, inputs.Keys)
    && InputIn(registry, RawOf(inputs[name])) == Some(inputs[name])
    && (RawOf(inputs[name]).source != "" && FieldNamed(RawOf(inputs[name]).source).None? <==> Chained(inputs[name]))
  }

  lemma InputsFromParts(registry: Registry, inputs: map<string, Input>, fields: map<string, Json>)
    requires 0 < |inputs| <= MAX_INPUTS && Acyclic(Chains(inputs)) && fields.Keys == inputs.Keys
    requires forall name :: name in inputs ==> ReadWell(registry, inputs, fields, name)
    ensures InputsIn(registry, Obj(fields)) == Some(inputs)
  {
    ReadRaws(registry, inputs, fields);
    ReadChains(registry, inputs, fields);
    ReadBuilds(registry, inputs, fields);
  }

  lemma ReadRaws(registry: Registry, inputs: map<string, Input>, fields: map<string, Json>)
    requires 0 < |inputs| <= MAX_INPUTS && fields.Keys == inputs.Keys
    requires forall name :: name in inputs ==> ReadWell(registry, inputs, fields, name)
    ensures RawsOk(fields)
  {
    SameSize(fields, inputs);
    forall name | name in fields ensures RawOk(fields, name) {
      ReadRaw(registry, inputs, fields, name);
    }
  }

  lemma ReadRaw(registry: Registry, inputs: map<string, Input>, fields: map<string, Json>, name: string)
    requires fields.Keys == inputs.Keys && name in inputs && ReadWell(registry, inputs, fields, name)
    ensures RawOk(fields, name)
  {
  }

  lemma ReadChains(registry: Registry, inputs: map<string, Input>, fields: map<string, Json>)
    requires RawsOk(fields) && fields.Keys == inputs.Keys
    requires forall name :: name in inputs ==> ReadWell(registry, inputs, fields, name)
    ensures RawChains(fields) == Chains(inputs)
  {
    forall name | name in inputs
      ensures ChainsAlike(inputs, RawChains(fields), name)
    {
      assert ReadWell(registry, inputs, fields, name);
    }
    ChainsEqual(inputs, RawChains(fields));
  }

  lemma ReadBuilds(registry: Registry, inputs: map<string, Input>, fields: map<string, Json>)
    requires RawsOk(fields) && fields.Keys == inputs.Keys
    requires forall name :: name in inputs ==> ReadWell(registry, inputs, fields, name)
    ensures AllBuilt(Builds(registry, fields)) == Some(inputs)
  {
    forall name | name in inputs ensures BuildsInto(registry, fields, name, inputs[name]) {
      ReadBuild(registry, inputs, fields, name);
    }
    BuildsAre(registry, inputs, fields);
  }

  ghost predicate BuildsInto(registry: Registry, fields: map<string, Json>, name: string, input: Input)
    requires name in fields && RawIn(fields[name]).Some?
  {
    InputIn(registry, RawIn(fields[name]).value) == Some(input)
  }

  lemma ReadBuild(registry: Registry, inputs: map<string, Input>, fields: map<string, Json>, name: string)
    requires RawsOk(fields) && name in inputs && name in fields && ReadWell(registry, inputs, fields, name)
    ensures RawIn(fields[name]).Some? && BuildsInto(registry, fields, name, inputs[name])
  {
  }

  lemma BuildsAre(registry: Registry, inputs: map<string, Input>, fields: map<string, Json>)
    requires RawsOk(fields) && fields.Keys == inputs.Keys
    requires forall name :: name in inputs ==> BuildsInto(registry, fields, name, inputs[name])
    ensures AllBuilt(Builds(registry, fields)) == Some(inputs)
  {
    AllBuiltIs(Builds(registry, fields), inputs);
  }

  // ---------- the document ----------

  lemma InputsSpeak(registry: Registry, inputs: map<string, Input>)
    requires Legible(registry)
    requires forall name :: name in inputs ==> InputOk(Scope(registry, inputs), name)
    ensures ScopeOk(Scope(registry, inputs))
  {
    var scope := Scope(registry, inputs);
    forall name | name in inputs ensures Spoken(scope, name) {
      assert InputOk(scope, name);
      assert LegibleKind(inputs[name].indicator, registry[inputs[name].indicator]);
    }
  }

  /** Whatever the parser accepts is well formed. */
  lemma ParsedIsWellFormed(registry: Registry, v: Json)
    requires Registered(registry) && SpecIn(registry, v).Some?
    ensures WellFormed(registry, SpecIn(registry, v).value)
  {
    RegisteredIsLegible(registry);
    InputsSound(registry, FieldAt(v.fields, "inputs"));
    var inputs := InputsIn(registry, FieldAt(v.fields, "inputs")).value;
    var scope := Scope(registry, inputs);
    InputsSpeak(registry, inputs);
    SideSound(scope, v.fields["entry"], false, 0);
    var entry := SideIn(scope, v.fields["entry"], false, 0).value;
    RestSound(registry, inputs, entry, v.fields);
  }

  lemma RestSound(registry: Registry, inputs: map<string, Input>, entry: SideRead, fields: map<string, Json>)
    requires "sizing" in fields && RestIn(registry, inputs, entry, fields).Some?
    requires 0 < |inputs| <= MAX_INPUTS && Acyclic(Chains(inputs))
    requires forall name :: name in inputs ==> InputOk(Scope(registry, inputs), name)
    requires ScopeOk(Scope(registry, inputs)) && SideOk(Scope(registry, inputs), SideOf(entry), false)
    requires entry == SideReadOf(SideOf(entry), 0) && entry.short.nodes <= MAX_NODES
    ensures WellFormed(registry, RestIn(registry, inputs, entry, fields).value)
  {
    var raw := FieldAt(fields, "exit");
    if raw.Null? {
      ClosedSound(registry, inputs, entry, None, fields);
    } else {
      SideSound(Scope(registry, inputs), raw, true, entry.short.nodes);
      ClosedSound(registry, inputs, entry, SideIn(Scope(registry, inputs), raw, true, entry.short.nodes), fields);
    }
  }

  lemma {:induction false} ClosedSound(registry: Registry, inputs: map<string, Input>, entry: SideRead, exit: Option<SideRead>,
                    fields: map<string, Json>)
    requires "sizing" in fields && ClosedIn(inputs, entry, exit, fields).Some?
    requires 0 < |inputs| <= MAX_INPUTS && Acyclic(Chains(inputs))
    requires forall name :: name in inputs ==> InputOk(Scope(registry, inputs), name)
    requires SideOk(Scope(registry, inputs), SideOf(entry), false)
    requires entry == SideReadOf(SideOf(entry), 0) && entry.short.nodes <= MAX_NODES
    requires exit.Some? ==>
        && SideOk(Scope(registry, inputs), SideOf(exit.value), true)
        && exit.value == SideReadOf(SideOf(exit.value), entry.short.nodes) && exit.value.short.nodes <= MAX_NODES
    ensures WellFormed(registry, ClosedIn(inputs, entry, exit, fields).value)
  {
    var spec := ClosedIn(inputs, entry, exit, fields).value;
    assert SidesAgree(entry, exit, spec.sizing.kind);
    assert ExitLeg(spec, false) == (if exit.Some? then exit.value.long.leg else None);
    assert ExitLeg(spec, true) == (if exit.Some? then exit.value.short.leg else None);
    assert exit.Some? ==> exit.value.long.stop == HasStop(exit.value.long.leg);
    assert exit.Some? ==> exit.value.short.stop == HasStop(exit.value.short.leg);
  }

  /** Printing a well-formed specification and parsing the result gives it back. */
  lemma PrintedParsesBack(registry: Registry, spec: Spec)
    requires Registered(registry) && WellFormed(registry, spec)
    ensures SpecIn(registry, PrintSpec(spec)) == Some(spec)
  {
    RegisteredIsLegible(registry);
    var scope := Scope(registry, spec.inputs);
    InputsRoundTrip(registry, spec.inputs);
    InputsSpeak(registry, spec.inputs);
    var entry := SideReadOf(spec.entry, 0);
    SideRoundTrips(scope, spec.entry, false, 0, entry);
    if spec.exit.Some? {
      SideRoundTrips(scope, spec.exit.value, true, entry.short.nodes, SideReadOf(spec.exit.value, entry.short.nodes));
    }
    SizingRoundTrips(spec.sizing);
    CostsRoundTrip(spec.costs);
    AgreesWhenWellFormed(registry, spec);
    SpecFromParts(registry, spec);
  }

  function ExitReadOf(spec: Spec): Option<SideRead> {
    if spec.exit.None? then None else Some(SideReadOf(spec.exit.value, SideReadOf(spec.entry, 0).short.nodes))
  }

  lemma AgreesWhenWellFormed(registry: Registry, spec: Spec)
    requires WellFormed(registry, spec)
    ensures SidesAgree(SideReadOf(spec.entry, 0), ExitReadOf(spec), spec.sizing.kind)
  {
    assert forall short :: ExitLeg(spec, short).Some? ==> EntryLeg(spec, short).Some?;
    assert spec.exit.Some? ==> ExitLeg(spec, false) == spec.exit.value.long && ExitLeg(spec, true) == spec.exit.value.short;
    assert EntryLeg(spec, false) == spec.entry.long && EntryLeg(spec, true) == spec.entry.short;
  }

  lemma SpecPrinted(spec: Spec)
    ensures var fields := PrintSpec(spec).fields;
      && fields.Keys <= {"version", "inputs", "entry", "exit", "sizing", "costs"}
      && "version" in fields && fields["version"] == Num(spec.version as real)
      && FieldAt(fields, "inputs") == Obj(PrintInputs(spec.inputs))
      && "entry" in fields && fields["entry"] == PrintSide(spec.entry)
      && "sizing" in fields && fields["sizing"] == PrintSizing(spec.sizing)
      && FieldAt(fields, "costs") == PrintCosts(spec.costs)
      && FieldAt(fields, "exit") == (if spec.exit.Some? then PrintSide(spec.exit.value) else Null)
  {
  }

  /** If each part reads back, so does the document. */
  lemma SpecFromParts(registry: Registry, spec: Spec)
    requires spec.version == VERSION
    requires InputsIn(registry, Obj(PrintInputs(spec.inputs))) == Some(spec.inputs)
    requires SideIn(Scope(registry, spec.inputs), PrintSide(spec.entry), false, 0) == Some(SideReadOf(spec.entry, 0))
    requires spec.exit.Some? ==>
        SideIn(Scope(registry, spec.inputs), PrintSide(spec.exit.value), true, SideReadOf(spec.entry, 0).short.nodes)
        == ExitReadOf(spec)
    requires SizingIn(PrintSizing(spec.sizing)) == Some(spec.sizing)
    requires CostsIn(PrintCosts(spec.costs)) == Some(spec.costs)
    requires SidesAgree(SideReadOf(spec.entry, 0), ExitReadOf(spec), spec.sizing.kind)
    ensures SpecIn(registry, PrintSpec(spec)) == Some(spec)
  {
    SpecPrinted(spec);
    WholeBack(VERSION);
    var fields, entry := PrintSpec(spec).fields, SideReadOf(spec.entry, 0);
    ClosedFromParts(spec, entry, ExitReadOf(spec), fields);
    RestFromParts(registry, spec, entry, fields);
    SpecFromFields(registry, spec, entry, fields);
  }

  lemma ClosedFromParts(spec: Spec, entry: SideRead, exit: Option<SideRead>, fields: map<string, Json>)
    requires "sizing" in fields && SizingIn(fields["sizing"]) == Some(spec.sizing)
    requires CostsIn(FieldAt(fields, "costs")) == Some(spec.costs) && spec.version == VERSION
    requires SidesAgree(entry, exit, spec.sizing.kind) && SideOf(entry) == spec.entry
    requires spec.exit == if exit.Some? then Some(SideOf(exit.value)) else None
    ensures ClosedIn(spec.inputs, entry, exit, fields) == Some(spec)
  {
  }

  lemma RestFromParts(registry: Registry, spec: Spec, entry: SideRead, fields: map<string, Json>)
    requires "sizing" in fields && ClosedIn(spec.inputs, entry, ExitReadOf(spec), fields) == Some(spec)
    requires FieldAt(fields, "exit") == if spec.exit.Some? then PrintSide(spec.exit.value) else Null
    requires spec.exit.Some? ==>
        SideIn(Scope(registry, spec.inputs), PrintSide(spec.exit.value), true, entry.short.nodes) == ExitReadOf(spec)
    ensures RestIn(registry, spec.inputs, entry, fields) == Some(spec)
  {
  }

  lemma SpecFromFields(registry: Registry, spec: Spec, entry: SideRead, fields: map<string, Json>)
    requires Only(fields, {"version", "inputs", "entry", "exit", "sizing", "costs"})
    requires "version" in fields && WholeIn(fields["version"]) == Some(VERSION)
    requires "entry" in fields && "sizing" in fields
    requires InputsIn(registry, FieldAt(fields, "inputs")) == Some(spec.inputs)
    requires SideIn(Scope(registry, spec.inputs), fields["entry"], false, 0) == Some(entry)
    requires RestIn(registry, spec.inputs, entry, fields) == Some(spec)
    ensures SpecIn(registry, Obj(fields)) == Some(spec)
  {
  }

  /** The parser's image is exactly the well-formed specifications. */
  lemma ParserImage(registry: Registry, spec: Spec)
    requires Registered(registry)
    ensures (exists v :: SpecIn(registry, v) == Some(spec)) <==> WellFormed(registry, spec)
  {
    if v :| SpecIn(registry, v) == Some(spec) {
      ParsedIsWellFormed(registry, v);
    }
    if WellFormed(registry, spec) {
      PrintedParsesBack(registry, spec);
    }
  }

  /** Printing what was parsed and parsing it again changes nothing. */
  lemma ReparseIsIdentity(registry: Registry, v: Json)
    requires Registered(registry) && SpecIn(registry, v).Some?
    ensures SpecIn(registry, PrintSpec(SpecIn(registry, v).value)) == SpecIn(registry, v)
  {
    ParsedIsWellFormed(registry, v);
    PrintedParsesBack(registry, SpecIn(registry, v).value);
  }
}
