/** Hoisting: taking the resting orders out of an exit rule leaves a condition that means
    what the rule meant. */
module Hoisting {
  import opened Outcomes
  import opened Specs
  import opened Rules
  import opened Forms
  import opened Meanings

  /** The exit rule with its brackets taken out; nothing, when it held nothing else. */
  function Residue(node: Node): Option<Node>
    decreases node
  {
    match node
    case StopLoss(_) => None
    case TakeProfit(_) => None
    case Any(nodes) =>
      var kept := Residues(nodes);
      if |kept| == 0 then None else if |kept| == 1 then Some(kept[0]) else Some(Any(kept))
    case _ => Some(node)
  }

  function Residues(nodes: seq<Node>): seq<Node>
    decreases nodes
  {
    if nodes == [] then []
    else
      var rest := Residues(nodes[1..]);
      match Residue(nodes[0]) case None => rest case Some(node) => [node] + rest
  }

  /** Hoisting keeps the verdict, unknowns included: the residue means what the whole exit
      meant with its brackets read as false, and an empty residue is a rule never true. */
  lemma {:induction false} HoistingKeepsVerdict(scope: Scope, node: Node, h: seq<Bars.Sample>)
    ensures Meaning(scope, node, h) ==
        match Residue(node) { case None => No case Some(rest) => Meaning(scope, rest, h) }
    decreases node
  {
    if node.Any? {
      ResiduesKeepVerdict(scope, node.nodes, h);
      var kept := Residues(node.nodes);
      assert |kept| == 1 ==> Some(kept[0]) == Residue(node);
    }
  }

  lemma {:induction false} ResiduesKeepVerdict(scope: Scope, nodes: seq<Node>, h: seq<Bars.Sample>)
    ensures Meaning(scope, Any(nodes), h) == Meaning(scope, Any(Residues(nodes)), h)
    decreases nodes
  {
    if nodes != [] {
      HoistingKeepsVerdict(scope, nodes[0], h);
      ResiduesKeepVerdict(scope, nodes[1..], h);
      AnyOfCons(scope, nodes[0], nodes[1..], h);
      assert nodes == [nodes[0]] + nodes[1..];
      var first := Residue(nodes[0]);
      if first.Some? {
        AnyOfCons(scope, first.value, Residues(nodes[1..]), h);
      }
    }
  }

  function Either(a: Verdict, b: Verdict): Verdict {
    if a == Yes || b == Yes then Yes else if a == Unknown || b == Unknown then Unknown else No
  }

  lemma AnyOfCons(scope: Scope, first: Node, rest: seq<Node>, h: seq<Bars.Sample>)
    ensures Meaning(scope, Any([first] + rest), h) ==
        Either(Meaning(scope, first, h), Meaning(scope, Any(rest), h))
  {
    SomeOfCons(scope, first, rest, h, Yes);
    SomeOfCons(scope, first, rest, h, Unknown);
  }

  lemma SomeOfCons(scope: Scope, first: Node, rest: seq<Node>, h: seq<Bars.Sample>, v: Verdict)
    ensures var whole := [first] + rest;
      (exists i :: 0 <= i < |whole| && Meaning(scope, whole[i], h) == v) <==>
      (Meaning(scope, first, h) == v || exists i :: 0 <= i < |rest| && Meaning(scope, rest[i], h) == v)
  {
    var whole := [first] + rest;
    if i :| 0 <= i < |rest| && Meaning(scope, rest[i], h) == v {
      assert whole[i + 1] == rest[i];
    }
    if i :| 0 <= i < |whole| && Meaning(scope, whole[i], h) == v {
      assert whole[i] == if i == 0 then first else rest[i - 1];
    }
    assert whole[0] == first;
  }

  /** A residue carries no bracket any more, so it can be compiled as a condition. */
  lemma {:induction false} ResidueHasNoBrackets(scope: Scope, node: Node, depth: nat, brackets: bool)
    requires NodeOk(scope, node, depth, brackets) && Residue(node).Some?
    ensures Conditional(Residue(node).value) && Posed(scope, Residue(node).value)
    decreases node
  {
    if node.Any? {
      ResiduesHaveNoBrackets(scope, node.nodes, depth, brackets);
    } else {
      NodeIsConditional(scope, node, depth);
    }
  }

  lemma {:induction false} ResiduesHaveNoBrackets(scope: Scope, nodes: seq<Node>, depth: nat, brackets: bool)
    requires forall i :: 0 <= i < |nodes| ==> NodeOk(scope, nodes[i], depth + 1, brackets)
    ensures forall i :: 0 <= i < |Residues(nodes)| ==>
        Conditional(Residues(nodes)[i]) && Posed(scope, Residues(nodes)[i])
    decreases nodes
  {
    if nodes != [] {
      ResiduesHaveNoBrackets(scope, nodes[1..], depth, brackets);
      if Residue(nodes[0]).Some? {
        ResidueHasNoBrackets(scope, nodes[0], depth + 1, brackets);
      }
    }
  }

  /** No stop or target anywhere. */
  predicate Conditional(node: Node)
    decreases node
  {
    match node
    case All(nodes) => forall i :: 0 <= i < |nodes| ==> Conditional(nodes[i])
    case Any(nodes) => forall i :: 0 <= i < |nodes| ==> Conditional(nodes[i])
    case Not(inner) => Conditional(inner)
    case Compare(_, _) => true
    case _ => false
  }

  /** Every level the compiler hoists is one the parser allows. */
  predicate LevelsOk(node: Node) {
    match node
    case StopLoss(level) => LevelOk(level)
    case TakeProfit(level) => LevelOk(level)
    case Any(nodes) => forall i :: 0 <= i < |nodes| ==> LevelsOk(nodes[i])
    case _ => true
  }

  lemma {:induction false} LevelsAreOk(scope: Scope, node: Node, depth: nat, brackets: bool)
    requires NodeOk(scope, node, depth, brackets)
    ensures LevelsOk(node)
    decreases node
  {
    if node.Any? {
      forall i | 0 <= i < |node.nodes| ensures LevelsOk(node.nodes[i]) {
        LevelsAreOk(scope, node.nodes[i], depth + 1, brackets);
      }
    }
  }

  /** Every comparison carries as many operands as it takes. */
  predicate Counted(node: Node)
    decreases node
  {
    match node
    case All(nodes) => forall i :: 0 <= i < |nodes| ==> Counted(nodes[i])
    case Any(nodes) => forall i :: 0 <= i < |nodes| ==> Counted(nodes[i])
    case Not(inner) => Counted(inner)
    case Compare(op, operands) => |operands| == Arity(op).1
    case _ => true
  }

  lemma {:induction false} NodeIsCounted(scope: Scope, node: Node, depth: nat, brackets: bool)
    requires NodeOk(scope, node, depth, brackets)
    ensures Counted(node)
    decreases node
  {
    match node
    case All(nodes) =>
      forall i | 0 <= i < |nodes| ensures Counted(nodes[i]) {
        NodeIsCounted(scope, nodes[i], depth + 1, false);
      }
    case Any(nodes) =>
      forall i | 0 <= i < |nodes| ensures Counted(nodes[i]) {
        NodeIsCounted(scope, nodes[i], depth + 1, brackets);
      }
    case Not(inner) => NodeIsCounted(scope, inner, depth + 1, false);
    case _ =>
  }

  lemma {:induction false} ResidueIsCounted(node: Node)
    requires Counted(node)
    ensures Residue(node).Some? ==> Counted(Residue(node).value)
    decreases node
  {
    if node.Any? {
      ResiduesAreCounted(node.nodes);
    }
  }

  lemma {:induction false} ResiduesAreCounted(nodes: seq<Node>)
    requires forall i :: 0 <= i < |nodes| ==> Counted(nodes[i])
    ensures forall i :: 0 <= i < |Residues(nodes)| ==> Counted(Residues(nodes)[i])
    decreases nodes
  {
    if nodes != [] {
      ResidueIsCounted(nodes[0]);
      ResiduesAreCounted(nodes[1..]);
    }
  }

  /** Every comparison has its operands, and they name what the scope declares. */
  ghost predicate Posed(scope: Scope, node: Node)
    decreases node
  {
    match node
    case All(nodes) => forall i :: 0 <= i < |nodes| ==> Posed(scope, nodes[i])
    case Any(nodes) => forall i :: 0 <= i < |nodes| ==> Posed(scope, nodes[i])
    case Not(inner) => Posed(scope, inner)
    case Compare(op, operands) => CompareOk(scope, op, operands)
    case _ => true
  }

  lemma {:induction false} NodeIsConditional(scope: Scope, node: Node, depth: nat)
    requires NodeOk(scope, node, depth, false)
    ensures Conditional(node) && Posed(scope, node)
    decreases node
  {
    match node
    case All(nodes) =>
      forall i | 0 <= i < |nodes| ensures Conditional(nodes[i]) && Posed(scope, nodes[i]) {
        NodeIsConditional(scope, nodes[i], depth + 1);
      }
    case Any(nodes) =>
      forall i | 0 <= i < |nodes| ensures Conditional(nodes[i]) && Posed(scope, nodes[i]) {
        NodeIsConditional(scope, nodes[i], depth + 1);
      }
    case Not(inner) => NodeIsConditional(scope, inner, depth + 1);
    case Compare(_, _) =>
  }

  lemma {:induction false} HoistedAppend(nodes: seq<Node>, last: Node)
    ensures Residues(nodes + [last]) == Residues(nodes) + (match Residue(last) case None => [] case Some(node) => [node])
    ensures StopsOf(nodes + [last]) == StopsOf(nodes) + Stops(last)
    ensures TargetsOf(nodes + [last]) == TargetsOf(nodes) + Targets(last)
    decreases nodes
  {
    var all := nodes + [last];
    if nodes == [] {
      assert all[1..] == [];
    } else {
      assert all[1..] == nodes[1..] + [last] && all[0] == nodes[0];
      HoistedAppend(nodes[1..], last);
    }
  }
}
