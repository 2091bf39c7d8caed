/** The parser: a walk over the document that counts nodes and brackets as it goes and
    stops at the first fault. */
module Parser {
  import opened Outcomes
  import opened Numbers
  import opened Text
  import opened Indicators
  import opened Specs
  import opened Forms
  import opened Chaining
  import opened Reading

  datatype Step = Field(name: string) | Item(index: nat)

  /** Where in the document a fault is, and what it says. */
  datatype Fault = Fault(at: seq<Step>, message: string)

  function KeywordNamed(name: string): Keyword {
    if name == "all" then AllKey
    else if name == "any" then AnyKey
    else if name == "not" then NotKey
    else if name == "stop_loss" then StopKey
    else if name == "take_profit" then TargetKey
    else if name == "gt" then OpKey(GT)
    else if name == "lt" then OpKey(LT)
    else if name == "gte" then OpKey(GTE)
    else if name == "lte" then OpKey(LTE)
    else if name == "eq" then OpKey(EQ)
    else if name == "crosses_above" then OpKey(CrossesAbove)
    else if name == "crosses_below" then OpKey(CrossesBelow)
    else if name == "rising" then OpKey(Rising)
    else if name == "falling" then OpKey(Falling)
    else if name == "between" then OpKey(Between)
    else NoKey
  }

  lemma NamedBack(key: Keyword)
    requires key != NoKey
    ensures KeywordNamed(KeywordName(key)) == key
  {
  }

  lemma NamedForth(name: string)
    ensures KeywordNamed(name) != NoKey ==> KeywordName(KeywordNamed(name)) == name
  {
  }

  lemma KeywordFound(name: string)
    ensures KeywordNamed(name) == KeywordOf(name)
  {
    NamedForth(name);
    forall key: Keyword | key != NoKey && KeywordName(key) == name
      ensures key == KeywordNamed(name)
    {
      NamedBack(key);
    }
  }

  /** The legs that carry a stop. */
  function StopsIn(r: SideRead): set<string> {
    (if r.long.stop then {"long"} else {}) + (if r.short.stop then {"short"} else {})
  }

  lemma EntryHasNoStops(scope: Scope, v: Json)
    ensures var r := SideIn(scope, v, false, 0); r.Some? ==> StopsIn(r.value) == {}
  {
    if v.Obj? && "long" in v.fields {
      NoneCounted(scope, v.fields["long"], 1, Counts(0, 0, 0));
    }
    if SideIn(scope, v, false, 0).Some? && "short" in v.fields {
      NoneCounted(scope, v.fields["short"], 1, Counts(SideIn(scope, v, false, 0).value.long.nodes, 0, 0));
    }
  }

  class Parser {
    const registry: Registry
    var inputs: map<string, Input>
    var nodes: nat
    var stops: nat
    var targets: nat
    var stopped: set<string>

    constructor (registry: Registry)
      ensures this.registry == registry && nodes == 0 && stopped == {}
    {
      this.registry := registry;
      inputs, nodes, stops, targets, stopped := map[], 0, 0, 0, {};
    }

    function Names(): Scope
      reads this
    {
      Scope(registry, inputs)
    }

    function Counted(): Counts
      reads this
    {
      Counts(nodes, stops, targets)
    }

    /** One rule, at some depth; brackets only where they may stand. */
    method Node(v: Json, at: seq<Step>, depth: nat, brackets: bool) returns (r: Result<Specs.Node, Fault>)
      modifies this`nodes, this`stops, this`targets
      ensures var read := NodeIn(Names(), v, depth, brackets, old(Counted()));
        (r.Ok? <==> read.Some?) && (r.Ok? ==> read == Some((r.value, Counted())))
      decreases Max(MAX_DEPTH + 1 - depth, 0), 2
    {
      if depth > MAX_DEPTH {
        return Err(Fault(at, "rules nest too deep"));
      }
      nodes := nodes + 1;
      if nodes > MAX_NODES {
        return Err(Fault(at, "too many rule nodes"));
      }
      if !v.Obj? {
        return Err(Fault(at, "a rule is a JSON object"));
      }
      if |v.fields.Keys| != 1 {
        return Err(Fault(at, "a rule carries exactly one operator"));
      }
      var name := Sorted(v.fields.Keys)[0];
      OnlyKey(v.fields, name);
      KeywordFound(name);
      r := Keyed(KeywordNamed(name), v.fields[name], at + [Field(name)], depth, brackets);
    }

    lemma OnlyKey(fields: map<string, Json>, name: string)
      requires |fields.Keys| == 1 && name in fields.Keys
      ensures name == TheKey(fields)
    {
      var rest := fields.Keys - {name};
      assert |rest| == 0;
      assert TheKey(fields) !in rest;
    }

    method Keyed(key: Keyword, v: Json, at: seq<Step>, depth: nat, brackets: bool) returns (r: Result<Specs.Node, Fault>)
      requires depth <= MAX_DEPTH
      modifies this`nodes, this`stops, this`targets
      ensures var read := KeyedIn(Names(), key, v, depth, brackets, old(Counted()));
        (r.Ok? <==> read.Some?) && (r.Ok? ==> read == Some((r.value, Counted())))
      decreases Max(MAX_DEPTH + 1 - depth, 0), 1
    {
      match key {
        case AllKey =>
          var items :- Combine(v, at, depth, false);
          r := Ok(All(items));
        case AnyKey =>
          var items :- Combine(v, at, depth, brackets);
          r := Ok(Any(items));
        case NotKey =>
          var inner :- Node(v, at, depth + 1, false);
          r := Ok(Not(inner));
        case StopKey => r := Bracket(true, v, at, brackets);
        case TargetKey => r := Bracket(false, v, at, brackets);
        case OpKey(op) =>
          var node := CompareIn(Names(), op, v);
          r := if node.None? then Err(Fault(at, "not a comparison")) else Ok(node.value);
        case NoKey => r := Err(Fault(at, "no such rule"));
      }
    }

    /** The rules under "all" or "any". */
    method Combine(v: Json, at: seq<Step>, depth: nat, brackets: bool) returns (r: Result<seq<Specs.Node>, Fault>)
      requires depth <= MAX_DEPTH
      modifies this`nodes, this`stops, this`targets
      ensures var read := NodesIn(Names(), v, depth, brackets, old(Counted()));
        (r.Ok? <==> read.Some?) && (r.Ok? ==> read == Some((r.value, Counted())))
      decreases Max(MAX_DEPTH + 1 - depth, 0), 0
    {
      if !v.Arr? {
        return Err(Fault(at, "takes a JSON array"));
      }
      if v.items == [] {
        return Err(Fault(at, "an empty combination"));
      }
      ghost var before := Counted();
      var found: seq<Specs.Node> := [];
      for i := 0 to |v.items|
        invariant ItemsIn(Names(), v.items[..i], depth, brackets, before) == Some((found, Counted()))
      {
        assert v.items[..i + 1][..i] == v.items[..i];
        var inner := Node(v.items[i], at + [Item(i)], depth + 1, brackets);
        if inner.Err? {
          ItemsFail(Names(), v.items, depth, brackets, before, i + 1);
          return Err(inner.error);
        }
        found := found + [inner.value];
      }
      assert v.items[..|v.items|] == v.items;
      r := Ok(found);
    }

    /** A list some prefix of which is refused is refused. */
    lemma {:induction false} ItemsFail(scope: Scope, items: seq<Json>, depth: nat, brackets: bool, c: Counts, i: nat)
      requires depth <= MAX_DEPTH && i <= |items| && ItemsIn(scope, items[..i], depth, brackets, c).None?
      ensures ItemsIn(scope, items, depth, brackets, c).None?
      decreases |items| - i
    {
      if i < |items| {
        assert items[..i + 1][..i] == items[..i];
        ItemsFail(scope, items, depth, brackets, c, i + 1);
      } else {
        assert items[..i] == items;
      }
    }

    method Bracket(stop: bool, v: Json, at: seq<Step>, brackets: bool) returns (r: Result<Specs.Node, Fault>)
      modifies this`stops, this`targets
      ensures var read := BracketIn(stop, v, brackets, old(Counted()));
        (r.Ok? <==> read.Some?) && (r.Ok? ==> read == Some((r.value, Counted())))
    {
      if !brackets {
        return Err(Fault(at, "a resting order, not a condition on a bar"));
      }
      var level := LevelIn(v);
      if level.None? {
        return Err(Fault(at, "not a level"));
      }
      if stop {
        stops := stops + 1;
        if stops > 1 {
          return Err(Fault(at, "a position carries one stop"));
        }
        return Ok(StopLoss(level.value));
      }
      targets := targets + 1;
      if targets > 1 {
        return Err(Fault(at, "a position carries one target"));
      }
      return Ok(TakeProfit(level.value));
    }

    /** One leg of a side, counting its own brackets from zero. */
    method Leg(fields: map<string, Json>, name: string, at: seq<Step>, brackets: bool) returns (r: Result<Option<Specs.Node>, Fault>)
      modifies this`nodes, this`stops, this`targets, this`stopped
      ensures var read := LegIn(Names(), fields, name, brackets, old(nodes));
        && (r.Ok? <==> read.Some?)
        && (r.Ok? ==> r.value == read.value.leg && nodes == read.value.nodes)
        && (r.Ok? ==> stopped == if read.value.stop then old(stopped) + {name} else old(stopped))
    {
      if name !in fields {
        return Ok(None);
      }
      stops, targets := 0, 0;
      var node :- Node(fields[name], at + [Field(name)], 1, brackets);
      if stops > 0 {
        stopped := stopped + {name};
      }
      return Ok(Some(node));
    }

    method Side(v: Json, at: seq<Step>, brackets: bool) returns (r: Result<Specs.Side, Fault>)
      modifies this`nodes, this`stops, this`targets, this`stopped
      ensures var read := SideIn(Names(), v, brackets, old(nodes));
        && (r.Ok? <==> read.Some?)
        && (r.Ok? ==> r.value == SideOf(read.value) && nodes == read.value.short.nodes)
        && (r.Ok? ==> stopped == old(stopped) + StopsIn(read.value))
    {
      if !v.Obj? || !Only(v.fields, {"long", "short"}) {
        return Err(Fault(at, "not a pair of rules"));
      }
      var long :- Leg(v.fields, "long", at, brackets);
      var short :- Leg(v.fields, "short", at, brackets);
      if long.None? && short.None? {
        return Err(Fault(at, "needs a long rule, a short rule, or both"));
      }
      r := Ok(Specs.Side(long, short));
    }

    /** Every requested input, checked against the registry, once their sources are known
        to name something and not to feed each other in a loop. */
    method ReadInputs(v: Json, at: seq<Step>) returns (r: Result<(), Fault>)
      modifies this`inputs
      ensures r.Ok? <==> InputsIn(registry, v).Some?
      ensures r.Ok? ==> inputs == InputsIn(registry, v).value
    {
      if !v.Obj? {
        return Err(Fault(at, "a strategy needs at least one input"));
      }
      var names := Sorted(v.fields.Keys);
      if !(0 < |names| <= MAX_INPUTS) {
        return Err(Fault(at, "between one and twelve inputs per strategy"));
      }
      var faulty := FirstOf(names, Faulty(v.fields));
      if faulty.Some? {
        return Err(Fault(at + [Field(faulty.value)], "not a usable input"));
      }
      var cycle := FindCycle(names, RawChains(v.fields));
      if cycle != [] {
        return Err(Fault(at + [Field(cycle[0]), Field("source")], "these inputs feed each other in a loop"));
      }
      r := Gather(Builds(registry, v.fields), names, at);
    }

    function Faulty(fields: map<string, Json>): (faulty: set<string>)
      ensures faulty == {} && 0 < |fields| <= MAX_INPUTS <==> RawsOk(fields)
    {
      var faulty := set name | name in fields && !RawOk(fields, name);
      assert (forall name :: name in fields ==> RawOk(fields, name)) ==> faulty == {};
      assert faulty == {} ==> forall name :: name in fields && !RawOk(fields, name) ==> name in faulty;
      faulty
    }

    method FirstOf(names: seq<string>, faulty: set<string>) returns (first: Option<string>)
      ensures first.None? ==> forall name :: name in names ==> name !in faulty
      ensures first.Some? ==> first.value in names && first.value in faulty
    {
      for i := 0 to |names|
        invariant forall k :: 0 <= k < i ==> names[k] !in faulty
      {
        if names[i] in faulty {
          return Some(names[i]);
        }
      }
      return None;
    }

    /** Keeps every input the registry could make, or reports the first it could not. */
    method Gather(built: map<string, Option<Input>>, names: seq<string>, at: seq<Step>) returns (r: Result<(), Fault>)
      requires forall name :: name in names <==> name in built
      modifies this`inputs
      ensures r.Ok? <==> AllBuilt(built).Some?
      ensures r.Ok? ==> inputs == AllBuilt(built).value
    {
      inputs := map[];
      for i := 0 to |names|
        invariant forall k :: 0 <= k < i ==> names[k] in inputs
        invariant forall name :: name in inputs ==> name in built && built[name] == Some(inputs[name])
      {
        if built[names[i]].None? {
          return Err(Fault(at + [Field(names[i])], "not an input the registry makes"));
        }
        inputs := inputs[names[i] := built[names[i]].value];
      }
      assert inputs.Keys == built.Keys;
      AllBuiltIs(built, inputs);
      r := Ok(());
    }

    method Spec(v: Json) returns (r: Result<Specs.Spec, Fault>)
      requires nodes == 0 && stopped == {}
      modifies this
      ensures r.Ok? <==> SpecIn(registry, v).Some?
      ensures r.Ok? ==> r.value == SpecIn(registry, v).value
    {
      if !v.Obj? || !Only(v.fields, {"version", "inputs", "entry", "exit", "sizing", "costs"}) {
        return Err(Fault([], "not a strategy spec"));
      }
      if "version" in v.fields && WholeIn(v.fields["version"]) != Some(VERSION) {
        return Err(Fault([Field("version")], "spec version must be 1"));
      }
      if "entry" !in v.fields || "sizing" !in v.fields {
        return Err(Fault([], "a strategy needs an entry and a sizing rule"));
      }
      var _ :- ReadInputs(FieldAt(v.fields, "inputs"), [Field("inputs")]);
      EntryHasNoStops(Names(), v.fields["entry"]);
      var entry :- Side(v.fields["entry"], [Field("entry")], false);
      r := Rest(v.fields, entry, SideIn(Names(), v.fields["entry"], false, 0).value);
    }

    /** The exit, the sizing and the costs, and what they owe the entry. */
    method Rest(fields: map<string, Json>, entry: Specs.Side, ghost read: SideRead) returns (r: Result<Specs.Spec, Fault>)
      requires "sizing" in fields && entry == SideOf(read) && nodes == read.short.nodes && stopped == {}
      modifies this`nodes, this`stops, this`targets, this`stopped
      ensures r.Ok? <==> RestIn(registry, inputs, read, fields).Some?
      ensures r.Ok? ==> r.value == RestIn(registry, inputs, read, fields).value
    {
      var raw := FieldAt(fields, "exit");
      var exit: Option<Specs.Side> := None;
      if !raw.Null? {
        var side :- Side(raw, [Field("exit")], true);
        if side.long.Some? && entry.long.None? {
          return Err(Fault([Field("exit"), Field("long")], "there is no long entry for this exit"));
        }
        if side.short.Some? && entry.short.None? {
          return Err(Fault([Field("exit"), Field("short")], "there is no short entry for this exit"));
        }
        exit := Some(side);
      }
      var sizing := SizingIn(fields["sizing"]);
      if sizing.None? {
        return Err(Fault([Field("sizing")], "not a sizing rule"));
      }
      if sizing.value.kind == RiskPct
         && ((entry.long.Some? && "long" !in stopped) || (entry.short.Some? && "short" !in stopped)) {
        return Err(Fault([Field("sizing")], "sizing by risk needs a stop on every side that opens"));
      }
      var costs := CostsIn(FieldAt(fields, "costs"));
      if costs.None? {
        return Err(Fault([Field("costs")], "not a set of costs"));
      }
      r := Ok(Specs.Spec(VERSION, inputs, entry, exit, sizing.value, costs.value));
    }
  }

  method Parse(registry: Registry, v: Json) returns (r: Result<Spec, Fault>)
    ensures r.Ok? <==> SpecIn(registry, v).Some?
    ensures r.Ok? ==> r.value == SpecIn(registry, v).value
  {
    var p := new Parser(registry);
    r := p.Spec(v);
  }
}
