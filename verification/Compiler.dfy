/** The compiler: it lays a specification's inputs out as shared indicator units, hoists
    the brackets off the exit rules, transcribes the rest, and measures the look-back. */
module Compiler {
  import opened Outcomes
  import opened Numbers
  import opened Text
  import opened Indicators
  import opened Specs
  import opened Rules
  import opened Wirings
  import opened Tapes
  import opened Forms
  import opened Meanings
  import opened Hoisting
  import opened Chaining

  /** An input's instance and what feeds it: enough to give any further output of it a slot. */
  datatype Held = Held(instance: Instance, feed: int)

  datatype UnitKey = UnitKey(key: Key, feed: int)
  datatype SlotKey = SlotKey(unit: UnitKey, output: nat)

  function KeyOfUnit(u: Unit): UnitKey {
    UnitKey(u.instance.key, u.feed)
  }

  function KeyOfSlot(w: Wiring, s: nat): SlotKey
    requires s < |w.slots| && w.slots[s].unit < |w.units|
  {
    SlotKey(KeyOfUnit(w.units[w.slots[s].unit]), w.slots[s].output)
  }

  ghost function Upstream(w: Wiring, feed: int): Option<Pipe>
    requires Wired(w) && -1 <= feed < |w.slots|
  {
    if feed == -1 then None else Some(PipeOf(w, feed))
  }

  lemma UpstreamKept(w: Wiring, v: Wiring, feed: int)
    requires Wired(w) && Wired(v) && Grown(w, v) && -1 <= feed < |w.slots|
    ensures Upstream(v, feed) == Upstream(w, feed)
  {
    if feed != -1 {
      PipeKept(w, v, feed);
    }
  }

  // ---------- the layout so far, as a value ----------

  /** The plan's units and slots, and the builder's two tables of them. */
  datatype Layout = Layout(wiring: Wiring, units: map<UnitKey, nat>, slots: map<SlotKey, nat>)

  /** The tables index exactly what has been laid out. */
  ghost predicate Tabled(l: Layout) {
    && (forall u :: 0 <= u < |l.wiring.units| ==> TabledUnit(l, u))
    && (forall k :: k in l.units ==> l.units[k] < |l.wiring.units| && KeyOfUnit(l.wiring.units[l.units[k]]) == k)
    && (forall s :: 0 <= s < |l.wiring.slots| ==> TabledSlot(l, s))
    && (forall k :: k in l.slots ==> l.slots[k] < |l.wiring.slots| && IndexesSlot(l, k))
  }

  ghost predicate TabledUnit(l: Layout, u: int)
    requires 0 <= u < |l.wiring.units|
  {
    KeyOfUnit(l.wiring.units[u]) in l.units && l.units[KeyOfUnit(l.wiring.units[u])] == u
  }

  ghost predicate TabledSlot(l: Layout, s: int)
    requires 0 <= s < |l.wiring.slots|
  {
    && l.wiring.slots[s].unit < |l.wiring.units|
    && KeyOfSlot(l.wiring, s) in l.slots && l.slots[KeyOfSlot(l.wiring, s)] == s
  }

  ghost predicate IndexesSlot(l: Layout, k: SlotKey)
    requires k in l.slots && l.slots[k] < |l.wiring.slots|
  {
    l.wiring.slots[l.slots[k]].unit < |l.wiring.units| && KeyOfSlot(l.wiring, l.slots[k]) == k
  }

  /** A slot reads one of its indicator's declared lines (or the first, when it has none). */
  ghost predicate Declares(w: Wiring, s: int)
    requires 0 <= s < |w.slots|
  {
    && w.slots[s].unit < |w.units|
    && (w.slots[s].output == 0 || w.slots[s].output < |w.units[w.slots[s].unit].instance.kind.outputs|)
  }

  ghost predicate Sound(registry: Registry, l: Layout) {
    && Wired(l.wiring)
    && Tabled(l)
    && (forall u :: 0 <= u < |l.wiring.units| ==> From(registry, l.wiring.units[u].instance))
    && (forall s :: 0 <= s < |l.wiring.slots| ==> Declares(l.wiring, s))
  }

  lemma UnitLaid(registry: Registry, l: Layout, instance: Instance, feed: int)
    requires Sound(registry, l) && From(registry, instance) && -1 <= feed < |l.wiring.slots|
    requires UnitKey(instance.key, feed) !in l.units
    ensures var m := Layout(WithUnit(l.wiring, instance, feed),
                            l.units[UnitKey(instance.key, feed) := |l.wiring.units|], l.slots);
      Sound(registry, m) && Grown(l.wiring, m.wiring)
  {
    UnitAdded(l.wiring, instance, feed);
    var key := UnitKey(instance.key, feed);
    var m := Layout(WithUnit(l.wiring, instance, feed), l.units[key := |l.wiring.units|], l.slots);
    forall u | 0 <= u < |m.wiring.units| ensures TabledUnit(m, u) {
      if u < |l.wiring.units| {
        assert TabledUnit(l, u);
      }
    }
    forall s | 0 <= s < |m.wiring.slots| ensures TabledSlot(m, s) && Declares(m.wiring, s) {
      assert TabledSlot(l, s) && Declares(l.wiring, s);
    }
    forall k | k in m.slots ensures m.slots[k] < |m.wiring.slots| && IndexesSlot(m, k) {
      assert IndexesSlot(l, k);
    }
  }

  lemma SlotLaid(registry: Registry, l: Layout, unit: nat, output: nat, name: string)
    requires Sound(registry, l) && unit < |l.wiring.units|
    requires output == 0 || output < |l.wiring.units[unit].instance.kind.outputs|
    requires SlotKey(KeyOfUnit(l.wiring.units[unit]), output) !in l.slots
    ensures var m := Layout(WithSlot(l.wiring, unit, output, name), l.units,
                            l.slots[SlotKey(KeyOfUnit(l.wiring.units[unit]), output) := |l.wiring.slots|]);
      Sound(registry, m) && Grown(l.wiring, m.wiring)
  {
    SlotAdded(l.wiring, unit, output, name);
    var key := SlotKey(KeyOfUnit(l.wiring.units[unit]), output);
    var m := Layout(WithSlot(l.wiring, unit, output, name), l.units, l.slots[key := |l.wiring.slots|]);
    forall u | 0 <= u < |m.wiring.units| ensures TabledUnit(m, u) {
      assert TabledUnit(l, u);
    }
    forall s | 0 <= s < |m.wiring.slots| ensures TabledSlot(m, s) && Declares(m.wiring, s) {
      if s < |l.wiring.slots| {
        assert TabledSlot(l, s) && Declares(l.wiring, s);
      }
    }
    forall k | k in m.slots ensures m.slots[k] < |m.wiring.slots| && IndexesSlot(m, k) {
      if k != key {
        assert IndexesSlot(l, k);
      }
    }
  }

  lemma SoundIsInterned(registry: Registry, l: Layout)
    requires Sound(registry, l)
    ensures Interned(l.wiring)
  {
    var w := l.wiring;
    forall u, v | 0 <= u < |w.units| && 0 <= v < |w.units| && SameUnit(w.units[u], w.units[v])
      ensures u == v
    {
      assert TabledUnit(l, u) && TabledUnit(l, v);
    }
    forall s, t | 0 <= s < |w.slots| && 0 <= t < |w.slots| && SameSlot(w.slots[s], w.slots[t])
      ensures s == t
    {
      assert TabledSlot(l, s) && TabledSlot(l, t);
    }
  }

  // ---------- the inputs resolved so far ----------

  /** Input `name` is laid out: its slot stands for its private evaluation. */
  ghost predicate Resolved(scope: Scope, w: Wiring, index: map<string, nat>, built: map<string, Held>, name: string)
    requires Wired(w)
  {
    && name in index && index[name] < |w.slots|
    && name in built && -1 <= built[name].feed < |w.slots|
    && From(scope.registry, built[name].instance)
    && Expands(scope, name, PipeOf(w, index[name]))
    && PipeOf(w, index[name]).instance == built[name].instance
    && PipeOf(w, index[name]).feed == Upstream(w, built[name].feed)
  }

  ghost predicate AllResolved(scope: Scope, w: Wiring, index: map<string, nat>, built: map<string, Held>)
    requires Wired(w)
  {
    forall name :: name in index ==> Resolved(scope, w, index, built, name)
  }

  lemma ResolvedKept(scope: Scope, w: Wiring, v: Wiring, index: map<string, nat>, built: map<string, Held>)
    requires Wired(w) && Wired(v) && Grown(w, v) && AllResolved(scope, w, index, built)
    ensures AllResolved(scope, v, index, built)
  {
    forall name | name in index ensures Resolved(scope, v, index, built, name) {
      assert Resolved(scope, w, index, built, name);
      PipeKept(w, v, index[name]);
      UpstreamKept(w, v, built[name].feed);
    }
  }

  ghost predicate TermsTranscribe(scope: Scope, w: Wiring, operands: seq<Operand>, terms: seq<Term>)
    requires Wired(w)
  {
    |terms| == |operands| && forall i :: 0 <= i < |terms| ==> TermTranscribes(scope, w, operands[i], terms[i])
  }

  // ---------- brackets ----------

  /** The indicator an ATR level is measured in. */
  function AtrInstance(registry: Registry, period: int): Option<Instance> {
    New(registry, "atr", map["period" := period as real], None)
  }

  /** An ATR bracket's slot stands for that ATR read straight off the bars. */
  ghost predicate BracketPlaced(registry: Registry, w: Wiring, b: Option<Bracket>)
    requires Wired(w)
  {
    b.Some? ==>
      match b.value.level
      case Pct(_) => b.value.slot == -1
      case Atr(period, _) =>
        && 0 <= b.value.slot < |w.slots|
        && AtrInstance(registry, period).Some?
        && PipeOf(w, b.value.slot) == Pipe(AtrInstance(registry, period).value, 0, None)
  }

  lemma BracketKept(registry: Registry, w: Wiring, v: Wiring, b: Option<Bracket>)
    requires Wired(w) && Wired(v) && Grown(w, v) && BracketPlaced(registry, w, b)
    ensures BracketPlaced(registry, v, b)
  {
    if b.Some? && b.value.level.Atr? {
      PipeKept(w, v, b.value.slot);
    }
  }

  /** A leg's bracket after reading `levels`: the last of them, or what it was before. */
  predicate Follows(now: Option<Bracket>, was: Option<Bracket>, levels: seq<Level>) {
    if levels == [] then now == was else now.Some? && now.value.level == levels[|levels| - 1]
  }

  lemma Followed(now: Option<Bracket>, between: Option<Bracket>, was: Option<Bracket>, levels: seq<Level>, more: seq<Level>)
    requires Follows(between, was, levels) && Follows(now, between, more)
    ensures Follows(now, was, levels + more)
  {
  }

  datatype Hoisted<T> = Hoisted(stop: Option<Bracket>, target: Option<Bracket>, rest: T)

  // ---------- legs ----------

  /** A compiled leg says what its side of the specification says. */
  ghost predicate LegCompiled(scope: Scope, w: Wiring, entry: Option<Node>, exit: Option<Node>, leg: Leg)
    requires Wired(w)
  {
    if entry.None? then leg == Leg(None, None, None, None)
    else
      && leg.entry.Some? && Transcribes(scope, w, entry.value, leg.entry.value)
      && if exit.None? then leg.exit.None? && leg.stop.None? && leg.target.None?
         else ExitCompiled(scope, w, exit.value, Hoisted(leg.stop, leg.target, leg.exit))
  }

  ghost predicate ExitCompiled(scope: Scope, w: Wiring, exit: Node, h: Hoisted<Option<Rule>>)
    requires Wired(w)
  {
    && (h.rest.Some? <==> Residue(exit).Some?)
    && (h.rest.Some? ==> Transcribes(scope, w, Residue(exit).value, h.rest.value))
    && Follows(h.stop, None, Stops(exit))
    && Follows(h.target, None, Targets(exit))
    && BracketPlaced(scope.registry, w, h.stop)
    && BracketPlaced(scope.registry, w, h.target)
  }

  lemma LegKept(scope: Scope, w: Wiring, v: Wiring, entry: Option<Node>, exit: Option<Node>, leg: Leg)
    requires Wired(w) && Wired(v) && Grown(w, v) && LegCompiled(scope, w, entry, exit, leg)
    ensures LegCompiled(scope, v, entry, exit, leg)
  {
    if entry.Some? {
      TranscriptKept(scope, w, v, entry.value, leg.entry.value);
      if leg.exit.Some? {
        TranscriptKept(scope, w, v, Residue(exit.value).value, leg.exit.value);
      }
      BracketKept(scope.registry, w, v, leg.stop);
      BracketKept(scope.registry, w, v, leg.target);
    }
  }

  /** What the source asks of a leg it compiles: comparisons with all their operands. */
  predicate LegCounted(leg: Option<Node>) {
    leg.Some? ==> Counted(leg.value)
  }

  /** Recording one more input, once its slot stands for its private evaluation. */
  lemma Indexed(scope: Scope, name: string, before: Wiring, w: Wiring, index: map<string, nat>, built: map<string, Held>,
                held: Held, output: nat, at: nat)
    requires Wired(before) && Wired(w) && Grown(before, w)
    requires AllResolved(scope, w, index, built)
    requires name !in index && -1 <= held.feed < |before.slots| && at < |w.slots|
    requires From(scope.registry, held.instance)
    requires PipeOf(w, at) == Pipe(held.instance, output, Upstream(before, held.feed))
    requires Expands(scope, name, PipeOf(w, at))
    ensures AllResolved(scope, w, index[name := at], built[name := held])
  {
    UpstreamKept(before, w, held.feed);
    forall other | other in index || other == name
      ensures Resolved(scope, w, index[name := at], built[name := held], other)
    {
      if other != name {
        assert Resolved(scope, w, index, built, other);
      }
    }
  }

  class Builder {
    const registry: Registry
    const inputs: map<string, Input>
    var laid: Layout
    var gauges: seq<Indicator>
    var index: map<string, nat>
    var built: map<string, Held>

    constructor (registry: Registry, inputs: map<string, Input>)
      ensures this.registry == registry && this.inputs == inputs
      ensures Valid() && index == map[]
    {
      this.registry := registry;
      this.inputs := inputs;
      laid := Layout(Wiring([], []), map[], map[]);
      gauges := [];
      index, built := map[], map[];
    }

    ghost function Names(): Scope {
      Scope(registry, inputs)
    }

    /** One indicator object for each unit, each its own. */
    ghost predicate Gauged()
      reads this
    {
      && |gauges| == |laid.wiring.units|
      && (forall u :: 0 <= u < |gauges| ==> gauges[u].study == laid.wiring.units[u].instance.study)
      && (forall u, v :: 0 <= u < v < |gauges| ==> gauges[u] != gauges[v])
    }

    ghost predicate Valid()
      reads this
    {
      && Sound(registry, laid)
      && Gauged()
      && AllResolved(Names(), laid.wiring, index, built)
    }

    /** The unit of one instance on one feed, laid out on first use. */
    method UnitFor(instance: Instance, feed: int) returns (unit: nat)
      requires Valid() && From(registry, instance) && -1 <= feed < |laid.wiring.slots|
      modifies this`laid, this`gauges
      ensures Valid() && Grown(old(laid).wiring, laid.wiring)
      ensures laid.wiring.slots == old(laid).wiring.slots
      ensures unit < |laid.wiring.units|
      ensures laid.wiring.units[unit].instance == instance && laid.wiring.units[unit].feed == feed
    {
      var key := UnitKey(instance.key, feed);
      if key in laid.units {
        unit := laid.units[key];
        KeyDetermines(registry, laid.wiring.units[unit].instance, instance);
      } else {
        unit := |laid.wiring.units|;
        Append(instance, feed);
      }
    }

    method Append(instance: Instance, feed: int)
      requires Valid() && From(registry, instance) && -1 <= feed < |laid.wiring.slots|
      requires UnitKey(instance.key, feed) !in laid.units
      modifies this`laid, this`gauges
      ensures Valid() && laid.wiring == WithUnit(old(laid).wiring, instance, feed) && Grown(old(laid).wiring, laid.wiring)
    {
      UnitLaid(registry, laid, instance, feed);
      ResolvedKept(Names(), laid.wiring, WithUnit(laid.wiring, instance, feed), index, built);
      var gauge := new Indicator(instance.study);
      laid := laid.(units := laid.units[UnitKey(instance.key, feed) := |laid.wiring.units|],
                    wiring := WithUnit(laid.wiring, instance, feed));
      gauges := gauges + [gauge];
    }

    /** The slot for one output of one instance on one feed, laid out on first use. */
    method Attach(instance: Instance, feed: int, output: nat, name: string) returns (at: nat)
      requires Valid() && From(registry, instance) && -1 <= feed < |laid.wiring.slots|
      requires output == 0 || output < |instance.kind.outputs|
      modifies this`laid, this`gauges
      ensures Valid() && Grown(old(laid).wiring, laid.wiring)
      ensures at < |laid.wiring.slots|
      ensures PipeOf(laid.wiring, at) == Pipe(instance, output, Upstream(old(laid).wiring, feed))
    {
      var unit := UnitFor(instance, feed);
      UpstreamKept(old(laid).wiring, laid.wiring, feed);
      at := SlotFor(unit, output, name);
    }

    method SlotFor(unit: nat, output: nat, name: string) returns (at: nat)
      requires Valid() && unit < |laid.wiring.units|
      requires output == 0 || output < |laid.wiring.units[unit].instance.kind.outputs|
      modifies this`laid
      ensures Valid() && Grown(old(laid).wiring, laid.wiring)
      ensures at < |laid.wiring.slots| && Fed(old(laid).wiring, unit)
      ensures PipeOf(laid.wiring, at) ==
          Pipe(old(laid).wiring.units[unit].instance, output, Upstream(old(laid).wiring, old(laid).wiring.units[unit].feed))
    {
      assert Fed(laid.wiring, unit) && TabledUnit(laid, unit);
      var key := SlotKey(KeyOfUnit(laid.wiring.units[unit]), output);
      if key in laid.slots {
        at := laid.slots[key];
        assert IndexesSlot(laid, key) && TabledUnit(laid, laid.wiring.slots[at].unit);
        return;
      }
      SlotLaid(registry, laid, unit, output, name);
      ghost var grown := WithSlot(laid.wiring, unit, output, name);
      ResolvedKept(Names(), laid.wiring, grown, index, built);
      UpstreamKept(laid.wiring, grown, laid.wiring.units[unit].feed);
      at := |laid.wiring.slots|;
      laid := laid.(slots := laid.slots[key := at], wiring := WithSlot(laid.wiring, unit, output, name));
    }

    /** Every input of the specification has been laid out. */
    ghost predicate Complete()
      reads this
    {
      forall name :: name in inputs ==> name in index
    }

    /** The slot an operand reads: the input's own, or another of its lines, attached to
        the same unit on first use. */
    method Line(name: string, output: string) returns (r: Result<nat, string>)
      requires Valid()
      modifies this`laid, this`gauges
      ensures Valid() && Grown(old(laid).wiring, laid.wiring)
      ensures r.Ok? ==> r.value < |laid.wiring.slots| && LineOf(Names(), name, output) == Some(PipeOf(laid.wiring, r.value))
      ensures Complete() && OperandOk(Names(), FromInput(name, output, 0)) ==> r.Ok?
    {
      if output == "" {
        if name !in index {
          return Err("operand has no slot");
        }
        assert Resolved(Names(), laid.wiring, index, built, name);
        LineIs(Names(), name, output, PipeOf(laid.wiring, index[name]));
        return Ok(index[name]);
      }
      if name !in index || name !in built {
        return Err("operand names no input");
      }
      assert Resolved(Names(), laid.wiring, index, built, name);
      var from := built[name];
      if output !in from.instance.kind.outputs {
        return Err("indicator has no such output");
      }
      LineIs(Names(), name, output, PipeOf(laid.wiring, index[name]));
      var at := Attach(from.instance, from.feed, OutputOf(from.instance, output), name + "." + output);
      return Ok(at);
    }

    method TermOf(o: Operand) returns (r: Result<Term, string>)
      requires Valid()
      modifies this`laid, this`gauges
      ensures Valid() && Grown(old(laid).wiring, laid.wiring)
      ensures r.Ok? ==> TermTranscribes(Names(), laid.wiring, o, r.value)
      ensures Complete() && OperandOk(Names(), o) ==> r.Ok?
    {
      match o {
        case Literal(value) => r := Ok(LiteralTerm(value));
        case FromField(field, back) => r := Ok(FieldTerm(field, back));
        case FromInput(name, output, back) =>
          var at :- Line(name, output);
          r := Ok(SlotTerm(at, back));
      }
    }

    method CompareOf(op: Comparator, operands: seq<Operand>) returns (r: Result<Rule, string>)
      requires Valid() && |operands| == Arity(op).1
      modifies this`laid, this`gauges
      ensures Valid() && Grown(old(laid).wiring, laid.wiring)
      ensures r.Ok? ==> Transcribes(Names(), laid.wiring, Compare(op, operands), r.value)
      ensures Complete() && CompareOk(Names(), op, operands) ==> r.Ok?
    {
      var bars, read := 1, operands;
      if Trending(op) {
        bars := if operands[1].Literal? then Truncate(operands[1].value) else 0;
        read := operands[..1];
      }
      var terms :- TermsOf(read);
      r := Ok(CompareRule(op, terms, bars));
    }

    method TermsOf(operands: seq<Operand>) returns (r: Result<seq<Term>, string>)
      requires Valid()
      modifies this`laid, this`gauges
      ensures Valid() && Grown(old(laid).wiring, laid.wiring)
      ensures r.Ok? ==> TermsTranscribe(Names(), laid.wiring, operands, r.value)
      ensures Complete() && (forall i :: 0 <= i < |operands| ==> OperandOk(Names(), operands[i])) ==> r.Ok?
    {
      var terms: seq<Term> := [];
      for i := 0 to |operands|
        invariant Valid() && Grown(old(laid).wiring, laid.wiring)
        invariant TermsTranscribe(Names(), laid.wiring, operands[..i], terms)
      {
        ghost var before := laid.wiring;
        var term :- TermOf(operands[i]);
        forall k | 0 <= k < i ensures TermTranscribes(Names(), laid.wiring, operands[k], terms[k]) {
          assert TermTranscribes(Names(), before, operands[..i][k], terms[k]);
          if operands[k].FromInput? {
            PipeKept(before, laid.wiring, terms[k].slot);
          }
        }
        terms := terms + [term];
      }
      assert operands[..|operands|] == operands;
      r := Ok(terms);
    }

    /** A rule with every operand resolved to a slot. */
    method RuleOf(node: Node) returns (r: Result<Rule, string>)
      requires Valid() && Counted(node)
      modifies this`laid, this`gauges
      ensures Valid() && Grown(old(laid).wiring, laid.wiring)
      ensures r.Ok? ==> Transcribes(Names(), laid.wiring, node, r.value)
      ensures Complete() && Conditional(node) && Posed(Names(), node) ==> r.Ok?
      decreases node
    {
      match node {
        case All(nodes) =>
          var rules :- RulesOf(nodes);
          r := Ok(AllRule(rules));
        case Any(nodes) =>
          var rules :- RulesOf(nodes);
          r := Ok(AnyRule(rules));
        case Not(inner) =>
          var rule :- RuleOf(inner);
          r := Ok(NotRule(rule));
        case Compare(op, operands) =>
          r := CompareOf(op, operands);
        case StopLoss(_) => r := Err("a bracket cannot be evaluated as a condition");
        case TakeProfit(_) => r := Err("a bracket cannot be evaluated as a condition");
      }
    }

    method RulesOf(nodes: seq<Node>) returns (r: Result<seq<Rule>, string>)
      requires Valid() && forall i :: 0 <= i < |nodes| ==> Counted(nodes[i])
      modifies this`laid, this`gauges
      ensures Valid() && Grown(old(laid).wiring, laid.wiring)
      ensures r.Ok? ==> |r.value| == |nodes|
      ensures r.Ok? ==> forall i :: 0 <= i < |nodes| ==> Transcribes(Names(), laid.wiring, nodes[i], r.value[i])
      ensures Complete() && (forall i :: 0 <= i < |nodes| ==> Conditional(nodes[i]) && Posed(Names(), nodes[i])) ==> r.Ok?
      decreases nodes
    {
      var rules: seq<Rule> := [];
      for i := 0 to |nodes|
        invariant Valid() && Grown(old(laid).wiring, laid.wiring) && |rules| == i
        invariant forall k :: 0 <= k < i ==> Transcribes(Names(), laid.wiring, nodes[k], rules[k])
      {
        ghost var before := laid.wiring;
        var rule :- RuleOf(nodes[i]);
        forall k | 0 <= k < i ensures Transcribes(Names(), laid.wiring, nodes[k], rules[k]) {
          TranscriptKept(Names(), before, laid.wiring, nodes[k], rules[k]);
        }
        rules := rules + [rule];
      }
      r := Ok(rules);
    }

    method BracketOf(level: Level) returns (r: Result<Bracket, string>)
      requires Valid()
      modifies this`laid, this`gauges
      ensures Valid() && Grown(old(laid).wiring, laid.wiring)
      ensures r.Ok? ==> r.value.level == level && BracketPlaced(registry, laid.wiring, Some(r.value))
      ensures Registered(registry) && LevelOk(level) ==> r.Ok?
    {
      if level.Pct? {
        return Ok(Bracket(level, -1));
      }
      var instance := AtrInstance(registry, level.period);
      if instance.None? {
        AtrAvailable(registry, level.period);
        return Err("atr for a bracket");
      }
      var at := Attach(instance.value, -1, 0, "atr");
      return Ok(Bracket(level, at));
    }

    /** Take the brackets of an exit rule onto the leg and hand back the rest of it. */
    method Hoist(node: Node, stop: Option<Bracket>, target: Option<Bracket>)
        returns (r: Result<Hoisted<Option<Node>>, string>)
      requires Valid() && BracketPlaced(registry, laid.wiring, stop) && BracketPlaced(registry, laid.wiring, target)
      modifies this`laid, this`gauges
      ensures Valid() && Grown(old(laid).wiring, laid.wiring)
      ensures r.Ok? ==> r.value.rest == Residue(node)
      ensures r.Ok? ==> Follows(r.value.stop, stop, Stops(node)) && Follows(r.value.target, target, Targets(node))
      ensures r.Ok? ==> BracketPlaced(registry, laid.wiring, r.value.stop) && BracketPlaced(registry, laid.wiring, r.value.target)
      ensures Registered(registry) && LevelsOk(node) ==> r.Ok?
      decreases node
    {
      match node {
        case StopLoss(level) =>
          var bracket :- BracketOf(level);
          BracketKept(registry, old(laid).wiring, laid.wiring, target);
          r := Ok(Hoisted(Some(bracket), target, None));
        case TakeProfit(level) =>
          var bracket :- BracketOf(level);
          BracketKept(registry, old(laid).wiring, laid.wiring, stop);
          r := Ok(Hoisted(stop, Some(bracket), None));
        case Any(nodes) =>
          var all :- HoistAll(nodes, stop, target);
          var kept := all.rest;
          var rest :=
            if |kept| == 0 then None else if |kept| == 1 then Some(kept[0]) else Some(Any(kept));
          r := Ok(Hoisted(all.stop, all.target, rest));
        case _ =>
          r := Ok(Hoisted(stop, target, Some(node)));
      }
    }

    method HoistAll(nodes: seq<Node>, stop: Option<Bracket>, target: Option<Bracket>)
        returns (r: Result<Hoisted<seq<Node>>, string>)
      requires Valid() && BracketPlaced(registry, laid.wiring, stop) && BracketPlaced(registry, laid.wiring, target)
      modifies this`laid, this`gauges
      ensures Valid() && Grown(old(laid).wiring, laid.wiring)
      ensures r.Ok? ==> r.value.rest == Residues(nodes)
      ensures r.Ok? ==> Follows(r.value.stop, stop, StopsOf(nodes)) && Follows(r.value.target, target, TargetsOf(nodes))
      ensures r.Ok? ==> BracketPlaced(registry, laid.wiring, r.value.stop) && BracketPlaced(registry, laid.wiring, r.value.target)
      ensures Registered(registry) && (forall i :: 0 <= i < |nodes| ==> LevelsOk(nodes[i])) ==> r.Ok?
      decreases nodes
    {
      var kept: seq<Node> := [];
      var s, t := stop, target;
      for i := 0 to |nodes|
        invariant Valid() && Grown(old(laid).wiring, laid.wiring)
        invariant kept == Residues(nodes[..i])
        invariant Follows(s, stop, StopsOf(nodes[..i])) && Follows(t, target, TargetsOf(nodes[..i]))
        invariant BracketPlaced(registry, laid.wiring, s) && BracketPlaced(registry, laid.wiring, t)
      {
        assert nodes[..i + 1] == nodes[..i] + [nodes[i]];
        HoistedAppend(nodes[..i], nodes[i]);
        var inner :- Hoist(nodes[i], s, t);
        Followed(inner.stop, s, stop, StopsOf(nodes[..i]), Stops(nodes[i]));
        Followed(inner.target, t, target, TargetsOf(nodes[..i]), Targets(nodes[i]));
        s, t := inner.stop, inner.target;
        if inner.rest.Some? {
          kept := kept + [inner.rest.value];
        }
      }
      assert nodes[..|nodes|] == nodes;
      r := Ok(Hoisted(s, t, kept));
    }

    /** Lay out every input, each after the input it reads. */
    method Inputs(ghost formed: bool) returns (r: Result<(), string>)
      requires Valid() && index == map[]
      requires formed ==> InputsOk()
      modifies this
      ensures Valid()
      ensures r.Ok? ==> Complete()
      ensures formed ==> r.Ok?
    {
      var names := Sorted(inputs.Keys);
      var ordered := Order(names, Chains(inputs));
      if formed {
        OrderedBuild(names, ordered);
      }
      r := LayOut(ordered);
    }

    method LayOut(ordered: seq<string>) returns (r: Result<(), string>)
      requires Valid() && index == map[] && NoRepeats(ordered)
      modifies this
      ensures Valid()
      ensures r.Ok? ==> forall name :: name in ordered ==> name in index
      ensures (forall i :: 0 <= i < |ordered| ==> Buildable(ordered[i], ordered[..i])) ==> r.Ok?
    {
      for i := 0 to |ordered|
        invariant Valid()
        invariant forall name :: name in index <==> name in ordered[..i]
      {
        if ordered[i] !in inputs {
          return Err("unknown indicator");
        }
        var _ :- Input(ordered[i]);
      }
      r := Ok(());
    }

    ghost predicate InputsOk() {
      (forall name :: name in inputs ==> InputOk(Names(), name)) && Acyclic(Chains(inputs))
    }

    /** In a well-formed specification each input of the order can be built when its turn
        comes. */
    lemma OrderedBuild(names: seq<string>, ordered: seq<string>)
      requires InputsOk() && Topological(Chains(inputs), ordered)
      requires forall name :: name in names ==> name in inputs
      requires forall name :: name in ordered ==> name in names || name in Chains(inputs).Values
      ensures forall i :: 0 <= i < |ordered| ==> Buildable(ordered[i], ordered[..i])
    {
      forall i | 0 <= i < |ordered|
        ensures Buildable(ordered[i], ordered[..i])
      {
        var name := ordered[i];
        if name in Chains(inputs).Values {
          var reader :| reader in Chains(inputs) && Chains(inputs)[reader] == name;
          assert InputOk(Names(), reader);
        }
        assert InputOk(Names(), name);
      }
    }

    ghost predicate Buildable(name: string, before: seq<string>) {
      && name in inputs
      && InstanceOf(Names(), inputs[name]).Some?
      && (Chained(inputs[name]) ==> inputs[name].source in before)
    }

    /** Lay out one input. */
    method Input(name: string) returns (r: Result<(), string>)
      requires Valid() && name in inputs && name !in index
      modifies this
      ensures Valid()
      ensures r.Ok? ==> index.Keys == old(index.Keys) + {name}
      ensures InstanceOf(Names(), inputs[name]).Some? && (Chained(inputs[name]) ==> inputs[name].source in old(index)) ==> r.Ok?
    {
      var input := inputs[name];
      var feed: int := -1;
      if Chained(input) {
        if input.source !in index {
          return Err("input reads from an input which has no slot");
        }
        feed := index[input.source];
        assert Resolved(Names(), laid.wiring, index, built, input.source);
      }
      var source := if feed < 0 && input.sourced then FieldNamed(input.source) else None;
      var instance := New(registry, input.indicator, input.params, source);
      if instance.None? {
        return Err("input cannot be built");
      }
      InputExpands(name, instance.value, feed);
      Bind(name, instance.value, feed);
      r := Ok(());
    }

    /** What an input's private evaluation is, given the slot of whatever it reads. */
    lemma InputExpands(name: string, instance: Instance, feed: int)
      requires Wired(laid.wiring) && AllResolved(Names(), laid.wiring, index, built)
      requires name in inputs && InstanceOf(Names(), inputs[name]) == Some(instance)
      requires -1 <= feed < |laid.wiring.slots|
      requires Chained(inputs[name]) <==> feed != -1
      requires feed != -1 ==> inputs[name].source in index && index[inputs[name].source] == feed
      ensures From(registry, instance)
      ensures Expands(Names(), name, Pipe(instance, OutputOf(instance, inputs[name].output), Upstream(laid.wiring, feed)))
    {
      if feed != -1 {
        assert Resolved(Names(), laid.wiring, index, built, inputs[name].source);
      }
    }

    /** Attach an input's instance and remember where its declared line went. */
    method Bind(name: string, instance: Instance, feed: int)
      requires Valid() && name in inputs && name !in index
      requires From(registry, instance) && -1 <= feed < |laid.wiring.slots|
      requires Expands(Names(), name, Pipe(instance, OutputOf(instance, inputs[name].output), Upstream(laid.wiring, feed)))
      modifies this
      ensures Valid()
      ensures index.Keys == old(index.Keys) + {name}
    {
      ghost var before := laid.wiring;
      ghost var output := OutputOf(instance, inputs[name].output);
      var at := Attach(instance, feed, OutputOf(instance, inputs[name].output), name);
      Indexed(Names(), name, before, laid.wiring, index, built, Held(instance, feed), output, at);
      built := built[name := Held(instance, feed)];
      index := index[name := at];
    }

    /** Record every unit's warm-up and priming, and return the largest of each. */
    method Measure() returns (warmup: int, prime: int)
      requires Wired(laid.wiring) && Gauged()
      modifies this`laid
      ensures Wired(laid.wiring) && Grown(old(laid).wiring, laid.wiring) && Gauged()
      ensures |laid.wiring.units| == |old(laid).wiring.units| && laid.wiring.slots == old(laid).wiring.slots
      ensures Measured(laid.wiring)
      ensures LongestWarmup(laid.wiring, |laid.wiring.units|, warmup)
      ensures LongestPrime(laid.wiring, |laid.wiring.units|, prime)
    {
      var measured;
      measured, warmup, prime := MeasureUnits(laid.wiring);
      laid := laid.(wiring := measured);
    }

    /** One direction's contract: its entry, and the exit split into brackets and rule. */
    method LegOf(entry: Option<Node>, exit: Option<Node>, ghost formed: bool) returns (r: Result<Leg, string>)
      requires Valid() && LegCounted(entry) && LegCounted(exit)
      requires formed ==> Registered(registry) && Complete() && LegOk(Names(), entry, false) && LegOk(Names(), exit, true)
      modifies this`laid, this`gauges
      ensures Valid() && Grown(old(laid).wiring, laid.wiring)
      ensures r.Ok? ==> LegCompiled(Names(), laid.wiring, entry, exit, r.value)
      ensures formed ==> r.Ok?
    {
      if entry.None? {
        return Ok(Leg(None, None, None, None));
      }
      if formed {
        NodeIsConditional(Names(), entry.value, 1);
      }
      var rule :- RuleOf(entry.value);
      if exit.None? {
        return Ok(Leg(Some(rule), None, None, None));
      }
      ghost var before := laid.wiring;
      var h :- ExitOf(exit.value);
      TranscriptKept(Names(), before, laid.wiring, entry.value, rule);
      return Ok(Leg(Some(rule), h.rest, h.stop, h.target));
    }

    method ExitOf(exit: Node) returns (r: Result<Hoisted<Option<Rule>>, string>)
      requires Valid() && Counted(exit)
      modifies this`laid, this`gauges
      ensures Valid() && Grown(old(laid).wiring, laid.wiring)
      ensures r.Ok? ==> ExitCompiled(Names(), laid.wiring, exit, r.value)
      ensures Registered(registry) && Complete() && NodeOk(Names(), exit, 1, true) ==> r.Ok?
    {
      ExitReady(exit);
      var hoisted :- Hoist(exit, None, None);
      if hoisted.rest.None? {
        return Ok(Hoisted(hoisted.stop, hoisted.target, None));
      }
      ghost var between := laid.wiring;
      var residual :- RuleOf(hoisted.rest.value);
      BracketKept(registry, between, laid.wiring, hoisted.stop);
      BracketKept(registry, between, laid.wiring, hoisted.target);
      return Ok(Hoisted(hoisted.stop, hoisted.target, Some(residual)));
    }

    lemma ExitReady(exit: Node)
      requires Counted(exit)
      ensures Residue(exit).Some? ==> Counted(Residue(exit).value)
      ensures NodeOk(Names(), exit, 1, true) ==>
          LevelsOk(exit) && (Residue(exit).Some? ==> Conditional(Residue(exit).value) && Posed(Names(), Residue(exit).value))
    {
      ResidueIsCounted(exit);
      if NodeOk(Names(), exit, 1, true) {
        LevelsAreOk(Names(), exit, 1, true);
        if Residue(exit).Some? {
          ResidueHasNoBrackets(Names(), exit, 1, true);
        }
      }
    }
  }

  lemma AtrAvailable(registry: Registry, period: int)
    ensures Registered(registry) && 1 <= period <= MAX_PERIOD.Floor ==> AtrInstance(registry, period).Some?
  {
    if Registered(registry) && 1 <= period <= MAX_PERIOD.Floor {
      var values := map["period" := period as real];
      var kind := registry["atr"];
      assert kind.params[..0] == [];
      assert InRange(kind.params[0], ValueOf(kind.params[0], values));
      assert Fill(kind.params, values).Some?;
      assert "period" in Declared(kind.params);
    }
  }

  // ---------- the compiled plan ----------

  /** The wiring shares everything it can and nothing it cannot, and reads declared lines. */
  ghost predicate WiringCompiled(registry: Registry, w: Wiring)
    requires Wired(w)
  {
    && Interned(w)
    && (forall u :: 0 <= u < |w.units| ==> From(registry, w.units[u].instance))
    && (forall s :: 0 <= s < |w.slots| ==> Declares(w, s))
  }

  /** Every input has its slot, which stands for its private evaluation. */
  ghost predicate InputsCompiled(scope: Scope, w: Wiring, index: map<string, nat>)
    requires Wired(w)
  {
    forall name :: name in scope.inputs ==>
      name in index && index[name] < |w.slots| && Expands(scope, name, PipeOf(w, index[name]))
  }

  function Deepest(long: Leg, short: Leg): int {
    Max(Max(DepthOf(long.entry), DepthOf(long.exit)), Max(DepthOf(short.entry), DepthOf(short.exit)))
  }

  /** The depth is the deepest rule's; the warm-up is the longest of any unit and that depth
      more; the priming likewise, as far as the cap on it allows. */
  ghost predicate PlanMeasured(plan: Plan)
    requires Wired(plan.wiring)
  {
    var w := plan.wiring;
    && Measured(w)
    && plan.depth == Deepest(plan.long, plan.short)
    && LongestWarmup(w, |w.units|, plan.warmup - plan.depth)
    && exists prime :: LongestPrime(w, |w.units|, prime) && plan.primeBars == Min(prime + plan.depth, MAX_PRIME_BARS)
  }

  /** What compilation promises: a shared wiring, a slot for each input, legs that say what
      their side of the specification says, and how long all that takes to be known. */
  ghost predicate Compiled(registry: Registry, spec: Spec, plan: Plan) {
    && plan.spec == spec
    && Ready(plan)
    && WiringCompiled(registry, plan.wiring)
    && InputsCompiled(Scope(registry, spec.inputs), plan.wiring, plan.index)
    && LegsCompiled(Scope(registry, spec.inputs), plan.wiring, spec, plan.long, plan.short)
    && PlanMeasured(plan)
  }

  lemma InputsKept(scope: Scope, w: Wiring, v: Wiring, index: map<string, nat>, built: map<string, Held>)
    requires Wired(w) && Wired(v) && Grown(w, v) && AllResolved(scope, w, index, built)
    requires forall name :: name in scope.inputs ==> name in index
    ensures InputsCompiled(scope, v, index)
  {
    forall name | name in scope.inputs
      ensures name in index && index[name] < |v.slots| && Expands(scope, name, PipeOf(v, index[name]))
    {
      assert Resolved(scope, w, index, built, name);
      PipeKept(w, v, index[name]);
    }
  }

  lemma LegIsUsable(scope: Scope, entry: Option<Node>, exit: Option<Node>, leg: Leg, plan: Plan)
    requires Wired(plan.wiring) && LegCompiled(scope, plan.wiring, entry, exit, leg)
    requires DepthOf(leg.entry) <= plan.depth && DepthOf(leg.exit) <= plan.depth
    ensures LegUsable(leg, plan)
  {
    if entry.Some? {
      TranscriptShaped(scope, plan.wiring, entry.value, leg.entry.value);
      if leg.exit.Some? {
        TranscriptShaped(scope, plan.wiring, Residue(exit.value).value, leg.exit.value);
      }
    }
  }

  ghost predicate LegsCompiled(scope: Scope, w: Wiring, spec: Spec, long: Leg, short: Leg)
    requires Wired(w)
  {
    && LegCompiled(scope, w, spec.entry.long, ExitLeg(spec, false), long)
    && LegCompiled(scope, w, spec.entry.short, ExitLeg(spec, true), short)
  }

  ghost predicate LegsOk(scope: Scope, spec: Spec) {
    && LegOk(scope, spec.entry.long, false) && LegOk(scope, ExitLeg(spec, false), true)
    && LegOk(scope, spec.entry.short, false) && LegOk(scope, ExitLeg(spec, true), true)
  }

  predicate LegsCounted(spec: Spec) {
    && LegCounted(spec.entry.long) && LegCounted(ExitLeg(spec, false))
    && LegCounted(spec.entry.short) && LegCounted(ExitLeg(spec, true))
  }

  lemma PlanIsMeasured(plan: Plan, warmup: int, prime: int)
    requires Wired(plan.wiring) && Measured(plan.wiring) && plan.depth == Deepest(plan.long, plan.short)
    requires LongestWarmup(plan.wiring, |plan.wiring.units|, warmup) && plan.warmup == warmup + plan.depth
    requires LongestPrime(plan.wiring, |plan.wiring.units|, prime)
    requires plan.primeBars == Min(prime + plan.depth, MAX_PRIME_BARS)
    ensures PlanMeasured(plan)
  {
    assert plan.warmup - plan.depth == warmup;
  }

  lemma WiringKept(registry: Registry, l: Layout, w: Wiring)
    requires Sound(registry, l) && Wired(w)
    requires Grown(l.wiring, w) && |w.units| == |l.wiring.units| && w.slots == l.wiring.slots
    ensures WiringCompiled(registry, w)
  {
    SoundIsInterned(registry, l);
    MeasuringKeepsInterned(l.wiring, w);
    forall s | 0 <= s < |w.slots| ensures Declares(w, s) {
      assert Declares(l.wiring, s);
    }
  }

  lemma LegsKept(scope: Scope, w: Wiring, v: Wiring, spec: Spec, long: Leg, short: Leg)
    requires Wired(w) && Wired(v) && Grown(w, v) && LegsCompiled(scope, w, spec, long, short)
    ensures LegsCompiled(scope, v, spec, long, short)
  {
    LegKept(scope, w, v, spec.entry.long, ExitLeg(spec, false), long);
    LegKept(scope, w, v, spec.entry.short, ExitLeg(spec, true), short);
  }

  lemma LegsAreUsable(scope: Scope, spec: Spec, plan: Plan)
    requires Equipped(plan) && LegsCompiled(scope, plan.wiring, spec, plan.long, plan.short)
    requires plan.depth == Deepest(plan.long, plan.short)
    ensures Ready(plan)
  {
    LegIsUsable(scope, spec.entry.long, ExitLeg(spec, false), plan.long, plan);
    LegIsUsable(scope, spec.entry.short, ExitLeg(spec, true), plan.short, plan);
  }

  /** Measuring the units changes nothing that was compiled. */
  lemma {:induction false} PlanCloses(registry: Registry, spec: Spec, l: Layout, built: map<string, Held>, plan: Plan)
    requires Sound(registry, l) && Equipped(plan) && plan.spec == spec && PlanMeasured(plan)
    requires Grown(l.wiring, plan.wiring) && |plan.wiring.units| == |l.wiring.units| && plan.wiring.slots == l.wiring.slots
    requires AllResolved(Scope(registry, spec.inputs), l.wiring, plan.index, built)
    requires forall name :: name in spec.inputs ==> name in plan.index
    requires LegsCompiled(Scope(registry, spec.inputs), l.wiring, spec, plan.long, plan.short)
    ensures Compiled(registry, spec, plan)
  {
    var scope := Scope(registry, spec.inputs);
    WiringKept(registry, l, plan.wiring);
    InputsKept(scope, l.wiring, plan.wiring, plan.index, built);
    LegsKept(scope, l.wiring, plan.wiring, spec, plan.long, plan.short);
    LegsAreUsable(scope, spec, plan);
  }

  /** Measure the units and close the plan. */
  method Finish(b: Builder, spec: Spec, long: Leg, short: Leg) returns (plan: Plan)
    requires b.Valid() && b.Complete() && b.inputs == spec.inputs
    requires LegsCompiled(b.Names(), b.laid.wiring, spec, long, short)
    modifies b
    ensures Compiled(b.registry, spec, plan)
  {
    ghost var before, built := b.laid, b.built;
    var depth := Deepest(long, short);
    var warmup, prime := b.Measure();
    plan := Plan(spec, b.laid.wiring, b.index, long, short, depth, warmup + depth,
                 Min(prime + depth, MAX_PRIME_BARS), b.gauges);
    PlanIsMeasured(plan, warmup, prime);
    PlanCloses(b.registry, spec, before, built, plan);
  }

  method CompileLegs(b: Builder, spec: Spec, ghost formed: bool) returns (r: Result<(Leg, Leg), string>)
    requires b.Valid() && b.Complete() && b.inputs == spec.inputs && LegsCounted(spec)
    requires formed ==> Registered(b.registry) && LegsOk(b.Names(), spec)
    modifies b`laid, b`gauges
    ensures b.Valid()
    ensures r.Ok? ==> LegsCompiled(b.Names(), b.laid.wiring, spec, r.value.0, r.value.1)
    ensures formed ==> r.Ok?
  {
    var long :- b.LegOf(spec.entry.long, ExitLeg(spec, false), formed);
    ghost var w := b.laid.wiring;
    var short :- b.LegOf(spec.entry.short, ExitLeg(spec, true), formed);
    LegKept(b.Names(), w, b.laid.wiring, spec.entry.long, ExitLeg(spec, false), long);
    r := Ok((long, short));
  }

  method Build(b: Builder, spec: Spec, ghost formed: bool) returns (r: Result<Plan, string>)
    requires b.Valid() && b.index == map[] && b.inputs == spec.inputs && LegsCounted(spec)
    requires formed ==> Registered(b.registry) && b.InputsOk() && LegsOk(b.Names(), spec)
    modifies b
    ensures r.Ok? ==> Compiled(b.registry, spec, r.value)
    ensures formed ==> r.Ok?
  {
    var _ :- b.Inputs(formed);
    r := PlanLegs(b, spec, formed);
  }

  method PlanLegs(b: Builder, spec: Spec, ghost formed: bool) returns (r: Result<Plan, string>)
    requires b.Valid() && b.Complete() && b.inputs == spec.inputs && LegsCounted(spec)
    requires formed ==> Registered(b.registry) && LegsOk(b.Names(), spec)
    modifies b
    ensures r.Ok? ==> Compiled(b.registry, spec, r.value)
    ensures formed ==> r.Ok?
  {
    var legs :- CompileLegs(b, spec, formed);
    var plan := Finish(b, spec, legs.0, legs.1);
    r := Ok(plan);
  }

  method Compile(registry: Registry, spec: Spec) returns (r: Result<Plan, string>)
    requires LegsCounted(spec)
    ensures r.Ok? ==> Compiled(registry, spec, r.value)
    ensures Registered(registry) && WellFormed(registry, spec) ==> r.Ok?
  {
    var b := new Builder(registry, spec.inputs);
    r := Build(b, spec, Registered(registry) && WellFormed(registry, spec));
  }

  /** What the plan of a well-formed specification is made of is counted, so it compiles. */
  lemma WellFormedIsCounted(registry: Registry, spec: Spec)
    requires WellFormed(registry, spec)
    ensures LegsCounted(spec)
  {
    var scope := Scope(registry, spec.inputs);
    if spec.entry.long.Some? {
      NodeIsCounted(scope, spec.entry.long.value, 1, false);
    }
    if spec.entry.short.Some? {
      NodeIsCounted(scope, spec.entry.short.value, 1, false);
    }
    if ExitLeg(spec, false).Some? {
      NodeIsCounted(scope, ExitLeg(spec, false).value, 1, true);
    }
    if ExitLeg(spec, true).Some? {
      NodeIsCounted(scope, ExitLeg(spec, true).value, 1, true);
    }
  }
}
