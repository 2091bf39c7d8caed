/** What a specification means, before any compilation: every input owns a private
    indicator fed by its own upstream, and rules are judged on the whole history. */
module Meanings {
  import opened Outcomes
  import opened Numbers
  import opened Bars
  import opened Indicators
  import opened Specs
  import opened Rules
  import opened Wirings
  import opened Forms

  function OutputOf(instance: Instance, name: string): nat {
    IndexOf(instance.kind.outputs, name)
  }

  /** The position of a line among an indicator's outputs, or 0. */
  function IndexOf(names: seq<string>, name: string): (i: nat)
    ensures name in names ==> i < |names| && names[i] == name
    ensures name !in names ==> i == 0
  {
    if name !in names then 0
    else if names[0] == name then 0
    else 1 + IndexOf(names[1..], name)
  }

  /** The indicator an input asks for, read off its source when that is a price. */
  function InstanceOf(scope: Scope, x: Input): Option<Instance> {
    New(scope.registry, x.indicator, x.params, if Chained(x) then None else SourceOf(x))
  }

  /** `p` is the private evaluation of input `name`: its own indicator, fed by a private
      evaluation of whatever it reads. */
  ghost predicate Expands(scope: Scope, name: string, p: Pipe)
    decreases p
  {
    && name in scope.inputs
    && InstanceOf(scope, scope.inputs[name]) == Some(p.instance)
    && p.output == OutputOf(p.instance, scope.inputs[name].output)
    && (Chained(scope.inputs[name]) <==> p.feed.Some?)
    && (p.feed.Some? ==> Expands(scope, scope.inputs[name].source, p.feed.value))
  }

  lemma {:induction false} ExpansionUnique(scope: Scope, name: string, p: Pipe, q: Pipe)
    requires Expands(scope, name, p) && Expands(scope, name, q)
    ensures p == q
    decreases p
  {
    if p.feed.Some? {
      ExpansionUnique(scope, scope.inputs[name].source, p.feed.value, q.feed.value);
    }
  }

  /** The private evaluation of one line of an input. */
  ghost predicate IsLine(scope: Scope, name: string, output: string, p: Pipe) {
    exists base ::
      && Expands(scope, name, base)
      && p == if output == "" then base else Pipe(base.instance, OutputOf(base.instance, output), base.feed)
  }

  ghost function LineOf(scope: Scope, name: string, output: string): Option<Pipe> {
    if p: Pipe :| IsLine(scope, name, output, p) then Some(p) else None
  }

  lemma LineIs(scope: Scope, name: string, output: string, base: Pipe)
    requires Expands(scope, name, base)
    ensures LineOf(scope, name, output) ==
        Some(if output == "" then base else Pipe(base.instance, OutputOf(base.instance, output), base.feed))
  {
    var p := if output == "" then base else Pipe(base.instance, OutputOf(base.instance, output), base.feed);
    assert IsLine(scope, name, output, p);
    forall q | IsLine(scope, name, output, q)
      ensures p == q
    {
      var other :| Expands(scope, name, other)
        && q == if output == "" then other else Pipe(other.instance, OutputOf(other.instance, output), other.feed);
      ExpansionUnique(scope, name, base, other);
    }
  }

  /** An operand's value some bars back, on the whole history. */
  ghost function OperandAt(scope: Scope, o: Operand, h: seq<Sample>, extra: int): Option<real> {
    match o
    case Literal(value) => Some(value)
    case FromField(field, back) =>
      if 0 <= back + extra < |h| then Some(Price(field, h[|h| - 1 - (back + extra)])) else None
    case FromInput(name, output, back) =>
      var line := LineOf(scope, name, output);
      if line.Some? && 0 <= back + extra < |h| then PipeValue(line.value, h[..|h| - (back + extra)]) else None
  }

  /** Did the operand move the right way between bar k+1 and bar k, counting back? */
  ghost function Moved(scope: Scope, op: Comparator, o: Operand, h: seq<Sample>, k: int): Verdict {
    var now, before := OperandAt(scope, o, h, k), OperandAt(scope, o, h, k + 1);
    if now.None? || before.None? then Unknown
    else if op == Falling then if before.value > now.value then Yes else No
    else if now.value > before.value then Yes
    else No
  }

  ghost predicate MovedFor(scope: Scope, op: Comparator, o: Operand, h: seq<Sample>, bars: int) {
    forall k :: 0 <= k < bars ==> Moved(scope, op, o, h, k) == Yes
  }

  ghost predicate FirstUnmet(scope: Scope, op: Comparator, o: Operand, h: seq<Sample>, k: int) {
    0 <= k && Moved(scope, op, o, h, k) != Yes && MovedFor(scope, op, o, h, k)
  }

  function BarCount(op: Comparator, operands: seq<Operand>): int {
    if Trending(op) && |operands| > 1 then
      if operands[1].Literal? then Truncate(operands[1].value) else 0
    else 1
  }

  predicate Within(gap: real, bound: real) {
    -bound <= gap <= bound
  }

  /** What the five plain comparisons say of two numbers; equal is to within a billionth, of
      one or of either number. */
  predicate Holds(op: Comparator, x: real, y: real) {
    match op
    case GT => x > y
    case LT => x < y
    case GTE => !(x < y)
    case LTE => !(x > y)
    case EQ =>
      || Within(x - y, 0.000000001)
      || Within(x - y, 0.000000001 * x) || Within(x - y, -0.000000001 * x)
      || Within(x - y, 0.000000001 * y) || Within(x - y, -0.000000001 * y)
    case _ => false
  }

  /** The verdict of one comparison.  A trend holds when every step did; otherwise the
      step nearest the present that did not decides, unknown or false. */
  ghost function Judged(scope: Scope, op: Comparator, operands: seq<Operand>, h: seq<Sample>): Verdict
    requires |operands| == Arity(op).1
  {
    var a, b := OperandAt(scope, operands[0], h, 0), OperandAt(scope, operands[1], h, 0);
    if Trending(op) then
      if k: int :| FirstUnmet(scope, op, operands[0], h, k) && k < BarCount(op, operands)
      then Moved(scope, op, operands[0], h, k) else Yes
    else if Crossing(op) then
      var c, d := OperandAt(scope, operands[0], h, 1), OperandAt(scope, operands[1], h, 1);
      if a.None? || b.None? || c.None? || d.None? then Unknown
      else if op == CrossesAbove then if a.value > b.value && !(c.value > d.value) then Yes else No
      else if a.value < b.value && !(c.value < d.value) then Yes
      else No
    else if op == Between then
      var high := OperandAt(scope, operands[2], h, 0);
      if a.None? || b.None? || high.None? then Unknown
      else if a.value < b.value || a.value > high.value then No
      else Yes
    else if a.None? || b.None? then Unknown
    else if Holds(op, a.value, b.value) then Yes
    else No
  }

  /** The three-valued meaning of a rule: Kleene's connectives over its comparisons.  A
      stop or a target is a resting order, never a condition, and reads as false. */
  ghost function Meaning(scope: Scope, node: Node, h: seq<Sample>): Verdict
    decreases node
  {
    match node
    case All(nodes) =>
      if exists i :: 0 <= i < |nodes| && Meaning(scope, nodes[i], h) == No then No
      else if exists i :: 0 <= i < |nodes| && Meaning(scope, nodes[i], h) == Unknown then Unknown
      else Yes
    case Any(nodes) =>
      if exists i :: 0 <= i < |nodes| && Meaning(scope, nodes[i], h) == Yes then Yes
      else if exists i :: 0 <= i < |nodes| && Meaning(scope, nodes[i], h) == Unknown then Unknown
      else No
    case Not(inner) =>
      (match Meaning(scope, inner, h) case Yes => No case No => Yes case Unknown => Unknown)
    case Compare(op, operands) =>
      if |operands| == Arity(op).1 then Judged(scope, op, operands, h) else Unknown
    case StopLoss(_) => No
    case TakeProfit(_) => No
  }

  // ---------- compiled rules transcribe specified ones ----------

  ghost predicate TermTranscribes(scope: Scope, w: Wiring, o: Operand, t: Term)
    requires Wired(w)
  {
    match o
    case Literal(value) => t == LiteralTerm(value)
    case FromField(field, back) => t == FieldTerm(field, back)
    case FromInput(name, output, back) =>
      t.SlotTerm? && t.back == back && 0 <= t.slot < |w.slots|
      && LineOf(scope, name, output) == Some(PipeOf(w, t.slot))
  }

  /** Shape for shape, with every operand's slot standing for that operand's line. */
  ghost predicate Transcribes(scope: Scope, w: Wiring, node: Node, rule: Rule)
    requires Wired(w)
    decreases node
  {
    match node
    case All(nodes) =>
      rule.AllRule? && |rule.rules| == |nodes|
      && forall i :: 0 <= i < |nodes| ==> Transcribes(scope, w, nodes[i], rule.rules[i])
    case Any(nodes) =>
      rule.AnyRule? && |rule.rules| == |nodes|
      && forall i :: 0 <= i < |nodes| ==> Transcribes(scope, w, nodes[i], rule.rules[i])
    case Not(inner) => rule.NotRule? && Transcribes(scope, w, inner, rule.rule)
    case Compare(op, operands) =>
      && |operands| == Arity(op).1
      && rule.CompareRule? && rule.op == op && rule.bars == BarCount(op, operands)
      && |rule.terms| == (if Trending(op) then 1 else |operands|)
      && forall i :: 0 <= i < |rule.terms| ==> TermTranscribes(scope, w, operands[i], rule.terms[i])
    case _ => false
  }

  lemma {:induction false} TranscriptShaped(scope: Scope, w: Wiring, node: Node, rule: Rule)
    requires Wired(w) && Transcribes(scope, w, node, rule)
    ensures Shaped(rule)
    decreases node
  {
    match node
    case All(nodes) =>
      forall i | 0 <= i < |nodes| ensures Shaped(rule.rules[i]) {
        TranscriptShaped(scope, w, nodes[i], rule.rules[i]);
      }
    case Any(nodes) =>
      forall i | 0 <= i < |nodes| ensures Shaped(rule.rules[i]) {
        TranscriptShaped(scope, w, nodes[i], rule.rules[i]);
      }
    case Not(inner) => TranscriptShaped(scope, w, inner, rule.rule);
    case Compare(_, _) =>
  }

  lemma TermMeans(scope: Scope, w: Wiring, o: Operand, t: Term, h: seq<Sample>, extra: int)
    requires Wired(w) && TermTranscribes(scope, w, o, t)
    ensures At(t, History(w, h), extra) == OperandAt(scope, o, h, extra)
  {
    if o.FromInput? && 0 <= o.back + extra < |h| {
      SharingIsSound(w, h[..|h| - (o.back + extra)], t.slot);
    }
  }

  lemma TrendStepMeans(scope: Scope, w: Wiring, op: Comparator, o: Operand, t: Term, h: seq<Sample>, step: nat, bars: int)
    requires Wired(w) && TermTranscribes(scope, w, o, t) && step < bars && Trending(op)
    ensures Trend(op, t, History(w, h), step, bars) ==
      if Moved(scope, op, o, h, step) == Yes then Trend(op, t, History(w, h), step + 1, bars) else Moved(scope, op, o, h, step)
  {
    TermMeans(scope, w, o, t, h, step);
    TermMeans(scope, w, o, t, h, step + 1);
  }

  lemma {:induction false} TrendMeans(scope: Scope, w: Wiring, op: Comparator, o: Operand, t: Term, h: seq<Sample>, step: int, bars: int)
    requires Wired(w) && TermTranscribes(scope, w, o, t) && Trending(op)
    requires 0 <= step && MovedFor(scope, op, o, h, step)
    ensures var v := Trend(op, t, History(w, h), step, bars);
      (v == Yes && (step <= bars ==> MovedFor(scope, op, o, h, bars)))
      || exists k :: k < bars && FirstUnmet(scope, op, o, h, k) && v == Moved(scope, op, o, h, k)
    decreases bars - step
  {
    if step < bars {
      TrendStepMeans(scope, w, op, o, t, h, step, bars);
      if Moved(scope, op, o, h, step) == Yes {
        TrendMeans(scope, w, op, o, t, h, step + 1, bars);
      } else {
        assert FirstUnmet(scope, op, o, h, step);
      }
    }
  }

  lemma NearlyIs(x: real, y: real)
    ensures Nearly(x, y) <==> Holds(EQ, x, y)
  {
  }

  lemma PlainMeans(op: Comparator, a: Option<real>, b: Option<real>)
    requires !Trending(op) && !Crossing(op) && op != Between
    ensures Relate(op, a, b) == if a.None? || b.None? then Unknown else if Holds(op, a.value, b.value) then Yes else No
  {
    if a.Some? && b.Some? {
      NearlyIs(a.value, b.value);
    }
  }

  /** A transcript, evaluated on the shared wiring's history, gives the specified rule's
      own verdict, in which nothing is shared. */
  lemma {:induction false} TranscriptMeans(scope: Scope, w: Wiring, node: Node, rule: Rule, h: seq<Sample>)
    requires Wired(w) && Transcribes(scope, w, node, rule)
    ensures Shaped(rule)
    ensures Eval(rule, History(w, h)) == Meaning(scope, node, h)
    decreases node
  {
    TranscriptShaped(scope, w, node, rule);
    var f := History(w, h);
    match node
    case All(nodes) =>
      forall i | 0 <= i < |nodes| ensures Eval(rule.rules[i], f) == Meaning(scope, nodes[i], h) {
        TranscriptMeans(scope, w, nodes[i], rule.rules[i], h);
      }
      AllIsKleene(rule.rules, f, true);
    case Any(nodes) =>
      forall i | 0 <= i < |nodes| ensures Eval(rule.rules[i], f) == Meaning(scope, nodes[i], h) {
        TranscriptMeans(scope, w, nodes[i], rule.rules[i], h);
      }
      AnyIsKleene(rule.rules, f, true);
    case Not(inner) => TranscriptMeans(scope, w, inner, rule.rule, h);
    case Compare(op, operands) =>
      forall i, extra | 0 <= i < |rule.terms|
        ensures At(rule.terms[i], f, extra) == OperandAt(scope, operands[i], h, extra)
      {
        TermMeans(scope, w, operands[i], rule.terms[i], h, extra);
      }
      if !Trending(op) && !Crossing(op) && op != Between {
        PlainMeans(op, At(rule.terms[0], f, 0), At(rule.terms[1], f, 0));
      }
      if Trending(op) {
        TrendMeans(scope, w, op, operands[0], rule.terms[0], h, 0, rule.bars);
      }
  }

  lemma {:induction false} TranscriptKept(scope: Scope, w: Wiring, v: Wiring, node: Node, rule: Rule)
    requires Wired(w) && Wired(v) && Grown(w, v) && Transcribes(scope, w, node, rule)
    ensures Transcribes(scope, v, node, rule)
    decreases node
  {
    match node
    case All(nodes) =>
      forall i | 0 <= i < |nodes| ensures Transcribes(scope, v, nodes[i], rule.rules[i]) {
        TranscriptKept(scope, w, v, nodes[i], rule.rules[i]);
      }
    case Any(nodes) =>
      forall i | 0 <= i < |nodes| ensures Transcribes(scope, v, nodes[i], rule.rules[i]) {
        TranscriptKept(scope, w, v, nodes[i], rule.rules[i]);
      }
    case Not(inner) => TranscriptKept(scope, w, v, inner, rule.rule);
    case Compare(op, operands) =>
      forall i | 0 <= i < |rule.terms| ensures TermTranscribes(scope, v, operands[i], rule.terms[i]) {
        if operands[i].FromInput? {
          PipeKept(w, v, rule.terms[i].slot);
        }
      }
  }
}
