/** What a compiled plan decides, end to end: on the fixed ring, with shared indicators and
    hoisted brackets, it decides what the specification means on the whole history. */
module Compilation {
  import opened Outcomes
  import opened Bars
  import opened Indicators
  import opened Specs
  import opened Rules
  import opened Wirings
  import opened Tapes
  import opened Forms
  import opened Meanings
  import opened Hoisting
  import opened Compiler

  /** Every input's slot holds, after any history, what its unshared evaluation gives. */
  lemma InputSlotIsPrivateValue(registry: Registry, spec: Spec, plan: Plan, name: string, p: Pipe, h: seq<Sample>)
    requires Compiled(registry, spec, plan) && name in spec.inputs && h != []
    requires Expands(Scope(registry, spec.inputs), name, p)
    ensures name in plan.index && plan.index[name] < |plan.wiring.slots|
    ensures SlotValue(plan.wiring, h, plan.index[name]) == PipeValue(p, h)
  {
    ExpansionUnique(Scope(registry, spec.inputs), name, p, PipeOf(plan.wiring, plan.index[name]));
    SharingIsSound(plan.wiring, h, plan.index[name]);
  }

  /** A leg fires on the unbounded history exactly when its rule, as specified, is true; an
      exit's brackets count as false. */
  lemma LegMeans(scope: Scope, w: Wiring, entry: Option<Node>, exit: Option<Node>, leg: Leg, h: seq<Sample>)
    requires Wired(w) && LegCompiled(scope, w, entry, exit, leg)
    ensures leg.entry.Some? ==> Shaped(leg.entry.value)
    ensures leg.exit.Some? ==> Shaped(leg.exit.value)
    ensures Fires(leg.entry, History(w, h)) <==> entry.Some? && Meaning(scope, entry.value, h) == Yes
    ensures Fires(leg.exit, History(w, h)) <==> entry.Some? && exit.Some? && Meaning(scope, exit.value, h) == Yes
  {
    if entry.Some? {
      TranscriptMeans(scope, w, entry.value, leg.entry.value, h);
      if exit.Some? {
        HoistingKeepsVerdict(scope, exit.value, h);
        if leg.exit.Some? {
          TranscriptMeans(scope, w, Residue(exit.value).value, leg.exit.value, h);
        }
      }
    }
  }

  /** The tape's own answer: after any bars at all, entry and exit fire on the ring exactly
      when the specification's rules are true of everything pushed since the reset. */
  lemma TapeDecides(registry: Registry, spec: Spec, tape: Tape, short: bool)
    requires Compiled(registry, spec, tape.plan) && tape.Valid()
    ensures var leg, scope := LegOf(tape.plan, short), Scope(registry, spec.inputs);
      && (leg.entry.Some? ==> Shaped(leg.entry.value))
      && (leg.exit.Some? ==> Shaped(leg.exit.value))
      && (Fires(leg.entry, tape.View().AsFrame()) <==>
            EntryLeg(spec, short).Some? && Meaning(scope, EntryLeg(spec, short).value, tape.hist) == Yes)
      && (Fires(leg.exit, tape.View().AsFrame()) <==>
            EntryLeg(spec, short).Some? && ExitLeg(spec, short).Some?
            && Meaning(scope, ExitLeg(spec, short).value, tape.hist) == Yes)
  {
    var leg := LegOf(tape.plan, short);
    LegMeans(Scope(registry, spec.inputs), tape.plan.wiring, EntryLeg(spec, short), ExitLeg(spec, short), leg, tape.hist);
    if leg.entry.Some? {
      tape.RingVerdict(leg.entry.value);
    }
    if leg.exit.Some? {
      tape.RingVerdict(leg.exit.value);
    }
  }

  lemma WellFormedLeg(registry: Registry, spec: Spec, short: bool)
    requires WellFormed(registry, spec)
    ensures LegOk(Scope(registry, spec.inputs), EntryLeg(spec, short), false)
    ensures LegOk(Scope(registry, spec.inputs), ExitLeg(spec, short), true)
    ensures ExitLeg(spec, short).Some? ==> EntryLeg(spec, short).Some?
  {
  }

  /** Each leg gets its stop exactly when its exit carries one, and that one; the same for
      its target: a well-formed exit never holds two of either. */
  lemma BracketsHoisted(scope: Scope, w: Wiring, entry: Option<Node>, exit: Option<Node>, leg: Leg)
    requires Wired(w) && LegCompiled(scope, w, entry, exit, leg)
    requires LegOk(scope, exit, true) && (exit.Some? ==> entry.Some?)
    ensures leg.stop.Some? <==> exit.Some? && Stops(exit.value) != []
    ensures leg.stop.Some? ==> Stops(exit.value) == [leg.stop.value.level]
    ensures leg.target.Some? <==> exit.Some? && Targets(exit.value) != []
    ensures leg.target.Some? ==> Targets(exit.value) == [leg.target.value.level]
  {
  }

  /** Every plan of a well-formed specification meets those terms, long and short. */
  lemma PlanBracketsHoisted(registry: Registry, spec: Spec, plan: Plan, short: bool)
    requires WellFormed(registry, spec) && Compiled(registry, spec, plan)
    ensures var leg, exit := LegOf(plan, short), ExitLeg(spec, short);
      && (leg.stop.Some? ==> exit.Some? && Stops(exit.value) == [leg.stop.value.level])
      && (leg.stop.None? ==> exit.None? || Stops(exit.value) == [])
      && (leg.target.Some? ==> exit.Some? && Targets(exit.value) == [leg.target.value.level])
      && (leg.target.None? ==> exit.None? || Targets(exit.value) == [])
  {
    WellFormedLeg(registry, spec, short);
    BracketsHoisted(Scope(registry, spec.inputs), plan.wiring, EntryLeg(spec, short), ExitLeg(spec, short), LegOf(plan, short));
  }

  lemma {:induction false} TranscriptReads(scope: Scope, w: Wiring, node: Node, rule: Rule)
    requires Wired(w) && Transcribes(scope, w, node, rule) && Posed(scope, node)
    ensures Rules.Reads(rule, |w.slots|)
    decreases node
  {
    match node
    case All(nodes) =>
      forall i | 0 <= i < |nodes| ensures Rules.Reads(rule.rules[i], |w.slots|) {
        TranscriptReads(scope, w, nodes[i], rule.rules[i]);
      }
    case Any(nodes) =>
      forall i | 0 <= i < |nodes| ensures Rules.Reads(rule.rules[i], |w.slots|) {
        TranscriptReads(scope, w, nodes[i], rule.rules[i]);
      }
    case Not(inner) => TranscriptReads(scope, w, inner, rule.rule);
    case Compare(op, operands) =>
      forall i | 0 <= i < |rule.terms| ensures ReadsTerm(rule.terms[i], |w.slots|) {
        assert TermTranscribes(scope, w, operands[i], rule.terms[i]) && OperandOk(scope, operands[i]);
      }
  }

  lemma PlanIsContracted(registry: Registry, spec: Spec, plan: Plan)
    requires Registered(registry) && Compiled(registry, spec, plan)
    ensures Contracted(plan.wiring)
  {
    var w := plan.wiring;
    forall u | 0 <= u < |w.units|
      ensures Lawful(w.units[u].instance.study, |w.units[u].instance.kind.outputs|) && w.units[u].instance.kind.outputs != []
    {
      assert From(registry, w.units[u].instance);
      assert WellMade(w.units[u].instance.key.name, w.units[u].instance.kind);
    }
    forall s | 0 <= s < |w.slots|
      ensures Placed(w, s) && w.slots[s].output < |w.units[w.slots[s].unit].instance.kind.outputs|
    {
      assert Placed(w, s) && Declares(w, s);
    }
  }

  /** Once more bars than the plan's warm-up have been pushed, no rule of a well-formed
      strategy is ever unknown. */
  lemma KnownAfterPlanWarmup(registry: Registry, spec: Spec, plan: Plan, short: bool, h: seq<Sample>)
    requires Registered(registry) && WellFormed(registry, spec) && Compiled(registry, spec, plan)
    requires |h| > plan.warmup
    ensures var leg := LegOf(plan, short);
      && (leg.entry.Some? ==> Shaped(leg.entry.value) && Eval(leg.entry.value, History(plan.wiring, h)) != Unknown)
      && (leg.exit.Some? ==> Shaped(leg.exit.value) && Eval(leg.exit.value, History(plan.wiring, h)) != Unknown)
  {
    var scope, leg, w := Scope(registry, spec.inputs), LegOf(plan, short), plan.wiring;
    var entry, exit := EntryLeg(spec, short), ExitLeg(spec, short);
    PlanIsContracted(registry, spec, plan);
    assert LegCompiled(scope, w, entry, exit, leg) && LegUsable(leg, plan);
    WellFormedLeg(registry, spec, short);
    if entry.Some? {
      NodeIsConditional(scope, entry.value, 1);
      TranscriptReads(scope, w, entry.value, leg.entry.value);
      NeverUnknownAfterWarmup(w, h, leg.entry.value, plan.warmup - plan.depth, plan.depth);
      if leg.exit.Some? {
        ResidueHasNoBrackets(scope, exit.value, 1, true);
        TranscriptReads(scope, w, Residue(exit.value).value, leg.exit.value);
        NeverUnknownAfterWarmup(w, h, leg.exit.value, plan.warmup - plan.depth, plan.depth);
      }
    }
  }
}
