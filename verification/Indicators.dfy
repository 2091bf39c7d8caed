/** The indicator registry and the stateful indicators it makes.  What an indicator
    computes is a Study: its readiness and its values as functions of everything it has
    been fed since it was last reset. */
module Indicators {
  import opened Outcomes
  import opened Numbers
  import opened Bars
  import opened Text

  datatype Study = Study(
    ready: seq<Sample> -> bool,
    values: seq<Sample> -> seq<real>,
    warmup: nat,
    prime: nat)

  /** The contract a registered indicator owes: ready exactly once Warmup()+1 bars have
      been fed, and from then on one value per declared output. */
  ghost predicate Lawful(study: Study, outputs: nat) {
    && (forall fed: seq<Sample> :: study.ready(fed) <==> |fed| > study.warmup)
    && (forall fed: seq<Sample> :: study.ready(fed) ==> |study.values(fed)| == outputs)
  }

  class Indicator {
    const study: Study
    var fed: seq<Sample>

    constructor (study: Study)
      ensures this.study == study && fed == []
    {
      this.study := study;
      fed := [];
    }

    method Update(c: Sample)
      modifies this
      ensures fed == old(fed) + [c]
    {
      fed := fed + [c];
    }

    predicate Ready()
      reads this
    {
      study.ready(fed)
    }

    function Values(): seq<real>
      reads this
    {
      study.values(fed)
    }

    method Reset()
      modifies this
      ensures fed == []
    {
      fed := [];
    }
  }

  datatype ParamKind = IntParam | FloatParam

  datatype Param = Param(name: string, kind: ParamKind, standard: real, low: real, high: real)

  type Params = map<string, real>

  /** One registered indicator: its declared parameters and lines, the check it makes
      across its parameters, and its constructor. */
  datatype Kind = Kind(
    name: string,
    sourced: bool,
    params: seq<Param>,
    outputs: seq<string>,
    accepts: Params -> bool,
    make: (Params, Field) -> Study)

  type Registry = map<string, Kind>

  predicate Distinct(params: seq<Param>) {
    forall i, j :: 0 <= i < j < |params| ==> params[i].name != params[j].name
  }

  /** What registration checks, and what every registered indicator is written to obey. */
  ghost predicate Registered(registry: Registry) {
    && "atr" in registry
    && IsAtr(registry["atr"])
    && forall name :: name in registry ==> WellMade(name, registry[name])
  }

  const MAX_PERIOD := 2000.0

  ghost predicate IsAtr(kind: Kind) {
    && !kind.sourced
    && kind.params == [Param("period", IntParam, 14.0, 1.0, MAX_PERIOD)]
    && kind.outputs == ["atr"]
    && forall params :: kind.accepts(params)
  }

  ghost predicate WellMade(name: string, kind: Kind) {
    && kind.name == name
    && Plain(name)
    && Distinct(kind.params)
    && (forall i :: 0 <= i < |kind.params| ==> Plain(kind.params[i].name))
    && (forall i :: 0 <= i < |kind.params| ==>
          kind.params[i].low <= kind.params[i].standard <= kind.params[i].high)
    && kind.outputs != []
    && (forall i :: 0 <= i < |kind.outputs| ==> Plain(kind.outputs[i]))
    && (forall params, source :: Lawful(kind.make(params, source), |kind.outputs|))
  }

  /** The canonical spelling of an instance: equal keys mean equal behaviour. */
  datatype Key = Key(name: string, params: Params, source: Field)

  datatype Instance = Instance(key: Key, kind: Kind, study: Study)

  ghost predicate From(registry: Registry, x: Instance) {
    && x.key.name in registry
    && x.kind == registry[x.key.name]
    && x.study == x.kind.make(x.key.params, x.key.source)
  }

  predicate InRange(p: Param, value: real) {
    p.low <= value <= p.high && (p.kind == IntParam ==> Whole(value))
  }

  function ValueOf(p: Param, values: Params): real {
    if p.name in values then values[p.name] else p.standard
  }

  /** Every declared parameter at its given or default value, if all are in range. */
  function Fill(params: seq<Param>, values: Params): (r: Option<Params>)
    ensures r.Some? ==> r.value.Keys == Declared(params)
  {
    if params == [] then
      Some(map[])
    else
      var p, rest := params[|params| - 1], Fill(params[..|params| - 1], values);
      if rest.None? || !InRange(p, ValueOf(p, values)) then
        None
      else
        Some(rest.value[p.name := ValueOf(p, values)])
  }

  function Declared(params: seq<Param>): set<string> {
    if params == [] then {} else Declared(params[..|params| - 1]) + {params[|params| - 1].name}
  }

  function Resolve(kind: Kind, values: Params, source: Option<Field>): Option<Params> {
    var filled := Fill(kind.params, values);
    if filled.None?
       || !(values.Keys <= Declared(kind.params))
       || (source.Some? && (!kind.sourced || source.value == Volume))
       || !kind.accepts(filled.value)
    then None
    else filled
  }

  /** indicator.New, less the allocation of the indicator object itself. */
  function New(registry: Registry, name: string, values: Params, source: Option<Field>): Option<Instance> {
    if name !in registry then
      None
    else
      var kind := registry[name];
      var resolved := Resolve(kind, values, source);
      if resolved.None? then
        None
      else
        var line := if source.Some? then source.value else Close;
        Some(Instance(Key(name, resolved.value, line), kind, kind.make(resolved.value, line)))
  }

  /** One key, one behaviour: what makes sharing an indicator sound. */
  lemma KeyDetermines(registry: Registry, x: Instance, y: Instance)
    requires From(registry, x) && From(registry, y) && x.key == y.key
    ensures x == y
  {
  }

  lemma FilledValue(params: seq<Param>, values: Params, i: nat)
    requires Fill(params, values).Some? && Distinct(params) && i < |params|
    ensures params[i].name in Fill(params, values).value
    ensures Fill(params, values).value[params[i].name] == ValueOf(params[i], values)
    ensures InRange(params[i], ValueOf(params[i], values))
  {
    if i < |params| - 1 {
      FilledValue(params[..|params| - 1], values, i);
    }
  }

  lemma FillAgrees(params: seq<Param>, values: Params, others: Params)
    requires forall i :: 0 <= i < |params| ==> ValueOf(params[i], values) == ValueOf(params[i], others)
    ensures Fill(params, values) == Fill(params, others)
  {
  }

  /** Resolving already resolved parameters changes nothing. */
  lemma ResolveAgain(kind: Kind, values: Params, source: Option<Field>, again: Option<Field>)
    requires Distinct(kind.params)
    requires Resolve(kind, values, source).Some?
    requires again.Some? ==> kind.sourced && again.value != Volume
    ensures Resolve(kind, Resolve(kind, values, source).value, again) == Resolve(kind, values, source)
  {
    var filled := Fill(kind.params, values).value;
    forall i | 0 <= i < |kind.params|
      ensures ValueOf(kind.params[i], filled) == ValueOf(kind.params[i], values)
    {
      FilledValue(kind.params, values, i);
    }
    FillAgrees(kind.params, filled, values);
  }

  // ---------- which parameters are accepted ----------

  predicate Named(params: seq<Param>, name: string) {
    exists i :: 0 <= i < |params| && params[i].name == name
  }

  /** What a parameter may not be: outside its bounds, or a fraction where it counts. */
  predicate OutOfPlace(p: Param, values: Params) {
    var value := if p.name in values then values[p.name] else p.standard;
    value < p.low || value > p.high || (p.kind == IntParam && value.Floor as real != value)
  }

  /** Each declared parameter as given, or else at its standard. */
  predicate Completes(kind: Kind, values: Params, all: Params) {
    && (forall name :: name in all ==> Named(kind.params, name))
    && (forall i :: 0 <= i < |kind.params| ==>
          kind.params[i].name in all
          && all[kind.params[i].name] == if kind.params[i].name in values then values[kind.params[i].name] else kind.params[i].standard)
  }

  lemma {:induction false} NamedAreDeclared(params: seq<Param>, name: string)
    ensures name in Declared(params) <==> Named(params, name)
  {
    if params != [] {
      var n := |params| - 1;
      NamedAreDeclared(params[..n], name);
      if i :| 0 <= i < n && params[..n][i].name == name {
        assert params[i].name == name;
      }
      if i :| 0 <= i < |params| && params[i].name == name {
        assert i < n ==> params[..n][i].name == name;
      }
    }
  }

  lemma {:induction false} FillRefuses(params: seq<Param>, values: Params)
    requires Fill(params, values).None?
    ensures exists i :: 0 <= i < |params| && OutOfPlace(params[i], values)
  {
    var n := |params| - 1;
    if Fill(params[..n], values).None? {
      FillRefuses(params[..n], values);
      var i :| 0 <= i < n && OutOfPlace(params[..n][i], values);
      assert OutOfPlace(params[i], values);
    } else {
      assert OutOfPlace(params[n], values);
    }
  }

  lemma CompletedOnce(kind: Kind, values: Params, a: Params, b: Params)
    requires Completes(kind, values, a) && Completes(kind, values, b)
    ensures a == b
  {
    forall name | name in a || name in b ensures name in a && name in b && a[name] == b[name] {
      var i :| 0 <= i < |kind.params| && kind.params[i].name == name;
    }
  }

  /** A request resolves exactly when it names only declared parameters, each in its place,
      reads a source only where one is read, and the kind takes the whole; and it resolves to
      what was given, completed by the standards. */
  lemma ResolveIs(kind: Kind, values: Params, source: Option<Field>)
    requires Distinct(kind.params)
    ensures var r := Resolve(kind, values, source);
      && (r.Some? ==> Completes(kind, values, r.value))
      && (r.Some? <==>
            && (forall name :: name in values ==> Named(kind.params, name))
            && (forall i :: 0 <= i < |kind.params| ==> !OutOfPlace(kind.params[i], values))
            && (source.Some? ==> kind.sourced && source.value != Volume)
            && forall all :: Completes(kind, values, all) ==> kind.accepts(all))
  {
    forall name ensures name in Declared(kind.params) <==> Named(kind.params, name) {
      NamedAreDeclared(kind.params, name);
    }
    var filled := Fill(kind.params, values);
    if filled.None? {
      FillRefuses(kind.params, values);
    } else {
      forall i | 0 <= i < |kind.params|
        ensures kind.params[i].name in filled.value
             && filled.value[kind.params[i].name] == ValueOf(kind.params[i], values)
             && !OutOfPlace(kind.params[i], values)
      {
        FilledValue(kind.params, values, i);
      }
      assert Completes(kind, values, filled.value);
      forall all | Completes(kind, values, all) ensures all == filled.value {
        CompletedOnce(kind, values, all, filled.value);
      }
    }
  }
}
