/** Compiled rules and their three-valued evaluation. */
module Rules {
  import opened Outcomes
  import opened Numbers
  import opened Bars
  import opened Specs

  datatype Verdict = Yes | No | Unknown

  datatype Term =
    | SlotTerm(slot: int, back: int)
    | FieldTerm(field: Field, back: int)
    | LiteralTerm(value: real)

  datatype Rule =
    | AllRule(rules: seq<Rule>)
    | AnyRule(rules: seq<Rule>)
    | NotRule(rule: Rule)
    | CompareRule(op: Comparator, terms: seq<Term>, bars: int)

  /** What a rule reads: a slot or a price, some bars back, when it is known. */
  datatype Frame = Frame(
    slot: (int, int) -> Option<real>,
    price: (Field, int) -> Option<real>)

  /** A rule as the compiler builds one: every comparison has its operands. */
  predicate Shaped(r: Rule) {
    match r
    case AllRule(rules) => forall i :: 0 <= i < |rules| ==> Shaped(rules[i])
    case AnyRule(rules) => forall i :: 0 <= i < |rules| ==> Shaped(rules[i])
    case NotRule(inner) => Shaped(inner)
    case CompareRule(op, terms, bars) => |terms| >= if Trending(op) then 1 else Arity(op).1
  }

  function At(t: Term, f: Frame, extra: int): Option<real> {
    match t
    case LiteralTerm(value) => Some(value)
    case FieldTerm(field, back) => f.price(field, back + extra)
    case SlotTerm(slot, back) => f.slot(slot, back + extra)
  }

  function Eval(r: Rule, f: Frame): Verdict
    requires Shaped(r)
    decreases r
  {
    match r
    case AllRule(rules) => EvalAll(rules, f, true)
    case AnyRule(rules) => EvalAny(rules, f, true)
    case NotRule(inner) =>
      (match Eval(inner, f) case Yes => No case No => Yes case Unknown => Unknown)
    case CompareRule(op, terms, bars) =>
      if Trending(op) then Trend(op, terms[0], f, 0, bars)
      else if Crossing(op) then Cross(op, terms[0], terms[1], f)
      else if op == Between then Span(terms[0], terms[1], terms[2], f)
      else Relate(op, At(terms[0], f, 0), At(terms[1], f, 0))
  }

  /** One false settles a conjunction; short of that, one unknown leaves it unsettled. */
  function EvalAll(rules: seq<Rule>, f: Frame, settled: bool): Verdict
    requires forall i :: 0 <= i < |rules| ==> Shaped(rules[i])
    decreases rules
  {
    if rules == [] then
      if settled then Yes else Unknown
    else
      match Eval(rules[0], f)
      case No => No
      case Unknown => EvalAll(rules[1..], f, false)
      case Yes => EvalAll(rules[1..], f, settled)
  }

  function EvalAny(rules: seq<Rule>, f: Frame, settled: bool): Verdict
    requires forall i :: 0 <= i < |rules| ==> Shaped(rules[i])
    decreases rules
  {
    if rules == [] then
      if settled then No else Unknown
    else
      match Eval(rules[0], f)
      case Yes => Yes
      case Unknown => EvalAny(rules[1..], f, false)
      case No => EvalAny(rules[1..], f, settled)
  }

  function Truth(holds: bool): Verdict {
    if holds then Yes else No
  }

  const EPSILON := 0.000000001

  predicate Nearly(a: real, b: real) {
    var diff := Abs(a - b);
    diff <= EPSILON || diff <= EPSILON * MaxReal(Abs(a), Abs(b))
  }

  function Relate(op: Comparator, left: Option<real>, right: Option<real>): Verdict {
    if left.None? || right.None? then Unknown
    else
      match op
      case GT => Truth(left.value > right.value)
      case LT => Truth(left.value < right.value)
      case GTE => Truth(left.value >= right.value)
      case LTE => Truth(left.value <= right.value)
      case EQ => Truth(Nearly(left.value, right.value))
      case _ => Unknown
  }

  function Cross(op: Comparator, a: Term, b: Term, f: Frame): Verdict {
    var now, against := At(a, f, 0), At(b, f, 0);
    var before, againstBefore := At(a, f, 1), At(b, f, 1);
    if now.None? || against.None? || before.None? || againstBefore.None? then Unknown
    else if op == CrossesAbove then
      Truth(now.value > against.value && before.value <= againstBefore.value)
    else
      Truth(now.value < against.value && before.value >= againstBefore.value)
  }

  /** Every one of the last `bars` steps rose (or fell); the first that did not, from the
      newest, decides before anything further back is read. */
  function Trend(op: Comparator, t: Term, f: Frame, step: int, bars: int): Verdict
    decreases bars - step
  {
    if step >= bars then Yes
    else
      var now, before := At(t, f, step), At(t, f, step + 1);
      if now.None? || before.None? then Unknown
      else
        var moved := if op == Falling then now.value < before.value else now.value > before.value;
        if !moved then No else Trend(op, t, f, step + 1, bars)
  }

  function Span(a: Term, low: Term, high: Term, f: Frame): Verdict {
    var value, from, to := At(a, f, 0), At(low, f, 0), At(high, f, 0);
    if value.None? || from.None? || to.None? then Unknown
    else Truth(from.value <= value.value <= to.value)
  }

  function Reach(t: Term, extra: int): int {
    match t
    case LiteralTerm(_) => 0
    case FieldTerm(_, back) => back + extra
    case SlotTerm(_, back) => back + extra
  }

  function Extra(op: Comparator, bars: int): int {
    if Crossing(op) then 1 else if Trending(op) then bars else 0
  }

  function Furthest(terms: seq<Term>, extra: int): nat {
    if terms == [] then 0
    else Max(Furthest(terms[..|terms| - 1], extra), Reach(terms[|terms| - 1], extra))
  }

  function Depth(r: Rule): nat
    decreases r
  {
    match r
    case AllRule(rules) => Deepest(rules)
    case AnyRule(rules) => Deepest(rules)
    case NotRule(inner) => Depth(inner)
    case CompareRule(op, terms, bars) => Furthest(terms, Extra(op, bars))
  }

  function Deepest(rules: seq<Rule>): nat
    decreases rules
  {
    if rules == [] then 0 else Max(Depth(rules[0]), Deepest(rules[1..]))
  }

  function DepthOf(r: Option<Rule>): nat {
    if r.None? then 0 else Depth(r.value)
  }

  predicate Fires(r: Option<Rule>, f: Frame)
    requires r.Some? ==> Shaped(r.value)
  {
    r.Some? && Eval(r.value, f) == Yes
  }

  // ---------- what a rule depends on ----------

  /** Two frames that answer every question up to `depth` bars back alike. */
  ghost predicate Agree(f: Frame, g: Frame, depth: int) {
    && (forall slot, back :: back <= depth ==> f.slot(slot, back) == g.slot(slot, back))
    && (forall field, back :: back <= depth ==> f.price(field, back) == g.price(field, back))
  }

  lemma FurthestBounds(terms: seq<Term>, extra: int, i: nat)
    requires i < |terms|
    ensures Furthest(terms, extra) >= Reach(terms[i], extra)
  {
    if i < |terms| - 1 {
      FurthestBounds(terms[..|terms| - 1], extra, i);
    }
  }

  lemma {:induction false} TrendAgrees(op: Comparator, t: Term, f: Frame, g: Frame, step: int, bars: int, depth: int)
    requires Agree(f, g, depth) && Reach(t, bars) <= depth && 0 <= step
    ensures Trend(op, t, f, step, bars) == Trend(op, t, g, step, bars)
    decreases bars - step
  {
    if step < bars {
      assert At(t, f, step) == At(t, g, step);
      assert At(t, f, step + 1) == At(t, g, step + 1);
      TrendAgrees(op, t, f, g, step + 1, bars, depth);
    }
  }

  /** A rule's depth bounds every look-back its evaluation makes. */
  lemma {:induction false} DepthBoundsLookback(r: Rule, f: Frame, g: Frame, depth: int)
    requires Shaped(r) && Agree(f, g, depth) && Depth(r) <= depth
    ensures Eval(r, f) == Eval(r, g)
    decreases r
  {
    match r
    case AllRule(rules) => AllAgrees(rules, f, g, depth, true);
    case AnyRule(rules) => AnyAgrees(rules, f, g, depth, true);
    case NotRule(inner) => DepthBoundsLookback(inner, f, g, depth);
    case CompareRule(op, terms, bars) =>
      forall i | 0 <= i < |terms|
        ensures Reach(terms[i], Extra(op, bars)) <= depth
      {
        FurthestBounds(terms, Extra(op, bars), i);
      }
      if Trending(op) {
        TrendAgrees(op, terms[0], f, g, 0, bars, depth);
      }
  }

  lemma {:induction false} AllAgrees(rules: seq<Rule>, f: Frame, g: Frame, depth: int, settled: bool)
    requires forall i :: 0 <= i < |rules| ==> Shaped(rules[i])
    requires Agree(f, g, depth) && Deepest(rules) <= depth
    ensures EvalAll(rules, f, settled) == EvalAll(rules, g, settled)
    decreases rules
  {
    if rules != [] {
      DepthBoundsLookback(rules[0], f, g, depth);
      AllAgrees(rules[1..], f, g, depth, settled);
      AllAgrees(rules[1..], f, g, depth, false);
    }
  }

  lemma {:induction false} AnyAgrees(rules: seq<Rule>, f: Frame, g: Frame, depth: int, settled: bool)
    requires forall i :: 0 <= i < |rules| ==> Shaped(rules[i])
    requires Agree(f, g, depth) && Deepest(rules) <= depth
    ensures EvalAny(rules, f, settled) == EvalAny(rules, g, settled)
    decreases rules
  {
    if rules != [] {
      DepthBoundsLookback(rules[0], f, g, depth);
      AnyAgrees(rules[1..], f, g, depth, settled);
      AnyAgrees(rules[1..], f, g, depth, false);
    }
  }

  /** A frame with an answer for everything up to `depth` bars back. */
  ghost predicate Answers(f: Frame, slots: int, depth: int) {
    && (forall slot, back :: 0 <= slot < slots && 0 <= back <= depth ==> f.slot(slot, back).Some?)
    && (forall field, back :: 0 <= back <= depth ==> f.price(field, back).Some?)
  }

  /** Every slot a rule reads is one of the plan's, and no look-back is negative. */
  predicate Reads(r: Rule, slots: int) {
    match r
    case AllRule(rules) => forall i :: 0 <= i < |rules| ==> Reads(rules[i], slots)
    case AnyRule(rules) => forall i :: 0 <= i < |rules| ==> Reads(rules[i], slots)
    case NotRule(inner) => Reads(inner, slots)
    case CompareRule(_, terms, _) => forall i :: 0 <= i < |terms| ==> ReadsTerm(terms[i], slots)
  }

  predicate ReadsTerm(t: Term, slots: int) {
    match t
    case LiteralTerm(_) => true
    case FieldTerm(_, back) => 0 <= back
    case SlotTerm(slot, back) => 0 <= back && 0 <= slot < slots
  }

  lemma {:induction false} TrendKnown(op: Comparator, t: Term, f: Frame, slots: int, step: int, bars: int, depth: int)
    requires Answers(f, slots, depth) && ReadsTerm(t, slots) && Reach(t, bars) <= depth && 0 <= step
    ensures Trend(op, t, f, step, bars) != Unknown
    decreases bars - step
  {
    if step < bars {
      assert At(t, f, step).Some? && At(t, f, step + 1).Some?;
      TrendKnown(op, t, f, slots, step + 1, bars, depth);
    }
  }

  /** A frame that knows everything up to a rule's depth gives a settled verdict. */
  lemma {:induction false} SettledWhenKnown(r: Rule, f: Frame, slots: int, depth: int)
    requires Shaped(r) && Reads(r, slots) && Answers(f, slots, depth) && Depth(r) <= depth
    ensures Eval(r, f) != Unknown
    decreases r
  {
    match r
    case AllRule(rules) => AllSettled(rules, f, slots, depth);
    case AnyRule(rules) => AnySettled(rules, f, slots, depth);
    case NotRule(inner) => SettledWhenKnown(inner, f, slots, depth);
    case CompareRule(op, terms, bars) =>
      forall i | 0 <= i < |terms|
        ensures Reach(terms[i], Extra(op, bars)) <= depth
      {
        FurthestBounds(terms, Extra(op, bars), i);
      }
      if Trending(op) {
        TrendKnown(op, terms[0], f, slots, 0, bars, depth);
      }
  }

  lemma {:induction false} AllSettled(rules: seq<Rule>, f: Frame, slots: int, depth: int)
    requires forall i :: 0 <= i < |rules| ==> Shaped(rules[i]) && Reads(rules[i], slots)
    requires Answers(f, slots, depth) && Deepest(rules) <= depth
    ensures EvalAll(rules, f, true) != Unknown
    decreases rules
  {
    if rules != [] {
      SettledWhenKnown(rules[0], f, slots, depth);
      AllSettled(rules[1..], f, slots, depth);
    }
  }

  lemma {:induction false} AnySettled(rules: seq<Rule>, f: Frame, slots: int, depth: int)
    requires forall i :: 0 <= i < |rules| ==> Shaped(rules[i]) && Reads(rules[i], slots)
    requires Answers(f, slots, depth) && Deepest(rules) <= depth
    ensures EvalAny(rules, f, true) != Unknown
    decreases rules
  {
    if rules != [] {
      SettledWhenKnown(rules[0], f, slots, depth);
      AnySettled(rules[1..], f, slots, depth);
    }
  }

  // ---------- what the loops compute: Kleene's strong conjunction and disjunction ----------

  lemma {:induction false} AllIsKleene(rules: seq<Rule>, f: Frame, settled: bool)
    requires forall i :: 0 <= i < |rules| ==> Shaped(rules[i])
    ensures EvalAll(rules, f, settled) == No <==> exists i :: 0 <= i < |rules| && Eval(rules[i], f) == No
    ensures EvalAll(rules, f, settled) == Yes <==> settled && forall i :: 0 <= i < |rules| ==> Eval(rules[i], f) == Yes
  {
    if rules != [] {
      var rest := rules[1..];
      AllIsKleene(rest, f, settled);
      AllIsKleene(rest, f, false);
      assert forall i :: 0 < i < |rules| ==> rules[i] == rest[i - 1];
      assert (exists i :: 0 <= i < |rest| && Eval(rest[i], f) == No) ==>
          exists i :: 0 <= i < |rules| && Eval(rules[i], f) == No by {
        if i :| 0 <= i < |rest| && Eval(rest[i], f) == No {
          assert Eval(rules[i + 1], f) == No;
        }
      }
      assert (forall i :: 0 <= i < |rules| ==> Eval(rules[i], f) == Yes) ==>
          forall i :: 0 <= i < |rest| ==> Eval(rest[i], f) == Yes by {
        assert forall i :: 0 <= i < |rest| ==> rest[i] == rules[i + 1];
      }
    }
  }

  lemma {:induction false} AnyIsKleene(rules: seq<Rule>, f: Frame, settled: bool)
    requires forall i :: 0 <= i < |rules| ==> Shaped(rules[i])
    ensures EvalAny(rules, f, settled) == Yes <==> exists i :: 0 <= i < |rules| && Eval(rules[i], f) == Yes
    ensures EvalAny(rules, f, settled) == No <==> settled && forall i :: 0 <= i < |rules| ==> Eval(rules[i], f) == No
  {
    if rules != [] {
      var rest := rules[1..];
      AnyIsKleene(rest, f, settled);
      AnyIsKleene(rest, f, false);
      assert forall i :: 0 < i < |rules| ==> rules[i] == rest[i - 1];
      assert (exists i :: 0 <= i < |rest| && Eval(rest[i], f) == Yes) ==>
          exists i :: 0 <= i < |rules| && Eval(rules[i], f) == Yes by {
        if i :| 0 <= i < |rest| && Eval(rest[i], f) == Yes {
          assert Eval(rules[i + 1], f) == Yes;
        }
      }
      assert (forall i :: 0 <= i < |rules| ==> Eval(rules[i], f) == No) ==>
          forall i :: 0 <= i < |rest| ==> Eval(rest[i], f) == No by {
        assert forall i :: 0 <= i < |rest| ==> rest[i] == rules[i + 1];
      }
    }
  }

  // ---------- depth is needed ----------

  /** Every answer there is: prices and slots that climbed (or fell) all the way. */
  function Slope(up: bool): Frame {
    var value := (back: int) => Some(if up then -(back as real) else back as real);
    Frame((slot, back) => value(back), (field, back) => value(back))
  }

  /** The same, remembering nothing from `depth` bars back on. */
  function Recent(f: Frame, depth: int): Frame {
    Frame((slot, back) => if back < depth then f.slot(slot, back) else None,
          (field, back) => if back < depth then f.price(field, back) else None)
  }

  ghost predicate IsSlope(f: Frame, up: bool) {
    && (forall slot, back :: f.slot(slot, back) == Some(if up then -(back as real) else back as real))
    && (forall field, back :: f.price(field, back) == Some(if up then -(back as real) else back as real))
  }

  lemma {:induction false} SlopesTrend(op: Comparator, t: Term, f: Frame, step: nat, bars: int)
    requires Trending(op) && !t.LiteralTerm? && IsSlope(f, op == Rising)
    ensures Trend(op, t, f, step, bars) == Yes
    decreases bars - step
  {
    if step < bars {
      SlopesTrend(op, t, f, step + 1, bars);
    }
  }

  lemma {:induction false} ForgottenTrend(op: Comparator, t: Term, f: Frame, step: nat, bars: int, depth: int)
    requires Trending(op) && !t.LiteralTerm? && IsSlope(f, op == Rising) && step < bars && Reach(t, bars) == depth
    ensures Trend(op, t, Recent(f, depth), step, bars) == Unknown
    decreases bars - step
  {
    if step + 1 < bars {
      ForgottenTrend(op, t, f, step + 1, bars, depth);
    }
  }

  lemma {:induction false} FurthestAttained(terms: seq<Term>, extra: int)
    requires Furthest(terms, extra) > 0
    ensures exists i :: 0 <= i < |terms| && Reach(terms[i], extra) == Furthest(terms, extra)
  {
    var n := |terms| - 1;
    if Furthest(terms, extra) == Reach(terms[n], extra) {
    } else {
      FurthestAttained(terms[..n], extra);
      var i :| 0 <= i < n && Reach(terms[..n][i], extra) == Furthest(terms[..n], extra);
      assert Reach(terms[i], extra) == Furthest(terms, extra);
    }
  }

  lemma SlopeDecides(op: Comparator, terms: seq<Term>, bars: int, f: Frame)
    requires |terms| == (if Trending(op) then 1 else Arity(op).1) && IsSlope(f, op == Rising)
    requires Depth(CompareRule(op, terms, bars)) > 0
    ensures Eval(CompareRule(op, terms, bars), f) != Unknown
  {
    if Trending(op) {
      FurthestAttained(terms, Extra(op, bars));
      SlopesTrend(op, terms[0], f, 0, bars);
    }
  }

  lemma ForgottenIsUnknown(op: Comparator, terms: seq<Term>, bars: int, f: Frame, depth: int)
    requires |terms| == (if Trending(op) then 1 else Arity(op).1) && IsSlope(f, op == Rising) && bars >= 1
    requires 0 < depth == Depth(CompareRule(op, terms, bars))
    ensures Eval(CompareRule(op, terms, bars), Recent(f, depth)) == Unknown
  {
    FurthestAttained(terms, Extra(op, bars));
    if Trending(op) {
      ForgottenTrend(op, terms[0], f, 0, bars, depth);
    }
  }

  /** A comparison's depth is no deeper than it must be: two frames alike but for that one
      bar can be told apart by it. */
  lemma DepthIsNeeded(op: Comparator, terms: seq<Term>, bars: int)
    requires |terms| == (if Trending(op) then 1 else Arity(op).1) && bars >= 1
    requires Depth(CompareRule(op, terms, bars)) > 0
    ensures var r := CompareRule(op, terms, bars);
      exists f, g :: Agree(f, g, Depth(r) - 1) && Eval(r, f) != Eval(r, g)
  {
    var r := CompareRule(op, terms, bars);
    var f, depth := Slope(op == Rising), Depth(r);
    SlopeDecides(op, terms, bars, f);
    ForgottenIsUnknown(op, terms, bars, f, depth);
    assert Agree(f, Recent(f, depth), depth - 1);
    assert Eval(r, f) != Eval(r, Recent(f, depth));
  }
}
