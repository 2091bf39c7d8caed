/** What a compiled plan's units and slots mean over a whole history of bars, and what an
    unshared evaluation of the same inputs would give.  A Wiring shares indicators: units
    feed one another through slots.  A Pipe shares nothing: it is one indicator with a
    private copy of everything upstream of it. */
module Wirings {
  import opened Outcomes
  import opened Numbers
  import opened Bars
  import opened Indicators
  import opened Rules

  datatype Slot = Slot(unit: nat, output: nat, name: string)

  /** `feed` is the slot the unit reads, or -1 when it reads the bars themselves. */
  datatype Unit = Unit(instance: Instance, feed: int, slots: seq<nat>, warmup: int, prime: int)

  datatype Wiring = Wiring(units: seq<Unit>, slots: seq<Slot>)

  /** Units are listed so that whatever feeds one comes before it, and the two-way links
      between units and slots are consistent. */
  ghost predicate Wired(w: Wiring) {
    && (forall u :: 0 <= u < |w.units| ==> Fed(w, u))
    && (forall s :: 0 <= s < |w.slots| ==> Placed(w, s))
    && (forall u, k :: 0 <= u < |w.units| && 0 <= k < |w.units[u].slots| ==> Owned(w, u, w.units[u].slots[k]))
  }

  ghost predicate Fed(w: Wiring, u: int)
    requires 0 <= u < |w.units|
  {
    w.units[u].feed == -1 || (0 <= w.units[u].feed < |w.slots| && w.slots[w.units[u].feed].unit < u)
  }

  ghost predicate Placed(w: Wiring, s: int)
    requires 0 <= s < |w.slots|
  {
    w.slots[s].unit < |w.units| && s in w.units[w.slots[s].unit].slots
  }

  ghost predicate Owned(w: Wiring, u: int, s: int) {
    0 <= s < |w.slots| && w.slots[s].unit == u
  }

  // ---------- shared evaluation ----------

  /** Everything unit `u` has been fed over the history `h`. */
  ghost function UnitFed(w: Wiring, h: seq<Sample>, u: nat): seq<Sample>
    requires Wired(w) && u < |w.units|
    decreases |h|, u, 1
  {
    if h == [] then []
    else
      UnitFed(w, h[..|h| - 1], u) +
      match UnitSample(w, h, u) { case None => [] case Some(c) => [c] }
  }

  /** What unit `u` is fed on the newest bar, if its upstream has a value there. */
  ghost function UnitSample(w: Wiring, h: seq<Sample>, u: nat): Option<Sample>
    requires Wired(w) && u < |w.units| && h != []
    decreases |h|, u, 0
  {
    var last := h[|h| - 1];
    assert Fed(w, u);
    if w.units[u].feed == -1 then Some(last)
    else
      match SlotValue(w, h, w.units[u].feed)
      case None => None
      case Some(v) => Some(Flat(last, v))
  }

  /** What slot `s` holds on the newest bar. */
  ghost function SlotValue(w: Wiring, h: seq<Sample>, s: nat): Option<real>
    requires Wired(w) && s < |w.slots| && h != []
    decreases |h|, w.slots[s].unit, 2
  {
    assert Placed(w, s);
    var u := w.slots[s].unit;
    if UnitSample(w, h, u).None? then None
    else Reading(w.units[u].instance.study, UnitFed(w, h, u), w.slots[s].output)
  }

  /** One output of an indicator, once it is ready. */
  ghost function Reading(study: Study, fed: seq<Sample>, output: nat): Option<real> {
    if study.ready(fed) && output < |study.values(fed)| then Some(study.values(fed)[output]) else None
  }

  /** The unbounded history as a frame: nothing is ever forgotten. */
  ghost function History(w: Wiring, h: seq<Sample>): Frame
    requires Wired(w)
  {
    Frame(
      (slot, back) =>
        if 0 <= slot < |w.slots| && 0 <= back < |h| then SlotValue(w, h[..|h| - back], slot) else None,
      (field, back) =>
        if 0 <= back < |h| then Some(Price(field, h[|h| - 1 - back])) else None)
  }

  // ---------- unshared evaluation ----------

  datatype Pipe = Pipe(instance: Instance, output: nat, feed: Option<Pipe>)

  ghost function PipeFed(p: Pipe, h: seq<Sample>): seq<Sample>
    decreases |h|, p, 1
  {
    if h == [] then []
    else
      PipeFed(p, h[..|h| - 1]) +
      match PipeSample(p, h) { case None => [] case Some(c) => [c] }
  }

  ghost function PipeSample(p: Pipe, h: seq<Sample>): Option<Sample>
    requires h != []
    decreases |h|, p, 0
  {
    var last := h[|h| - 1];
    match p.feed
    case None => Some(last)
    case Some(up) =>
      match PipeValue(up, h)
      case None => None
      case Some(v) => Some(Flat(last, v))
  }

  /** The value a private evaluation gives: its own indicator, fed by its own upstream. */
  ghost function PipeValue(p: Pipe, h: seq<Sample>): Option<real>
    requires h != []
    decreases |h|, p, 2
  {
    if PipeSample(p, h).None? then None
    else Reading(p.instance.study, PipeFed(p, h), p.output)
  }

  /** The private evaluation a slot stands for. */
  ghost function PipeOf(w: Wiring, s: nat): Pipe
    requires Wired(w) && s < |w.slots|
    decreases w.slots[s].unit
  {
    assert Placed(w, s);
    var u := w.units[w.slots[s].unit];
    assert Fed(w, w.slots[s].unit);
    Pipe(u.instance, w.slots[s].output, if u.feed == -1 then None else Some(PipeOf(w, u.feed)))
  }

  /** Sharing is sound: every slot, on every history, holds exactly what the unshared
      evaluation it stands for gives. */
  lemma {:induction false} SharingIsSound(w: Wiring, h: seq<Sample>, s: nat)
    requires Wired(w) && s < |w.slots| && h != []
    ensures SlotValue(w, h, s) == PipeValue(PipeOf(w, s), h)
    decreases |h|, w.slots[s].unit, 2
  {
    assert Placed(w, s);
    SampleShared(w, h, s);
    FedShared(w, h, s);
  }

  lemma {:induction false} SampleShared(w: Wiring, h: seq<Sample>, s: nat)
    requires Wired(w) && s < |w.slots| && h != []
    ensures Placed(w, s) && UnitSample(w, h, w.slots[s].unit) == PipeSample(PipeOf(w, s), h)
    decreases |h|, w.slots[s].unit, 0
  {
    assert Placed(w, s);
    var u := w.slots[s].unit;
    assert Fed(w, u);
    if w.units[u].feed != -1 {
      SharingIsSound(w, h, w.units[u].feed);
    }
  }

  lemma {:induction false} FedShared(w: Wiring, h: seq<Sample>, s: nat)
    requires Wired(w) && s < |w.slots|
    ensures Placed(w, s) && UnitFed(w, h, w.slots[s].unit) == PipeFed(PipeOf(w, s), h)
    decreases |h|, w.slots[s].unit, 1
  {
    assert Placed(w, s);
    if h != [] {
      FedShared(w, h[..|h| - 1], s);
      SampleShared(w, h, s);
    }
  }

  // ---------- warm-up ----------

  const MAX_PRIME_BARS := 5000

  /** What the compiler measures for each unit: its own warm-up, and the bars it wants for
      priming, on top of its upstream's. */
  ghost predicate Measured(w: Wiring)
    requires Wired(w)
  {
    MeasuredTo(w, |w.units|)
  }

  ghost predicate MeasuredTo(w: Wiring, n: nat)
    requires Wired(w) && n <= |w.units|
  {
    forall u :: 0 <= u < n ==> w.units[u].warmup == OwnWarmup(w, u) && w.units[u].prime == OwnPrime(w, u)
  }

  function FeederOf(w: Wiring, u: nat): (f: Option<nat>)
    requires Wired(w) && u < |w.units|
    ensures f.Some? ==> f.value < u
  {
    assert Fed(w, u);
    if w.units[u].feed == -1 then None else Some(w.slots[w.units[u].feed].unit)
  }

  function OwnWarmup(w: Wiring, u: nat): int
    requires Wired(w) && u < |w.units|
  {
    w.units[u].instance.study.warmup +
    match FeederOf(w, u) case None => 0 case Some(f) => w.units[f].warmup
  }

  function OwnPrime(w: Wiring, u: nat): int
    requires Wired(w) && u < |w.units|
  {
    Min(w.units[u].instance.study.prime, MAX_PRIME_BARS) +
    match FeederOf(w, u) case None => 0 case Some(f) => w.units[f].prime
  }

  /** A unit's measures: its own warm-up and priming, the latter no more than 5000 bars, and
      on top of them those of the unit it reads. */
  lemma MeasuresAre(w: Wiring, u: nat)
    requires Wired(w) && Measured(w) && u < |w.units|
    ensures var unit := w.units[u];
      var own, above := unit.instance.study, FeederOf(w, u);
      var warmup := if above.None? then unit.warmup else unit.warmup - w.units[above.value].warmup;
      var prime := if above.None? then unit.prime else unit.prime - w.units[above.value].prime;
      && (above.None? <==> unit.feed == -1)
      && warmup == own.warmup
      && prime == if own.prime > 5000 then 5000 else own.prime
  {
  }

  /** The largest warm-up of the first `n` units, and at least zero. */
  ghost predicate LongestWarmup(w: Wiring, n: nat, longest: int) {
    && n <= |w.units| && 0 <= longest
    && (forall u :: 0 <= u < n ==> w.units[u].warmup <= longest)
    && (longest == 0 || exists u :: 0 <= u < n && w.units[u].warmup == longest)
  }

  /** Likewise of the priming. */
  ghost predicate LongestPrime(w: Wiring, n: nat, longest: int) {
    && n <= |w.units| && 0 <= longest
    && (forall u :: 0 <= u < n ==> w.units[u].prime <= longest)
    && (longest == 0 || exists u :: 0 <= u < n && w.units[u].prime == longest)
  }

  /** Recording a unit's measures changes nothing else. */
  function WithMeasures(w: Wiring, u: nat, warmup: int, prime: int): Wiring
    requires u < |w.units|
  {
    w.(units := w.units[u := w.units[u].(warmup := warmup, prime := prime)])
  }

  lemma MeasuresRecorded(w: Wiring, u: nat, warmup: int, prime: int)
    requires Wired(w) && u < |w.units|
    ensures var v := WithMeasures(w, u, warmup, prime);
      && Wired(v) && Grown(w, v)
      && forall k :: 0 <= k < |w.units| ==> FeederOf(v, k) == FeederOf(w, k)
  {
    var v := WithMeasures(w, u, warmup, prime);
    forall k | 0 <= k < |v.units| ensures Fed(v, k) {
      assert Fed(w, k);
    }
    forall s | 0 <= s < |v.slots| ensures Placed(v, s) {
      assert Placed(w, s);
    }
    forall k, n | 0 <= k < |v.units| && 0 <= n < |v.units[k].slots| ensures Owned(v, k, v.units[k].slots[n]) {
      assert Owned(w, k, w.units[k].slots[n]);
    }
  }

  lemma MeasuredNext(w: Wiring, u: nat)
    requires Wired(w) && u < |w.units| && MeasuredTo(w, u)
    ensures var v := WithMeasures(w, u, OwnWarmup(w, u), OwnPrime(w, u));
      Wired(v) && MeasuredTo(v, u + 1)
  {
    var v := WithMeasures(w, u, OwnWarmup(w, u), OwnPrime(w, u));
    MeasuresRecorded(w, u, OwnWarmup(w, u), OwnPrime(w, u));
    forall k | 0 <= k < u + 1
      ensures v.units[k].warmup == OwnWarmup(v, k) && v.units[k].prime == OwnPrime(v, k)
    {
      assert FeederOf(v, k) == FeederOf(w, k);
    }
  }

  lemma LongestNext(w: Wiring, u: nat, own: int, first: int, warmup: int, prime: int)
    requires u < |w.units| && LongestWarmup(w, u, warmup) && LongestPrime(w, u, prime)
    ensures LongestWarmup(WithMeasures(w, u, own, first), u + 1, Max(warmup, own))
    ensures LongestPrime(WithMeasures(w, u, own, first), u + 1, Max(prime, first))
  {
    var v := WithMeasures(w, u, own, first);
    assert v.units[u].warmup == own && v.units[u].prime == first;
    assert forall k :: 0 <= k < u ==> v.units[k] == w.units[k];
  }

  /** Record every unit's warm-up and priming, feeders first; the largest of each. */
  method MeasureUnits(w: Wiring) returns (v: Wiring, warmup: int, prime: int)
    requires Wired(w)
    ensures Wired(v) && Grown(w, v) && |v.units| == |w.units| && v.slots == w.slots
    ensures Measured(v) && LongestWarmup(v, |v.units|, warmup) && LongestPrime(v, |v.units|, prime)
  {
    v, warmup, prime := w, 0, 0;
    for i := 0 to |w.units|
      invariant Wired(v) && Grown(w, v) && |v.units| == |w.units| && v.slots == w.slots
      invariant MeasuredTo(v, i) && LongestWarmup(v, i, warmup) && LongestPrime(v, i, prime)
    {
      var own, first := OwnWarmup(v, i), OwnPrime(v, i);
      MeasuresRecorded(v, i, own, first);
      MeasuredNext(v, i);
      LongestNext(v, i, own, first, warmup, prime);
      v, warmup, prime := WithMeasures(v, i, own, first), Max(warmup, own), Max(prime, first);
    }
  }

  /** Every unit's indicator keeps the warm-up contract, and every slot reads one of its
      indicator's declared outputs. */
  ghost predicate Contracted(w: Wiring)
    requires Wired(w)
  {
    && (forall u :: 0 <= u < |w.units| ==>
          Lawful(w.units[u].instance.study, |w.units[u].instance.kind.outputs|))
    && (forall s :: 0 <= s < |w.slots| ==>
          Placed(w, s) && w.slots[s].output < |w.units[w.slots[s].unit].instance.kind.outputs|)
  }

  /** A slot is known exactly once more bars than its unit's measured warm-up have passed. */
  lemma {:induction false} KnownAfterWarmup(w: Wiring, h: seq<Sample>, s: nat)
    requires Wired(w) && Measured(w) && Contracted(w) && s < |w.slots| && h != []
    ensures Placed(w, s) && (SlotValue(w, h, s).Some? <==> |h| > w.units[w.slots[s].unit].warmup)
    decreases |h|, w.slots[s].unit, 2
  {
    assert Placed(w, s);
    var u := w.slots[s].unit;
    assert Fed(w, u);
    FedAfterWarmup(w, h, u);
    SampleAfterWarmup(w, h, u);
  }

  lemma {:induction false} SampleAfterWarmup(w: Wiring, h: seq<Sample>, u: nat)
    requires Wired(w) && Measured(w) && Contracted(w) && u < |w.units| && h != []
    ensures Fed(w, u) && (UnitSample(w, h, u).Some? <==> |h| > w.units[u].warmup - w.units[u].instance.study.warmup)
    decreases |h|, u, 0
  {
    assert Fed(w, u);
    if w.units[u].feed != -1 {
      assert Placed(w, w.units[u].feed);
      KnownAfterWarmup(w, h, w.units[u].feed);
    }
  }

  lemma {:induction false} FedAfterWarmup(w: Wiring, h: seq<Sample>, u: nat)
    requires Wired(w) && Measured(w) && Contracted(w) && u < |w.units|
    ensures Fed(w, u)
    ensures 0 <= w.units[u].warmup - w.units[u].instance.study.warmup
    ensures |UnitFed(w, h, u)| == Max(0, |h| - (w.units[u].warmup - w.units[u].instance.study.warmup))
    decreases |h|, u, 1
  {
    assert Fed(w, u);
    WarmupNonNegative(w, u);
    if h != [] {
      FedAfterWarmup(w, h[..|h| - 1], u);
      SampleAfterWarmup(w, h, u);
    }
  }

  lemma {:induction false} WarmupNonNegative(w: Wiring, u: nat)
    requires Wired(w) && Measured(w) && u < |w.units|
    ensures Fed(w, u) && w.units[u].instance.study.warmup <= w.units[u].warmup
    decreases u
  {
    assert Fed(w, u);
    if w.units[u].feed != -1 {
      assert Placed(w, w.units[u].feed);
      WarmupNonNegative(w, w.slots[w.units[u].feed].unit);
    }
  }

  lemma SlotKnown(w: Wiring, h: seq<Sample>, s: nat, back: nat, warmup: int)
    requires Wired(w) && Measured(w) && Contracted(w) && s < |w.slots|
    requires forall u :: 0 <= u < |w.units| ==> w.units[u].warmup <= warmup
    requires 0 <= warmup && |h| > warmup + back
    ensures History(w, h).slot(s, back).Some?
  {
    var g := h[..|h| - back];
    assert g != [] && |g| > warmup;
    KnownAfterWarmup(w, g, s);
    SlotLooksBack(w, h, s, back, g);
  }

  lemma SlotLooksBack(w: Wiring, h: seq<Sample>, s: nat, back: nat, g: seq<Sample>)
    requires Wired(w) && s < |w.slots| && back < |h| && g == h[..|h| - back]
    ensures History(w, h).slot(s, back) == SlotValue(w, g, s)
  {
  }

  /** Once more bars than the plan's warm-up have been pushed, no rule is ever unknown:
      `warmup` covers every unit's and `depth` every look-back of the rule. */
  lemma {:induction false} NeverUnknownAfterWarmup(w: Wiring, h: seq<Sample>, r: Rule, warmup: int, depth: int)
    requires Wired(w) && Measured(w) && Contracted(w)
    requires Shaped(r) && Reads(r, |w.slots|) && Depth(r) <= depth
    requires forall u :: 0 <= u < |w.units| ==> w.units[u].warmup <= warmup
    requires 0 <= warmup && 0 <= depth && |h| > warmup + depth
    ensures Eval(r, History(w, h)) != Unknown
  {
    forall s, back | 0 <= s < |w.slots| && 0 <= back <= depth
      ensures History(w, h).slot(s, back).Some?
    {
      SlotKnown(w, h, s, back, warmup);
    }
    SettledWhenKnown(r, History(w, h), |w.slots|, depth);
  }

  // ---------- growing a wiring ----------

  /** `v` is `w` with units, slots and slots of existing units added at the end. */
  ghost predicate Grown(w: Wiring, v: Wiring) {
    && |w.units| <= |v.units|
    && (forall u :: 0 <= u < |w.units| ==>
          v.units[u].instance == w.units[u].instance && v.units[u].feed == w.units[u].feed)
    && w.slots <= v.slots
  }

  lemma {:induction false} PipeKept(w: Wiring, v: Wiring, s: nat)
    requires Wired(w) && Wired(v) && Grown(w, v) && s < |w.slots|
    ensures PipeOf(v, s) == PipeOf(w, s)
    decreases w.slots[s].unit
  {
    assert Placed(w, s) && Placed(v, s);
    assert w.slots[s] == v.slots[s];
    var u := w.slots[s].unit;
    assert Fed(w, u) && Fed(v, u);
    if w.units[u].feed != -1 {
      PipeKept(w, v, w.units[u].feed);
    }
  }

  /** A new unit, reading the bars or an existing slot. */
  function WithUnit(w: Wiring, instance: Instance, feed: int): Wiring {
    w.(units := w.units + [Unit(instance, feed, [], 0, 0)])
  }

  /** A new slot of an existing unit. */
  function WithSlot(w: Wiring, unit: nat, output: nat, name: string): Wiring
    requires unit < |w.units|
  {
    var held := w.units[unit];
    Wiring(w.units[unit := held.(slots := held.slots + [|w.slots|])], w.slots + [Slot(unit, output, name)])
  }

  lemma UnitAdded(w: Wiring, instance: Instance, feed: int)
    requires Wired(w) && (feed == -1 || 0 <= feed < |w.slots|)
    ensures Wired(WithUnit(w, instance, feed)) && Grown(w, WithUnit(w, instance, feed))
  {
    var v := WithUnit(w, instance, feed);
    forall u | 0 <= u < |v.units| ensures Fed(v, u) {
      if u < |w.units| {
        assert Fed(w, u);
      } else if feed != -1 {
        assert Placed(w, feed);
      }
    }
    forall s | 0 <= s < |v.slots| ensures Placed(v, s) {
      assert Placed(w, s);
    }
    forall u, k | 0 <= u < |v.units| && 0 <= k < |v.units[u].slots| ensures Owned(v, u, v.units[u].slots[k]) {
      assert Owned(w, u, w.units[u].slots[k]);
    }
  }

  lemma SlotAdded(w: Wiring, unit: nat, output: nat, name: string)
    requires Wired(w) && unit < |w.units|
    ensures Wired(WithSlot(w, unit, output, name)) && Grown(w, WithSlot(w, unit, output, name))
  {
    var v := WithSlot(w, unit, output, name);
    forall u | 0 <= u < |v.units| ensures Fed(v, u) {
      assert Fed(w, u);
    }
    forall s | 0 <= s < |v.slots| ensures Placed(v, s) {
      if s < |w.slots| {
        assert Placed(w, s);
        var k :| 0 <= k < |w.units[w.slots[s].unit].slots| && w.units[w.slots[s].unit].slots[k] == s;
        assert v.units[w.slots[s].unit].slots[k] == s;
      } else {
        assert v.units[unit].slots[|w.units[unit].slots|] == s;
      }
    }
    forall u, k | 0 <= u < |v.units| && 0 <= k < |v.units[u].slots| ensures Owned(v, u, v.units[u].slots[k]) {
      if u != unit || k < |w.units[u].slots| {
        assert Owned(w, u, w.units[u].slots[k]);
      }
    }
  }

  // ---------- nothing is laid out twice ----------

  /** No two units share a key and a feed, no two slots a unit and an output. */
  ghost predicate Interned(w: Wiring) {
    && (forall u, v :: 0 <= u < |w.units| && 0 <= v < |w.units| && SameUnit(w.units[u], w.units[v]) ==> u == v)
    && (forall s, t :: 0 <= s < |w.slots| && 0 <= t < |w.slots| && SameSlot(w.slots[s], w.slots[t]) ==> s == t)
  }

  predicate SameUnit(a: Unit, b: Unit) {
    a.instance.key == b.instance.key && a.feed == b.feed
  }

  predicate SameSlot(a: Slot, b: Slot) {
    a.unit == b.unit && a.output == b.output
  }

  lemma MeasuringKeepsInterned(w: Wiring, v: Wiring)
    requires Interned(w) && Grown(w, v) && |v.units| == |w.units| && v.slots == w.slots
    ensures Interned(v)
  {
    forall i, j | 0 <= i < |v.units| && 0 <= j < |v.units| && SameUnit(v.units[i], v.units[j])
      ensures i == j
    {
      assert SameUnit(w.units[i], w.units[j]);
    }
  }

  /** Sharing is also complete: two slots that stand for one private evaluation are one slot. */
  lemma {:induction false} SharingIsComplete(w: Wiring, s: nat, t: nat)
    requires Wired(w) && Interned(w) && s < |w.slots| && t < |w.slots|
    requires PipeOf(w, s) == PipeOf(w, t)
    ensures s == t
    decreases w.slots[s].unit
  {
    assert Placed(w, s) && Placed(w, t);
    var u, v := w.slots[s].unit, w.slots[t].unit;
    assert Fed(w, u) && Fed(w, v);
    if w.units[u].feed != -1 {
      SharingIsComplete(w, w.units[u].feed, w.units[v].feed);
    }
  }
}
