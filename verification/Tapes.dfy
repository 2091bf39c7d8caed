/** The compiled plan and the fixed-size ring tape its rules are evaluated on. */
module Tapes {
  import opened Outcomes
  import opened Numbers
  import opened Bars
  import opened Indicators
  import opened Specs
  import opened Rules
  import opened Wirings

  /** A resting level; `slot` is -1 unless the level is read off an indicator. */
  datatype Bracket = Bracket(level: Level, slot: int)

  datatype Leg = Leg(entry: Option<Rule>, exit: Option<Rule>, stop: Option<Bracket>, target: Option<Bracket>)

  /** A compiled strategy.  Everything but `gauges` is fixed once compiled; gauges[u] is
      the stateful indicator of unit u, shared by every tape made from the plan. */
  datatype Plan = Plan(
    spec: Spec,
    wiring: Wiring,
    index: map<string, nat>,
    long: Leg,
    short: Leg,
    depth: int,
    warmup: int,
    primeBars: int,
    gauges: seq<Indicator>)

  function LegOf(p: Plan, short: bool): Leg {
    if short then p.short else p.long
  }

  ghost predicate Equipped(p: Plan) {
    && Wired(p.wiring)
    && |p.gauges| == |p.wiring.units|
    && (forall u :: 0 <= u < |p.gauges| ==> p.gauges[u].study == p.wiring.units[u].instance.study)
    && (forall u, v :: 0 <= u < v < |p.gauges| ==> p.gauges[u] != p.gauges[v])
  }

  ghost predicate Usable(r: Option<Rule>, p: Plan) {
    r.Some? ==> Shaped(r.value) && Depth(r.value) <= p.depth
  }

  ghost predicate LegUsable(leg: Leg, p: Plan) {
    && Usable(leg.entry, p)
    && Usable(leg.exit, p)
    && (leg.stop.Some? && leg.stop.value.level.Atr? ==> 0 <= leg.stop.value.slot < |p.wiring.slots|)
    && (leg.target.Some? && leg.target.value.level.Atr? ==> 0 <= leg.target.value.slot < |p.wiring.slots|)
  }

  /** What compilation promises of a plan. */
  ghost predicate Ready(p: Plan) {
    && Equipped(p)
    && 0 <= p.depth
    && LegUsable(p.long, p)
    && LegUsable(p.short, p)
  }

  /** The ring at one moment: how far back it reaches and what each position holds. */
  datatype Ring = Ring(size: nat, at: int, filled: nat, bars: seq<Sample>, cells: seq<seq<Option<real>>>) {
    ghost predicate Valid() {
      && size > 0
      && |bars| == size
      && forall s :: 0 <= s < |cells| ==> |cells[s]| == size
    }

    function Index(back: int): (i: int)
      requires size > 0
      ensures 0 <= i < size
    {
      Wrap(at - back, size)
    }

    predicate Reachable(back: int) {
      0 <= back && back < size && back < filled
    }

    function Slot(slot: int, back: int): Option<real>
      requires Valid()
    {
      if !(0 <= slot < |cells|) || !Reachable(back) then None else cells[slot][Index(back)]
    }

    function PriceAt(field: Field, back: int): Option<real>
      requires Valid()
    {
      if !Reachable(back) then None else Some(Price(field, bars[Index(back)]))
    }

    function AsFrame(): Frame
      requires Valid()
    {
      Frame((slot, back) => Slot(slot, back), (field, back) => PriceAt(field, back))
    }
  }

  class Tape {
    const plan: Plan
    const size: nat
    var at: int
    var filled: nat
    const bars: array<Sample>
    const values: array2<Option<real>>
    ghost var hist: seq<Sample>

    ghost function Repr(): set<object>
    {
      {this, bars, values} + (set u | 0 <= u < |plan.gauges| :: plan.gauges[u])
    }

    ghost predicate Valid()
      reads this, Repr()
    {
      && Equipped(plan)
      && size == Max(plan.depth + 1, 2)
      && bars.Length == size
      && values.Length0 == |plan.wiring.slots| && values.Length1 == size
      && filled == |hist|
      && at == (if filled == 0 then -1 else (filled - 1) % size)
      && (forall u :: 0 <= u < |plan.gauges| ==> plan.gauges[u].fed == UnitFed(plan.wiring, hist, u))
      && (forall j :: Live(j) ==> bars[j % size] == hist[j])
      && (forall s, j :: 0 <= s < |plan.wiring.slots| && Live(j) ==>
            values[s, j % size] == SlotValue(plan.wiring, hist[..j + 1], s))
    }

    function Cells(): (cells: seq<seq<Option<real>>>)
      reads values
      ensures |cells| == values.Length0
      ensures forall s :: 0 <= s < |cells| ==> |cells[s]| == values.Length1
      ensures forall s, k :: 0 <= s < |cells| && 0 <= k < values.Length1 ==> cells[s][k] == values[s, k]
    {
      seq(values.Length0, s requires 0 <= s < values.Length0 reads values =>
        seq(values.Length1, k requires 0 <= k < values.Length1 reads values => values[s, k]))
    }

    function View(): (ring: Ring)
      requires Valid()
      reads this, Repr()
      ensures ring.Valid()
    {
      Ring(size, at, filled, bars[..], Cells())
    }

    /** Within its size the ring answers exactly what the unbounded history would. */
    lemma RingRefinesHistory(back: int)
      requires Valid() && back < size
      ensures forall slot :: View().Slot(slot, back) == History(plan.wiring, hist).slot(slot, back)
      ensures forall field :: View().PriceAt(field, back) == History(plan.wiring, hist).price(field, back)
    {
      if 0 <= back < |hist| {
        var j := |hist| - 1 - back;
        ModShift(|hist| - 1, -back, size);
        assert View().Index(back) == j % size;
        assert Live(j);
        assert hist[..j + 1] == hist[..|hist| - back];
      }
    }

    /** The ring is deep enough for every rule of its plan: the verdict on it is the
        verdict on the whole history. */
    lemma RingVerdict(r: Rule)
      requires Valid() && Shaped(r) && 0 <= plan.depth && Depth(r) <= plan.depth
      ensures Eval(r, View().AsFrame()) == Eval(r, History(plan.wiring, hist))
    {
      forall slot, back | back <= plan.depth
        ensures View().AsFrame().slot(slot, back) == History(plan.wiring, hist).slot(slot, back)
      {
        RingRefinesHistory(back);
      }
      forall field, back | back <= plan.depth
        ensures View().AsFrame().price(field, back) == History(plan.wiring, hist).price(field, back)
      {
        RingRefinesHistory(back);
      }
      DepthBoundsLookback(r, View().AsFrame(), History(plan.wiring, hist), plan.depth);
    }

    method Entry(leg: Leg) returns (fires: bool)
      requires Valid() && 0 <= plan.depth && Usable(leg.entry, plan)
      ensures fires == Fires(leg.entry, History(plan.wiring, hist))
    {
      fires := Fires(leg.entry, View().AsFrame());
      if leg.entry.Some? {
        RingVerdict(leg.entry.value);
      }
    }

    method Exit(leg: Leg) returns (fires: bool)
      requires Valid() && 0 <= plan.depth && Usable(leg.exit, plan)
      ensures fires == Fires(leg.exit, History(plan.wiring, hist))
    {
      fires := Fires(leg.exit, View().AsFrame());
      if leg.exit.Some? {
        RingVerdict(leg.exit.value);
      }
    }

    method Newest(slot: int) returns (value: Option<real>)
      requires Valid()
      ensures value == History(plan.wiring, hist).slot(slot, 0)
    {
      value := View().Slot(slot, 0);
      RingRefinesHistory(0);
    }

    ghost predicate Elsewhere(u: int, s: nat, k: int)
      requires s < |plan.wiring.slots|
      reads this
    {
      k != at || plan.wiring.slots[s].unit != u
    }

    /** Bar `j` of the history is still on the ring. */
    ghost predicate Live(j: int)
      reads this
    {
      0 <= j < |hist| && |hist| - size <= j
    }

    /** Plan.NewTape: a fresh ring, and every indicator of the plan reset. */
    constructor (plan: Plan)
      requires Equipped(plan)
      modifies plan.gauges
      ensures Valid() && this.plan == plan && hist == []
      ensures fresh(bars) && fresh(values)
    {
      this.plan := plan;
      size := Max(plan.depth + 1, 2);
      at := -1;
      filled := 0;
      bars := new Sample[Max(plan.depth + 1, 2)](_ => Sample(0, 0.0, 0.0, 0.0, 0.0, 0.0));
      values := new Option<real>[|plan.wiring.slots|, Max(plan.depth + 1, 2)]((_, _) => Some(0.0));
      hist := [];
      new;
      for i := 0 to |plan.gauges|
        modifies plan.gauges
        invariant Equipped(plan)
        invariant forall u :: 0 <= u < i ==> plan.gauges[u].fed == []
      {
        plan.gauges[i].Reset();
      }
    }

    /** One bar: move the ring on, then feed every unit. */
    method Push(candle: Sample)
      requires Valid()
      modifies this`at, this`filled, this`hist, bars, values, plan.gauges
      ensures Valid() && hist == old(hist) + [candle]
    {
      ghost var before := hist;
      ghost var w := plan.wiring;
      label start:
      ModShift(filled - 1, 1, size);
      at := (at + 1) % size;
      filled := filled + 1;
      bars[at] := candle;
      hist := hist + [candle];
      Rotated(before, candle);
      FeedAll(candle, before);
      Kept@start(candle);
    }

    /** Filling the newest position, and nothing else, keeps every live bar's slots. */
    twostate lemma Kept(candle: Sample)
      requires old(Valid()) && Equipped(plan)
      requires hist == old(hist) + [candle] && at == |old(hist)| % size
      requires forall s :: 0 <= s < |plan.wiring.slots| && plan.wiring.slots[s].unit < |plan.gauges| ==>
          values[s, at] == SlotValue(plan.wiring, hist, s)
      requires forall s, k :: 0 <= s < |plan.wiring.slots| && 0 <= k < size && k != at ==>
          values[s, k] == old(values[s, k])
      ensures forall s, j :: 0 <= s < |plan.wiring.slots| && Live(j) ==>
          values[s, j % size] == SlotValue(plan.wiring, hist[..j + 1], s)
    {
      Rotated(old(hist), candle);
      forall s, j | 0 <= s < |plan.wiring.slots| && Live(j)
        ensures values[s, j % size] == SlotValue(plan.wiring, hist[..j + 1], s)
      {
        assert Placed(plan.wiring, s);
        if j == |hist| - 1 {
          assert hist[..j + 1] == hist;
        } else {
          assert hist[..j + 1] == old(hist)[..j + 1];
          assert old(Live(j));
        }
      }
    }

    /** Feed the units in order, so that each finds its upstream already written. */
    method FeedAll(candle: Sample, ghost before: seq<Sample>)
      requires Equipped(plan) && 0 <= at < size
      requires values.Length0 == |plan.wiring.slots| && values.Length1 == size
      requires hist == before + [candle]
      requires forall u :: 0 <= u < |plan.gauges| ==> plan.gauges[u].fed == UnitFed(plan.wiring, before, u)
      modifies values, plan.gauges
      ensures forall u :: 0 <= u < |plan.gauges| ==> plan.gauges[u].fed == UnitFed(plan.wiring, hist, u)
      ensures forall s :: 0 <= s < |plan.wiring.slots| && plan.wiring.slots[s].unit < |plan.gauges| ==>
          values[s, at] == SlotValue(plan.wiring, hist, s)
      ensures forall s, k :: 0 <= s < |plan.wiring.slots| && 0 <= k < size && k != at ==>
          values[s, k] == old(values[s, k])
    {
      ghost var w := plan.wiring;
      for i := 0 to |plan.wiring.units|
        modifies values, plan.gauges
        invariant forall u :: 0 <= u < i ==> plan.gauges[u].fed == UnitFed(w, hist, u)
        invariant forall u :: i <= u < |plan.gauges| ==> plan.gauges[u].fed == UnitFed(w, before, u)
        invariant forall s :: 0 <= s < |w.slots| && w.slots[s].unit < i ==> values[s, at] == SlotValue(w, hist, s)
        invariant forall s, k :: 0 <= s < |w.slots| && 0 <= k < size && k != at ==> values[s, k] == old(values[s, k])
      {
        Feed(i, candle, before);
      }
    }

    /** Feed unit `u` the newest bar, or the value its upstream slot already holds for it,
        and write its slots: blank until it is ready or while its upstream is unknown. */
    method Feed(u: nat, candle: Sample, ghost before: seq<Sample>)
      requires Equipped(plan) && u < |plan.gauges| && 0 <= at < size
      requires values.Length0 == |plan.wiring.slots| && values.Length1 == size
      requires hist == before + [candle]
      requires plan.gauges[u].fed == UnitFed(plan.wiring, before, u)
      requires forall s :: 0 <= s < |plan.wiring.slots| && plan.wiring.slots[s].unit < u ==>
          values[s, at] == SlotValue(plan.wiring, hist, s)
      modifies values, plan.gauges[u]
      ensures plan.gauges[u].fed == UnitFed(plan.wiring, hist, u)
      ensures forall s :: 0 <= s < |plan.wiring.slots| && plan.wiring.slots[s].unit == u ==>
          values[s, at] == SlotValue(plan.wiring, hist, s)
      ensures forall s, k :: 0 <= s < |plan.wiring.slots| && 0 <= k < size && Elsewhere(u, s, k) ==>
          values[s, k] == old(values[s, k])
    {
      assert hist[..|hist| - 1] == before;
      assert Fed(plan.wiring, u);
      var unit := plan.wiring.units[u];
      var feed := Some(candle);
      if unit.feed >= 0 {
        var upstream := values[unit.feed, at];
        feed := if upstream.None? then None else Some(Flat(candle, upstream.value));
      }
      assert feed == UnitSample(plan.wiring, hist, u);
      if feed.None? {
        Write(u, None);
        return;
      }
      plan.gauges[u].Update(feed.value);
      if !plan.gauges[u].Ready() {
        Write(u, None);
      } else {
        Write(u, Some(plan.gauges[u].Values()));
      }
    }

    /** The rest of the ring survives a push: no live bar shares the slot written. */
    lemma Rotated(before: seq<Sample>, candle: Sample)
      requires size >= 2 && hist == before + [candle]
      ensures forall j :: Live(j) && j < |before| ==> j % size != |before| % size
      ensures forall j :: Live(j) && j < |before| ==> hist[j] == before[j]
    {
      forall j | Live(j) && j < |before|
        ensures j % size != |before| % size
      {
        if j % size == |before| % size {
          ModUnique(|before|, j, size);
        }
      }
    }

    /** Fill unit `u`'s slots at the newest position from its outputs, or blank them. */
    method Write(u: nat, outputs: Option<seq<real>>)
      requires Wired(plan.wiring) && u < |plan.wiring.units| && 0 <= at < size
      requires values.Length0 == |plan.wiring.slots| && values.Length1 == size
      modifies values
      ensures forall s :: 0 <= s < |plan.wiring.slots| && plan.wiring.slots[s].unit == u ==>
          values[s, at] == Pick(outputs, plan.wiring.slots[s].output)
      ensures forall s, k :: 0 <= s < |plan.wiring.slots| && 0 <= k < size && Elsewhere(u, s, k) ==>
          values[s, k] == old(values[s, k])
    {
      var w := plan.wiring;
      var slots := w.units[u].slots;
      for n := 0 to |slots|
        invariant forall m :: 0 <= m < n ==> values[slots[m], at] == Pick(outputs, w.slots[slots[m]].output)
        invariant forall s, k :: 0 <= s < |w.slots| && 0 <= k < size && Elsewhere(u, s, k) ==>
            values[s, k] == old(values[s, k])
      {
        assert Owned(w, u, slots[n]);
        values[slots[n], at] := Pick(outputs, w.slots[slots[n]].output);
      }
      forall s | 0 <= s < |w.slots| && w.slots[s].unit == u
        ensures values[s, at] == Pick(outputs, w.slots[s].output)
      {
        assert Placed(w, s);
      }
    }
  }

  function Pick(outputs: Option<seq<real>>, output: nat): Option<real> {
    if outputs.None? || output >= |outputs.value| then None else Some(outputs.value[output])
  }
}
