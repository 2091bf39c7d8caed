/** The average directional index: four Wilder averages, the last fed by the other three. */
module Directional {
  import opened Outcomes
  import opened Numbers
  import opened Bars
  import opened Indicators
  import opened Averages
  import opened Oscillators

  function Gain(now: Sample, before: Sample): real {
    var up, down := now.high - before.high, before.low - now.low;
    if up > down && up > 0.0 then up else 0.0
  }

  function Drop(now: Sample, before: Sample): real {
    var up, down := now.high - before.high, before.low - now.low;
    if down > up && down > 0.0 then down else 0.0
  }

  function TrueRange(now: Sample, before: Sample): real {
    MaxReal(now.high - now.low, MaxReal(Abs(now.high - before.close), Abs(now.low - before.close)))
  }

  /** A directional movement as a percentage of the range. */
  function Share(move: real, range: real): real {
    if range > 0.0 then 100.0 * move / range else 0.0
  }

  function Lean(plus: real, minus: real): real {
    if plus + minus > 0.0 then 100.0 * Abs(plus - minus) / (plus + minus) else 0.0
  }

  /** What each of the four averages has been given. */
  datatype Moves = Moves(ranges: seq<real>, gains: seq<real>, drops: seq<real>, leans: seq<real>)

  function PlusOf(m: Moves, period: nat): real
    requires period >= 1
  {
    Share(WilderOf(m.gains, period), WilderOf(m.ranges, period))
  }

  function MinusOf(m: Moves, period: nat): real
    requires period >= 1
  {
    Share(WilderOf(m.drops, period), WilderOf(m.ranges, period))
  }

  /** One more bar's movements. */
  function Moved(m: Moves, range: real, gain: real, drop: real): Moves {
    m.(ranges := m.ranges + [range], gains := m.gains + [gain], drops := m.drops + [drop])
  }

  /** The last average starts once the other three are ready. */
  function Leaned(m: Moves, period: nat): Moves
    requires period >= 1
  {
    if |m.ranges| < period then m
    else m.(leans := m.leans + [Lean(PlusOf(m, period), MinusOf(m, period))])
  }

  function MovesOf(fed: seq<Sample>, period: nat): Moves
    requires period >= 1
  {
    if |fed| <= 1 then Moves([], [], [], [])
    else
      var n := |fed| - 1;
      var now, before := fed[n], fed[n - 1];
      Leaned(Moved(MovesOf(fed[..n], period), TrueRange(now, before), Gain(now, before), Drop(now, before)), period)
  }

  lemma {:induction false} MovesCounted(fed: seq<Sample>, period: nat)
    requires period >= 1
    ensures var m := MovesOf(fed, period);
      && |m.ranges| == |m.gains| == |m.drops| == Max(|fed| - 1, 0)
      && |m.leans| == Max(|fed| - period, 0)
  {
    if |fed| > 1 {
      MovesCounted(fed[..|fed| - 1], period);
    }
  }

  function Lines(m: Moves, period: nat): seq<real>
    requires period >= 1
  {
    [WilderOf(m.leans, period), PlusOf(m, period), MinusOf(m, period)]
  }

  function StudyOf(period: nat): Study
    requires period >= 1
  {
    Study(
      fed => |MovesOf(fed, period).leans| >= period,
      fed => Lines(MovesOf(fed, period), period),
      2 * period - 1,
      2 * period * 16)
  }

  /** Two periods of bars and no fewer: the chain is ready exactly when it says it will be. */
  lemma StudyIsLawful(period: nat)
    requires period >= 1
    ensures Lawful(StudyOf(period), 3)
    ensures StudyOf(period).prime == 16 * (StudyOf(period).warmup + 1)
  {
    forall fed: seq<Sample> ensures StudyOf(period).ready(fed) <==> |fed| > StudyOf(period).warmup {
      MovesCounted(fed, period);
    }
  }

  lemma NextMoves(fed: seq<Sample>, c: Sample, period: nat)
    requires period >= 1
    ensures fed == [] ==> MovesOf(fed + [c], period) == MovesOf(fed, period) == Moves([], [], [], [])
    ensures fed != [] ==>
      var before := fed[|fed| - 1];
      MovesOf(fed + [c], period)
        == Leaned(Moved(MovesOf(fed, period), TrueRange(c, before), Gain(c, before), Drop(c, before)), period)
  {
    assert (fed + [c])[..|fed|] == fed;
  }

  class Adx {
    const period: nat
    const span: Wilder
    const plus: Wilder
    const minus: Wilder
    const index: Wilder
    var previous: Option<Sample>
    var lines: (real, real, real)
    ghost var fed: seq<Sample>

    ghost predicate Fitted() {
      && period >= 1
      && span.period == plus.period == minus.period == index.period == period
      && span != plus && span != minus && span != index && plus != minus && plus != index && minus != index
    }

    ghost function Held(): Option<Moves>
      reads span, plus, minus, index
    {
      if Fitted() && span.Valid() && plus.Valid() && minus.Valid() && index.Valid()
      then Some(Moves(span.pushed, plus.pushed, minus.pushed, index.pushed))
      else None
    }

    ghost predicate Shown(m: Moves)
      reads this`lines
      requires period >= 1
    {
      |m.leans| >= period ==> [lines.0, lines.1, lines.2] == Lines(m, period)
    }

    ghost predicate Valid()
      reads this, span, plus, minus, index
    {
      && period >= 1
      && previous == (if fed == [] then None else Some(fed[|fed| - 1]))
      && Held() == Some(MovesOf(fed, period))
      && Shown(MovesOf(fed, period))
    }

    constructor (period: int)
      ensures Valid() && fed == [] && this.period == Max(period, 1)
      ensures fresh(span) && fresh(plus) && fresh(minus) && fresh(index)
    {
      this.period := Max(period, 1);
      span := new Wilder(period);
      plus := new Wilder(period);
      minus := new Wilder(period);
      index := new Wilder(period);
      previous, lines, fed := None, (0.0, 0.0, 0.0), [];
    }

    predicate Ready()
      requires Valid()
      reads this, span, plus, minus, index
      ensures Ready() <==> StudyOf(period).ready(fed)
    {
      index.ready
    }

    function Values(): (r: seq<real>)
      requires Valid()
      reads this, span, plus, minus, index
      ensures Ready() ==> r == StudyOf(period).values(fed)
    {
      [lines.0, lines.1, lines.2]
    }

    method Update(c: Sample)
      requires Valid()
      modifies this, span, plus, minus, index
      ensures Valid() && fed == old(fed) + [c]
    {
      NextMoves(fed, c, period);
      if previous.Some? {
        var before := previous.value;
        Advance(TrueRange(c, before), Gain(c, before), Drop(c, before), MovesOf(fed, period));
      }
      previous, fed := Some(c), fed + [c];
    }

    method Advance(range: real, gain: real, drop: real, ghost m: Moves)
      requires Held() == Some(m) && period >= 1 && Shown(m)
      modifies this`lines, span, plus, minus, index
      ensures var next := Leaned(Moved(m, range, gain, drop), period);
        Held() == Some(next) && Shown(next)
    {
      Push(range, gain, drop, m);
      if span.ready {
        Lead(Moved(m, range, gain, drop));
      }
    }

    method Push(range: real, gain: real, drop: real, ghost m: Moves)
      requires Held() == Some(m)
      modifies span, plus, minus
      ensures Held() == Some(Moved(m, range, gain, drop))
    {
      span.Push(range);
      plus.Push(gain);
      minus.Push(drop);
    }

    /** The averages' lean, into the last of them. */
    method Lead(ghost m: Moves)
      requires Held() == Some(m) && period >= 1 && |m.ranges| >= period
      modifies this`lines, index
      ensures Held() == Some(Leaned(m, period)) && Shown(Leaned(m, period))
    {
      var plusDi, minusDi := Share(plus.value, span.value), Share(minus.value, span.value);
      index.Push(Lean(plusDi, minusDi));
      if index.ready {
        lines := (index.value, plusDi, minusDi);
      }
    }

    method Reset()
      requires Valid()
      modifies this, span, plus, minus, index
      ensures Valid() && fed == []
    {
      span.Reset();
      plus.Reset();
      minus.Reset();
      index.Reset();
      previous, lines, fed := None, (0.0, 0.0, 0.0), [];
    }
  }
}
