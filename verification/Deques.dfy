/** The highest or lowest of the last few values, from a monotonic queue held in two
    circular arrays. */
module Deques {
  import opened Numbers

  predicate Better(highest: bool, a: real, b: real) {
    if highest then a > b else a < b
  }

  /** The best of some values, from one of them on, is the highest, or the lowest. */
  lemma BestIsExtreme(value: real, h: seq<real>, highest: bool, from: int)
    requires Best(value, h, highest, from)
    ensures highest ==> forall j :: 0 <= from <= j < |h| ==> h[j] <= value
    ensures !highest ==> forall j :: 0 <= from <= j < |h| ==> value <= h[j]
  {
  }

  function First(n: int, size: int): int {
    Max(n - size, 0)
  }

  /** The indices still queued, oldest first: each strictly better than the next, none of
      the values in between better than the one that outlived it, the newest last. */
  ghost predicate Queue(live: seq<nat>, h: seq<real>, highest: bool, from: int) {
    && (forall k :: 0 <= k < |live| ==> from <= live[k] < |h|)
    && (forall i, k :: 0 <= i < k < |live| ==> live[i] < live[k] && Better(highest, h[live[i]], h[live[k]]))
    && (forall j :: from <= j < |h| ==> Outlived(live, h, highest, j))
  }

  /** Some queued value, no older than `j`, is at least as good. */
  ghost predicate Outlived(live: seq<nat>, h: seq<real>, highest: bool, j: int) {
    0 <= j < |h| ==> exists k :: 0 <= k < |live| && j <= live[k] < |h| && !Better(highest, h[j], h[live[k]])
  }

  // ---------- what a push does to the queue ----------

  function Expired(live: seq<nat>, from: int): seq<nat> {
    if live != [] && live[0] < from then live[1..] else live
  }

  /** Drops from the back everything the new value is at least as good as. */
  function Beaten(live: seq<nat>, h: seq<real>, highest: bool, v: real): (rest: seq<nat>)
    requires forall k :: 0 <= k < |live| ==> live[k] < |h|
    ensures |rest| <= |live| && rest == live[..|rest|]
  {
    if live == [] || Better(highest, h[live[|live| - 1]], v) then live
    else Beaten(live[..|live| - 1], h, highest, v)
  }

  /** At most one index is past the window: every push makes room for one. */
  lemma ExpiryLeaves(live: seq<nat>, h: seq<real>, highest: bool, from: int)
    requires Queue(live, h, highest, from) && from >= 0
    ensures Queue(Expired(live, from + 1), h, highest, from + 1)
  {
    var rest := Expired(live, from + 1);
    forall j | from + 1 <= j < |h| ensures Outlived(rest, h, highest, j) {
      assert Outlived(live, h, highest, j);
      var k :| 0 <= k < |live| && j <= live[k] < |h| && !Better(highest, h[j], h[live[k]]);
      if rest != live {
        assert rest[k - 1] == live[k];
      }
    }
  }

  lemma {:induction false} BeatenAreWorse(live: seq<nat>, h: seq<real>, highest: bool, from: int, v: real)
    requires forall k :: 0 <= k < |live| ==> from <= live[k] < |h|
    requires forall i, k :: 0 <= i < k < |live| ==> live[i] < live[k] && Better(highest, h[live[i]], h[live[k]])
    ensures var rest := Beaten(live, h, highest, v);
      && (forall k :: |rest| <= k < |live| ==> !Better(highest, h[live[k]], v))
      && (rest != [] ==> Better(highest, h[rest[|rest| - 1]], v))
  {
    if live != [] && !Better(highest, h[live[|live| - 1]], v) {
      BeatenAreWorse(live[..|live| - 1], h, highest, from, v);
    }
  }

  function Pushed(live: seq<nat>, h: seq<real>, highest: bool, v: real): seq<nat>
    requires forall k :: 0 <= k < |live| ==> live[k] < |h|
  {
    Beaten(live, h, highest, v) + [|h|]
  }

  lemma PushKeepsQueue(live: seq<nat>, h: seq<real>, highest: bool, from: int, v: real)
    requires Queue(live, h, highest, from) && 0 <= from <= |h|
    ensures Queue(Pushed(live, h, highest, v), h + [v], highest, from)
  {
    BeatenAreWorse(live, h, highest, from, v);
    var rest, next, hh := Beaten(live, h, highest, v), Pushed(live, h, highest, v), h + [v];
    forall i, k | 0 <= i < k < |next| ensures next[i] < next[k] && Better(highest, hh[next[i]], hh[next[k]]) {
      if k == |rest| && i < |rest| - 1 {
        assert Better(highest, h[live[i]], h[live[|rest| - 1]]);
      }
    }
    forall j | from <= j < |hh| ensures Outlived(next, hh, highest, j) {
      if j == |h| {
        assert next[|rest|] == |h|;
      } else {
        assert Outlived(live, h, highest, j);
        var k :| 0 <= k < |live| && j <= live[k] < |h| && !Better(highest, h[j], h[live[k]]);
        if k < |rest| {
          assert next[k] == live[k];
        } else {
          assert next[|rest|] == |h| && !Better(highest, h[live[k]], v);
        }
      }
    }
  }

  lemma NextQueue(live: seq<nat>, h: seq<real>, highest: bool, size: nat, v: real)
    requires size >= 1 && Queue(live, h, highest, First(|h|, size))
    ensures var kept := Expired(live, First(|h| + 1, size));
      && (forall k :: 0 <= k < |kept| ==> kept[k] < |h|)
      && Queue(Pushed(kept, h, highest, v), h + [v], highest, First(|h| + 1, size))
  {
    if |h| >= size {
      ExpiryLeaves(live, h, highest, First(|h|, size));
    }
    PushKeepsQueue(Expired(live, First(|h| + 1, size)), h, highest, First(|h| + 1, size), v);
  }

  /** The front is the best of the window, and the newest value that good. */
  lemma FrontIsBest(live: seq<nat>, h: seq<real>, highest: bool, from: int)
    requires Queue(live, h, highest, from) && 0 <= from < |h|
    ensures live != [] && from <= live[0] < |h|
    ensures forall j :: from <= j < |h| ==> !Better(highest, h[j], h[live[0]])
    ensures forall j :: live[0] < j < |h| ==> h[j] != h[live[0]]
  {
    assert Outlived(live, h, highest, from);
    forall j | from <= j < |h|
      ensures !Better(highest, h[j], h[live[0]])
      ensures j > live[0] ==> h[j] != h[live[0]]
    {
      assert Outlived(live, h, highest, j);
      var k :| 0 <= k < |live| && j <= live[k] < |h| && !Better(highest, h[j], h[live[k]]);
    }
  }

  lemma QueueFits(live: seq<nat>, h: seq<real>, highest: bool, from: int)
    requires Queue(live, h, highest, from) && 0 <= from <= |h|
    ensures |live| <= |h| - from
  {
    CountIncreasing(live, from, |h|);
  }

  lemma {:induction false} CountIncreasing(live: seq<nat>, from: int, to: int)
    requires from <= to && forall k :: 0 <= k < |live| ==> from <= live[k] < to
    requires forall i, k :: 0 <= i < k < |live| ==> live[i] < live[k]
    ensures |live| <= to - from
  {
    if live != [] {
      CountIncreasing(live[..|live| - 1], from, live[|live| - 1]);
    }
  }

  // ---------- the circular arrays ----------

  /** The queue laid out from `head` round the arrays. */
  ghost predicate Laid(values: seq<real>, ages: seq<int>, head: int, live: seq<nat>, h: seq<real>) {
    && |values| == |ages| > 0
    && |live| <= |values|
    && (forall k :: 0 <= k < |live| ==> live[k] < |h|)
    && (forall k :: 0 <= k < |live| ==> SlotHolds(values, ages, head + k, live[k], h))
  }

  ghost predicate SlotHolds(values: seq<real>, ages: seq<int>, at: int, age: nat, h: seq<real>)
    requires |values| == |ages| > 0 && age < |h|
  {
    ages[at % |ages|] == age && values[at % |ages|] == h[age]
  }

  lemma HeadMoves(values: seq<real>, ages: seq<int>, head: int, live: seq<nat>, h: seq<real>)
    requires Laid(values, ages, head, live, h) && live != []
    ensures Laid(values, ages, (head + 1) % |ages|, live[1..], h)
  {
    forall k | 0 <= k < |live| - 1 ensures SlotHolds(values, ages, (head + 1) % |ages| + k, live[1..][k], h) {
      assert SlotHolds(values, ages, head + (k + 1), live[k + 1], h);
      ModShift(head + 1, k, |ages|);
    }
  }

  lemma LaidPrefix(values: seq<real>, ages: seq<int>, head: int, live: seq<nat>, h: seq<real>, n: nat)
    requires Laid(values, ages, head, live, h) && n <= |live|
    ensures Laid(values, ages, head, live[..n], h)
  {
    forall k | 0 <= k < n ensures SlotHolds(values, ages, head + k, live[..n][k], h) {
      assert SlotHolds(values, ages, head + k, live[k], h);
    }
  }

  /** Writing the slot after the queue overwrites nothing in it. */
  lemma TailWritten(values: seq<real>, ages: seq<int>, head: int, live: seq<nat>, h: seq<real>, v: real)
    requires Laid(values, ages, head, live, h) && |live| < |values|
    ensures var slot := (head + |live|) % |ages|;
      Laid(values[slot := v], ages[slot := |h|], head, live + [|h|], h + [v])
  {
    var slot := (head + |live|) % |ages|;
    var next := live + [|h|];
    forall k | 0 <= k < |next| ensures SlotHolds(values[slot := v], ages[slot := |h|], head + k, next[k], h + [v]) {
      if k < |live| {
        assert SlotHolds(values, ages, head + k, live[k], h);
        if (head + k) % |ages| == slot {
          ModUnique(head + |live|, head + k, |ages|);
        }
      }
    }
  }

  class Extreme {
    const size: nat
    const highest: bool
    const values: array<real>
    const ages: array<int>
    var head: nat
    var count: nat
    var seen: nat
    ghost var pushed: seq<real>
    ghost var live: seq<nat>
    ghost var pops: nat

    ghost predicate Valid()
      reads this, values, ages
    {
      && size >= 1 && values.Length == ages.Length == size
      && head < size
      && count == |live| && seen == |pushed|
      && Queue(live, pushed, highest, First(seen, size))
      && Laid(values[..], ages[..], head, live, pushed)
      && pops + count == seen
    }

    constructor (size: int, highest: bool)
      ensures Valid() && pushed == [] && this.size == Max(size, 1) && this.highest == highest
      ensures fresh(values) && fresh(ages)
    {
      this.size := Max(size, 1);
      this.highest := highest;
      values := new real[Max(size, 1)](_ => 0.0);
      ages := new int[Max(size, 1)](_ => 0);
      head, count, seen, pushed, live, pops := 0, 0, 0, [], [], 0;
    }

    /** One value in; at most one expires, the beaten leave from the back.  What leaves has
        come in, so any run of pushes pops no more than it pushed and was held before. */
    method Push(value: real)
      requires Valid()
      modifies this, values, ages
      ensures Valid() && pushed == old(pushed) + [value]
      ensures pops + count == old(pops) + old(count) + 1 && old(pops) <= pops && 1 <= count <= size
    {
      NextQueue(live, pushed, highest, size, value);
      Expire();
      DropBeaten(value);
      Append(value);
    }

    /** The oldest leaves when the window is about to move past it. */
    method Expire()
      requires Valid()
      modifies this`head, this`count, this`live, this`pops
      ensures live == Expired(old(live), First(seen + 1, size)) && pops + count == seen
      ensures count == |live| && head < size
      ensures Laid(values[..], ages[..], head, live, pushed)
    {
      if count == 0 {
        return;
      }
      FrontLaid();
      if ages[head] <= seen - size {
        HeadMoves(values[..], ages[..], head, live, pushed);
        head := (head + 1) % size;
        count := count - 1;
        live, pops := live[1..], pops + 1;
      }
    }

    method DropBeaten(value: real)
      requires size >= 1 && values.Length == ages.Length == size && head < size
      requires count == |live| && pops + count == seen == |pushed|
      requires Laid(values[..], ages[..], head, live, pushed)
      modifies this`count, this`live, this`pops
      ensures live == Beaten(old(live), pushed, highest, value) && pops + count == seen
      ensures count == |live| && Laid(values[..], ages[..], head, live, pushed)
    {
      ghost var before := live;
      while count > 0
        invariant count == |live| <= |before| && live == before[..count] && pops + count == seen
        invariant Beaten(before, pushed, highest, value) == Beaten(live, pushed, highest, value)
        decreases count
      {
        assert SlotHolds(values[..], ages[..], head + (count - 1), before[count - 1], pushed);
        var tail := (head + count - 1) % size;
        if highest && values[tail] > value {
          break;
        }
        if !highest && values[tail] < value {
          break;
        }
        count := count - 1;
        live, pops := live[..count], pops + 1;
      }
      LaidPrefix(values[..], ages[..], head, before, pushed, count);
    }

    method Append(value: real)
      requires size >= 1 && values.Length == ages.Length == size && head < size
      requires count == |live| && pops + count == seen == |pushed|
      requires Queue(live + [seen], pushed + [value], highest, First(seen + 1, size))
      requires Laid(values[..], ages[..], head, live, pushed)
      modifies this`count, this`seen, this`pushed, this`live, values, ages
      ensures Valid() && pushed == old(pushed) + [value]
    {
      QueueFits(live + [seen], pushed + [value], highest, First(seen + 1, size));
      Store(value);
      live, pushed := live + [seen], pushed + [value];
      count := count + 1;
      seen := seen + 1;
    }

    /** The slot after the queue takes the newcomer. */
    method Store(value: real)
      requires values.Length == ages.Length == size && count == |live| < size && seen == |pushed|
      requires Laid(values[..], ages[..], head, live, pushed)
      modifies values, ages
      ensures Laid(values[..], ages[..], head, live + [seen], pushed + [value])
    {
      TailWritten(values[..], ages[..], head, live, pushed, value);
      var slot := (head + count) % size;
      ghost var cells, stamps := values[..], ages[..];
      values[slot] := value;
      ages[slot] := seen;
      assert values[..] == cells[slot := value] && ages[..] == stamps[slot := seen];
    }

    predicate Full()
      reads this
    {
      seen >= size
    }

    /** The best of the last `size` values, or of all of them so far. */
    method Value() returns (value: real)
      requires Valid()
      ensures seen > 0 ==> Best(value, pushed, highest, First(seen, size))
      ensures seen == 0 ==> value == 0.0
    {
      if count == 0 {
        Nonempty();
        return 0.0;
      }
      value := values[head];
      FrontLaid();
      FrontIsBest(live, pushed, highest, First(seen, size));
    }

    /** How long ago the newest value that good came. */
    method Age() returns (age: int)
      requires Valid()
      ensures seen > 0 ==> NewestBest(age, pushed, highest, First(seen, size))
      ensures seen == 0 ==> age == 0
    {
      if count == 0 {
        Nonempty();
        return 0;
      }
      age := seen - 1 - ages[head];
      FrontLaid();
      FrontIsBest(live, pushed, highest, First(seen, size));
    }

    lemma Nonempty()
      requires Valid()
      ensures seen > 0 ==> live != []
    {
      if seen > 0 {
        FrontIsBest(live, pushed, highest, First(seen, size));
      }
    }

    lemma FrontLaid()
      requires Valid() && live != []
      ensures ages[head] == live[0] && values[head] == pushed[live[0]]
    {
      assert SlotHolds(values[..], ages[..], head + 0, live[0], pushed);
      SmallMod(head, size);
    }

    method Reset()
      requires Valid()
      modifies this, values, ages
      ensures Valid() && pushed == []
    {
      for k := 0 to size
        modifies values, ages
      {
        values[k], ages[k] := 0.0, 0;
      }
      head, count, seen, pushed, live, pops := 0, 0, 0, [], [], 0;
    }
  }

  /** `value` is in the window and nothing in it is better. */
  ghost predicate Best(value: real, h: seq<real>, highest: bool, from: int) {
    && (exists j :: 0 <= from <= j < |h| && h[j] == value)
    && (forall j :: 0 <= from <= j < |h| ==> !Better(highest, h[j], value))
  }

  /** `age` back is the newest of the window's best values. */
  ghost predicate NewestBest(age: int, h: seq<real>, highest: bool, from: int) {
    var at := |h| - 1 - age;
    && 0 <= from <= at < |h|
    && (forall j :: from <= j < |h| ==> !Better(highest, h[j], h[at]))
    && (forall j :: at < j < |h| ==> h[j] != h[at])
  }

}
