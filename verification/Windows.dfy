/** The last few values of a stream: a circular buffer with a running sum. */
module Windows {
  import opened Numbers

  /** The newest `size` of the values so far, or all of them. */
  function Tail(h: seq<real>, size: nat): (r: seq<real>)
    ensures |r| == if |h| < size then |h| else size
  {
    if |h| <= size then h else h[|h| - size..]
  }

  function Sum(xs: seq<real>): real {
    if xs == [] then 0.0 else Sum(xs[..|xs| - 1]) + xs[|xs| - 1]
  }

  function Mean(xs: seq<real>): real {
    if xs == [] then 0.0 else Sum(xs) / |xs| as real
  }

  lemma SumAppend(xs: seq<real>, v: real)
    ensures Sum(xs + [v]) == Sum(xs) + v
  {
    assert (xs + [v])[..|xs|] == xs;
  }

  lemma {:induction false} SumFirst(xs: seq<real>)
    requires xs != []
    ensures Sum(xs) == xs[0] + Sum(xs[1..])
  {
    if |xs| > 1 {
      var n := |xs| - 1;
      SumFirst(xs[..n]);
      assert xs[..n][1..] == xs[1..][..n - 1];
    } else {
      assert xs[..0] == [] && xs[1..] == [];
    }
  }

  lemma TailGrows(h: seq<real>, v: real, size: nat)
    requires size >= 1
    ensures |h| < size ==> Tail(h + [v], size) == Tail(h, size) + [v]
    ensures |h| >= size ==> Tail(h + [v], size) == Tail(h, size)[1..] + [v]
  {
  }

  /** Values older than the window do not matter: priming with a window's worth is exact. */
  lemma TailForgets(older: seq<real>, h: seq<real>, size: nat)
    requires |h| >= size
    ensures Tail(older + h, size) == Tail(h, size)
  {
  }

  lemma SumSlides(h: seq<real>, v: real, size: nat)
    requires size >= 1
    ensures Sum(Tail(h + [v], size)) == Sum(Tail(h, size)) + v - (if |h| >= size then h[|h| - size] else 0.0)
  {
    TailGrows(h, v, size);
    if |h| >= size {
      SumFirst(Tail(h, size));
      SumAppend(Tail(h, size)[1..], v);
    } else {
      SumAppend(Tail(h, size), v);
    }
  }

  /** A zeroed circular buffer after these writes, each to the slot after the last. */
  function Cells(h: seq<real>, size: nat): (r: seq<real>)
    requires size >= 1
    ensures |r| == size
  {
    if h == [] then seq(size, _ => 0.0)
    else Cells(h[..|h| - 1], size)[(|h| - 1) % size := h[|h| - 1]]
  }

  lemma CellsGrow(h: seq<real>, v: real, size: nat)
    requires size >= 1
    ensures Cells(h + [v], size) == Cells(h, size)[|h| % size := v]
  {
    assert (h + [v])[..|h|] == h;
  }

  /** A live value is never overwritten: value `j` stays at `j` modulo the size until
      `size` more have come, and a slot not reached yet is still zero. */
  lemma {:induction false} CellAt(h: seq<real>, size: nat, j: nat)
    requires size >= 1
    ensures j < |h| && |h| - size <= j ==> Cells(h, size)[j % size] == h[j]
    ensures |h| <= j < size ==> Cells(h, size)[j] == 0.0
  {
    if h != [] {
      var n := |h| - 1;
      CellAt(h[..n], size, j);
      if |h| <= j < size {
        SmallMod(n, size);
      }
      if j < n && |h| - size <= j && j % size == n % size {
        ModUnique(n, j, size);
      }
    }
  }

  /** The next slot holds the value about to leave, or nothing yet. */
  lemma NextSlot(h: seq<real>, size: nat)
    requires size >= 1
    ensures Cells(h, size)[|h| % size] == if |h| >= size then h[|h| - size] else 0.0
  {
    if |h| >= size {
      WholeTurn(|h| - size, size);
      CellAt(h, size, |h| - size);
    } else {
      SmallMod(|h|, size);
      CellAt(h, size, |h|);
    }
  }

  /** The slot of the held value `i`, counted from the oldest of `count`. */
  lemma AtIndex(n: nat, count: nat, i: nat, size: nat, start: int)
    requires size >= 1 && count <= n && count <= size && start == (n % size + (size - count)) % size
    ensures (start + i) % size == (n - count + i) % size
  {
    ModShift(n, size - count, size);
    var m := n + (size - count);
    assert start == m % size;
    ModShift(m, i, size);
    WholeTurn(n - count + i, size);
    assert m + i == n - count + i + size;
  }

  class Ring {
    const values: array<real>
    var next: nat
    var count: nat
    var total: real
    ghost var pushed: seq<real>

    ghost predicate Valid()
      reads this, values
    {
      && values.Length >= 1
      && values[..] == Cells(pushed, values.Length)
      && next == Turned(|pushed|, values.Length)
      && count == Min(|pushed|, values.Length)
      && total == Sum(Tail(pushed, values.Length))
    }

    constructor (size: int)
      ensures Valid() && pushed == [] && values.Length == Max(size, 1) && fresh(values)
    {
      values := new real[Max(size, 1)](_ => 0.0);
      next, count, total, pushed := 0, 0, 0.0, [];
    }

    method Push(value: real) returns (evicted: real)
      requires Valid()
      modifies this, values
      ensures Valid() && pushed == old(pushed) + [value]
      ensures evicted == if |old(pushed)| >= values.Length then old(pushed)[|old(pushed)| - values.Length] else 0.0
    {
      evicted := Write(value);
      if count < values.Length {
        count := count + 1;
      }
      total := total + (value - evicted);
      SumSlides(pushed, value, values.Length);
      pushed := pushed + [value];
    }

    /** The value goes to the next slot, over the one that leaves. */
    method Write(value: real) returns (evicted: real)
      requires Valid()
      modifies this`next, values
      ensures values[..] == Cells(pushed + [value], values.Length)
      ensures next == Turned(|pushed + [value]|, values.Length)
      ensures evicted == if |pushed| >= values.Length then pushed[|pushed| - values.Length] else 0.0
    {
      TurnedIs(|pushed|, values.Length);
      NextSlot(pushed, values.Length);
      CellsGrow(pushed, value, values.Length);
      evicted := values[next];
      values[next] := value;
      next := (next + 1) % values.Length;
    }

    /** The held values, oldest first. */
    method At(i: int) returns (value: real)
      requires Valid()
      ensures value == if 0 <= i < |Tail(pushed, values.Length)| then Tail(pushed, values.Length)[i] else 0.0
    {
      if i < 0 || i >= count {
        return 0.0;
      }
      var start := (next - count + values.Length) % values.Length;
      TurnedIs(|pushed|, values.Length);
      AtIndex(|pushed|, count, i, values.Length, start);
      value := values[(start + i) % values.Length];
      CellAt(pushed, values.Length, |pushed| - count + i);
    }

    predicate Full()
      reads this
    {
      count == values.Length
    }

    function MeanOf(): (mean: real)
      requires Valid()
      reads this, values
      ensures mean == Mean(Tail(pushed, values.Length))
    {
      if count == 0 then 0.0 else total / count as real
    }

    method Reset()
      requires Valid()
      modifies this, values
      ensures Valid() && pushed == []
    {
      for k := 0 to values.Length
        invariant forall i :: 0 <= i < k ==> values[i] == 0.0
        invariant values.Length >= 1
      {
        values[k] := 0.0;
      }
      next, count, total, pushed := 0, 0, 0.0, [];
    }
  }
}
