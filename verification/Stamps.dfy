/** Time stamps in order. */
module Stamps {
  predicate Rising(stamps: seq<int>) {
    forall i, j :: 0 <= i < j < |stamps| ==> stamps[i] < stamps[j]
  }

  predicate IsLeast(least: int, stamps: set<int>) {
    least in stamps && forall x :: x in stamps ==> least <= x
  }

  lemma {:induction false} LeastStampExists(stamps: set<int>, x: int)
    requires x in stamps
    ensures exists least :: IsLeast(least, stamps)
  {
    if y :| y in stamps && y < x {
      LeastStampExists(stamps - {x}, y);
      var least :| IsLeast(least, stamps - {x});
      assert forall z :: z in stamps ==> z == x || z in stamps - {x};
      assert IsLeast(least, stamps);
    } else {
      assert IsLeast(x, stamps);
    }
  }

  /** slices.Sort over the keys of a map. */
  function Ascending(stamps: set<int>): (r: seq<int>)
    ensures Rising(r) && (forall x :: x in r <==> x in stamps)
  {
    if !(exists x :: x in stamps) then []
    else
      assert exists least :: IsLeast(least, stamps) by {
        var x :| x in stamps;
        LeastStampExists(stamps, x);
      }
      var least :| IsLeast(least, stamps);
      [least] + Ascending(stamps - {least})
  }
}
