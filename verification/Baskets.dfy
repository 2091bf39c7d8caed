/** A basket: the symbols are run in turn on a common plan, each with its share of the
    capital, and their curves are added up. */
module Baskets {
  import opened Outcomes
  import opened Numbers
  import opened Bars
  import opened Tapes
  import opened Books
  import opened Stamps

  datatype Instrument = Instrument(symbol: Symbol, prime: seq<Candle>, candles: seq<Candle>)

  /** `borrow`, when there is one, knows every ticker's fees. */
  datatype Request = Request(plan: Plan, instruments: seq<Instrument>, capital: int, borrow: Option<string -> Lender>)

  function JobOf(req: Request, held: Instrument, share: int): Job {
    var lender := if req.borrow.None? then None else Some(req.borrow.value(held.symbol.ticker));
    Job(Desk(req.plan, held.symbol, lender), held.prime, held.candles, share)
  }

  // ---------- the capital ----------

  function Share(total: int, n: int, i: int): int
    requires n > 0
  {
    Quotient(total, n) + if i < Remainder(total, n) then 1 else 0
  }

  function Sum(xs: seq<int>): int {
    if xs == [] then 0 else Sum(xs[..|xs| - 1]) + xs[|xs| - 1]
  }

  method SplitCapital(total: int, n: nat) returns (shares: seq<int>)
    requires n > 0
    ensures |shares| == n && forall i :: 0 <= i < n ==> shares[i] == Share(total, n, i)
  {
    var all := new int[n];
    var base, extra := Quotient(total, n), Remainder(total, n);
    for i := 0 to n
      invariant forall k :: 0 <= k < i ==> all[k] == Share(total, n, k)
    {
      all[i] := base;
      if i < extra {
        all[i] := all[i] + 1;
      }
    }
    shares := all[..];
  }

  lemma {:induction false} ShareSum(total: int, n: nat, shares: seq<int>)
    requires n > 0 && total >= 0 && |shares| <= n
    requires forall i :: 0 <= i < |shares| ==> shares[i] == Share(total, n, i)
    ensures Sum(shares) == |shares| * Quotient(total, n) + Min(|shares|, Remainder(total, n))
  {
    var k := |shares|;
    RemainderRange(total, n);
    if k > 0 {
      ShareSum(total, n, shares[..k - 1]);
      assert k * Quotient(total, n) == (k - 1) * Quotient(total, n) + Quotient(total, n);
    }
  }

  lemma RemainderRange(total: int, n: nat)
    requires n > 0 && total >= 0
    ensures 0 <= Remainder(total, n) < n && total == n * Quotient(total, n) + Remainder(total, n)
  {
  }

  /** No cent is dropped and none is invented: the shares add up to the capital, differ by
      at most one cent, and the larger ones come first. */
  lemma SharesAddUp(total: int, n: nat, shares: seq<int>)
    requires n > 0 && total >= 0 && |shares| == n
    requires forall i :: 0 <= i < n ==> shares[i] == Share(total, n, i)
    ensures Sum(shares) == total
    ensures forall i, j :: 0 <= i < j < n ==> shares[j] <= shares[i] <= shares[j] + 1
  {
    ShareSum(total, n, shares);
    RemainderRange(total, n);
  }

  // ---------- the timeline ----------

  function StampsIn(equity: seq<Point>): set<int> {
    set i | 0 <= i < |equity| :: equity[i].ts
  }

  function AllStamps(curves: seq<seq<Point>>): set<int> {
    set k, i | 0 <= k < |curves| && 0 <= i < |curves[k]| :: curves[k][i].ts
  }

  method UnionStamps(curves: seq<seq<Point>>) returns (stamps: seq<int>)
    ensures stamps == Ascending(AllStamps(curves))
  {
    var seen: set<int> := {};
    for k := 0 to |curves|
      invariant seen == AllStamps(curves[..k])
    {
      for i := 0 to |curves[k]|
        invariant seen == AllStamps(curves[..k]) + StampsIn(curves[k][..i])
      {
        assert curves[k][..i + 1] == curves[k][..i] + [curves[k][i]];
        seen := seen + {curves[k][i].ts};
      }
      assert curves[k][..|curves[k]|] == curves[k];
      assert curves[..k + 1] == curves[..k] + [curves[k]];
    }
    assert curves[..|curves|] == curves;
    stamps := Ascending(seen);
  }

  // ---------- the curves ----------

  /** How many leading points are at or before `ts`. */
  function Leading(equity: seq<Point>, ts: int): (n: nat)
    ensures n <= |equity|
  {
    if equity == [] || equity[0].ts > ts then 0 else 1 + Leading(equity[1..], ts)
  }

  function ValueAt(equity: seq<Point>, start: int, ts: int): int {
    var n := Leading(equity, ts);
    if n == 0 then start else equity[n - 1].cents
  }

  function Aligned(stamps: seq<int>, equity: seq<Point>, start: int): (r: seq<int>)
    ensures |r| == |stamps|
  {
    seq(|stamps|, i requires 0 <= i < |stamps| => ValueAt(equity, start, stamps[i]))
  }

  lemma {:induction false} LeadingPrefix(equity: seq<Point>, ts: int)
    ensures forall i :: 0 <= i < Leading(equity, ts) ==> equity[i].ts <= ts
    ensures Leading(equity, ts) < |equity| ==> equity[Leading(equity, ts)].ts > ts
  {
    if !(equity == [] || equity[0].ts > ts) {
      LeadingPrefix(equity[1..], ts);
      forall i | 0 <= i < Leading(equity, ts) ensures equity[i].ts <= ts {
        if i > 0 {
          assert equity[i] == equity[1..][i - 1];
        }
      }
    }
  }

  lemma {:induction false} LeadingIs(equity: seq<Point>, ts: int, n: nat)
    requires n <= |equity|
    requires forall i :: 0 <= i < n ==> equity[i].ts <= ts
    requires n < |equity| ==> equity[n].ts > ts
    ensures Leading(equity, ts) == n
  {
    if n > 0 {
      forall i | 0 <= i < n - 1 ensures equity[1..][i].ts <= ts {
        assert equity[1..][i] == equity[i + 1];
      }
      LeadingIs(equity[1..], ts, n - 1);
    }
  }

  /** A sleeve on the common timeline: its untouched share until it starts, its last value
      once it is over.  Two cursors, one pass. */
  method AlignSleeve(stamps: seq<int>, equity: seq<Point>, start: int) returns (out: seq<int>)
    requires Rising(stamps)
    ensures out == Aligned(stamps, equity, start)
  {
    var all := new int[|stamps|];
    var last, at := start, 0;
    for i := 0 to |stamps|
      invariant 0 <= at <= |equity|
      invariant last == if at == 0 then start else equity[at - 1].cents
      invariant forall k, j :: 0 <= k < at && i <= j < |stamps| ==> equity[k].ts <= stamps[j]
      invariant forall k :: 0 <= k < i ==> all[k] == ValueAt(equity, start, stamps[k])
    {
      while at < |equity| && equity[at].ts <= stamps[i]
        invariant 0 <= at <= |equity|
        invariant last == if at == 0 then start else equity[at - 1].cents
        invariant forall k :: 0 <= k < at ==> equity[k].ts <= stamps[i]
      {
        last := equity[at].cents;
        at := at + 1;
      }
      LeadingIs(equity, stamps[i], at);
      all[i] := last;
    }
    out := all[..];
  }

  /** On an ascending curve the aligned value is the last one at or before the stamp. */
  lemma AlignedIsLastKnown(stamps: seq<int>, equity: seq<Point>, start: int, i: nat)
    requires i < |stamps|
    requires forall a, b :: 0 <= a < b < |equity| ==> equity[a].ts < equity[b].ts
    ensures (forall k :: 0 <= k < |equity| ==> equity[k].ts > stamps[i]) ==> Aligned(stamps, equity, start)[i] == start
    ensures forall k :: 0 <= k < |equity| && equity[k].ts <= stamps[i]
                        && (k + 1 < |equity| ==> equity[k + 1].ts > stamps[i])
              ==> Aligned(stamps, equity, start)[i] == equity[k].cents
  {
    LeadingPrefix(equity, stamps[i]);
    forall k | 0 <= k < |equity| && equity[k].ts <= stamps[i] && (k + 1 < |equity| ==> equity[k + 1].ts > stamps[i])
      ensures Aligned(stamps, equity, start)[i] == equity[k].cents
    {
      LeadingIs(equity, stamps[i], k + 1);
    }
  }

  function SumAt(curves: seq<seq<int>>, k: nat): int
    requires forall c :: 0 <= c < |curves| ==> k < |curves[c]|
  {
    if curves == [] then 0 else SumAt(curves[..|curves| - 1], k) + curves[|curves| - 1][k]
  }

  method SumAligned(curves: seq<seq<int>>, stamps: seq<int>) returns (points: seq<Point>)
    requires forall c :: 0 <= c < |curves| ==> |curves[c]| == |stamps|
    ensures |points| == |stamps|
    ensures forall k :: 0 <= k < |stamps| ==> points[k] == Point(stamps[k], SumAt(curves, k))
  {
    var total := new int[|stamps|](_ => 0);
    for c := 0 to |curves|
      invariant forall k :: 0 <= k < |stamps| ==> total[k] == SumAt(curves[..c], k)
    {
      assert curves[..c + 1][..c] == curves[..c];
      for k := 0 to |stamps|
        invariant forall j :: 0 <= j < k ==> total[j] == SumAt(curves[..c + 1], j)
        invariant forall j :: k <= j < |stamps| ==> total[j] == SumAt(curves[..c], j)
      {
        total[k] := total[k] + curves[c][k];
      }
    }
    assert curves[..|curves|] == curves;
    points := seq(|stamps|, k requires 0 <= k < |stamps| reads total => Point(stamps[k], total[k]));
  }

}
