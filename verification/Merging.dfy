/** One trade log out of many: joined, ordered by entry, exit and symbol, and numbered. */
module Merging {
  import opened Text
  import opened Books
  import opened Conservation

  /** Whether `a` may stand before `b`: entry first, then exit, then symbol. */
  predicate Ordered(a: Trade, b: Trade) {
    if a.entryTs != b.entryTs then a.entryTs < b.entryTs
    else if a.exitTs != b.exitTs then a.exitTs < b.exitTs
    else Leq(a.symbol, b.symbol)
  }

  predicate Tied(a: Trade, b: Trade) {
    a.entryTs == b.entryTs && a.exitTs == b.exitTs && a.symbol == b.symbol
  }

  predicate InOrder(trades: seq<Trade>) {
    forall i, j :: 0 <= i < j < |trades| ==> Ordered(trades[i], trades[j])
  }

  /** slices.SortStableFunc, as insertion from the back. */
  function Sort(trades: seq<Trade>): (r: seq<Trade>)
    ensures |r| == |trades|
  {
    if trades == [] then [] else Insert(trades[0], Sort(trades[1..]))
  }

  function Insert(t: Trade, sorted: seq<Trade>): (r: seq<Trade>)
    ensures |r| == |sorted| + 1
  {
    if sorted == [] || Ordered(t, sorted[0]) then [t] + sorted
    else [sorted[0]] + Insert(t, sorted[1..])
  }

  lemma OrderedTotal(a: Trade, b: Trade)
    ensures Ordered(a, b) || Ordered(b, a)
    ensures Ordered(a, b) && Ordered(b, a) ==> Tied(a, b)
  {
    LeqTotal(a.symbol, b.symbol);
    if Ordered(a, b) && Ordered(b, a) {
      LeqAntisymmetric(a.symbol, b.symbol);
    }
  }

  lemma OrderedTransitive(a: Trade, b: Trade, c: Trade)
    requires Ordered(a, b) && Ordered(b, c)
    ensures Ordered(a, c)
  {
    if Leq(a.symbol, b.symbol) && Leq(b.symbol, c.symbol) {
      LeqTransitive(a.symbol, b.symbol, c.symbol);
    }
  }

  lemma {:induction false} InsertKeepsAll(t: Trade, sorted: seq<Trade>)
    ensures multiset(Insert(t, sorted)) == multiset(sorted) + multiset{t}
  {
    if !(sorted == [] || Ordered(t, sorted[0])) {
      InsertKeepsAll(t, sorted[1..]);
      assert sorted == [sorted[0]] + sorted[1..];
    }
  }

  lemma {:induction false} InsertInOrder(t: Trade, sorted: seq<Trade>)
    requires InOrder(sorted)
    ensures InOrder(Insert(t, sorted))
  {
    if sorted == [] {
    } else if Ordered(t, sorted[0]) {
      forall j | 0 <= j < |sorted| ensures Ordered(t, sorted[j]) {
        if j > 0 {
          OrderedTransitive(t, sorted[0], sorted[j]);
        }
      }
    } else {
      var rest := Insert(t, sorted[1..]);
      InsertInOrder(t, sorted[1..]);
      OrderedTotal(t, sorted[0]);
      InsertKeepsAll(t, sorted[1..]);
      forall j | 0 <= j < |rest| ensures Ordered(sorted[0], rest[j]) {
        assert rest[j] in multiset(rest);
        if rest[j] != t {
          assert rest[j] in multiset(sorted[1..]);
          var k :| 0 <= k < |sorted[1..]| && sorted[1..][k] == rest[j];
          assert Ordered(sorted[0], sorted[k + 1]);
        }
      }
    }
  }

  /** The ones tied with `t`, in the order they stand. */
  function Ties(t: Trade, trades: seq<Trade>): seq<Trade> {
    if trades == [] then []
    else (if Tied(t, trades[0]) then [trades[0]] else []) + Ties(t, trades[1..])
  }

  lemma {:induction false} InsertIsStable(t: Trade, sorted: seq<Trade>, x: Trade)
    ensures Ties(x, Insert(t, sorted)) == Ties(x, [t] + sorted)
  {
    assert ([t] + sorted)[1..] == sorted;
    if !(sorted == [] || Ordered(t, sorted[0])) {
      InsertIsStable(t, sorted[1..], x);
      var rest := Insert(t, sorted[1..]);
      assert ([sorted[0]] + rest)[1..] == rest;
      assert ([t] + sorted[1..])[1..] == sorted[1..];
      LeqTotal(t.symbol, t.symbol);
    }
  }

  /** The sort is a permutation in order, and trades that tie keep their places. */
  lemma {:induction false} SortIsStable(trades: seq<Trade>, x: Trade)
    ensures InOrder(Sort(trades))
    ensures multiset(Sort(trades)) == multiset(trades)
    ensures Ties(x, Sort(trades)) == Ties(x, trades)
  {
    if trades != [] {
      SortIsStable(trades[1..], x);
      InsertInOrder(trades[0], Sort(trades[1..]));
      InsertKeepsAll(trades[0], Sort(trades[1..]));
      InsertIsStable(trades[0], Sort(trades[1..]), x);
      assert trades == [trades[0]] + trades[1..];
      assert ([trades[0]] + Sort(trades[1..]))[1..] == Sort(trades[1..]);
    }
  }

  function Joined(logs: seq<seq<Trade>>): seq<Trade> {
    if logs == [] then [] else Joined(logs[..|logs| - 1]) + logs[|logs| - 1]
  }

  function Numbered(trades: seq<Trade>): (r: seq<Trade>)
    ensures |r| == |trades|
    ensures forall i :: 0 <= i < |r| ==> r[i] == trades[i].(seqNo := i + 1)
  {
    seq(|trades|, i requires 0 <= i < |trades| => trades[i].(seqNo := i + 1))
  }

  /** One log out of many: joined, sorted, and counted afresh. */
  method MergeTrades(logs: seq<seq<Trade>>) returns (merged: seq<Trade>)
    ensures merged == Numbered(Sort(Joined(logs)))
  {
    var all: seq<Trade> := [];
    for i := 0 to |logs|
      invariant all == Joined(logs[..i])
    {
      assert logs[..i + 1][..i] == logs[..i];
      all := all + logs[i];
    }
    assert logs[..|logs|] == logs;
    var sorted := Sort(all);
    var rows := new Trade[|sorted|](i requires 0 <= i < |sorted| => sorted[i]);
    for i := 0 to rows.Length
      invariant forall k :: 0 <= k < i ==> rows[k] == sorted[k].(seqNo := k + 1)
      invariant forall k :: i <= k < rows.Length ==> rows[k] == sorted[k]
    {
      rows[i] := rows[i].(seqNo := i + 1);
    }
    merged := rows[..];
    assert merged == Numbered(sorted);
  }

  // ---------- what the log adds up to ----------

  lemma {:induction false} PnlJoins(a: seq<Trade>, b: seq<Trade>)
    ensures PnlTotal(a + b) == PnlTotal(a) + PnlTotal(b)
  {
    if b == [] {
      assert a + b == a;
    } else {
      assert (a + b)[..|a + b| - 1] == a + b[..|b| - 1];
      PnlJoins(a, b[..|b| - 1]);
    }
  }

  lemma {:induction false} PnlInserted(t: Trade, sorted: seq<Trade>)
    ensures PnlTotal(Insert(t, sorted)) == t.pnlCents + PnlTotal(sorted)
  {
    PnlOne(t);
    if sorted == [] || Ordered(t, sorted[0]) {
      PnlJoins([t], sorted);
    } else {
      PnlOne(sorted[0]);
      PnlInserted(t, sorted[1..]);
      PnlJoins([sorted[0]], Insert(t, sorted[1..]));
      PnlJoins([sorted[0]], sorted[1..]);
      assert sorted == [sorted[0]] + sorted[1..];
    }
  }

  lemma PnlOne(t: Trade)
    ensures PnlTotal([t]) == t.pnlCents
  {
    assert PnlTotal([t][..0]) == 0;
  }

  lemma {:induction false} PnlSorted(trades: seq<Trade>)
    ensures PnlTotal(Sort(trades)) == PnlTotal(trades)
  {
    if trades != [] {
      PnlSorted(trades[1..]);
      PnlInserted(trades[0], Sort(trades[1..]));
      PnlOne(trades[0]);
      PnlJoins([trades[0]], trades[1..]);
      assert trades == [trades[0]] + trades[1..];
    }
  }

  lemma {:induction false} PnlAlike(a: seq<Trade>, b: seq<Trade>)
    requires |a| == |b| && forall i :: 0 <= i < |a| ==> a[i].pnlCents == b[i].pnlCents
    ensures PnlTotal(a) == PnlTotal(b)
  {
    if a != [] {
      PnlAlike(a[..|a| - 1], b[..|b| - 1]);
    }
  }

  function PnlOf(logs: seq<seq<Trade>>): int {
    if logs == [] then 0 else PnlOf(logs[..|logs| - 1]) + PnlTotal(logs[|logs| - 1])
  }

  lemma {:induction false} PnlOfJoined(logs: seq<seq<Trade>>)
    ensures PnlTotal(Joined(logs)) == PnlOf(logs)
  {
    if logs != [] {
      PnlOfJoined(logs[..|logs| - 1]);
      PnlJoins(Joined(logs[..|logs| - 1]), logs[|logs| - 1]);
    }
  }

  /** Merging moves no money. */
  lemma MergeKeepsPnl(logs: seq<seq<Trade>>)
    ensures PnlTotal(Numbered(Sort(Joined(logs)))) == PnlOf(logs)
  {
    PnlOfJoined(logs);
    PnlSorted(Joined(logs));
    PnlAlike(Numbered(Sort(Joined(logs))), Sort(Joined(logs)));
  }

  lemma NumberingKeepsOrder(trades: seq<Trade>)
    requires InOrder(trades)
    ensures InOrder(Numbered(trades))
  {
    forall i, j | 0 <= i < j < |trades| ensures Ordered(Numbered(trades)[i], Numbered(trades)[j]) {
      assert Ordered(trades[i], trades[j]);
    }
  }

  /** The merged log is in order, numbered from one, and holds the logs' trades. */
  lemma LogIsMerged(logs: seq<seq<Trade>>, log: seq<Trade>)
    requires log == Numbered(Sort(Joined(logs)))
    ensures InOrder(log)
    ensures forall i, j :: 0 <= i < j < |log| ==>
      var a, b := log[i], log[j];
      && a.entryTs <= b.entryTs
      && (a.entryTs == b.entryTs ==> a.exitTs <= b.exitTs)
      && (a.entryTs == b.entryTs && a.exitTs == b.exitTs ==> Leq(a.symbol, b.symbol))
    ensures forall i :: 0 <= i < |log| ==> log[i].seqNo == i + 1
    ensures multiset(Sort(Joined(logs))) == multiset(Joined(logs))
    ensures PnlTotal(log) == PnlOf(logs)
  {
    MergeKeepsPnl(logs);
    var joined := Joined(logs);
    if joined != [] {
      SortIsStable(joined, joined[0]);
      NumberingKeepsOrder(Sort(joined));
    }
  }
}
