/** Inputs that read other inputs: finding a loop among them, and ordering them so that
    each comes after what it reads. */
module Chaining {
  import opened Outcomes
  import opened Forms

  /** Each name reads the next, and the last the first. */
  ghost predicate Loop(chains: map<string, string>, cycle: seq<string>) {
    && cycle != []
    && forall i :: 0 <= i < |cycle| ==> Reads(chains, cycle[i], cycle[if i + 1 < |cycle| then i + 1 else 0])
  }

  predicate Reads(chains: map<string, string>, name: string, source: string) {
    name in chains && chains[name] == source
  }

  lemma LoopDescends(chains: map<string, string>, cycle: seq<string>, rank: map<string, nat>)
    requires Loop(chains, cycle) && Ranked(chains, rank)
    ensures cycle[0] in rank && cycle[|cycle| - 1] in rank
    ensures rank[cycle[|cycle| - 1]] <= rank[cycle[0]]
    ensures Reads(chains, cycle[|cycle| - 1], cycle[0])
  {
    var i := 0;
    assert Reads(chains, cycle[0], cycle[if 1 < |cycle| then 1 else 0]);
    while i + 1 < |cycle|
      invariant 0 <= i < |cycle|
      invariant cycle[0] in rank && cycle[i] in rank && rank[cycle[i]] <= rank[cycle[0]]
    {
      assert Reads(chains, cycle[i], cycle[i + 1]);
      i := i + 1;
    }
    assert Reads(chains, cycle[i], cycle[0]);
  }

  /** A loop cannot be ranked, so it is exactly what an acyclic set of inputs lacks. */
  lemma LoopHasNoRank(chains: map<string, string>, cycle: seq<string>)
    requires Loop(chains, cycle)
    ensures !Acyclic(chains)
  {
    forall rank | Ranked(chains, rank)
      ensures false
    {
      LoopDescends(chains, cycle, rank);
    }
  }

  datatype Mark = Open | Shut

  /** A walk along the chain, all of it open. */
  ghost predicate Walking(chains: map<string, string>, walk: seq<string>) {
    && (forall i, j :: 0 <= i < j < |walk| ==> walk[i] != walk[j])
    && forall i :: 0 <= i < |walk| - 1 ==> Reads(chains, walk[i], walk[i + 1])
  }

  function Next(chains: map<string, string>, name: string): Option<string> {
    if name in chains then Some(chains[name]) else None
  }

  /** Every shut name is ranked above what it reads, which is shut too. */
  ghost predicate Settled(chains: map<string, string>, state: map<string, Mark>, rank: map<string, nat>, top: nat) {
    forall name :: name in state && state[name].Shut? ==>
      && name in rank && rank[name] <= top
      && (name in chains ==>
            chains[name] in state && state[chains[name]].Shut? && chains[name] in rank && rank[chains[name]] < rank[name])
  }

  /** Follow the chain from `start`, opening names, until it ends or meets one already
      marked. */
  method Walk(start: string, chains: map<string, string>, before: map<string, Mark>, ghost universe: set<string>)
      returns (walk: seq<string>, at: Option<string>, state: map<string, Mark>)
    requires start in universe && start !in before
    requires forall name :: name in chains ==> chains[name] in universe
    ensures Walking(chains, walk) && walk != [] && walk[0] == start && at == Next(chains, walk[|walk| - 1])
    ensures forall k :: 0 <= k < |walk| ==> walk[k] !in before
    ensures at.Some? ==> at.value in state
    ensures forall name :: name in state <==> name in before || name in walk
    ensures forall name :: name in state ==> state[name] == if name in before then before[name] else Open
  {
    state, walk, at := before, [], Some(start);
    while at.Some? && at.value !in state
      invariant at.Some? ==> at.value in universe
      invariant Walking(chains, walk)
      invariant forall k :: 0 <= k < |walk| ==> walk[k] !in before
      invariant walk == [] ==> at == Some(start)
      invariant walk != [] ==> walk[0] == start && at == Next(chains, walk[|walk| - 1])
      invariant forall name :: name in state <==> name in before || name in walk
      invariant forall name :: name in state ==> state[name] == if name in before then before[name] else Open
      decreases universe - state.Keys
    {
      assert at.value in universe - state.Keys;
      state := state[at.value := Open];
      walk := walk + [at.value];
      at := Next(chains, at.value);
    }
  }

  /** Shut a walk that ended well, ranking it above everything shut before. */
  method ShutWalk(walk: seq<string>, chains: map<string, string>, before: map<string, Mark>, begun: map<string, Mark>,
                  ghost rank: map<string, nat>, ghost top: nat)
      returns (state: map<string, Mark>, ghost rank': map<string, nat>)
    requires Walking(chains, walk) && walk != [] && Settled(chains, before, rank, top)
    requires forall k :: 0 <= k < |walk| ==> walk[k] !in before
    requires walk[|walk| - 1] in chains ==>
        chains[walk[|walk| - 1]] in before && before[chains[walk[|walk| - 1]]].Shut?
    requires forall name :: name in begun <==> name in before || name in walk
    requires forall name :: name in before ==> begun[name] == before[name] == Shut
    ensures forall name :: name in state <==> name in begun
    ensures forall name :: name in state ==> state[name].Shut?
    ensures Settled(chains, state, rank', top + |walk|)
  {
    state, rank' := begun, rank;
    for k := 0 to |walk|
      invariant forall name :: name in state <==> name in begun
      invariant forall name :: name in before ==> state[name].Shut? && name in rank' && rank'[name] == rank[name]
      invariant forall m :: 0 <= m < k ==> state[walk[m]] == Shut && walk[m] in rank' && rank'[walk[m]] == top + |walk| - m
    {
      state := state[walk[k] := Shut];
      rank' := rank'[walk[k] := top + |walk| - k];
    }
    forall name | name in state
      ensures state[name].Shut? && name in rank' && rank'[name] <= top + |walk|
      ensures name in chains ==> chains[name] in state && chains[name] in rank' && rank'[chains[name]] < rank'[name]
    {
      if name in walk {
        var m :| 0 <= m < |walk| && walk[m] == name;
        assert m < |walk| - 1 ==> Reads(chains, walk[m], walk[m + 1]);
      }
    }
  }

  method FindCycle(names: seq<string>, chains: map<string, string>) returns (cycle: seq<string>)
    requires forall name :: name in chains ==> name in names && chains[name] in names
    ensures cycle != [] ==> Loop(chains, cycle)
    ensures cycle == [] <==> Acyclic(chains)
  {
    var state: map<string, Mark> := map[];
    ghost var universe := set name | name in names;
    ghost var rank: map<string, nat>, top: nat := map[], 0;
    for i := 0 to |names|
      invariant forall k :: 0 <= k < i ==> names[k] in state
      invariant forall name :: name in state ==> state[name].Shut?
      invariant Settled(chains, state, rank, top)
    {
      if names[i] in state {
        continue;
      }
      var walk, at, begun := Walk(names[i], chains, state, universe);
      if at.Some? && begun[at.value].Open? {
        cycle := walk[Position(walk, at.value)..];
        ClosedWalkIsLoop(chains, walk, Position(walk, at.value));
        LoopHasNoRank(chains, cycle);
        return;
      }
      state, rank := ShutWalk(walk, chains, state, begun, rank, top);
      top := top + |walk|;
    }
    assert Ranked(chains, rank);
    cycle := [];
  }

  lemma ClosedWalkIsLoop(chains: map<string, string>, walk: seq<string>, from: nat)
    requires Walking(chains, walk) && from < |walk|
    requires Next(chains, walk[|walk| - 1]) == Some(walk[from])
    ensures Loop(chains, walk[from..])
  {
    var cycle := walk[from..];
    forall k | 0 <= k < |cycle|
      ensures Reads(chains, cycle[k], cycle[if k + 1 < |cycle| then k + 1 else 0])
    {
      assert k < |cycle| - 1 ==> Reads(chains, walk[from + k], walk[from + k + 1]);
    }
  }

  function Position(s: seq<string>, x: string): (i: nat)
    requires x in s
    ensures i < |s| && s[i] == x
  {
    if s[0] == x then 0 else 1 + Position(s[1..], x)
  }

  // ---------- ordering ----------

  function RankOf(rank: map<string, nat>, name: string): nat {
    if name in rank then rank[name] else 0
  }

  /** Whatever a listed name reads is listed before it. */
  ghost predicate Topological(chains: map<string, string>, out: seq<string>) {
    forall k :: 0 <= k < |out| && out[k] in chains ==> chains[out[k]] in out[..k]
  }

  ghost predicate NoRepeats(out: seq<string>) {
    forall i, j :: 0 <= i < j < |out| ==> out[i] != out[j]
  }

  /** The names begun and not yet listed all rank above `name`. */
  ghost predicate Below(rank: map<string, nat>, done: set<string>, out: seq<string>, name: string) {
    forall o :: o in done && o !in out ==> RankOf(rank, name) < RankOf(rank, o)
  }

  /** List `name` after whatever it reads, skipping what has been begun already. */
  method Visit(name: string, chains: map<string, string>, done: set<string>, out: seq<string>,
               ghost universe: set<string>, ghost rank: map<string, nat>)
      returns (done': set<string>, out': seq<string>)
    requires name in universe && forall n :: n in chains ==> chains[n] in universe
    requires NoRepeats(out) && forall n :: n in out ==> n in done
    ensures NoRepeats(out') && out <= out' && done <= done' && name in done'
    ensures forall n :: n in out' ==> n in done' && (n in out || n in universe)
    ensures forall n :: n in done' && n !in out' <==> n in done && n !in out
    ensures Ranked(chains, rank) && Below(rank, done, out, name) && Topological(chains, out) ==> Topological(chains, out')
    decreases universe - done
  {
    if name in done {
      return done, out;
    }
    done', out' := done + {name}, out;
    if name in chains {
      done', out' := Visit(chains[name], chains, done', out', universe, rank);
      assert name !in out';
      assert Ranked(chains, rank) && Below(rank, done, out, name) ==> Below(rank, done + {name}, out, chains[name]);
      assert Ranked(chains, rank) && Below(rank, done, out, name) ==> chains[name] in out';
    }
    out' := out' + [name];
  }

  method Order(names: seq<string>, chains: map<string, string>) returns (out: seq<string>)
    ensures NoRepeats(out)
    ensures forall name :: name in names ==> name in out
    ensures forall name :: name in out ==> name in names || name in chains.Values
    ensures Acyclic(chains) ==> Topological(chains, out)
  {
    var done: set<string> := {};
    out := [];
    ghost var universe := (set name | name in names) + chains.Values;
    ghost var rank: map<string, nat> := map[];
    if Acyclic(chains) {
      rank :| Ranked(chains, rank);
    }
    for i := 0 to |names|
      invariant NoRepeats(out) && forall n :: n in out <==> n in done
      invariant forall k :: 0 <= k < i ==> names[k] in done
      invariant forall n :: n in out ==> n in universe
      invariant Ranked(chains, rank) ==> Topological(chains, out)
    {
      done, out := Visit(names[i], chains, done, out, universe, rank);
    }
  }
}
