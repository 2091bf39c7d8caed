/** No look-ahead: what the engine has done by a bar depends on no later bar, and what it
    enters at a bar's open depends on nothing of that bar but its time and its open. */
module Causality {
  import opened Outcomes
  import opened Bars
  import opened Tapes
  import opened Actions
  import opened Books

  /** Two jobs that may differ only in their candles. */
  ghost predicate SameSetup(a: Job, b: Job) {
    a.desk == b.desk && a.prime == b.prime && a.capital == b.capital
  }

  lemma EventsFromPrefix(a: seq<Candle>, b: seq<Candle>, i: nat)
    requires i < |a| && i < |b| && a[..i + 1] == b[..i + 1]
    ensures EventAt(a, i) == EventAt(b, i)
  {
    assert a[i] == a[..i + 1][i] && b[i] == b[..i + 1][i];
    if i > 0 {
      assert a[i - 1] == a[..i + 1][i - 1] && b[i - 1] == b[..i + 1][i - 1];
    }
  }

  lemma StepFromPrefix(a: Job, b: Job, s: State, i: nat)
    requires Ready(a.desk.plan) && SameSetup(a, b)
    requires i + 1 < |a.candles| && i + 1 < |b.candles| && a.candles[..i + 1] == b.candles[..i + 1]
    ensures Step(a, s, i) == Step(b, s, i)
  {
    EventsFromPrefix(a.candles, b.candles, i);
    assert a.candles[i] == a.candles[..i + 1][i] && b.candles[i] == b.candles[..i + 1][i];
    if i > 0 {
      assert a.candles[i - 1] == a.candles[..i + 1][i - 1] && b.candles[i - 1] == b.candles[..i + 1][i - 1];
    }
  }

  /** Two series that agree up to a bar that ends neither leave the engine in the same
      state after it: cash, position, intent, trades, curve and counts. */
  lemma {:induction false} NoLookAhead(a: Job, b: Job, n: nat)
    requires Ready(a.desk.plan) && SameSetup(a, b)
    requires n < |a.candles| && n < |b.candles| && a.candles[..n] == b.candles[..n]
    ensures After(a, n) == After(b, n)
  {
    if n > 0 {
      assert a.candles[..n - 1] == a.candles[..n][..n - 1];
      assert b.candles[..n - 1] == b.candles[..n][..n - 1];
      NoLookAhead(a, b, n - 1);
      StepFromPrefix(a, b, After(a, n - 1), n - 1);
    }
  }

  /** An entry is only ever pending on a flat book. */
  predicate Poised(s: State) {
    s.pending.Enter? ==> s.pos.None?
  }

  lemma StepPoises(job: Job, s: State, i: nat, s': State)
    requires Ready(job.desk.plan) && i < |job.candles| && s' == Step(job, s, i)
    ensures Poised(s')
  {
    var served := Served(job.desk, Overnight(job, s, i), job.candles[i]);
    var guarded := Guarded(job.desk, served, job.candles[i]);
    if !Final(job, i) {
      SignalPoises(job.desk, guarded, Seen(job, i + 1));
    }
  }

  lemma SignalPoises(d: Desk, s: State, h: seq<Sample>)
    requires Ready(d.plan)
    ensures Poised(Signalled(d, s, h))
  {
  }

  lemma BarPoises(job: Job, i: nat)
    requires Ready(job.desk.plan) && i < |job.candles|
    ensures Poised(AfterBar(job, i))
  {
    StepPoises(job, After(job, i), i, AfterBar(job, i));
  }

  lemma AlwaysPoised(job: Job, n: nat)
    requires Ready(job.desk.plan) && n <= |job.candles|
    ensures Poised(After(job, n))
  {
    if n > 0 {
      BarPoises(job, n - 1);
    }
  }

  /** The position opened at bar `i` from the state before it, if one is. */
  ghost function EntryFrom(job: Job, s: State, i: nat): Option<Position>
    requires i < |job.candles|
  {
    var morning := Overnight(job, s, i);
    if morning.pos.Some? then None else Served(job.desk, morning, job.candles[i]).pos
  }

  ghost function EntryAt(job: Job, i: nat): Option<Position>
    requires Ready(job.desk.plan) && i < |job.candles|
  {
    EntryFrom(job, After(job, i), i)
  }

  lemma QuietNight(job: Job, s: State, i: nat)
    requires i < |job.candles| && s.pos.None?
    ensures var t := Overnight(job, s, i);
      t.pos.None? && t.cash == s.cash && t.pending == s.pending
  {
  }

  lemma NightKeepsIntent(job: Job, s: State, i: nat)
    requires i < |job.candles|
    ensures Overnight(job, s, i).pending == s.pending
  {
  }

  lemma EntryFromOpen(d: Desk, s: State, t: State, want: Intent, ts: int, open: real)
    requires want.Enter? && s.cash == t.cash && s.pos.None? && t.pos.None?
    ensures Entered(d, s, want, ts, open).pos == Entered(d, t, want, ts, open).pos
    ensures Entered(d, s, want, ts, open).cash == Entered(d, t, want, ts, open).cash
  {
  }

  lemma SameEntry(a: Job, b: Job, s: State, i: nat)
    requires SameSetup(a, b) && i < |a.candles| && i < |b.candles| && Poised(s)
    requires a.candles[i].ts == b.candles[i].ts && a.candles[i].open == b.candles[i].open
    ensures EntryFrom(a, s, i) == EntryFrom(b, s, i)
  {
    NightKeepsIntent(a, s, i);
    NightKeepsIntent(b, s, i);
    if s.pos.None? {
      QuietNight(a, s, i);
      QuietNight(b, s, i);
      var ma, mb := Overnight(a, s, i).(pending := Nothing), Overnight(b, s, i).(pending := Nothing);
      if s.pending.Enter? {
        EntryFromOpen(a.desk, ma, mb, s.pending, a.candles[i].ts, a.candles[i].open);
      }
    }
  }

  /** Agreeing on the bars before `i`, and on bar `i`'s time and open, two series make the
      same entry at `i`: side, quantity, price, fees and levels. */
  lemma EntryUsesOnlyTheOpen(a: Job, b: Job, i: nat)
    requires Ready(a.desk.plan) && SameSetup(a, b)
    requires i < |a.candles| && i < |b.candles| && a.candles[..i] == b.candles[..i]
    requires a.candles[i].ts == b.candles[i].ts && a.candles[i].open == b.candles[i].open
    ensures EntryAt(a, i) == EntryAt(b, i)
  {
    NoLookAhead(a, b, i);
    AlwaysPoised(a, i);
    SameEntry(a, b, After(a, i), i);
  }
}
