/** Token buckets: one per caller for the API, and one that may go into debt for the data
    provider.  Times are seconds. */
module Limiters {
  import opened Outcomes
  import opened Numbers

  const SWEEP_EVERY := 600.0
  const IDLE_AFTER := 900.0

  const IP_BURST := 20
  const USER_BURST := 30
  const RATE_PERIOD := 60.0

  datatype Bucket = Bucket(tokens: real, seen: real)

  type Buckets = map<string, Bucket>

  /** Tokens a second, and the most a bucket holds. */
  datatype Rate = Rate(burst: real, refill: real)

  function RateOf(burst: int, per: real): Rate
    requires per > 0.0
  {
    Rate(burst as real, burst as real / per)
  }

  function Grown(tokens: real, refill: real, elapsed: real): real {
    tokens + elapsed * refill
  }

  /** What a caller may spend at `now`; one never seen has a full bucket. */
  function Credit(b: Buckets, r: Rate, key: string, now: real): real {
    if key !in b then MinReal(r.burst, Grown(r.burst, r.refill, 0.0))
    else MinReal(r.burst, Grown(b[key].tokens, r.refill, now - b[key].seen))
  }

  predicate Allows(b: Buckets, r: Rate, key: string, now: real) {
    Credit(b, r, key, now) >= 1.0
  }

  function Spent(b: Buckets, r: Rate, key: string, now: real): Buckets {
    var credit := Credit(b, r, key, now);
    b[key := Bucket(if credit >= 1.0 then credit - 1.0 else credit, now)]
  }

  predicate Due(swept: Option<real>, now: real) {
    swept.None? || now - swept.value >= SWEEP_EVERY
  }

  function Swept(b: Buckets, now: real): Buckets {
    map key | key in b && now - b[key].seen <= IDLE_AFTER :: b[key]
  }

  // ---------- whole runs of calls ----------

  datatype Call = Call(key: string, at: real)

  predicate InOrder(calls: seq<Call>) {
    forall i, j :: 0 <= i < j < |calls| ==> calls[i].at <= calls[j].at
  }

  datatype Book = Book(buckets: Buckets, swept: Option<real>)

  /** The limiter after these calls. */
  function Kept(calls: seq<Call>, r: Rate): Book {
    if calls == [] then Book(map[], None)
    else
      var before, c := Kept(calls[..|calls| - 1], r), calls[|calls| - 1];
      Book(Spent(Cleaned(before, c.at), r, c.key, c.at), if Due(before.swept, c.at) then Some(c.at) else before.swept)
  }

  function Cleaned(b: Book, now: real): Buckets {
    if Due(b.swept, now) then Swept(b.buckets, now) else b.buckets
  }

  /** Whether the limiter lets call `n` through. */
  predicate Passes(calls: seq<Call>, r: Rate, n: nat)
    requires n < |calls|
  {
    Allows(Cleaned(Kept(calls[..n], r), calls[n].at), r, calls[n].key, calls[n].at)
  }

  /** The same limiter, never forgetting anyone. */
  function Hoarded(calls: seq<Call>, r: Rate): Buckets {
    if calls == [] then map[]
    else
      var c := calls[|calls| - 1];
      Spent(Hoarded(calls[..|calls| - 1], r), r, c.key, c.at)
  }

  /** Every bucket was last seen by now and holds between none and a full burst. */
  predicate Stocked(b: Buckets, r: Rate, now: real) {
    forall key :: key in b ==> 0.0 <= b[key].tokens <= r.burst && b[key].seen <= now
  }

  predicate Usable(r: Rate) {
    r.burst >= 1.0 && r.refill >= 0.0
  }

  /** An idle bucket is a full one: the period is no longer than the idle limit. */
  predicate Forgetful(r: Rate) {
    Usable(r) && IDLE_AFTER * r.refill >= r.burst
  }

  /** Forgetting has only ever dropped buckets that would be full by now. */
  predicate Agrees(small: Buckets, all: Buckets, now: real) {
    && (forall key :: key in small ==> key in all && all[key] == small[key])
    && (forall key :: key in all && key !in small ==> now - all[key].seen > IDLE_AFTER)
  }

  lemma GrownNonNegative(tokens: real, refill: real, elapsed: real)
    requires tokens >= 0.0 && refill >= 0.0 && elapsed >= 0.0
    ensures Grown(tokens, refill, elapsed) >= tokens
  {
  }

  lemma SpentStocked(b: Buckets, r: Rate, key: string, before: real, now: real)
    requires Usable(r) && Stocked(b, r, before) && before <= now
    ensures Stocked(Spent(b, r, key, now), r, now)
  {
    if key in b {
      GrownNonNegative(b[key].tokens, r.refill, now - b[key].seen);
    } else {
      GrownNonNegative(r.burst, r.refill, 0.0);
    }
  }

  lemma LongEnough(tokens: real, r: Rate, elapsed: real)
    requires Forgetful(r) && tokens >= 0.0 && elapsed > IDLE_AFTER
    ensures Grown(tokens, r.refill, elapsed) >= r.burst
  {
    TimesMonotone(IDLE_AFTER, elapsed, r.refill);
  }

  lemma FullByNow(b: Buckets, r: Rate, key: string, now: real)
    requires Forgetful(r) && key in b && b[key].tokens >= 0.0 && now - b[key].seen > IDLE_AFTER
    ensures Credit(b, r, key, now) == r.burst
  {
    LongEnough(b[key].tokens, r, now - b[key].seen);
  }

  lemma NewIsFull(b: Buckets, r: Rate, key: string, now: real)
    requires Usable(r) && key !in b
    ensures Credit(b, r, key, now) == r.burst
  {
    GrownNonNegative(r.burst, r.refill, 0.0);
  }

  /** So one call is answered alike, and leaves the two still in agreement. */
  lemma SameAnswer(small: Buckets, all: Buckets, r: Rate, key: string, now: real, later: real)
    requires Forgetful(r) && Agrees(small, all, now) && Stocked(all, r, now) && now <= later
    ensures Credit(small, r, key, now) == Credit(all, r, key, now)
    ensures Agrees(Spent(small, r, key, now), Spent(all, r, key, now), later)
  {
    if key !in small {
      NewIsFull(small, r, key, now);
      if key in all {
        FullByNow(all, r, key, now);
      } else {
        NewIsFull(all, r, key, now);
      }
    }
  }

  lemma SweepAgrees(small: Buckets, all: Buckets, now: real)
    requires Agrees(small, all, now)
    ensures Agrees(Swept(small, now), all, now)
  {
  }

  function Clock(calls: seq<Call>): real
    requires calls != []
  {
    calls[|calls| - 1].at
  }

  lemma {:induction false} SweepingIsUnseen(calls: seq<Call>, r: Rate, now: real)
    requires Forgetful(r) && InOrder(calls) && (calls != [] ==> Clock(calls) <= now)
    ensures Agrees(Kept(calls, r).buckets, Hoarded(calls, r), now)
    ensures Stocked(Hoarded(calls, r), r, now)
  {
    if calls != [] {
      var n := |calls| - 1;
      var rest, c := calls[..n], calls[n];
      assert n > 0 ==> Clock(rest) <= c.at;
      SweepingIsUnseen(rest, r, c.at);
      SweepAgrees(Kept(rest, r).buckets, Hoarded(rest, r), c.at);
      SpentStocked(Hoarded(rest, r), r, c.key, c.at, c.at);
      SameAnswer(Cleaned(Kept(rest, r), c.at), Hoarded(rest, r), r, c.key, c.at, now);
    }
  }

  /** Sweeping out idle callers never changes an answer. */
  lemma SweepNeverMatters(calls: seq<Call>, r: Rate, n: nat)
    requires Forgetful(r) && InOrder(calls) && n < |calls|
    ensures Passes(calls, r, n) <==> Allows(Hoarded(calls[..n], r), r, calls[n].key, calls[n].at)
  {
    var rest, c := calls[..n], calls[n];
    SweepingIsUnseen(rest, r, c.at);
    SweepAgrees(Kept(rest, r).buckets, Hoarded(rest, r), c.at);
    SameAnswer(Cleaned(Kept(rest, r), c.at), Hoarded(rest, r), r, c.key, c.at, c.at);
  }

  // ---------- how many get through ----------

  /** Of calls i up to j, how many of this key's pass. */
  function Passed(calls: seq<Call>, r: Rate, key: string, i: nat, j: nat): nat
    requires i <= j <= |calls|
  {
    if i == j then 0
    else Passed(calls, r, key, i, j - 1) + if calls[j - 1].key == key && Passes(calls, r, j - 1) then 1 else 0
  }

  function Accrued(r: Rate, span: real): real {
    r.refill * span
  }

  lemma CreditGrows(b: Buckets, r: Rate, key: string, now: real, later: real)
    requires Usable(r) && Stocked(b, r, now) && now <= later
    ensures 0.0 <= Credit(b, r, key, later) <= Credit(b, r, key, now) + Accrued(r, later - now)
    ensures Credit(b, r, key, later) <= r.burst
  {
    if key in b {
      GrowthSplits(b[key].tokens, r.refill, b[key].seen, now, later);
      GrownNonNegative(b[key].tokens, r.refill, later - b[key].seen);
      AccruedNonNegative(r, later - now);
    } else {
      NewIsFull(b, r, key, now);
      AccruedNonNegative(r, later - now);
    }
  }

  lemma AccruedNonNegative(r: Rate, span: real)
    requires r.refill >= 0.0 && span >= 0.0
    ensures Accrued(r, span) >= 0.0
  {
  }

  lemma GrowthSplits(tokens: real, refill: real, seen: real, now: real, later: real)
    ensures Grown(tokens, refill, later - seen) == Grown(tokens, refill, now - seen) + refill * (later - now)
  {
  }

  lemma AccruedAdds(r: Rate, a: real, b: real, c: real)
    ensures Accrued(r, c - a) == Accrued(r, b - a) + Accrued(r, c - b)
  {
  }

  /** A call takes one token exactly when it passes, and only from its own key. */
  lemma SpendingCosts(b: Buckets, r: Rate, c: Call, key: string)
    requires Usable(r) && Stocked(b, r, c.at)
    ensures Credit(Spent(b, r, c.key, c.at), r, key, c.at)
         == Credit(b, r, key, c.at) - (if c.key == key && Allows(b, r, key, c.at) then 1.0 else 0.0)
  {
    if c.key == key {
      CreditGrows(b, r, key, c.at, c.at);
      NoTime(if Allows(b, r, key, c.at) then Credit(b, r, key, c.at) - 1.0 else Credit(b, r, key, c.at), r.refill, c.at);
    }
  }

  lemma NoTime(tokens: real, refill: real, at: real)
    ensures Grown(tokens, refill, at - at) == tokens
  {
  }

  /** What a caller may spend at `now`, after the first `j` calls, if nobody is forgotten. */
  function Left(calls: seq<Call>, r: Rate, key: string, j: nat, now: real): real
    requires j <= |calls|
  {
    Credit(Hoarded(calls[..j], r), r, key, now)
  }

  /** A call moves what it takes from what is left to what has passed. */
  lemma CallMoves(calls: seq<Call>, r: Rate, key: string, i: nat, j: nat)
    requires Forgetful(r) && InOrder(calls) && i < j <= |calls|
    ensures Passed(calls, r, key, i, j) as real + Left(calls, r, key, j, calls[j - 1].at)
         == Passed(calls, r, key, i, j - 1) as real + Left(calls, r, key, j - 1, calls[j - 1].at)
  {
    var c, before := calls[j - 1], Hoarded(calls[..j - 1], r);
    assert calls[..j][..j - 1] == calls[..j - 1];
    SweepingIsUnseen(calls[..j - 1], r, c.at);
    SweepNeverMatters(calls, r, j - 1);
    SpendingCosts(before, r, c, key);
  }

  lemma FirstCredit(calls: seq<Call>, r: Rate, key: string, j: nat)
    requires Forgetful(r) && InOrder(calls) && j < |calls|
    ensures Left(calls, r, key, j, calls[j].at) <= r.burst
  {
    SweepingIsUnseen(calls[..j], r, calls[j].at);
    CreditGrows(Hoarded(calls[..j], r), r, key, calls[j].at, calls[j].at);
  }

  lemma NextCredit(calls: seq<Call>, r: Rate, key: string, j: nat)
    requires Forgetful(r) && InOrder(calls) && 0 < j < |calls|
    ensures Left(calls, r, key, j, calls[j].at)
         <= Left(calls, r, key, j, calls[j - 1].at) + Accrued(r, calls[j].at - calls[j - 1].at)
  {
    SweepingIsUnseen(calls[..j], r, calls[j - 1].at);
    CreditGrows(Hoarded(calls[..j], r), r, key, calls[j - 1].at, calls[j].at);
  }

  /** What has passed, and what is left, never exceed a burst and what accrued since. */
  lemma {:induction false} SpendingIsCovered(calls: seq<Call>, r: Rate, key: string, i: nat, j: nat)
    requires Forgetful(r) && InOrder(calls) && i < j <= |calls|
    ensures Passed(calls, r, key, i, j) as real + Left(calls, r, key, j, calls[j - 1].at)
         <= r.burst + Accrued(r, calls[j - 1].at - calls[i].at)
  {
    CallMoves(calls, r, key, i, j);
    if i == j - 1 {
      FirstCredit(calls, r, key, i);
      assert Passed(calls, r, key, i, i) == 0;
      AccruedNonNegative(r, 0.0);
    } else {
      SpendingIsCovered(calls, r, key, i, j - 1);
      NextCredit(calls, r, key, j - 1);
      AccruedAdds(r, calls[i].at, calls[j - 2].at, calls[j - 1].at);
    }
  }

  /** For calls in order, no caller gets more through in any span than a burst and what
      the span accrues. */
  lemma SpanIsBounded(calls: seq<Call>, r: Rate, key: string, i: nat, j: nat)
    requires Forgetful(r) && InOrder(calls) && i < j <= |calls|
    ensures Passed(calls, r, key, i, j) as real <= r.burst + Accrued(r, calls[j - 1].at - calls[i].at)
  {
    SpendingIsCovered(calls, r, key, i, j);
    SweepingIsUnseen(calls[..j], r, calls[j - 1].at);
    CreditGrows(Hoarded(calls[..j], r), r, key, calls[j - 1].at, calls[j - 1].at);
  }

  /** The two limiters the server makes qualify. */
  lemma ServerLimitersForget()
    ensures Forgetful(RateOf(IP_BURST, RATE_PERIOD)) && Forgetful(RateOf(USER_BURST, RATE_PERIOD))
  {
  }

  /** A rate gives a burst back in its period. */
  lemma RateIs(burst: int, per: real)
    requires per > 0.0
    ensures RateOf(burst, per).burst == burst as real
    ensures Accrued(RateOf(burst, per), per) == burst as real
  {
    QuotientTimes(burst as real, per);
  }

  lemma AccruesLess(r: Rate, span: real, longer: real)
    requires r.refill >= 0.0 && span <= longer
    ensures Accrued(r, span) <= Accrued(r, longer)
  {
    TimesMonotone(span, longer, r.refill);
  }

  /** In no minute do more than 40 calls from one address get through, or 60 of one user. */
  lemma MinuteIsBounded(calls: seq<Call>, key: string, i: nat, j: nat)
    requires InOrder(calls) && i < j <= |calls| && calls[j - 1].at - calls[i].at <= 60.0
    ensures Passed(calls, RateOf(IP_BURST, RATE_PERIOD), key, i, j) <= 40
    ensures Passed(calls, RateOf(USER_BURST, RATE_PERIOD), key, i, j) <= 60
  {
    ServerLimitersForget();
    RateIs(IP_BURST, RATE_PERIOD);
    RateIs(USER_BURST, RATE_PERIOD);
    AccruesLess(RateOf(IP_BURST, RATE_PERIOD), calls[j - 1].at - calls[i].at, RATE_PERIOD);
    AccruesLess(RateOf(USER_BURST, RATE_PERIOD), calls[j - 1].at - calls[i].at, RATE_PERIOD);
    SpanIsBounded(calls, RateOf(IP_BURST, RATE_PERIOD), key, i, j);
    SpanIsBounded(calls, RateOf(USER_BURST, RATE_PERIOD), key, i, j);
  }

  // ---------- the limiter itself ----------

  class Limiter {
    const rate: Rate
    var buckets: Buckets
    var swept: Option<real>
    ghost var calls: seq<Call>

    ghost predicate Valid()
      reads this
    {
      Book(buckets, swept) == Kept(calls, rate)
    }

    constructor (burst: int, per: real)
      requires per > 0.0
      ensures Valid() && rate == RateOf(burst, per) && calls == []
    {
      rate := RateOf(burst, per);
      buckets, swept, calls := map[], None, [];
    }

    method Allow(key: string, now: real) returns (ok: bool)
      requires Valid()
      modifies this
      ensures Valid() && calls == old(calls) + [Call(key, now)]
      ensures ok == Passes(calls, rate, |old(calls)|)
    {
      Sweep(now);
      var bucket := if key in buckets then buckets[key] else Bucket(rate.burst, now);
      var tokens := MinReal(rate.burst, Grown(bucket.tokens, rate.refill, now - bucket.seen));
      ok := tokens >= 1.0;
      buckets := buckets[key := Bucket(if ok then tokens - 1.0 else tokens, now)];
      assert (calls + [Call(key, now)])[..|calls|] == calls;
      calls := calls + [Call(key, now)];
    }

    method Sweep(now: real)
      modifies this`buckets, this`swept
      ensures buckets == Cleaned(Book(old(buckets), old(swept)), now)
      ensures swept == if Due(old(swept), now) then Some(now) else old(swept)
    {
      if swept.Some? && now - swept.value < SWEEP_EVERY {
        return;
      }
      swept := Some(now);
      ghost var before := buckets;
      var todo := buckets.Keys;
      while todo != {}
        invariant todo <= before.Keys && swept == Some(now)
        invariant forall key :: key in buckets <==> key in before && (key in todo || now - before[key].seen <= IDLE_AFTER)
        invariant forall key :: key in buckets ==> buckets[key] == before[key]
        decreases |todo|
      {
        var key :| key in todo;
        todo := todo - {key};
        if now - buckets[key].seen > IDLE_AFTER {
          buckets := buckets - {key};
        }
      }
      assert buckets == Swept(before, now);
    }
  }

  // ---------- going into debt ----------

  /** The provider's bucket: a reservation is never refused, only told how long to wait. */
  datatype Debt = Debt(tokens: real, last: Option<real>)

  function Refilled(d: Debt, r: Rate, now: real): Debt {
    var last := if d.last.None? then now else d.last.value;
    if now - last > 0.0 then Debt(MinReal(r.burst, Grown(d.tokens, r.refill, now - last)), Some(now))
    else Debt(d.tokens, Some(last))
  }

  function Reserved(d: Debt, r: Rate, now: real): Debt {
    var filled := Refilled(d, r, now);
    filled.(tokens := filled.tokens - 1.0)
  }

  function Wait(d: Debt, r: Rate): real
    requires r.refill > 0.0
  {
    if d.tokens >= 0.0 then 0.0 else -d.tokens / r.refill
  }

  class Provider {
    const rate: Rate
    var tokens: real
    var last: Option<real>
    ghost var times: seq<real>

    /** The bucket is where the reservations so far leave it. */
    ghost predicate Valid()
      reads this
    {
      rate.burst >= 1.0 && Debt(tokens, last) == After(times, rate)
    }

    constructor (perSecond: real, burst: int)
      ensures Valid() && times == []
      ensures rate == Rate(Max(burst, 1) as real, perSecond)
    {
      rate := Rate(Max(burst, 1) as real, perSecond);
      tokens, last, times := Max(burst, 1) as real, None, [];
    }

    /** How long the caller must wait before going ahead. */
    method Reserve(now: real) returns (wait: real)
      requires Valid()
      modifies this
      ensures Valid()
      ensures rate.refill <= 0.0 ==> wait == 0.0 && times == old(times)
      ensures rate.refill > 0.0 ==>
        && times == old(times) + [now]
        && now + wait == Release(times, rate, |times| - 1)
    {
      if rate.refill <= 0.0 {
        return 0.0;
      }
      times := times + [now];
      assert times[..|times| - 1] == old(times) && times[..|times|] == times;
      if last.None? {
        last := Some(now);
      }
      var elapsed := now - last.value;
      if elapsed > 0.0 {
        tokens := MinReal(rate.burst, Grown(tokens, rate.refill, elapsed));
        last := Some(now);
      }
      tokens := tokens - 1.0;
      if tokens >= 0.0 {
        return 0.0;
      }
      return -tokens / rate.refill;
    }
  }

  predicate Timely(times: seq<real>) {
    forall i, j :: 0 <= i < j < |times| ==> times[i] <= times[j]
  }

  function After(times: seq<real>, r: Rate): Debt {
    if times == [] then Debt(r.burst, None)
    else Reserved(After(times[..|times| - 1], r), r, times[|times| - 1])
  }

  /** When reservation `n` goes ahead. */
  function Release(times: seq<real>, r: Rate, n: nat): real
    requires n < |times| && r.refill > 0.0
  {
    times[n] + Wait(After(times[..n + 1], r), r)
  }

  /** Where the bucket stands, in tokens ahead of the clock: what has been paid out less
      what has come in.  Each reservation moves it on by one at least. */
  function Standing(times: seq<real>, r: Rate, n: nat): real
    requires n < |times|
  {
    Ahead(r, After(times[..n + 1], r).tokens, times[n])
  }

  function Ahead(r: Rate, tokens: real, now: real): real {
    r.refill * now - tokens
  }

  lemma {:induction false} LastIsNow(times: seq<real>, r: Rate)
    requires Timely(times) && times != []
    ensures After(times, r).last == Some(times[|times| - 1])
    ensures After(times, r).tokens <= r.burst - 1.0
  {
    if |times| > 1 {
      LastIsNow(times[..|times| - 1], r);
    }
  }

  lemma StandingStep(r: Rate, tokens: real, last: real, now: real)
    requires last <= now && r.refill > 0.0 && tokens <= r.burst - 1.0
    ensures Ahead(r, Reserved(Debt(tokens, Some(last)), r, now).tokens, now) >= Ahead(r, tokens, last) + 1.0
  {
    if now > last {
      assert Grown(tokens, r.refill, now - last) == tokens + (r.refill * now - r.refill * last);
    } else {
      SameTime(r, last, now);
    }
  }

  lemma SameTime(r: Rate, last: real, now: real)
    requires now == last
    ensures r.refill * now == r.refill * last
  {
  }

  lemma {:induction false} StandingClimbs(times: seq<real>, r: Rate, i: nat, j: nat)
    requires Timely(times) && r.refill > 0.0 && i <= j < |times|
    ensures Standing(times, r, j) >= Standing(times, r, i) + (j - i) as real
  {
    if i < j {
      StandingClimbs(times, r, i, j - 1);
      NextStanding(times, r, j);
    }
  }

  lemma NextStanding(times: seq<real>, r: Rate, j: nat)
    requires Timely(times) && r.refill > 0.0 && 0 < j < |times|
    ensures Standing(times, r, j) >= Standing(times, r, j - 1) + 1.0
  {
    LastIsNow(times[..j], r);
    assert times[..j + 1][..j] == times[..j];
    StandingStep(r, After(times[..j], r).tokens, times[j - 1], times[j]);
  }

  lemma ReleaseTokens(r: Rate, now: real, tokens: real)
    requires r.refill > 0.0
    ensures r.refill * (now + Wait(Debt(tokens, None), r)) == (if tokens >= 0.0 then r.refill * now else r.refill * now - tokens)
  {
    if tokens < 0.0 {
      var wait := -tokens / r.refill;
      QuotientTimes(-tokens, r.refill);
      assert r.refill * (now + wait) == r.refill * now + wait * r.refill;
    }
  }

  /** A release is no earlier than the standing, and later than it by at most a burst. */
  lemma ReleaseNearStanding(times: seq<real>, r: Rate, n: nat)
    requires Timely(times) && r.refill > 0.0 && n < |times| && r.burst >= 1.0
    ensures Standing(times, r, n) <= r.refill * Release(times, r, n) <= Standing(times, r, n) + r.burst - 1.0
  {
    LastIsNow(times[..n + 1], r);
    var tokens := After(times[..n + 1], r).tokens;
    ReleaseTokens(r, times[n], tokens);
    assert Wait(After(times[..n + 1], r), r) == Wait(Debt(tokens, None), r);
  }

  /** However they are asked for, no more reservations go ahead in any span than a burst
      and what the span accrues. */
  lemma ReleasesAreBounded(times: seq<real>, r: Rate, i: nat, j: nat)
    requires Timely(times) && r.refill > 0.0 && r.burst >= 1.0 && i <= j < |times|
    ensures (j - i + 1) as real <= r.burst + r.refill * Release(times, r, j) - r.refill * Release(times, r, i)
  {
    StandingClimbs(times, r, i, j);
    ReleaseNearStanding(times, r, i);
    ReleaseNearStanding(times, r, j);
  }
}
