/** Throttling of subscribers (aerozen/subscription_handler.cpp) and publishers (aerozen/node.cpp). */
module Throttle {
  import opened Publishers

  const NANOSECONDS := 1000000000

  predicate Throttled(rate: nat) {
    rate != UNTHROTTLED
  }

  /** The shortest time between two callbacks; a rate of zero has an infinite period. */
  function Period(rate: nat): Option<real> {
    if rate == 0 then None else Some(NANOSECONDS as real / rate as real)
  }

  predicate Ready(rate: nat, last: int, now: int) {
    !Throttled(rate) || (Period(rate).Some? && (now - last) as real >= Period(rate).value)
  }

  /** One attempt: the clock is read at `asked` to decide, and again at `stored` once it passes. */
  datatype Attempt = Attempt(asked: int, stored: int)

  /** The timestamp kept after the first n attempts. */
  function Last(rate: nat, run: seq<Attempt>, n: nat): int
    requires n <= |run|
    decreases n, 0
  {
    if n == 0 then 0
    else if Throttled(rate) && Passes(rate, run, n - 1) then run[n - 1].stored
    else Last(rate, run, n - 1)
  }

  predicate Passes(rate: nat, run: seq<Attempt>, k: nat)
    requires k < |run|
    decreases k, 1
  {
    Ready(rate, Last(rate, run, k), run[k].asked)
  }

  /** How many of the attempts from i up to j pass. */
  function Passed(rate: nat, run: seq<Attempt>, i: nat, j: nat): nat
    requires i <= j <= |run|
  {
    if i == j then 0 else Passed(rate, run, i, j - 1) + if Passes(rate, run, j - 1) then 1 else 0
  }

  /** One caller under a clock that never goes back. */
  predicate Monotone(run: seq<Attempt>) {
    && (forall k | 0 <= k < |run| :: run[k].asked <= run[k].stored)
    && forall k | 1 <= k < |run| :: run[k - 1].stored <= run[k].asked
  }

  lemma ReadyMeans(rate: nat, last: int, now: int)
    requires 0 < rate && Throttled(rate)
    ensures Ready(rate, last, now) <==> NANOSECONDS <= (now - last) * rate
  {
  }

  /** The span is long enough for this many periods. */
  predicate Spans(periods: int, span: int, rate: nat) {
    periods * NANOSECONDS <= span * rate
  }

  lemma NoneSpanned(periods: int, span: int, rate: nat)
    requires periods <= 0 <= span
    ensures Spans(periods, span, rate)
  {
  }

  lemma SpansMore(periods: int, a: int, b: int, rate: nat)
    requires Spans(periods, a, rate) && a <= b
    ensures Spans(periods, b, rate)
  {
  }

  lemma SpansOneMore(periods: int, a: int, b: int, rate: nat)
    requires Spans(periods, a, rate) && Spans(1, b, rate)
    ensures Spans(periods + 1, a + b, rate)
  {
    assert a * rate + b * rate == (a + b) * rate;
  }

  lemma ReadySpans(rate: nat, last: int, now: int)
    requires 0 < rate && Throttled(rate)
    ensures Ready(rate, last, now) <==> Spans(1, now - last, rate)
  {
    ReadyMeans(rate, last, now);
  }

  /** The passes from i up to j, less one, fit between attempt i and what is remembered after them. */
  lemma {:induction false} LastPassBounds(rate: nat, run: seq<Attempt>, i: nat, j: nat)
    requires 0 < rate && Throttled(rate) && Monotone(run) && i < j <= |run|
    ensures Spans(Passed(rate, run, i, j) - 1, run[j - 1].asked - run[i].asked, rate)
    ensures run[i].asked <= run[j - 1].asked
    ensures Passed(rate, run, i, j) > 0 ==>
              Spans(Passed(rate, run, i, j) - 1, Last(rate, run, j) - run[i].asked, rate)
              && Last(rate, run, j) <= run[j - 1].stored
    decreases j
  {
    var now, start, stored := run[j - 1].asked, run[i].asked, run[j - 1].stored;
    if j - 1 == i {
      NoneSpanned(Passed(rate, run, i, j) - 1, now - start, rate);
      NoneSpanned(Passed(rate, run, i, j) - 1, stored - start, rate);
    } else {
      LastPassBounds(rate, run, i, j - 1);
      var before: int, last: int := Passed(rate, run, i, j - 1), Last(rate, run, j - 1);
      ReadySpans(rate, last, now);
      if !Passes(rate, run, j - 1) {
        SpansMore(before - 1, run[j - 2].asked - start, now - start, rate);
      } else {
        if before > 0 {
          SpansOneMore(before - 1, last - start, now - last, rate);
        } else {
          NoneSpanned(before, now - start, rate);
        }
        SpansMore(before, now - start, stored - start, rate);
      }
    }
  }

  /** Over any stretch of a run, k passes need at least (k - 1) periods: with W nanoseconds between
      the first and the last attempt, (k - 1) * 1e9 <= W * rate. At rate zero none passes. */
  lemma ThrottleBound(rate: nat, run: seq<Attempt>, i: nat, j: nat)
    requires Throttled(rate) && Monotone(run) && i < j <= |run|
    ensures (Passed(rate, run, i, j) - 1) * NANOSECONDS <= (run[j - 1].asked - run[i].asked) * rate
    ensures rate == 0 ==> Passed(rate, run, i, j) == 0
  {
    if rate == 0 {
      NonePasses(run, i, j);
    } else {
      LastPassBounds(rate, run, i, j);
      assert Spans(Passed(rate, run, i, j) - 1, run[j - 1].asked - run[i].asked, rate);
    }
  }

  lemma {:induction false} NonePasses(run: seq<Attempt>, i: nat, j: nat)
    requires i <= j <= |run|
    ensures Passed(0, run, i, j) == 0
  {
    if i < j { NonePasses(run, i, j - 1); }
  }

  /** The attempt passed, the last one to do so before the k-th. */
  predicate LastPass(rate: nat, run: seq<Attempt>, i: nat, k: nat) {
    i < k <= |run| && Passes(rate, run, i) && forall j | i < j < k :: !Passes(rate, run, j)
  }

  predicate NonePassed(rate: nat, run: seq<Attempt>, k: nat) {
    k <= |run| && forall j | 0 <= j < k :: !Passes(rate, run, j)
  }

  /** What is remembered is the second reading of the last attempt that passed, and no attempt that was refused. */
  lemma {:induction false} LastIsOfLastPass(rate: nat, run: seq<Attempt>, k: nat)
    requires Throttled(rate) && k <= |run|
    ensures NonePassed(rate, run, k) ==> Last(rate, run, k) == 0
    ensures forall i: nat | LastPass(rate, run, i, k) :: Last(rate, run, k) == run[i].stored
    ensures NonePassed(rate, run, k) || exists i: nat :: LastPass(rate, run, i, k)
  {
    if k > 0 {
      LastIsOfLastPass(rate, run, k - 1);
      if Passes(rate, run, k - 1) {
        assert LastPass(rate, run, k - 1, k);
      } else if !NonePassed(rate, run, k - 1) {
        var before := k - 1;
        var i: nat :| LastPass(rate, run, i, before);
        assert LastPass(rate, run, i, k);
      }
      forall i: nat | LastPass(rate, run, i, k) ensures Last(rate, run, k) == run[i].stored {
        if i < k - 1 { assert LastPass(rate, run, i, k - 1); }
      }
    }
  }

  /** At this rate per second a period has gone by. */
  predicate PeriodGone(rate: nat, since: int, now: int) {
    (now - since) * rate >= 1_000_000_000
  }

  lemma ReadyIsPeriodGone(rate: nat, since: int, now: int)
    requires 0 < rate && rate != 0xFFFF_FFFF_FFFF_FFFF
    ensures Ready(rate, since, now) <==> PeriodGone(rate, since, now)
  {
    ReadyMeans(rate, since, now);
  }

  /** Exactly when an attempt passes, in terms of the attempts themselves: a full period has gone by since the last one
      that passed, or since the clock's origin when none has. Refused attempts in between make no difference, so the
      first attempt after a full period always passes. */
  lemma PassesIff(rate: nat, run: seq<Attempt>, k: nat)
    requires 0 < rate && rate != 0xFFFF_FFFF_FFFF_FFFF && k < |run|
    ensures forall i: nat | LastPass(rate, run, i, k) ::
              Passes(rate, run, k) <==> PeriodGone(rate, run[i].stored, run[k].asked)
    ensures NonePassed(rate, run, k) ==> (Passes(rate, run, k) <==> PeriodGone(rate, 0, run[k].asked))
    ensures NonePassed(rate, run, k) || exists i: nat :: LastPass(rate, run, i, k)
  {
    LastIsOfLastPass(rate, run, k);
    ReadyIsPeriodGone(rate, Last(rate, run, k), run[k].asked);
  }

  /** Every refusal has its reason; without a limit there is none. */
  lemma RefusedMeans(rate: nat, run: seq<Attempt>, k: nat)
    requires k < |run| && !Passes(rate, run, k)
    ensures rate != 0xFFFF_FFFF_FFFF_FFFF
    ensures rate == 0 || (NonePassed(rate, run, k) && !PeriodGone(rate, 0, run[k].asked))
            || exists i: nat :: i < k && Passes(rate, run, i) && !PeriodGone(rate, run[i].stored, run[k].asked)
  {
    if 0 < rate {
      PassesIff(rate, run, k);
      if !NonePassed(rate, run, k) {
        var i: nat :| LastPass(rate, run, i, k);
        assert Passes(rate, run, i) && !PeriodGone(rate, run[i].stored, run[k].asked);
      }
    }
  }

  lemma {:induction false} SamePrefix(rate: nat, run: seq<Attempt>, more: Attempt, n: nat)
    requires n <= |run|
    ensures Last(rate, run + [more], n) == Last(rate, run, n)
    ensures n < |run| ==> Passes(rate, run + [more], n) == Passes(rate, run, n)
  {
    if n > 0 { SamePrefix(rate, run, more, n - 1); }
  }

  class SubscriptionHandler {
    const msgsPerSec: nat
    const periodNs: Option<real>
    var lastCbTimestamp: int
    ghost var run: seq<Attempt>

    ghost predicate Valid()
      reads this
    {
      lastCbTimestamp == Last(msgsPerSec, run, |run|) && periodNs == Period(msgsPerSec)
    }

    constructor (msgsPerSec: nat)
      ensures Valid() && this.msgsPerSec == msgsPerSec && run == []
    {
      this.msgsPerSec := msgsPerSec;
      periodNs := Period(msgsPerSec);
      lastCbTimestamp, run := 0, [];
    }

    method UpdateThrottling(now: int) returns (passes: bool)
      requires Valid()
      modifies this
      ensures Valid() && run == old(run) + [Attempt(now, now)]
      ensures passes == Passes(msgsPerSec, run, |old(run)|)
    {
      SamePrefix(msgsPerSec, run, Attempt(now, now), |run|);
      run := run + [Attempt(now, now)];
      if !Throttled(msgsPerSec) { return true; }
      var elapsed := now - lastCbTimestamp;
      if periodNs.None? || (elapsed as real) < periodNs.value { return false; }
      lastCbTimestamp := now;
      return true;
    }
  }

  class PublisherHandler {
    const msgsPerSec: nat
    const periodNs: Option<real>
    var lastCbTimestamp: int
    ghost var run: seq<Attempt>

    ghost predicate Valid()
      reads this
    {
      lastCbTimestamp == Last(msgsPerSec, run, |run|) && periodNs == Period(msgsPerSec)
    }

    constructor (msgsPerSec: nat)
      ensures Valid() && this.msgsPerSec == msgsPerSec && run == []
    {
      this.msgsPerSec := msgsPerSec;
      periodNs := Period(msgsPerSec);
      lastCbTimestamp, run := 0, [];
    }

    method ThrottledUpdateReady(now: int) returns (ready: bool)
      requires Valid()
      ensures ready == Ready(msgsPerSec, lastCbTimestamp, now)
    {
      if !Throttled(msgsPerSec) { return true; }
      var elapsed := now - lastCbTimestamp;
      return periodNs.Some? && elapsed as real >= periodNs.value;
    }

    /** Reads the clock once to decide and once more to remember. */
    method UpdateThrottling(asked: int, stored: int) returns (passes: bool)
      requires Valid()
      modifies this
      ensures Valid() && run == old(run) + [Attempt(asked, stored)]
      ensures passes == Passes(msgsPerSec, run, |old(run)|)
    {
      SamePrefix(msgsPerSec, run, Attempt(asked, stored), |run|);
      if !Throttled(msgsPerSec) {
        run := run + [Attempt(asked, stored)];
        return true;
      }
      var ready := ThrottledUpdateReady(asked);
      run := run + [Attempt(asked, stored)];
      if !ready { return false; }
      lastCbTimestamp := stored;
      return true;
    }
  }
}
