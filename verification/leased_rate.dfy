/** The pool-wide token bucket under a leased rate: times in milliseconds, tokens as reals. */
module LeasedRate {
  /** The stored bucket; its key lives until `expires`. */
  datatype State = Absent | Kept(tokens: real, last: int, expires: int)

  /** The control command, if one is present and complete for this pool. */
  datatype Lease = NoLease | Lease(rate: real, validUntil: int)

  /** One evaluation: the server's clock and the command it finds. */
  datatype Call = Call(wall: int, lease: Lease)

  function Max(a: real, b: real): real { if a >= b then a else b }

  function Min(a: real, b: real): real { if a <= b then a else b }

  function Capacity(rate: real, burst: real): real { Max(1.0, rate * burst) }

  predicate Valid(c: Call, burst: real) {
    c.lease.Lease? && c.lease.rate >= 0.0 && c.lease.validUntil > c.wall && burst > 0.0
  }

  /** Evaluations that reach the bucket. */
  predicate Effective(c: Call, burst: real) { Valid(c, burst) && c.lease.rate > 0.0 }

  function Elapsed(from: int, to: int): real { (to - from) as real / 1000.0 }

  /** What a rate refills between two times. */
  function Refill(from: int, to: int, rate: real): real { Elapsed(from, to) * rate }

  function Clock(s: State, wall: int): int { if s.Kept? && wall < s.last then s.last else wall }

  function Refilled(s: State, c: Call, burst: real): real
    requires c.lease.Lease?
  {
    var capacity := Capacity(c.lease.rate, burst);
    if s.Absent? then capacity else Min(capacity, s.tokens + Refill(s.last, Clock(s, c.wall), c.lease.rate))
  }

  function Expiry(c: Call): int
    requires c.lease.Lease?
  {
    c.wall + if c.lease.validUntil - c.wall + 1000 >= 1000 then c.lease.validUntil - c.wall + 1000 else 1000
  }

  /** One evaluation: the bucket after it, and whether it admits. */
  function Acquire(s: State, c: Call, burst: real): (State, bool) {
    if !Effective(c, burst) then (s, false)
    else
      var tokens := Refilled(s, c, burst);
      var ok := tokens >= 1.0;
      (Kept(if ok then tokens - 1.0 else tokens, Clock(s, c.wall), Expiry(c)), ok)
  }

  /** The first `n` evaluations of a run and how many were admitted, the state never expiring. */
  function Serve(s: State, calls: seq<Call>, burst: real, n: nat): (State, nat)
    requires n <= |calls|
  {
    if n == 0 then (s, 0)
    else
      var (s', admitted) := Serve(s, calls, burst, n - 1);
      var (s'', ok) := Acquire(s', calls[n - 1], burst);
      (s'', admitted + if ok then 1 else 0)
  }

  /** What is left of the state at a time: nothing once its key expired. */
  function Seen(s: State, wall: int): State { if s.Kept? && s.expires <= wall then Absent else s }

  /** The same run, with the state's key expiring. */
  function ServeExpiring(s: State, calls: seq<Call>, burst: real, n: nat): (State, nat)
    requires n <= |calls|
  {
    if n == 0 then (s, 0)
    else
      var (s', admitted) := ServeExpiring(s, calls, burst, n - 1);
      var (s'', ok) := Acquire(Seen(s', calls[n - 1].wall), calls[n - 1], burst);
      (s'', admitted + if ok then 1 else 0)
  }

  /** Every evaluation that reaches the bucket has at most this rate and capacity. */
  ghost predicate Within(calls: seq<Call>, burst: real, rate: real, capacity: real) {
    forall i | 0 <= i < |calls| && Effective(calls[i], burst) :: calls[i].lease.rate <= rate
        && Capacity(calls[i].lease.rate, burst) <= capacity
  }

  lemma MulMono(d: real, a: real, b: real)
    requires d >= 0.0 && a <= b
    ensures d * a <= d * b
  {
  }

  lemma RefillGrows(from: int, to: int, rate: real, more: real)
    requires from <= to && 0.0 <= rate <= more
    ensures 0.0 <= Refill(from, to, rate) <= Refill(from, to, more)
  {
    MulMono(Elapsed(from, to), rate, more);
    MulMono(Elapsed(from, to), 0.0, rate);
  }

  /** One evaluation of a kept bucket spends no more than it had and was refilled with. */
  lemma AcquireSpends(s: State, c: Call, burst: real, rate: real)
    requires s.Kept? && s.tokens >= 0.0 && Effective(c, burst) && c.lease.rate <= rate
    ensures var (s', ok) := Acquire(s, c, burst);
      && s'.Kept? && s'.tokens >= 0.0 && s'.last >= s.last && s'.last == Clock(s, c.wall)
      && (if ok then 1.0 else 0.0) + s'.tokens <= s.tokens + Refill(s.last, s'.last, rate)
  {
    RefillGrows(s.last, Clock(s, c.wall), c.lease.rate, rate);
  }

  lemma ElapsedAdds(a: int, b: int, c: int, rate: real)
    ensures Refill(a, b, rate) + Refill(b, c, rate) == Refill(a, c, rate)
  {
    assert Elapsed(a, b) + Elapsed(b, c) == Elapsed(a, c);
  }

  lemma {:induction false} KeptStays(s: State, calls: seq<Call>, burst: real, n: nat)
    requires s.Kept? && s.tokens >= 0.0 && n <= |calls|
    ensures var s' := Serve(s, calls, burst, n).0; s'.Kept? && s'.tokens >= 0.0 && s'.last >= s.last
  {
    if n > 0 {
      KeptStays(s, calls, burst, n - 1);
      var c := calls[n - 1];
      if Effective(c, burst) { AcquireSpends(Serve(s, calls, burst, n - 1).0, c, burst, c.lease.rate); }
    }
  }

  /**
   From a kept bucket, in any run without expiry: admissions and what is left are covered by what was
   there and the refill of the elapsed bucket time.
   */
  lemma {:induction false} KeptSpends(s: State, calls: seq<Call>, burst: real, rate: real, capacity: real, n: nat)
    requires s.Kept? && s.tokens >= 0.0 && n <= |calls| && Within(calls, burst, rate, capacity)
    ensures Serve(s, calls, burst, n).0.Kept?
    ensures var (s', admitted) := Serve(s, calls, burst, n);
      admitted as real + s'.tokens <= s.tokens + Refill(s.last, s'.last, rate)
  {
    KeptStays(s, calls, burst, n);
    if n > 0 {
      KeptSpends(s, calls, burst, rate, capacity, n - 1);
      KeptStays(s, calls, burst, n - 1);
      var s' := Serve(s, calls, burst, n - 1).0;
      if Effective(calls[n - 1], burst) {
        AcquireSpends(s', calls[n - 1], burst, rate);
        ElapsedAdds(s.last, s'.last, Acquire(s', calls[n - 1], burst).0.last, rate);
      }
    }
  }

  /** The evaluation that stores the bucket first. */
  ghost predicate FirstUse(calls: seq<Call>, burst: real, f: nat) {
    f < |calls| && Effective(calls[f], burst) && forall i | 0 <= i < f :: !Effective(calls[i], burst)
  }

  /** Until then nothing is stored and nothing admitted. */
  lemma {:induction false} NothingBeforeUse(calls: seq<Call>, burst: real, n: nat)
    requires n <= |calls| && forall i | 0 <= i < n :: !Effective(calls[i], burst)
    ensures Serve(Absent, calls, burst, n) == (Absent, 0)
  {
    if n > 0 { NothingBeforeUse(calls, burst, n - 1); }
  }

  lemma {:induction false} ServeSplits(s: State, calls: seq<Call>, burst: real, k: nat, n: nat)
    requires k <= n <= |calls|
    ensures var (mid, early) := Serve(s, calls, burst, k);
      var (end, late) := Serve(mid, calls[k..], burst, n - k);
      Serve(s, calls, burst, n) == (end, early + late)
  {
    if k < n {
      ServeSplits(s, calls, burst, k, n - 1);
      assert calls[k..][n - 1 - k] == calls[n - 1];
    }
  }

  /** The bucket's clock never runs ahead of the latest server time seen. */
  lemma {:induction false} ClockFollows(s: State, calls: seq<Call>, burst: real, n: nat, latest: int)
    requires n <= |calls| && (forall i | 0 <= i < |calls| :: calls[i].wall <= latest) && (s.Kept? ==> s.last <= latest)
    ensures var s' := Serve(s, calls, burst, n).0; s'.Kept? ==> s'.last <= latest
  {
    if n > 0 { ClockFollows(s, calls, burst, n - 1, latest); }
  }

  /**
   Over any stretch of any run without expiry, however the clock steps, admissions are at most
   the capacity plus the rate times the elapsed bucket time: from a stored bucket, and from the
   first use of one.
   */
  lemma AdmissionsAreBounded(s: State, calls: seq<Call>, burst: real, rate: real, capacity: real)
    requires s.Kept? && 0.0 <= s.tokens <= capacity && Within(calls, burst, rate, capacity)
    ensures Serve(s, calls, burst, |calls|).0.Kept?
    ensures var (s', admitted) := Serve(s, calls, burst, |calls|);
      admitted as real <= capacity + Refill(s.last, s'.last, rate)
  {
    KeptSpends(s, calls, burst, rate, capacity, |calls|);
    KeptStays(s, calls, burst, |calls|);
  }

  lemma FirstSpends(calls: seq<Call>, burst: real, rate: real, capacity: real, f: nat)
    requires FirstUse(calls, burst, f) && Within(calls, burst, rate, capacity)
    ensures var (s, admitted) := Serve(Absent, calls, burst, f + 1);
      s.Kept? && s.last == calls[f].wall && s.tokens >= 0.0 && admitted as real + s.tokens <= capacity
  {
    NothingBeforeUse(calls, burst, f);
  }

  lemma AdmissionsFromFirstUse(calls: seq<Call>, burst: real, rate: real, capacity: real, f: nat)
    requires FirstUse(calls, burst, f) && Within(calls, burst, rate, capacity)
    ensures Serve(Absent, calls, burst, |calls|).0.Kept?
    ensures var (s', admitted) := Serve(Absent, calls, burst, |calls|);
      admitted as real <= capacity + Refill(calls[f].wall, s'.last, rate)
  {
    var s := Serve(Absent, calls, burst, f + 1).0;
    FirstSpends(calls, burst, rate, capacity, f);
    ServeSplits(Absent, calls, burst, f + 1, |calls|);
    KeptSpends(s, calls[f + 1..], burst, rate, capacity, |calls| - f - 1);
    KeptStays(s, calls[f + 1..], burst, |calls| - f - 1);
  }

  /** Every evaluation has a usable lease, and since the one before it at least a token was refilled. */
  ghost predicate Paced(calls: seq<Call>, burst: real) {
    && (forall i | 0 <= i < |calls| :: Effective(calls[i], burst))
    && (forall i | 0 < i < |calls| ::
          && calls[i - 1].wall <= calls[i].wall
          && Refill(calls[i - 1].wall, calls[i].wall, calls[i].lease.rate) >= 1.0)
  }

  /** Nobody who keeps to the rate is refused: a paced run is admitted in full. */
  lemma {:induction false} PacedRunIsAdmitted(calls: seq<Call>, burst: real, n: nat)
    requires Paced(calls, burst) && n <= |calls|
    ensures var (s, admitted) := Serve(Absent, calls, burst, n);
      admitted == n && (n > 0 ==> s.Kept? && s.tokens >= 0.0 && s.last == calls[n - 1].wall)
  {
    if n > 0 { PacedRunIsAdmitted(calls, burst, n - 1); }
  }

  ghost predicate Forward(calls: seq<Call>) { forall i, j | 0 <= i < j < |calls| :: calls[i].wall <= calls[j].wall }

  /** The shortest life of the state's key, in milliseconds: a command is valid for at least one more. */
  const LIFE: int := 1001

  /** A full bucket holds no more than the shortest life of its key refills. */
  predicate Refills(rate: real, burst: real) { Capacity(rate, burst) <= 1.001 * rate }

  lemma LifeRefills(from: int, to: int, rate: real)
    requires rate >= 0.0 && from + LIFE <= to
    ensures Refill(from, to, rate) >= 1.001 * rate
  {
    MulMono(rate, 1.001, Elapsed(from, to));
  }

  /** A bucket whose key expired would have been full. */
  lemma FullByExpiry(s: State, c: Call, burst: real)
    requires s.Kept? && s.tokens >= 0.0 && s.last <= c.wall && s.last + LIFE <= s.expires <= c.wall
    requires Effective(c, burst) && Refills(c.lease.rate, burst)
    ensures Refilled(s, c, burst) == Refilled(Absent, c, burst)
  {
    LifeRefills(s.last, c.wall, c.lease.rate);
  }

  /** A stored bucket of such a run: not from the future, and its key outlives it. */
  predicate Fresh(s: State, wall: int) {
    s.Kept? ==> s.tokens >= 0.0 && s.last <= wall && s.expires >= s.last + LIFE
  }

  lemma StaysFresh(s: State, c: Call, burst: real, wall: int)
    requires Fresh(s, c.wall) && c.wall <= wall
    ensures Fresh(Acquire(s, c, burst).0, wall)
  {
    if Effective(c, burst) && s.Kept? { RefillGrows(s.last, c.wall, c.lease.rate, c.lease.rate); }
  }

  /** Two states alike up to the loss of an expired key. */
  predicate Alike(s: State, e: State, wall: int) {
    s == e || (e.Absent? && s.Kept? && s.last + LIFE <= s.expires <= wall)
  }

  lemma ActAlike(s: State, e: State, c: Call, burst: real)
    requires Fresh(s, c.wall) && Alike(s, e, c.wall) && Effective(c, burst) && Refills(c.lease.rate, burst)
    ensures Acquire(Seen(e, c.wall), c, burst) == Acquire(s, c, burst)
  {
    if s.Kept? && s.expires <= c.wall { FullByExpiry(s, c, burst); }
  }

  /**
   With a forward clock, and rates that refill a full bucket within the shortest life of its key,
   expiry grants nothing: every run admits the same with it and without.
   */
  lemma {:induction false} ExpiryGrantsNothing(calls: seq<Call>, burst: real, n: nat, wall: int)
    requires n <= |calls| && Forward(calls)
    requires forall i | 0 <= i < |calls| && Effective(calls[i], burst) :: Refills(calls[i].lease.rate, burst)
    requires forall i | 0 <= i < n :: calls[i].wall <= wall
    ensures var (s, admitted), (e, admittedToo) := Serve(Absent, calls, burst, n),
        ServeExpiring(Absent, calls, burst, n);
      admitted == admittedToo && Fresh(s, wall) && Alike(s, e, wall)
  {
    if n > 0 {
      var c := calls[n - 1];
      ExpiryGrantsNothing(calls, burst, n - 1, c.wall);
      var s, e := Serve(Absent, calls, burst, n - 1).0, ServeExpiring(Absent, calls, burst, n - 1).0;
      StaysFresh(s, c, burst, wall);
      if Effective(c, burst) { ActAlike(s, e, c, burst); }
    }
  }

  /** A rate whose full bucket holds one token. */
  function OneToken(burst: real): real
    requires burst > 0.0
  {
    1.0 / burst
  }

  lemma OneTokenHolds(burst: real)
    requires burst > 0.0
    ensures OneToken(burst) > 0.0 && Capacity(OneToken(burst), burst) == 1.0
  {
    assert OneToken(burst) * burst == 1.0;
  }

  /** A command of a rate about to end. */
  function Ending(wall: int, rate: real): Call { Call(wall, Lease(rate, wall + 1)) }

  /** A bucket drained at the moment its command ends is reached. */
  lemma DrainedIsReached(burst: real, t: int)
    requires burst > 0.0
    ensures Acquire(Absent, Ending(t, OneToken(burst)), burst) == (Kept(0.0, t, t + LIFE), true)
  {
    OneTokenHolds(burst);
  }

  /** What is missing to a next token once all whole tokens of a full bucket are spent, as a rate over a millisecond. */
  function TopUp(capacity: real): (r: real)
    ensures r > 0.0
  {
    1000.0 * (1.0 - (capacity - capacity.Floor as real))
  }

  /**
   The last token of a bucket of one, then at the instant its key expires as many evaluations under
   the rate as a full bucket has tokens, then one more under a rate that tops it up.
   */
  function Gaining(rate: real, burst: real, t: int, n: nat): seq<Call>
    requires burst > 0.0
  {
    var e := t + LIFE;
    [Ending(t, OneToken(burst))] + seq(n, _ => Ending(e, rate)) + [Ending(e + 1, TopUp(Capacity(rate, burst)))]
  }

  /** Evaluations at the bucket's own time take a token each while there is one. */
  lemma InstantSpends(s: State, e: int, rate: real, burst: real)
    requires s.Kept? && s.last == e && rate > 0.0 && burst > 0.0 && 0.0 <= s.tokens <= Capacity(rate, burst)
    ensures var (s', ok) := Acquire(s, Ending(e, rate), burst);
      s' == Kept(if ok then s.tokens - 1.0 else s.tokens, e, e + LIFE) && (ok <==> s.tokens >= 1.0)
  {
    assert Refill(e, e, rate) == 0.0;
  }

  /** With the key expired the bucket is full again, and all its whole tokens are admitted. */
  lemma {:induction false} ExpiringSpends(rate: real, burst: real, t: int, n: nat, i: nat)
    requires rate > 0.0 && burst > 0.0 && n as real <= Capacity(rate, burst) && 1 <= i <= n + 1
    ensures var e := t + LIFE;
      ServeExpiring(Absent, Gaining(rate, burst, t, n), burst, i) ==
      (if i == 1 then Kept(0.0, t, e) else Kept(Capacity(rate, burst) - (i - 1) as real, e, e + LIFE), i)
  {
    var calls, e := Gaining(rate, burst, t, n), t + LIFE;
    if i == 1 {
      DrainedIsReached(burst, t);
      assert ServeExpiring(Absent, calls, burst, 0) == (Absent, 0);
    } else {
      ExpiringSpends(rate, burst, t, n, i - 1);
      assert calls[i - 1] == Ending(e, rate);
      if i > 2 { InstantSpends(Kept(Capacity(rate, burst) - (i - 2) as real, e, e + LIFE), e, rate, burst); }
    }
  }

  /** Without expiry it was refilled for the life of the key, and admits and keeps exactly that. */
  lemma {:induction false} KeptSpendsRefill(rate: real, burst: real, t: int, n: nat, i: nat)
    requires rate > 0.0 && burst > 0.0 && !Refills(rate, burst) && 2 <= i <= n + 1
    ensures var (s, admitted) := Serve(Absent, Gaining(rate, burst, t, n), burst, i);
      s.Kept? && s.last == t + LIFE && 0.0 <= s.tokens && (admitted - 1) as real + s.tokens == 1.001 * rate
  {
    var calls, e := Gaining(rate, burst, t, n), t + LIFE;
    assert calls[i - 1] == Ending(e, rate);
    if i == 2 {
      DrainedIsReached(burst, t);
      assert Serve(Absent, calls, burst, 0) == (Absent, 0);
      assert Serve(Absent, calls, burst, 1) == (Kept(0.0, t, e), 1);
      assert Elapsed(t, e) == 1.001;
    } else {
      KeptSpendsRefill(rate, burst, t, n, i - 1);
      InstantSpends(Serve(Absent, calls, burst, i - 1).0, e, rate, burst);
    }
  }

  lemma TopUpFills(capacity: real, e: int)
    ensures Refill(e, e + 1, TopUp(capacity)) == 1.0 - (capacity - capacity.Floor as real)
  {
    assert Elapsed(e, e + 1) == 0.001;
  }

  /** A full bucket whose whole tokens are spent is topped up to one; one that had less to begin with is not. */
  lemma LastGains(capacity: real, e: int, burst: real, n: nat, s: State)
    requires burst > 0.0 && n == capacity.Floor && s.Kept? && s.last == e && s.tokens >= 0.0
    ensures Acquire(Kept(capacity - n as real, e, e + LIFE), Ending(e + 1, TopUp(capacity)), burst).1
    ensures Acquire(s, Ending(e + 1, TopUp(capacity)), burst).1 ==> s.tokens >= capacity - n as real
  {
    TopUpFills(capacity, e);
  }

  lemma GainingIsForward(rate: real, burst: real, t: int, n: nat)
    requires burst > 0.0
    ensures Forward(Gaining(rate, burst, t, n))
  {
    var calls := Gaining(rate, burst, t, n);
    assert forall i | 0 <= i < |calls| :: t <= calls[i].wall && (i > 0 ==> t + LIFE <= calls[i].wall);
    assert forall i | 0 < i <= n :: calls[i].wall == t + LIFE;
  }

  /** Wherever a full bucket holds more than that, a run admits more for the key's expiry. */
  lemma LongBurstGains(rate: real, burst: real, t: int, n: nat)
    requires rate > 0.0 && burst > 0.0 && !Refills(rate, burst) && n == Capacity(rate, burst).Floor
    ensures Forward(Gaining(rate, burst, t, n)) && Gaining(rate, burst, t, n)[1].lease == Lease(rate, t + LIFE + 1)
    ensures ServeExpiring(Absent, Gaining(rate, burst, t, n), burst, n + 2).1 == n + 2
    ensures Serve(Absent, Gaining(rate, burst, t, n), burst, n + 2).1 < n + 2
  {
    var calls, e, capacity := Gaining(rate, burst, t, n), t + LIFE, Capacity(rate, burst);
    GainingIsForward(rate, burst, t, n);
    assert n >= 1 && calls[1] == Ending(e, rate);
    ExpiringSpends(rate, burst, t, n, n + 1);
    KeptSpendsRefill(rate, burst, t, n, n + 1);
    assert calls[n + 1] == Ending(e + 1, TopUp(capacity));
    LastGains(capacity, e, burst, n, Serve(Absent, calls, burst, n + 1).0);
  }

  /**
   For a drained bucket, losing its state at the earliest its key can expire changes nothing exactly
   under that condition.
   */
  lemma EarliestExpiry(rate: real, burst: real, t: int, until: int)
    requires rate > 0.0 && burst > 0.0 && until > t + LIFE
    ensures var c := Call(t + LIFE, Lease(rate, until));
      Acquire(Absent, c, burst) == Acquire(Kept(0.0, t, t + LIFE), c, burst) <==> Refills(rate, burst)
  {
    assert Elapsed(t, t + LIFE) == 1.001;
  }

  class Bucket {
    var state: State

    /**
     The acquire script: expired state is gone before it runs; an unusable or zero-rate command
     leaves the bucket alone.
     */
    method TryAcquire(c: Call, burst: real) returns (ok: bool)
      modifies this
      ensures (state, ok) == Acquire(Seen(old(state), c.wall), c, burst)
    {
      if state.Kept? && state.expires <= c.wall {
        state := Absent;
      }
      ghost var seen := state;
      if !c.lease.Lease? || c.lease.rate < 0.0 || c.lease.validUntil <= c.wall || burst <= 0.0 {
        return false;
      }
      if c.lease.rate == 0.0 {
        return false;
      }
      var capacity := if c.lease.rate * burst >= 1.0 then c.lease.rate * burst else 1.0;
      var now := c.wall;
      var tokens := capacity;
      if state.Kept? {
        if now < state.last {
          now := state.last;
        }
        tokens := state.tokens + ((now - state.last) as real / 1000.0) * c.lease.rate;
        if tokens > capacity {
          tokens := capacity;
        }
      }
      assert now == Clock(seen, c.wall) && tokens == Refilled(seen, c, burst);
      if tokens >= 1.0 {
        tokens := tokens - 1.0;
        ok := true;
      } else {
        ok := false;
      }
      state := Kept(tokens, now, Expiry(c));
    }
  }
}
