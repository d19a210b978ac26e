/** How long a failed request waits before its next attempt, in seconds. */
module RetryLadder {
  const BASE_DELAY: real := 2.0
  const MAX_DELAY: real := 60.0

  function Min(a: real, b: real): real { if a <= b then a else b }

  function Max(a: real, b: real): real { if a >= b then a else b }

  function Pow2(n: nat): (p: real)
    ensures p >= 1.0
  {
    if n == 0 then 1.0 else 2.0 * Pow2(n - 1)
  }

  function Level(retries: nat, left: int): real {
    Min(Min(MAX_DELAY, left as real), BASE_DELAY * Pow2(retries))
  }

  function Jittered(half: real, jitter: real): real { half + jitter * half }

  /** Exponential backoff under the cap, with equal jitter. */
  function Backoff(retries: nat, left: int, jitter: real): real {
    if left <= 0 then 0.0 else Jittered(Level(retries, left) / 2.0, jitter)
  }

  /** The backoff, or what the server asked for, clamped to half the time left and spread a little. */
  function Honoured(backoff: real, after: real, left: real, spread: real): real {
    if after > backoff then Max(backoff, Min(after, left / 2.0) * (1.0 + spread / 4.0)) else backoff
  }

  /** The delay of the next attempt. */
  function Delay(retries: nat, left: int, after: real, jitter: real, spread: real): real {
    Honoured(Backoff(retries + 1, left, jitter), after, left as real, spread)
  }

  lemma Scaled(x: real, share: real)
    requires x > 0.0 && 0.0 <= share < 1.0
    ensures 0.0 <= share * x < x
  {
  }

  lemma JitterFits(half: real, jitter: real)
    requires half > 0.0 && 0.0 <= jitter < 1.0
    ensures 0.0 < half <= Jittered(half, jitter) < half + half
  {
    Scaled(half, jitter);
  }

  lemma BackoffFits(retries: nat, left: int, jitter: real)
    requires left > 0 && 0.0 <= jitter < 1.0
    ensures 0.0 < Backoff(retries, left, jitter) < left as real
  {
    JitterFits(Level(retries, left) / 2.0, jitter);
  }

  lemma ClampFits(x: real, left: real, spread: real)
    requires 0.0 < x <= left / 2.0 && 0.0 <= spread < 1.0
    ensures 0.0 < x <= x * (1.0 + spread / 4.0) < left
  {
    Scaled(x, spread);
    assert x * (1.0 + spread / 4.0) == x + spread * x / 4.0;
  }

  lemma HonouredFits(backoff: real, after: real, left: real, spread: real)
    requires 0.0 < backoff < left && 0.0 <= spread < 1.0
    ensures backoff <= Honoured(backoff, after, left, spread) < left
    ensures Min(after, left / 2.0) <= Honoured(backoff, after, left, spread)
  {
    if after > 0.0 { ClampFits(Min(after, left / 2.0), left, spread); }
  }

  /** For any jitter and any wait the server asks for, the delay is positive and less than the time left. */
  lemma DelayFits(retries: nat, left: int, after: real, jitter: real, spread: real)
    requires left > 0 && 0.0 <= jitter < 1.0 && 0.0 <= spread < 1.0
    ensures 0.0 < Delay(retries, left, after, jitter, spread) < left as real
  {
    BackoffFits(retries + 1, left, jitter);
    HonouredFits(Backoff(retries + 1, left, jitter), after, left as real, spread);
  }

  /**
   The delay keeps the backoff's floor and honours what the server asked for up to half the time
   left; when that is no more than the floor it stays under the backoff's level.
   */
  lemma DelayHonours(retries: nat, left: int, after: real, jitter: real, spread: real)
    requires left > 0 && 0.0 <= jitter < 1.0 && 0.0 <= spread < 1.0
    ensures var delay, level := Delay(retries, left, after, jitter, spread), Level(retries + 1, left);
      && level / 2.0 <= delay && Min(after, left as real / 2.0) <= delay
      && (after <= level / 2.0 ==> delay < level)
  {
    BackoffFits(retries + 1, left, jitter);
    JitterFits(Level(retries + 1, left) / 2.0, jitter);
    HonouredFits(Backoff(retries + 1, left, jitter), after, left as real, spread);
  }

  function Ceil(x: real): int { -((-x).Floor) }

  /**
   One failed attempt: when it failed, when its retry was parked, whether that went through, and the
   numbers its delay was computed from.
   */
  datatype Failure = Failure(at: int, parked: int, kept: bool, retries: nat, after: real, jitter: real, spread: real)

  predicate Sound(f: Failure, deadline: int) {
    f.at < deadline && f.at <= f.parked && 0.0 <= f.jitter < 1.0 && 0.0 <= f.spread < 1.0
  }

  /** The earliest second the request may be dispatched again. */
  function NotBefore(f: Failure, deadline: int): int {
    f.parked + Ceil(Delay(f.retries, deadline - f.at, f.after, f.jitter, f.spread))
  }

  /** A retry costs at least a whole second, and one parked at once is due by the deadline. */
  lemma RetryCosts(f: Failure, deadline: int)
    requires Sound(f, deadline)
    ensures NotBefore(f, deadline) >= f.at + 1
    ensures f.parked == f.at ==> NotBefore(f, deadline) <= deadline
  {
    DelayFits(f.retries, deadline - f.at, f.after, f.jitter, f.spread);
  }

  /** A retry that could not be parked goes back as it was, free to be dispatched at once. */
  function Earliest(f: Failure, deadline: int): int { if f.kept then NotBefore(f, deadline) else f.at }

  /** The failed attempts of one request, each made no earlier than the retry before it allowed. */
  ghost predicate Attempts(fs: seq<Failure>, deadline: int) {
    && (forall i | 0 <= i < |fs| :: Sound(fs[i], deadline))
    && (forall i | 0 < i < |fs| :: fs[i].at >= Earliest(fs[i - 1], deadline))
  }

  /** How many of the first `n` retries could not be parked. */
  function Unparked(fs: seq<Failure>, n: nat): nat
    requires n <= |fs|
  {
    if n == 0 then 0 else Unparked(fs, n - 1) + if fs[n - 1].kept then 0 else 1
  }

  /**
   The whole seconds left strictly fall with every failed attempt whose retry was parked, so there
   are at most as many attempts as seconds and retries that could not be parked.
   */
  lemma {:induction false} AttemptsEnd(fs: seq<Failure>, deadline: int, n: nat)
    requires Attempts(fs, deadline) && n < |fs|
    ensures deadline - fs[n].at <= deadline - fs[0].at - n + Unparked(fs, n)
    ensures n + 1 <= deadline - fs[0].at + Unparked(fs, n)
  {
    if n > 0 {
      AttemptsEnd(fs, deadline, n - 1);
      RetryCosts(fs[n - 1], deadline);
    }
  }
}
