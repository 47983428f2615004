/** The row of one bot's workspace, what the reconciler decides from it, and the
    retry arithmetic.  Everything here is a value; the row is shared and updated
    in place by the `Repository` class. */
module Workspace {
  import opened Options

  // Instants and durations are nanoseconds on one clock.
  type Time = int
  type Owner = nat
  type BotId = nat

  const SECOND := 1_000_000_000

  datatype Desired = Present | Gone

  datatype Observed = Absent | Provisioning | Running | Stopped | Failed | Removing

  datatype Action = NoAction | Provision | Teardown

  /** One row of bot_workspaces.  An empty lease_owner is `None`. */
  datatype Row = Row(
    desired: Desired,
    generation: nat,
    image: string,
    preserve: bool,
    observed: Observed,
    observedGeneration: nat,
    everReady: bool,
    errorCode: string,
    errorPhase: string,
    attempts: nat,
    nextAttempt: Time,
    leaseOwner: Option<Owner>,
    leaseUntil: Option<Time>,
    version: nat)
  {
    predicate Behind() {
      observedGeneration < generation
    }

    predicate Settled() {
      && !Behind()
      && !observed.Provisioning?
      && !observed.Removing?
      && (desired.Gone? ==> observed.Absent? || observed.Failed?)
    }

    predicate RetryPending(maxAttempts: nat) {
      observed.Failed? && attempts < maxAttempts
    }

    predicate Final(maxAttempts: nat) {
      Settled() && !RetryPending(maxAttempts)
    }

    predicate RemovalFailed() {
      desired.Gone? && !Behind() && observed.Failed?
    }

    /** The part of the claim's condition that does not look at the clock: the
        row has work for some pass. */
    predicate Pending() {
      || Behind()
      || observed.Provisioning?
      || observed.Removing?
      || (desired.Present? && (observed.Absent? || observed.Failed?))
      || (desired.Gone? && !observed.Absent? && !observed.Failed?)
    }

    predicate Unleased(now: Time) {
      leaseUntil.None? || leaseUntil.value < now
    }

    predicate Due(now: Time) {
      nextAttempt <= now && Unleased(now) && Pending()
    }
  }

  function Decide(w: Row): Action {
    match w.desired
    case Gone =>
      if w.observed.Absent? && !w.Behind() then NoAction else Teardown
    case Present =>
      if w.observed.Running? || w.observed.Stopped? then NoAction else Provision
  }

  /** What the backend says about a bot's workspace. */
  datatype Inspection = Inspection(exists_: bool, running: bool, image: string) {
    function Observed(): Observed {
      if exists_ && running then Running else if exists_ then Stopped else Absent
    }
  }

  datatype BotStatus = Creating | Ready | FailedStatus | Deleting

  function DeriveBotStatus(w: Row): Option<BotStatus> {
    if w.desired.Gone? then None
    else if w.observed.Running? || w.observed.Stopped? || w.everReady then Some(Ready)
    else if w.observed.Failed? then Some(FailedStatus)
    else Some(Creating)
  }

  // ---------------------------------------------------------------------------
  // The claim's condition, `Decide` and `Settled` are written in three places.
  // These lemmas say that they agree.

  /** The claim takes exactly the rows on which a pass would do something,
      leaving out a removal that failed and waits for the user. */
  lemma PendingIffSomethingToDo(w: Row)
    ensures w.Pending() <==> (w.Behind() || !Decide(w).NoAction?) && !w.RemovalFailed()
  {
    match w.observed {
      case Absent | Provisioning | Running | Stopped | Failed | Removing =>
    }
  }

  /** A settled row is left alone by the claim, except a failed provisioning and
      a vanished workspace, which are tried again. */
  lemma SettledRowsStillClaimed(w: Row)
    requires w.Settled()
    ensures w.Pending() <==> w.desired.Present? && (w.observed.Failed? || w.observed.Absent?)
  {
    PendingIffSomethingToDo(w);
  }

  /** A row that was ready once never again reports a bot that is being created
      or that failed to be created; a removal never touches the status. */
  lemma StatusOfAReadyBot(w: Row)
    ensures DeriveBotStatus(w).None? <==> w.desired.Gone?
    ensures DeriveBotStatus(w) == Some(FailedStatus)
       <==> w.desired.Present? && w.observed.Failed? && !w.everReady
    ensures w.desired.Present? && w.everReady ==> DeriveBotStatus(w) == Some(Ready)
  {
  }

  // ---------------------------------------------------------------------------
  // Backoff

  newtype int64 = x: int | -0x8000_0000_0000_0000 <= x <= 0x7fff_ffff_ffff_ffff

  function Pow2(n: nat): (p: nat)
    ensures p >= 1
  {
    if n == 0 then 1 else 2 * Pow2(n - 1)
  }

  function Min(a: int, b: int): int { if a < b then a else b }

  function Max(a: int, b: int): int { if a < b then b else a }

  /** Exponential from `base`, capped: the delay after the given attempt. */
  function Backoff(attempts: int, base: int, cap: int): int {
    Min(cap, base * Pow2(Max(attempts, 1) - 1))
  }

  lemma {:induction false} Pow2Monotone(m: nat, n: nat)
    requires m <= n
    ensures Pow2(m) <= Pow2(n)
  {
    if m < n { Pow2Monotone(m, n - 1); }
  }

  lemma DoublingStep(base: int, n: nat)
    ensures base * Pow2(n + 1) == 2 * (base * Pow2(n))
  {
    assert Pow2(n + 1) == 2 * Pow2(n);
  }

  lemma ScaledMonotone(base: int, m: nat, n: nat)
    requires 0 < base && m <= n
    ensures base <= base * Pow2(m) <= base * Pow2(n)
  {
    Pow2Monotone(m, n);
    Pow2Monotone(0, m);
  }

  newtype int32 = x: int | -0x8000_0000 <= x <= 0x7fff_ffff

  /** The value of an int64 product. */
  function Wrapped(x: int): (r: int)
    ensures -0x8000_0000_0000_0000 <= r <= 0x7fff_ffff_ffff_ffff
    ensures -0x8000_0000_0000_0000 <= x <= 0x7fff_ffff_ffff_ffff ==> r == x
  {
    (x + 0x8000_0000_0000_0000) % 0x1_0000_0000_0000_0000 - 0x8000_0000_0000_0000
  }

  /** What is left of the delay after up to `left` doublings below the cap, each of
      which may wrap around. */
  function Doubled(left: nat, d: int, cap: int): int {
    if left > 0 && d < cap then Doubled(left - 1, Wrapped(2 * d), cap) else Min(d, cap)
  }

  predicate Wraps(base: int, cap: int, k: nat) {
    0x4000_0000_0000_0000 <= base * Pow2(k) < cap
  }

  /** No doubling below the cap leaves the int64 range. */
  predicate NeverWraps(base: int, cap: int) {
    forall k: nat :: k < 64 ==> !Wraps(base, cap, k)
  }

  lemma {:induction false} DoublesExactly(base: int, cap: int, k: nat, left: nat)
    requires 0 < base && base * Pow2(k) <= 0x7fff_ffff_ffff_ffff && NeverWraps(base, cap)
    ensures Doubled(left, base * Pow2(k), cap) == Min(cap, base * Pow2(k + left))
    decreases left
  {
    ScaledMonotone(base, k, k + left);
    if left > 0 && base * Pow2(k) < cap {
      FewDoublings(base, k);
      assert !Wraps(base, cap, k);
      DoublingStep(base, k);
      DoublesExactly(base, cap, k + 1, left - 1);
    }
  }

  /** Within 64 doublings a positive int64 is out of range. */
  lemma FewDoublings(base: int, k: nat)
    requires 0 < base && base * Pow2(k) <= 0x7fff_ffff_ffff_ffff
    ensures k < 64
  {
    if k >= 64 {
      Pow2Monotone(64, k);
      assert Pow2(64) == 0x1_0000_0000_0000_0000 by { PowerOf64(); }
      ScaledMonotone(base, 64, k);
      assert base * Pow2(64) >= Pow2(64);
    }
  }

  lemma EightBits()
    ensures Pow2(8) == 256
  {
    assert Pow2(4) == 16;
  }

  lemma PowerOf64()
    ensures Pow2(64) == 0x1_0000_0000_0000_0000
  {
    hide Pow2;
    EightBits();
    Pow2Sum(8, 8);
    assert Pow2(16) == 0x1_0000;
    Pow2Sum(16, 16);
    assert Pow2(32) == 0x1_0000_0000;
    Pow2Sum(32, 32);
  }

  lemma {:induction false} Pow2Sum(m: nat, n: nat)
    ensures Pow2(m + n) == Pow2(m) * Pow2(n)
  {
    if n > 0 {
      Pow2Sum(m, n - 1);
      assert Pow2(m + n) == 2 * Pow2(m + n - 1);
      assert Pow2(n) == 2 * Pow2(n - 1);
      assert 2 * (Pow2(m) * Pow2(n - 1)) == Pow2(m) * (2 * Pow2(n - 1));
    }
  }

  lemma {:induction false} DoublesUntil(base: int, cap: int, j: nat, k: nat)
    requires 0 < base && j <= k && base * Pow2(k) < cap <= 0x7fff_ffff_ffff_ffff
    ensures Doubled(k + 1 - j, base * Pow2(j), cap) == Doubled(1, base * Pow2(k), cap)
    decreases k - j
  {
    if j < k {
      ScaledMonotone(base, j + 1, k);
      ScaledMonotone(base, j, k);
      DoublingStep(base, j);
      DoublesUntil(base, cap, j + 1, k);
    }
  }

  predicate ExactAt(base: int, cap: int, attempts: int32) {
    Doubled(Max(attempts as int, 1) - 1, base, cap) == Backoff(attempts as int, base, cap)
  }

  predicate InThePast(base: int, cap: int, attempts: int32) {
    Doubled(Max(attempts as int, 1) - 1, base, cap) < 0
  }

  /** The loop computes the exponential delay for every attempt exactly if no doubling
      below the cap wraps around; one that does yields a delay in the past. */
  lemma BackoffIsExact(base: int, cap: int)
    requires 0 < base <= 0x7fff_ffff_ffff_ffff && cap <= 0x7fff_ffff_ffff_ffff
    ensures NeverWraps(base, cap) <==>
      forall attempts: int32 :: ExactAt(base, cap, attempts)
    ensures !NeverWraps(base, cap) ==> exists attempts: int32 :: InThePast(base, cap, attempts)
  {
    assert Pow2(0) == 1;
    if NeverWraps(base, cap) {
      forall attempts: int32 ensures ExactAt(base, cap, attempts) {
        DoublesExactly(base, cap, 0, Max(attempts as int, 1) - 1);
      }
    } else {
      var k: nat :| k < 64 && Wraps(base, cap, k);
      var attempts: int32 := (k + 2) as int32;
      DoublesUntil(base, cap, 0, k);
      DoublingStep(base, k);
      assert Wrapped(2 * (base * Pow2(k))) < 0;
      assert Doubled(1, base * Pow2(k), cap) == Doubled(0, Wrapped(2 * (base * Pow2(k))), cap);
      ScaledMonotone(base, k + 1, k + 1);
      assert Doubled(Max(attempts as int, 1) - 1, base, cap) < 0 < Backoff(attempts as int, base, cap);
      assert !ExactAt(base, cap, attempts) && InThePast(base, cap, attempts);
    }
  }

  /** A cap of at most 2^62 nanoseconds never lets a doubling wrap. */
  lemma SmallCapsNeverWrap(base: int, cap: int)
    requires cap <= 0x4000_0000_0000_0000
    ensures NeverWraps(base, cap)
  {
  }

  method NextBackoff(now: int, attempts: int32, base: int64, cap: int64) returns (at: int)
    ensures at == now + Doubled(Max(attempts as int, 1) - 1, base as int, cap as int)
    ensures 0 < base && NeverWraps(base as int, cap as int) ==>
      at == now + Backoff(attempts as int, base as int, cap as int)
  {
    var n := if attempts < 1 then 1 else attempts;
    var d := base;
    var i: int32 := 1;
    while i < n && d < cap
      invariant 1 <= i <= n
      invariant Doubled(n as int - i as int, d as int, cap as int) == Doubled(n as int - 1, base as int, cap as int)
    {
      d := Wrapped(2 * d as int) as int64;
      i := i + 1;
    }
    if d > cap {
      d := cap;
    }
    at := now + d as int;
    if 0 < base && NeverWraps(base as int, cap as int) {
      BackoffIsExact(base as int, cap as int);
      assert ExactAt(base as int, cap as int, attempts);
    }
  }

  lemma BackoffMonotone(a: int, b: int, base: int, cap: int)
    requires a <= b && 0 < base
    ensures Backoff(a, base, cap) <= Backoff(b, base, cap) <= cap
  {
    ScaledMonotone(base, Max(a, 1) - 1, Max(b, 1) - 1);
  }

  /** The jitter: a factor in [0.8, 1.2), truncated to whole nanoseconds. */
  function Jittered(d: int, rnd: real): (r: int) {
    (d as real * (0.8 + 0.4 * rnd)).Floor
  }

  lemma JitterBounds(d: nat, rnd: real)
    requires 0.0 <= rnd < 1.0
    ensures 0.8 * d as real - 1.0 < Jittered(d, rnd) as real
    ensures Jittered(d, rnd) as real <= 1.2 * d as real
    ensures 0 <= Jittered(d, rnd)
  {
    var x := d as real;
    assert x * (0.8 + 0.4 * rnd) == 0.8 * x + 0.4 * (x * rnd);
    assert 0.0 <= x * rnd;
    assert x * rnd <= x by { assert x * (1.0 - rnd) >= 0.0; }
  }

  /** The delays of the fast retries 1..n, without and with jitter. */
  function FastDelays(n: nat, base: int, cap: int): int {
    if n == 0 then 0 else FastDelays(n - 1, base, cap) + Backoff(n, base, cap)
  }

  function JitteredDelays(rnds: seq<real>, base: int, cap: int): int {
    if rnds == [] then
      0
    else
      JitteredDelays(rnds[..|rnds| - 1], base, cap)
      + Jittered(Backoff(|rnds|, base, cap), rnds[|rnds| - 1])
  }

  /** The whole fast window stays within a fifth of the unjittered schedule, up
      to one nanosecond of truncation per retry. */
  lemma {:induction false} FastWindowWithinAFifth(rnds: seq<real>, base: int, cap: int)
    requires 0 < base && 0 < cap
    requires forall i :: 0 <= i < |rnds| ==> 0.0 <= rnds[i] < 1.0
    ensures JitteredDelays(rnds, base, cap) as real <= 1.2 * FastDelays(|rnds|, base, cap) as real
    ensures JitteredDelays(rnds, base, cap) as real
         >= 0.8 * FastDelays(|rnds|, base, cap) as real - |rnds| as real
  {
    if rnds != [] {
      var n := |rnds|;
      FastWindowWithinAFifth(rnds[..n - 1], base, cap);
      ScaledMonotone(base, n - 1, n - 1);
      JitterBounds(Backoff(n, base, cap), rnds[n - 1]);
    }
  }
}
