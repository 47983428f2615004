/** What a pass writes: the observations recorded on entering, finishing and
    failing a provisioning or a removal. */
module Passes {
  import opened Options
  import opened Workspace
  import opened Repository

  /** The reconciler's options, after defaults. */
  datatype Config = Config(
    lease: Time,
    writeTimeout: Time,
    maxAttempts: nat,
    backoffBase: Time,
    backoffCap: Time,
    slowRetry: Time)
  {
    predicate Valid() {
      0 < lease && 0 < writeTimeout && 0 < maxAttempts && 0 < backoffBase && 0 < backoffCap && 0 < slowRetry
    }

    /** How often a running operation renews its lease. */
    function RenewInterval(): Time {
      Max(SECOND, lease / 3)
    }
  }

  /** A backend failure, attributed to a phase. */
  datatype StepError = StepError(phase: string, retryable: bool, code: string)

  function NextAttempt(c: Config, now: Time, attempts: int, rnd: real): Time {
    now + Jittered(Backoff(attempts, c.backoffBase, c.backoffCap), rnd)
  }

  function SlowRetryAt(c: Config, now: Time, rnd: real): Time {
    now + Jittered(c.slowRetry, rnd)
  }

  /** Nothing to do but to answer the latest intent. */
  function CatchUpWrite(w: Row, now: Time): Write {
    Write(w.observed, w.generation, false, "", "", 0, now, true)
  }

  /** The version-checked transition that comes before any backend call. */
  function EntryWrite(w: Row, now: Time): Write {
    Write(if w.desired.Present? then Provisioning else Removing,
          w.generation, false, "", "", w.attempts, now, false)
  }

  function RunningWrite(w: Row, now: Time): Write {
    Write(Running, w.generation, true, "", "", 0, now, true)
  }

  function AbsentWrite(w: Row, now: Time): Write {
    Write(Absent, w.generation, false, "", "", 0, now, true)
  }

  predicate WillRetry(c: Config, w: Row, err: StepError) {
    err.retryable && w.attempts + 1 < c.maxAttempts
  }

  function ProvisionFailure(c: Config, w: Row, err: StepError, now: Time, rnd: real): Write {
    var attempts := w.attempts + 1;
    if WillRetry(c, w, err) then
      Write(Failed, w.generation, false, err.code, err.phase, attempts, NextAttempt(c, now, attempts, rnd), true)
    else
      Write(Failed, w.generation, false, err.code, err.phase, Max(attempts, c.maxAttempts), SlowRetryAt(c, now, rnd), true)
  }

  /** A failed removal.  Out of budget it is the user's to retry, unless the
      backend holds nothing any more and only leftovers remain. */
  function TeardownFailure(c: Config, w: Row, err: StepError, gone: bool, now: Time, rnd: real): Write {
    var attempts := w.attempts + 1;
    var code, phase := "workspace_teardown_failed", "teardown";
    if WillRetry(c, w, err) then
      Write(Removing, w.generation, false, code, phase, attempts, NextAttempt(c, now, attempts, rnd), true)
    else if gone then
      Write(Removing, w.generation, false, code, phase, attempts, SlowRetryAt(c, now, rnd), true)
    else
      Write(Failed, w.generation, false, code, phase, Max(attempts, c.maxAttempts), NextAttempt(c, now, attempts, rnd), true)
  }

  /** What an on-demand observation records. */
  function ObservationWrite(w: Row, seen: Observed, now: Time): Write {
    Write(seen, w.observedGeneration, seen.Running?, "", "", 0, now, true)
  }

  /** After a recorded failure the row is inside its fast budget exactly when the
      step was retryable and budget remained. */
  lemma FailureInsideBudget(c: Config, w: Row, err: StepError, now: Time, rnd: real)
    requires w.desired.Present?
    ensures var f := Written(w, ProvisionFailure(c, w, err, now, rnd));
      && (f.RetryPending(c.maxAttempts) <==> err.retryable && w.attempts + 1 < c.maxAttempts)
      && (f.Final(c.maxAttempts) <==> !f.RetryPending(c.maxAttempts))
      && f.attempts > w.attempts
  {
  }

  /** A removal is reported as failed exactly when it will not be retried and the
      backend still holds the workspace; such a row is final and never due. */
  lemma FailedRemovalWaits(c: Config, w: Row, err: StepError, gone: bool, now: Time, rnd: real)
    requires w.desired.Gone?
    ensures var f := Written(w, TeardownFailure(c, w, err, gone, now, rnd));
      && (f.RemovalFailed() <==> !gone && !(err.retryable && w.attempts + 1 < c.maxAttempts))
      && (f.RemovalFailed() ==> f.Final(c.maxAttempts) && !f.Pending())
      && (!f.RemovalFailed() ==> !f.Settled() && f.Pending())
  {
  }
}
