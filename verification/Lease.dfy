/** Mutual exclusion by lease.  On one clock, with every database call answered or
    given up within its timeout, every step taken as soon as it is possible and
    backends that stop when their context is cancelled, two instances never drive
    the same workspace at once, provided no observation strips the lease of a pass
    of its own instance.  That proviso is exact: once it is broken, a second
    instance can start driving the backend without any time passing. */
module Lease {
  import opened Options
  import opened Workspace
  import opened Repository
  import opened Passes
  import opened Protocol
  import opened Fencing
  import opened Runs

  /** The lease outlives a claim, an entry write and a status write, one renewal
      interval and the renewal itself. */
  predicate Fits(c: Config) {
    c.Valid() && 4 * c.writeTimeout + c.RenewInterval() <= c.lease
  }

  /** The default options fit: 100 s of 120 s. */
  lemma DefaultsFit(c: Config)
    requires c.Valid() && c.lease == 120 * SECOND && c.writeTimeout == 15 * SECOND
    ensures Fits(c) && 4 * c.writeTimeout + c.RenewInterval() == 100 * SECOND
  {
  }

  lemma RenewalIsShort(c: Config)
    requires Fits(c)
    ensures c.writeTimeout <= c.RenewInterval()
  {
  }

  // ---------------------------------------------------------------------------
  // Timely runs

  /** The instant a pass cannot let go by: the call in flight is answered or given
      up, a due renewal is started, a cancelled operation has returned. */
  function Deadline(p: Pass): Option<Time> {
    match p.phase
    case Claimed(d) => Some(d)
    case Entering(_, d) => Some(d)
    case Entered(d) => Some(d)
    case Deriving(d) => Some(d)
    case Operating(_, tick, Idle) => Some(tick)
    case Operating(_, _, Asked(d)) => Some(d)
    case Operating(_, _, Answered(_, d)) => Some(d)
    case _ => None
  }

  predicate Before(t: Time, d: Option<Time>) {
    d.Some? ==> t <= d.value
  }

  ghost predicate Timely(s: State, step: Step) {
    step.Tick? ==> forall o :: o in s.passes ==> Before(s.now + step.d, Deadline(s.passes[o]))
  }

  /** The pass has landed its entry write and may be inside the backend. */
  predicate Active(p: Pass) {
    p.phase.Entered? || p.phase.Deriving? || p.phase.Operating?
  }

  predicate ActiveIn(s: State, o: Owner) {
    o in s.passes && Active(s.passes[o])
  }

  /** An observation's deferred release is about to take away the lease under
      which a pass of the same instance works. */
  predicate Strips(s: State, step: Step) {
    && step.ObsRelease? && step.id in s.observers
    && ActiveIn(s, s.observers[step.id].owner)
  }

  // ---------------------------------------------------------------------------
  // The invariant

  predicate LeaseHeld(s: State, o: Owner, t: Time) {
    s.row.leaseOwner == Some(o) && s.row.leaseUntil.Some? && t <= s.row.leaseUntil.value
  }

  /** What the lease still has to cover, from the present phase on. */
  predicate Covered(c: Config, s: State, o: Owner, p: Pass) {
    var wt, interval := c.writeTimeout, c.RenewInterval();
    match p.phase
    case Claimed(d) => CanWrite(s.row, o, p.row.version) ==> LeaseHeld(s, o, d + 3 * wt + interval)
    case Entering(_, d) => CanWrite(s.row, o, p.row.version) ==> LeaseHeld(s, o, d + 2 * wt + interval)
    case Entered(d) => LeaseHeld(s, o, d + 2 * wt + interval)
    case Deriving(d) => LeaseHeld(s, o, d + wt + interval)
    case Operating(_, tick, Idle) => LeaseHeld(s, o, tick + wt)
    case Operating(_, tick, Asked(d)) => LeaseHeld(s, o, d) && tick == d - wt + interval && d - wt <= s.now
    case Operating(_, tick, Answered(ok, d)) => ok && LeaseHeld(s, o, tick + wt) && tick == d - wt + interval
    case _ => true
  }

  predicate PassTimed(c: Config, s: State, o: Owner, p: Pass) {
    && Before(s.now, Deadline(p))
    && Covered(c, s, o, p)
    && (Active(p) ==> s.row.nextAttempt <= s.now && s.row.observed == EntryState(p.row))
  }

  /** Observations of an instance with an active pass read the row before it. */
  ghost predicate ObserversBehind(s: State) {
    forall id :: id in s.observers && ActiveIn(s, s.observers[id].owner) ==>
      s.observers[id].row.version < s.row.version
  }

  ghost predicate Timed(c: Config, s: State) {
    && (forall o :: o in s.passes ==> PassTimed(c, s, o, s.passes[o]))
    && ObserversBehind(s)
  }

  /** Whoever is active holds an unexpired lease, so only one instance is. */
  lemma ActiveHoldsLease(c: Config, s: State, o: Owner)
    requires Fits(c) && Timed(c, s) && ActiveIn(s, o)
    ensures LeaseHeld(s, o, s.now)
    ensures !s.row.Unleased(s.now)
  {
    RenewalIsShort(c);
    assert PassTimed(c, s, o, s.passes[o]);
  }

  lemma OneActive(c: Config, s: State, o: Owner, q: Owner)
    requires Fits(c) && Timed(c, s) && ActiveIn(s, o) && ActiveIn(s, q)
    ensures o == q
  {
    ActiveHoldsLease(c, s, o);
    ActiveHoldsLease(c, s, q);
  }

  // ---------------------------------------------------------------------------
  // Framing

  predicate SameLease(a: Row, b: Row) {
    a.leaseOwner == b.leaseOwner && a.leaseUntil == b.leaseUntil
  }

  /** What a step must leave for the pass of `q`. */
  predicate Spares(s: State, t: State, q: Owner, p: Pass) {
    && t.now == s.now
    && (CanWrite(t.row, q, p.row.version) ==> CanWrite(s.row, q, p.row.version) && SameLease(s.row, t.row))
    && (Active(p) ==> SameLease(s.row, t.row) && t.row.nextAttempt <= t.now && t.row.observed == s.row.observed)
  }

  lemma SparedIsTimed(c: Config, s: State, t: State, q: Owner, p: Pass)
    requires PassTimed(c, s, q, p) && Spares(s, t, q, p)
    ensures PassTimed(c, t, q, p)
  {
  }

  lemma TimedFramed(c: Config, s: State, t: State, o: Owner)
    requires Timed(c, s)
    requires forall q :: q in t.passes && q != o ==>
      q in s.passes && t.passes[q] == s.passes[q] && Spares(s, t, q, s.passes[q])
    requires o in t.passes ==> PassTimed(c, t, o, t.passes[o])
    requires ObserversBehind(t)
    ensures Timed(c, t)
  {
    forall q | q in t.passes ensures PassTimed(c, t, q, t.passes[q]) {
      if q != o { SparedIsTimed(c, s, t, q, s.passes[q]); }
    }
  }

  ghost predicate SameReads(s: State, t: State) {
    forall id :: id in t.observers ==>
      && id in s.observers
      && t.observers[id].owner == s.observers[id].owner && t.observers[id].row == s.observers[id].row
  }

  /** A step that leaves row and clock alone and touches at most the pass of `o`. */
  lemma RowUntouched(c: Config, s: State, t: State, o: Owner)
    requires Timed(c, s) && t.row == s.row && t.now == s.now && SameReads(s, t)
    requires forall q :: q in t.passes && q != o ==> q in s.passes && t.passes[q] == s.passes[q]
    requires o in t.passes ==> PassTimed(c, t, o, t.passes[o]) && (Active(t.passes[o]) ==> ActiveIn(s, o))
    ensures Timed(c, t)
  {
    forall q | q in t.passes && q != o ensures Spares(s, t, q, s.passes[q]) {
    }
    forall id | id in t.observers && ActiveIn(t, t.observers[id].owner)
      ensures t.observers[id].row.version < t.row.version
    {
      assert ActiveIn(s, s.observers[id].owner);
    }
    TimedFramed(c, s, t, o);
  }

  ghost predicate NoActive(s: State) {
    forall q :: q in s.passes ==> !Active(s.passes[q])
  }

  /** While nobody is active a new version leaves every pass alone. */
  lemma NewVersionWhileIdle(c: Config, s: State, t: State, o: Owner)
    requires Timed(c, s) && Inv(s) && t.now == s.now && s.row.version < t.row.version
    requires NoActive(s) || ((forall q :: q in s.passes && q != o ==> !Active(s.passes[q])) && o in t.passes)
    requires forall q :: q in t.passes && q != o ==> q in s.passes && t.passes[q] == s.passes[q]
    requires o in t.passes ==> PassTimed(c, t, o, t.passes[o])
    requires o in t.passes && Active(t.passes[o]) ==>
      forall id :: id in t.observers && t.observers[id].owner == o ==> t.observers[id].row.version < t.row.version
    ensures Timed(c, t)
  {
    forall q | q in t.passes && q != o ensures Spares(s, t, q, s.passes[q]) {
      assert PassOk(s, s.passes[q]);
    }
    TimedFramed(c, s, t, o);
  }

  /** A lease taken away while its owner is not active. */
  lemma LeaseFreed(c: Config, s: State, t: State, o: Owner)
    requires Timed(c, s) && t.now == s.now && t.row == ReleasedBy(s.row, o) && !ActiveIn(s, o)
    requires SameReads(s, t)
    requires forall q :: q in t.passes && q != o ==> q in s.passes && t.passes[q] == s.passes[q]
    requires o in t.passes ==> !Active(t.passes[o]) && Before(t.now, Deadline(t.passes[o]))
    requires o in t.passes && (t.passes[o].phase.Claimed? || t.passes[o].phase.Entering?) ==>
      o in s.passes && t.passes[o] == s.passes[o]
    ensures Timed(c, t)
  {
    forall q | q in t.passes && q != o ensures Spares(s, t, q, s.passes[q]) {
      assert PassTimed(c, s, q, s.passes[q]);
    }
    if o in t.passes && o in s.passes {
      assert PassTimed(c, s, o, s.passes[o]);
    }
    forall id | id in t.observers && ActiveIn(t, t.observers[id].owner)
      ensures t.observers[id].row.version < t.row.version
    {
      assert ActiveIn(s, s.observers[id].owner);
    }
    TimedFramed(c, s, t, o);
  }

  // ---------------------------------------------------------------------------
  // Steps

  lemma UnleasedNoActive(c: Config, s: State)
    requires Fits(c) && Timed(c, s) && s.row.Unleased(s.now)
    ensures NoActive(s)
  {
    forall q | q in s.passes ensures !Active(s.passes[q]) {
      if Active(s.passes[q]) { ActiveHoldsLease(c, s, q); }
    }
  }

  /** If `o` holds the lease, nobody else is active. */
  lemma OwnerExcludesOthers(c: Config, s: State, o: Owner)
    requires Fits(c) && Timed(c, s) && s.row.leaseOwner == Some(o)
    ensures forall q :: q in s.passes && q != o ==> !Active(s.passes[q])
  {
    forall q | q in s.passes && q != o ensures !Active(s.passes[q]) {
      if Active(s.passes[q]) { ActiveHoldsLease(c, s, q); }
    }
  }

  lemma TickTimed(c: Config, s: State, d: nat)
    requires Fits(c) && Timed(c, s) && Timely(s, Tick(d))
    ensures Timed(c, s.(now := s.now + d))
  {
    var t := s.(now := s.now + d);
    forall q | q in t.passes ensures PassTimed(c, t, q, t.passes[q]) {
      assert PassTimed(c, s, q, s.passes[q]);
    }
    assert forall q :: ActiveIn(t, q) ==> ActiveIn(s, q);
  }

  lemma IntentTimed(c: Config, s: State, i: Intent)
    requires Fits(c) && Inv(s) && Timed(c, s)
    ensures Timed(c, Intended(s, i))
  {
    var t := Intended(s, i);
    forall q | q in t.passes ensures PassTimed(c, t, q, t.passes[q]) {
      assert PassTimed(c, s, q, s.passes[q]) && PassOk(s, s.passes[q]);
      SparedIsTimed(c, s, t, q, s.passes[q]);
    }
    assert forall q :: ActiveIn(t, q) ==> ActiveIn(s, q);
  }

  lemma CancelTimed(c: Config, s: State, id: ThreadId)
    requires Fits(c) && Inv(s) && Timed(c, s) && id in s.cancels
    ensures Timed(c, CancelDone(s, id))
  {
    var t := CancelDone(s, id);
    if s.row.RemovalFailed() {
      forall q | q in s.passes ensures !Active(s.passes[q]) {
        assert PassTimed(c, s, q, s.passes[q]);
      }
      assert forall q :: q in t.passes ==> PassTimed(c, s, q, s.passes[q]) && PassOk(s, s.passes[q]);
      forall q | q in t.passes ensures PassTimed(c, t, q, t.passes[q]) {
        SparedIsTimed(c, s, t, q, s.passes[q]);
      }
    } else {
      RowUntouchedAll(c, s, t);
    }
  }

  lemma RowUntouchedAll(c: Config, s: State, t: State)
    requires Timed(c, s) && t.row == s.row && t.now == s.now && SameReads(s, t)
    requires forall q :: q in t.passes ==> q in s.passes && t.passes[q] == s.passes[q]
    ensures Timed(c, t)
  {
    forall q | q in t.passes ensures PassTimed(c, t, q, t.passes[q]) {
      SparedIsTimed(c, s, t, q, s.passes[q]);
    }
    assert forall q :: ActiveIn(t, q) ==> ActiveIn(s, q);
  }

  lemma ClaimTimed(c: Config, s: State, o: Owner)
    requires Fits(c) && Inv(s) && Timed(c, s) && s.row.Due(s.now)
    ensures Timed(c, ClaimedBy(c, s, o))
  {
    UnleasedNoActive(c, s);
    var t := ClaimedBy(c, s, o);
    if o in s.passes {
      assert PassOk(s, s.passes[o]) && PassTimed(c, s, o, s.passes[o]);
      SparedIsTimed(c, s, t, o, s.passes[o]);
    }
    NewVersionWhileIdle(c, s, t, o);
  }

  lemma StartTimed(c: Config, s: State, o: Owner)
    requires Fits(c) && Timed(c, s) && o in s.passes && s.passes[o].phase.Claimed?
    ensures Timed(c, StartPass(c, s, o))
  {
    assert PassTimed(c, s, o, s.passes[o]);
    RowUntouched(c, s, StartPass(c, s, o), o);
  }

  lemma EnterLandedTimed(c: Config, s: State, o: Owner)
    requires Fits(c) && Inv(s) && Timed(c, s) && o in s.passes && s.passes[o].phase.Entering?
    requires CanWrite(s.row, o, s.passes[o].row.version)
    ensures Timed(c, EntryTried(s, o))
  {
    var p, t := s.passes[o], EntryTried(s, o);
    assert PassTimed(c, s, o, p) && PassOk(s, p);
    OwnerExcludesOthers(c, s, o);
    assert PassTimed(c, t, o, t.passes[o]);
    ReadsAreOld(s);
    NewVersionWhileIdle(c, s, t, o);
  }

  lemma EnterTimed(c: Config, s: State, o: Owner)
    requires Fits(c) && Inv(s) && Timed(c, s) && o in s.passes && s.passes[o].phase.Entering?
    ensures Timed(c, EntryTried(s, o))
  {
    if CanWrite(s.row, o, s.passes[o].row.version) {
      EnterLandedTimed(c, s, o);
    } else {
      PhaseTimed(c, s, o, Ending);
    }
  }

  lemma ReadsAreOld(s: State)
    requires Inv(s)
    ensures forall id :: id in s.observers ==> s.observers[id].row.version <= s.row.version
  {
  }

  lemma FinishTimed(c: Config, s: State, o: Owner)
    requires Fits(c) && Inv(s) && Timed(c, s) && o in s.passes && s.passes[o].phase.Finishing?
    ensures Timed(c, OutcomeTried(s, o))
  {
    var p, t := s.passes[o], OutcomeTried(s, o);
    if CanWrite(s.row, o, p.row.version) {
      OwnerExcludesOthers(c, s, o);
      NewVersionWhileIdle(c, s, t, o);
    } else {
      PhaseTimed(c, s, o, Ending);
    }
  }

  /** A change of phase of `o` that leaves everything else alone. */
  lemma PhaseTimed(c: Config, s: State, o: Owner, f: Phase)
    requires Timed(c, s) && o in s.passes
    requires var p := s.passes[o].(phase := f);
      PassTimed(c, s, o, p) && (Active(p) ==> Active(s.passes[o]))
    ensures Timed(c, SetPhase(s, o, f))
  {
    RowUntouched(c, s, SetPhase(s, o, f), o);
  }

  lemma ReplyTimed(c: Config, s: State, o: Owner)
    requires Fits(c) && Timed(c, s) && o in s.passes && s.passes[o].phase.Entered?
    ensures Timed(c, Replied(c, s, o))
  {
    RenewalIsShort(c);
    assert PassTimed(c, s, o, s.passes[o]);
    if s.passes[o].row.desired.Present? {
      PhaseTimed(c, s, o, Deriving(s.now + c.writeTimeout));
    } else {
      PhaseTimed(c, s, o, Operating(TearingDown, s.now + c.RenewInterval(), Idle));
    }
  }

  lemma BeginTimed(c: Config, s: State, o: Owner)
    requires Fits(c) && Timed(c, s) && o in s.passes && s.passes[o].phase.Deriving?
    ensures Timed(c, ProvisionBegun(c, s, o))
  {
    RenewalIsShort(c);
    assert PassTimed(c, s, o, s.passes[o]);
    var op := if MayReplace(s.passes[o].row) then Inspecting else Starting;
    PhaseTimed(c, s, o, Operating(op, s.now + c.RenewInterval(), Idle));
  }

  lemma AskRenewTimed(c: Config, s: State, o: Owner)
    requires Fits(c) && Timed(c, s) && Enabled(s, AskRenew(o))
    ensures Timed(c, RenewAsked(c, s, o))
  {
    RenewalIsShort(c);
    assert PassTimed(c, s, o, s.passes[o]);
    var f := s.passes[o].phase;
    PhaseTimed(c, s, o, f.(nextTick := f.nextTick + c.RenewInterval(), renewal := Asked(s.now + c.writeTimeout)));
  }

  lemma RenewOverTimed(c: Config, s: State, o: Owner)
    requires Fits(c) && Timed(c, s) && Enabled(s, RenewReply(o))
    ensures Timed(c, RenewOver(s, o))
  {
    RenewalIsShort(c);
    assert PassTimed(c, s, o, s.passes[o]);
    PhaseTimed(c, s, o, s.passes[o].phase.(renewal := Idle));
  }

  lemma DoRenewTimed(c: Config, s: State, o: Owner)
    requires Fits(c) && Timed(c, s) && Enabled(s, DoRenew(o))
    ensures Timed(c, RenewDone(c, s, o))
  {
    RenewalIsShort(c);
    var t := RenewDone(c, s, o);
    assert PassTimed(c, s, o, s.passes[o]);
    OwnerExcludesOthers(c, s, o);
    assert PassTimed(c, t, o, t.passes[o]);
    assert forall q :: ActiveIn(t, q) ==> ActiveIn(s, q);
    TimedFramed(c, s, t, o);
  }

  lemma LateRenewTimed(c: Config, s: State, o: Owner)
    requires Fits(c) && Timed(c, s) && Enabled(s, LateRenew(o))
    ensures Timed(c, s.(row := Renewed(s.row, s.now + c.lease)))
  {
    var t := s.(row := Renewed(s.row, s.now + c.lease));
    OwnerExcludesOthers(c, s, o);
    assert PassTimed(c, s, o, s.passes[o]) && !Active(s.passes[o]);
    assert PassTimed(c, t, o, t.passes[o]);
    assert forall q :: ActiveIn(t, q) ==> ActiveIn(s, q);
    TimedFramed(c, s, t, o);
  }

  lemma ReleaseTimed(c: Config, s: State, o: Owner)
    requires Fits(c) && Timed(c, s) && Enabled(s, Release(o))
    ensures Timed(c, PassReleased(s, o))
  {
    LeaseFreed(c, s, PassReleased(s, o), o);
  }

  lemma ObserverClaimTimed(c: Config, s: State, id: ThreadId, o: Owner)
    requires Fits(c) && Inv(s) && Timed(c, s) && Enabled(s, ObsClaim(id, o))
    ensures Timed(c, ObserverClaimed(c, s, id, o))
  {
    UnleasedNoActive(c, s);
    var t := ObserverClaimed(c, s, id, o);
    if o in s.passes {
      assert PassOk(s, s.passes[o]) && PassTimed(c, s, o, s.passes[o]);
      SparedIsTimed(c, s, t, o, s.passes[o]);
    }
    NewVersionWhileIdle(c, s, t, o);
  }

  lemma ObserverWriteTimed(c: Config, s: State, id: ThreadId)
    requires Fits(c) && Inv(s) && Timed(c, s) && Enabled(s, ObsWrite(id))
    ensures Timed(c, ObserverWrote(s, id))
  {
    var x, t := s.observers[id], ObserverWrote(s, id);
    if CanWrite(s.row, x.owner, x.row.version) {
      OwnerExcludesOthers(c, s, x.owner);
      assert !ActiveIn(s, x.owner);
      assert NoActive(s);
      var o := x.owner;
      if o in s.passes {
        assert PassOk(s, s.passes[o]) && PassTimed(c, s, o, s.passes[o]);
        SparedIsTimed(c, s, t, o, s.passes[o]);
      }
      NewVersionWhileIdle(c, s, t, o);
    } else {
      RowUntouchedAll(c, s, t);
    }
  }

  lemma ObserverReleaseTimed(c: Config, s: State, id: ThreadId)
    requires Fits(c) && Timed(c, s) && Enabled(s, ObsRelease(id)) && !Strips(s, ObsRelease(id))
    ensures Timed(c, ObserverReleased(s, id))
  {
    var o, t := s.observers[id].owner, ObserverReleased(s, id);
    if o in s.passes {
      assert PassTimed(c, s, o, s.passes[o]);
    }
    LeaseFreed(c, s, t, o);
  }

  lemma QuietStep(c: Config, s: State, step: Step)
    requires Timed(c, s) && Enabled(s, step)
    requires step.AskCancel? || step.UserWrite? || step.UserRun? || step.Vanish? || step.Act?
          || step.ObsStop? || step.ObsLook?
    ensures Timed(c, Next(c, s, step))
  {
    hide Timed;
    RowUntouchedAll(c, s, Next(c, s, step));
  }

  lemma DroppingStep(c: Config, s: State, step: Step)
    requires Timed(c, s) && Enabled(s, step)
    requires step.LoseClaim? || step.Crash? || step.Unmark?
    ensures Timed(c, Next(c, s, step))
  {
    hide Timed;
    RowUntouchedAll(c, s, Next(c, s, step));
  }

  lemma LeavingStep(c: Config, s: State, step: Step)
    requires Timed(c, s) && Enabled(s, step)
    requires step.WriteError? || step.LoseReply? || step.AnswerGone?
    ensures Timed(c, Next(c, s, step))
  {
    RowUntouched(c, s, Next(c, s, step), step.o);
  }

  lemma SucceedTimed(c: Config, s: State, o: Owner)
    requires Timed(c, s) && InOperation(s, o)
    ensures Timed(c, Succeeded(s, o))
  {
    var p, r := s.passes[o], ReportGone(s);
    assert PassTimed(c, s, o, p);
    RowUntouchedAll(c, s, r);
    match p.phase.op {
      case Inspecting =>
        PhaseTimed(c, r, o, p.phase.(op := if Stale(p.row, s.world.Inspect()) then Replacing else Starting));
      case Replacing => PhaseTimed(c, r, o, p.phase.(op := Starting));
      case Starting => PhaseTimed(c, s, o, Finishing(RunningWrite(p.row, s.now)));
      case TearingDown => PhaseTimed(c, r, o, Finishing(AbsentWrite(p.row, s.now)));
    }
  }

  lemma FailTimed(c: Config, s: State, o: Owner, err: StepError, rnd: real)
    requires Timed(c, s) && InOperation(s, o)
    ensures Timed(c, Failing(c, s, o, err, rnd))
  {
    hide Timed;
    var t := Failing(c, s, o, err, rnd);
    assert t.passes[o].phase.Finishing? || t.passes[o].phase.AskingGone?;
    RowUntouched(c, s, t, o);
  }

  lemma BackendStep(c: Config, s: State, step: Step)
    requires Timed(c, s) && Enabled(s, step) && (step.Succeed? || step.FailOp?)
    ensures Timed(c, Next(c, s, step))
  {
    RowUntouchedAll(c, s, s.(world := step.world));
    match step {
      case Succeed(o, w) => SucceedTimed(c, s.(world := w), o);
      case FailOp(o, w, err, rnd) => FailTimed(c, s.(world := w), o, err, rnd);
    }
  }

  /** Every timely step that strips no lease keeps the lease invariant. */
  lemma TimedStep(c: Config, s: State, step: Step)
    requires Fits(c) && Inv(s) && Timed(c, s) && Enabled(s, step)
    requires Timely(s, step) && !Strips(s, step)
    ensures Timed(c, Next(c, s, step))
  {
    hide Inv, Timed, Fits, Timely, Strips;
    match step {
      case Tick(d) => TickTimed(c, s, d);
      case Intend(i) => IntentTimed(c, s, i);
      case DoCancel(id) => CancelTimed(c, s, id);
      case Claim(o) => ClaimTimed(c, s, o);
      case Start(o) => StartTimed(c, s, o);
      case Enter(o) => EnterTimed(c, s, o);
      case Finish(o) => FinishTimed(c, s, o);
      case Reply(o) => ReplyTimed(c, s, o);
      case Derived(o) => BeginTimed(c, s, o);
      case AskRenew(o) => AskRenewTimed(c, s, o);
      case DoRenew(o) => DoRenewTimed(c, s, o);
      case RenewReply(o) => RenewOverTimed(c, s, o);
      case LateRenew(o) => LateRenewTimed(c, s, o);
      case Release(o) => ReleaseTimed(c, s, o);
      case ObsClaim(id, o) => ObserverClaimTimed(c, s, id, o);
      case ObsWrite(id) => ObserverWriteTimed(c, s, id);
      case ObsRelease(id) => ObserverReleaseTimed(c, s, id);
      case WriteError(_) | LoseReply(_) | AnswerGone(_, _, _) => LeavingStep(c, s, step);
      case Succeed(_, _) | FailOp(_, _, _, _) => BackendStep(c, s, step);
      case LoseClaim(_) | Crash(_) | Unmark(_) => DroppingStep(c, s, step);
      case _ => QuietStep(c, s, step);
    }
  }

  // ---------------------------------------------------------------------------
  // Runs

  ghost predicate TimelyRun(c: Config, run: seq<State>, steps: seq<Step>, k: nat) {
    && IsRun(c, run, steps) && k < |run|
    && forall j :: 0 <= j < k ==> Timely(run[j], steps[j]) && !Strips(run[j], steps[j])
  }

  lemma {:induction false} TimelyRunIsTimed(c: Config, run: seq<State>, steps: seq<Step>, k: nat)
    requires Fits(c) && TimelyRun(c, run, steps, k)
    ensures Timed(c, run[k])
  {
    hide Next, Enabled, Inv, Timely, Strips;
    if k > 0 {
      TimelyRunIsTimed(c, run, steps, k - 1);
      EveryState(c, run, steps, k - 1);
      TimedStep(c, run[k - 1], steps[k - 1]);
    }
  }

  /** On every timely run that strips no lease, at most one instance drives the
      backend, and the lease it does so under has not expired. */
  lemma MutualExclusion(c: Config, run: seq<State>, steps: seq<Step>, k: nat, o: Owner, q: Owner)
    requires Fits(c) && TimelyRun(c, run, steps, k)
    requires InOperation(run[k], o) && InOperation(run[k], q)
    ensures o == q && LeaseHeld(run[k], o, run[k].now)
  {
    TimelyRunIsTimed(c, run, steps, k);
    OneActive(c, run[k], o, q);
    ActiveHoldsLease(c, run[k], o);
  }

  // ---------------------------------------------------------------------------
  // The proviso is exact

  /** The state after taking `steps`, if each is enabled and timely in its turn. */
  ghost function Play(c: Config, s: State, steps: seq<Step>): Option<State>
    decreases |steps|
  {
    if steps == [] then Some(s)
    else if Enabled(s, steps[0]) && Timely(s, steps[0]) then Play(c, Next(c, s, steps[0]), steps[1..])
    else None
  }

  lemma PlayOne(c: Config, s: State, step: Step, rest: seq<Step>, t: State)
    requires Enabled(s, step) && !step.Tick? && t == Next(c, s, step)
    ensures Play(c, s, [step] + rest) == Play(c, t, rest)
  {
    hide Next, Enabled;
    assert ([step] + rest)[1..] == rest;
  }

  /** The steps by which an idle instance takes over a row. */
  function TakeOver(q: Owner, d: Desired): seq<Step> {
    [Claim(q)] + ([Start(q)] + ([Enter(q)] + ([Reply(q)] + BeginSteps(q, d))))
  }

  function BeginSteps(q: Owner, d: Desired): seq<Step> {
    if d.Present? then [Derived(q)] + [] else []
  }

  /** Nothing but the pass of `q` changed among passes and observations. */
  ghost predicate OthersStay(s: State, t: State, q: Owner) {
    && t.now == s.now && t.observers == s.observers
    && forall o :: o in s.passes && o != q ==> o in t.passes && t.passes[o] == s.passes[o]
  }

  lemma TakeOverEnters(c: Config, s: State, q: Owner, rest: seq<Step>) returns (t: State)
    requires c.Valid() && s.row.Due(s.now) && q !in s.passes && !Decide(s.row).NoAction?
    ensures Play(c, s, [Claim(q)] + ([Start(q)] + ([Enter(q)] + rest))) == Play(c, t, rest)
    ensures q in t.passes && t.passes[q].phase.Entered? && t.passes[q].row.desired == s.row.desired
    ensures OthersStay(s, t, q) && LeaseHeld(t, q, s.now + c.lease)
  {
    var s1 := ClaimedBy(c, s, q);
    var s2 := StartPass(c, s1, q);
    t := EntryTried(s2, q);
    PlayOne(c, s, Claim(q), [Start(q)] + ([Enter(q)] + rest), s1);
    PlayOne(c, s1, Start(q), [Enter(q)] + rest, s2);
    PlayOne(c, s2, Enter(q), rest, t);
  }

  lemma EnteredOperates(c: Config, s: State, q: Owner) returns (t: State)
    requires q in s.passes && s.passes[q].phase.Entered?
    ensures Play(c, s, [Reply(q)] + BeginSteps(q, s.passes[q].row.desired)) == Some(t)
    ensures InOperation(t, q) && OthersStay(s, t, q) && t.row == s.row
  {
    t := Replied(c, s, q);
    PlayOne(c, s, Reply(q), BeginSteps(q, s.passes[q].row.desired), t);
    if s.passes[q].row.desired.Present? {
      var u := ProvisionBegun(c, t, q);
      PlayOne(c, t, Derived(q), [], u);
      t := u;
    }
  }

  /** An idle instance that finds the row due, with work to do, drives the backend
      after claiming it, whatever the other passes are doing. */
  lemma TakeOverOperates(c: Config, s: State, q: Owner) returns (t: State)
    requires c.Valid() && s.row.Due(s.now) && q !in s.passes && !Decide(s.row).NoAction?
    ensures Play(c, s, TakeOver(q, s.row.desired)) == Some(t)
    ensures InOperation(t, q) && OthersStay(s, t, q) && LeaseHeld(t, q, s.now + c.lease)
  {
    hide Next, Enabled, Play;
    var m := TakeOverEnters(c, s, q, [Reply(q)] + BeginSteps(q, s.row.desired));
    t := EnteredOperates(c, m, q);
  }

  /** The steps by which a pass that has landed its entry write gets into the backend. */
  function WayIn(o: Owner, p: Pass): seq<Step> {
    match p.phase
    case Entered(_) => [Reply(o)] + BeginSteps(o, p.row.desired)
    case Deriving(_) => [Derived(o)]
    case _ => []
  }

  lemma GoesIn(c: Config, s: State, o: Owner, rest: seq<Step>) returns (t: State)
    requires ActiveIn(s, o)
    ensures Play(c, s, WayIn(o, s.passes[o]) + rest) == Play(c, t, rest)
    ensures InOperation(t, o) && t.row == s.row && t.now == s.now && t.passes.Keys == s.passes.Keys
  {
    hide Play;
    match s.passes[o].phase {
      case Entered(_) =>
        t := Replied(c, s, o);
        if s.passes[o].row.desired.Present? {
          var u := ProvisionBegun(c, t, o);
          assert WayIn(o, s.passes[o]) + rest == [Reply(o)] + ([Derived(o)] + rest);
          PlayOne(c, s, Reply(o), [Derived(o)] + rest, t);
          PlayOne(c, t, Derived(o), rest, u);
          t := u;
        } else {
          assert WayIn(o, s.passes[o]) + rest == [Reply(o)] + rest;
          PlayOne(c, s, Reply(o), rest, t);
        }
      case Deriving(_) =>
        t := ProvisionBegun(c, s, o);
        PlayOne(c, s, Derived(o), rest, t);
      case Operating(_, _, _) =>
        t := s;
        assert WayIn(o, s.passes[o]) + rest == rest;
    }
  }

  lemma ReleasePlays(c: Config, s: State, id: ThreadId, rest: seq<Step>)
    requires Enabled(s, ObsRelease(id))
    ensures Play(c, s, [ObsRelease(id)] + rest) == Play(c, ObserverReleased(s, id), rest)
  {
    PlayOne(c, s, ObsRelease(id), rest, ObserverReleased(s, id));
  }

  lemma StrippedIsDue(c: Config, s: State, id: ThreadId)
    requires Fits(c) && Timed(c, s) && Enabled(s, ObsRelease(id)) && Strips(s, ObsRelease(id))
    ensures var t := ObserverReleased(s, id);
      t.row.Due(t.now) && !Decide(t.row).NoAction? && t.row.desired == s.row.desired && t.passes == s.passes
  {
    var o := s.observers[id].owner;
    ActiveHoldsLease(c, s, o);
    assert PassTimed(c, s, o, s.passes[o]);
  }

  /** Once an observation strips the lease under which a pass of its own instance works
      or is about to, any other instance that has no pass over the row can join it in
      the backend without any time passing. */
  lemma StrippedLeaseBreaksExclusion(c: Config, s: State, id: ThreadId, q: Owner) returns (t: State)
    requires Fits(c) && Inv(s) && Timed(c, s)
    requires Enabled(s, ObsRelease(id)) && Strips(s, ObsRelease(id)) && q !in s.passes
    ensures var o := s.observers[id].owner;
      && Play(c, s, [ObsRelease(id)] + (WayIn(o, s.passes[o]) + TakeOver(q, s.row.desired))) == Some(t)
      && InOperation(t, o) && InOperation(t, q) && q != o
  {
    hide Play, TakeOver, WayIn, Next, Inv, Timed, Decide;
    var o := s.observers[id].owner;
    StrippedIsDue(c, s, id);
    var s1 := ObserverReleased(s, id);
    ReleasePlays(c, s, id, WayIn(o, s.passes[o]) + TakeOver(q, s.row.desired));
    var s2 := GoesIn(c, s1, o, TakeOver(q, s.row.desired));
    t := TakeOverOperates(c, s2, q);
  }

  /** The race needs no slow instance.  A settled, running workspace vanishes; an
      observation of `o` records that and gives its lease up; `o`'s own loop claims
      the row at once and starts provisioning; the observation's deferred release
      then strips that pass's lease. */
  lemma ObservedDriftLeadsThere(c: Config, s: State, id: ThreadId, o: Owner) returns (t: State)
    requires c.Valid() && s.row.desired.Present? && s.row.observed.Running? && !s.row.Behind()
    requires s.row.Unleased(s.now) && s.world.container.None?
    requires o !in s.passes && id !in s.observers
    ensures Play(c, s, [ObsClaim(id, o)] + ([ObsLook(id)] + ([ObsWrite(id)] + TakeOver(o, s.row.desired)))) == Some(t)
    ensures InOperation(t, o) && Enabled(t, ObsRelease(id)) && Strips(t, ObsRelease(id))
  {
    hide Play, Next, TakeOver, ObserverClaimed, ObserverLooked, ObserverWrote;
    DriftRecorded(c, s, id, o);
    var s1 := ObserverClaimed(c, s, id, o);
    ClaimPlays(c, s, id, o, [ObsLook(id)] + ([ObsWrite(id)] + TakeOver(o, s.row.desired)));
    var m := DriftPlays(c, s1, id, TakeOver(o, s.row.desired));
    t := TakeOverOperates(c, m, o);
  }

  /** The observation has recorded the vanished workspace and given its lease up. */
  lemma DriftRecorded(c: Config, s: State, id: ThreadId, o: Owner)
    requires c.Valid() && s.row.desired.Present? && s.row.observed.Running?
    requires s.row.Unleased(s.now) && s.world.container.None? && id !in s.observers
    ensures var s2 := ObserverLooked(ObserverClaimed(c, s, id, o), id);
      && Enabled(ObserverClaimed(c, s, id, o), ObsLook(id)) && Enabled(s2, ObsWrite(id))
      && var t := ObserverWrote(s2, id);
      && t.passes == s.passes && t.now == s.now
      && t.row.Due(t.now) && t.row.desired.Present? && t.row.observed.Absent?
      && id in t.observers && t.observers[id].owner == o && t.observers[id].phase.Leaving?
  {
  }

  lemma ClaimPlays(c: Config, s: State, id: ThreadId, o: Owner, rest: seq<Step>)
    requires id !in s.observers && s.row.Unleased(s.now)
    ensures Play(c, s, [ObsClaim(id, o)] + rest) == Play(c, ObserverClaimed(c, s, id, o), rest)
  {
    PlayOne(c, s, ObsClaim(id, o), rest, ObserverClaimed(c, s, id, o));
  }

  lemma DriftPlays(c: Config, s: State, id: ThreadId, rest: seq<Step>) returns (t: State)
    requires Enabled(s, ObsLook(id)) && Enabled(ObserverLooked(s, id), ObsWrite(id))
    ensures Play(c, s, [ObsLook(id)] + ([ObsWrite(id)] + rest)) == Play(c, t, rest)
    ensures t == ObserverWrote(ObserverLooked(s, id), id)
  {
    hide Play, ObserverLooked, ObserverWrote, Timely;
    var s2 := ObserverLooked(s, id);
    t := ObserverWrote(s2, id);
    PlayOne(c, s, ObsLook(id), [ObsWrite(id)] + rest, s2);
    PlayOne(c, s2, ObsWrite(id), rest, t);
  }
}
