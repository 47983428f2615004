/** What every run of the protocol keeps, whatever the interleaving and however
    late its steps: fencing by version, honest absence, data safety. */
module Fencing {
  import opened Options
  import opened Workspace
  import opened Repository
  import opened Passes
  import opened Protocol

  // ---------------------------------------------------------------------------
  // The invariant

  /** `w` carries the intent recorded for its generation. */
  predicate Carries(intents: seq<Intent>, w: Row) {
    && 1 <= w.generation <= |intents|
    && intents[w.generation - 1].desired == w.desired
    && intents[w.generation - 1].preserve == w.preserve
    && w.observedGeneration <= w.generation
  }

  /** A row someone read earlier: current exactly as long as its version is. */
  predicate Snapshot(s: State, w: Row) {
    && Carries(s.intents, w)
    && w.version <= s.row.version
    && (w.version == s.row.version ==> SameButLease(w, s.row))
  }

  function EntryState(w: Row): Observed {
    if w.desired.Present? then Provisioning else Removing
  }

  /** A final write answers the generation of its row, and says `Absent` about a
      removal only after the backend did. */
  predicate Honest(s: State, w: Row, u: Write) {
    && w.observedGeneration <= u.observedGeneration <= w.generation
    && (u.observed.Absent? && w.desired.Gone? && u.observedGeneration == w.generation
        ==> w.generation <= s.goneAt)
  }

  predicate PhaseOk(s: State, p: Pass) {
    match p.phase
    case Claimed(_) => true
    case Entering(u, _) =>
      && u.observed == EntryState(p.row) && u.observedGeneration == p.row.generation
      && !u.release && u.nextAttempt <= s.now
    case Entered(_) => p.row.observed == EntryState(p.row) && !p.row.Behind()
    case Deriving(_) => p.row.desired.Present? && p.row.observed.Provisioning? && !p.row.Behind()
    case Operating(op, _, _) =>
      && (op.TearingDown? <==> p.row.desired.Gone?)
      && (op.Inspecting? || op.Replacing? ==> MayReplace(p.row))
      && p.row.observed == EntryState(p.row) && !p.row.Behind()
    case AskingGone(_) => p.row.desired.Gone? && !p.row.Behind()
    case Finishing(u) => Honest(s, p.row, u) && u.observedGeneration == p.row.generation
    case Ending => true
    case Released => true
  }

  predicate PassOk(s: State, p: Pass) {
    Snapshot(s, p.row) && p.claim <= p.row.version && PhaseOk(s, p)
  }

  predicate ObserverOk(s: State, x: Observer) {
    && Snapshot(s, x.row)
    && (x.phase.Writing? ==>
          Honest(s, x.row, x.phase.write) && x.phase.write.observedGeneration == x.row.observedGeneration)
  }

  ghost predicate Unpreserved(intents: seq<Intent>) {
    exists g :: 0 <= g < |intents| && intents[g].desired.Gone? && !intents[g].preserve
  }

  /** The row answers a removal with `Absent` only if the backend reported the
      workspace gone since that removal was requested. */
  predicate AbsentIsHonest(s: State) {
    s.row.desired.Gone? && s.row.observed.Absent? && !s.row.Behind() ==> s.goneAt == s.row.generation
  }

  ghost predicate DataIsSafe(s: State) {
    s.vanished || Unpreserved(s.intents) || s.written <= s.world.Data()
  }

  ghost predicate Inv(s: State) {
    && |s.intents| == s.row.generation
    && Carries(s.intents, s.row)
    && s.goneAt <= s.row.generation
    && AbsentIsHonest(s)
    && DataIsSafe(s)
    && (forall o :: o in s.passes ==> PassOk(s, s.passes[o]))
    && (forall id :: id in s.observers ==> ObserverOk(s, s.observers[id]))
  }

  // ---------------------------------------------------------------------------
  // The order every step follows

  /** Time, version, intents and reports only grow; without a new version only the
      lease changes. */
  predicate Grows(s: State, t: State) {
    && s.now <= t.now
    && s.row.version <= t.row.version
    && (s.row.version == t.row.version ==> SameButLease(s.row, t.row))
    && s.intents <= t.intents
    && s.goneAt <= t.goneAt
    && s.row.observedGeneration <= t.row.observedGeneration
  }

  lemma PassOkGrows(s: State, t: State, p: Pass)
    requires PassOk(s, p) && Grows(s, t)
    ensures PassOk(t, p)
  {
  }

  lemma ObserverOkGrows(s: State, t: State, x: Observer)
    requires ObserverOk(s, x) && Grows(s, t)
    ensures ObserverOk(t, x)
  {
  }

  /** An invariant step: everything but the pass of `o` and observer `id` follows
      from `Grows`. */
  lemma Framed(s: State, t: State, o: Owner, id: ThreadId)
    requires Inv(s) && Grows(s, t)
    requires |t.intents| == t.row.generation && Carries(t.intents, t.row)
    requires t.goneAt <= t.row.generation && AbsentIsHonest(t) && DataIsSafe(t)
    requires forall q :: q in t.passes && q != o ==> q in s.passes && t.passes[q] == s.passes[q]
    requires o in t.passes ==> PassOk(t, t.passes[o])
    requires forall k :: k in t.observers && k != id ==> k in s.observers && t.observers[k] == s.observers[k]
    requires id in t.observers ==> ObserverOk(t, t.observers[id])
    ensures Inv(t)
  {
    forall q | q in t.passes ensures PassOk(t, t.passes[q]) {
      if q != o { PassOkGrows(s, t, s.passes[q]); }
    }
    forall k | k in t.observers ensures ObserverOk(t, t.observers[k]) {
      if k != id { ObserverOkGrows(s, t, s.observers[k]); }
    }
  }

  lemma UnpreservedGrows(a: seq<Intent>, b: seq<Intent>)
    requires a <= b && Unpreserved(a)
    ensures Unpreserved(b)
  {
    var g :| 0 <= g < |a| && a[g].desired.Gone? && !a[g].preserve;
    assert b[g] == a[g];
  }

  // ---------------------------------------------------------------------------
  // Steps keep the invariant

  lemma LandedKeeps(s: State, o: Owner, u: Write, landed: Phase, lost: Phase)
    requires Inv(s) && o in s.passes
    requires Honest(s, s.passes[o].row, u)
    requires var p := s.passes[o]; PhaseOk(s, p.(phase := lost))
    requires var p := s.passes[o]; var w := Written(p.row, u);
      CanWrite(s.row, o, p.row.version) ==> PhaseOk(s, p.(row := w, phase := landed))
    requires landed.Entered? || landed.Ending?
    ensures Inv(Landed(s, o, u, landed, lost)) && Grows(s, Landed(s, o, u, landed, lost))
  {
    var t := Landed(s, o, u, landed, lost);
    Framed(s, t, o, 0);
  }

  lemma WorldKeeps(s: State, o: Owner, w: World)
    requires Inv(s) && InOperation(s, o)
    requires Partial(s.passes[o].phase.op, s.passes[o].row.preserve, s.world, w)
    ensures Inv(s.(world := w))
  {
    var p := s.passes[o];
    if p.phase.op.TearingDown? && !p.row.preserve {
      assert s.intents[p.row.generation - 1].desired.Gone? && !s.intents[p.row.generation - 1].preserve;
    }
    Framed(s, s.(world := w), o, 0);
  }

  lemma TickKeeps(s: State, d: nat)
    requires Inv(s)
    ensures Inv(s.(now := s.now + d)) && Grows(s, s.(now := s.now + d))
  {
    Framed(s, s.(now := s.now + d), 0, 0);
  }

  lemma IntentKeeps(s: State, i: Intent)
    requires Inv(s)
    ensures Inv(Intended(s, i)) && Grows(s, Intended(s, i))
  {
    var t := Intended(s, i);
    if Unpreserved(s.intents) { UnpreservedGrows(s.intents, t.intents); }
    Framed(s, t, 0, 0);
  }

  lemma CancelKeeps(s: State, id: ThreadId)
    requires Inv(s) && id in s.cancels
    ensures Inv(CancelDone(s, id)) && Grows(s, CancelDone(s, id))
  {
    var t := CancelDone(s, id);
    if s.row.RemovalFailed() {
      if Unpreserved(s.intents) { UnpreservedGrows(s.intents, t.intents); }
      assert t.row.generation == s.row.generation + 1 && t.intents[..|s.intents|] == s.intents;
      assert Carries(t.intents, t.row);
    }
    Framed(s, t, 0, 0);
  }

  lemma AskKeeps(s: State, id: ThreadId)
    requires Inv(s)
    ensures Inv(CancelAsked(s, id)) && Grows(s, CancelAsked(s, id))
  {
    var t := CancelAsked(s, id);
    assert Grows(s, t) && AbsentIsHonest(t);
    Framed(s, t, 0, 0);
  }

  lemma LeaseOutKeeps(s: State, o: Owner, until: Time)
    requires Inv(s)
    ensures var t := s.(row := LeasedTo(s.row, o, until));
      Inv(t) && Grows(s, t)
  {
    Framed(s, s.(row := LeasedTo(s.row, o, until)), 0, 0);
  }

  lemma NewPassKeeps(s: State, o: Owner, p: Pass)
    requires Inv(s) && PassOk(s, p)
    ensures Inv(SetPass(s, o, p)) && Grows(s, SetPass(s, o, p))
  {
    Framed(s, SetPass(s, o, p), o, 0);
  }

  lemma ClaimKeeps(c: Config, s: State, o: Owner)
    requires Inv(s)
    ensures Inv(ClaimedBy(c, s, o)) && Grows(s, ClaimedBy(c, s, o))
  {
    LeaseOutKeeps(s, o, s.now + c.lease);
    if o !in s.passes {
      var t := s.(row := LeasedTo(s.row, o, s.now + c.lease));
      var p := Pass(t.row.version, t.row, Claimed(s.now + c.writeTimeout));
      assert ClaimedBy(c, s, o) == SetPass(t, o, p);
      NewPassKeeps(t, o, p);
    }
  }

  lemma CrashKeeps(s: State, o: Owner)
    requires Inv(s)
    ensures Inv(Crashed(s, o)) && Grows(s, Crashed(s, o))
  {
    Framed(s, Crashed(s, o), o, 0);
  }

  lemma DropKeeps(s: State, o: Owner)
    requires Inv(s)
    ensures Inv(DropPass(s, o)) && Grows(s, DropPass(s, o))
  {
    Framed(s, DropPass(s, o), o, 0);
  }

  /** A phase change of one pass. */
  lemma PhaseKeeps(s: State, o: Owner, f: Phase)
    requires Inv(s) && o in s.passes && PhaseOk(s, s.passes[o].(phase := f))
    ensures Inv(SetPhase(s, o, f)) && Grows(s, SetPhase(s, o, f))
  {
    Framed(s, SetPhase(s, o, f), o, 0);
  }

  lemma StartKeeps(c: Config, s: State, o: Owner)
    requires Inv(s) && o in s.passes
    ensures Inv(StartPass(c, s, o)) && Grows(s, StartPass(c, s, o))
  {
    var w := s.passes[o].row;
    if !Decide(w).NoAction? {
      PhaseKeeps(s, o, Entering(EntryWrite(w, s.now), s.now + c.writeTimeout));
    } else if w.Behind() {
      PhaseKeeps(s, o, Finishing(CatchUpWrite(w, s.now)));
    } else {
      PhaseKeeps(s, o, Ending);
    }
  }

  lemma EnterKeeps(s: State, o: Owner)
    requires Inv(s) && o in s.passes && s.passes[o].phase.Entering?
    ensures Inv(EntryTried(s, o)) && Grows(s, EntryTried(s, o))
  {
    var f := s.passes[o].phase;
    LandedKeeps(s, o, f.write, Entered(f.deadline), Ending);
  }

  lemma FinishKeeps(s: State, o: Owner)
    requires Inv(s) && o in s.passes && s.passes[o].phase.Finishing?
    ensures Inv(OutcomeTried(s, o)) && Grows(s, OutcomeTried(s, o))
  {
    LandedKeeps(s, o, s.passes[o].phase.write, Ending, Ending);
  }

  lemma ReplyKeeps(c: Config, s: State, o: Owner)
    requires Inv(s) && o in s.passes && s.passes[o].phase.Entered?
    ensures Inv(Replied(c, s, o)) && Grows(s, Replied(c, s, o))
  {
    if s.passes[o].row.desired.Present? {
      PhaseKeeps(s, o, Deriving(s.now + c.writeTimeout));
    } else {
      PhaseKeeps(s, o, Operating(TearingDown, s.now + c.RenewInterval(), Idle));
    }
  }

  lemma BeginKeeps(c: Config, s: State, o: Owner)
    requires Inv(s) && o in s.passes && s.passes[o].phase.Deriving?
    ensures Inv(ProvisionBegun(c, s, o)) && Grows(s, ProvisionBegun(c, s, o))
  {
    var op := if MayReplace(s.passes[o].row) then Inspecting else Starting;
    PhaseKeeps(s, o, Operating(op, s.now + c.RenewInterval(), Idle));
  }

  /** A lease change without a new version. */
  lemma LeaseKeeps(s: State, w: Row)
    requires Inv(s) && SameButLease(s.row, w)
    ensures Inv(s.(row := w)) && Grows(s, s.(row := w))
  {
    Framed(s, s.(row := w), 0, 0);
  }

  lemma LateRenewKeeps(c: Config, s: State)
    requires Inv(s)
    ensures var t := s.(row := Renewed(s.row, s.now + c.lease)); Inv(t) && Grows(s, t)
  {
    LeaseKeeps(s, Renewed(s.row, s.now + c.lease));
  }

  lemma RenewAskKeeps(c: Config, s: State, o: Owner)
    requires Inv(s) && InOperation(s, o)
    ensures Inv(RenewAsked(c, s, o)) && Grows(s, RenewAsked(c, s, o))
  {
    var f := s.passes[o].phase;
    PhaseKeeps(s, o, f.(nextTick := f.nextTick + c.RenewInterval(), renewal := Asked(s.now + c.writeTimeout)));
  }

  lemma RenewOverKeeps(s: State, o: Owner)
    requires Inv(s) && InOperation(s, o)
    ensures Inv(RenewOver(s, o)) && Grows(s, RenewOver(s, o))
  {
    PhaseKeeps(s, o, s.passes[o].phase.(renewal := Idle));
  }

  lemma RenewDoneKeeps(c: Config, s: State, o: Owner)
    requires Inv(s) && InOperation(s, o) && s.passes[o].phase.renewal.Asked?
    ensures Inv(RenewDone(c, s, o)) && Grows(s, RenewDone(c, s, o))
  {
    var f := s.passes[o].phase;
    var ok := s.row.leaseOwner == Some(o);
    var t := if ok then s.(row := Renewed(s.row, s.now + c.lease)) else s;
    LeaseKeeps(s, t.row);
    PhaseKeeps(t, o, f.(renewal := Answered(ok, f.renewal.deadline)));
  }

  lemma ReportKeeps(s: State)
    requires Inv(s)
    ensures Inv(ReportGone(s)) && Grows(s, ReportGone(s))
  {
    assert Grows(s, ReportGone(s)) && AbsentIsHonest(ReportGone(s));
    Framed(s, ReportGone(s), 0, 0);
  }

  lemma SucceedKeeps(s: State, o: Owner)
    requires Inv(s) && InOperation(s, o)
    requires s.passes[o].phase.op.TearingDown? ==> s.world.container.None?
    ensures Inv(Succeeded(s, o)) && Grows(s, Succeeded(s, o))
  {
    var p := s.passes[o];
    var r := ReportGone(s);
    ReportKeeps(s);
    match p.phase.op {
      case Inspecting =>
        PhaseKeeps(r, o, p.phase.(op := if Stale(p.row, s.world.Inspect()) then Replacing else Starting));
      case Replacing => PhaseKeeps(r, o, p.phase.(op := Starting));
      case Starting => PhaseKeeps(s, o, Finishing(RunningWrite(p.row, s.now)));
      case TearingDown => PhaseKeeps(r, o, Finishing(AbsentWrite(p.row, s.now)));
    }
  }

  lemma FailKeeps(c: Config, s: State, o: Owner, err: StepError, rnd: real)
    requires Inv(s) && InOperation(s, o)
    ensures Inv(Failing(c, s, o, err, rnd)) && Grows(s, Failing(c, s, o, err, rnd))
  {
    var p := s.passes[o];
    if !p.phase.op.TearingDown? {
      PhaseKeeps(s, o, Finishing(ProvisionFailure(c, p.row, err, s.now, rnd)));
    } else if WillRetry(c, p.row, err) {
      PhaseKeeps(s, o, Finishing(TeardownFailure(c, p.row, err, false, s.now, rnd)));
    } else {
      PhaseKeeps(s, o, AskingGone(err));
    }
  }

  lemma GoneKeeps(c: Config, s: State, o: Owner, reachable: bool, rnd: real)
    requires Inv(s) && o in s.passes && s.passes[o].phase.AskingGone?
    ensures Inv(GoneAnswered(c, s, o, reachable, rnd)) && Grows(s, GoneAnswered(c, s, o, reachable, rnd))
  {
    var p := s.passes[o];
    var gone := reachable && s.world.container.None?;
    var t := if gone then ReportGone(s) else s;
    ReportKeeps(s);
    PhaseKeeps(t, o, Finishing(TeardownFailure(c, p.row, p.phase.err, gone, s.now, rnd)));
  }

  lemma ReleaseKeeps(s: State, o: Owner)
    requires Inv(s) && o in s.passes
    ensures Inv(PassReleased(s, o)) && Grows(s, PassReleased(s, o))
  {
    LeaseKeeps(s, ReleasedBy(s.row, o));
    PhaseKeeps(s.(row := ReleasedBy(s.row, o)), o, Released);
  }

  lemma ObserverClaimKeeps(c: Config, s: State, id: ThreadId, o: Owner)
    requires Inv(s)
    ensures Inv(ObserverClaimed(c, s, id, o)) && Grows(s, ObserverClaimed(c, s, id, o))
  {
    Framed(s, ObserverClaimed(c, s, id, o), 0, id);
  }

  lemma ObserverStopKeeps(s: State, id: ThreadId)
    requires Inv(s) && id in s.observers
    ensures Inv(ObserverStopped(s, id)) && Grows(s, ObserverStopped(s, id))
  {
    Framed(s, ObserverStopped(s, id), 0, id);
  }

  lemma ObserverReleaseKeeps(s: State, id: ThreadId)
    requires Inv(s) && id in s.observers
    ensures Inv(ObserverReleased(s, id)) && Grows(s, ObserverReleased(s, id))
  {
    Framed(s, ObserverReleased(s, id), 0, id);
  }

  lemma ObserverLookKeeps(s: State, id: ThreadId)
    requires Inv(s) && id in s.observers
    ensures Inv(ObserverLooked(s, id)) && Grows(s, ObserverLooked(s, id))
  {
    Framed(s, ObserverLooked(s, id), 0, id);
  }

  lemma ObserverWriteKeeps(s: State, id: ThreadId)
    requires Inv(s) && id in s.observers && s.observers[id].phase.Writing?
    ensures Inv(ObserverWrote(s, id)) && Grows(s, ObserverWrote(s, id))
  {
    Framed(s, ObserverWrote(s, id), 0, id);
  }

  /** The world changes without losing data, or the container vanishes. */
  lemma UserKeeps(s: State, t: State)
    requires Inv(s)
    requires t == s.(world := t.world, written := t.written, vanished := t.vanished)
    requires DataIsSafe(t)
    ensures Inv(t) && Grows(s, t)
  {
    Framed(s, t, 0, 0);
  }

  lemma StoreKeeps(s: State, d: Datum)
    requires Inv(s) && s.world.container.Some?
    ensures Inv(Stored(s, d)) && Grows(s, Stored(s, d))
  {
    UserKeeps(s, Stored(s, d));
  }

  lemma SwitchKeeps(s: State, running: bool)
    requires Inv(s) && s.world.container.Some?
    ensures Inv(Switched(s, running)) && Grows(s, Switched(s, running))
  {
    UserKeeps(s, Switched(s, running));
  }

  lemma VanishKeeps(s: State)
    requires Inv(s)
    ensures var t := s.(world := s.world.(container := None), vanished := true); Inv(t) && Grows(s, t)
  {
    UserKeeps(s, s.(world := s.world.(container := None), vanished := true));
  }

  lemma IntentStep(c: Config, s: State, step: Step)
    requires Inv(s) && Enabled(s, step)
    requires step.Tick? || step.Intend? || step.AskCancel? || step.DoCancel?
    ensures Inv(Next(c, s, step)) && Grows(s, Next(c, s, step))
  {
    hide Inv;
    match step {
      case Tick(d) => TickKeeps(s, d);
      case Intend(i) => IntentKeeps(s, i);
      case AskCancel(id) => AskKeeps(s, id);
      case DoCancel(id) => CancelKeeps(s, id);
    }
  }

  lemma EntryStep(c: Config, s: State, step: Step)
    requires Inv(s) && Enabled(s, step)
    requires step.Claim? || step.LoseClaim? || step.Crash? || step.Start? || step.Enter?
    ensures Inv(Next(c, s, step)) && Grows(s, Next(c, s, step))
  {
    hide Inv;
    match step {
      case Claim(o) => ClaimKeeps(c, s, o);
      case LoseClaim(o) => DropKeeps(s, o);
      case Crash(o) => CrashKeeps(s, o);
      case Start(o) => StartKeeps(c, s, o);
      case Enter(o) => EnterKeeps(s, o);
    }
  }

  lemma ReplyStep(c: Config, s: State, step: Step)
    requires Inv(s) && Enabled(s, step)
    requires step.WriteError? || step.LoseReply? || step.Reply? || step.Derived?
    ensures Inv(Next(c, s, step)) && Grows(s, Next(c, s, step))
  {
    hide Inv;
    match step {
      case WriteError(o) => PhaseKeeps(s, o, Ending);
      case LoseReply(o) => PhaseKeeps(s, o, Ending);
      case Reply(o) => ReplyKeeps(c, s, o);
      case Derived(o) => BeginKeeps(c, s, o);
    }
  }

  lemma RenewStep(c: Config, s: State, step: Step)
    requires Inv(s) && Enabled(s, step)
    requires step.AskRenew? || step.DoRenew?
    ensures Inv(Next(c, s, step)) && Grows(s, Next(c, s, step))
  {
    hide Inv;
    match step {
      case AskRenew(o) => RenewAskKeeps(c, s, o);
      case DoRenew(o) => RenewDoneKeeps(c, s, o);
    }
  }

  lemma RenewedStep(c: Config, s: State, step: Step)
    requires Inv(s) && Enabled(s, step)
    requires step.RenewReply? || step.LateRenew?
    ensures Inv(Next(c, s, step)) && Grows(s, Next(c, s, step))
  {
    hide Inv;
    match step {
      case RenewReply(o) => RenewOverKeeps(s, o);
      case LateRenew(o) => LateRenewKeeps(c, s);
    }
  }

  lemma OperationStep(c: Config, s: State, step: Step)
    requires Inv(s) && Enabled(s, step)
    requires step.Act? || step.Succeed? || step.FailOp? || step.AnswerGone?
    ensures Inv(Next(c, s, step)) && Grows(s, Next(c, s, step))
  {
    hide Inv;
    match step {
      case Act(o, w) => WorldKeeps(s, o, w);
      case Succeed(o, w) => WorldKeeps(s, o, w); SucceedKeeps(s.(world := w), o);
      case FailOp(o, w, err, rnd) => WorldKeeps(s, o, w); FailKeeps(c, s.(world := w), o, err, rnd);
      case AnswerGone(o, reachable, rnd) => GoneKeeps(c, s, o, reachable, rnd);
    }
  }

  lemma ExitStep(c: Config, s: State, step: Step)
    requires Inv(s) && Enabled(s, step)
    requires step.Finish? || step.Release? || step.Unmark?
    ensures Inv(Next(c, s, step)) && Grows(s, Next(c, s, step))
  {
    hide Inv;
    match step {
      case Finish(o) => FinishKeeps(s, o);
      case Release(o) => ReleaseKeeps(s, o);
      case Unmark(o) => DropKeeps(s, o);
    }
  }

  lemma ObserverStep(c: Config, s: State, step: Step)
    requires Inv(s) && Enabled(s, step)
    requires step.ObsClaim? || step.ObsStop? || step.ObsLook?
    ensures Inv(Next(c, s, step)) && Grows(s, Next(c, s, step))
  {
    hide Inv;
    match step {
      case ObsClaim(id, o) => ObserverClaimKeeps(c, s, id, o);
      case ObsStop(id) => ObserverStopKeeps(s, id);
      case ObsLook(id) => ObserverLookKeeps(s, id);
    }
  }

  lemma ObserverExit(c: Config, s: State, step: Step)
    requires Inv(s) && Enabled(s, step)
    requires step.ObsWrite? || step.ObsRelease?
    ensures Inv(Next(c, s, step)) && Grows(s, Next(c, s, step))
  {
    hide Inv;
    match step {
      case ObsWrite(id) => ObserverWriteKeeps(s, id);
      case ObsRelease(id) => ObserverReleaseKeeps(s, id);
    }
  }

  lemma UserStep(c: Config, s: State, step: Step)
    requires Inv(s) && Enabled(s, step)
    requires step.UserWrite? || step.UserRun? || step.Vanish?
    ensures Inv(Next(c, s, step)) && Grows(s, Next(c, s, step))
  {
    hide Inv;
    match step {
      case UserWrite(d) => StoreKeeps(s, d);
      case UserRun(b) => SwitchKeeps(s, b);
      case Vanish => VanishKeeps(s);
    }
  }

  lemma EveryStep(c: Config, s: State, step: Step)
    requires Inv(s) && Enabled(s, step)
    ensures Inv(Next(c, s, step)) && Grows(s, Next(c, s, step))
  {
    hide Next, Inv, Grows;
    if step.Tick? || step.Intend? || step.AskCancel? || step.DoCancel? {
      IntentStep(c, s, step);
    } else if step.Claim? || step.LoseClaim? || step.Crash? || step.Start? || step.Enter? {
      EntryStep(c, s, step);
    } else if step.WriteError? || step.LoseReply? || step.Reply? || step.Derived? {
      ReplyStep(c, s, step);
    } else if step.AskRenew? || step.DoRenew? {
      RenewStep(c, s, step);
    } else if step.RenewReply? || step.LateRenew? {
      RenewedStep(c, s, step);
    } else if step.Act? || step.Succeed? || step.FailOp? || step.AnswerGone? {
      OperationStep(c, s, step);
    } else if step.Finish? || step.Release? || step.Unmark? {
      ExitStep(c, s, step);
    } else if step.UserWrite? || step.UserRun? || step.Vanish? {
      UserStep(c, s, step);
    } else if step.ObsWrite? || step.ObsRelease? {
      ObserverExit(c, s, step);
    } else {
      ObserverStep(c, s, step);
    }
  }
}
