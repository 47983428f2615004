/** Convergence of a wanted workspace, on every interleaving: each claim either
    finishes the work or is paid for by a setback, and finished work stays done. */
module Convergence {
  import opened Options
  import opened Workspace
  import opened Repository
  import opened Passes
  import opened Protocol
  import opened Fencing
  import opened Runs

  // ---------------------------------------------------------------------------
  // A live pass works on a pending row

  /** The pass may still write. */
  predicate Live(p: Pass) {
    !p.phase.Ending? && !p.phase.Released?
  }

  predicate Conclusive(u: Write) {
    u.observed.Running? || u.observed.Stopped?
  }

  predicate Busy(p: Pass) {
    && (Live(p) ==> p.row.Pending())
    && (p.phase.Entering? ==> !Decide(p.row).NoAction? && p.phase.write.attempts == p.row.attempts)
    && (p.phase.Finishing? && p.row.desired.Present? ==>
          Conclusive(p.phase.write) || (p.phase.write.observed.Failed? && p.phase.write.attempts > p.row.attempts))
  }

  predicate AllBusy(s: State) {
    forall o :: o in s.passes ==> Busy(s.passes[o])
  }

  lemma StartBusy(c: Config, s: State, o: Owner)
    requires o in s.passes && s.passes[o].phase.Claimed? && Busy(s.passes[o])
    ensures Busy(StartPass(c, s, o).passes[o])
  {
    PendingIffSomethingToDo(s.passes[o].row);
  }

  lemma EnterBusy(s: State, o: Owner)
    requires Inv(s) && o in s.passes && s.passes[o].phase.Entering? && Busy(s.passes[o])
    ensures Busy(EntryTried(s, o).passes[o])
  {
    assert PassOk(s, s.passes[o]);
  }

  lemma SucceedBusy(s: State, o: Owner)
    requires Inv(s) && InOperation(s, o) && Busy(s.passes[o])
    ensures Busy(Succeeded(s, o).passes[o])
  {
    assert PassOk(s, s.passes[o]);
  }

  lemma FailBusy(c: Config, s: State, o: Owner, err: StepError, rnd: real)
    requires Inv(s) && InOperation(s, o) && Busy(s.passes[o])
    ensures Busy(Failing(c, s, o, err, rnd).passes[o])
  {
    assert PassOk(s, s.passes[o]);
  }

  lemma GoneBusy(c: Config, s: State, o: Owner, reachable: bool, rnd: real)
    requires Inv(s) && o in s.passes && s.passes[o].phase.AskingGone? && Busy(s.passes[o])
    ensures Busy(GoneAnswered(c, s, o, reachable, rnd).passes[o])
  {
    assert PassOk(s, s.passes[o]);
  }

  lemma QuietPhaseBusy(c: Config, s: State, step: Step, o: Owner)
    requires Enabled(s, step) && ByPass(step, o) && o in s.passes && Busy(s.passes[o])
    requires step.WriteError? || step.LoseReply? || step.Reply? || step.Derived? || step.Release?
    ensures o in Next(c, s, step).passes && Busy(Next(c, s, step).passes[o])
  {
  }

  lemma RenewalBusy(c: Config, s: State, step: Step, o: Owner)
    requires Enabled(s, step) && ByPass(step, o) && o in s.passes && Busy(s.passes[o])
    requires step.AskRenew? || step.DoRenew? || step.RenewReply? || step.Finish?
    ensures o in Next(c, s, step).passes && Busy(Next(c, s, step).passes[o])
  {
  }

  lemma BackendBusy(c: Config, s: State, step: Step, o: Owner)
    requires Inv(s) && Enabled(s, step) && ByPass(step, o) && o in s.passes && Busy(s.passes[o])
    requires step.Succeed? || step.FailOp?
    ensures o in Next(c, s, step).passes && Busy(Next(c, s, step).passes[o])
  {
    hide Inv, Busy;
    match step {
      case Succeed(_, w) => WorldKeeps(s, o, w); SucceedBusy(s.(world := w), o);
      case FailOp(_, w, err, rnd) => WorldKeeps(s, o, w); FailBusy(c, s.(world := w), o, err, rnd);
    }
  }

  lemma DatabaseBusy(c: Config, s: State, step: Step, o: Owner)
    requires Inv(s) && Enabled(s, step) && ByPass(step, o) && o in s.passes && Busy(s.passes[o])
    requires step.Start? || step.Enter? || step.AnswerGone?
    ensures o in Next(c, s, step).passes && Busy(Next(c, s, step).passes[o])
  {
    hide Inv, Busy;
    match step {
      case Start(_) => StartBusy(c, s, o);
      case Enter(_) => EnterBusy(s, o);
      case AnswerGone(_, reachable, rnd) => GoneBusy(c, s, o, reachable, rnd);
    }
  }

  lemma OwnStepBusy(c: Config, s: State, step: Step, o: Owner)
    requires Inv(s) && Enabled(s, step) && ByPass(step, o) && o in s.passes && Busy(s.passes[o])
    ensures o in Next(c, s, step).passes && Busy(Next(c, s, step).passes[o])
  {
    hide Inv, Busy, Next, Enabled;
    match step {
      case Start(_) | Enter(_) | AnswerGone(_, _, _) => DatabaseBusy(c, s, step, o);
      case Succeed(_, _) | FailOp(_, _, _, _) => BackendBusy(c, s, step, o);
      case AskRenew(_) | DoRenew(_) | RenewReply(_) | Finish(_) => RenewalBusy(c, s, step, o);
      case _ => QuietPhaseBusy(c, s, step, o);
    }
  }

  lemma ClaimBusy(c: Config, s: State, o: Owner)
    requires s.row.Due(s.now) && o !in s.passes
    ensures Busy(ClaimedBy(c, s, o).passes[o])
  {
  }

  lemma BusyStep(c: Config, s: State, step: Step)
    requires Inv(s) && Enabled(s, step) && AllBusy(s)
    ensures AllBusy(Next(c, s, step))
  {
    var t := Next(c, s, step);
    forall o | o in t.passes ensures Busy(t.passes[o]) {
      PassBusy(c, s, step, o);
    }
  }

  lemma PassBusy(c: Config, s: State, step: Step, o: Owner)
    requires Inv(s) && Enabled(s, step) && AllBusy(s) && o in Next(c, s, step).passes
    ensures Busy(Next(c, s, step).passes[o])
  {
    hide Inv, Busy, Enabled, Next;
    if o !in s.passes {
      NewPass(c, s, step, o);
      ClaimIsBusy(c, s, o);
    } else if ByPass(step, o) {
      OwnStepBusy(c, s, step, o);
    } else {
      OthersLeavePass(c, s, step, o);
    }
  }

  lemma ClaimIsBusy(c: Config, s: State, o: Owner)
    requires Enabled(s, Claim(o)) && o !in s.passes
    ensures Busy(Next(c, s, Claim(o)).passes[o])
  {
    ClaimBusy(c, s, o);
  }

  lemma {:induction false} EveryStateBusy(c: Config, run: seq<State>, steps: seq<Step>, k: nat)
    requires IsRun(c, run, steps) && k < |run|
    ensures AllBusy(run[k])
  {
    hide Next, Enabled, Inv, Busy;
    if k == 0 {
      var i, world, now :| run[0] == NewState(i, world, now);
    } else {
      EveryStateBusy(c, run, steps, k - 1);
      EveryState(c, run, steps, k - 1);
      BusyStep(c, run[k - 1], steps[k - 1]);
    }
  }

  // ---------------------------------------------------------------------------
  // What a step does to the work on a wanted workspace

  /** No new intent, and no observation recorded behind the passes' back. */
  predicate Quiet(step: Step) {
    !step.Intend? && !step.DoCancel? && !step.ObsWrite?
  }

  predicate Done(w: Row) {
    w.desired.Present? && !w.Behind() && (w.observed.Running? || w.observed.Stopped?)
  }

  /** The rows differ in nothing but lease and version. */
  predicate SameWork(a: Row, b: Row) {
    a.(leaseOwner := b.leaseOwner, leaseUntil := b.leaseUntil, version := b.version) == b
  }

  predicate Lands(s: State, step: Step) {
    && (step.Enter? || step.Finish?) && step.o in s.passes
    && CanWrite(s.row, step.o, s.passes[step.o].row.version)
  }

  predicate SuccessLands(s: State, step: Step) {
    Lands(s, step) && s.passes[step.o].phase.Finishing? && Conclusive(s.passes[step.o].phase.write)
  }

  predicate FailureLands(s: State, step: Step) {
    Lands(s, step) && s.passes[step.o].phase.Finishing? && s.passes[step.o].phase.write.observed.Failed?
  }

  /** A pass ends here without having finished its work: crashed, cut off from the
      database, superseded, or with a failure of the backend to record. */
  predicate Setback(s: State, step: Step) {
    match step
    case LoseClaim(_) => true
    case Crash(o) => o in s.passes && Live(s.passes[o])
    case WriteError(_) => true
    case LoseReply(_) => true
    case Enter(_) => !Lands(s, step)
    case Finish(_) => !SuccessLands(s, step)
    case _ => false
  }

  predicate Begins(s: State, step: Step) {
    step.Claim? && step.o !in s.passes
  }

  lemma UnlandedKeepsWork(c: Config, s: State, step: Step)
    requires Enabled(s, step) && Quiet(step) && !Lands(s, step)
    ensures SameWork(s.row, Next(c, s, step).row)
  {
    var t := Next(c, s, step);
    match step {
      case Claim(_) => assert SameWork(s.row, t.row);
      case Start(_) => assert t.row == s.row;
      case Enter(_) => assert t.row == s.row;
      case Reply(_) => assert t.row == s.row;
      case DoRenew(_) => assert SameWork(s.row, t.row);
      case Succeed(_, _) => assert t.row == s.row;
      case FailOp(_, _, _, _) => assert t.row == s.row;
      case AnswerGone(_, _, _) => assert t.row == s.row;
      case _ => assert SameWork(s.row, t.row);
    }
  }

  /** A write of a live pass finds the row pending, and leaves it provisioning,
      failed with one attempt more, or done. */
  lemma LandedWork(c: Config, s: State, step: Step)
    requires Inv(s) && AllBusy(s) && Enabled(s, step) && Lands(s, step) && s.row.desired.Present?
    ensures s.row.Pending()
    ensures var w, t := s.row, Next(c, s, step).row;
      && t.desired.Present? && t.generation == w.generation && !t.Behind()
      && (step.Enter? ==> t.observed.Provisioning? && t.attempts == w.attempts && Decide(w).Provision?)
      && (step.Finish? ==> SuccessLands(s, step) || FailureLands(s, step))
      && (SuccessLands(s, step) ==> Done(t))
      && (FailureLands(s, step) ==> t.observed.Failed? && t.attempts > w.attempts)
  {
    WritesLandOnTheirIntent(c, s, step);
    var p := s.passes[step.o];
    assert PassOk(s, p) && Busy(p);
    PendingIffSomethingToDo(p.row);
  }

  /** Finished work is not written again. */
  lemma DoneIsLeftAlone(c: Config, s: State, step: Step)
    requires Inv(s) && AllBusy(s) && Enabled(s, step) && Quiet(step) && Done(s.row)
    ensures !Lands(s, step) && SameWork(s.row, Next(c, s, step).row) && !Begins(s, step)
  {
    if Lands(s, step) {
      LandedWork(c, s, step);
    }
    UnlandedKeepsWork(c, s, step);
  }

  /** Whatever is wanted, a write that lands finds the row pending. */
  lemma LandedFindsWork(c: Config, s: State, step: Step)
    requires Inv(s) && AllBusy(s) && Enabled(s, step) && Lands(s, step)
    ensures s.row.Pending()
  {
    WritesLandOnTheirIntent(c, s, step);
    assert PassOk(s, s.passes[step.o]) && Busy(s.passes[step.o]);
  }

  // ---------------------------------------------------------------------------
  // A removal that failed has spent its retry budget

  predicate Spent(c: Config, w: Row) {
    w.RemovalFailed() ==> w.Final(c.maxAttempts)
  }

  predicate SpentPass(c: Config, p: Pass) {
    p.phase.Finishing? && p.row.desired.Gone? && p.phase.write.observed.Failed? ==> p.phase.write.attempts >= c.maxAttempts
  }

  predicate NoFailure(x: Observer) {
    x.phase.Writing? ==> !x.phase.write.observed.Failed?
  }

  ghost predicate AllSpent(c: Config, s: State) {
    && Spent(c, s.row)
    && (forall o :: o in s.passes ==> SpentPass(c, s.passes[o]))
    && (forall id :: id in s.observers ==> NoFailure(s.observers[id]))
  }

  lemma SuccessSpent(c: Config, s: State, o: Owner)
    requires InOperation(s, o)
    ensures o in Succeeded(s, o).passes && SpentPass(c, Succeeded(s, o).passes[o])
  {
  }

  lemma FailureSpent(c: Config, s: State, o: Owner, err: StepError, rnd: real)
    requires Inv(s) && InOperation(s, o)
    ensures var t := Failing(c, s, o, err, rnd); o in t.passes && SpentPass(c, t.passes[o])
  {
    assert PassOk(s, s.passes[o]);
  }

  lemma AnswerSpent(c: Config, s: State, o: Owner, reachable: bool, rnd: real)
    requires o in s.passes && s.passes[o].phase.AskingGone?
    ensures var t := GoneAnswered(c, s, o, reachable, rnd); o in t.passes && SpentPass(c, t.passes[o])
  {
  }

  lemma BackendSpent(c: Config, s: State, step: Step, o: Owner)
    requires Inv(s) && Enabled(s, step) && ByPass(step, o) && OfBackend(step)
    ensures o in Next(c, s, step).passes && SpentPass(c, Next(c, s, step).passes[o])
  {
    hide Inv, SpentPass, Succeeded, Failing, GoneAnswered;
    match step {
      case Succeed(_, w) => SuccessSpent(c, s.(world := w), o);
      case FailOp(_, w, err, rnd) => WorldKeeps(s, o, w); FailureSpent(c, s.(world := w), o, err, rnd);
      case AnswerGone(_, reachable, rnd) => AnswerSpent(c, s, o, reachable, rnd);
    }
  }

  lemma DatabaseSpent(c: Config, s: State, step: Step, o: Owner)
    requires Enabled(s, step) && ByPass(step, o) && o in s.passes && !OfBackend(step)
    ensures o in Next(c, s, step).passes && SpentPass(c, Next(c, s, step).passes[o])
  {
    match step {
      case Start(_) => PendingIffSomethingToDo(s.passes[o].row);
      case Enter(_) =>
      case WriteError(_) =>
      case LoseReply(_) =>
      case Reply(_) =>
      case Derived(_) =>
      case AskRenew(_) =>
      case DoRenew(_) =>
      case RenewReply(_) =>
      case Finish(_) =>
      case Release(_) =>
    }
  }

  lemma PassSpent(c: Config, s: State, step: Step, o: Owner)
    requires Inv(s) && Enabled(s, step) && AllSpent(c, s) && o in Next(c, s, step).passes
    ensures SpentPass(c, Next(c, s, step).passes[o])
  {
    hide Inv, Enabled, Next;
    if o !in s.passes {
      NewPass(c, s, step, o);
    } else if !ByPass(step, o) {
      OthersLeavePass(c, s, step, o);
    } else if OfBackend(step) {
      BackendSpent(c, s, step, o);
    } else {
      DatabaseSpent(c, s, step, o);
    }
  }

  lemma LandedSpent(c: Config, s: State, step: Step)
    requires Inv(s) && Enabled(s, step) && AllSpent(c, s) && Lands(s, step)
    ensures Spent(c, Next(c, s, step).row)
  {
    assert PassOk(s, s.passes[step.o]) && SpentPass(c, s.passes[step.o]);
  }

  lemma RowSpent(c: Config, s: State, step: Step)
    requires Inv(s) && Enabled(s, step) && AllSpent(c, s)
    ensures Spent(c, Next(c, s, step).row)
  {
    if Lands(s, step) {
      LandedSpent(c, s, step);
    } else if Quiet(step) {
      UnlandedKeepsWork(c, s, step);
    } else if step.ObsWrite? {
      assert NoFailure(s.observers[step.id]);
    }
  }

  lemma ObserversSpent(c: Config, s: State, step: Step, id: ThreadId)
    requires Enabled(s, step) && AllSpent(c, s) && id in Next(c, s, step).observers
    ensures NoFailure(Next(c, s, step).observers[id])
  {
    if !step.ObsClaim? && !step.ObsStop? && !step.ObsLook? && !step.ObsWrite? {
      ObserversWait(c, s, step, id);
    }
  }

  lemma ObserversWait(c: Config, s: State, step: Step, id: ThreadId)
    requires Enabled(s, step) && id in Next(c, s, step).observers
    requires !step.ObsClaim? && !step.ObsStop? && !step.ObsLook? && !step.ObsWrite?
    ensures id in s.observers && Next(c, s, step).observers[id] == s.observers[id]
  {
    var t := Next(c, s, step);
    match step {
      case ObsRelease(_) =>
      case Crash(_) =>
      case Succeed(_, _) => assert t.observers == s.observers;
      case FailOp(_, _, _, _) => assert t.observers == s.observers;
      case _ => assert t.observers == s.observers;
    }
  }

  lemma SpentStep(c: Config, s: State, step: Step)
    requires Inv(s) && Enabled(s, step) && AllSpent(c, s)
    ensures AllSpent(c, Next(c, s, step))
  {
    hide Inv, Enabled, Next, Spent, SpentPass, NoFailure;
    var t := Next(c, s, step);
    RowSpent(c, s, step);
    forall o | o in t.passes ensures SpentPass(c, t.passes[o]) {
      PassSpent(c, s, step, o);
    }
    forall id | id in t.observers ensures NoFailure(t.observers[id]) {
      ObserversSpent(c, s, step, id);
    }
  }

  /** On every state of every run a removal that reads `failed` is final: it was not
      retryable or its budget is spent, so those who wait for it are told. */
  lemma {:induction false} FailedRemovalsAreFinal(c: Config, run: seq<State>, steps: seq<Step>, k: nat)
    requires IsRun(c, run, steps) && k < |run|
    ensures AllSpent(c, run[k])
    ensures run[k].row.RemovalFailed() ==> run[k].row.Final(c.maxAttempts)
  {
    hide Next, Enabled, Inv, SpentPass, NoFailure;
    if k == 0 {
      var i, world, now :| run[0] == NewState(i, world, now);
    } else {
      FailedRemovalsAreFinal(c, run, steps, k - 1);
      EveryState(c, run, steps, k - 1);
      SpentStep(c, run[k - 1], steps[k - 1]);
    }
  }

  predicate LiveIn(s: State, o: Owner) {
    o in s.passes && Live(s.passes[o])
  }

  function LiveOwners(s: State): set<Owner> {
    set o | o in s.passes && Live(s.passes[o])
  }

  /** The pass ends with this step of its own. */
  predicate Ends(s: State, step: Step) {
    Setback(s, step) || SuccessLands(s, step)
  }

  predicate OfBackend(step: Step) {
    step.Succeed? || step.FailOp? || step.AnswerGone?
  }

  predicate OfDatabase(step: Step) {
    step.Start? || step.Enter? || step.Finish?
  }

  lemma BackendKeepsPass(c: Config, s: State, step: Step, q: Owner)
    requires Enabled(s, step) && OfBackend(step) && q in s.passes
    ensures q in Next(c, s, step).passes && (Live(s.passes[q]) <==> Live(Next(c, s, step).passes[q]))
  {
    match step {
      case Succeed(o, w) => SuccessKeepsPass(s.(world := w), o, q);
      case FailOp(o, w, err, rnd) => FailureKeepsPass(c, s.(world := w), o, err, rnd, q);
      case AnswerGone(_, _, _) =>
    }
  }

  lemma SuccessKeepsPass(s: State, o: Owner, q: Owner)
    requires InOperation(s, o) && q in s.passes
    ensures q in Succeeded(s, o).passes && (Live(s.passes[q]) <==> Live(Succeeded(s, o).passes[q]))
  {
    var t := Succeeded(s, o);
    assert t.passes == s.passes[o := t.passes[o]];
    assert t.passes[o].phase.Operating? || t.passes[o].phase.Finishing?;
  }

  lemma FailureKeepsPass(c: Config, s: State, o: Owner, err: StepError, rnd: real, q: Owner)
    requires InOperation(s, o) && q in s.passes
    ensures var t := Failing(c, s, o, err, rnd); q in t.passes && (Live(s.passes[q]) <==> Live(t.passes[q]))
  {
  }

  lemma DatabaseKeepsPass(c: Config, s: State, step: Step, q: Owner)
    requires AllBusy(s) && Enabled(s, step) && OfDatabase(step) && q in s.passes
    ensures q in Next(c, s, step).passes
    ensures q != step.o ==> Next(c, s, step).passes[q] == s.passes[q]
    ensures q == step.o ==> Live(s.passes[q]) && (Live(Next(c, s, step).passes[q]) <==> !Ends(s, step))
  {
    var t := Next(c, s, step);
    assert Busy(s.passes[step.o]);
    match step {
      case Start(o) =>
        PendingIffSomethingToDo(s.passes[o].row);
        assert Live(t.passes[o]);
      case Enter(o) => assert q in t.passes;
      case Finish(o) => assert t.passes[o].phase.Ending?;
    }
  }

  lemma AbandonedPass(c: Config, s: State, step: Step, q: Owner)
    requires Enabled(s, step) && (step.WriteError? || step.LoseReply?) && q in s.passes
    ensures q in Next(c, s, step).passes
    ensures Live(Next(c, s, step).passes[q]) <==> Live(s.passes[q]) && step.o != q
  {
  }

  lemma RunningPass(c: Config, s: State, step: Step, q: Owner)
    requires Enabled(s, step) && q in s.passes
    requires step.Claim? || step.Reply? || step.Derived? || step.AskRenew? || step.DoRenew? || step.RenewReply?
          || step.Release?
    ensures q in Next(c, s, step).passes
    ensures Live(Next(c, s, step).passes[q]) <==> Live(s.passes[q])
  {
  }

  lemma DroppedPass(c: Config, s: State, step: Step, q: Owner)
    requires Enabled(s, step) && q in s.passes
    requires (step.LoseClaim? || step.Crash? || step.Unmark?) && step.o != q
    ensures q in Next(c, s, step).passes && Next(c, s, step).passes[q] == s.passes[q]
  {
  }

  lemma OthersKeepPass(c: Config, s: State, step: Step, q: Owner)
    requires Enabled(s, step) && !OfBackend(step) && !OfDatabase(step) && q in s.passes
    requires step != Crash(q) && step != LoseClaim(q) && step != Unmark(q)
    ensures q in Next(c, s, step).passes
    ensures Live(Next(c, s, step).passes[q]) <==> Live(s.passes[q]) && step != WriteError(q) && step != LoseReply(q)
  {
    hide Enabled, Live, Next;
    match step {
      case WriteError(_) | LoseReply(_) => AbandonedPass(c, s, step, q);
      case Claim(_) | Reply(_) | Derived(_) => RunningPass(c, s, step, q);
      case AskRenew(_) | DoRenew(_) | RenewReply(_) | Release(_) => RunningPass(c, s, step, q);
      case LoseClaim(_) | Crash(_) | Unmark(_) => DroppedPass(c, s, step, q);
      case ObsClaim(_, _) | ObsStop(_) | ObsLook(_) | ObsWrite(_) | ObsRelease(_) => ObserversAside(c, s, step);
      case _ => AsidePass(c, s, step);
    }
  }

  lemma AsidePass(c: Config, s: State, step: Step)
    requires Enabled(s, step)
    requires step.Tick? || step.Intend? || step.AskCancel? || step.DoCancel? || step.LateRenew? || step.Act?
          || step.UserWrite? || step.UserRun? || step.Vanish?
    ensures Next(c, s, step).passes == s.passes
  {
  }

  lemma ObserversAside(c: Config, s: State, step: Step)
    requires Enabled(s, step)
    requires step.ObsClaim? || step.ObsStop? || step.ObsLook? || step.ObsWrite? || step.ObsRelease?
    ensures Next(c, s, step).passes == s.passes
  {
  }

  /** Passes become live by a claim and end with a setback or with their work
      done, and only so. */
  lemma LivenessAfter(c: Config, s: State, step: Step, q: Owner)
    requires AllBusy(s) && Enabled(s, step)
    ensures LiveIn(Next(c, s, step), q) <==>
      (LiveIn(s, q) && !(Ends(s, step) && step.o == q)) || (step == Claim(q) && q !in s.passes)
    ensures Ends(s, step) ==> LiveIn(s, step.o)
  {
    hide Next, Enabled, Busy;
    if Ends(s, step) && (step.WriteError? || step.LoseReply? || step.LoseClaim?) {
      EndsAreLive(s, step);
    }
    if OfDatabase(step) {
      EndsAreLive(s, step);
    }
    if q !in s.passes {
      if step == Claim(q) {
        ClaimIsLive(c, s, q);
      } else {
        NoNewPass(c, s, step, q);
      }
    } else if step == Crash(q) || step == LoseClaim(q) || step == Unmark(q) {
      DropsPass(c, s, step, q);
    } else if OfBackend(step) {
      BackendKeepsPass(c, s, step, q);
    } else if OfDatabase(step) {
      DatabaseKeepsPass(c, s, step, q);
    } else {
      OthersKeepPass(c, s, step, q);
    }
  }

  lemma EndsAreLive(s: State, step: Step)
    requires Enabled(s, step)
    requires OfDatabase(step) || step.WriteError? || step.LoseReply? || step.LoseClaim?
    ensures LiveIn(s, step.o)
  {
  }

  lemma ClaimIsLive(c: Config, s: State, q: Owner)
    requires Enabled(s, Claim(q)) && q !in s.passes
    ensures LiveIn(Next(c, s, Claim(q)), q)
  {
  }

  lemma DropsPass(c: Config, s: State, step: Step, q: Owner)
    requires Enabled(s, step) && q in s.passes
    requires step == Crash(q) || step == LoseClaim(q) || step == Unmark(q)
    ensures q !in Next(c, s, step).passes
    ensures step == Unmark(q) ==> !Live(s.passes[q])
  {
  }

  function One(b: bool): nat { if b then 1 else 0 }

  lemma OneChange(a: set<Owner>, b: set<Owner>, o: Owner, begins: bool, ends: bool)
    requires forall q :: q in b <==> (q in a && !(ends && q == o)) || (begins && q == o)
    requires (ends ==> o in a) && (begins ==> o !in a)
    ensures |a| + One(begins) == |b| + One(ends)
  {
    if ends {
      assert b == a - {o};
    } else if begins {
      assert b == a + {o};
    } else {
      assert a == b;
    }
  }

  lemma LiveCount(c: Config, s: State, step: Step)
    requires AllBusy(s) && Enabled(s, step)
    ensures |LiveOwners(s)| + One(Begins(s, step)) == |LiveOwners(Next(c, s, step))| + One(Ends(s, step))
  {
    hide Next, Enabled, Busy;
    var t := Next(c, s, step);
    var begins, ends := Begins(s, step), Ends(s, step);
    var o := if begins || ends then step.o else 0;
    forall q ensures q in LiveOwners(t) <==> (q in LiveOwners(s) && !(ends && q == o)) || (begins && q == o) {
      LivenessAfter(c, s, step, q);
      assert q in LiveOwners(t) <==> LiveIn(t, q);
    }
    if ends { LivenessAfter(c, s, step, o); }
    OneChange(LiveOwners(s), LiveOwners(t), o, begins, ends);
  }

  // ---------------------------------------------------------------------------
  // Whole runs

  ghost predicate QuietRun(c: Config, run: seq<State>, steps: seq<Step>, i: nat, j: nat) {
    && IsRun(c, run, steps) && i <= j < |run|
    && run[i].row.desired.Present?
    && forall k :: i <= k < j ==> Quiet(steps[k])
  }

  /** How many steps from `i` to `j` begin a pass, set one back, record a failure. */
  function Claims(run: seq<State>, steps: seq<Step>, i: nat, j: nat): nat
    requires i <= j < |run| == |steps| + 1
  {
    if i == j then 0 else Claims(run, steps, i, j - 1) + One(Begins(run[j - 1], steps[j - 1]))
  }

  function Setbacks(run: seq<State>, steps: seq<Step>, i: nat, j: nat): nat
    requires i <= j < |run| == |steps| + 1
  {
    if i == j then 0 else Setbacks(run, steps, i, j - 1) + One(Setback(run[j - 1], steps[j - 1]))
  }

  function Failures(run: seq<State>, steps: seq<Step>, i: nat, j: nat): nat
    requires i <= j < |run| == |steps| + 1
  {
    if i == j then 0 else Failures(run, steps, i, j - 1) + One(FailureLands(run[j - 1], steps[j - 1]))
  }

  /** One step of a wanted workspace: the intent stays, work in progress stays in
      progress until it is done, and done work stays done. */
  predicate Advances(s: State, t: State, step: Step) {
    && t.row.desired.Present? && t.row.generation == s.row.generation
    && (Done(s.row) ==> SameWork(s.row, t.row) && !Begins(s, step) && !SuccessLands(s, step) && !FailureLands(s, step))
    && (SuccessLands(s, step) ==> Done(t.row))
    && (!Done(t.row) ==> t.row.attempts >= s.row.attempts + One(FailureLands(s, step)))
    && (FailureLands(s, step) ==> t.row.observed.Failed? && !t.row.Behind())
    && (Decide(s.row).Provision? ==> Decide(t.row).Provision? || Done(t.row))
    && !(Setback(s, step) && SuccessLands(s, step))
  }

  lemma QuietStepAdvances(c: Config, s: State, step: Step)
    requires Inv(s) && AllBusy(s) && Enabled(s, step) && Quiet(step) && s.row.desired.Present?
    ensures Advances(s, Next(c, s, step), step)
  {
    hide Next, Enabled, Inv, Busy;
    if Lands(s, step) {
      LandedWork(c, s, step);
      if Done(s.row) { DoneIsLeftAlone(c, s, step); }
    } else {
      UnlandedKeepsWork(c, s, step);
      if Done(s.row) { DoneIsLeftAlone(c, s, step); }
    }
  }

  /** The account of a quiet stretch: every claim is matched by a pass still at
      work, by a setback, or by the one success after which the row is done. */
  lemma {:induction false} Account(c: Config, run: seq<State>, steps: seq<Step>, i: nat, j: nat)
    requires QuietRun(c, run, steps, i, j)
    ensures run[j].row.desired.Present? && run[j].row.generation == run[i].row.generation
    ensures var balance := Claims(run, steps, i, j) + |LiveOwners(run[i])|
        - Setbacks(run, steps, i, j) - |LiveOwners(run[j])|;
      balance == 0 || (balance == 1 && Done(run[j].row))
    ensures !Done(run[j].row) ==> run[j].row.attempts >= run[i].row.attempts + Failures(run, steps, i, j)
    ensures Decide(run[i].row).Provision? ==> Decide(run[j].row).Provision? || Done(run[j].row)
  {
    hide Next, Enabled, Inv, Busy, Setback, SuccessLands, FailureLands, Begins, Decide;
    if i < j {
      Account(c, run, steps, i, j - 1);
      EveryState(c, run, steps, j - 1);
      EveryStateBusy(c, run, steps, j - 1);
      QuietStepAdvances(c, run[j - 1], steps[j - 1]);
      LiveCount(c, run[j - 1], steps[j - 1]);
    }
  }

  /** Convergence.  Under a fixed present intent at most one claim more begins than
      there are setbacks and passes still at work; as soon as the claims outnumber
      those, the row is settled and nothing is left to decide. */
  lemma Converges(c: Config, run: seq<State>, steps: seq<Step>, i: nat, j: nat)
    requires QuietRun(c, run, steps, i, j)
    ensures Claims(run, steps, i, j) + |LiveOwners(run[i])|
         <= Setbacks(run, steps, i, j) + |LiveOwners(run[j])| + 1
    ensures Claims(run, steps, i, j) + |LiveOwners(run[i])| > Setbacks(run, steps, i, j) + |LiveOwners(run[j])| ==>
      run[j].row.Settled() && Decide(run[j].row).NoAction? && !run[j].row.Pending()
  {
    Account(c, run, steps, i, j);
  }

  /** A row once done is neither claimed nor written again. */
  lemma {:induction false} DoneStays(c: Config, run: seq<State>, steps: seq<Step>, i: nat, j: nat)
    requires QuietRun(c, run, steps, i, j) && Done(run[i].row)
    ensures SameWork(run[i].row, run[j].row) && Claims(run, steps, i, j) == 0
  {
    hide Next, Enabled, Inv, Busy, Setback, SuccessLands, FailureLands;
    if i < j {
      DoneStays(c, run, steps, i, j - 1);
      EveryState(c, run, steps, j - 1);
      EveryStateBusy(c, run, steps, j - 1);
      QuietStepAdvances(c, run[j - 1], steps[j - 1]);
    }
  }

  /** Whatever interrupts the passes, a row that wants provisioning goes on wanting
      it until it is done. */
  lemma InterruptedWorkIsRepeated(c: Config, run: seq<State>, steps: seq<Step>, i: nat, j: nat)
    requires QuietRun(c, run, steps, i, j) && Decide(run[i].row).Provision? && !Done(run[j].row)
    ensures Decide(run[j].row).Provision? && run[j].row.Pending()
  {
    Account(c, run, steps, i, j);
    PendingIffSomethingToDo(run[j].row);
  }

  /** The retry budget: the failure that makes it `maxAttempts` since the intent is
      final, so that is what `Await` reports. */
  lemma RetryBudget(c: Config, run: seq<State>, steps: seq<Step>, i: nat, j: nat)
    requires QuietRun(c, run, steps, i, j) && i < j && FailureLands(run[j - 1], steps[j - 1])
    requires Failures(run, steps, i, j) >= c.maxAttempts
    ensures run[j].row.Final(c.maxAttempts) && run[j].row.observed.Failed?
  {
    hide Next, Enabled, Inv, Busy, FailureLands, Setback, SuccessLands;
    Account(c, run, steps, i, j);
    EveryState(c, run, steps, j - 1);
    EveryStateBusy(c, run, steps, j - 1);
    Account(c, run, steps, i, j - 1);
    QuietStepAdvances(c, run[j - 1], steps[j - 1]);
  }
}
