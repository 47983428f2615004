/** Deleting a bot, on top of the workspace protocol: the status the bot carries
    meanwhile, and why its row may go. */
module Deletion {
  import opened Options
  import opened Workspace
  import opened Repository
  import opened Passes
  import opened Protocol
  import opened Fencing
  import opened Runs
  import opened Lease
  import opened Scenarios

  // ---------------------------------------------------------------------------
  // When a removal may be taken for done

  /** What the lifecycle takes for a finished removal: `Await` answered and the row
      reads absent. */
  predicate Accepted(c: Config, w: Row, generation: nat) {
    w.generation >= generation && w.Final(c.maxAttempts) && w.observed.Absent?
  }

  /** Whoever reads an accepted row can tell: it is still unwanted exactly when
      nothing is left to decide, and exactly when no pass will take it. */
  lemma AcceptedIsReadable(c: Config, w: Row, generation: nat)
    requires Accepted(c, w, generation)
    ensures w.desired.Gone? <==> Decide(w).NoAction?
    ensures w.desired.Gone? <==> !w.Pending()
  {
    PendingIffSomethingToDo(w);
  }

  /** No pass will build the workspace, and since the removal of step `i` the backend
      reported it gone, under the very intent that the row still carries. */
  ghost predicate RemovedForGood(run: seq<State>, steps: seq<Step>, i: nat, j: nat)
    requires |run| == |steps| + 1 && i < j < |run|
  {
    && !run[j].row.Pending()
    && exists r :: i < r < j && ReportsGone(run, steps, r) && run[r].row.generation == run[j].row.generation
  }

  /** Nobody asked for the workspace again since intent `generation`. */
  predicate StillUnwanted(s: State, generation: nat) {
    forall g :: 0 <= g < |s.intents| && generation <= g + 1 ==> s.intents[g].desired.Gone?
  }

  lemma {:induction false} GenerationsGrow(c: Config, run: seq<State>, steps: seq<Step>, i: nat, j: nat)
    requires IsRun(c, run, steps) && i <= j < |run|
    ensures run[i].row.generation <= run[j].row.generation
  {
    hide Next, Enabled;
    EveryState(c, run, steps, i);
    EveryState(c, run, steps, j);
    RunsGrow(c, run, steps, i, j);
    PrefixIsShorter(run[i].intents, run[j].intents);
  }

  lemma PrefixIsShorter<T>(a: seq<T>, b: seq<T>)
    requires a <= b
    ensures |a| <= |b|
  {
  }

  lemma UnwantedReport(c: Config, run: seq<State>, steps: seq<Step>, i: nat, j: nat) returns (r: nat)
    requires IsRun(c, run, steps) && i < j < |run|
    requires steps[i].Intend? && Accepted(c, run[j].row, run[i + 1].row.generation) && run[j].row.desired.Gone?
    ensures i < r < j && ReportsGone(run, steps, r)
    ensures run[r].row.generation == run[j].row.generation
  {
    EveryState(c, run, steps, j);
    r := AbsentAnswersAreHonest(c, run, steps, j);
    assert run[i + 1] == Intended(run[i], steps[i].intent);
    assert run[i].row.generation < run[r].row.generation;
    if r <= i {
      GenerationsGrow(c, run, steps, r, i);
      assert false;
    }
  }

  /** An accepted removal is a real one exactly when the accepted row is still
      unwanted.  Whatever happened in between, even a workspace wanted and removed
      again, the row alone decides. */
  lemma DeletionIsHonest(c: Config, run: seq<State>, steps: seq<Step>, i: nat, j: nat)
    requires IsRun(c, run, steps) && i < j < |run|
    requires steps[i].Intend? && steps[i].intent.desired.Gone?
    requires Accepted(c, run[j].row, run[i + 1].row.generation)
    ensures RemovedForGood(run, steps, i, j) <==> run[j].row.desired.Gone?
  {
    AcceptedIsReadable(c, run[j].row, run[i + 1].row.generation);
    if run[j].row.desired.Gone? {
      var r := UnwantedReport(c, run, steps, i, j);
    }
  }

  /** In particular when nobody wanted the workspace since the removal. */
  lemma UnwantedStays(c: Config, run: seq<State>, steps: seq<Step>, i: nat, j: nat)
    requires IsRun(c, run, steps) && i < j < |run|
    requires Accepted(c, run[j].row, run[i + 1].row.generation)
    requires StillUnwanted(run[j], run[i + 1].row.generation)
    ensures run[j].row.desired.Gone?
  {
    EveryState(c, run, steps, j);
    assert run[j].intents[run[j].row.generation - 1].desired.Gone?;
  }

  /** A cancellation is accepted for a removal exactly when its inspection found
      nothing, however old that inspection is by then; the row asks for the
      workspace again, and a pass will build it. */
  lemma StaleCancellationIsAccepted(c: Config, s: State, id: ThreadId)
    requires c.Valid() && Inv(s) && id in s.cancels && s.row.RemovalFailed()
    ensures var t := CancelDone(s, id);
      && (Accepted(c, t.row, s.row.generation) <==> s.cancels[id].Absent?)
      && t.row.desired.Present? && t.world == s.world
      && (s.cancels[id].Absent? ==> t.row.Pending())
  {
    PendingIffSomethingToDo(CancelDone(s, id).row);
  }

  /** A creation without an image to compare: the backend makes `w` of the world. */
  function CreatedBy(c: Config, s: State, o: Owner, w: World): State
    requires o in s.passes
  {
    var p := s.passes[o];
    var v := Written(s.row, RunningWrite(p.row, s.now));
    SetPass(s.(row := v, world := w), o, p.(row := v, phase := Ending))
  }

  lemma StartReaches(c: Config, s: State, o: Owner, t: State)
    requires o in s.passes && s.passes[o].phase.Entered? && s.passes[o].row.desired.Present?
    requires s.passes[o].row.image == "" && t == ProvisionBegun(c, Replied(c, s, o), o)
    ensures Reaches(c, s, [Reply(o), Derived(o)], t)
  {
    hide Play, Reaches;
    var s1 := Replied(c, s, o);
    ReachesNothing(c, t);
    ReachesOne(c, s1, Derived(o), [], t, t, [Derived(o)]);
    ReachesOne(c, s, Reply(o), [Derived(o)], s1, t, [Reply(o), Derived(o)]);
  }

  lemma SuccessReaches(c: Config, s: State, o: Owner, w: World, t: State)
    requires InOperation(s, o) && s.passes[o].phase.op.Starting?
    requires w.container.Some? && w.container.value.running && Keeps(s.world, w)
    requires t == OutcomeTried(Succeeded(s.(world := w), o), o)
    ensures Reaches(c, s, [Succeed(o, w), Finish(o)], t)
  {
    hide Play, Reaches, Keeps;
    var s1 := Succeeded(s.(world := w), o);
    ReachesNothing(c, t);
    ReachesOne(c, s1, Finish(o), [], t, t, [Finish(o)]);
    ReachesOne(c, s, Succeed(o, w), [Finish(o)], s1, t, [Succeed(o, w), Finish(o)]);
  }

  lemma CreationReaches(c: Config, s: State, o: Owner, w: World)
    requires o in s.passes && s.passes[o].phase.Entered? && s.row == s.passes[o].row && s.row.leaseOwner == Some(o)
    requires s.row.desired.Present? && s.row.image == ""
    requires w.container.Some? && w.container.value.running && Keeps(s.world, w)
    ensures Reaches(c, s, [Reply(o), Derived(o)] + [Succeed(o, w), Finish(o)], CreatedBy(c, s, o, w))
  {
    hide Play, Reaches, Keeps, Next, Enabled;
    var m := ProvisionBegun(c, Replied(c, s, o), o);
    StartReaches(c, s, o, m);
    SuccessReaches(c, m, o, w, CreatedBy(c, s, o, w));
    ReachesBoth(c, s, [Reply(o), Derived(o)], m, [Succeed(o, w), Finish(o)], CreatedBy(c, s, o, w));
  }

  const STUCK := StepError("teardown", false, "")

  /** A removal that fails for good while the backend still holds the workspace. */
  function StuckBy(c: Config, s: State, o: Owner): State
    requires o in s.passes
  {
    var p := s.passes[o];
    var v := Written(s.row, TeardownFailure(c, p.row, STUCK, false, s.now, 0.0));
    SetPass(s.(row := v), o, p.(row := v, phase := Ending))
  }

  function StuckSteps(o: Owner, w: World): seq<Step> {
    [Reply(o), FailOp(o, w, STUCK, 0.0)] + [AnswerGone(o, true, 0.0), Finish(o)]
  }

  lemma FailureReaches(c: Config, s: State, o: Owner, t: State)
    requires o in s.passes && s.passes[o].phase.Entered? && s.passes[o].row.desired.Gone?
    requires t == Failing(c, Replied(c, s, o), o, STUCK, 0.0)
    ensures Reaches(c, s, [Reply(o), FailOp(o, s.world, STUCK, 0.0)], t)
  {
    hide Play, Reaches;
    var s1 := Replied(c, s, o);
    assert s1.(world := s.world) == s1;
    ReachesNothing(c, t);
    ReachesOne(c, s1, FailOp(o, s.world, STUCK, 0.0), [], t, t, [FailOp(o, s.world, STUCK, 0.0)]);
    ReachesOne(c, s, Reply(o), [FailOp(o, s.world, STUCK, 0.0)], s1, t, [Reply(o), FailOp(o, s.world, STUCK, 0.0)]);
  }

  lemma VerdictReaches(c: Config, s: State, o: Owner, t: State)
    requires o in s.passes && s.passes[o].phase.AskingGone?
    requires t == OutcomeTried(GoneAnswered(c, s, o, true, 0.0), o)
    ensures Reaches(c, s, [AnswerGone(o, true, 0.0), Finish(o)], t)
  {
    hide Play, Reaches;
    var s1 := GoneAnswered(c, s, o, true, 0.0);
    ReachesNothing(c, t);
    ReachesOne(c, s1, Finish(o), [], t, t, [Finish(o)]);
    ReachesOne(c, s, AnswerGone(o, true, 0.0), [Finish(o)], s1, t, [AnswerGone(o, true, 0.0), Finish(o)]);
  }

  lemma StuckReaches(c: Config, s: State, o: Owner)
    requires o in s.passes && s.passes[o].phase.Entered? && s.row == s.passes[o].row && s.row.leaseOwner == Some(o)
    requires s.row.desired.Gone? && s.world.container.Some?
    ensures Reaches(c, s, StuckSteps(o, s.world), StuckBy(c, s, o))
  {
    hide Play, Reaches, Next, Enabled;
    var m := Failing(c, Replied(c, s, o), o, STUCK, 0.0);
    FailureReaches(c, s, o, m);
    VerdictReaches(c, m, o, StuckBy(c, s, o));
    ReachesBoth(c, s, [Reply(o), FailOp(o, s.world, STUCK, 0.0)], m, [AnswerGone(o, true, 0.0), Finish(o)], StuckBy(c, s, o));
  }

  const EMPTY := World(None, {})
  const BUILT := World(Some(Container("", true, {})), {})
  const WANTED := Intent(Present, "", false)
  const UNWANTED := Intent(Gone, "", false)

  /** An inspection finds nothing, the workspace is created, its removal fails, and
      only then the cancellation that asked for the inspection is recorded. */
  function StaleSteps(): seq<Step> {
    [AskCancel(0)] + (CreationSteps() + ([Intend(UNWANTED)] + (RemovalSteps() + [DoCancel(0)])))
  }

  function CreationSteps(): seq<Step> {
    [Claim(0), Start(0), Enter(0)] + ([Reply(0), Derived(0)] + [Succeed(0, BUILT), Finish(0)])
  }

  function RemovalSteps(): seq<Step> {
    [Claim(1), Start(1), Enter(1)] + StuckSteps(1, BUILT)
  }

  /** On this run the deletion would go ahead although the workspace runs, nobody
      ever reported it gone, and the row asks for it again. */
  lemma AcceptedWhileRunning(c: Config) returns (t: State)
    requires c.Valid()
    ensures Play(c, NewState(WANTED, EMPTY, 0), StaleSteps()) == Some(t)
    ensures StaleSteps()[8] == Intend(UNWANTED) && UNWANTED.desired.Gone?
    ensures Accepted(c, t.row, 2) && t.row.desired.Present?
    ensures t.world == BUILT && t.goneAt < 2
  {
    hide Play, Reaches, Next, Enabled;
    var s0 := NewState(WANTED, EMPTY, 0);
    var s1 := CancelAsked(s0, 0);
    var s2 := EnteredBy(c, s1, 0);
    var s3 := CreatedBy(c, s2, 0, BUILT);
    EnterReaches(c, s1, 0);
    CreationReaches(c, s2, 0, BUILT);
    ReachesBoth(c, s1, [Claim(0), Start(0), Enter(0)], s2, [Reply(0), Derived(0)] + [Succeed(0, BUILT), Finish(0)], s3);
    var s4 := Intended(s3, UNWANTED);
    var s5 := EnteredBy(c, s4, 1);
    var s6 := StuckBy(c, s5, 1);
    EnterReaches(c, s4, 1);
    StuckReaches(c, s5, 1);
    ReachesBoth(c, s4, [Claim(1), Start(1), Enter(1)], s5, StuckSteps(1, BUILT), s6);
    t := CancelDone(s6, 0);
    StaleSegments(c, s0, s1, s3, s4, s6, t);
    PlayedBy(c, s0, StaleSteps(), t);
  }

  lemma StaleSegments(c: Config, s0: State, s1: State, s3: State, s4: State, s6: State, t: State)
    requires s1 == CancelAsked(s0, 0) && 0 !in s0.cancels
    requires Reaches(c, s1, CreationSteps(), s3)
    requires s4 == Intended(s3, UNWANTED)
    requires Reaches(c, s4, RemovalSteps(), s6)
    requires 0 in s6.cancels && t == CancelDone(s6, 0)
    ensures Reaches(c, s0, StaleSteps(), t)
  {
    hide Play, Reaches, CancelAsked, CancelDone, Intended, CreationSteps, RemovalSteps;
    var last := [DoCancel(0)];
    ReachesNothing(c, t);
    ReachesOne(c, s6, DoCancel(0), [], t, t, last);
    ReachesBoth(c, s4, RemovalSteps(), s6, last, t);
    var late := [Intend(UNWANTED)] + (RemovalSteps() + last);
    ReachesOne(c, s3, Intend(UNWANTED), RemovalSteps() + last, s4, t, late);
    ReachesBoth(c, s1, CreationSteps(), s3, late, t);
    ReachesOne(c, s0, AskCancel(0), CreationSteps() + late, s1, t, StaleSteps());
  }
}
