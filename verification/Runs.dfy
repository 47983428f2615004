/** The protocol's guarantees over whole runs. */
module Runs {
  import opened Options
  import opened Workspace
  import opened Repository
  import opened Passes
  import opened Protocol
  import opened Fencing

  lemma GrowsReflexive(s: State)
    ensures Grows(s, s)
  {
  }

  lemma GrowsTransitive(s: State, t: State, u: State)
    requires Grows(s, t) && Grows(t, u)
    ensures Grows(s, u)
    ensures s.row.observedGeneration <= u.row.observedGeneration
  {
  }

  lemma Ahead(s: State)
    requires Inv(s)
    ensures s.row.observedGeneration <= s.row.generation
  {
  }

  lemma NewStateOk(i: Intent, world: World, now: Time)
    ensures Inv(NewState(i, world, now))
  {
  }

  /** The invariant holds in every state of every run. */
  lemma {:induction false} EveryState(c: Config, run: seq<State>, steps: seq<Step>, k: nat)
    requires IsRun(c, run, steps) && k < |run|
    ensures Inv(run[k])
  {
    hide Next, Enabled, Inv;
    if k == 0 {
      var i, world, now :| run[0] == NewState(i, world, now);
      NewStateOk(i, world, now);
    } else {
      EveryState(c, run, steps, k - 1);
      EveryStep(c, run[k - 1], steps[k - 1]);
    }
  }

  /** Along a run time, version, intents, reports and the observed generation only
      grow, and the observed generation never runs ahead of the desired one. */
  lemma {:induction false} RunsGrow(c: Config, run: seq<State>, steps: seq<Step>, i: nat, j: nat)
    requires IsRun(c, run, steps) && i <= j < |run|
    ensures Grows(run[i], run[j])
    ensures run[i].row.observedGeneration <= run[j].row.observedGeneration <= run[j].row.generation
  {
    hide Next, Enabled, Inv, Grows;
    EveryState(c, run, steps, j);
    Ahead(run[j]);
    if i < j {
      RunsGrow(c, run, steps, i, j - 1);
      EveryState(c, run, steps, j - 1);
      EveryStep(c, run[j - 1], steps[j - 1]);
      GrowsTransitive(run[i], run[j - 1], run[j]);
    } else {
      GrowsReflexive(run[i]);
    }
  }

  // ---------------------------------------------------------------------------
  // Fencing

  predicate Superseded(s: State, o: Owner) {
    o in s.passes && s.passes[o].row.version < s.row.version
  }

  /** A write of a pass lands exactly when nothing but the lease changed since the
      pass last wrote and the lease is its own; it then answers the very intent
      the row carries. */
  lemma WritesLandOnTheirIntent(c: Config, s: State, step: Step)
    requires Inv(s) && Enabled(s, step) && (step.Enter? || step.Finish?)
    ensures var w := s.passes[step.o].row; var t := Next(c, s, step);
      if s.row.leaseOwner == Some(step.o) && !Superseded(s, step.o) then
        && SameButLease(w, s.row) && SameIntent(w, t.row)
        && t.row.observedGeneration == t.row.generation
        && t.row.version == s.row.version + 1
        && t.passes[step.o].row == t.row
      else t.row == s.row && t.passes[step.o].phase.Ending?
  {
  }

  /** Nobody else touches the observation: only a landed write of a pass, a landed
      observation, or the cancellation of a failed removal changes it. */
  predicate SameObservation(r: Row, w: Row) {
    w.observed == r.observed && w.observedGeneration == r.observedGeneration && w.everReady == r.everReady
  }

  lemma OnlyWritersObserve(c: Config, s: State, step: Step)
    requires Enabled(s, step)
    requires !step.Enter? && !step.Finish? && !step.ObsWrite?
    requires step.DoCancel? ==> !s.row.RemovalFailed()
    ensures SameObservation(s.row, Next(c, s, step).row)
  {
    var t := Next(c, s, step);
    match step {
      case Claim(_) => assert SameObservation(s.row, t.row);
      case Start(_) => assert t.row == s.row;
      case Reply(_) => assert t.row == s.row;
      case DoRenew(_) => assert SameObservation(s.row, t.row);
      case Succeed(_, _) => assert t.row == s.row;
      case FailOp(_, _, _, _) => assert t.row == s.row;
      case AnswerGone(_, _, _) => assert t.row == s.row;
      case _ => assert SameObservation(s.row, t.row);
    }
  }

  predicate HasEntered(f: Phase) {
    f.Entered? || f.Deriving? || f.Operating? || f.AskingGone?
  }

  predicate ByPass(step: Step, o: Owner) {
    match step
    case Start(q) => q == o
    case Enter(q) => q == o
    case WriteError(q) => q == o
    case LoseReply(q) => q == o
    case Reply(q) => q == o
    case Derived(q) => q == o
    case AskRenew(q) => q == o
    case DoRenew(q) => q == o
    case RenewReply(q) => q == o
    case Succeed(q, _) => q == o
    case FailOp(q, _, _, _) => q == o
    case AnswerGone(q, _, _) => q == o
    case Finish(q) => q == o
    case Release(q) => q == o
    case _ => false
  }

  /** Only its own steps change a pass. */
  lemma OthersLeavePass(c: Config, s: State, step: Step, o: Owner)
    requires Enabled(s, step) && !ByPass(step, o)
    requires o in s.passes && o in Next(c, s, step).passes
    ensures Next(c, s, step).passes[o] == s.passes[o]
  {
    var t := Next(c, s, step);
    match step {
      case Claim(_) => assert t.passes[o] == s.passes[o];
      case Start(_) => assert t.passes[o] == s.passes[o];
      case Enter(_) => assert t.passes[o] == s.passes[o];
      case Reply(_) => assert t.passes[o] == s.passes[o];
      case Derived(_) => assert t.passes[o] == s.passes[o];
      case Succeed(_, _) => assert t.passes[o] == s.passes[o];
      case FailOp(_, _, _, _) => assert t.passes[o] == s.passes[o];
      case AnswerGone(_, _, _) => assert t.passes[o] == s.passes[o];
      case Finish(_) => assert t.passes[o] == s.passes[o];
      case _ => assert t.passes[o] == s.passes[o];
    }
  }

  lemma SucceededPass(s: State, o: Owner)
    requires InOperation(s, o)
    ensures var p, q := s.passes[o], Succeeded(s, o).passes[o]; q == p.(phase := q.phase)
  {
  }

  lemma FailedPass(c: Config, s: State, o: Owner, err: StepError, rnd: real)
    requires InOperation(s, o)
    ensures var p, q := s.passes[o], Failing(c, s, o, err, rnd).passes[o]; q == p.(phase := q.phase)
  {
  }

  /** A pass keeps its claim, and its row unless a write of its own landed. */
  lemma PassAfterStep(c: Config, s: State, step: Step, o: Owner)
    requires Enabled(s, step)
    requires o in s.passes && o in Next(c, s, step).passes
    ensures var p, q := s.passes[o], Next(c, s, step).passes[o];
      && q.claim == p.claim
      && (step != Enter(o) && step != Finish(o) ==> q.row == p.row && (HasEntered(q.phase) ==> HasEntered(p.phase)))
  {
    if ByPass(step, o) {
      match step {
        case Start(_) =>
        case Enter(_) =>
        case WriteError(_) =>
        case LoseReply(_) =>
        case Reply(_) =>
        case Derived(_) =>
        case AskRenew(_) =>
        case DoRenew(_) =>
        case RenewReply(_) =>
        case Succeed(_, w) => SucceededPass(s.(world := w), o);
        case FailOp(_, w, err, rnd) => FailedPass(c, s.(world := w), o, err, rnd);
        case AnswerGone(_, _, _) =>
        case Finish(_) =>
        case Release(_) =>
      }
    } else {
      OthersLeavePass(c, s, step, o);
    }
  }

  lemma FinishEnds(c: Config, s: State, o: Owner)
    requires Enabled(s, Finish(o))
    ensures Next(c, s, Finish(o)).passes[o].phase.Ending?
  {
  }

  /** Only a claim adds a pass. */
  lemma NoNewPass(c: Config, s: State, step: Step, o: Owner)
    requires Enabled(s, step) && step != Claim(o) && o !in s.passes
    ensures o !in Next(c, s, step).passes
  {
    var t := Next(c, s, step);
    match step {
      case Claim(_) => assert o !in t.passes;
      case Start(_) => assert o !in t.passes;
      case Enter(_) => assert o !in t.passes;
      case Succeed(_, _) => assert o !in t.passes;
      case FailOp(_, _, _, _) => assert o !in t.passes;
      case _ => assert o !in t.passes;
    }
  }

  lemma NewPass(c: Config, s: State, step: Step, o: Owner)
    requires Enabled(s, step) && o !in s.passes && o in Next(c, s, step).passes
    ensures var t := Next(c, s, step);
      step == Claim(o) && t.passes[o].claim == t.row.version == s.row.version + 1
      && t.passes[o].phase.Claimed?
  {
    if step != Claim(o) {
      NoNewPass(c, s, step, o);
      assert false;
    }
  }

  lemma SupersededWritesNothing(c: Config, s: State, step: Step)
    requires Enabled(s, step) && (step.Enter? || step.Finish?) && Superseded(s, step.o)
    ensures var t := Next(c, s, step);
      t.row == s.row && t.passes[step.o].row == s.passes[step.o].row
  {
  }

  lemma SupersededStep(c: Config, s: State, step: Step, o: Owner)
    requires Inv(s) && Enabled(s, step) && Superseded(s, o) && o in Next(c, s, step).passes
    ensures Superseded(Next(c, s, step), o)
    ensures Next(c, s, step).passes[o].row == s.passes[o].row
    ensures Next(c, s, step).passes[o].claim == s.passes[o].claim
  {
    EveryStep(c, s, step);
    PassAfterStep(c, s, step, o);
    if step == Enter(o) || step == Finish(o) {
      SupersededWritesNothing(c, s, step);
    }
  }

  lemma ClaimIsOld(s: State, o: Owner)
    requires Inv(s) && o in s.passes
    ensures s.passes[o].claim <= s.passes[o].row.version
  {
  }

  lemma VersionsGrow(c: Config, run: seq<State>, steps: seq<Step>, i: nat, j: nat)
    requires IsRun(c, run, steps) && i <= j < |run|
    ensures run[i].row.version <= run[j].row.version
  {
    RunsGrow(c, run, steps, i, j);
  }

  /** A superseded pass stays superseded for as long as it exists, so by
      `WritesLandOnTheirIntent` no further write of it lands. */
  lemma {:induction false} SupersededForever(c: Config, run: seq<State>, steps: seq<Step>, i: nat, j: nat, o: Owner)
    requires IsRun(c, run, steps) && i <= j < |run|
    requires Superseded(run[i], o) && o in run[j].passes
    requires run[i].passes[o].claim == run[j].passes[o].claim
    ensures Superseded(run[j], o)
    ensures run[j].passes[o].row == run[i].passes[o].row
  {
    hide Next, Enabled, Inv, Grows;
    if i < j {
      EveryState(c, run, steps, j - 1);
      if o in run[j - 1].passes {
        assert run[j - 1].passes[o].claim == run[j].passes[o].claim by {
          PassAfterStep(c, run[j - 1], steps[j - 1], o);
        }
        SupersededForever(c, run, steps, i, j - 1, o);
        SupersededStep(c, run[j - 1], steps[j - 1], o);
      } else {
        EveryState(c, run, steps, i);
        ClaimIsOld(run[i], o);
        VersionsGrow(c, run, steps, i, j - 1);
        NewPass(c, run[j - 1], steps[j - 1], o);
      }
    }
  }

  // ---------------------------------------------------------------------------
  // No backend call before the entry write

  /** Step `e` is the entry write of the pass that `o` has in state `k`, and it
      landed. */
  predicate EntersAt(run: seq<State>, steps: seq<Step>, e: nat, k: nat, o: Owner)
    requires |run| == |steps| + 1 && k < |run| && o in run[k].passes
  {
    && e < k && steps[e] == Enter(o)
    && run[e + 1].row == run[k].passes[o].row
    && run[e + 1].row.version == run[e].row.version + 1
    && run[e].row.leaseOwner == Some(o)
    && run[e + 1].row.observed == EntryState(run[e].row)
    && SameIntent(run[e].row, run[e + 1].row)
  }

  lemma EntryLands(c: Config, s: State, o: Owner)
    requires Inv(s) && Enabled(s, Enter(o)) && HasEntered(Next(c, s, Enter(o)).passes[o].phase)
    ensures var t := Next(c, s, Enter(o));
      && t.row == t.passes[o].row && t.row.version == s.row.version + 1
      && s.row.leaseOwner == Some(o) && t.row.observed == EntryState(s.row) && SameIntent(s.row, t.row)
  {
  }

  /** Whoever drives the backend has landed the version-checked transition into
      `provisioning` or `removing` before, and acts on that very row. */
  lemma {:induction false} BackendOnlyAfterEntry(c: Config, run: seq<State>, steps: seq<Step>, k: nat, o: Owner)
      returns (e: nat)
    requires IsRun(c, run, steps) && k < |run|
    requires o in run[k].passes && HasEntered(run[k].passes[o].phase)
    ensures EntersAt(run, steps, e, k, o)
  {
    hide Next, Enabled, Inv;
    var i, world, now :| run[0] == NewState(i, world, now);
    var s, step := run[k - 1], steps[k - 1];
    EveryState(c, run, steps, k - 1);
    if o !in s.passes {
      NewPass(c, s, step, o);
    }
    if step == Finish(o) {
      FinishEnds(c, s, o);
    }
    if step == Enter(o) {
      EntryLands(c, s, o);
      e := k - 1;
    } else {
      PassAfterStep(c, s, step, o);
      e := BackendOnlyAfterEntry(c, run, steps, k - 1, o);
    }
  }

  // ---------------------------------------------------------------------------
  // An absent answer is honest

  /** In step `r` the backend said that it holds no workspace. */
  predicate ReportsGone(run: seq<State>, steps: seq<Step>, r: nat)
    requires |run| == |steps| + 1 && r < |steps|
  {
    && run[r + 1].world.container.None?
    && Reporting(steps[r])
  }

  predicate Reporting(step: Step) {
    step.Succeed? || (step.AnswerGone? && step.reachable) || step.ObsLook? || step.AskCancel?
  }

  lemma OnlyReportsMoveGoneAt(c: Config, s: State, step: Step)
    requires Enabled(s, step)
    ensures var t := Next(c, s, step);
      t.goneAt == s.goneAt || (t.goneAt == s.row.generation && t.world.container.None? && Reporting(step))
  {
    var t := Next(c, s, step);
    match step {
      case Start(_) => assert t.goneAt == s.goneAt;
      case Enter(_) => assert t.goneAt == s.goneAt;
      case FailOp(_, _, _, _) => assert t.goneAt == s.goneAt;
      case Finish(_) => assert t.goneAt == s.goneAt;
      case Succeed(_, _) => assert t.goneAt == s.goneAt || t.world.container.None?;
      case _ =>
    }
  }

  lemma {:induction false} GoneAtIsAReport(c: Config, run: seq<State>, steps: seq<Step>, k: nat) returns (r: nat)
    requires IsRun(c, run, steps) && k < |run| && run[k].goneAt > 0
    ensures r < k && ReportsGone(run, steps, r) && run[r].row.generation == run[k].goneAt
  {
    var i, world, now :| run[0] == NewState(i, world, now);
    if run[k - 1].goneAt == run[k].goneAt {
      r := GoneAtIsAReport(c, run, steps, k - 1);
    } else {
      r := k - 1;
      OnlyReportsMoveGoneAt(c, run[r], steps[r]);
    }
  }

  /** Whenever a row with a requested removal reads `absent` with a caught-up
      generation, the backend reported the workspace gone after that removal was
      recorded: the generation was already the current one at the report. */
  lemma AbsentAnswersAreHonest(c: Config, run: seq<State>, steps: seq<Step>, k: nat) returns (r: nat)
    requires IsRun(c, run, steps) && k < |run|
    requires run[k].row.desired.Gone? && run[k].row.observed.Absent? && !run[k].row.Behind()
    ensures r < k && ReportsGone(run, steps, r) && run[r].row.generation == run[k].row.generation
  {
    EveryState(c, run, steps, k);
    r := GoneAtIsAReport(c, run, steps, k);
  }

  // ---------------------------------------------------------------------------
  // Data safety

  /** The backend may only lose data under a pass that tears down, that landed
      `removing` on a row whose intent is an unpreserved removal, and whose intent
      users did record. */
  lemma LossNeedsAnUnpreservedRemoval(c: Config, run: seq<State>, steps: seq<Step>, k: nat, o: Owner) returns (e: nat)
    requires IsRun(c, run, steps) && k < |run| && InOperation(run[k], o)
    requires exists w: World ::
      Partial(run[k].passes[o].phase.op, run[k].passes[o].row.preserve, run[k].world, w) && !Keeps(run[k].world, w)
    ensures run[k].passes[o].phase.op.TearingDown?
    ensures EntersAt(run, steps, e, k, o)
    ensures run[e].row.desired.Gone? && !run[e].row.preserve && run[e + 1].row.observed.Removing?
    ensures Unpreserved(run[e].intents)
  {
    e := BackendOnlyAfterEntry(c, run, steps, k, o);
    EveryState(c, run, steps, k);
    EveryState(c, run, steps, e);
    assert run[e].intents[run[e].row.generation - 1].desired.Gone?;
  }

  /** In step `r` the inspection of the pass that `o` has in state `k` found a
      container built from another image, on the very row the pass acts on. */
  predicate InspectedStale(run: seq<State>, steps: seq<Step>, r: nat, k: nat, o: Owner)
    requires |run| == |steps| + 1 && k < |run| && o in run[k].passes
  {
    && r < k && steps[r].Succeed? && steps[r].o == o && InOperation(run[r], o)
    && run[r].passes[o].phase.op.Inspecting?
    && run[r].passes[o].row == run[k].passes[o].row && run[r].passes[o].claim == run[k].passes[o].claim
    && Stale(run[k].passes[o].row, steps[r].world.Inspect())
  }

  predicate InReplacement(s: State, o: Owner) {
    InOperation(s, o) && s.passes[o].phase.op.Replacing?
  }

  lemma FailingLeavesReplacement(c: Config, s: State, o: Owner, err: StepError, rnd: real)
    requires InOperation(s, o)
    ensures !Failing(c, s, o, err, rnd).passes[o].phase.Operating?
  {
  }

  /** Only an inspection that found another image leads into a replacement. */
  lemma ReplacementBegins(c: Config, s: State, step: Step, o: Owner)
    requires Enabled(s, step) && o in s.passes && InReplacement(Next(c, s, step), o) && !InReplacement(s, o)
    ensures step.Succeed? && step.o == o && InOperation(s, o) && s.passes[o].phase.op.Inspecting?
    ensures Stale(s.passes[o].row, step.world.Inspect())
  {
    if ByPass(step, o) {
      match step {
        case Start(_) =>
        case Enter(_) =>
        case Reply(_) =>
        case Derived(_) =>
        case Succeed(_, w) => SucceededPass(s.(world := w), o);
        case FailOp(_, w, err, rnd) => FailingLeavesReplacement(c, s.(world := w), o, err, rnd);
        case AnswerGone(_, _, _) =>
        case Finish(_) =>
        case _ =>
      }
    } else {
      OthersLeavePass(c, s, step, o);
    }
  }

  /** Whoever replaces a container has seen that it was built from another image
      than the one requested, on the very row of a workspace that was never ready. */
  lemma {:induction false} ReplacingWasStale(c: Config, run: seq<State>, steps: seq<Step>, k: nat, o: Owner) returns (r: nat)
    requires IsRun(c, run, steps) && k < |run| && InReplacement(run[k], o)
    ensures InspectedStale(run, steps, r, k, o)
    ensures !run[k].passes[o].row.everReady && run[k].passes[o].row.image != ""
  {
    hide Next, Enabled, Inv, Stale;
    var i, world, now :| run[0] == NewState(i, world, now);
    var s, step := run[k - 1], steps[k - 1];
    EveryState(c, run, steps, k);
    assert MayReplace(run[k].passes[o].row) by { ReplacesNeverReady(run[k], o); }
    if o !in s.passes {
      NewPass(c, s, step, o);
    }
    if step == Finish(o) {
      FinishEnds(c, s, o);
    }
    if step == Enter(o) {
      EnterIsNoOperation(c, s, o);
    }
    PassAfterStep(c, s, step, o);
    if InReplacement(s, o) {
      r := ReplacingWasStale(c, run, steps, k - 1, o);
    } else {
      ReplacementBegins(c, s, step, o);
      r := k - 1;
    }
  }

  /** What a pass other than a teardown does to the world keeps all data, whether it
      completes or is interrupted; and if it may remove the container to replace it,
      it had seen the other image. */
  lemma ReplacementIsPreserving(c: Config, run: seq<State>, steps: seq<Step>, k: nat, o: Owner)
    requires IsRun(c, run, steps) && k < |steps| && InOperation(run[k], o)
    requires steps[k].Act? || steps[k].Succeed? || steps[k].FailOp?
    requires steps[k].o == o && !run[k].passes[o].phase.op.TearingDown?
    ensures Keeps(run[k].world, run[k + 1].world)
    ensures InReplacement(run[k], o) ==> exists r :: InspectedStale(run, steps, r, k, o)
    ensures run[k].passes[o].phase.op.Inspecting? ==> run[k + 1].world == run[k].world
  {
    hide IsRun;
    WorldAfter(c, run, steps, k);
    if InReplacement(run[k], o) {
      var r := ReplacingWasStale(c, run, steps, k, o);
    }
  }

  lemma WorldAfter(c: Config, run: seq<State>, steps: seq<Step>, k: nat)
    requires IsRun(c, run, steps) && k < |steps| && (steps[k].Act? || steps[k].Succeed? || steps[k].FailOp?)
    ensures |run| == |steps| + 1 && Enabled(run[k], steps[k]) && run[k + 1].world == steps[k].world
  {
    SameWorld(c, run[k], steps[k]);
  }

  lemma SameWorld(c: Config, s: State, step: Step)
    requires Enabled(s, step) && (step.Act? || step.Succeed? || step.FailOp?)
    ensures Next(c, s, step).world == step.world
  {
  }

  lemma ReplacesNeverReady(s: State, o: Owner)
    requires Inv(s) && InReplacement(s, o)
    ensures MayReplace(s.passes[o].row)
  {
    assert PassOk(s, s.passes[o]);
  }

  lemma EnterIsNoOperation(c: Config, s: State, o: Owner)
    requires Enabled(s, Enter(o))
    ensures !Next(c, s, Enter(o)).passes[o].phase.Operating?
  {
  }

  /** Everything users ever stored is in the container or in the archive, unless
      an unpreserved removal was requested or something outside deleted it. */
  lemma DataSurvives(c: Config, run: seq<State>, steps: seq<Step>, k: nat)
    requires IsRun(c, run, steps) && k < |run|
    requires !Unpreserved(run[k].intents) && !run[k].vanished
    ensures run[k].written <= run[k].world.Data()
  {
    EveryState(c, run, steps, k);
  }
}
