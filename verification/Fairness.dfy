/** Whole, endless runs: if disturbances cease, time goes on, no pass stands still and
    no due row is overlooked for ever, the intent is answered for good, be it that the
    workspace is wanted or that it is to be removed. */
module Fairness {
  import opened Options
  import opened Workspace
  import opened Repository
  import opened Passes
  import opened Protocol
  import opened Fencing
  import opened Runs
  import opened Convergence
  import opened Lease
  import opened Scenarios
  import opened Progress

  type Run = nat -> State

  type Steps = nat -> Step

  ghost predicate Endless(c: Config, run: Run, steps: Steps) {
    && (exists i, world, now :: run(0) == NewState(i, world, now))
    && forall k: nat :: Enabled(run(k), steps(k)) && run(k + 1) == Next(c, run(k), steps(k))
  }

  // ---------------------------------------------------------------------------
  // What a fair run is

  /** An outcome lands that leaves nothing to do. */
  predicate Concludes(s: State, step: Step) {
    && step.Finish? && Lands(s, step) && s.passes[step.o].phase.Finishing?
    && !Written(s.row, s.passes[step.o].phase.write).Pending()
  }

  /** A pass ends here without having answered the intent: crashed, cut off from the
      database, superseded, or with a failure of the backend that is to be retried. */
  predicate SetsBack(s: State, step: Step) {
    match step
    case LoseClaim(_) => true
    case Crash(o) => o in s.passes && Live(s.passes[o])
    case WriteError(_) => true
    case LoseReply(_) => true
    case Enter(_) => !Lands(s, step)
    case Finish(_) => !Concludes(s, step)
    case _ => false
  }

  /** No new intent and no setback.  Answered rows are observed at will, as long as no
      observation records work to do. */
  predicate Undisturbed(s: State, step: Step, t: State) {
    && !step.Intend? && !step.DoCancel? && !SetsBack(s, step)
    && (step.ObsClaim? ==> !s.row.Pending())
    && (step.ObsWrite? ==> t.row == s.row || (!s.row.Pending() && !t.row.Pending()))
  }

  predicate UndisturbedAt(run: Run, steps: Steps, k: nat) {
    Undisturbed(run(k), steps(k), run(k + 1))
  }

  ghost predicate UndisturbedFrom(run: Run, steps: Steps, n: nat) {
    forall k: nat :: k >= n ==> UndisturbedAt(run, steps, k)
  }

  predicate Reached(run: Run, k: nat, t: Time) {
    run(k).now >= t
  }

  ghost predicate TimeReaches(run: Run, t: Time) {
    exists k: nat :: Reached(run, k, t)
  }

  ghost predicate TimeGoesOn(run: Run) {
    forall t: Time :: TimeReaches(run, t)
  }

  /** A step with which a pass gets on, as opposed to renewing its lease. */
  predicate GetsOn(step: Step, o: Owner) {
    match step
    case Start(q) => q == o
    case Enter(q) => q == o
    case Reply(q) => q == o
    case Derived(q) => q == o
    case Succeed(q, _) => q == o
    case FailOp(q, _, _, _) => q == o
    case AnswerGone(q, _, _) => q == o
    case Finish(q) => q == o
    case Release(q) => q == o
    case Unmark(q) => q == o
    case _ => false
  }

  predicate Attended(run: Run, steps: Steps, o: Owner, j: nat) {
    GetsOn(steps(j), o) || o !in run(j).passes
  }

  /** No pass stands still for ever. */
  ghost predicate PassesGetOn(run: Run, steps: Steps) {
    forall o: Owner, k: nat :: o in run(k).passes ==> exists j: nat :: j >= k && Attended(run, steps, o, j)
  }

  ghost predicate AlwaysDue(run: Run, k: nat) {
    forall j: nat :: j >= k ==> run(j).row.Due(run(j).now)
  }

  /** No row is due for ever without a claim. */
  ghost predicate DueIsClaimed(run: Run, steps: Steps) {
    forall k: nat :: AlwaysDue(run, k) ==> exists j: nat :: j >= k && steps(j).Claim?
  }

  ghost predicate Fair(c: Config, run: Run, steps: Steps, n: nat) {
    && Endless(c, run, steps) && UndisturbedFrom(run, steps, n)
    && TimeGoesOn(run) && PassesGetOn(run, steps) && DueIsClaimed(run, steps)
  }

  // ---------------------------------------------------------------------------
  // The rank of a pass

  /** How far a pass is from its end; at least 2 as long as it may still write. */
  function Rank(p: Pass): nat {
    match p.phase
    case Claimed(_) => 9
    case Entering(_, _) => 8
    case Entered(_) => 7
    case Deriving(_) => 6
    case Operating(op, _, _) =>
      (match op
       case Inspecting => 5
       case Replacing => 4
       case TearingDown => 4
       case Starting => 3)
    case AskingGone(_) => 3
    case Finishing(_) => 2
    case Ending => 1
    case Released => 0
  }

  lemma RankOfLive(p: Pass)
    ensures Live(p) <==> Rank(p) >= 2
  {
  }

  /** A pass always has a step with which to get on. */
  lemma CanGetOn(s: State, o: Owner) returns (step: Step)
    requires o in s.passes
    ensures Enabled(s, step) && GetsOn(step, o)
  {
    var err := StepError("", false, "");
    match s.passes[o].phase {
      case Claimed(_) => step := Start(o);
      case Entering(_, _) => step := Enter(o);
      case Entered(_) => step := Reply(o);
      case Deriving(_) => step := Derived(o);
      case Operating(_, _, _) => step := FailOp(o, s.world, err, 0.0);
      case AskingGone(_) => step := AnswerGone(o, false, 0.0);
      case Finishing(_) => step := Finish(o);
      case Ending => step := Release(o);
      case Released => step := Unmark(o);
    }
  }

  lemma ConclusionsAreSuccesses(c: Config, s: State, step: Step)
    requires Inv(s) && AllBusy(s) && Enabled(s, step) && s.row.desired.Present?
    ensures Concludes(s, step) <==> SuccessLands(s, step)
  {
    if Lands(s, step) {
      LandedWork(c, s, step);
    }
  }

  /** For a wanted workspace these are the setbacks that the account of claims counts. */
  lemma SetbacksAreThose(c: Config, s: State, step: Step)
    requires Inv(s) && AllBusy(s) && Enabled(s, step) && s.row.desired.Present?
    ensures SetsBack(s, step) <==> Setback(s, step)
  {
    hide Inv, AllBusy, Enabled, Concludes, SuccessLands;
    ConclusionsAreSuccesses(c, s, step);
  }

  /** A pass that neither concludes nor is set back does not end. */
  lemma GoesOn(s: State, step: Step)
    requires Enabled(s, step) && !SetsBack(s, step) && !Concludes(s, step)
    ensures !Ends(s, step)
  {
  }

  lemma DatabaseFalls(c: Config, s: State, step: Step, o: Owner)
    requires Enabled(s, step) && GetsOn(step, o) && o in s.passes && !SetsBack(s, step) && !Concludes(s, step)
    requires step.Start? || step.Enter? || step.Finish? || step.Release? || step.Unmark?
    ensures var t := Next(c, s, step); o in t.passes ==> Rank(t.passes[o]) < Rank(s.passes[o])
  {
  }

  lemma BackendFalls(c: Config, s: State, step: Step, o: Owner)
    requires Enabled(s, step) && GetsOn(step, o) && o in s.passes
    requires step.Succeed? || step.FailOp?
    ensures var t := Next(c, s, step); o in t.passes ==> Rank(t.passes[o]) < Rank(s.passes[o])
  {
  }

  lemma ReplyFalls(c: Config, s: State, step: Step, o: Owner)
    requires Enabled(s, step) && GetsOn(step, o) && o in s.passes
    requires step.Reply? || step.Derived? || step.AnswerGone?
    ensures var t := Next(c, s, step); o in t.passes ==> Rank(t.passes[o]) < Rank(s.passes[o])
  {
  }

  /** Getting on lowers the rank, unless the work is done with this step. */
  lemma RankFalls(c: Config, s: State, step: Step, o: Owner)
    requires Enabled(s, step) && GetsOn(step, o) && o in s.passes && !SetsBack(s, step)
    ensures Concludes(s, step) || (var t := Next(c, s, step); o in t.passes ==> Rank(t.passes[o]) < Rank(s.passes[o]))
  {
    hide Enabled, Next, SetsBack, Concludes;
    if !Concludes(s, step) {
      match step {
        case Succeed(_, _) | FailOp(_, _, _, _) => BackendFalls(c, s, step, o);
        case Reply(_) | Derived(_) | AnswerGone(_, _, _) => ReplyFalls(c, s, step, o);
        case _ => DatabaseFalls(c, s, step, o);
      }
    }
  }

  /** Every other step leaves it, and takes no live pass away. */
  lemma RankStays(c: Config, s: State, step: Step, o: Owner)
    requires Inv(s) && Enabled(s, step) && !GetsOn(step, o) && o in s.passes && !SetsBack(s, step)
    ensures var t := Next(c, s, step);
      && (o in t.passes ==> Rank(t.passes[o]) == Rank(s.passes[o]))
      && (Live(s.passes[o]) ==> o in t.passes)
  {
    hide Next, Inv;
    if ByPass(step, o) {
      RenewalKeepsRank(c, s, step, o);
    } else if o in Next(c, s, step).passes {
      OthersLeavePass(c, s, step, o);
    } else {
      NobodyElseDrops(c, s, step, o);
    }
  }

  lemma RenewalKeepsRank(c: Config, s: State, step: Step, o: Owner)
    requires Enabled(s, step) && ByPass(step, o) && !GetsOn(step, o) && o in s.passes && !SetsBack(s, step)
    ensures var t := Next(c, s, step);
      && (o in t.passes ==> Rank(t.passes[o]) == Rank(s.passes[o]))
      && (Live(s.passes[o]) ==> o in t.passes)
  {
  }

  lemma NobodyElseDrops(c: Config, s: State, step: Step, o: Owner)
    requires Enabled(s, step) && !ByPass(step, o) && !GetsOn(step, o) && o in s.passes && !SetsBack(s, step)
    requires o !in Next(c, s, step).passes
    ensures !Live(s.passes[o])
  {
    if step != Crash(o) && step != LoseClaim(o) && step != Unmark(o) {
      Kept(c, s, step, o);
    }
  }

  lemma Kept(c: Config, s: State, step: Step, o: Owner)
    requires Enabled(s, step) && o in s.passes && step != Crash(o) && step != LoseClaim(o) && step != Unmark(o)
    ensures o in Next(c, s, step).passes
  {
    hide Next;
    if OfBackend(step) {
      BackendKeepsPass(c, s, step, o);
    } else if !OfDatabase(step) {
      OthersKeepPass(c, s, step, o);
    } else {
      DatabaseKeeps(c, s, step, o);
    }
  }

  lemma DatabaseKeeps(c: Config, s: State, step: Step, o: Owner)
    requires Enabled(s, step) && o in s.passes && OfDatabase(step)
    ensures o in Next(c, s, step).passes
  {
  }

  // ---------------------------------------------------------------------------
  // Facts about every state of the run

  function StatesTo(run: Run, k: nat): seq<State> {
    seq(k + 1, i requires 0 <= i <= k => run(i))
  }

  function StepsTo(steps: Steps, k: nat): seq<Step> {
    seq(k, i requires 0 <= i < k => steps(i))
  }

  lemma Holds(c: Config, run: Run, steps: Steps, k: nat)
    requires Endless(c, run, steps)
    ensures Inv(run(k)) && AllBusy(run(k))
  {
    hide Next, Enabled, Inv, AllBusy;
    assert IsRun(c, StatesTo(run, k), StepsTo(steps, k));
    EveryState(c, StatesTo(run, k), StepsTo(steps, k), k);
    EveryStateBusy(c, StatesTo(run, k), StepsTo(steps, k), k);
  }

  lemma StepAt(c: Config, run: Run, steps: Steps, n: nat, k: nat)
    requires Endless(c, run, steps) && UndisturbedFrom(run, steps, n) && k >= n
    ensures Enabled(run(k), steps(k)) && run(k + 1) == Next(c, run(k), steps(k))
    ensures Inv(run(k)) && AllBusy(run(k)) && Undisturbed(run(k), steps(k), run(k + 1))
  {
    hide Next, Enabled, Inv, AllBusy, Undisturbed;
    Holds(c, run, steps, k);
    assert UndisturbedAt(run, steps, k);
  }

  /** What is wanted stays wanted, and what is answered stays answered. */
  lemma UndisturbedStep(c: Config, s: State, step: Step)
    requires Inv(s) && AllBusy(s) && Enabled(s, step) && Undisturbed(s, step, Next(c, s, step))
    ensures var t := Next(c, s, step);
      && t.row.desired == s.row.desired && t.row.generation == s.row.generation
      && (Concludes(s, step) ==> !t.row.Pending())
      && (!s.row.Pending() ==> !t.row.Pending() && !Begins(s, step))
  {
    hide Inv, AllBusy;
    if Lands(s, step) {
      LandedFindsWork(c, s, step);
      WritesLandOnTheirIntent(c, s, step);
    } else if Quiet(step) {
      UnlandedKeepsWork(c, s, step);
    }
  }

  lemma {:induction false} IntentStays(c: Config, run: Run, steps: Steps, n: nat, k: nat)
    requires Endless(c, run, steps) && UndisturbedFrom(run, steps, n) && k >= n
    ensures run(k).row.desired == run(n).row.desired && run(k).row.generation == run(n).row.generation
    decreases k - n
  {
    hide Next, Enabled, Inv, AllBusy, Undisturbed;
    if k > n {
      IntentStays(c, run, steps, n, k - 1);
      StepAt(c, run, steps, n, k - 1);
      UndisturbedStep(c, run(k - 1), steps(k - 1));
      assert run(k - 1 + 1) == run(k);
    }
  }

  // ---------------------------------------------------------------------------
  // A pass comes to its end

  /** From `k` on, up to `j` where the pass is served, it keeps its rank until it gets
      on or is gone. */
  lemma {:induction false} UntilItGetsOn(c: Config, run: Run, steps: Steps, n: nat, k: nat, o: Owner, j: nat) returns (m: nat)
    requires Endless(c, run, steps) && UndisturbedFrom(run, steps, n)
    requires n <= k <= j && o in run(k).passes && Attended(run, steps, o, j)
    ensures m >= k
    ensures o in run(m).passes ==> Rank(run(m).passes[o]) == Rank(run(k).passes[o]) && GetsOn(steps(m), o)
    ensures Live(run(k).passes[o]) ==> o in run(m).passes
    decreases j - k
  {
    hide Next, Enabled, Inv, AllBusy, SetsBack, Rank, UndisturbedFrom;
    m := k;
    if !GetsOn(steps(k), o) && k < j {
      StepAt(c, run, steps, n, k);
      RankStays(c, run(k), steps(k), o);
      if o in run(k + 1).passes {
        RankOfLive(run(k).passes[o]);
        RankOfLive(run(k + 1).passes[o]);
        m := UntilItGetsOn(c, run, steps, n, k + 1, o, j);
      } else {
        m := k + 1;
      }
    }
  }

  /** A pass that may still write leads to an answered intent, any other leaves. */
  lemma {:induction false} PassEnds(c: Config, run: Run, steps: Steps, n: nat, k: nat, o: Owner) returns (j: nat)
    requires Endless(c, run, steps) && UndisturbedFrom(run, steps, n) && PassesGetOn(run, steps)
    requires n <= k && o in run(k).passes
    ensures j >= k && (!run(j).row.Pending() || o !in run(j).passes)
    ensures Live(run(k).passes[o]) ==> !run(j).row.Pending()
    decreases Rank(run(k).passes[o])
  {
    hide Next, Enabled, Inv, AllBusy, SetsBack, Concludes, Rank, Attended, UndisturbedFrom;
    var i: nat :| i >= k && Attended(run, steps, o, i);
    var m := UntilItGetsOn(c, run, steps, n, k, o, i);
    j := m;
    if o in run(m).passes {
      StepAt(c, run, steps, n, m);
      RankFalls(c, run(m), steps(m), o);
      j := m + 1;
      if Concludes(run(m), steps(m)) {
        UndisturbedStep(c, run(m), steps(m));
      } else {
        GoesOn(run(m), steps(m));
        LivenessAfter(c, run(m), steps(m), o);
        RankOfLive(run(k).passes[o]);
        RankOfLive(run(m).passes[o]);
        if o in run(m + 1).passes {
          j := PassEnds(c, run, steps, n, m + 1, o);
        }
      }
    }
  }

  // ---------------------------------------------------------------------------
  // Answered intents stay answered, others are claimed

  lemma {:induction false} AnsweredForever(c: Config, run: Run, steps: Steps, n: nat, k: nat, j: nat)
    requires Endless(c, run, steps) && UndisturbedFrom(run, steps, n) && n <= k <= j && !run(k).row.Pending()
    ensures !run(j).row.Pending()
    decreases j - k
  {
    hide Next, Enabled, Inv, AllBusy, Undisturbed, UndisturbedFrom;
    if k < j {
      AnsweredForever(c, run, steps, n, k, j - 1);
      StepAt(c, run, steps, n, j - 1);
      UndisturbedStep(c, run(j - 1), steps(j - 1));
      assert run(j - 1 + 1) == run(j);
    }
  }

  /** The intent is never answered from here on. */
  ghost predicate NeverAnswered(run: Run, n: nat) {
    forall k: nat :: k >= n ==> run(k).row.Pending()
  }

  lemma NeverLive(c: Config, run: Run, steps: Steps, n: nat, k: nat, o: Owner)
    requires Fair(c, run, steps, n) && NeverAnswered(run, n) && k >= n
    ensures !LiveIn(run(k), o)
  {
    hide Endless, UndisturbedFrom, PassesGetOn, TimeGoesOn, DueIsClaimed;
    if LiveIn(run(k), o) {
      var _ := PassEnds(c, run, steps, n, k, o);
    }
  }

  /** Without live passes none is begun. */
  lemma NoneBegins(c: Config, run: Run, steps: Steps, n: nat, k: nat)
    requires Fair(c, run, steps, n) && NeverAnswered(run, n) && k >= n
    ensures !Begins(run(k), steps(k)) && run(k + 1).passes.Keys <= run(k).passes.Keys
  {
    hide Next, Enabled, Inv, AllBusy, SetsBack, TimeGoesOn, PassesGetOn, DueIsClaimed;
    StepAt(c, run, steps, n, k);
    if Begins(run(k), steps(k)) {
      NeverLive(c, run, steps, n, k + 1, steps(k).o);
      GoesOn(run(k), steps(k));
      LivenessAfter(c, run(k), steps(k), steps(k).o);
    }
    forall q | q in run(k + 1).passes ensures q in run(k).passes {
      if q !in run(k).passes {
        NewPass(c, run(k), steps(k), q);
      }
    }
  }

  lemma {:induction false} OnlyFewerPasses(c: Config, run: Run, steps: Steps, n: nat, k: nat, j: nat)
    requires Fair(c, run, steps, n) && NeverAnswered(run, n) && n <= k <= j
    ensures run(j).passes.Keys <= run(k).passes.Keys
    decreases j - k
  {
    hide Fair;
    if k < j {
      OnlyFewerPasses(c, run, steps, n, k, j - 1);
      NoneBegins(c, run, steps, n, j - 1);
    }
  }

  /** All passes leave in the end. */
  lemma {:induction false} PassesDrain(c: Config, run: Run, steps: Steps, n: nat, k: nat) returns (j: nat)
    requires Fair(c, run, steps, n) && NeverAnswered(run, n) && k >= n
    ensures j >= k && run(j).passes == map[]
    decreases |run(k).passes.Keys|
  {
    hide Endless, UndisturbedFrom, PassesGetOn, TimeGoesOn, DueIsClaimed;
    j := k;
    if run(k).passes != map[] {
      var o :| o in run(k).passes;
      var m := PassEnds(c, run, steps, n, k, o);
      OnlyFewerPasses(c, run, steps, n, k, m);
      assert o in run(k).passes.Keys && o !in run(m).passes.Keys;
      FewerKeys(run(m).passes.Keys, run(k).passes.Keys, o);
      j := PassesDrain(c, run, steps, n, m);
    }
  }

  lemma {:induction false} FewerKeys(a: set<Owner>, b: set<Owner>, o: Owner)
    requires a <= b && o in b && o !in a
    ensures |a| < |b|
  {
    if a == {} {
      assert b != {};
    } else {
      var x :| x in a;
      FewerKeys(a - {x}, b - {x}, o);
    }
  }

  /** With no pass at work and no new one, a step can do no more to the row than give up
      its lease. */
  lemma IdleStep(c: Config, s: State, step: Step)
    requires Enabled(s, step) && Undisturbed(s, step, Next(c, s, step))
    requires s.row.Pending() && s.passes == map[] && !Begins(s, step)
    ensures var t := Next(c, s, step);
      SameWork(s.row, t.row) && (t.row.leaseUntil == s.row.leaseUntil || t.row.leaseUntil.None?) && s.now <= t.now
  {
  }

  lemma {:induction false} RowWaits(c: Config, run: Run, steps: Steps, n: nat, e: nat, j: nat)
    requires Fair(c, run, steps, n) && NeverAnswered(run, n) && n <= e <= j && run(e).passes == map[]
    ensures run(j).passes == map[] && SameWork(run(e).row, run(j).row) && run(e).now <= run(j).now
    ensures run(j).row.leaseUntil == run(e).row.leaseUntil || run(j).row.leaseUntil.None?
    decreases j - e
  {
    hide Next, Enabled, Inv, AllBusy, SetsBack, TimeGoesOn, PassesGetOn, DueIsClaimed;
    if e < j {
      RowWaits(c, run, steps, n, e, j - 1);
      StepAt(c, run, steps, n, j - 1);
      NoneBegins(c, run, steps, n, j - 1);
      IdleStep(c, run(j - 1), steps(j - 1));
    }
  }

  lemma TimeStays(c: Config, run: Run, steps: Steps, n: nat, e: nat, k: nat, j: nat)
    requires Fair(c, run, steps, n) && NeverAnswered(run, n) && n <= e <= k <= j && run(e).passes == map[]
    ensures run(k).now <= run(j).now
  {
    RowWaits(c, run, steps, n, e, k);
    RowWaits(c, run, steps, n, k, j);
  }

  /** So the row, once no pass is left, is due from some moment on. */
  lemma DueFromSomeMoment(c: Config, run: Run, steps: Steps, n: nat, e: nat) returns (m: nat)
    requires Fair(c, run, steps, n) && NeverAnswered(run, n) && e >= n && run(e).passes == map[]
    ensures m >= e && AlwaysDue(run, m)
  {
    hide Endless, UndisturbedFrom, PassesGetOn, DueIsClaimed;
    assert TimeReaches(run, DueFrom(run(e).row));
    var t: nat :| Reached(run, t, DueFrom(run(e).row));
    m := if t < e then e else t;
    if t < e { EarlierTime(c, run, steps, n, t, e); }
    forall j: nat | j >= m ensures run(j).row.Due(run(j).now) {
      RowWaits(c, run, steps, n, e, j);
      TimeStays(c, run, steps, n, e, m, j);
      DueInTheEnd(run(j).row, run(j).now);
    }
  }

  lemma {:induction false} EarlierTime(c: Config, run: Run, steps: Steps, n: nat, t: nat, e: nat)
    requires Endless(c, run, steps) && t <= e
    ensures run(t).now <= run(e).now
    decreases e - t
  {
    hide Next, Enabled, Inv, AllBusy;
    if t < e {
      EarlierTime(c, run, steps, n, t, e - 1);
      Holds(c, run, steps, e - 1);
      EveryStep(c, run(e - 1), steps(e - 1));
      assert run(e - 1 + 1) == Next(c, run(e - 1), steps(e - 1));
    }
  }

  /** A fair run does answer the intent. */
  lemma SomethingIsAnswered(c: Config, run: Run, steps: Steps, n: nat)
    requires Fair(c, run, steps, n)
    ensures exists k: nat :: k >= n && !run(k).row.Pending()
  {
    hide Endless, UndisturbedFrom, PassesGetOn, TimeGoesOn;
    if NeverAnswered(run, n) {
      var e := PassesDrain(c, run, steps, n, n);
      var m := DueFromSomeMoment(c, run, steps, n, e);
      var j: nat :| j >= m && steps(j).Claim?;
      RowWaits(c, run, steps, n, e, j);
      NoneBegins(c, run, steps, n, j);
    }
  }

  /** The workspace is there, and no pass has anything to do. */
  predicate SettledAt(w: Row) {
    Done(w) && w.Settled() && Decide(w).NoAction? && !w.Pending()
  }

  ghost predicate SettledFrom(run: Run, k: nat) {
    forall j: nat :: j >= k ==> SettledAt(run(j).row)
  }

  /** Convergence.  On every fair run, whatever went on before the disturbances ceased,
      there is a moment from which a wanted workspace is settled with nothing left to
      do. */
  lemma FairRunsSettle(c: Config, run: Run, steps: Steps, n: nat)
    requires Fair(c, run, steps, n) && run(n).row.desired.Present?
    ensures exists k: nat :: k >= n && SettledFrom(run, k)
  {
    hide Endless, UndisturbedFrom, PassesGetOn, TimeGoesOn, DueIsClaimed;
    SomethingIsAnswered(c, run, steps, n);
    var k: nat :| k >= n && !run(k).row.Pending();
    forall j: nat | j >= k ensures SettledAt(run(j).row) {
      AnsweredForever(c, run, steps, n, k, j);
      IntentStays(c, run, steps, n, j);
      PendingIffSomethingToDo(run(j).row);
    }
    assert SettledFrom(run, k);
  }

  /** The removal is over: the workspace is gone, as the backend reported under this
      very intent, or the user is told that it could not be removed. */
  predicate RemovedAt(c: Config, s: State) {
    && s.row.desired.Gone? && s.row.Final(c.maxAttempts) && !s.row.Pending()
    && (s.row.RemovalFailed() || (s.row.observed.Absent? && Decide(s.row).NoAction? && s.goneAt == s.row.generation))
  }

  ghost predicate RemovedFrom(c: Config, run: Run, k: nat) {
    forall j: nat :: j >= k ==> RemovedAt(c, run(j))
  }

  /** A requested removal comes to its end on every fair run. */
  lemma FairRemovalsSettle(c: Config, run: Run, steps: Steps, n: nat)
    requires Fair(c, run, steps, n) && run(n).row.desired.Gone?
    ensures exists k: nat :: k >= n && RemovedFrom(c, run, k)
  {
    hide UndisturbedFrom, PassesGetOn, TimeGoesOn, DueIsClaimed;
    SomethingIsAnswered(c, run, steps, n);
    var k: nat :| k >= n && !run(k).row.Pending();
    forall j: nat | j >= k ensures RemovedAt(c, run(j)) {
      AnsweredForever(c, run, steps, n, k, j);
      IntentStays(c, run, steps, n, j);
      RemovalIsOver(c, run, steps, j);
    }
    assert RemovedFrom(c, run, k);
  }

  lemma RemovalIsOver(c: Config, run: Run, steps: Steps, j: nat)
    requires Endless(c, run, steps) && run(j).row.desired.Gone? && !run(j).row.Pending()
    ensures RemovedAt(c, run(j))
  {
    hide Next, Enabled;
    assert IsRun(c, StatesTo(run, j), StepsTo(steps, j));
    EveryState(c, StatesTo(run, j), StepsTo(steps, j), j);
    FailedRemovalsAreFinal(c, StatesTo(run, j), StepsTo(steps, j), j);
  }

  // ---------------------------------------------------------------------------
  // Such runs exist

  /** The state after `k` steps: `steps` one after another, then those of `tail`. */
  function Trail(c: Config, s: State, steps: seq<Step>, tail: Run, k: nat): State
    decreases k
  {
    if steps == [] then tail(k)
    else if k == 0 then s
    else if Enabled(s, steps[0]) then Trail(c, Next(c, s, steps[0]), steps[1..], tail, k - 1)
    else s
  }

  function StepOn(steps: seq<Step>, on: Steps, k: nat): Step {
    if k < |steps| then steps[k] else on(k - |steps|)
  }

  function RunOf(c: Config, s: State, steps: seq<Step>, tail: Run): Run {
    (k: nat) => Trail(c, s, steps, tail, k)
  }

  function StepsOf(steps: seq<Step>, on: Steps): Steps {
    (k: nat) => StepOn(steps, on, k)
  }

  predicate CalmStep(c: Config, s: State, step: Step, t: State) {
    && Enabled(s, step) && t == Next(c, s, step) && Undisturbed(s, step, t)
    && s.passes == map[] && !s.row.Pending()
  }

  predicate CalmAt(c: Config, tail: Run, on: Steps, j: nat) {
    CalmStep(c, tail(j), on(j), tail(j + 1))
  }

  /** From `t` on, without passes and work, steps that disturb nobody, for ever. */
  ghost predicate Calm(c: Config, t: State, tail: Run, on: Steps) {
    && tail(0) == t && TimeGoesOn(tail)
    && forall j: nat :: CalmAt(c, tail, on, j)
  }

  lemma {:induction false} TrailSteps(c: Config, s: State, steps: seq<Step>, t: State, tail: Run, on: Steps, k: nat)
    requires Play(c, s, steps) == Some(t) && Calm(c, t, tail, on)
    ensures var u, v := Trail(c, s, steps, tail, k), Trail(c, s, steps, tail, k + 1);
      Enabled(u, StepOn(steps, on, k)) && v == Next(c, u, StepOn(steps, on, k))
    ensures k >= |steps| ==> Trail(c, s, steps, tail, k) == tail(k - |steps|)
    decreases k
  {
    hide Enabled, Next, Undisturbed;
    if steps == [] {
      assert CalmAt(c, tail, on, k);
    } else if k > 0 {
      TrailSteps(c, Next(c, s, steps[0]), steps[1..], t, tail, on, k - 1);
      assert StepOn(steps, on, k) == StepOn(steps[1..], on, k - 1);
    } else {
      Beginning(c, Next(c, s, steps[0]), steps[1..], t, tail, on);
    }
  }

  lemma Beginning(c: Config, s: State, steps: seq<Step>, t: State, tail: Run, on: Steps)
    requires Play(c, s, steps) == Some(t) && Calm(c, t, tail, on)
    ensures Trail(c, s, steps, tail, 0) == s
  {
  }

  ghost predicate IdleFrom(run: Run, steps: Steps, n: nat) {
    forall k: nat :: k >= n ==> UndisturbedAt(run, steps, k) && run(k).passes == map[] && !run(k).row.Pending()
  }

  lemma IdleIsFair(c: Config, run: Run, steps: Steps, n: nat)
    requires Endless(c, run, steps) && IdleFrom(run, steps, n) && TimeGoesOn(run)
    ensures Fair(c, run, steps, n)
  {
    hide Endless, UndisturbedAt, TimeGoesOn;
    forall o: Owner, k: nat | o in run(k).passes ensures exists j: nat :: j >= k && Attended(run, steps, o, j) {
      var j := if k < n then n else k;
      assert Attended(run, steps, o, j);
    }
    forall k: nat ensures !AlwaysDue(run, k) {
      var j := if k < n then n else k;
      assert !run(j).row.Due(run(j).now);
    }
  }

  /** Any scenario that ends without passes and work goes on as a fair run, with
      whatever disturbs nobody. */
  lemma GoesOnFairly(c: Config, i: Intent, world: World, steps: seq<Step>, t: State, tail: Run, on: Steps)
    requires Play(c, NewState(i, world, 0), steps) == Some(t) && Calm(c, t, tail, on)
    ensures Fair(c, RunOf(c, NewState(i, world, 0), steps, tail), StepsOf(steps, on), |steps|)
    ensures RunOf(c, NewState(i, world, 0), steps, tail)(|steps|) == t
  {
    hide Enabled, Next, Undisturbed, Trail, TimeGoesOn, Play, Calm, UndisturbedAt;
    var s := NewState(i, world, 0);
    var run, all := RunOf(c, s, steps, tail), StepsOf(steps, on);
    forall k: nat ensures Enabled(run(k), all(k)) && run(k + 1) == Next(c, run(k), all(k)) {
      TrailSteps(c, s, steps, t, tail, on, k);
    }
    Beginning(c, s, steps, t, tail, on);
    assert Endless(c, run, all);
    forall k: nat | k >= |steps|
      ensures run(k) == tail(k - |steps|) && UndisturbedAt(run, all, k) && run(k).passes == map[] && !run(k).row.Pending()
    {
      TailAt(c, s, steps, t, tail, on, k);
    }
    AllTimes(c, run, steps, t, tail, on);
    IdleIsFair(c, run, all, |steps|);
    CalmBegins(c, t, tail, on);
  }

  lemma CalmBegins(c: Config, t: State, tail: Run, on: Steps)
    requires Calm(c, t, tail, on)
    ensures tail(0) == t
  {
  }

  lemma TailAt(c: Config, s: State, steps: seq<Step>, t: State, tail: Run, on: Steps, k: nat)
    requires Play(c, s, steps) == Some(t) && Calm(c, t, tail, on) && k >= |steps|
    ensures var run, all := RunOf(c, s, steps, tail), StepsOf(steps, on);
      run(k) == tail(k - |steps|) && UndisturbedAt(run, all, k) && run(k).passes == map[] && !run(k).row.Pending()
  {
    hide Enabled, Next, Undisturbed, Trail, Play;
    TrailSteps(c, s, steps, t, tail, on, k);
    TrailSteps(c, s, steps, t, tail, on, k + 1);
    assert CalmAt(c, tail, on, k - |steps|);
    assert k + 1 - |steps| == k - |steps| + 1;
  }

  lemma AllTimes(c: Config, run: Run, steps: seq<Step>, t: State, tail: Run, on: Steps)
    requires Calm(c, t, tail, on)
    requires forall k: nat :: k >= |steps| ==> run(k) == tail(k - |steps|)
    ensures TimeGoesOn(run)
  {
    hide CalmAt;
    forall m: Time ensures TimeReaches(run, m) {
      assert TimeReaches(tail, m);
      var j: nat :| Reached(tail, j, m);
      assert run(j + |steps|) == tail(j + |steps| - |steps|);
      assert Reached(run, j + |steps|, m);
    }
  }

  /** Left alone: nothing but time. */
  function Resting(t: State): Run {
    (j: nat) => t.(now := t.now + j)
  }

  function Ticking(): Steps {
    (j: nat) => Tick(1)
  }

  lemma RestingIsCalm(c: Config, t: State)
    requires t.passes == map[] && !t.row.Pending()
    ensures Calm(c, t, Resting(t), Ticking())
  {
    var tail := Resting(t);
    forall j: nat ensures CalmAt(c, tail, Ticking(), j) {
      assert Next(c, tail(j), Tick(1)) == tail(j + 1);
    }
    forall m: Time ensures TimeReaches(tail, m) {
      var k: nat := if m <= t.now then 0 else m - t.now;
      assert Reached(tail, k, m);
    }
  }

  /** Scanned over and over: each round of the loop observes the settled row, sees what
      it expects and releases the row. */
  function Scan(j: nat): Step {
    match j % 4
    case 0 => Tick(1)
    case 1 => ObsClaim(0, 0)
    case 2 => ObsLook(0)
    case _ => ObsRelease(0)
  }

  function Leave(s: State): State
    requires 0 in s.observers
  {
    SetObserver(s, 0, s.observers[0].(phase := Leaving))
  }

  function Scanned(c: Config, t: State, j: nat): State {
    var q := j / 4;
    var rest := t.(now := t.now + q, row := t.row.(version := t.row.version + q));
    var ticked := rest.(now := rest.now + 1);
    var seen := ObserverClaimed(c, ticked, 0, 0);
    match j % 4
    case 0 => rest
    case 1 => ticked
    case 2 => seen
    case _ => Leave(seen)
  }

  function Scanning(c: Config, t: State): Run {
    (j: nat) => Scanned(c, t, j)
  }

  function Scans(): Steps {
    (j: nat) => Scan(j)
  }

  predicate Scannable(t: State) {
    && t.passes == map[] && t.observers == map[] && Done(t.row)
    && t.row.leaseOwner.None? && t.row.leaseUntil.None?
    && t.world.container.Some? && t.world.Inspect().Observed() == t.row.observed
  }

  lemma ScanBegins(c: Config, s: State)
    requires Scannable(s)
    ensures CalmStep(c, s, Tick(1), s.(now := s.now + 1))
    ensures Scannable(s.(now := s.now + 1)) && CalmStep(c, s, ObsClaim(0, 0), ObserverClaimed(c, s, 0, 0))
  {
  }

  lemma ScanSees(c: Config, s: State)
    requires Scannable(s)
    ensures var seen := ObserverClaimed(c, s, 0, 0); CalmStep(c, seen, ObsLook(0), Leave(seen))
  {
  }

  lemma ScanLeaves(c: Config, s: State)
    requires Scannable(s)
    ensures CalmStep(c, Leave(ObserverClaimed(c, s, 0, 0)), ObsRelease(0), s.(row := s.row.(version := s.row.version + 1)))
  {
    assert ObserverReleased(Leave(ObserverClaimed(c, s, 0, 0)), 0).observers == map[];
  }

  lemma ScanStep(c: Config, t: State, j: nat)
    requires Scannable(t)
    ensures CalmStep(c, Scanned(c, t, j), Scan(j), Scanned(c, t, j + 1))
  {
    hide CalmStep, SetObserver;
    var q := j / 4;
    var rest := t.(now := t.now + q, row := t.row.(version := t.row.version + q));
    ScanBegins(c, rest);
    ScanBegins(c, rest.(now := rest.now + 1));
    ScanSees(c, rest.(now := rest.now + 1));
    ScanLeaves(c, rest.(now := rest.now + 1));
    match j % 4 {
      case 0 => assert (j + 1) % 4 == 1 && (j + 1) / 4 == q;
      case 1 => assert (j + 1) % 4 == 2 && (j + 1) / 4 == q;
      case 2 => assert (j + 1) % 4 == 3 && (j + 1) / 4 == q;
      case _ => assert j % 4 == 3 && (j + 1) % 4 == 0 && (j + 1) / 4 == q + 1;
    }
  }

  lemma ScanningIsCalm(c: Config, t: State)
    requires Scannable(t)
    ensures Calm(c, t, Scanning(c, t), Scans())
  {
    hide Scannable, CalmStep, Scan;
    var tail := Scanning(c, t);
    forall j: nat ensures CalmAt(c, tail, Scans(), j) {
      ScanStep(c, t, j);
    }
    forall m: Time ensures TimeReaches(tail, m) {
      var k: nat := if m <= t.now then 0 else 4 * (m - t.now);
      assert Reached(tail, k, m);
    }
  }

  /** A pass from its claim to its end, with `work` in the backend. */
  function Script(work: seq<Step>): seq<Step> {
    [Claim(0), Start(0), Enter(0)] + (work + [Finish(0), Release(0), Unmark(0)])
  }

  function Empty(): World {
    World(None, {})
  }

  function Built(): World {
    World(Some(Container("", true, {})), {})
  }

  function Fresh(d: Desired): Intent {
    Intent(d, "", false)
  }

  /** For instance this one: a new workspace is claimed, built and left alone. */
  lemma FairRunExists(c: Config) returns (run: Run, steps: Steps, n: nat)
    ensures Fair(c, run, steps, n) && run(n).row.desired.Present?
  {
    hide Play, Fair, RunOf, Calm, Script;
    var t := BuildsOnce(c);
    var script := Script([Reply(0), Derived(0), Succeed(0, Built())]);
    RestingIsCalm(c, t);
    GoesOnFairly(c, Fresh(Present), Empty(), script, t, Resting(t), Ticking());
    run, steps, n := RunOf(c, NewState(Fresh(Present), Empty(), 0), script, Resting(t)), StepsOf(script, Ticking()), |script|;
  }

  ghost predicate ObservedAfter(steps: Steps, k: nat) {
    exists j: nat :: j >= k && steps(j).ObsClaim?
  }

  /** And this one, of the loop that goes on looking for drift: whatever the moment, the
      settled row is observed once more after it. */
  lemma ScanningRunExists(c: Config) returns (run: Run, steps: Steps, n: nat)
    ensures Fair(c, run, steps, n) && run(n).row.desired.Present?
    ensures forall k: nat :: ObservedAfter(steps, k)
  {
    hide Play, Fair, RunOf, Calm, Script;
    var t := BuildsOnce(c);
    var script := Script([Reply(0), Derived(0), Succeed(0, Built())]);
    ScanningIsCalm(c, t);
    GoesOnFairly(c, Fresh(Present), Empty(), script, t, Scanning(c, t), Scans());
    run, steps, n := RunOf(c, NewState(Fresh(Present), Empty(), 0), script, Scanning(c, t)), StepsOf(script, Scans()), |script|;
    forall k: nat ensures ObservedAfter(steps, k) {
      var j := |script| + 4 * k + 1;
      assert (4 * k + 1) % 4 == 1;
      assert steps(j).ObsClaim?;
    }
  }

  /** And this one of a removal. */
  lemma RemovingRunExists(c: Config) returns (run: Run, steps: Steps, n: nat)
    ensures Fair(c, run, steps, n) && run(n).row.desired.Gone?
  {
    hide Play, Fair, RunOf, Calm, Script;
    var t := RemovesOnce(c);
    var script := Script([Reply(0), Succeed(0, Empty())]);
    RestingIsCalm(c, t);
    GoesOnFairly(c, Fresh(Gone), Empty(), script, t, Resting(t), Ticking());
    run, steps, n := RunOf(c, NewState(Fresh(Gone), Empty(), 0), script, Resting(t)), StepsOf(script, Ticking()), |script|;
  }

  lemma PlayedThrough(c: Config, s: State, m: State, work: seq<Step>, u: State, t: State)
    requires Reaches(c, s, [Claim(0), Start(0), Enter(0)], m) && Reaches(c, m, work, u)
    requires Reaches(c, u, [Finish(0), Release(0), Unmark(0)], t)
    ensures Play(c, s, Script(work)) == Some(t)
  {
    hide Play, Reaches;
    ReachesBoth(c, m, work, u, [Finish(0), Release(0), Unmark(0)], t);
    ReachesBoth(c, s, [Claim(0), Start(0), Enter(0)], m, work + [Finish(0), Release(0), Unmark(0)], t);
    PlayedBy(c, s, Script(work), t);
  }

  lemma BuildsOnce(c: Config) returns (t: State)
    ensures Play(c, NewState(Fresh(Present), Empty(), 0), Script([Reply(0), Derived(0), Succeed(0, Built())])) == Some(t)
    ensures Scannable(t)
  {
    hide Play, Reaches, Script;
    var s := NewState(Fresh(Present), Empty(), 0);
    var m := ClaimedOnce(c, s, Present);
    var u := BuiltOnce(c, m);
    t := ReleasedOnce(c, u, RunningWrite(u.row, u.now));
    PlayedThrough(c, s, m, [Reply(0), Derived(0), Succeed(0, Built())], u, t);
  }

  lemma RemovesOnce(c: Config) returns (t: State)
    ensures Play(c, NewState(Fresh(Gone), Empty(), 0), Script([Reply(0), Succeed(0, Empty())])) == Some(t)
    ensures t.passes == map[] && t.row.desired.Gone? && !t.row.Pending()
  {
    hide Play, Reaches, Script;
    var s := NewState(Fresh(Gone), Empty(), 0);
    var m := ClaimedOnce(c, s, Gone);
    var u := RemovedOnce(c, m);
    t := ReleasedOnce(c, u, AbsentWrite(u.row, u.now));
    PlayedThrough(c, s, m, [Reply(0), Succeed(0, Empty())], u, t);
  }

  /** The one pass, at its entry write. */
  predicate EnteredOnce(s: State, d: Desired) {
    && Current(s, 0) && s.passes.Keys == {0} && s.passes[0].phase.Entered?
    && s.row.desired == d && !s.row.Behind() && s.row.image == "" && s.observers == map[] && s.world == Empty()
  }

  lemma ClaimedOnce(c: Config, s: State, d: Desired) returns (m: State)
    requires s == NewState(Fresh(d), Empty(), 0)
    ensures Reaches(c, s, [Claim(0), Start(0), Enter(0)], m) && EnteredOnce(m, d)
  {
    hide Play, Reaches;
    var s1 := ClaimedBy(c, s, 0);
    var s2 := StartPass(c, s1, 0);
    m := EntryTried(s2, 0);
    ReachesNothing(c, m);
    ReachesOne(c, s2, Enter(0), [], m, m, [Enter(0)]);
    ReachesOne(c, s1, Start(0), [Enter(0)], s2, m, [Start(0), Enter(0)]);
    ReachesOne(c, s, Claim(0), [Start(0), Enter(0)], s1, m, [Claim(0), Start(0), Enter(0)]);
  }

  lemma BuiltOnce(c: Config, s: State) returns (t: State)
    requires EnteredOnce(s, Present)
    ensures Reaches(c, s, [Reply(0), Derived(0), Succeed(0, Built())], t)
    ensures Current(t, 0) && t.passes.Keys == {0} && t.row == s.row && t.observers == map[] && t.world == Built()
    ensures t.passes[0].phase == Finishing(RunningWrite(t.row, t.now))
  {
    hide Play, Reaches;
    var s4 := Replied(c, s, 0);
    var s5 := ProvisionBegun(c, s4, 0);
    t := Succeeded(s5.(world := Built()), 0);
    ReachesNothing(c, t);
    ReachesOne(c, s5, Succeed(0, Built()), [], t, t, [Succeed(0, Built())]);
    ReachesOne(c, s4, Derived(0), [Succeed(0, Built())], s5, t, [Derived(0), Succeed(0, Built())]);
    ReachesOne(c, s, Reply(0), [Derived(0), Succeed(0, Built())], s4, t, [Reply(0), Derived(0), Succeed(0, Built())]);
  }

  lemma RemovedOnce(c: Config, s: State) returns (t: State)
    requires EnteredOnce(s, Gone)
    ensures Reaches(c, s, [Reply(0), Succeed(0, Empty())], t)
    ensures Current(t, 0) && t.passes.Keys == {0} && t.row == s.row
    ensures t.passes[0].phase == Finishing(AbsentWrite(t.row, t.now))
  {
    hide Play, Reaches;
    var s4 := Replied(c, s, 0);
    t := Succeeded(s4.(world := Empty()), 0);
    ReachesNothing(c, t);
    ReachesOne(c, s4, Succeed(0, Empty()), [], t, t, [Succeed(0, Empty())]);
    ReachesOne(c, s, Reply(0), [Succeed(0, Empty())], s4, t, [Reply(0), Succeed(0, Empty())]);
  }

  lemma ReleasedOnce(c: Config, s: State, u: Write) returns (t: State)
    requires Current(s, 0) && s.passes.Keys == {0} && s.passes[0].phase == Finishing(u)
    ensures Reaches(c, s, [Finish(0), Release(0), Unmark(0)], t)
    ensures t == s.(passes := map[], row := ReleasedBy(Written(s.row, u), 0))
  {
    hide Play, Reaches;
    var m := OutcomeTried(s, 0);
    t := LeftOnce(c, m);
    ReachesOne(c, s, Finish(0), [Release(0), Unmark(0)], m, t, [Finish(0), Release(0), Unmark(0)]);
  }

  lemma LeftOnce(c: Config, s: State) returns (t: State)
    requires s.passes.Keys == {0} && s.passes[0].phase.Ending?
    ensures Reaches(c, s, [Release(0), Unmark(0)], t)
    ensures t == s.(passes := map[], row := ReleasedBy(s.row, 0))
  {
    hide Play, Reaches;
    var m := PassReleased(s, 0);
    t := DropPass(m, 0);
    assert t.passes.Keys == {};
    ReachesNothing(c, t);
    ReachesOne(c, m, Unmark(0), [], t, t, [Unmark(0)]);
    ReachesOne(c, s, Release(0), [Unmark(0)], m, t, [Release(0), Unmark(0)]);
  }
}
