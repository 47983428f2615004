/** Many server instances share one workspace row.  Each instance runs at most one
    pass over the row (see module Slots) and any number of on-demand observations;
    users record intents and cancel removals.  Every database statement and every
    reply, backend effect, crash and clock tick is a step of its own, so a run is
    an arbitrary interleaving of them. */
module Protocol {
  import opened Options
  import opened Workspace
  import opened Repository
  import opened Passes

  type Datum = nat
  type ThreadId = nat

  datatype Intent = Intent(desired: Desired, image: string, preserve: bool)

  /** The backend: a container and the archive a preserving removal exports to. */
  datatype Container = Container(image: string, running: bool, data: set<Datum>)

  datatype World = World(container: Option<Container>, archive: set<Datum>) {
    function Data(): set<Datum> {
      archive + if container.Some? then container.value.data else {}
    }

    function Inspect(): Inspection {
      if container.Some? then Inspection(true, container.value.running, container.value.image)
      else Inspection(false, false, "")
    }
  }

  datatype Renewal = Idle | Asked(deadline: Time) | Answered(ok: bool, deadline: Time)

  datatype Op = Inspecting | Replacing | Starting | TearingDown

  /** Where a pass stands.  `deadline` is the latest instant at which the database call
      in flight is answered or given up. */
  datatype Phase =
    | Claimed(deadline: Time)
    | Entering(write: Write, deadline: Time)
    | Entered(deadline: Time)
    | Deriving(deadline: Time)
    | Operating(op: Op, nextTick: Time, renewal: Renewal)
    | AskingGone(err: StepError)
    | Finishing(write: Write)
    | Ending
    | Released

  /** `row` is the row as the pass last wrote or claimed it. */
  datatype Pass = Pass(claim: nat, row: Row, phase: Phase)

  datatype ObserverPhase = Looking | Writing(write: Write) | Leaving

  datatype Observer = Observer(owner: Owner, row: Row, phase: ObserverPhase)

  datatype State = State(
    now: Time,
    row: Row,
    intents: seq<Intent>,            // intents[g - 1] is the intent of generation g
    passes: map<Owner, Pass>,
    observers: map<ThreadId, Observer>,
    cancels: map<ThreadId, Observed>,  // inspections of cancellations in flight
    world: World,
    written: set<Datum>,             // everything users ever stored in the workspace
    vanished: bool,                  // something outside removed the container
    goneAt: nat)                     // generation when the backend last reported it gone

  datatype Step =
    | Tick(d: nat)
    | Intend(intent: Intent)
    | AskCancel(id: ThreadId)
    | DoCancel(id: ThreadId)
    | Claim(o: Owner)
    | LoseClaim(o: Owner)
    | Crash(o: Owner)
    | Start(o: Owner)
    | Enter(o: Owner)
    | WriteError(o: Owner)
    | LoseReply(o: Owner)
    | Reply(o: Owner)
    | Derived(o: Owner)
    | AskRenew(o: Owner)
    | DoRenew(o: Owner)
    | RenewReply(o: Owner)
    | LateRenew(o: Owner)
    | Act(o: Owner, world: World)
    | Succeed(o: Owner, world: World)
    | FailOp(o: Owner, world: World, err: StepError, rnd: real)
    | AnswerGone(o: Owner, reachable: bool, rnd: real)
    | Finish(o: Owner)
    | Release(o: Owner)
    | Unmark(o: Owner)
    | ObsClaim(id: ThreadId, o: Owner)
    | ObsStop(id: ThreadId)
    | ObsLook(id: ThreadId)
    | ObsWrite(id: ThreadId)
    | ObsRelease(id: ThreadId)
    | UserWrite(d: Datum)
    | UserRun(running: bool)
    | Vanish

  function NewState(i: Intent, world: World, now: Time): State {
    State(now, NewRow(i.desired, i.image, i.preserve, now), [i], map[], map[], map[],
          world, world.Data(), false, 0)
  }

  // ---------------------------------------------------------------------------
  // The backend's contract

  predicate Keeps(before: World, after: World) {
    before.Data() <= after.Data()
  }

  /** What an operation may have done by the time it is interrupted. */
  predicate Partial(op: Op, preserve: bool, before: World, after: World) {
    match op
    case Inspecting => after == before
    case Replacing | Starting => Keeps(before, after)
    case TearingDown => preserve ==> Keeps(before, after)
  }

  predicate Complete(op: Op, preserve: bool, before: World, after: World) {
    && Partial(op, preserve, before, after)
    && match op
       case Inspecting => true
       case Replacing | TearingDown => after.container.None?
       case Starting => after.container.Some? && after.container.value.running
  }

  // ---------------------------------------------------------------------------
  // Steps

  /** A never-ready workspace whose container was built from another image. */
  predicate Stale(w: Row, i: Inspection) {
    i.exists_ && i.image != "" && i.image != w.image
  }

  predicate MayReplace(w: Row) {
    !w.everReady && w.image != ""
  }

  function SetPass(s: State, o: Owner, p: Pass): State {
    s.(passes := s.passes[o := p])
  }

  function SetPhase(s: State, o: Owner, f: Phase): State
    requires o in s.passes
  {
    SetPass(s, o, s.passes[o].(phase := f))
  }

  function DropPass(s: State, o: Owner): State {
    s.(passes := s.passes - {o})
  }

  function SetObserver(s: State, id: ThreadId, x: Observer): State {
    s.(observers := s.observers[id := x])
  }

  function ReportGone(s: State): State {
    if s.world.container.None? then s.(goneAt := s.row.generation) else s
  }

  /** One version-checked write by `o`; the caller's next phase depends on whether
      it lands. */
  function Landed(s: State, o: Owner, u: Write, landed: Phase, lost: Phase): State
    requires o in s.passes
  {
    var p := s.passes[o];
    if CanWrite(s.row, o, p.row.version) then
      var w := Written(s.row, u);
      SetPass(s.(row := w), o, p.(row := w, phase := landed))
    else
      SetPhase(s, o, lost)
  }

  function StartPass(c: Config, s: State, o: Owner): State
    requires o in s.passes
  {
    var w := s.passes[o].row;
    if !Decide(w).NoAction? then SetPhase(s, o, Entering(EntryWrite(w, s.now), s.now + c.writeTimeout))
    else if w.Behind() then SetPhase(s, o, Finishing(CatchUpWrite(w, s.now)))
    else SetPhase(s, o, Ending)
  }

  function Succeeded(s: State, o: Owner): State
    requires o in s.passes && s.passes[o].phase.Operating?
  {
    var p := s.passes[o];
    match p.phase.op
    case Inspecting =>
      var next := if Stale(p.row, s.world.Inspect()) then Replacing else Starting;
      SetPhase(ReportGone(s), o, p.phase.(op := next))
    case Replacing => SetPhase(ReportGone(s), o, p.phase.(op := Starting))
    case Starting => SetPhase(s, o, Finishing(RunningWrite(p.row, s.now)))
    case TearingDown => SetPhase(ReportGone(s), o, Finishing(AbsentWrite(p.row, s.now)))
  }

  function Failing(c: Config, s: State, o: Owner, err: StepError, rnd: real): State
    requires o in s.passes && s.passes[o].phase.Operating?
  {
    var p := s.passes[o];
    if !p.phase.op.TearingDown? then SetPhase(s, o, Finishing(ProvisionFailure(c, p.row, err, s.now, rnd)))
    else if WillRetry(c, p.row, err) then
      SetPhase(s, o, Finishing(TeardownFailure(c, p.row, err, false, s.now, rnd)))
    else SetPhase(s, o, AskingGone(err))
  }

  function Begin(c: Config, s: State, o: Owner, op: Op): State
    requires o in s.passes
  {
    SetPhase(s, o, Operating(op, s.now + c.RenewInterval(), Idle))
  }

  predicate In(s: State, o: Owner) {
    o in s.passes
  }

  predicate InOperation(s: State, o: Owner) {
    o in s.passes && s.passes[o].phase.Operating?
  }

  predicate Enabled(s: State, step: Step) {
    match step
    case Tick(d) => d > 0
    case Intend(_) => true
    case AskCancel(id) => id !in s.cancels
    case DoCancel(id) => id in s.cancels
    case Claim(_) => s.row.Due(s.now)
    case LoseClaim(o) => In(s, o) && s.passes[o].phase.Claimed?
    case Crash(o) => true
    case Start(o) => In(s, o) && s.passes[o].phase.Claimed?
    case Enter(o) => In(s, o) && s.passes[o].phase.Entering?
    case WriteError(o) => In(s, o) && (s.passes[o].phase.Entering? || s.passes[o].phase.Finishing?)
    case LoseReply(o) => In(s, o) && s.passes[o].phase.Entered?
    case Reply(o) => In(s, o) && s.passes[o].phase.Entered?
    case Derived(o) => In(s, o) && s.passes[o].phase.Deriving?
    case AskRenew(o) =>
      InOperation(s, o) && s.passes[o].phase.renewal.Idle? && s.passes[o].phase.nextTick <= s.now
    case DoRenew(o) => InOperation(s, o) && s.passes[o].phase.renewal.Asked?
    case RenewReply(o) =>
      InOperation(s, o) && s.passes[o].phase.renewal.Answered? && s.passes[o].phase.renewal.ok
    case LateRenew(o) =>
      && In(s, o) && s.row.leaseOwner == Some(o)
      && (s.passes[o].phase.Finishing? || s.passes[o].phase.AskingGone? || s.passes[o].phase.Ending?)
    case Act(o, w) =>
      InOperation(s, o) && Partial(s.passes[o].phase.op, s.passes[o].row.preserve, s.world, w)
    case Succeed(o, w) =>
      InOperation(s, o) && Complete(s.passes[o].phase.op, s.passes[o].row.preserve, s.world, w)
    case FailOp(o, w, err, rnd) =>
      && InOperation(s, o) && 0.0 <= rnd < 1.0
      && Partial(s.passes[o].phase.op, s.passes[o].row.preserve, s.world, w)
    case AnswerGone(o, _, rnd) => In(s, o) && s.passes[o].phase.AskingGone? && 0.0 <= rnd < 1.0
    case Finish(o) => In(s, o) && s.passes[o].phase.Finishing?
    case Release(o) => In(s, o) && s.passes[o].phase.Ending?
    case Unmark(o) => In(s, o) && s.passes[o].phase.Released?
    case ObsClaim(id, _) => id !in s.observers && s.row.Unleased(s.now)
    case ObsStop(id) => id in s.observers && !s.observers[id].phase.Leaving?
    case ObsLook(id) =>
      && id in s.observers && s.observers[id].phase.Looking?
      && !s.observers[id].row.observed.Provisioning? && !s.observers[id].row.observed.Removing?
    case ObsWrite(id) => id in s.observers && s.observers[id].phase.Writing?
    case ObsRelease(id) => id in s.observers && s.observers[id].phase.Leaving?
    case UserWrite(_) => s.world.container.Some?
    case UserRun(_) => s.world.container.Some?
    case Vanish => true
  }

  // The effect of each step, by name.

  function Intended(s: State, i: Intent): State {
    s.(row := Upserted(s.row, i.desired, i.image, i.preserve, s.now), intents := s.intents + [i])
  }

  function CancelAsked(s: State, id: ThreadId): State {
    ReportGone(s).(cancels := s.cancels[id := s.world.Inspect().Observed()])
  }

  function CancelDone(s: State, id: ThreadId): State
    requires id in s.cancels
  {
    var t := s.(cancels := s.cancels - {id});
    if s.row.RemovalFailed() then
      t.(row := RemovalCancelled(s.row, s.cancels[id], s.now), intents := s.intents + [Intent(Present, "", false)])
    else
      t
  }

  /** A row this instance is still working on is leased but left to that pass. */
  function ClaimedBy(c: Config, s: State, o: Owner): State {
    var w := LeasedTo(s.row, o, s.now + c.lease);
    var t := s.(row := w);
    if o in s.passes then t else SetPass(t, o, Pass(w.version, w, Claimed(s.now + c.writeTimeout)))
  }

  function Crashed(s: State, o: Owner): State {
    DropPass(s, o).(observers := map id | id in s.observers && s.observers[id].owner != o :: s.observers[id])
  }

  function EntryTried(s: State, o: Owner): State
    requires o in s.passes && s.passes[o].phase.Entering?
  {
    var f := s.passes[o].phase;
    Landed(s, o, f.write, Entered(f.deadline), Ending)
  }

  function Replied(c: Config, s: State, o: Owner): State
    requires o in s.passes
  {
    if s.passes[o].row.desired.Present? then SetPhase(s, o, Deriving(s.now + c.writeTimeout))
    else Begin(c, s, o, TearingDown)
  }

  function ProvisionBegun(c: Config, s: State, o: Owner): State
    requires o in s.passes
  {
    Begin(c, s, o, if MayReplace(s.passes[o].row) then Inspecting else Starting)
  }

  function RenewAsked(c: Config, s: State, o: Owner): State
    requires InOperation(s, o)
  {
    var f := s.passes[o].phase;
    SetPhase(s, o, f.(nextTick := f.nextTick + c.RenewInterval(), renewal := Asked(s.now + c.writeTimeout)))
  }

  function RenewDone(c: Config, s: State, o: Owner): State
    requires InOperation(s, o) && s.passes[o].phase.renewal.Asked?
  {
    var f := s.passes[o].phase;
    var ok := s.row.leaseOwner == Some(o);
    var t := if ok then s.(row := Renewed(s.row, s.now + c.lease)) else s;
    SetPhase(t, o, f.(renewal := Answered(ok, f.renewal.deadline)))
  }

  function RenewOver(s: State, o: Owner): State
    requires InOperation(s, o)
  {
    SetPhase(s, o, s.passes[o].phase.(renewal := Idle))
  }

  function GoneAnswered(c: Config, s: State, o: Owner, reachable: bool, rnd: real): State
    requires o in s.passes && s.passes[o].phase.AskingGone?
  {
    var p := s.passes[o];
    var gone := reachable && s.world.container.None?;
    var t := if gone then ReportGone(s) else s;
    SetPhase(t, o, Finishing(TeardownFailure(c, p.row, p.phase.err, gone, s.now, rnd)))
  }

  function OutcomeTried(s: State, o: Owner): State
    requires o in s.passes && s.passes[o].phase.Finishing?
  {
    Landed(s, o, s.passes[o].phase.write, Ending, Ending)
  }

  function PassReleased(s: State, o: Owner): State
    requires o in s.passes
  {
    SetPhase(s.(row := ReleasedBy(s.row, o)), o, Released)
  }

  function ObserverClaimed(c: Config, s: State, id: ThreadId, o: Owner): State {
    var w := LeasedTo(s.row, o, s.now + c.lease);
    SetObserver(s.(row := w), id, Observer(o, w, Looking))
  }

  function ObserverStopped(s: State, id: ThreadId): State
    requires id in s.observers
  {
    SetObserver(s, id, s.observers[id].(phase := Leaving))
  }

  function ObserverLooked(s: State, id: ThreadId): State
    requires id in s.observers
  {
    var x := s.observers[id];
    var seen := s.world.Inspect().Observed();
    var next := if seen == x.row.observed then Leaving else Writing(ObservationWrite(x.row, seen, s.now));
    SetObserver(ReportGone(s), id, x.(phase := next))
  }

  function ObserverWrote(s: State, id: ThreadId): State
    requires id in s.observers && s.observers[id].phase.Writing?
  {
    var x := s.observers[id];
    var t := SetObserver(s, id, x.(phase := Leaving));
    if CanWrite(s.row, x.owner, x.row.version) then t.(row := Written(s.row, x.phase.write)) else t
  }

  /** The deferred release: it matches the owner only. */
  function ObserverReleased(s: State, id: ThreadId): State
    requires id in s.observers
  {
    s.(row := ReleasedBy(s.row, s.observers[id].owner), observers := s.observers - {id})
  }

  function Stored(s: State, d: Datum): State
    requires s.world.container.Some?
  {
    var k := s.world.container.value;
    s.(world := s.world.(container := Some(k.(data := k.data + {d}))), written := s.written + {d})
  }

  function Switched(s: State, running: bool): State
    requires s.world.container.Some?
  {
    s.(world := s.world.(container := Some(s.world.container.value.(running := running))))
  }

  function Next(c: Config, s: State, step: Step): State
    requires Enabled(s, step)
  {
    match step
    case Tick(d) => s.(now := s.now + d)
    case Intend(i) => Intended(s, i)
    case AskCancel(id) => CancelAsked(s, id)
    case DoCancel(id) => CancelDone(s, id)
    case Claim(o) => ClaimedBy(c, s, o)
    case LoseClaim(o) => DropPass(s, o)
    case Crash(o) => Crashed(s, o)
    case Start(o) => StartPass(c, s, o)
    case Enter(o) => EntryTried(s, o)
    case WriteError(o) => SetPhase(s, o, Ending)
    case LoseReply(o) => SetPhase(s, o, Ending)
    case Reply(o) => Replied(c, s, o)
    case Derived(o) => ProvisionBegun(c, s, o)
    case AskRenew(o) => RenewAsked(c, s, o)
    case DoRenew(o) => RenewDone(c, s, o)
    case RenewReply(o) => RenewOver(s, o)
    case LateRenew(o) => s.(row := Renewed(s.row, s.now + c.lease))
    case Act(o, w) => s.(world := w)
    case Succeed(o, w) => Succeeded(s.(world := w), o)
    case FailOp(o, w, err, rnd) => Failing(c, s.(world := w), o, err, rnd)
    case AnswerGone(o, reachable, rnd) => GoneAnswered(c, s, o, reachable, rnd)
    case Finish(o) => OutcomeTried(s, o)
    case Release(o) => PassReleased(s, o)
    case Unmark(o) => DropPass(s, o)
    case ObsClaim(id, o) => ObserverClaimed(c, s, id, o)
    case ObsStop(id) => ObserverStopped(s, id)
    case ObsLook(id) => ObserverLooked(s, id)
    case ObsWrite(id) => ObserverWrote(s, id)
    case ObsRelease(id) => ObserverReleased(s, id)
    case UserWrite(d) => Stored(s, d)
    case UserRun(b) => Switched(s, b)
    case Vanish => s.(world := s.world.(container := None), vanished := true)
  }

  // ---------------------------------------------------------------------------
  // Runs

  /** `run` starts from a new row and takes one enabled step after another. */
  ghost predicate IsRun(c: Config, run: seq<State>, steps: seq<Step>) {
    && |run| == |steps| + 1
    && (exists i, world, now :: run[0] == NewState(i, world, now))
    && forall k :: 0 <= k < |steps| ==> Enabled(run[k], steps[k]) && run[k + 1] == Next(c, run[k], steps[k])
  }
}
