/** The in-process half of a pass: the code that drives the backend and writes what
    came of it, while everybody else goes on changing the shared row. */
module Reconciler {
  import opened Options
  import opened Workspace
  import opened Repository
  import opened Passes
  import opened Protocol

  /** A backend error, attributed to a step or not. */
  datatype BackendError = Attributed(step: StepError) | Plain(code: string)

  /** Keeps the backend's own attribution of a failure when it has one. */
  function AsStep(e: BackendError, phase: string): StepError {
    match e
    case Attributed(s) => s
    case Plain(code) => StepError(phase, true, code)
  }

  datatype Look = Saw(inspection: Inspection) | Blind(error: BackendError)

  /** A call to the backend with its answer. */
  datatype Call =
    | Provisioned(bot: BotId, image: string, error: Option<BackendError>)
    | TornDown(bot: BotId, preserve: bool, error: Option<BackendError>)
    | Inspected(bot: BotId, look: Look)

  /** The runtime behind the workspaces; it records what it was asked to do and how
      it answered. */
  class Backend {
    var calls: seq<Call>

    constructor ()
      ensures calls == []
    {
      calls := [];
    }

    method Provision(bot: BotId, image: string) returns (e: Option<BackendError>)
      modifies this
      ensures calls == old(calls) + [Provisioned(bot, image, e)]
    {
      e := *;
      calls := calls + [Provisioned(bot, image, e)];
    }

    method Teardown(bot: BotId, preserve: bool) returns (e: Option<BackendError>)
      modifies this
      ensures calls == old(calls) + [TornDown(bot, preserve, e)]
    {
      e := *;
      calls := calls + [TornDown(bot, preserve, e)];
    }

    method Inspect(bot: BotId) returns (look: Look)
      modifies this
      ensures calls == old(calls) + [Inspected(bot, look)]
    {
      look := *;
      calls := calls + [Inspected(bot, look)];
    }
  }

  /** What others may have done to a row since it read `a`. */
  predicate Follows(a: Row, b: Row) {
    a.version < b.version || (a.version == b.version && SameButLease(a, b))
  }

  /** How far a pass came. */
  datatype Outcome =
    | Untouched                                     // the entry write did not land
    | Lost(entry: Row)                              // entered, but the outcome did not land
    | Recorded(entry: Row, write: Write, last: Row) // the outcome landed

  /** `r` is what landing `u` on `w` gives, whoever renewed the lease in between. */
  predicate LandsAs(w: Row, u: Write, r: Row) {
    SameButLease(r, Written(w, u))
  }

  predicate IsEntry(w: Row, owner: Owner, r: Row) {
    LandsAs(w, EntryWrite(w, r.nextAttempt), r) && r.leaseOwner == Some(owner)
  }

  /** The error that ended a sequence of calls, if one did. */
  function LastError(calls: seq<Call>): Option<StepError> {
    if calls == [] then None else
    match calls[|calls| - 1]
    case Provisioned(_, _, Some(e)) => Some(AsStep(e, "start"))
    case TornDown(_, _, Some(e)) => Some(AsStep(e, "teardown"))
    case Inspected(_, Blind(e)) => Some(AsStep(e, "teardown"))
    case _ => None
  }

  predicate IsPreserving(call: Call, bot: BotId) {
    call.TornDown? && call.bot == bot && call.preserve
  }

  /** The preparation of a provisioning asks nothing about a workspace that was ready
      once.  Otherwise it looks, and removes a container built from another image,
      preserving its data. */
  predicate Preparation(calls: seq<Call>, bot: BotId, w: Row) {
    if !MayReplace(w) then calls == [] else
      && calls != [] && calls[0].Inspected? && calls[0].bot == bot
      && if calls[0].look.Saw? && Stale(w, calls[0].look.inspection)
         then |calls| == 2 && IsPreserving(calls[1], bot)
         else |calls| == 1
  }

  /** All a provisioning asks of the backend: the preparation and, unless that failed,
      one provisioning of the requested image. */
  predicate ProvisionCalls(calls: seq<Call>, bot: BotId, w: Row) {
    || (Preparation(calls, bot, w) && LastError(calls).Some?)
    || (&& calls != [] && Preparation(calls[..|calls| - 1], bot, w) && LastError(calls[..|calls| - 1]).None?
        && calls[|calls| - 1].Provisioned? && calls[|calls| - 1].bot == bot && calls[|calls| - 1].image == w.image)
  }

  lemma PreparationFails(prep: seq<Call>, bot: BotId, w: Row)
    requires Preparation(prep, bot, w) && LastError(prep).Some?
    ensures ProvisionCalls(prep, bot, w)
  {
  }

  lemma ProvisionFollows(prep: seq<Call>, bot: BotId, w: Row, err: Option<BackendError>)
    requires Preparation(prep, bot, w) && LastError(prep).None?
    ensures var calls := prep + [Provisioned(bot, w.image, err)];
      && ProvisionCalls(calls, bot, w)
      && LastError(calls) == if err.Some? then Some(AsStep(err.value, "start")) else None
  {
    assert (prep + [Provisioned(bot, w.image, err)])[..|prep|] == prep;
  }

  /** So the calls of a provisioning went well exactly when the last of them is a
      provisioning of the requested image that worked, and a teardown among them
      preserves the data of a never-ready workspace just seen with another image. */
  lemma ProvisionCallsMean(calls: seq<Call>, bot: BotId, w: Row)
    requires ProvisionCalls(calls, bot, w)
    ensures calls != []
    ensures LastError(calls).None? <==> calls[|calls| - 1] == Provisioned(bot, w.image, None)
    ensures forall k :: 0 <= k < |calls| && calls[k].TornDown? ==>
      && calls[k].preserve && MayReplace(w) && k == 1
      && calls[0].Inspected? && calls[0].look.Saw? && Stale(w, calls[0].look.inspection)
  {
    if !(Preparation(calls, bot, w) && LastError(calls).Some?) {
      var prep := calls[..|calls| - 1];
      assert forall k :: 0 <= k < |prep| ==> prep[k] == calls[k];
    }
  }

  ghost predicate IsFailure(c: Config, w: Row, e: StepError, u: Write) {
    exists t, rnd :: 0.0 <= rnd < 1.0 && u == ProvisionFailure(c, w, e, t, rnd)
  }

  ghost predicate IsTeardownFailure(c: Config, w: Row, e: StepError, gone: bool, u: Write) {
    exists t, rnd :: 0.0 <= rnd < 1.0 && u == TeardownFailure(c, w, e, gone, t, rnd)
  }

  /** The backend said that it holds nothing. */
  predicate IsNothing(look: Look) {
    look.Saw? && !look.inspection.exists_
  }

  /** All a removal asks of the backend: one teardown and, if it failed and is not
      retried fast, whether anything is left. */
  predicate TeardownCalls(c: Config, calls: seq<Call>, bot: BotId, w: Row) {
    && calls != [] && calls[0].TornDown? && calls[0].bot == bot && calls[0].preserve == w.preserve
    && if calls[0].error.Some? && !WillRetry(c, w, AsStep(calls[0].error.value, "teardown"))
       then |calls| == 2 && calls[1].Inspected? && calls[1].bot == bot
       else |calls| == 1
  }

  /** What a removal records of its calls: `absent` after a teardown that worked, and
      otherwise its failure, with the workspace reported gone by the backend or not. */
  ghost predicate TeardownOutcome(c: Config, calls: seq<Call>, w: Row, u: Write)
    requires calls != [] && calls[0].TornDown?
  {
    if calls[0].error.None? then u == AbsentWrite(w, u.nextAttempt)
    else IsTeardownFailure(c, w, AsStep(calls[0].error.value, "teardown"),
                           |calls| == 2 && calls[1].Inspected? && IsNothing(calls[1].look), u)
  }

  /** So a removal is recorded as finished exactly when the teardown worked, and as
      failed exactly when it will not be retried and the backend did not say that
      nothing is left. */
  lemma TeardownOutcomeMeans(c: Config, calls: seq<Call>, bot: BotId, w: Row, u: Write)
    requires TeardownCalls(c, calls, bot, w) && TeardownOutcome(c, calls, w, u)
    ensures u.observed.Absent? <==> calls[0].error.None?
    ensures u.observed.Failed? <==> |calls| == 2 && !IsNothing(calls[1].look)
    ensures u.observed.Absent? || u.observed.Failed? || u.observed.Removing?
  {
  }

  /** Entering a pass changes nothing its calls depend on. */
  lemma SameRowSameCalls(c: Config, calls: seq<Call>, bot: BotId, w: Row, entry: Row)
    requires LandsAs(w, EntryWrite(w, entry.nextAttempt), entry)
    ensures TeardownCalls(c, calls, bot, w) <==> TeardownCalls(c, calls, bot, entry)
  {
  }

  /** The write of an observation that saw `seen`: it answers no intent and leaves no
      failure behind. */
  ghost predicate IsObservation(u: Write, seen: Observed) {
    exists w, t :: u == ObservationWrite(w, seen, t)
  }

  lemma SeenOnce(w: Row, seen: Observed, t: Time)
    ensures IsObservation(ObservationWrite(w, seen, t), seen)
  {
  }

  /** A write this service tried, and whether it landed. */
  datatype Tried = Tried(write: Write, landed: bool)

  function LandedOf(tried: seq<Tried>): seq<Write> {
    if tried == [] then [] else
    var last := tried[|tried| - 1];
    LandedOf(tried[..|tried| - 1]) + if last.landed then [last.write] else []
  }

  lemma OneMoreTried(tried: seq<Tried>, t: Tried)
    ensures LandedOf(tried + [t]) == LandedOf(tried) + if t.landed then [t.write] else []
  {
    assert (tried + [t])[..|tried|] == tried;
  }

  /** What a provisioning of the entered row `w` tries to record after its calls:
      `running` if they went well, and else the failure that ended them. */
  ghost predicate ProvisionOutcome(c: Config, calls: seq<Call>, w: Row, u: Write) {
    if LastError(calls).None? then u == RunningWrite(w, u.nextAttempt)
    else IsFailure(c, w, LastError(calls).value, u)
  }

  class Service {
    const opts: Config
    const owner: Owner
    const repo: Repository
    const backend: Backend
    var now: Time
    var recorded: bool                   // the pass's last write landed, or lost to something newer
    var derived: map<BotId, BotStatus>   // the last status handed to the bots service
    ghost var tried: seq<Tried>          // every observation this service tried to write

    /** Nothing of this owner was ever written but what is on record here. */
    ghost predicate Accounted()
      reads `tried, repo`landed
    {
      repo.LandedBy(owner) == LandedOf(tried)
    }

    constructor (opts: Config, owner: Owner, repo: Repository, backend: Backend, now: Time)
      requires repo.LandedBy(owner) == []
      ensures Accounted()
      ensures this.repo == repo && this.backend == backend && this.opts == opts && this.owner == owner
    {
      this.opts, this.owner, this.repo, this.backend, this.now := opts, owner, repo, backend, now;
      recorded, derived, tried := false, map[], [];
    }

    /** Others at work: new intents, claims, renewals, releases, and the writes of
        other instances. */
    method Meanwhile()
      modifies repo, `now
      ensures repo.LandedBy(owner) == old(repo.LandedBy(owner))
      ensures forall b :: b in old(repo.rows) ==> b in repo.rows && Follows(old(repo.rows)[b], repo.rows[b])
      ensures now >= old(now)
    {
      var n :| 0 <= n;
      while n > 0
        invariant forall b :: b in old(repo.rows) ==> b in repo.rows && Follows(old(repo.rows)[b], repo.rows[b])
        invariant now >= old(now) && repo.LandedBy(owner) == old(repo.LandedBy(owner))
      {
        var pause :| 0 <= pause;
        now := now + pause;
        OneOther();
        n := n - 1;
      }
    }

    method OneOther()
      modifies repo
      ensures repo.LandedBy(owner) == old(repo.LandedBy(owner))
      ensures forall b :: b in old(repo.rows) ==> b in repo.rows && Follows(old(repo.rows)[b], repo.rows[b])
    {
      var bot: BotId, o: Owner :| 0 <= bot && 0 <= o;
      var version, limit :| 0 <= version && 0 <= limit;
      var d: Desired, image: string, preserve: bool := *, *, *;
      var seen: Observed, u: Write := *, *;
      if {
        case true => var _ := repo.Upsert(bot, d, image, preserve, now);
        case true => var _ := repo.CancelRemoval(bot, seen, now);
        case true => var _ := repo.Claim(o, opts.lease, None, limit, now);
        case true => var _ := repo.ClaimOne(bot, o, opts.lease, now);
        case true => var _ := repo.Renew(bot, o, opts.lease, now);
        case true => repo.Release(bot, o);
        case o != owner => var _ := repo.WriteObserved(bot, o, version, u);
      }
    }

    /** One observation on a fresh context; a database that does not answer changes
        nothing. */
    method WriteObserved(bot: BotId, w: Row, u: Write) returns (r: Result<Row>)
      modifies repo, `recorded, `now, `tried
      requires bot in repo.rows && Follows(w, repo.rows[bot]) && Accounted()
      ensures tried == old(tried) + [Tried(u, r.Ok?)] && Accounted()
      ensures bot in repo.rows && Follows(w, repo.rows[bot])
      ensures r.Ok? ==> LandsAs(w, u, r.value) && Follows(r.value, repo.rows[bot])
      ensures r.Ok? ==> r.value.leaseOwner == if u.release then None else Some(owner)
      ensures recorded <==> r.Ok? || r.VersionConflict?
      ensures now >= old(now)
    {
      hide LandedOf;
      Meanwhile();
      var answered: bool := *;
      if answered {
        r := repo.WriteObserved(bot, owner, w.version, u);
      } else {
        r := Unavailable;
      }
      recorded := r.Ok? || r.VersionConflict?;
      OneMoreTried(tried, Tried(u, r.Ok?));
      tried := tried + [Tried(u, r.Ok?)];
    }

    method DeriveStatus(bot: BotId, w: Row)
      modifies `derived
      ensures derived == match DeriveBotStatus(w)
                         case Some(status) => old(derived)[bot := status]
                         case None => old(derived)
    {
      var status := DeriveBotStatus(w);
      if status.Some? {
        derived := derived[bot := status.value];
      }
    }

    method Jitter() returns (rnd: real)
      ensures 0.0 <= rnd < 1.0
    {
      rnd :| 0.0 <= rnd < 1.0;
    }

    /** Handles a never-ready workspace whose container was built from another
        image than the one requested now. */
    method ReplaceStaleContainer(bot: BotId, w: Row) returns (e: Option<BackendError>, ghost asked: seq<Call>)
      modifies backend
      ensures backend.calls == old(backend.calls) + asked && Preparation(asked, bot, w)
      ensures LastError(asked) == if e.Some? then Some(AsStep(e.value, "teardown")) else None
    {
      asked := [];
      if w.everReady || w.image == "" {
        return None, asked;
      }
      var look := backend.Inspect(bot);
      asked := [Inspected(bot, look)];
      if look.Blind? {
        return Some(look.error), asked;
      }
      if !Stale(w, look.inspection) {
        return None, asked;
      }
      e := backend.Teardown(bot, true);
      asked := [Inspected(bot, look), TornDown(bot, true, e)];
    }

    /** Everything a provisioning asks of the backend. */
    method Build(bot: BotId, w: Row) returns (e: Option<StepError>, ghost asked: seq<Call>)
      modifies backend
      ensures backend.calls == old(backend.calls) + asked && ProvisionCalls(asked, bot, w)
      ensures e == LastError(asked)
    {
      hide Preparation, LastError, ProvisionCalls, MayReplace, Stale;
      ghost var prep;
      var stale;
      stale, prep := ReplaceStaleContainer(bot, w);
      if stale.Some? {
        PreparationFails(prep, bot, w);
        return Some(AsStep(stale.value, "teardown")), prep;
      }
      var err := backend.Provision(bot, w.image);
      asked := prep + [Provisioned(bot, w.image, err)];
      ProvisionFollows(prep, bot, w, err);
      e := if err.Some? then Some(AsStep(err.value, "start")) else None;
    }

    /** Records a failed provisioning. */
    method Fail(bot: BotId, w: Row, e: StepError) returns (out: Outcome)
      requires bot in repo.rows && Follows(w, repo.rows[bot]) && Accounted()
      modifies repo, `recorded, `now, `derived, `tried
      ensures bot in repo.rows && |tried| == |old(tried)| + 1 && old(tried) <= tried && Accounted()
      ensures IsFailure(opts, w, e, tried[|old(tried)|].write)
      ensures out == Lost(w) || (out.Recorded? && out.entry == w && out.write == tried[|old(tried)|].write)
      ensures out.Recorded? <==> tried[|old(tried)|].landed
      ensures out.Recorded? ==>
        && LandsAs(w, out.write, out.last)
        && (w.desired.Present? ==> bot in derived && derived[bot] == if w.everReady then Ready else FailedStatus)
      ensures out.Lost? ==> derived == old(derived)
    {
      var rnd := Jitter();
      var u := ProvisionFailure(opts, w, e, now, rnd);
      var r := WriteObserved(bot, w, u);
      if !r.Ok? {
        return Lost(w);
      }
      DeriveStatus(bot, r.value);
      out := Recorded(w, u, r.value);
    }

    /** Records a completed provisioning. */
    method Complete(bot: BotId, w: Row) returns (out: Outcome)
      requires bot in repo.rows && Follows(w, repo.rows[bot]) && Accounted()
      modifies repo, `recorded, `now, `derived, `tried
      ensures bot in repo.rows && |tried| == |old(tried)| + 1 && old(tried) <= tried && Accounted()
      ensures tried[|old(tried)|].write == RunningWrite(w, tried[|old(tried)|].write.nextAttempt)
      ensures out == Lost(w) || (out.Recorded? && out.entry == w && out.write == tried[|old(tried)|].write)
      ensures out.Recorded? <==> tried[|old(tried)|].landed
      ensures out.Recorded? ==>
        && LandsAs(w, out.write, out.last)
        && (w.desired.Present? ==> bot in derived && derived[bot] == Ready)
      ensures out.Lost? ==> derived == old(derived)
    {
      var u := RunningWrite(w, now);
      var r := WriteObserved(bot, w, u);
      if !r.Ok? {
        return Lost(w);
      }
      DeriveStatus(bot, r.value);
      out := Recorded(w, u, r.value);
    }

    /** A provisioning pass over the row `w` it claimed.  The write that enters it
        comes first.  Unless that lands the backend is not called and nothing more is
        written; once it has landed the backend is asked, and one more write is tried:
        `running` exactly when the backend built the requested image, and otherwise
        the failure of the call that ended the pass. */
    method Provision(bot: BotId, w: Row) returns (out: Outcome, ghost asked: seq<Call>)
      requires bot in repo.rows && Follows(w, repo.rows[bot]) && w.desired.Present? && Accounted()
      modifies repo, backend, `recorded, `now, `derived, `tried
      ensures backend.calls == old(backend.calls) + asked && Accounted()
      ensures old(tried) <= tried && |tried| == |old(tried)| + if out.Untouched? then 1 else 2
      ensures var first := tried[|old(tried)|];
        first.write == EntryWrite(w, first.write.nextAttempt) && (out.Untouched? <==> !first.landed)
      ensures out.Untouched? ==> asked == [] && derived == old(derived)
      ensures !out.Untouched? ==>
        && IsEntry(w, owner, out.entry) && ProvisionCalls(asked, bot, w)
        && var last := tried[|old(tried)| + 1];
           && ProvisionOutcome(opts, asked, out.entry, last.write)
           && (last.write.observed.Running? <==> asked[|asked| - 1] == Provisioned(bot, w.image, None))
           && (out.Lost? <==> !last.landed)
           && (out.Recorded? ==> out.write == last.write)
      ensures out.Recorded? ==>
        LandsAs(out.entry, out.write, out.last) && bot in derived && Some(derived[bot]) == DeriveBotStatus(out.last)
    {
      asked := [];
      var r := WriteObserved(bot, w, EntryWrite(w, now));
      if !r.Ok? {
        return Untouched, asked;
      }
      var cur := r.value;
      DeriveStatus(bot, cur);
      var e;
      e, asked := Build(bot, cur);
      assert ProvisionCalls(asked, bot, w);
      ProvisionCallsMean(asked, bot, w);
      if e.Some? {
        out := Fail(bot, cur, e.value);
      } else {
        out := Complete(bot, cur);
      }
    }

    /** Whether the backend says that it holds nothing for the bot; one that cannot
        say is taken to hold something. */
    method IsGone(bot: BotId) returns (b: bool, ghost look: Look)
      modifies backend
      ensures backend.calls == old(backend.calls) + [Inspected(bot, look)]
      ensures b <==> IsNothing(look)
    {
      var answer := backend.Inspect(bot);
      look := answer;
      b := answer.Saw? && !answer.inspection.exists_;
    }

    /** Everything a removal asks of the backend, and what it makes of the answers. */
    method Remove(bot: BotId, w: Row) returns (u: Write, ghost asked: seq<Call>)
      modifies backend
      ensures backend.calls == old(backend.calls) + asked
      ensures TeardownCalls(opts, asked, bot, w) && asked != [] && asked[0].TornDown?
      ensures TeardownOutcome(opts, asked, w, u)
      ensures u.observed.Absent? <==> asked[0].error.None?
      ensures u.observed.Failed? <==> |asked| == 2 && asked[1].Inspected? && !IsNothing(asked[1].look)
    {
      var e := backend.Teardown(bot, w.preserve);
      asked := [TornDown(bot, w.preserve, e)];
      if e.Some? {
        var step := AsStep(e.value, "teardown");
        var rnd := Jitter();
        var gone := false;
        if !WillRetry(opts, w, step) {
          ghost var look;
          gone, look := IsGone(bot);
          asked := [TornDown(bot, w.preserve, e), Inspected(bot, look)];
        }
        u := TeardownFailure(opts, w, step, gone, now, rnd);
        assert IsTeardownFailure(opts, w, step, gone, u);
      } else {
        u := AbsentWrite(w, now);
      }
      TeardownOutcomeMeans(opts, asked, bot, w, u);
    }

    /** A removal pass.  It tears down exactly once, with the preserve flag of the
        claimed intent, after the row reads `removing`; it asks whether anything
        is left only when it will not retry fast; and it records what those calls
        answered. */
    method Teardown(bot: BotId, w: Row) returns (out: Outcome, ghost asked: seq<Call>)
      requires bot in repo.rows && Follows(w, repo.rows[bot]) && w.desired.Gone? && Accounted()
      modifies repo, backend, `recorded, `now, `tried
      ensures backend.calls == old(backend.calls) + asked && Accounted()
      ensures old(tried) <= tried && |tried| == |old(tried)| + if out.Untouched? then 1 else 2
      ensures var first := tried[|old(tried)|];
        first.write == EntryWrite(w, first.write.nextAttempt) && (out.Untouched? <==> !first.landed)
      ensures out.Untouched? ==> asked == []
      ensures !out.Untouched? ==>
        && IsEntry(w, owner, out.entry) && TeardownCalls(opts, asked, bot, w)
        && var last := tried[|old(tried)| + 1];
           && TeardownOutcome(opts, asked, out.entry, last.write)
           && (last.write.observed.Absent? <==> asked[0].error.None?)
           && (last.write.observed.Failed? <==> |asked| == 2 && !IsNothing(asked[1].look))
           && (out.Lost? <==> !last.landed)
           && (out.Recorded? ==> out.write == last.write)
      ensures out.Recorded? ==> LandsAs(out.entry, out.write, out.last)
    {
      hide LandedOf, LastError, Preparation, ProvisionCalls, TeardownCalls, TeardownOutcome;
      asked := [];
      var r := WriteObserved(bot, w, EntryWrite(w, now));
      if !r.Ok? {
        return Untouched, asked;
      }
      var cur := r.value;
      var u;
      u, asked := Remove(bot, cur);
      SameRowSameCalls(opts, asked, bot, w, cur);
      var final := WriteObserved(bot, cur, u);
      out := if final.Ok? then Recorded(cur, u, final.value) else Lost(cur);
    }

    /** What a pass tries to write after its calls, by what it was to do. */
    ghost predicate PassOutcome(asked: seq<Call>, w: Row, entry: Row, u: Write) {
      match Decide(w)
      case NoAction => false
      case Provision => ProvisionOutcome(opts, asked, entry, u)
      case Teardown => asked != [] && asked[0].TornDown? && TeardownOutcome(opts, asked, entry, u)
    }

    /** One pass over a claimed row does what `Decide` says and nothing else: with
        nothing to do it at most answers the latest intent; otherwise it tries the
        entry write and, once that has landed, asks the backend and tries to write
        what came of it. */
    method ReconcileOne(bot: BotId, w: Row) returns (out: Outcome, ghost asked: seq<Call>)
      requires bot in repo.rows && Follows(w, repo.rows[bot]) && Accounted()
      modifies repo, backend, `recorded, `now, `derived, `tried
      ensures backend.calls == old(backend.calls) + asked && Accounted()
      ensures old(tried) <= tried
      ensures |tried| == |old(tried)| +
        if Decide(w).NoAction? then if w.Behind() then 1 else 0 else if out.Untouched? then 1 else 2
      ensures out.Untouched? || Decide(w).NoAction? ==> asked == []
      ensures Decide(w).NoAction? && !w.Behind() ==>
        out.Untouched? && repo.rows == old(repo.rows) && recorded == old(recorded)
      ensures Decide(w).NoAction? && w.Behind() ==>
        var only := tried[|old(tried)|];
        && only.write == CatchUpWrite(w, only.write.nextAttempt) && !out.Lost?
        && (out.Recorded? <==> only.landed) && (out.Recorded? ==> out.entry == w && out.write == only.write)
      ensures Decide(w).NoAction? && out.Recorded? ==> LandsAs(w, out.write, out.last) && out.last.Settled()
      ensures !Decide(w).NoAction? ==>
        var first := tried[|old(tried)|];
        first.write == EntryWrite(w, first.write.nextAttempt) && (out.Untouched? <==> !first.landed)
      ensures !Decide(w).NoAction? && !out.Untouched? ==>
        && IsEntry(w, owner, out.entry)
        && var last := tried[|old(tried)| + 1];
           && PassOutcome(asked, w, out.entry, last.write) && (out.Lost? <==> !last.landed)
           && asked != []
           && (last.write.observed.Running? <==> asked[|asked| - 1] == Provisioned(bot, w.image, None))
           && (last.write.observed.Absent? <==> asked[0].TornDown? && asked[0].error.None?)
           && (out.Recorded? ==> out.write == last.write && LandsAs(out.entry, out.write, out.last))
      ensures Decide(w).Provision? ==>
        forall k :: 0 <= k < |asked| && asked[k].TornDown? ==>
          && asked[k].preserve && !w.everReady && k == 1
          && asked[0].Inspected? && asked[0].look.Saw? && Stale(w, asked[0].look.inspection)
      ensures Decide(w).Provision? && !out.Untouched? ==> ProvisionCalls(asked, bot, w)
      ensures Decide(w).Teardown? && !out.Untouched? ==> TeardownCalls(opts, asked, bot, w)
      ensures !Decide(w).NoAction? && out.Recorded? ==>
        && SameIntent(w, out.last) && !out.last.Behind()
        && !out.last.observed.Provisioning? && !out.last.observed.Stopped?
    {
      hide ProvisionCalls, Preparation, LandedOf, LastError, Accounted;
      asked := [];
      match Decide(w) {
        case NoAction =>
          out := Untouched;
          if w.Behind() {
            var u := CatchUpWrite(w, now);
            var r := WriteObserved(bot, w, u);
            if r.Ok? {
              out := Recorded(w, u, r.value);
            }
          }
        case Provision =>
          out, asked := Provision(bot, w);
          if !out.Untouched? {
            ProvisionCallsMean(asked, bot, w);
          }
        case Teardown =>
          out, asked := Teardown(bot, w);
      }
    }

    /** An observation on demand.  It leaves a requested removal alone, asks the
        backend at most once whether the workspace is there, and writes only what
        it saw. */
    method Observe(bot: BotId) returns (r: Result<Row>, seen: Option<Observed>, ghost looks: seq<Look>)
      requires Accounted()
      modifies repo, backend, `recorded, `now, `derived, `tried
      ensures Accounted()
      ensures tried == old(tried) ||
        (&& |tried| == |old(tried)| + 1 && old(tried) <= tried && looks != [] && looks[0].Saw?
         && var last := tried[|old(tried)|];
            && IsObservation(last.write, looks[0].inspection.Observed()) && (seen.Some? <==> last.landed))
      ensures seen.Some? ==> |tried| == |old(tried)| + 1
      ensures backend.calls == old(backend.calls) + if looks == [] then [] else [Inspected(bot, looks[0])]
      ensures |looks| <= 1
      ensures bot in old(repo.rows) && old(repo.rows)[bot].desired.Gone? ==>
        repo.rows == old(repo.rows) && looks == [] && seen.None?
      ensures seen.Some? ==>
        && looks != [] && looks[0].Saw? && seen.value == looks[0].inspection.Observed()
        && r.Ok? && r.value.observed == seen.value && r.value.attempts == 0 && r.value.leaseOwner.None?
        && (seen.value.Running? ==> r.value.everReady)
        && (!r.value.desired.Gone? ==> bot in derived && Some(derived[bot]) == DeriveBotStatus(r.value))
      ensures seen.None? ==> derived == old(derived)
      ensures looks != [] && looks[0].Blind? ==> r.Unavailable? && seen.None?
      ensures r.Ok? && looks != [] ==> looks[0].Saw? && r.value.observed == looks[0].inspection.Observed()
    {
      hide LandedOf, IsObservation, CanWrite;
      seen, looks := None, [];
      if bot !in repo.rows {
        return NotFound, None, [];
      }
      if repo.rows[bot].desired.Gone? {
        return Ok(repo.rows[bot]), None, [];
      }
      Meanwhile();
      r := repo.ClaimOne(bot, owner, opts.lease, now);
      if !r.Ok? {
        return;
      }
      var w := r.value;
      if !w.observed.Provisioning? && !w.observed.Removing? {
        var look := backend.Inspect(bot);
        looks := [look];
        if look.Blind? {
          r := Unavailable;
        } else if look.inspection.Observed() != w.observed {
          var u := ObservationWrite(w, look.inspection.Observed(), now);
          SeenOnce(w, look.inspection.Observed(), now);
          r := WriteObserved(bot, w, u);
          if r.Ok? {
            seen := Some(u.observed);
            DeriveStatus(bot, r.value);
          }
        }
      }
      repo.Release(bot, owner);
    }
  }
}
