/** No reachable row is stuck: as soon as its clock allows, any one instance with a
    healthy backend settles it, whatever the passes before it left behind. */
module Progress {
  import opened Options
  import opened Workspace
  import opened Repository
  import opened Passes
  import opened Protocol
  import opened Lease
  import opened Scenarios

  /** The instant from which a pending row is due. */
  function DueFrom(w: Row): Time {
    if w.leaseUntil.Some? then Max(w.nextAttempt, w.leaseUntil.value + 1) else w.nextAttempt
  }

  lemma DueInTheEnd(w: Row, now: Time)
    ensures w.Due(now) <==> w.Pending() && DueFrom(w) <= now
  {
  }

  /** Nothing is left to do for the row. */
  predicate Served(w: Row) {
    w.Settled() && !w.Pending() && Decide(w).NoAction?
  }

  /** In `t` the intent that `s` carries is answered for good. */
  predicate Serves(s: State, t: State) {
    Served(t.row) && t.row.desired == s.row.desired && t.row.generation == s.row.generation
  }

  lemma CatchUpServes(c: Config, s: State, q: Owner) returns (t: State)
    requires s.row.Due(s.now) && q !in s.passes && Decide(s.row).NoAction?
    ensures Reaches(c, s, [Claim(q), Start(q), Finish(q)], t) && Serves(s, t)
  {
    hide Play, Reaches;
    PendingIffSomethingToDo(s.row);
    var s1 := ClaimedBy(c, s, q);
    var s2 := StartPass(c, s1, q);
    t := OutcomeTried(s2, q);
    ReachesNothing(c, t);
    ReachesOne(c, s2, Finish(q), [], t, t, [Finish(q)]);
    ReachesOne(c, s1, Start(q), [Finish(q)], s2, t, [Start(q), Finish(q)]);
    ReachesOne(c, s, Claim(q), [Start(q), Finish(q)], s1, t, [Claim(q), Start(q), Finish(q)]);
  }

  /** A pass at work on the very row it last wrote. */
  predicate Current(s: State, q: Owner) {
    q in s.passes && s.row == s.passes[q].row && s.row.leaseOwner == Some(q)
  }

  /** The world with the workspace removed, its data exported. */
  function Exported(w: World): World {
    World(None, w.Data())
  }

  /** The world with the workspace running from `image`. */
  function Provisioned(w: World, image: string): World {
    w.(container := Some(Container(image, true, if w.container.Some? then w.container.value.data else {})))
  }

  lemma TeardownServes(c: Config, s: State, q: Owner) returns (steps: seq<Step>, t: State)
    requires Current(s, q) && s.passes[q].phase.Entered? && s.row.desired.Gone? && !s.row.Behind()
    ensures Reaches(c, s, steps, t) && Serves(s, t) && t.world.container.None?
  {
    hide Play, Reaches;
    var w := Exported(s.world);
    var s1 := Replied(c, s, q);
    var s2 := Succeeded(s1.(world := w), q);
    t := OutcomeTried(s2, q);
    steps := [Reply(q), Succeed(q, w), Finish(q)];
    ReachesNothing(c, t);
    ReachesOne(c, s2, Finish(q), [], t, t, [Finish(q)]);
    ReachesOne(c, s1, Succeed(q, w), [Finish(q)], s2, t, [Succeed(q, w), Finish(q)]);
    ReachesOne(c, s, Reply(q), [Succeed(q, w), Finish(q)], s1, t, steps);
  }

  lemma StartServes(c: Config, s: State, q: Owner) returns (steps: seq<Step>, t: State)
    requires Current(s, q) && InOperation(s, q) && s.passes[q].phase.op.Starting?
    requires s.row.desired.Present? && !s.row.Behind()
    ensures Reaches(c, s, steps, t) && Serves(s, t) && t.world.container.Some?
  {
    hide Play, Reaches;
    var w := Provisioned(s.world, s.row.image);
    var s1 := Succeeded(s.(world := w), q);
    t := OutcomeTried(s1, q);
    steps := [Succeed(q, w), Finish(q)];
    ReachesNothing(c, t);
    ReachesOne(c, s1, Finish(q), [], t, t, [Finish(q)]);
    ReachesOne(c, s, Succeed(q, w), [Finish(q)], s1, t, steps);
  }

  lemma ReplaceServes(c: Config, s: State, q: Owner) returns (steps: seq<Step>, t: State)
    requires Current(s, q) && InOperation(s, q) && s.passes[q].phase.op.Replacing?
    requires s.row.desired.Present? && !s.row.Behind()
    ensures Reaches(c, s, steps, t) && Serves(s, t) && t.world.container.Some?
  {
    hide Play, Reaches;
    var w := Exported(s.world);
    var s1 := Succeeded(s.(world := w), q);
    var rest;
    rest, t := StartServes(c, s1, q);
    steps := [Succeed(q, w)] + rest;
    ReachesOne(c, s, Succeed(q, w), rest, s1, t, steps);
  }

  lemma InspectServes(c: Config, s: State, q: Owner) returns (steps: seq<Step>, t: State)
    requires Current(s, q) && InOperation(s, q) && s.passes[q].phase.op.Inspecting?
    requires s.row.desired.Present? && !s.row.Behind()
    ensures Reaches(c, s, steps, t) && Serves(s, t) && t.world.container.Some?
  {
    hide Play, Reaches;
    var s1 := Succeeded(s.(world := s.world), q);
    var rest;
    if s1.passes[q].phase.op.Replacing? {
      rest, t := ReplaceServes(c, s1, q);
    } else {
      rest, t := StartServes(c, s1, q);
    }
    steps := [Succeed(q, s.world)] + rest;
    ReachesOne(c, s, Succeed(q, s.world), rest, s1, t, steps);
  }

  lemma ProvisionServes(c: Config, s: State, q: Owner) returns (steps: seq<Step>, t: State)
    requires Current(s, q) && s.passes[q].phase.Entered? && s.row.desired.Present? && !s.row.Behind()
    ensures Reaches(c, s, steps, t) && Serves(s, t) && t.world.container.Some?
  {
    hide Play, Reaches;
    var s1 := Replied(c, s, q);
    var s2 := ProvisionBegun(c, s1, q);
    var rest;
    if s2.passes[q].phase.op.Inspecting? {
      rest, t := InspectServes(c, s2, q);
    } else {
      rest, t := StartServes(c, s2, q);
    }
    ReachesOne(c, s1, Derived(q), rest, s2, t, [Derived(q)] + rest);
    steps := [Reply(q)] + ([Derived(q)] + rest);
    ReachesOne(c, s, Reply(q), [Derived(q)] + rest, s1, t, steps);
  }

  /** From any state in which the row is due, an instance that has no pass over it
      and a backend that obeys settle it without any time passing: a wanted
      workspace exists in the end, an unwanted one does not. */
  lemma NeverStuck(c: Config, s: State, q: Owner) returns (steps: seq<Step>, t: State)
    requires c.Valid() && s.row.Due(s.now) && q !in s.passes
    ensures Play(c, s, steps) == Some(t) && Serves(s, t)
    ensures !Decide(s.row).NoAction? ==> (t.world.container.Some? <==> s.row.desired.Present?)
  {
    hide Play, Reaches, Next, Enabled, Decide;
    if Decide(s.row).NoAction? {
      t := CatchUpServes(c, s, q);
      steps := [Claim(q), Start(q), Finish(q)];
    } else {
      var m := EnteredBy(c, s, q);
      EnterReaches(c, s, q);
      var rest;
      if s.row.desired.Present? {
        rest, t := ProvisionServes(c, m, q);
      } else {
        rest, t := TeardownServes(c, m, q);
      }
      steps := [Claim(q), Start(q), Enter(q)] + rest;
      ReachesBoth(c, s, [Claim(q), Start(q), Enter(q)], m, rest, t);
    }
    PlayedBy(c, s, steps, t);
  }
}
