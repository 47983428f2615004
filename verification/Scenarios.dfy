/** Playing lists of steps one after another: a small calculus of reachability. */
module Scenarios {
  import opened Options
  import opened Workspace
  import opened Repository
  import opened Passes
  import opened Protocol
  import opened Lease

  /** `rest` is what remains to be played from `t`, having played `steps` from `s`. */
  ghost predicate Reaches(c: Config, s: State, steps: seq<Step>, t: State) {
    forall rest :: Play(c, s, steps + rest) == Play(c, t, rest)
  }

  /** One more step in front. */
  lemma ReachesOne(c: Config, s: State, step: Step, steps: seq<Step>, m: State, t: State, all: seq<Step>)
    requires Enabled(s, step) && !step.Tick? && m == Next(c, s, step) && Reaches(c, m, steps, t)
    requires all == [step] + steps
    ensures Reaches(c, s, all, t)
  {
    hide Next, Enabled, Play;
    forall rest ensures Play(c, s, all + rest) == Play(c, t, rest) {
      assert all + rest == [step] + (steps + rest);
      PlayOne(c, s, step, steps + rest, m);
      assert Play(c, m, steps + rest) == Play(c, t, rest);
    }
  }

  lemma ReachesNothing(c: Config, s: State)
    ensures Reaches(c, s, [], s)
  {
    hide Play;
    forall rest: seq<Step> ensures Play(c, s, [] + rest) == Play(c, s, rest) {
      assert [] + rest == rest;
    }
  }

  lemma ReachesBoth(c: Config, s: State, a: seq<Step>, m: State, b: seq<Step>, t: State)
    requires Reaches(c, s, a, m) && Reaches(c, m, b, t)
    ensures Reaches(c, s, a + b, t)
  {
    hide Play;
    forall rest ensures Play(c, s, (a + b) + rest) == Play(c, t, rest) {
      assert (a + b) + rest == a + (b + rest);
    }
  }

  /** What a claim and the entry write of an idle instance lead to. */
  function EnteredBy(c: Config, s: State, o: Owner): State {
    var w := LeasedTo(s.row, o, s.now + c.lease);
    var v := Written(w, EntryWrite(w, s.now));
    SetPass(s.(row := v), o, Pass(w.version, v, Entered(s.now + c.writeTimeout)))
  }

  lemma EnterReaches(c: Config, s: State, o: Owner)
    requires c.Valid() && s.row.Due(s.now) && o !in s.passes && !Decide(s.row).NoAction?
    ensures Reaches(c, s, [Claim(o), Start(o), Enter(o)], EnteredBy(c, s, o))
  {
    hide Play, Reaches;
    var s1 := ClaimedBy(c, s, o);
    var s2 := StartPass(c, s1, o);
    var s3 := EntryTried(s2, o);
    assert s3 == EnteredBy(c, s, o);
    ReachesNothing(c, s3);
    ReachesOne(c, s2, Enter(o), [], s3, s3, [Enter(o)]);
    ReachesOne(c, s1, Start(o), [Enter(o)], s2, s3, [Start(o), Enter(o)]);
    ReachesOne(c, s, Claim(o), [Start(o), Enter(o)], s1, s3, [Claim(o), Start(o), Enter(o)]);
  }

  lemma PlayedBy(c: Config, s: State, steps: seq<Step>, t: State)
    requires Reaches(c, s, steps, t)
    ensures Play(c, s, steps) == Some(t)
  {
    assert steps + [] == steps;
    assert Play(c, s, steps + []) == Play(c, t, []);
  }
}
