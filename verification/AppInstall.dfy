/** Materializing an App release, pruning what a release no longer references, and
    what every history of such operations keeps. */
module AppInstall {
  import opened Options
  import opened InstallOrder
  import opened AppRecords
  import opened AppRemoval

  datatype ConnNeed = ConnNeed(kind: ConnType, required: bool)

  datatype Release = Release(app: AppId, revision: nat, deps: seq<DepId>, conns: seq<ConnNeed>)

  datatype Component = OfDependency | OfSkills | OfConnector

  datatype StepStatus = WasLinked | WasInstalled | HasFailed | WasKept | WasRemoved | WasUnlinked | NeedsAuth

  datatype StepResult = StepResult(kind: Component, id: nat, status: StepStatus, code: Code)

  predicate SomeFailed(steps: seq<StepResult>) {
    exists k :: 0 <= k < |steps| && steps[k].status.HasFailed?
  }

  /** The code of the first failed step, empty when none failed. */
  function FirstCode(steps: seq<StepResult>): Code {
    if steps == [] then "" else
    var before := FirstCode(steps[..|steps| - 1]);
    if SomeFailed(steps[..|steps| - 1]) then before
    else if steps[|steps| - 1].status.HasFailed? then steps[|steps| - 1].code
    else ""
  }

  lemma {:induction false} FirstCodeIsFirst(steps: seq<StepResult>, k: nat)
    requires k < |steps| && steps[k].status.HasFailed?
    requires forall j :: 0 <= j < k ==> !steps[j].status.HasFailed?
    ensures FirstCode(steps) == steps[k].code
  {
    var init := steps[..|steps| - 1];
    if k < |steps| - 1 {
      FirstCodeIsFirst(init, k);
      assert init[k].status.HasFailed?;
    } else {
      assert !SomeFailed(init);
    }
  }

  /** The running account of an operation: steps so far, whether the result is
      partial, and the code it will be recorded with. */
  datatype Ledger = Ledger(steps: seq<StepResult>, partial: bool, first: Code)
  {
    ghost predicate Valid() {
      && (SomeFailed(steps) ==> partial)
      && first == FirstCode(steps)
      && (forall k :: 0 <= k < |steps| && steps[k].status.HasFailed? ==> steps[k].code != "")
    }

    function Record(s: StepResult): (l: Ledger)
      requires s.status.HasFailed? ==> s.code != ""
      ensures Valid() ==> l.Valid()
      ensures l.steps == steps + [s] && l.partial == (partial || s.status.HasFailed?)
    {
      var l := Ledger(steps + [s], partial || s.status.HasFailed?,
                      if s.status.HasFailed? && first == "" then s.code else first);
      assert Valid() ==> l.Valid() by {
        if Valid() { RecordKeeps(this, s, l); }
      }
      l
    }
  }

  lemma {:induction false} NoCodeWithoutFailure(steps: seq<StepResult>)
    requires forall k :: 0 <= k < |steps| && steps[k].status.HasFailed? ==> steps[k].code != ""
    ensures FirstCode(steps) == "" <==> !SomeFailed(steps)
  {
    if steps != [] {
      var init := steps[..|steps| - 1];
      NoCodeWithoutFailure(init);
      if SomeFailed(init) {
        var k :| 0 <= k < |init| && init[k].status.HasFailed?;
        assert steps[k].status.HasFailed?;
      }
    }
  }

  lemma RecordKeeps(l: Ledger, s: StepResult, m: Ledger)
    requires l.Valid() && (s.status.HasFailed? ==> s.code != "")
    requires m == Ledger(l.steps + [s], l.partial || s.status.HasFailed?,
                         if s.status.HasFailed? && l.first == "" then s.code else l.first)
    ensures m.Valid()
  {
    assert m.steps[..|m.steps| - 1] == l.steps;
    NoCodeWithoutFailure(l.steps);
    if SomeFailed(m.steps) && !s.status.HasFailed? {
      var k :| 0 <= k < |m.steps| && m.steps[k].status.HasFailed?;
      assert l.steps[k].status.HasFailed?;
    }
  }

  /** Nothing of any other installation changes. */
  ghost predicate OthersSame(a: Books, b: Books, i: InstId) {
    forall x: InstId :: x != i ==> SameFor(a, b, x)
  }

  lemma OthersSameThen(a: Books, b: Books, c: Books, i: InstId)
    requires OthersSame(a, b, i) && OthersSame(b, c, i)
    ensures OthersSame(a, c, i)
  {
    forall x: InstId | x != i ensures SameFor(a, c, x) {
      SameForTransitive(a, b, c, x);
    }
  }

  // ---------------------------------------------------------------------------
  // Dependencies

  /** What the release's dependency steps are about, in their order. */
  predicate DependencySteps(steps: seq<StepResult>, order: seq<DepId>) {
    && |steps| == |order|
    && forall k :: 0 <= k < |steps| ==>
         steps[k].kind.OfDependency? && steps[k].id == order[k]
         && (steps[k].status.WasLinked? || steps[k].status.WasInstalled? || steps[k].status.HasFailed?)
  }

  /** What the workspace lists, or why it could not be listed. */
  datatype Listing = Listed(entries: Entries) | Unlisted(code: Code)

  predicate Usable(entries: Entries, d: DepId) {
    d in entries && entries[d].present && entries[d].usable
  }

  /** A requirement of the k-th step failed before it. */
  predicate Blocked(entries: Entries, steps: seq<StepResult>, k: nat)
    requires k < |steps|
  {
    && steps[k].id in entries
    && exists j :: 0 <= j < k && steps[j].status.HasFailed? && steps[j].id in entries[steps[k].id].needs
  }

  /** The k-th step depends on what the workspace answers. */
  predicate IsAsked(entries: Entries, steps: seq<StepResult>, k: nat)
    requires k < |steps|
  {
    !Usable(entries, steps[k].id) && !Blocked(entries, steps, k)
  }

  /** The k-th step is what the operation knew at that point. */
  predicate StepFits(wired: bool, listing: Listing, steps: seq<StepResult>, k: nat)
    requires k < |steps|
  {
    var s := steps[k];
    if !wired then s.status.HasFailed? && s.code == "app.dependencies_unavailable"
    else if listing.Unlisted? then s.status.HasFailed? && s.code == listing.code
    else if Usable(listing.entries, s.id) then s.status.WasLinked?
    else if Blocked(listing.entries, steps, k) then s.status.HasFailed? && s.code == "app.prerequisite_failed"
    else s.status.WasInstalled? || s.status.HasFailed?
  }

  /** The installation asked for at a step, with the answer the step reports. */
  function AskOf(s: StepResult): InstallAsk {
    InstallAsk(s.id, if s.status.WasInstalled? then None else Some(s.code))
  }

  function AsksOf(entries: Entries, steps: seq<StepResult>, n: nat): seq<InstallAsk>
    requires n <= |steps|
  {
    if n == 0 then [] else
      AsksOf(entries, steps, n - 1) + if IsAsked(entries, steps, n - 1) then [AskOf(steps[n - 1])] else []
  }

  /** The steps report exactly what was known and what was asked: a usable copy is
      linked, a failed requirement passes its failure on, and everything else was
      asked of the workspace, once and in order, and reports its answer. */
  ghost predicate Faithful(wired: bool, listing: Listing, steps: seq<StepResult>, asks: seq<InstallAsk>) {
    && (forall k :: 0 <= k < |steps| ==> StepFits(wired, listing, steps, k))
    && asks == if wired && listing.Listed? then AsksOf(listing.entries, steps, |steps|) else []
  }

  /** Nothing was installed once one of its requirements had failed. */
  predicate NothingOnFailed(steps: seq<StepResult>, needs: Catalog) {
    forall j, k ::
      0 <= j < k < |steps| && steps[k].status.WasInstalled? && steps[k].id in needs && steps[j].status.HasFailed? ==>
        steps[j].id !in needs[steps[k].id]
  }

  lemma FaithfulInstalls(wired: bool, listing: Listing, steps: seq<StepResult>, asks: seq<InstallAsk>, needs: Catalog)
    requires Faithful(wired, listing, steps, asks)
    requires wired && listing.Listed? ==> Needs(listing.entries) == needs
    ensures NothingOnFailed(steps, needs)
  {
    forall j, k | 0 <= j < k < |steps| && steps[k].status.WasInstalled? && steps[k].id in needs && steps[j].status.HasFailed?
      ensures steps[j].id !in needs[steps[k].id]
    {
      assert StepFits(wired, listing, steps, k);
      assert needs[steps[k].id] == listing.entries[steps[k].id].needs;
      assert !Blocked(listing.entries, steps, k);
    }
  }

  /** With prerequisites first, whatever was installed had all it needs in place
      before. */
  lemma InstalledOnSolidGround(steps: seq<StepResult>, order: seq<DepId>, needs: Catalog, k: nat, r: DepId)
    requires DependencySteps(steps, order) && NothingOnFailed(steps, needs) && PrerequisitesFirst(needs, order)
    requires k < |steps| && steps[k].status.WasInstalled? && r in needs[order[k]]
    ensures exists j :: 0 <= j < k && steps[j].id == r && (steps[j].status.WasLinked? || steps[j].status.WasInstalled?)
  {
    var j :| 0 <= j < k && order[j] == r;
    assert steps[j].id == r;
  }

  lemma {:induction false} AsksStay(entries: Entries, steps: seq<StepResult>, more: seq<StepResult>, n: nat)
    requires n <= |steps| && steps <= more
    ensures AsksOf(entries, more, n) == AsksOf(entries, steps, n)
  {
    if n > 0 {
      AsksStay(entries, steps, more, n - 1);
      BlockedStays(entries, steps, more, n - 1);
    }
  }

  lemma BlockedStays(entries: Entries, steps: seq<StepResult>, more: seq<StepResult>, k: nat)
    requires k < |steps| && steps <= more
    ensures Blocked(entries, more, k) <==> Blocked(entries, steps, k)
  {
    if Blocked(entries, steps, k) {
      var j :| 0 <= j < k && steps[j].status.HasFailed? && steps[j].id in entries[steps[k].id].needs;
      assert more[j].status.HasFailed?;
    }
  }

  lemma FaithfulGrows(wired: bool, listing: Listing, steps: seq<StepResult>, asks: seq<InstallAsk>, s: StepResult,
                      more: seq<InstallAsk>)
    requires Faithful(wired, listing, steps, asks)
    requires StepFits(wired, listing, steps + [s], |steps|)
    requires more == if wired && listing.Listed? && IsAsked(listing.entries, steps + [s], |steps|) then [AskOf(s)] else []
    ensures Faithful(wired, listing, steps + [s], asks + more)
  {
    var all := steps + [s];
    forall k | 0 <= k < |all| ensures StepFits(wired, listing, all, k) {
      if k < |steps| {
        assert StepFits(wired, listing, steps, k);
        if listing.Listed? { BlockedStays(listing.entries, steps, all, k); }
      }
    }
    if wired && listing.Listed? {
      AsksStay(listing.entries, steps, all, |steps|);
    }
  }

  function FailedIds(steps: seq<StepResult>): (ids: set<DepId>)
    ensures forall k :: 0 <= k < |steps| && steps[k].status.HasFailed? ==> steps[k].id in ids
    ensures forall d :: d in ids ==> exists k :: 0 <= k < |steps| && steps[k].status.HasFailed? && steps[k].id == d
  {
    set k | 0 <= k < |steps| && steps[k].status.HasFailed? :: steps[k].id
  }

  lemma FailedIdsGrow(steps: seq<StepResult>, s: StepResult)
    ensures FailedIds(steps + [s]) == FailedIds(steps) + if s.status.HasFailed? then {s.id} else {}
  {
    var all := steps + [s];
    assert forall k :: 0 <= k < |steps| ==> all[k] == steps[k];
    assert all[|steps|] == s;
    forall d | d in FailedIds(steps) ensures d in FailedIds(all) {
      var k :| 0 <= k < |steps| && steps[k].status.HasFailed? && steps[k].id == d;
      assert all[k].id == d;
    }
  }

  /** The account of the dependencies gone through so far. */
  ghost predicate Underway(wired: bool, listing: Listing, order: seq<DepId>, l: Ledger, failed: set<DepId>,
                           asks: seq<InstallAsk>)
  {
    && l.Valid() && (l.partial <==> SomeFailed(l.steps))
    && DependencySteps(l.steps, order) && Faithful(wired, listing, l.steps, asks)
    && (wired && listing.Listed? ==> failed == FailedIds(l.steps))
  }

  lemma OneStepMore(wired: bool, listing: Listing, order: seq<DepId>, l: Ledger, failed: set<DepId>, asks: seq<InstallAsk>,
                    d: DepId, s: StepResult, now: set<DepId>, more: seq<InstallAsk>)
    requires Underway(wired, listing, order, l, failed, asks)
    requires s.kind.OfDependency? && s.id == d && (s.status.HasFailed? ==> s.code != "")
    requires s.status.WasLinked? || s.status.WasInstalled? || s.status.HasFailed?
    requires StepFits(wired, listing, l.steps + [s], |l.steps|)
    requires more == if wired && listing.Listed? && IsAsked(listing.entries, l.steps + [s], |l.steps|) then [AskOf(s)] else []
    requires wired && listing.Listed? ==> now == failed + if s.status.HasFailed? then {d} else {}
    ensures Underway(wired, listing, order + [d], l.Record(s), now, asks + more)
    ensures SomeFailed(l.Record(s).steps) <==> SomeFailed(l.steps) || s.status.HasFailed?
  {
    hide StepFits, IsAsked, Faithful, FailedIds, DependencySteps, SomeFailed, FirstCode;
    StepsGrow(l.steps, s, order, d);
    FailedIdsGrow(l.steps, s);
    FaithfulGrows(wired, listing, l.steps, asks, s, more);
  }

  /** Only references of `i` to dependencies of the release were added, among them
      those gone through. */
  ghost predicate RefsGrew(a: Books, b: Books, i: InstId, direct: seq<DepId>, done: seq<DepId>) {
    && b == a.(refs := b.refs)
    && (forall r: Ref :: r.inst != i || r.dep !in direct ==> (r in b.refs <==> r in a.refs))
    && (forall d :: d in direct && d in done ==> Ref(i, d) in b.refs)
  }

  lemma OneRefMore(a: Books, b: Books, c: Books, i: InstId, direct: seq<DepId>, done: seq<DepId>, d: DepId)
    requires RefsGrew(a, b, i, direct, done)
    requires c == if d in direct then b.WithRef(i, d) else b
    ensures RefsGrew(a, c, i, direct, done + [d]) && RefsGrew(a, b, i, direct, done)
  {
  }

  /** Refers the App to its dependencies and installs what is missing, in order;
      a failed dependency does not stop the others, only those that need it. */
  method InstallDependencies(b: Bot, i: InstId, direct: seq<DepId>, listing: Listing, order: seq<DepId>)
    returns (ok: bool, l: Ledger)
    requires b.Valid() && i in b.books.insts
    requires b.hasDependencies && listing.Listed? ==> Needs(listing.entries) == Needs(b.entries)
    requires listing.Unlisted? ==> listing.code != ""
    modifies b`books, b`entries, b`log
    ensures b.Valid() && l.Valid() && OnlyGains(old(b.entries), b.entries)
    ensures b.books == old(b.books).(refs := b.books.refs) && OthersSame(old(b.books), b.books, i)
    ensures old(b.log).installs <= b.log.installs && b.log == old(b.log).(installs := b.log.installs)
    ensures ok ==> forall d :: d in direct && d in order ==> Ref(i, d) in b.books.refs
    ensures ok ==> DependencySteps(l.steps, order)
    ensures Faithful(b.hasDependencies, listing, l.steps, b.log.installs[|old(b.log).installs|..])
    ensures ok ==> (l.partial <==> SomeFailed(l.steps))
    ensures b.healthy ==> ok
    ensures b.healthy && b.hasDependencies && listing.Listed? && (forall d :: d in order ==> d in old(b.entries)) ==>
      !SomeFailed(l.steps)
  {
    hide DependencySteps, Faithful, SomeFailed, FirstCode, FailedIds, StepFits, IsAsked, OthersSame, SameFor;
    hide Underway, RefsGrew, Books.Valid, OnlyGains;
    l := Ledger([], false, "");
    NoSteps(b.hasDependencies, listing, b.books, i, direct);
    var failed: set<DepId> := {};
    ghost var start, asks: seq<InstallAsk> := b.log.installs, [];
    assert start + asks == start && order[..0] == [];
    NothingGained(b.entries);
    for k := 0 to |order|
      invariant b.Valid() && OnlyGains(old(b.entries), b.entries) && i in b.books.insts
      invariant RefsGrew(old(b.books), b.books, i, direct, order[..k])
      invariant Underway(b.hasDependencies, listing, order[..k], l, failed, asks)
      invariant b.log == old(b.log).(installs := start + asks)
      invariant b.healthy && b.hasDependencies && listing.Listed? && (forall d :: d in order ==> d in old(b.entries)) ==>
        !SomeFailed(l.steps)
    {
      var d := order[k];
      assert order[..k + 1] == order[..k] + [d];
      Standing(b.hasDependencies, listing, order[..k], l, failed, asks);
      AddedRefIsValid(b.books, i, d);
      OneRefMore(old(b.books), b.books, if d in direct then b.books.WithRef(i, d) else b.books, i, direct, order[..k], d);
      if d in direct {
        ok := b.AddRef(i, d);
        if !ok {
          assert b.log.installs[|start|..] == asks;
          RefsOf(old(b.books), b.books, i, direct, order[..k]);
          return;
        }
      }
      ghost var was, before := l, b.log;
      SameNeeds(old(b.entries), b.entries);
      var s;
      ghost var blocked, entries := failed, b.entries;
      s, failed := InstallOne(b, d, listing, failed, l.steps);
      GainsAdd(old(b.entries), entries, b.entries);
      l := l.Record(s);
      ghost var more := b.log.installs[|before.installs|..];
      OneStepMore(b.hasDependencies, listing, order[..k], was, blocked, asks, d, s, failed, more);
      assert b.log.installs == start + (asks + more);
      asks := asks + more;
    }
    assert order[..|order|] == order;
    assert b.log.installs[|start|..] == asks;
    Standing(b.hasDependencies, listing, order, l, failed, asks);
    RefsOf(old(b.books), b.books, i, direct, order);
    ok := true;
  }

  lemma NothingGained(entries: Entries)
    ensures OnlyGains(entries, entries)
  {
  }

  lemma GainsAdd(a: Entries, b: Entries, c: Entries)
    requires OnlyGains(a, b) && OnlyGains(b, c)
    ensures OnlyGains(a, c) && a.Keys == c.Keys
  {
  }

  lemma AddedRefIsValid(books: Books, i: InstId, d: DepId)
    requires books.Valid() && i in books.insts
    ensures books.WithRef(i, d).Valid() && i in books.WithRef(i, d).insts
  {
  }

  lemma Standing(wired: bool, listing: Listing, order: seq<DepId>, l: Ledger, failed: set<DepId>, asks: seq<InstallAsk>)
    requires Underway(wired, listing, order, l, failed, asks)
    ensures l.Valid() && (l.partial <==> SomeFailed(l.steps))
    ensures DependencySteps(l.steps, order) && Faithful(wired, listing, l.steps, asks)
    ensures wired && listing.Listed? ==> failed == FailedIds(l.steps) && (!SomeFailed(l.steps) ==> failed == {})
  {
  }

  lemma RefsOf(a: Books, b: Books, i: InstId, direct: seq<DepId>, done: seq<DepId>)
    requires RefsGrew(a, b, i, direct, done)
    ensures b == a.(refs := b.refs) && OthersSame(a, b, i)
    ensures forall d :: d in direct && d in done ==> Ref(i, d) in b.refs
  {
  }

  lemma NoSteps(wired: bool, listing: Listing, books: Books, i: InstId, direct: seq<DepId>)
    ensures Underway(wired, listing, [], Ledger([], false, ""), {}, []) && !SomeFailed([])
    ensures RefsGrew(books, books, i, direct, [])
  {
  }

  lemma StepsGrow(steps: seq<StepResult>, s: StepResult, order: seq<DepId>, d: DepId)
    requires DependencySteps(steps, order)
    requires s.kind.OfDependency? && s.id == d
    requires s.status.WasLinked? || s.status.WasInstalled? || s.status.HasFailed?
    ensures DependencySteps(steps + [s], order + [d])
    ensures SomeFailed(steps + [s]) <==> SomeFailed(steps) || s.status.HasFailed?
  {
    var all := steps + [s];
    if SomeFailed(steps) {
      var k :| 0 <= k < |steps| && steps[k].status.HasFailed?;
      assert all[k].status.HasFailed?;
    }
    if s.status.HasFailed? { assert all[|steps|].status.HasFailed?; }
  }

  /** One dependency: linked when usable, left out when a requirement failed, else
      asked of the workspace, whose answer the step reports. */
  method InstallOne(b: Bot, d: DepId, listing: Listing, failed: set<DepId>, ghost was: seq<StepResult>)
    returns (s: StepResult, nowFailed: set<DepId>)
    requires b.hasDependencies && listing.Listed? ==> Needs(listing.entries) == Needs(b.entries)
    requires b.hasDependencies && listing.Listed? ==> failed == FailedIds(was)
    requires listing.Unlisted? ==> listing.code != ""
    modifies b`entries, b`log
    ensures s.kind.OfDependency? && s.id == d && (s.status.HasFailed? ==> s.code != "")
    ensures s.status.WasLinked? || s.status.WasInstalled? || s.status.HasFailed?
    ensures OnlyGains(old(b.entries), b.entries)
    ensures StepFits(b.hasDependencies, listing, was + [s], |was|)
    ensures b.log ==
      if b.hasDependencies && listing.Listed? && IsAsked(listing.entries, was + [s], |was|)
      then old(b.log).AskInstall(d, AskOf(s).answer) else old(b.log)
    ensures b.hasDependencies && listing.Listed? ==> nowFailed == failed + if s.status.HasFailed? then {d} else {}
    ensures s.status.WasInstalled? ==> d in b.entries && b.entries[d].present && b.entries[d].usable
    ensures b.healthy && b.hasDependencies && listing.Listed? && failed == {} && d in old(b.entries) ==> !s.status.HasFailed?
  {
    nowFailed := failed;
    if !b.hasDependencies {
      return StepResult(OfDependency, d, HasFailed, "app.dependencies_unavailable"), nowFailed;
    }
    if listing.Unlisted? {
      return StepResult(OfDependency, d, HasFailed, listing.code), nowFailed;
    }
    var known := d in listing.entries;
    if known && listing.entries[d].present && listing.entries[d].usable {
      return StepResult(OfDependency, d, WasLinked, ""), nowFailed;
    }
    if known && exists r :: r in listing.entries[d].needs && r in failed {
      s := StepResult(OfDependency, d, HasFailed, "app.prerequisite_failed");
      BlockedIff(listing.entries, was, s);
      return s, failed + {d};
    }
    var code := b.InstallDependency(d);
    s := if code.Some? then StepResult(OfDependency, d, HasFailed, code.value) else StepResult(OfDependency, d, WasInstalled, "");
    BlockedIff(listing.entries, was, s);
    if code.Some? {
      nowFailed := failed + {d};
    }
  }

  lemma BlockedIff(entries: Entries, was: seq<StepResult>, s: StepResult)
    ensures Blocked(entries, was + [s], |was|) <==>
      s.id in entries && exists r :: r in entries[s.id].needs && r in FailedIds(was)
  {
    var all := was + [s];
    assert forall j :: 0 <= j < |was| ==> all[j] == was[j];
    if s.id in entries {
      if r :| r in entries[s.id].needs && r in FailedIds(was) {
        var j :| 0 <= j < |was| && was[j].status.HasFailed? && was[j].id == r;
        assert all[j].status.HasFailed?;
      }
    }
  }

  // ---------------------------------------------------------------------------
  // Pruning

  /** Why a dropped reference leaves nothing behind that is only the App's. */
  ghost predicate Released(books: Books, before: Entries, after: Entries, i: InstId, d: DepId) {
    || books.Shared(d, i)
    || d !in after || !after[d].present || !after[d].managed
    || IsNeeded(before, d)
  }

  lemma StillReleased(books: Books, a: Entries, b: Entries, c: Entries, i: InstId, d: DepId)
    requires Released(books, a, b, i, d) && OnlyLosses(b, c)
    ensures Released(books, a, c, i, d)
  {
  }

  /** A later release counts as one against the books and facts the pruning began
      with. */
  lemma ReleasedFromStart(first: Books, start: Entries, books: Books, a: Entries, b: Entries, i: InstId, d: DepId)
    requires Released(books, a, b, i, d) && OnlyLosses(start, a)
    requires forall r: Ref :: r.inst != i ==> (r in books.refs <==> r in first.refs)
    ensures Released(first, start, b, i, d)
  {
    assert forall e :: NeededBy(a, d, e) ==> NeededBy(start, d, e);
  }

  method PruneOne(b: Bot, i: InstId, d: DepId, states: Entries) returns (ok: bool, s: StepResult)
    requires b.Valid() && Ref(i, d) in b.books.refs
    requires !b.books.Shared(d, i) ==> b.hasDependencies && (d in states <==> d in b.entries)
    requires !b.books.Shared(d, i) && d in states ==> states[d] == b.entries[d]
    modifies b`books, b`entries, b`requests
    ensures old(b.requests) <= b.requests
    ensures b.Valid()
    ensures b.books == if ok then old(b.books).WithoutRef(i, d) else old(b.books)
    ensures ok ==> Released(old(b.books), old(b.entries), b.entries, i, d) && !s.status.HasFailed?
    ensures b.entries == old(b.entries) || IsLost(old(b.entries), b.entries, d)
    ensures b.healthy ==> ok
  {
    s := StepResult(OfDependency, d, WasKept, "");
    if !b.books.Shared(d, i) && d in states && states[d].present && states[d].managed {
      var needed := b.HasDependents(d);
      if needed.None? {
        return false, s.(status := HasFailed);
      }
      if !needed.value {
        ok := b.RemoveDependency(d, i);
        if !ok {
          return false, s.(status := HasFailed);
        }
        s := s.(status := WasRemoved);
      }
    }
    ok := b.RemoveRef(i, d);
    if !ok {
      s := s.(status := HasFailed);
    }
  }

  method PruneDependencies(b: Bot, i: InstId, deps: seq<DepId>, states: Entries) returns (ok: bool, steps: seq<StepResult>)
    requires b.Valid() && NoDuplicates(deps)
    requires forall d :: d in deps ==> Ref(i, d) in b.books.refs
    requires (exists d :: d in deps && !b.books.Shared(d, i)) ==> b.hasDependencies && states == b.entries
    modifies b`books, b`entries, b`requests
    ensures old(b.requests) <= b.requests
    ensures b.Valid() && (ok ==> !SomeFailed(steps))
    ensures b.books == old(b.books).(refs := b.books.refs) && b.books.refs <= old(b.books.refs)
    ensures forall r: Ref :: r.inst != i || r.dep !in deps ==> (r in b.books.refs <==> r in old(b.books.refs))
    ensures ok ==> forall d :: d in deps ==> Ref(i, d) !in b.books.refs
    ensures forall d :: Ref(i, d) in old(b.books.refs) && Ref(i, d) !in b.books.refs ==>
      Released(old(b.books), old(b.entries), b.entries, i, d)
    ensures OnlyLosses(old(b.entries), b.entries)
    ensures b.healthy ==> ok
  {
    steps := [];
    for k := 0 to |deps|
      invariant b.Valid() && !SomeFailed(steps) && old(b.requests) <= b.requests
      invariant b.books == old(b.books).(refs := b.books.refs) && b.books.refs <= old(b.books.refs)
      invariant forall r: Ref :: r.inst != i || r.dep !in deps[..k] ==> (r in b.books.refs <==> r in old(b.books.refs))
      invariant forall d :: d in deps[..k] ==> Ref(i, d) !in b.books.refs
      invariant forall d :: d in deps[..k] ==> Released(old(b.books), old(b.entries), b.entries, i, d)
      invariant OnlyLosses(old(b.entries), b.entries)
      invariant forall d :: d in b.entries && d !in deps[..k] ==> b.entries[d] == old(b.entries)[d]
    {
      hide Released, SomeFailed;
      var d := deps[k];
      assert deps[..k + 1] == deps[..k] + [d] && d !in deps[..k];
      assert b.books.Shared(d, i) <==> old(b.books).Shared(d, i);
      ghost var books, entries := b.books, b.entries;
      var s;
      ok, s := PruneOne(b, i, d, states);
      forall e | e in deps[..k] ensures Released(old(b.books), old(b.entries), b.entries, i, e) {
        StillReleased(old(b.books), old(b.entries), entries, b.entries, i, e);
      }
      if !ok {
        return false, steps + [s];
      }
      ReleasedFromStart(old(b.books), old(b.entries), books, entries, b.entries, i, d);
      NoFailureYet(steps, s);
      steps := steps + [s];
    }
    assert deps[..|deps|] == deps;
    ok := true;
  }

  lemma NoFailureYet(steps: seq<StepResult>, s: StepResult)
    requires !SomeFailed(steps) && !s.status.HasFailed?
    ensures !SomeFailed(steps + [s])
  {
  }

  predicate Wants(conns: seq<ConnNeed>, kind: ConnType) {
    exists j :: 0 <= j < |conns| && conns[j].kind == kind
  }

  /** Unlinks connector references; the connections stay authorized. */
  method PruneLinks(b: Bot, i: InstId, kinds: seq<ConnType>) returns (ok: bool, steps: seq<StepResult>)
    requires b.Valid()
    modifies b`books
    ensures b.Valid() && (ok ==> !SomeFailed(steps))
    ensures OnlyLinksOf(old(b.books), b.books, i)
    ensures forall k :: k in b.books.links ==> b.books.links[k] == old(b.books).links[k]
    ensures forall k :: Key(i, k) in old(b.books).links && k !in kinds ==> Key(i, k) in b.books.links
    ensures ok ==> forall k :: k in kinds ==> Key(i, k) !in b.books.links
    ensures b.healthy ==> ok
  {
    steps := [];
    for n := 0 to |kinds|
      invariant b.Valid() && !SomeFailed(steps) && OnlyLinksOf(old(b.books), b.books, i)
      invariant forall k :: k in b.books.links ==> b.books.links[k] == old(b.books).links[k]
      invariant forall k :: Key(i, k) in old(b.books).links && k !in kinds[..n] ==> Key(i, k) in b.books.links
      invariant forall k :: k in kinds[..n] ==> Key(i, k) !in b.books.links
    {
      assert kinds[..n + 1] == kinds[..n] + [kinds[n]];
      ok := b.RemoveLink(i, kinds[n]);
      if !ok {
        return false, steps + [StepResult(OfConnector, kinds[n], HasFailed, "")];
      }
      NoFailureYet(steps, StepResult(OfConnector, kinds[n], WasUnlinked, ""));
      steps := steps + [StepResult(OfConnector, kinds[n], WasUnlinked, "")];
    }
    assert kinds[..|kinds|] == kinds;
    ok := true;
  }

  /** What pruning may do: drop references of `i` that the release does not name,
      releasing the dependencies behind them. */
  ghost predicate PrunedTo(before: Books, was: Entries, after: Books, now: Entries, i: InstId, r: Release) {
    && after.insts == before.insts && after.refs <= before.refs && after.links.Keys <= before.links.Keys
    && (forall k :: k in after.links ==> after.links[k] == before.links[k])
    && (forall x: Ref :: x in before.refs && (x.inst != i || x.dep in r.deps) ==> x in after.refs)
    && (forall k: Key :: k in before.links && (k.inst != i || Wants(r.conns, k.kind)) ==> k in after.links)
    && (forall d :: Ref(i, d) in before.refs && Ref(i, d) !in after.refs ==> Released(before, was, now, i, d))
    && OnlyLosses(was, now)
  }

  /** Releases the references the release no longer has.  On success exactly those
      that it names are left; until then what is left can be pruned again. */
  method PruneReferences(b: Bot, i: InstId, r: Release) returns (ok: bool, steps: seq<StepResult>)
    requires b.Valid()
    modifies b`books, b`state, b`entries, b`requests
    ensures old(b.requests) <= b.requests
    ensures b.Valid() && (ok ==> !SomeFailed(steps))
    ensures PrunedTo(old(b.books), old(b.entries), b.books, b.entries, i, r)
    ensures OthersSame(old(b.books), b.books, i)
    ensures ok ==> forall d :: Ref(i, d) in b.books.refs ==> d in r.deps
    ensures ok ==> forall k :: Key(i, k) in b.books.links ==> Wants(r.conns, k)
    ensures old(Ready(b)) ==> Ready(b) && ok
  {
    hide Released, SomeFailed, Wants, SameFor, PrunedTo;
    steps := [];
    NothingPruned(b.books, b.entries, i, r);
    NoLosses(b.entries);
    var refs := b.ListRefs(i);
    if refs.None? {
      return false, steps;
    }
    var links := b.ListLinks(i);
    if links.None? {
      return false, steps;
    }
    var deps := Without(refs.value, r.deps);
    var kinds := Unwanted(links.value, r.conns);
    var states := CleanupStates(b, i, deps, b.books);
    if states.None? {
      return false, steps;
    }
    ok, steps := PruneDependencies(b, i, deps, states.value);
    ghost var mid := b.books;
    if ok {
      var more;
      ok, more := PruneLinks(b, i, kinds);
      NoFailures(steps, more);
      steps := steps + more;
    }
    PruneCombines(old(b.books), old(b.entries), mid, b.books, b.entries, i, r, deps, kinds);
  }

  lemma PruneCombines(before: Books, was: Entries, mid: Books, after: Books, now: Entries, i: InstId, r: Release,
                      deps: seq<DepId>, kinds: seq<ConnType>)
    requires forall d :: d in deps ==> d !in r.deps
    requires forall k :: k in kinds ==> !Wants(r.conns, k)
    requires mid == before.(refs := mid.refs) && mid.refs <= before.refs
    requires forall x: Ref :: x.inst != i || x.dep !in deps ==> (x in mid.refs <==> x in before.refs)
    requires forall d :: Ref(i, d) in before.refs && Ref(i, d) !in mid.refs ==> Released(before, was, now, i, d)
    requires OnlyLosses(was, now) && OnlyLinksOf(mid, after, i)
    requires forall k :: k in after.links ==> after.links[k] == mid.links[k]
    requires forall k :: Key(i, k) in mid.links && k !in kinds ==> Key(i, k) in after.links
    ensures PrunedTo(before, was, after, now, i, r) && OthersSame(before, after, i)
  {
    hide Released, Wants, OnlyLosses;
    forall k: Key | k in before.links && (k.inst != i || Wants(r.conns, k.kind)) ensures k in after.links {
      assert k.inst == i ==> k == Key(i, k.kind);
    }
  }

  lemma NothingPruned(books: Books, entries: Entries, i: InstId, r: Release)
    ensures PrunedTo(books, entries, books, entries, i, r) && OthersSame(books, books, i)
  {
  }

  lemma NoLosses(entries: Entries)
    ensures OnlyLosses(entries, entries)
  {
  }

  lemma NoFailures(a: seq<StepResult>, b: seq<StepResult>)
    ensures !SomeFailed(a) && !SomeFailed(b) ==> !SomeFailed(a + b)
  {
  }

  method Without(ids: seq<DepId>, kept: seq<DepId>) returns (r: seq<DepId>)
    requires NoDuplicates(ids)
    ensures NoDuplicates(r) && forall d :: d in r <==> d in ids && d !in kept
  {
    r := [];
    for k := 0 to |ids|
      invariant NoDuplicates(r) && forall d :: d in r <==> d in ids[..k] && d !in kept
    {
      assert ids[..k + 1] == ids[..k] + [ids[k]];
      if ids[k] !in kept {
        r := r + [ids[k]];
      }
    }
    assert ids[..|ids|] == ids;
  }

  method Unwanted(kinds: seq<ConnType>, conns: seq<ConnNeed>) returns (r: seq<ConnType>)
    ensures forall d :: d in r <==> d in kinds && !Wants(conns, d)
  {
    r := [];
    for k := 0 to |kinds|
      invariant forall d :: d in r <==> d in kinds[..k] && !Wants(conns, d)
    {
      assert kinds[..k + 1] == kinds[..k] + [kinds[k]];
      if !Wants(conns, kinds[k]) {
        r := r + [kinds[k]];
      }
    }
    assert kinds[..|kinds|] == kinds;
  }

  // ---------------------------------------------------------------------------
  // Connectors

  /** A required connector of the release has no active connection. */
  predicate Waits(conns: seq<ConnNeed>, active: map<ConnType, ConnId>) {
    exists j :: 0 <= j < |conns| && conns[j].required && conns[j].kind !in active
  }

  /** Every connector of the release is linked to the active connection of its
      type; a required link without one means that some requirement waits. */
  ghost predicate LinkedTo(books: Books, i: InstId, conns: seq<ConnNeed>, active: map<ConnType, ConnId>) {
    forall j :: 0 <= j < |conns| ==>
      && var key := Key(i, conns[j].kind);
      && key in books.links
      && (key.kind in active ==> books.links[key].connection == Some(active[key.kind]))
      && (books.links[key].required ==> key.kind in active || Waits(conns, active))
  }

  /** A link without an active connection of its type keeps what it had. */
  ghost predicate KeptIdle(before: Books, after: Books, i: InstId, conns: seq<ConnNeed>, active: map<ConnType, ConnId>) {
    forall j :: 0 <= j < |conns| && conns[j].kind !in active ==>
      var key := Key(i, conns[j].kind);
      key in after.links &&
      after.links[key].connection == if key in before.links then before.links[key].connection else None
  }

  lemma KeptOneMore(start: Books, before: Books, after: Books, i: InstId, conns: seq<ConnNeed>, n: nat, active: map<ConnType, ConnId>)
    requires n < |conns| && KeptIdle(start, before, i, conns[..n], active)
    requires Wants(conns[..n], conns[n].kind) || (
      && (Key(i, conns[n].kind) in before.links <==> Key(i, conns[n].kind) in start.links)
      && (Key(i, conns[n].kind) in start.links ==> before.links[Key(i, conns[n].kind)] == start.links[Key(i, conns[n].kind)]))
    requires var c := conns[n];
      after == before.WithLink(i, c.kind, if c.kind in active then Some(active[c.kind]) else None, c.required)
    ensures KeptIdle(start, after, i, conns[..n + 1], active)
  {
    var less, more := conns[..n], conns[..n + 1];
    assert forall j :: 0 <= j < n ==> more[j] == less[j];
    if Wants(less, conns[n].kind) {
      var j :| 0 <= j < n && less[j].kind == conns[n].kind;
    }
  }

  lemma WantsFirst(conns: seq<ConnNeed>, n: nat, kind: ConnType)
    requires n <= |conns| && Wants(conns[..n], kind)
    ensures Wants(conns, kind)
  {
    var j :| 0 <= j < n && conns[..n][j].kind == kind;
    assert conns[j].kind == kind;
  }

  /** Refers the App to its connectors, reusing the bot's active connections. */
  method LinkConnectors(b: Bot, i: InstId, conns: seq<ConnNeed>, active: map<ConnType, ConnId>, l0: Ledger)
    returns (ok: bool, l: Ledger)
    requires b.Valid() && i in b.books.insts && !b.books.insts[i].status.Installed? && l0.Valid()
    modifies b`books
    ensures b.Valid() && l.Valid() && OthersSame(old(b.books), b.books, i)
    ensures LinkFrame(old(b.books), b.books, i, conns)
    ensures b.books.refs == old(b.books).refs && b.books.insts == old(b.books).insts
    ensures ok ==> LinkedTo(b.books, i, conns, active) && KeptIdle(old(b.books), b.books, i, conns, active)
    ensures ok ==> (l.partial <==> l0.partial || Waits(conns, active))
    ensures ok ==> (SomeFailed(l.steps) <==> SomeFailed(l0.steps)) && l0.steps <= l.steps
    ensures b.healthy ==> ok
  {
    hide LinkFrame, LinkedTo, Waits, SomeFailed, FirstCode, OthersSame, SameFor, Wants, KeptIdle;
    l := l0;
    NoLinkYet(b.books, i, conns, active);
    for n := 0 to |conns|
      invariant b.Valid() && l.Valid() && l0.steps <= l.steps
      invariant LinkFrame(old(b.books), b.books, i, conns[..n])
      invariant b.books.insts == old(b.books).insts
      invariant LinkedTo(b.books, i, conns[..n], active) && KeptIdle(old(b.books), b.books, i, conns[..n], active)
      invariant l.partial <==> l0.partial || Waits(conns[..n], active)
      invariant SomeFailed(l.steps) <==> SomeFailed(l0.steps)
    {
      var c := conns[n];
      var connection := if c.kind in active then Some(active[c.kind]) else None;
      ghost var before := b.books;
      ok := b.PutLink(i, c.kind, connection, c.required);
      if !ok {
        FirstFrame(old(b.books), b.books, i, conns, n);
        LinkFrameSpares(old(b.books), b.books, i, conns);
        return;
      }
      LinkOneMore(before, b.books, i, conns, n, active);
      FrameApart(old(b.books), before, i, conns[..n], c.kind);
      KeptOneMore(old(b.books), before, b.books, i, conns, n, active);
      LinkFrameStep(old(b.books), before, b.books, i, conns, n, connection);
      ghost var was := l;
      l := l.Record(StepResult(OfConnector, c.kind, if connection.Some? then WasLinked else NeedsAuth, ""));
      SameFailures(was.steps, l.steps);
      if connection.None? && c.required {
        l := l.(partial := true);
      }
    }
    assert conns[..|conns|] == conns;
    LinkFrameSpares(old(b.books), b.books, i, conns);
    ok := true;
  }

  /** Only links of `i` that the release names differ. */
  ghost predicate LinkFrame(a: Books, b: Books, i: InstId, conns: seq<ConnNeed>) {
    && b == a.(links := b.links)
    && (forall k: Key :: k.inst != i || !Wants(conns, k.kind) ==> (k in b.links <==> k in a.links))
    && (forall k: Key :: k.inst != i || !Wants(conns, k.kind) ==> k in a.links ==> b.links[k] == a.links[k])
  }

  lemma FrameApart(a: Books, b: Books, i: InstId, conns: seq<ConnNeed>, kind: ConnType)
    requires LinkFrame(a, b, i, conns)
    ensures Wants(conns, kind) || (
      && (Key(i, kind) in b.links <==> Key(i, kind) in a.links)
      && (Key(i, kind) in a.links ==> b.links[Key(i, kind)] == a.links[Key(i, kind)]))
  {
    assert Key(i, kind).kind == kind;
  }

  lemma FirstFrame(a: Books, b: Books, i: InstId, conns: seq<ConnNeed>, n: nat)
    requires n <= |conns| && LinkFrame(a, b, i, conns[..n])
    ensures LinkFrame(a, b, i, conns)
  {
    forall k: ConnType | Wants(conns[..n], k) ensures Wants(conns, k) {
      WantsFirst(conns, n, k);
    }
  }

  lemma LinkFrameStep(a: Books, b: Books, after: Books, i: InstId, conns: seq<ConnNeed>, n: nat, c: Option<ConnId>)
    requires n < |conns| && LinkFrame(a, b, i, conns[..n])
    requires after == b.WithLink(i, conns[n].kind, c, conns[n].required)
    ensures LinkFrame(a, after, i, conns[..n + 1])
  {
    var less, more := conns[..n], conns[..n + 1];
    assert more[n] == conns[n] && Wants(more, conns[n].kind);
    forall k: ConnType | Wants(less, k) ensures Wants(more, k) {
      assert more[..n] == less;
      WantsFirst(more, n, k);
    }
  }

  lemma LinkFrameSpares(a: Books, b: Books, i: InstId, conns: seq<ConnNeed>)
    requires LinkFrame(a, b, i, conns)
    ensures OthersSame(a, b, i) && b.refs == a.refs && b.insts == a.insts
  {
  }

  lemma NoLinkYet(books: Books, i: InstId, conns: seq<ConnNeed>, active: map<ConnType, ConnId>)
    ensures LinkFrame(books, books, i, conns[..0]) && LinkedTo(books, i, conns[..0], active) && !Waits(conns[..0], active)
    ensures KeptIdle(books, books, i, conns[..0], active)
  {
  }

  lemma SameFailures(a: seq<StepResult>, b: seq<StepResult>)
    requires a < b && |b| == |a| + 1 && !b[|a|].status.HasFailed?
    ensures SomeFailed(b) <==> SomeFailed(a)
  {
    if SomeFailed(a) {
      var k :| 0 <= k < |a| && a[k].status.HasFailed?;
      assert b[k].status.HasFailed?;
    }
  }

  lemma LinkOneMore(before: Books, after: Books, i: InstId, conns: seq<ConnNeed>, n: nat, active: map<ConnType, ConnId>)
    requires n < |conns| && LinkedTo(before, i, conns[..n], active)
    requires var c := conns[n];
      after == before.WithLink(i, c.kind, if c.kind in active then Some(active[c.kind]) else None, c.required)
    ensures LinkedTo(after, i, conns[..n + 1], active)
    ensures Waits(conns[..n + 1], active) <==> Waits(conns[..n], active) || (conns[n].required && conns[n].kind !in active)
  {
    var more := conns[..n + 1];
    assert forall j :: 0 <= j < n ==> more[j] == conns[..n][j];
    assert more[n] == conns[n];
    if Waits(conns[..n], active) {
      var j :| 0 <= j < n && conns[..n][j].required && conns[..n][j].kind !in active;
      assert more[j].required;
    }
    if conns[n].required && conns[n].kind !in active { assert more[n].required; }
  }

  // ---------------------------------------------------------------------------
  // Materializing

  /** Refused before anything was recorded; stopped with the failure as the last
      status asked for; through, but for the write of the result; or done. */
  datatype Result =
    | Refused
    | Stopped(inst: InstId, recorded: bool, skills: Staged)
    | Unrecorded(inst: InstId)
    | Materialized(inst: InstId, steps: seq<StepResult>, active: map<ConnType, ConnId>, expanded: bool, listing: Listing)

  /** The installation references exactly what the release names. */
  ghost predicate References(books: Books, i: InstId, r: Release) {
    && (forall d :: Ref(i, d) in books.refs <==> d in r.deps)
    && (forall k :: Key(i, k) in books.links <==> Wants(r.conns, k))
  }

  /** What an operation goes through: the dependencies with all their requirements,
      prerequisites first, or just the dependencies themselves. */
  ghost predicate Ordered(needs: Catalog, direct: seq<DepId>, order: seq<DepId>, expanded: bool) {
    && (forall d :: d in direct ==> d in order)
    && (if expanded then PrerequisitesFirst(needs, order) && forall d :: d in order <==> Needed(needs, direct, d)
        else order == direct)
  }

  /** The steps begin with the dependencies in such an order, and report exactly what
      was known and asked about them. */
  ghost predicate Account(r: Release, needs: Catalog, steps: seq<StepResult>, expanded: bool, wired: bool,
                          listing: Listing, asks: seq<InstallAsk>)
  {
    && (wired && listing.Listed? ==> Needs(listing.entries) == needs)
    && exists order: seq<DepId> ::
      && |order| <= |steps| && Ordered(needs, r.deps, order, expanded)
      && DependencySteps(steps[..|order|], order) && Faithful(wired, listing, steps[..|order|], asks)
  }

  /** So nothing was installed on a failed requirement. */
  lemma AccountIsSound(r: Release, needs: Catalog, steps: seq<StepResult>, expanded: bool, wired: bool, listing: Listing,
                       asks: seq<InstallAsk>)
    requires Account(r, needs, steps, expanded, wired, listing, asks)
    ensures exists order: seq<DepId> ::
      && |order| <= |steps| && Ordered(needs, r.deps, order, expanded)
      && DependencySteps(steps[..|order|], order) && NothingOnFailed(steps[..|order|], needs)
  {
    var order: seq<DepId> :|
      && |order| <= |steps| && Ordered(needs, r.deps, order, expanded)
      && DependencySteps(steps[..|order|], order) && Faithful(wired, listing, steps[..|order|], asks);
    FaithfulInstalls(wired, listing, steps[..|order|], asks, needs);
  }

  /** Which dependencies to go through: the release's with all their requirements,
      or just the release's own when the catalog cannot tell. */
  method ChooseOrder(b: Bot, direct: seq<DepId>, listed: bool) returns (order: seq<DepId>, expanded: bool)
    ensures Ordered(Needs(b.entries), direct, order, expanded)
    ensures b.healthy && b.hasDependencies && listed ==>
      (expanded <==> !exists p :: Obstacle(Needs(b.entries), direct, p))
  {
    order, expanded := direct, false;
    if b.hasDependencies && listed {
      var readable := b.Works();
      if readable {
        var found;
        expanded, found := ExpandedOrder(Needs(b.entries), direct);
        if expanded {
          order := found;
        }
      }
    }
  }

  /** What became of the Skills of an installation that did not get through. */
  ghost predicate SkillsPublished(was: Journal, now: Journal, before: map<AppId, nat>, after: map<AppId, nat>, r: Release,
                                  s: Staged)
  {
    match s
    case Unstaged => after == before && now.rollbacks == was.rollbacks && now.commits == was.commits
    case PutBack(restored) =>
      && now.RolledBackSince(was, TxOf(before, r.app), restored)
      && after == (if restored then before else before[r.app := r.revision])
    case GivenUp => now.CommittedSince(was, TxOf(before, r.app)) && after == before[r.app := r.revision]
  }

  /** What a part of an operation adds to the journal keeps what was said before. */
  lemma SaidSince(a: Journal, m: Journal, z: Journal)
    requires a.GrowsTo(m) && m.GrowsTo(z)
    ensures a.GrowsTo(z)
    ensures forall i, f :: z.FailedSince(m, i, f) ==> z.FailedSince(a, i, f)
    ensures forall tx, f :: z.RolledBackSince(m, tx, f) ==> z.RolledBackSince(a, tx, f)
    ensures forall tx :: z.CommittedSince(m, tx) ==> z.CommittedSince(a, tx)
  {
  }

  /** Records what stopped the operation. */
  method Stop(b: Bot, i: InstId, skills: Staged) returns (r: Result)
    requires b.Valid() && i in b.books.insts
    modifies b`books, b`log
    ensures b.Valid() && r.Stopped? && r.inst == i && r.skills == skills && i in b.books.insts
    ensures b.log == old(b.log).AskStatus(i, Broken, r.recorded)
    ensures OthersSame(old(b.books), b.books, i) && b.books.insts[i].app == old(b.books).insts[i].app
    ensures r.recorded ==> b.books.insts[i].status.Broken?
  {
    var recorded := RecordFailure(b, i);
    r := Stopped(i, recorded, skills);
  }

  /** Publishes the Skills and records the release; the Skills are rolled back when
      the record cannot be written, and committed when it was. */
  method Publish(b: Bot, i: InstId, r: Release) returns (ok: bool, skills: Staged)
    requires b.Valid() && i in b.books.insts
    modifies b`books, b`skills, b`log
    ensures b.Valid() && i in b.books.insts
    ensures ok <==> skills.GivenUp?
    ensures SkillsPublished(old(b.log), b.log, old(b.skills), b.skills, r, skills)
    ensures old(b.log).GrowsTo(b.log) && b.log.statuses == old(b.log).statuses && b.log.installs == old(b.log).installs
    ensures b.books == if ok then old(b.books).WithInst(i, old(b.books).insts[i].(revision := r.revision)) else old(b.books)
    ensures OthersSame(old(b.books), b.books, i)
    ensures b.healthy ==> ok
  {
    var tx := b.PublishSkills(r.app, r.revision);
    if tx.None? {
      return false, Unstaged;
    }
    ok := b.SetRelease(i, r.revision);
    assert old(b.log).Begin(tx.value).open - multiset{tx.value} == old(b.log).open;
    if ok {
      var _ := b.Commit(tx.value);
      skills := GivenUp;
    } else {
      var restored := b.Rollback(tx.value);
      skills := PutBack(restored);
    }
  }

  /** What an error-free materialization leaves, short of the status. */
  ghost predicate Through(b: Bot, i: InstId, r: Release)
    reads b
  {
    && i in b.books.insts && References(b.books, i, r)
    && b.books.insts[i].app == r.app && b.books.insts[i].revision == r.revision
    && Published(b.skills, r.app) == Some(r.revision)
  }

  ghost predicate Complete(b: Bot, i: InstId, r: Release, steps: seq<StepResult>, active: map<ConnType, ConnId>)
    reads b
  {
    && Through(b, i, r) && LinkedTo(b.books, i, r.conns, active)
    && var x := b.books.insts[i];
    && x.status == (if SomeFailed(steps) || Waits(r.conns, active) then Partial else Installed)
    && x.error == FirstCode(steps)
  }

  /** What the active connections of a bot are: all of them, or none when they could
      not be listed. */
  ghost predicate ActiveOf(b: Bot, active: map<ConnType, ConnId>)
    reads b`connections, b`active, b`healthy
  {
    && (forall k :: k in active ==> active[k] in b.connections && active[k] in b.active && b.connections[active[k]] == k)
    && (active == map[] || HasAll(b, active))
    && (b.healthy && b.hasConnectors ==> HasAll(b, active))
  }

  predicate HasAll(b: Bot, active: map<ConnType, ConnId>)
    reads b`connections, b`active
  {
    forall c :: c in b.connections && c in b.active ==> b.connections[c] in active
  }

  /** Every connector the release requires has an authorized connection. */
  ghost predicate AllAuthorized(b: Bot, r: Release)
    reads b`connections, b`active
  {
    forall j :: 0 <= j < |r.conns| && r.conns[j].required ==>
      exists c :: c in b.connections && c in b.active && b.connections[c] == r.conns[j].kind
  }

  lemma WaitsIffUnauthorized(b: Bot, r: Release, active: map<ConnType, ConnId>)
    requires ActiveOf(b, active) && HasAll(b, active)
    ensures Waits(r.conns, active) <==> !AllAuthorized(b, r)
  {
    if !Waits(r.conns, active) {
      forall j | 0 <= j < |r.conns| && r.conns[j].required
        ensures exists c :: c in b.connections && c in b.active && b.connections[c] == r.conns[j].kind
      {
        assert active[r.conns[j].kind] in b.connections;
      }
    }
  }

  lemma NewRowSpares(a: Books, b: Books, i: InstId)
    requires i in b.insts && b == a.WithInst(i, b.insts[i])
    ensures OthersSame(a, b, i)
  {
  }

  /** Nothing is in the way of any dependency of the release. */
  ghost predicate Unobstructed(needs: Catalog, direct: seq<DepId>) {
    !exists p :: Obstacle(needs, direct, p)
  }

  /** Installs an App release, resumes a partial installation or moves it to another
      release. */
  method Materialize(b: Bot, r: Release, reason: Reason) returns (res: Result)
    requires b.Valid()
    modifies b`books, b`state, b`entries, b`requests, b`skills, b`log
    ensures old(b.requests) <= b.requests && old(b.log).GrowsTo(b.log)
    ensures b.Valid()
    ensures res.Refused? ==> b.books == old(b.books) && b.skills == old(b.skills) && b.log == old(b.log)
    ensures !res.Refused? ==>
      && res.inst in b.books.insts && b.books.insts[res.inst].app == r.app
      && OthersSame(old(b.books), b.books, res.inst)
    ensures res.Stopped? ==>
      && b.log.FailedSince(old(b.log), res.inst, res.recorded)
      && (res.recorded ==> b.books.insts[res.inst].status.Broken?)
      && SkillsPublished(old(b.log), b.log, old(b.skills), b.skills, r, res.skills)
    ensures res.Unrecorded? ==> Through(b, res.inst, r) && NotRecorded(old(b.log), b.log, res.inst)
    ensures res.Unrecorded? || res.Materialized? ==>
      SkillsPublished(old(b.log), b.log, old(b.skills), b.skills, r, GivenUp)
    ensures res.Materialized? ==> Complete(b, res.inst, r, res.steps, res.active) && ActiveOf(b, res.active)
    ensures res.Materialized? ==> KeptIdle(old(b.books), b.books, res.inst, r.conns, res.active)
    ensures res.Materialized? ==>
      Account(r, Needs(b.entries), res.steps, res.expanded, b.hasDependencies, res.listing,
              b.log.installs[|old(b.log).installs|..])
    ensures res.Materialized? && old(b.state).Up? && b.healthy && b.hasDependencies ==> res.listing == Listed(old(b.entries))
    ensures old(Ready(b)) ==> res.Materialized? && HasAll(b, res.active)
    ensures old(Ready(b)) && Unobstructed(Needs(old(b.entries)), r.deps) ==>
      !SomeFailed(res.steps) && (b.books.insts[res.inst].status.Installed? <==> !Waits(r.conns, res.active))
  {
    hide SameFor, OthersSame, Account, Through, LinkedTo, KeptIdle, Waits, SomeFailed, FirstCode, SkillsPublished, Obstacle;
    hide Journal.FailedSince, Unobstructed, ActiveOf, HasAll;
    var why := reason;
    var current := b.Find(r.app);
    if current.Unread? {
      return Refused;
    }
    if current.Found? && b.books.insts[current.value].reason.ByUser? {
      why := ByUser;
    }
    var row := b.Upsert(r.app, r.revision, Installing, why);
    if row.None? {
      return Refused;
    }
    ghost var mid := b.books;
    NewRowSpares(old(b.books), mid, row.value);
    res := Proceed(b, row.value, r);
    OthersSameThen(old(b.books), mid, b.books, row.value);
    if res.Materialized? {
      KeptFrom(old(b.books), mid, b.books, row.value, r.conns, res.active);
    }
  }

  lemma KeptFrom(a: Books, m: Books, z: Books, i: InstId, conns: seq<ConnNeed>, active: map<ConnType, ConnId>)
    requires a.links == m.links && KeptIdle(m, z, i, conns, active)
    ensures KeptIdle(a, z, i, conns, active)
  {
  }

  /** The last status asked for is the result, and it was not written. */
  ghost predicate NotRecorded(was: Journal, now: Journal, i: InstId) {
    && |was.statuses| < |now.statuses|
    && var last := now.statuses[|now.statuses| - 1];
       last.inst == i && !last.ok && (last.status.Installed? || last.status.Partial?)
  }

  lemma {:induction false} QuietStepsKeepCode(a: seq<StepResult>, b: seq<StepResult>)
    requires !SomeFailed(b)
    ensures FirstCode(a + b) == FirstCode(a) && (SomeFailed(a + b) <==> SomeFailed(a))
  {
    if b == [] {
      assert a + b == a;
    } else {
      var init := b[..|b| - 1];
      assert !SomeFailed(init) by {
        assert forall k :: 0 <= k < |init| ==> init[k] == b[k];
      }
      QuietStepsKeepCode(a, init);
      assert (a + b)[..|a + b| - 1] == a + init;
      assert !b[|b| - 1].status.HasFailed?;
      QuietLast(a + init, b[|b| - 1]);
      assert a + b == (a + init) + [b[|b| - 1]];
    }
  }

  lemma QuietLast(a: seq<StepResult>, s: StepResult)
    requires !s.status.HasFailed?
    ensures FirstCode(a + [s]) == FirstCode(a) && (SomeFailed(a + [s]) <==> SomeFailed(a))
  {
    assert (a + [s])[..|a + [s]| - 1] == a;
    SameFailures(a, a + [s]);
    if !SomeFailed(a) { CodelessWithoutFailure(a); }
  }

  lemma CodelessWithoutFailure(a: seq<StepResult>)
    requires !SomeFailed(a)
    ensures FirstCode(a) == ""
  {
    NoCodeWithoutFailure(a);
  }

  lemma AccountExtends(r: Release, needs: Catalog, steps: seq<StepResult>, order: seq<DepId>, expanded: bool, wired: bool,
                       listing: Listing, asks: seq<InstallAsk>, all: seq<StepResult>)
    requires DependencySteps(steps, order) && Faithful(wired, listing, steps, asks) && steps <= all
    requires Ordered(needs, r.deps, order, expanded)
    requires wired && listing.Listed? ==> Needs(listing.entries) == needs
    ensures Account(r, needs, all, expanded, wired, listing, asks)
  {
    assert all[..|order|] == steps;
  }

  lemma SameNeeds(a: Entries, b: Entries)
    requires OnlyGains(a, b) || OnlyLosses(a, b)
    ensures Needs(a) == Needs(b)
  {
  }

  lemma OrderedCovers(needs: Catalog, direct: seq<DepId>, order: seq<DepId>, expanded: bool)
    requires Ordered(needs, direct, order, expanded)
    ensures forall d :: d in direct ==> d in order
    ensures expanded ==> forall d :: d in order ==> d in needs
  {
  }

  method Proceed(b: Bot, i: InstId, r: Release) returns (res: Result)
    requires b.Valid() && i in b.books.insts && b.books.insts[i].status.Installing?
    requires b.books.insts[i].app == r.app && b.books.insts[i].revision == r.revision
    modifies b`books, b`state, b`entries, b`requests, b`skills, b`log
    ensures old(b.requests) <= b.requests && old(b.log).GrowsTo(b.log)
    ensures b.Valid()
    ensures !res.Refused? && res.inst == i && i in b.books.insts && b.books.insts[i].app == r.app
    ensures OthersSame(old(b.books), b.books, i)
    ensures res.Stopped? ==>
      && b.log.FailedSince(old(b.log), i, res.recorded)
      && (res.recorded ==> b.books.insts[i].status.Broken?)
      && SkillsPublished(old(b.log), b.log, old(b.skills), b.skills, r, res.skills)
    ensures res.Unrecorded? ==> Through(b, i, r) && NotRecorded(old(b.log), b.log, i)
    ensures res.Unrecorded? || res.Materialized? ==>
      SkillsPublished(old(b.log), b.log, old(b.skills), b.skills, r, GivenUp)
    ensures res.Materialized? ==> Complete(b, i, r, res.steps, res.active) && ActiveOf(b, res.active)
    ensures res.Materialized? ==> KeptIdle(old(b.books), b.books, i, r.conns, res.active)
    ensures res.Materialized? ==>
      Account(r, Needs(b.entries), res.steps, res.expanded, b.hasDependencies, res.listing,
              b.log.installs[|old(b.log).installs|..])
    ensures res.Materialized? && old(b.state).Up? && b.healthy && b.hasDependencies ==> res.listing == Listed(old(b.entries))
    ensures old(Ready(b)) ==> res.Materialized? && HasAll(b, res.active)
    ensures old(Ready(b)) && Unobstructed(Needs(old(b.entries)), r.deps) ==>
      !SomeFailed(res.steps) && (b.books.insts[i].status.Installed? <==> !Waits(r.conns, res.active))
  {
    hide SameFor, OthersSame, DependencySteps, Faithful, SomeFailed, FirstCode, Ordered, Account, KeptIdle, LinkedTo, Waits;
    hide Through, SkillsPublished, Obstacle, HasAll, ActiveOf;
    hide Journal.FailedSince, Journal.RolledBackSince, Journal.CommittedSince;
    var listing := ListedStates(b);
    ghost var needs, start := Needs(b.entries), b.log;
    var order, expanded := ChooseOrder(b, r.deps, listing.Listed?);
    OrderedCovers(needs, r.deps, order, expanded);
    var ok, l := InstallDependencies(b, i, r.deps, listing, order);
    SameNeeds(old(b.entries), b.entries);
    ghost var mid, midLog := b.books, b.log;
    if ok {
      res := Settle(b, i, r, l, order, expanded, listing, midLog.installs[|start.installs|..]);
      SkillsSince(start, midLog, b.log, old(b.skills), b.skills, r, if res.Stopped? then res.skills else GivenUp);
    } else {
      res := Stop(b, i, Unstaged);
      StoppedEarly(start, midLog, b.log, b.skills, r, i, res.recorded);
    }
    SaidSince(start, midLog, b.log);
    OthersSameThen(old(b.books), mid, b.books, i);
    if res.Materialized? {
      KeptFrom(old(b.books), mid, b.books, i, r.conns, res.active);
    }
  }

  /** What the workspace says about the dependencies; without the service nothing. */
  method ListedStates(b: Bot) returns (listing: Listing)
    ensures b.hasDependencies && listing.Listed? ==> Needs(listing.entries) == Needs(b.entries)
    ensures listing.Unlisted? ==> listing.code != ""
    ensures !b.hasDependencies ==> listing == Listed(map[])
    ensures b.healthy ==> listing.Listed?
    ensures b.healthy && b.hasDependencies && b.state.Up? ==> listing == Listed(b.entries)
  {
    listing := Listed(map[]);
    if b.hasDependencies {
      var view := b.ListDependencies();
      var code: Code := *;
      listing := if view.Some? then Listed(view.value.entries)
                 else Unlisted(if code == "" then "app.operation_failed" else code);
    }
  }

  lemma StoppedEarly(a: Journal, m: Journal, z: Journal, skills: map<AppId, nat>, r: Release, i: InstId, recorded: bool)
    requires a.installs <= m.installs && m == a.(installs := m.installs) && z == m.AskStatus(i, Broken, recorded)
    ensures a.GrowsTo(m) && m.GrowsTo(z) && z.FailedSince(a, i, recorded) && SkillsPublished(a, z, skills, skills, r, Unstaged)
  {
  }

  lemma SkillsSince(a: Journal, m: Journal, z: Journal, before: map<AppId, nat>, after: map<AppId, nat>, r: Release, s: Staged)
    requires a.rollbacks == m.rollbacks && a.commits == m.commits && SkillsPublished(m, z, before, after, r, s)
    ensures SkillsPublished(a, z, before, after, r, s)
  {
  }

  /** All of the release's references are there. */
  ghost predicate Covers(books: Books, i: InstId, r: Release, active: map<ConnType, ConnId>) {
    (forall d :: d in r.deps ==> Ref(i, d) in books.refs) && LinkedTo(books, i, r.conns, active)
  }

  lemma PrunedCovers(a: Books, was: Entries, b: Books, now: Entries, i: InstId, r: Release, active: map<ConnType, ConnId>)
    requires Covers(a, i, r, active) && PrunedTo(a, was, b, now, i, r)
    ensures Covers(b, i, r, active)
    ensures forall start :: KeptIdle(start, a, i, r.conns, active) ==> KeptIdle(start, b, i, r.conns, active)
  {
    forall j | 0 <= j < |r.conns| ensures Key(i, r.conns[j].kind) in b.links {
      assert Wants(r.conns, r.conns[j].kind);
      assert Key(i, r.conns[j].kind) in a.links;
    }
  }

  /** With every requirement active, all required links carry a connection. */
  lemma RequiredLinked(books: Books, i: InstId, r: Release, active: map<ConnType, ConnId>)
    requires LinkedTo(books, i, r.conns, active) && !Waits(r.conns, active)
    requires forall k :: Key(i, k) in books.links ==> Wants(r.conns, k)
    ensures forall k :: Key(i, k) in books.links && books.links[Key(i, k)].required ==>
      books.links[Key(i, k)].connection.Some?
  {
    forall k | Key(i, k) in books.links && books.links[Key(i, k)].required
      ensures books.links[Key(i, k)].connection.Some?
    {
      var j :| 0 <= j < |r.conns| && r.conns[j].kind == k;
    }
  }

  lemma CoveredExactly(books: Books, i: InstId, r: Release, active: map<ConnType, ConnId>)
    requires Covers(books, i, r, active)
    requires forall d :: Ref(i, d) in books.refs ==> d in r.deps
    requires forall k :: Key(i, k) in books.links ==> Wants(r.conns, k)
    ensures References(books, i, r)
  {
    forall k | Wants(r.conns, k) ensures Key(i, k) in books.links {
      var j :| 0 <= j < |r.conns| && r.conns[j].kind == k;
    }
  }

  /** The last write of an operation. */
  method Conclude(b: Bot, i: InstId, r: Release, l: Ledger, active: map<ConnType, ConnId>, steps: seq<StepResult>)
    returns (ok: bool)
    requires b.Valid() && l.Valid() && Through(b, i, r) && LinkedTo(b.books, i, r.conns, active)
    requires l.partial <==> SomeFailed(l.steps) || Waits(r.conns, active)
    requires FirstCode(steps) == l.first && (SomeFailed(steps) <==> SomeFailed(l.steps))
    modifies b`books, b`log
    ensures b.Valid() && Through(b, i, r) && b.books.links == old(b.books).links
    ensures OthersSame(old(b.books), b.books, i)
    ensures ok ==> Complete(b, i, r, steps, active)
    ensures old(b.log).GrowsTo(b.log) && b.log == old(b.log).(statuses := b.log.statuses)
    ensures !ok ==> NotRecorded(old(b.log), b.log, i)
    ensures b.healthy ==> ok
  {
    if !l.partial {
      RequiredLinked(b.books, i, r, active);
    }
    ok := b.SetStatus(i, if l.partial then Partial else Installed, l.first);
  }

  /** Skills, connectors and cleanup, once the dependencies are through. */
  method Settle(b: Bot, i: InstId, r: Release, l0: Ledger, ghost order: seq<DepId>, expanded: bool, listing: Listing,
                ghost asks: seq<InstallAsk>)
    returns (res: Result)
    requires b.Valid() && l0.Valid() && i in b.books.insts && b.books.insts[i].status.Installing?
    requires b.books.insts[i].app == r.app
    requires forall d :: d in r.deps ==> Ref(i, d) in b.books.refs
    requires l0.partial <==> SomeFailed(l0.steps)
    requires DependencySteps(l0.steps, order) && Faithful(b.hasDependencies, listing, l0.steps, asks)
    requires b.hasDependencies && listing.Listed? ==> Needs(listing.entries) == Needs(b.entries)
    requires Ordered(Needs(b.entries), r.deps, order, expanded)
    modifies b`books, b`state, b`entries, b`requests, b`skills, b`log
    ensures old(b.requests) <= b.requests && old(b.log).GrowsTo(b.log) && b.log.installs == old(b.log).installs
    ensures b.Valid()
    ensures !res.Refused? && res.inst == i && i in b.books.insts && b.books.insts[i].app == r.app
    ensures OthersSame(old(b.books), b.books, i)
    ensures res.Stopped? ==>
      && b.log.FailedSince(old(b.log), i, res.recorded)
      && (res.recorded ==> b.books.insts[i].status.Broken?)
      && SkillsPublished(old(b.log), b.log, old(b.skills), b.skills, r, res.skills)
    ensures res.Unrecorded? ==> Through(b, i, r) && NotRecorded(old(b.log), b.log, i)
    ensures res.Unrecorded? || res.Materialized? ==>
      SkillsPublished(old(b.log), b.log, old(b.skills), b.skills, r, GivenUp)
    ensures res.Materialized? ==> Complete(b, i, r, res.steps, res.active) && ActiveOf(b, res.active)
    ensures res.Materialized? ==> KeptIdle(old(b.books), b.books, i, r.conns, res.active)
    ensures res.Materialized? ==> res.listing == listing && (SomeFailed(res.steps) <==> SomeFailed(l0.steps))
    ensures res.Materialized? ==> Account(r, Needs(b.entries), res.steps, res.expanded, b.hasDependencies, listing, asks)
    ensures old(Ready(b)) ==> res.Materialized? && HasAll(b, res.active)
  {
    hide SameFor, OthersSame, DependencySteps, Faithful, SomeFailed, FirstCode, Ordered, Account, KeptIdle, LinkedTo, Waits;
    hide SkillsPublished, HasAll, ActiveOf;
    hide Journal.FailedSince, Journal.RolledBackSince, Journal.CommittedSince;
    ghost var start := b.log;
    var ok, skills := Publish(b, i, r);
    ghost var mid, midLog := b.books, b.log;
    if !ok {
      res := Stop(b, i, skills);
      StoppedLater(midLog, b.log, i, res.recorded);
    } else {
      var step := StepResult(OfSkills, r.app, WasInstalled, "");
      QuietLast(l0.steps, step);
      SkillsNow(start, midLog, old(b.skills), b.skills, r, skills);
      res := LinkAndPrune(b, i, r, l0.Record(step), l0.steps, order, expanded, listing, asks);
    }
    SaidSince(start, midLog, b.log);
    SkillsStill(start, midLog, b.log, old(b.skills), b.skills, r, skills);
    OthersSameThen(old(b.books), mid, b.books, i);
    if res.Materialized? {
      KeptFrom(old(b.books), mid, b.books, i, r.conns, res.active);
    }
  }

  lemma SkillsNow(a: Journal, z: Journal, before: map<AppId, nat>, after: map<AppId, nat>, r: Release, s: Staged)
    requires SkillsPublished(a, z, before, after, r, s) && s.GivenUp?
    ensures Published(after, r.app) == Some(r.revision)
  {
  }

  lemma StoppedLater(m: Journal, z: Journal, i: InstId, recorded: bool)
    requires z == m.AskStatus(i, Broken, recorded)
    ensures m.GrowsTo(z) && z.FailedSince(m, i, recorded)
  {
  }

  lemma SkillsStill(a: Journal, m: Journal, z: Journal, before: map<AppId, nat>, after: map<AppId, nat>, r: Release, s: Staged)
    requires m.rollbacks == z.rollbacks && m.commits == z.commits && SkillsPublished(a, m, before, after, r, s)
    ensures SkillsPublished(a, z, before, after, r, s)
  {
  }

  method Connected(b: Bot) returns (active: map<ConnType, ConnId>)
    ensures ActiveOf(b, active) && (b.healthy && b.hasConnectors ==> HasAll(b, active))
  {
    active := b.ActiveConnections();
  }

  method LinkAndPrune(b: Bot, i: InstId, r: Release, l0: Ledger, ghost first: seq<StepResult>, ghost order: seq<DepId>,
                      expanded: bool, listing: Listing, ghost asks: seq<InstallAsk>)
    returns (res: Result)
    requires b.Valid() && l0.Valid() && i in b.books.insts && b.books.insts[i].status.Installing?
    requires b.books.insts[i].app == r.app && b.books.insts[i].revision == r.revision
    requires Published(b.skills, r.app) == Some(r.revision)
    requires forall d :: d in r.deps ==> Ref(i, d) in b.books.refs
    requires (l0.partial <==> SomeFailed(l0.steps)) && first <= l0.steps
    requires DependencySteps(first, order) && Faithful(b.hasDependencies, listing, first, asks)
    requires b.hasDependencies && listing.Listed? ==> Needs(listing.entries) == Needs(b.entries)
    requires Ordered(Needs(b.entries), r.deps, order, expanded)
    modifies b`books, b`state, b`entries, b`requests, b`log
    ensures old(b.requests) <= b.requests
    ensures old(b.log).GrowsTo(b.log) && b.log == old(b.log).(statuses := b.log.statuses)
    ensures b.Valid()
    ensures !res.Refused? && res.inst == i && i in b.books.insts && b.books.insts[i].app == r.app
    ensures OthersSame(old(b.books), b.books, i)
    ensures res.Stopped? ==>
      && b.log.FailedSince(old(b.log), i, res.recorded) && res.skills.GivenUp?
      && (res.recorded ==> b.books.insts[i].status.Broken?)
    ensures res.Unrecorded? ==> Through(b, i, r) && NotRecorded(old(b.log), b.log, i)
    ensures res.Materialized? ==> Complete(b, i, r, res.steps, res.active) && ActiveOf(b, res.active)
    ensures res.Materialized? ==> KeptIdle(old(b.books), b.books, i, r.conns, res.active)
    ensures res.Materialized? ==> res.listing == listing && (SomeFailed(res.steps) <==> SomeFailed(l0.steps))
    ensures res.Materialized? ==> Account(r, Needs(b.entries), res.steps, res.expanded, b.hasDependencies, listing, asks)
    ensures old(Ready(b)) ==> res.Materialized? && HasAll(b, res.active)
  {
    hide SameFor, OthersSame, DependencySteps, Faithful, SomeFailed, FirstCode, Ordered, Account, Waits, LinkedTo, Wants, KeptIdle;
    hide Journal.FailedSince, Complete, Through, NotRecorded, OnlyLosses, Books.Valid, ActiveOf, HasAll, LinkFrame;
    var active := Connected(b);
    var ok, l := LinkConnectors(b, i, r.conns, active, l0);
    ghost var mid := b.books;
    if !ok {
      res := Stop(b, i, GivenUp);
      StoppedLater(old(b.log), b.log, i, res.recorded);
    } else {
      SameNeeds(b.entries, b.entries);
      res := Clean(b, i, r, l, active, expanded, listing, old(b.books));
      if res.Materialized? {
        AccountExtends(r, Needs(b.entries), first, order, expanded, b.hasDependencies, listing, asks, res.steps);
      }
    }
    OthersSameThen(old(b.books), mid, b.books, i);
  }

  method Clean(b: Bot, i: InstId, r: Release, l: Ledger, active: map<ConnType, ConnId>, expanded: bool, listing: Listing,
               ghost first: Books)
    returns (res: Result)
    requires b.Valid() && l.Valid() && i in b.books.insts
    requires b.books.insts[i].app == r.app && b.books.insts[i].revision == r.revision
    requires Published(b.skills, r.app) == Some(r.revision)
    requires Covers(b.books, i, r, active) && KeptIdle(first, b.books, i, r.conns, active)
    requires l.partial <==> SomeFailed(l.steps) || Waits(r.conns, active)
    modifies b`books, b`state, b`entries, b`requests, b`log
    ensures old(b.requests) <= b.requests
    ensures old(b.log).GrowsTo(b.log) && b.log == old(b.log).(statuses := b.log.statuses)
    ensures b.Valid()
    ensures !res.Refused? && res.inst == i && i in b.books.insts && b.books.insts[i].app == r.app
    ensures OthersSame(old(b.books), b.books, i)
    ensures res.Stopped? ==>
      && b.log.FailedSince(old(b.log), i, res.recorded) && res.skills.GivenUp?
      && (res.recorded ==> b.books.insts[i].status.Broken?)
    ensures res.Unrecorded? ==> Through(b, i, r) && NotRecorded(old(b.log), b.log, i)
    ensures res.Materialized? ==>
      && Complete(b, i, r, res.steps, res.active) && KeptIdle(first, b.books, i, r.conns, active)
      && res.active == active && res.expanded == expanded && res.listing == listing
      && l.steps <= res.steps && (SomeFailed(res.steps) <==> SomeFailed(l.steps))
    ensures Needs(b.entries) == Needs(old(b.entries))
    ensures old(Ready(b)) ==> res.Materialized?
  {
    hide SameFor, OthersSame, SomeFailed, FirstCode, Waits, LinkedTo, Wants, Released, KeptIdle;
    hide Journal.FailedSince;
    var ok, more := PruneReferences(b, i, r);
    ghost var mid := b.books;
    SameNeeds(old(b.entries), b.entries);
    PrunedCovers(old(b.books), old(b.entries), mid, b.entries, i, r, active);
    if !ok {
      res := Stop(b, i, GivenUp);
      StoppedLater(old(b.log), b.log, i, res.recorded);
    } else {
      CoveredExactly(b.books, i, r, active);
      QuietStepsKeepCode(l.steps, more);
      ok := Conclude(b, i, r, l, active, l.steps + more);
      KeptAgain(first, mid, b.books, i, r.conns, active);
      res := if ok then Materialized(i, l.steps + more, active, expanded, listing) else Unrecorded(i);
    }
    OthersSameThen(old(b.books), mid, b.books, i);
  }

  lemma KeptAgain(a: Books, m: Books, z: Books, i: InstId, conns: seq<ConnNeed>, active: map<ConnType, ConnId>)
    requires m.links == z.links && KeptIdle(a, m, i, conns, active)
    ensures KeptIdle(a, z, i, conns, active)
  {
  }

  /** With everything in order an App ends installed exactly when every connector it
      requires has an authorized connection. */
  method InstallInOrder(b: Bot, r: Release, reason: Reason) returns (res: Result)
    requires b.Valid() && Ready(b) && Unobstructed(Needs(b.entries), r.deps)
    modifies b`books, b`state, b`entries, b`requests, b`skills, b`log
    ensures res.Materialized? && Through(b, res.inst, r)
    ensures b.books.insts[res.inst].status == if AllAuthorized(b, r) then Installed else Partial
    ensures b.books.insts[res.inst].error == ""
  {
    hide Account, KeptIdle, Waits, SomeFailed, FirstCode, ActiveOf, HasAll, AllAuthorized, LinkedTo;
    res := Materialize(b, r, reason);
    WaitsIffUnauthorized(b, r, res.active);
    CodelessWithoutFailure(res.steps);
  }

  // ---------------------------------------------------------------------------
  // Partial though linked

  /** Every connector the release requires has its reference with some connection. */
  predicate AllCarry(books: Books, i: InstId, conns: seq<ConnNeed>) {
    forall j :: 0 <= j < |conns| && conns[j].required ==>
      Key(i, conns[j].kind) in books.links && books.links[Key(i, conns[j].kind)].connection.Some?
  }

  /** And that connection is the active one of its type. */
  predicate AllCarryActive(books: Books, i: InstId, conns: seq<ConnNeed>, active: map<ConnType, ConnId>) {
    forall j :: 0 <= j < |conns| && conns[j].required ==>
      && Key(i, conns[j].kind) in books.links && conns[j].kind in active
      && books.links[Key(i, conns[j].kind)].connection == Some(active[conns[j].kind])
  }

  /** A connector the release requires has no active connection, but each such one
      was linked before. */
  predicate OnlyStale(before: Books, i: InstId, conns: seq<ConnNeed>, active: map<ConnType, ConnId>) {
    && Waits(conns, active)
    && forall j :: 0 <= j < |conns| && conns[j].required && conns[j].kind !in active ==>
         Key(i, conns[j].kind) in before.links && before.links[Key(i, conns[j].kind)].connection.Some?
  }

  /** An App whose steps all worked is installed exactly if every required reference
      carries the active connection of its type.  Carrying some connection is not
      enough: it is partial with all of them carrying one exactly if a required type
      has no active connection and each such one was linked before. */
  lemma PartialThoughLinked(before: Books, after: Books, i: InstId, conns: seq<ConnNeed>, active: map<ConnType, ConnId>,
                            status: Status)
    requires LinkedTo(after, i, conns, active) && KeptIdle(before, after, i, conns, active)
    requires status == if Waits(conns, active) then Partial else Installed
    ensures status.Installed? <==> AllCarryActive(after, i, conns, active)
    ensures status.Partial? && AllCarry(after, i, conns) <==> OnlyStale(before, i, conns, active)
  {
    if status.Partial? && AllCarry(after, i, conns) {
      forall j | 0 <= j < |conns| && conns[j].required && conns[j].kind !in active
        ensures Key(i, conns[j].kind) in before.links && before.links[Key(i, conns[j].kind)].connection.Some?
      {
        assert after.links[Key(i, conns[j].kind)].connection.Some?;
      }
    }
    if OnlyStale(before, i, conns, active) {
      forall j | 0 <= j < |conns| && conns[j].required ensures after.links[Key(i, conns[j].kind)].connection.Some? {
        if conns[j].kind !in active {
          assert Key(i, conns[j].kind) in before.links;
        }
      }
    }
  }

  /** Such an App: its one connector is required and still linked to connection 3,
      which is no longer active. */
  lemma StaleLinkStaysPartial()
    ensures var conns := [ConnNeed(7, true)];
      var before := Books(map[0 := Installation(5, 1, Installing, ByUser, "")], {}, map[Key(0, 7) := Link(Some(3), true)]);
      var after := before.WithLink(0, 7, None, true);
      && before.Valid() && OnlyStale(before, 0, conns, map[]) && Waits(conns, map[])
      && LinkedTo(after, 0, conns, map[]) && KeptIdle(before, after, 0, conns, map[])
      && AllCarry(after, 0, conns) && !AllCarryActive(after, 0, conns, map[])
  {
    var conns := [ConnNeed(7, true)];
    assert conns[0].required && conns[0].kind == 7;
  }

  // ---------------------------------------------------------------------------
  // Histories

  /** Every required reference of the installation carries a connection. */
  predicate RequiredCarry(books: Books, i: InstId) {
    forall k :: k in books.links && k.inst == i && books.links[k].required ==> books.links[k].connection.Some?
  }

  /** What linking can still complete. */
  predicate CanComplete(books: Books, i: InstId) {
    i in books.insts && books.insts[i].status.Partial? && books.insts[i].error == "" && RequiredCarry(books, i)
  }

  function Completed(books: Books, i: InstId): Books
    requires i in books.insts
  {
    books.WithInst(i, books.insts[i].(status := Installed))
  }

  /** Promotes a partial installation without a recorded failure once every required
      connector is linked. */
  method ReconcileStatus(b: Bot, i: InstId)
    requires b.Valid() && i in b.books.insts
    modifies b`books, b`log
    ensures b.Valid() && OthersSame(old(b.books), b.books, i) && old(b.log).GrowsTo(b.log)
    ensures b.books == old(b.books) || (CanComplete(old(b.books), i) && b.books == Completed(old(b.books), i))
    ensures b.healthy && CanComplete(old(b.books), i) ==> b.books == Completed(old(b.books), i)
  {
    var x := b.books.insts[i];
    if !x.status.Partial? || x.error != "" {
      return;
    }
    var kinds := b.ListLinks(i);
    if kinds.None? {
      return;
    }
    for n := 0 to |kinds.value|
      invariant forall m :: 0 <= m < n ==> b.books.links[Key(i, kinds.value[m])].required ==>
        b.books.links[Key(i, kinds.value[m])].connection.Some?
    {
      var link := b.books.links[Key(i, kinds.value[n])];
      if link.required && link.connection.None? {
        assert Key(i, kinds.value[n]) in b.books.links;
        return;
      }
    }
    assert RequiredCarry(b.books, i) by {
      forall k | k in b.books.links && k.inst == i && b.books.links[k].required ensures b.books.links[k].connection.Some? {
        assert k == Key(i, k.kind) && k.kind in kinds.value;
      }
    }
    var _ := b.SetStatus(i, Installed, "");
  }

  /** A connection was not asked for, not created, created and left unlinked, or
      linked. */
  datatype Connecting = NotReferenced | NotCreated | LeftUnlinked(created: ConnId) | LinkedUp(created: ConnId)

  /** Creates a connection for a connector the App references and links it.  Once
      created it stays, even if the link cannot be written. */
  method Connect(b: Bot, i: InstId, kind: ConnType) returns (r: Connecting)
    requires b.Valid()
    modifies b`books, b`connections, b`active, b`log
    ensures b.Valid() && OthersSame(old(b.books), b.books, i) && old(b.log).GrowsTo(b.log)
    ensures !r.LinkedUp? ==> b.books == old(b.books)
    ensures r.NotReferenced? || r.NotCreated? ==> b.connections == old(b.connections) && b.active == old(b.active)
    ensures r.LeftUnlinked? || r.LinkedUp? ==>
      && r.created !in old(b.connections) && b.connections == old(b.connections)[r.created := kind]
      && Key(i, kind) in old(b.books).links
    ensures r.LinkedUp? ==>
      && Key(i, kind) in b.books.links && b.books.links[Key(i, kind)].connection == Some(r.created)
      && var linked := old(b.books).WithLink(i, kind, Some(r.created), old(b.books).links[Key(i, kind)].required);
         && (b.books == linked || (CanComplete(linked, i) && b.books == Completed(linked, i)))
         && (b.healthy && CanComplete(linked, i) ==> b.books == Completed(linked, i))
    ensures b.healthy && b.hasConnectors && Key(i, kind) in old(b.books).links ==> r.LinkedUp?
  {
    hide CanComplete;
    var inst := b.Get(i);
    if !inst.Found? {
      return NotReferenced;
    }
    var kinds := b.ListLinks(i);
    if kinds.None? || kind !in kinds.value {
      return NotReferenced;
    }
    if !b.hasConnectors {
      return NotCreated;
    }
    var created := b.CreateConnection(kind);
    if created.None? {
      return NotCreated;
    }
    ghost var before := b.books;
    var ok := b.PutLink(i, kind, created, b.books.links[Key(i, kind)].required);
    if !ok {
      return LeftUnlinked(created.value);
    }
    ghost var linked := b.books;
    LinkSpares(before, linked, i, kind, created, before.links[Key(i, kind)].required);
    ReconcileStatus(b, i);
    OthersSameThen(before, linked, b.books, i);
    r := LinkedUp(created.value);
  }

  lemma LinkSpares(a: Books, b: Books, i: InstId, kind: ConnType, c: Option<ConnId>, required: bool)
    requires b == a.WithLink(i, kind, c, required)
    ensures OthersSame(a, b, i)
  {
  }

  /** A history: any operations of any Apps, one after another, each failing where it
      may, while users change the workspace in between.  Throughout, every removal
      asked of the workspace was justified when it was asked, references belong to
      records, and an installed App has its required connectors linked. */
  method History(b: Bot, n: nat)
    requires b.Valid()
    modifies b
    ensures b.Valid() && old(b.requests) <= b.requests
    ensures forall k :: 0 <= k < |b.requests| ==> Justified(b.requests[k])
  {
    for k := 0 to n
      invariant b.Valid() && old(b.requests) <= b.requests
    {
      OneOperation(b);
    }
  }

  method OneOperation(b: Bot)
    requires b.Valid()
    modifies b
    ensures b.Valid() && old(b.requests) <= b.requests
  {
    var i: InstId, kind: ConnType, c: ConnId :| 0 <= i && 0 <= kind && 0 <= c;
    var r: Release, reason: Reason, also: bool := *, *, *;
    if {
      case true => var _ := Materialize(b, r, reason);
      case i in b.books.insts => var _, _ := PruneReferences(b, i, r);
      case true => var _, _ := Remove(b, i, also);
      case true => var _ := Connect(b, i, kind);
      case true => DisconnectKeepsValid(b.books, c); var _ := b.Disconnect(c);
      case true => b.entries, b.state, b.healthy, b.active := *, *, *, *;
    }
  }
}
