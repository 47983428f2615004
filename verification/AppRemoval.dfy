/** Removing an App: the plan, its execution step by step, and what is left when a
    step fails. */
module AppRemoval {
  import opened Options
  import opened InstallOrder
  import opened AppRecords

  datatype KeepReason = SharedCopy | NotThere | ImageCopy | NeededCopy

  datatype Action = RemoveIt | Keep(reason: KeepReason)

  /** What removing App `i` does to a dependency it references. */
  function ActionFor(books: Books, entries: Entries, i: InstId, d: DepId): Action {
    if books.Shared(d, i) then Keep(SharedCopy)
    else if d !in entries || !entries[d].present then Keep(NotThere)
    else if !entries[d].managed then Keep(ImageCopy)
    else if IsNeeded(entries, d) then Keep(NeededCopy)
    else RemoveIt
  }

  datatype DepItem = DepItem(dep: DepId, action: Action)

  /** `connection` is set when the connection is to be closed. */
  datatype ConnItem = ConnItem(kind: ConnType, connection: Option<ConnId>)

  datatype Plan = Plan(deps: seq<DepItem>, conns: seq<ConnItem>, required: seq<InstId>)

  /** Once App `i` is gone, nobody asked for App `c` and nothing it references is
      referenced by another App. */
  ghost predicate Orphaned(books: Books, i: InstId, c: InstId) {
    && c in books.insts && c != i && books.insts[c].reason.ByRequirement?
    && (if books.Own(c) == {} then books.insts[c].status.Broken? || books.insts[c].status.Removing?
        else forall r :: r in books.refs && r.dep in books.Own(c) ==> r.inst == c || r.inst == i)
  }

  /** The dependencies of orphaned Apps are no other App's, orphaned or not. */
  lemma OrphansShareNothing(books: Books, i: InstId, c: InstId, x: InstId)
    requires Orphaned(books, i, c) && x != c && x != i
    ensures books.Own(c) !! books.Own(x)
  {
    assert forall d :: d in books.Own(x) ==> Ref(x, d) in books.refs;
  }

  /** So removing one orphan leaves the others orphaned. */
  lemma OrphansAreIndependent(before: Books, after: Books, i: InstId, c: InstId, x: InstId)
    requires Orphaned(before, i, c) && Orphaned(before, i, x) && x != c
    requires after == before.Without(c)
    ensures Orphaned(after, i, x)
  {
    assert after.Own(x) == before.Own(x);
  }

  // ---------------------------------------------------------------------------
  // Planning

  /** The facts needed to release dependencies that are not shared; none when the
      workspace cannot tell. */
  method CleanupStates(b: Bot, i: InstId, deps: seq<DepId>, books: Books) returns (r: Option<Entries>)
    modifies b`state
    requires books == b.books
    ensures r.Some? && (exists d :: d in deps && !books.Shared(d, i)) ==>
      r.value == b.entries && b.state.Up? && b.hasDependencies
    ensures r.Some? ==> forall d :: d in deps && !books.Shared(d, i) && d in b.entries ==> !b.entries[d].busy
    ensures Ready(b) ==> r.Some?
    ensures b.state == old(b.state) || b.state.Up?
  {
    var unshared: seq<DepId> := [];
    for k := 0 to |deps|
      invariant forall d :: d in unshared <==> d in deps[..k] && !books.Shared(d, i)
    {
      if !books.Shared(deps[k], i) {
        unshared := unshared + [deps[k]];
      }
    }
    assert deps[..|deps|] == deps;
    if unshared == [] {
      assert forall d :: d in deps && !books.Shared(d, i) ==> d in unshared;
      return Some(map[]);
    }
    if !b.hasDependencies {
      return None;
    }
    var view := b.ListDependencies();
    if view.None? {
      return None;
    }
    if view.value.state.Down? {
      var up := b.EnsureRunning();
      if !up {
        return None;
      }
      view := b.ListDependencies();
      if view.None? {
        return None;
      }
    }
    if !view.value.state.Up? || view.value.discoveryFailed {
      return None;
    }
    var states := view.value.entries;
    for k := 0 to |unshared|
      invariant forall j :: 0 <= j < k ==> unshared[j] in states ==> !states[unshared[j]].busy
    {
      if unshared[k] in states && states[unshared[k]].busy {
        return None;
      }
    }
    r := Some(states);
  }

  /** Nothing stands in the way of a removal. */
  predicate Ready(b: Bot)
    reads b
  {
    && b.healthy && b.hasDependencies && b.hasConnectors && !b.state.NoWorkspace?
    && forall d :: d in b.entries ==> !b.entries[d].busy
  }

  predicate DepsPlanned(books: Books, entries: Entries, i: InstId, deps: seq<DepItem>) {
    forall k :: 0 <= k < |deps| ==> deps[k].action == ActionFor(books, entries, i, deps[k].dep)
  }

  predicate ConnPlanned(books: Books, i: InstId, c: ConnItem) {
    && Key(i, c.kind) in books.links
    && var was := books.links[Key(i, c.kind)].connection;
       c.connection == if was.Some? && !books.LinkedElsewhere(was.value, i) then was else None
  }

  predicate ConnsPlanned(books: Books, i: InstId, conns: seq<ConnItem>) {
    forall k :: 0 <= k < |conns| ==> ConnPlanned(books, i, conns[k])
  }

  function DepIds(deps: seq<DepItem>): seq<DepId> {
    seq(|deps|, k requires 0 <= k < |deps| => deps[k].dep)
  }

  function KindsOf(conns: seq<ConnItem>): seq<ConnType> {
    seq(|conns|, k requires 0 <= k < |conns| => conns[k].kind)
  }

  ghost predicate Planned(books: Books, entries: Entries, i: InstId, p: Plan) {
    && DepsPlanned(books, entries, i, p.deps) && ConnsPlanned(books, i, p.conns)
    && NoDuplicates(DepIds(p.deps)) && NoDuplicates(KindsOf(p.conns)) && NoDuplicates(p.required)
    && (forall d :: d in DepIds(p.deps) <==> Ref(i, d) in books.refs)
    && (forall k :: k in KindsOf(p.conns) <==> Key(i, k) in books.links)
    && (forall c :: c in p.required <==> Orphaned(books, i, c))
  }

  method PlanDependencies(b: Bot, i: InstId, refs: seq<DepId>) returns (r: Option<seq<DepItem>>)
    modifies b`state
    ensures r.Some? ==> DepIds(r.value) == refs && DepsPlanned(b.books, b.entries, i, r.value)
    ensures Ready(b) ==> r.Some?
    ensures b.state == old(b.state) || b.state.Up?
  {
    var states := CleanupStates(b, i, refs, b.books);
    if states.None? {
      return None;
    }
    var items: seq<DepItem> := [];
    for k := 0 to |refs|
      invariant |items| == k && DepsPlanned(b.books, b.entries, i, items)
      invariant forall j :: 0 <= j < k ==> items[j].dep == refs[j]
      invariant b.state == old(b.state) || b.state.Up?
    {
      var d := refs[k];
      var action := RemoveIt;
      if b.books.Shared(d, i) {
        action := Keep(SharedCopy);
      } else if d !in states.value || !states.value[d].present {
        action := Keep(NotThere);
      } else if !states.value[d].managed {
        action := Keep(ImageCopy);
      } else {
        var needed := b.HasDependents(d);
        if needed.None? {
          return None;
        }
        if needed.value {
          action := Keep(NeededCopy);
        }
      }
      items := items + [DepItem(d, action)];
    }
    assert DepIds(items) == refs;
    r := Some(items);
  }

  method PlanConnectors(b: Bot, i: InstId) returns (r: Option<seq<ConnItem>>)
    ensures r.Some? ==> ConnsPlanned(b.books, i, r.value) && NoDuplicates(KindsOf(r.value))
    ensures r.Some? ==> forall k :: k in KindsOf(r.value) <==> Key(i, k) in b.books.links
    ensures b.healthy ==> r.Some?
  {
    var kinds := b.ListLinks(i);
    if kinds.None? {
      return None;
    }
    var items: seq<ConnItem> := [];
    for k := 0 to |kinds.value|
      invariant |items| == k && ConnsPlanned(b.books, i, items)
      invariant forall j :: 0 <= j < k ==> items[j].kind == kinds.value[j]
    {
      var kind := kinds.value[k];
      var was := b.books.links[Key(i, kind)].connection;
      var close := was.Some? && !b.books.LinkedElsewhere(was.value, i);
      items := items + [ConnItem(kind, if close then was else None)];
    }
    assert KindsOf(items) == kinds.value;
    r := Some(items);
  }

  method OrphanedRequired(b: Bot, i: InstId) returns (r: Option<seq<InstId>>)
    ensures r.Some? ==> NoDuplicates(r.value) && forall c :: c in r.value <==> Orphaned(b.books, i, c)
    ensures b.healthy ==> r.Some?
  {
    var all := b.ListInstallations();
    if all.None? {
      return None;
    }
    var list: seq<InstId> := [];
    for k := 0 to |all.value|
      invariant NoDuplicates(list)
      invariant forall c :: c in list <==> c in all.value[..k] && Orphaned(b.books, i, c)
    {
      var c := all.value[k];
      var inst := b.books.insts[c];
      assert all.value[..k + 1] == all.value[..k] + [c] && c !in all.value[..k];
      if c != i && inst.reason.ByRequirement? {
        var own := b.books.Own(c);
        var orphaned;
        if own == {} {
          orphaned := inst.status.Broken? || inst.status.Removing?;
        } else {
          orphaned := forall r :: r in b.books.refs && r.inst != i && r.dep in own ==> r.inst == c;
        }
        if orphaned {
          list := list + [c];
        }
      }
    }
    assert all.value[..|all.value|] == all.value;
    r := Some(list);
  }

  method MakePlan(b: Bot, i: InstId) returns (r: Option<Plan>)
    modifies b`state
    ensures r.Some? ==> Planned(b.books, b.entries, i, r.value)
    ensures Ready(b) ==> r.Some?
    ensures b.state == old(b.state) || b.state.Up?
  {
    var refs := b.ListRefs(i);
    if refs.None? {
      return None;
    }
    var deps := PlanDependencies(b, i, refs.value);
    if deps.None? {
      return None;
    }
    var conns := PlanConnectors(b, i);
    if conns.None? {
      return None;
    }
    var required := OrphanedRequired(b, i);
    if required.None? {
      return None;
    }
    r := Some(Plan(deps.value, conns.value, required.value));
  }

  // ---------------------------------------------------------------------------
  // Execution

  /** What a step of the plan leaves for the later ones to rely on. */
  ghost predicate StillPlanned(books: Books, entries: Entries, i: InstId, deps: seq<DepItem>, from: nat) {
    forall k :: from <= k < |deps| && deps[k].action.RemoveIt? ==>
      deps[k].action == ActionFor(books, entries, i, deps[k].dep)
  }

  /** Nothing but copies got lost. */
  predicate OnlyLosses(a: Entries, b: Entries) {
    a.Keys == b.Keys && forall d :: d in a ==> b[d] == a[d] || b[d] == a[d].(present := false)
  }

  /** The dependency is settled: its copy is gone, or it was planned to be kept. */
  predicate SettledDep(entries: Entries, item: DepItem) {
    item.action.RemoveIt? ==> item.dep in entries && !entries[item.dep].present
  }

  /** Exactly the references from position `k` on are left. */
  ghost predicate DepsLeft(books: Books, i: InstId, deps: seq<DepItem>, k: nat) {
    forall d :: Ref(i, d) in books.refs <==> exists j :: k <= j < |deps| && deps[j].dep == d
  }

  lemma NextDep(books: Books, i: InstId, deps: seq<DepItem>, k: nat)
    requires k < |deps| && DepsLeft(books, i, deps, k) && NoDuplicates(DepIds(deps))
    ensures DepsLeft(books.WithoutRef(i, deps[k].dep), i, deps, k + 1)
  {
    var d := deps[k].dep;
    var after := books.WithoutRef(i, d);
    forall e ensures Ref(i, e) in after.refs <==> exists j :: k + 1 <= j < |deps| && deps[j].dep == e {
      if e == d {
        forall j | k + 1 <= j < |deps| ensures deps[j].dep != d {
          assert DepIds(deps)[k] != DepIds(deps)[j];
        }
      } else if Ref(i, e) in books.refs {
        var j :| k <= j < |deps| && deps[j].dep == e;
        assert j != k;
      }
    }
  }

  lemma RemovalKeepsPlan(books: Books, entries: Entries, after: Entries, i: InstId, deps: seq<DepItem>, k: nat)
    requires k < |deps| && StillPlanned(books, entries, i, deps, k) && NoDuplicates(DepIds(deps))
    requires IsLost(entries, after, deps[k].dep)
    ensures StillPlanned(books.WithoutRef(i, deps[k].dep), after, i, deps, k + 1)
  {
    var d := deps[k].dep;
    forall j | k + 1 <= j < |deps| && deps[j].action.RemoveIt?
      ensures ActionFor(books.WithoutRef(i, d), after, i, deps[j].dep).RemoveIt?
    {
      var e := deps[j].dep;
      assert DepIds(deps)[j] != DepIds(deps)[k];
      assert ActionFor(books, entries, i, e).RemoveIt?;
      assert after[e] == entries[e];
      assert forall x :: NeededBy(after, e, x) ==> NeededBy(entries, e, x);
    }
  }

  /** Releases the dependencies in the plan's order and stops at the first failure.
      A reference is dropped only after its copy was removed or was to be kept, so
      the references left are the plan's suffix from that failure on. */
  method DropDependencies(b: Bot, i: InstId, deps: seq<DepItem>) returns (ok: bool, done: nat)
    requires b.Valid() && NoDuplicates(DepIds(deps))
    requires StillPlanned(b.books, b.entries, i, deps, 0) && DepsLeft(b.books, i, deps, 0)
    modifies b`books, b`entries, b`requests
    ensures old(b.requests) <= b.requests
    ensures b.Valid()
    ensures done <= |deps| && (ok <==> done == |deps|)
    ensures DepsLeft(b.books, i, deps, done)
    ensures forall j :: 0 <= j < done && b.hasDependencies ==> SettledDep(b.entries, deps[j])
    ensures b.books == old(b.books).(refs := b.books.refs)
    ensures forall r: Ref :: r.inst != i ==> (r in b.books.refs <==> r in old(b.books.refs))
    ensures b.books.refs <= old(b.books.refs)
    ensures b.healthy && b.hasDependencies ==> ok
    ensures OnlyLosses(old(b.entries), b.entries)
  {
    done := 0;
    while done < |deps|
      invariant b.Valid() && done <= |deps| && old(b.requests) <= b.requests
      invariant StillPlanned(b.books, b.entries, i, deps, done) && DepsLeft(b.books, i, deps, done)
      invariant forall j :: 0 <= j < done && b.hasDependencies ==> SettledDep(b.entries, deps[j])
      invariant b.books == old(b.books).(refs := b.books.refs)
      invariant forall r: Ref :: r.inst != i ==> (r in b.books.refs <==> r in old(b.books.refs))
      invariant b.books.refs <= old(b.books.refs)
      invariant OnlyLosses(old(b.entries), b.entries)
    {
      ok := DropDependency(b, i, deps, done);
      if !ok {
        return;
      }
      done := done + 1;
    }
    ok := true;
  }

  method DropDependency(b: Bot, i: InstId, deps: seq<DepItem>, k: nat) returns (ok: bool)
    requires b.Valid() && k < |deps| && NoDuplicates(DepIds(deps))
    requires StillPlanned(b.books, b.entries, i, deps, k) && DepsLeft(b.books, i, deps, k)
    modifies b`books, b`entries, b`requests
    ensures old(b.requests) <= b.requests
    ensures b.Valid()
    ensures b.books == if ok then old(b.books).WithoutRef(i, deps[k].dep) else old(b.books)
    ensures ok ==> StillPlanned(b.books, b.entries, i, deps, k + 1) && DepsLeft(b.books, i, deps, k + 1)
    ensures ok && b.hasDependencies ==> SettledDep(b.entries, deps[k])
    ensures b.entries == old(b.entries) || IsLost(old(b.entries), b.entries, deps[k].dep)
    ensures b.healthy && b.hasDependencies ==> ok
  {
    var item := deps[k];
    NextDep(b.books, i, deps, k);
    if item.action.RemoveIt? && b.hasDependencies {
      assert ActionFor(b.books, b.entries, i, item.dep).RemoveIt?;
      ok := b.RemoveDependency(item.dep, i);
      if !ok {
        return;
      }
      RemovalKeepsPlan(b.books, old(b.entries), b.entries, i, deps, k);
    } else {
      KeepingKeepsPlan(b.books, b.entries, i, deps, k);
    }
    ok := b.RemoveRef(i, item.dep);
  }

  lemma KeepingKeepsPlan(books: Books, entries: Entries, i: InstId, deps: seq<DepItem>, k: nat)
    requires k < |deps| && StillPlanned(books, entries, i, deps, k)
    ensures StillPlanned(books.WithoutRef(i, deps[k].dep), entries, i, deps, k + 1)
  {
  }

  /** Exactly the links from position `k` on are left. */
  ghost predicate LinksLeft(books: Books, i: InstId, conns: seq<ConnItem>, k: nat) {
    forall c :: Key(i, c) in books.links <==> exists j :: k <= j < |conns| && conns[j].kind == c
  }

  /** No other App uses a connection that is still to be closed. */
  ghost predicate StillOwn(books: Books, i: InstId, conns: seq<ConnItem>, from: nat) {
    forall k :: from <= k < |conns| && conns[k].connection.Some? ==>
      !books.LinkedElsewhere(conns[k].connection.value, i)
  }

  lemma NextLink(books: Books, i: InstId, conns: seq<ConnItem>, k: nat)
    requires k < |conns| && LinksLeft(books, i, conns, k) && NoDuplicates(KindsOf(conns))
    ensures LinksLeft(books.WithoutLink(i, conns[k].kind), i, conns, k + 1)
  {
    var d := conns[k].kind;
    var after := books.WithoutLink(i, d);
    forall e ensures Key(i, e) in after.links <==> exists j :: k + 1 <= j < |conns| && conns[j].kind == e {
      if e == d {
        forall j | k + 1 <= j < |conns| ensures conns[j].kind != d {
          assert KindsOf(conns)[k] != KindsOf(conns)[j];
        }
      } else if Key(i, e) in books.links {
        var j :| k <= j < |conns| && conns[j].kind == e;
        assert j != k;
      }
    }
  }

  /** Closing a connection that only `i` uses touches nobody else. */
  lemma DisconnectIsPrivate(books: Books, i: InstId, c: ConnId)
    requires books.Valid() && !books.LinkedElsewhere(c, i) && i in books.insts && !books.insts[i].status.Installed?
    ensures var after := books.Disconnected(c);
      && after.insts == books.insts && after.refs == books.refs && after.links.Keys == books.links.Keys
      && forall k :: k in books.links && k.inst != i ==> after.links[k] == books.links[k]
  {
    var after := books.Disconnected(c);
    forall x | x in books.insts ensures after.insts[x] == books.insts[x] {
      assert books.insts[x].status.Installed? ==> x != i;
    }
  }

  /** Only the links of `i` differ, and no new connection shows up among them. */
  ghost predicate OnlyLinksOf(a: Books, b: Books, i: InstId) {
    && b == a.(links := b.links) && b.links.Keys <= a.links.Keys
    && (forall k :: k in a.links && k.inst != i ==> k in b.links && b.links[k] == a.links[k])
  }

  lemma StillOwnAfter(a: Books, b: Books, i: InstId, conns: seq<ConnItem>, k: nat)
    requires StillOwn(a, i, conns, k) && OnlyLinksOf(a, b, i)
    ensures StillOwn(b, i, conns, k + 1)
  {
    forall j | k + 1 <= j < |conns| && conns[j].connection.Some?
      ensures !b.LinkedElsewhere(conns[j].connection.value, i)
    {
      assert !a.LinkedElsewhere(conns[j].connection.value, i);
    }
  }

  method DropConnector(b: Bot, i: InstId, conns: seq<ConnItem>, k: nat) returns (ok: bool)
    requires b.Valid() && k < |conns| && NoDuplicates(KindsOf(conns))
    requires LinksLeft(b.books, i, conns, k) && StillOwn(b.books, i, conns, k)
    requires i in b.books.insts && !b.books.insts[i].status.Installed?
    modifies b`books, b`connections
    ensures b.Valid()
    ensures OnlyLinksOf(old(b.books), b.books, i)
    ensures LinksLeft(b.books, i, conns, if ok then k + 1 else k)
    ensures ok ==> StillOwn(b.books, i, conns, k + 1)
    ensures ok && conns[k].connection.Some? ==> conns[k].connection.value !in b.connections
    ensures b.connections.Keys <= old(b.connections.Keys)
    ensures b.healthy && b.hasConnectors ==> ok
  {
    ok := CloseConnection(b, i, conns[k].connection);
    if !ok {
      return;
    }
    NextLink(b.books, i, conns, k);
    ok := b.RemoveLink(i, conns[k].kind);
    StillOwnAfter(old(b.books), b.books, i, conns, k);
  }

  method CloseConnection(b: Bot, i: InstId, connection: Option<ConnId>) returns (ok: bool)
    requires b.Valid() && i in b.books.insts && !b.books.insts[i].status.Installed?
    requires connection.Some? ==> !b.books.LinkedElsewhere(connection.value, i)
    modifies b`books, b`connections
    ensures b.Valid()
    ensures OnlyLinksOf(old(b.books), b.books, i) && b.books.links.Keys == old(b.books).links.Keys
    ensures ok && connection.Some? ==> connection.value !in b.connections
    ensures b.connections.Keys <= old(b.connections.Keys)
    ensures b.healthy && b.hasConnectors ==> ok
  {
    if connection.None? {
      return true;
    }
    if !b.hasConnectors {
      return false;
    }
    DisconnectIsPrivate(b.books, i, connection.value);
    DisconnectKeepsValid(b.books, connection.value);
    ok := b.Disconnect(connection.value);
  }

  /** The same for the connections: closed when nobody else uses them. */
  method DropConnectors(b: Bot, i: InstId, conns: seq<ConnItem>) returns (ok: bool, done: nat)
    requires b.Valid() && NoDuplicates(KindsOf(conns))
    requires LinksLeft(b.books, i, conns, 0) && StillOwn(b.books, i, conns, 0)
    requires i in b.books.insts && !b.books.insts[i].status.Installed?
    modifies b`books, b`connections
    ensures b.Valid()
    ensures done <= |conns| && (ok <==> done == |conns|)
    ensures LinksLeft(b.books, i, conns, done)
    ensures forall j :: 0 <= j < done && conns[j].connection.Some? ==> conns[j].connection.value !in b.connections
    ensures OnlyLinksOf(old(b.books), b.books, i)
    ensures b.healthy && b.hasConnectors ==> ok
  {
    done := 0;
    while done < |conns|
      invariant b.Valid() && done <= |conns|
      invariant LinksLeft(b.books, i, conns, done) && StillOwn(b.books, i, conns, done)
      invariant forall j :: 0 <= j < done && conns[j].connection.Some? ==> conns[j].connection.value !in b.connections
      invariant OnlyLinksOf(old(b.books), b.books, i)
    {
      ok := DropConnector(b, i, conns, done);
      if !ok {
        return;
      }
      done := done + 1;
    }
    ok := true;
  }

  // ---------------------------------------------------------------------------
  // The whole removal

  /** What a failure finds of the staged change of the Skills: none was staged, it
      was rolled back, or it is past undoing. */
  datatype Staged = Unstaged | PutBack(restored: bool) | GivenUp

  /** A removal is over; or it names nothing, cannot be read or cannot be marked, and
      changed nothing; or it failed on the way, which was recorded or not. */
  datatype Outcome = Done | NotInstalled | Unreadable | Unmarked | Failing(recorded: bool, skills: Staged)

  /** How far the plan was carried out. */
  datatype Progress = Progress(plan: Plan, dropped: nat, closed: nat)

  /** What is retained is the unfinished suffix of the plan. */
  ghost predicate Retained(books: Books, i: InstId, g: Progress) {
    && g.dropped <= |g.plan.deps| && g.closed <= |g.plan.conns|
    && (g.closed > 0 ==> g.dropped == |g.plan.deps|)
    && DepsLeft(books, i, g.plan.deps, g.dropped) && LinksLeft(books, i, g.plan.conns, g.closed)
  }

  /** What is released is settled. */
  predicate SettledUpTo(entries: Entries, g: Progress) {
    g.dropped <= |g.plan.deps| && forall j :: 0 <= j < g.dropped ==> SettledDep(entries, g.plan.deps[j])
  }

  predicate Complete(g: Progress) {
    g.dropped == |g.plan.deps| && g.closed == |g.plan.conns|
  }

  lemma SettledAfter(a: Entries, b: Entries, g: Progress)
    requires SettledUpTo(a, g) && OnlyLosses(a, b)
    ensures SettledUpTo(b, g)
  {
  }

  lemma RetainedElsewhere(a: Books, b: Books, i: InstId, g: Progress)
    requires Retained(a, i, g) && SameFor(a, b, i)
    ensures Retained(b, i, g)
  {
  }

  /** All installations but `i` and those in `others` are as they were. */
  ghost predicate Spared(a: Books, b: Books, i: InstId, others: seq<InstId>) {
    forall x: InstId :: x != i && x !in others ==> SameFor(a, b, x)
  }

  /** The Skills of every App but the ones named are as they were. */
  ghost predicate SkillsSpared(before: map<AppId, nat>, after: map<AppId, nat>, apps: set<AppId>) {
    forall a: AppId :: a !in apps ==> Published(before, a) == Published(after, a)
  }

  ghost function AppsOf(books: Books, ids: seq<InstId>): set<AppId> {
    set c | c in ids && c in books.insts :: books.insts[c].app
  }

  method CarryOut(b: Bot, i: InstId, p: Plan) returns (ok: bool, ghost g: Progress)
    requires b.Valid() && Planned(b.books, b.entries, i, p)
    requires i in b.books.insts && b.books.insts[i].status.Removing?
    modifies b`books, b`entries, b`requests, b`connections
    ensures old(b.requests) <= b.requests
    ensures b.Valid()
    ensures g.plan == p && Retained(b.books, i, g)
    ensures ok <==> Complete(g)
    ensures b.hasDependencies ==> SettledUpTo(b.entries, g)
    ensures forall j :: 0 <= j < g.closed && p.conns[j].connection.Some? ==>
      p.conns[j].connection.value !in b.connections
    ensures Spared(old(b.books), b.books, i, []) && b.books.insts == old(b.books).insts
    ensures b.healthy && b.hasDependencies && b.hasConnectors ==> ok
    ensures OnlyLosses(old(b.entries), b.entries)
  {
    PlanStarts(b.books, b.entries, i, p);
    var dropped, closed;
    ok, dropped := DropDependencies(b, i, p.deps);
    g := Progress(p, dropped, 0);
    if !ok {
      return;
    }
    ok, closed := DropConnectors(b, i, p.conns);
    g := Progress(p, dropped, closed);
  }

  lemma PlanStarts(books: Books, entries: Entries, i: InstId, p: Plan)
    requires Planned(books, entries, i, p)
    ensures StillPlanned(books, entries, i, p.deps, 0) && DepsLeft(books, i, p.deps, 0)
    ensures LinksLeft(books, i, p.conns, 0) && StillOwn(books, i, p.conns, 0)
  {
    forall d ensures Ref(i, d) in books.refs <==> exists j :: 0 <= j < |p.deps| && p.deps[j].dep == d {
      if Ref(i, d) in books.refs {
        var j :| 0 <= j < |p.deps| && DepIds(p.deps)[j] == d;
      }
      if j :| 0 <= j < |p.deps| && p.deps[j].dep == d {
        assert DepIds(p.deps)[j] == d;
      }
    }
    forall c ensures Key(i, c) in books.links <==> exists j :: 0 <= j < |p.conns| && p.conns[j].kind == c {
      if Key(i, c) in books.links {
        var j :| 0 <= j < |p.conns| && KindsOf(p.conns)[j] == c;
      }
      if j :| 0 <= j < |p.conns| && p.conns[j].kind == c {
        assert KindsOf(p.conns)[j] == c;
      }
    }
  }

  method RecordFailure(b: Bot, i: InstId) returns (recorded: bool)
    requires b.Valid()
    modifies b`books, b`log
    ensures b.Valid()
    ensures b.log == old(b.log).AskStatus(i, Broken, recorded)
    ensures Spared(old(b.books), b.books, i, [])
    ensures b.books.refs == old(b.books.refs) && b.books.links == old(b.books.links)
    ensures b.books.insts.Keys == old(b.books.insts.Keys)
    ensures i in b.books.insts ==> b.books.insts[i].app == old(b.books).insts[i].app
    ensures recorded ==> i in b.books.insts && b.books.insts[i].status.Broken?
  {
    var code: Code := *;
    recorded := b.SetStatus(i, Broken, code);
  }

  /** Removes the auto-installed Apps one after another. */
  method RemoveRequired(b: Bot, required: seq<InstId>) returns (ok: bool)
    requires b.Valid() && NoDuplicates(required)
    requires forall c :: c in required ==> c in b.books.insts
    modifies b`books, b`state, b`entries, b`requests, b`connections, b`skills, b`log
    ensures old(b.requests) <= b.requests && old(b.log).GrowsTo(b.log)
    ensures b.Valid()
    ensures forall x: InstId :: x !in required ==> SameFor(old(b.books), b.books, x)
    ensures ok ==> forall c :: c in required ==> c !in b.books.insts
    ensures SkillsSpared(old(b.skills), b.skills, AppsOf(old(b.books), required))
    ensures OnlyLosses(old(b.entries), b.entries)
    ensures old(Ready(b)) ==> Ready(b) && ok
    decreases 1, 0
  {
    hide SameFor;
    ok := true;
    var k := 0;
    RemainsSame(b.books);
    while k < |required|
      invariant 0 <= k <= |required| && b.Valid() && old(b.requests) <= b.requests && old(b.log).GrowsTo(b.log)
      invariant forall x: InstId :: x !in required[..k] ==> SameFor(old(b.books), b.books, x)
      invariant forall j :: 0 <= j < k ==> required[j] !in b.books.insts
      invariant forall j :: k <= j < |required| ==> required[j] in b.books.insts
      invariant SkillsSpared(old(b.skills), b.skills, AppsOf(old(b.books), required))
      invariant OnlyLosses(old(b.entries), b.entries)
      invariant old(Ready(b)) ==> Ready(b)
    {
      ghost var mid := b.books;
      ghost var was := b.skills;
      var r, _ := Remove(b, required[k], false);
      RequiredStep(old(b.books), mid, b.books, required, k);
      assert [required[k]] + [] == [required[k]];
      SkillsStep(old(b.books), mid, old(b.skills), was, b.skills, required, k);
      if !r.Done? {
        return false;
      }
      k := k + 1;
    }
  }

  lemma RemainsSame(a: Books)
    ensures forall x: InstId :: SameFor(a, a, x)
  {
  }

  lemma RequiredStep(a: Books, b: Books, c: Books, required: seq<InstId>, k: nat)
    requires k < |required| && NoDuplicates(required)
    requires forall x: InstId :: x !in required[..k] ==> SameFor(a, b, x)
    requires forall j :: 0 <= j < k ==> required[j] !in b.insts
    requires Spared(b, c, required[k], [])
    ensures forall x: InstId :: x !in required[..k + 1] ==> SameFor(a, c, x)
    ensures forall j :: 0 <= j < k ==> required[j] !in c.insts
    ensures forall j :: k < j < |required| && required[j] in b.insts ==> required[j] in c.insts
    ensures required[k] in a.insts && required[k] in b.insts ==> a.insts[required[k]] == b.insts[required[k]]
  {
    assert required[..k + 1] == required[..k] + [required[k]];
    forall x: InstId | x !in required[..k + 1] ensures SameFor(a, c, x) {
      assert SameFor(b, c, x);
      SameForTransitive(a, b, c, x);
    }
    forall j | 0 <= j < |required| && j != k ensures SameFor(b, c, required[j]) {
    }
    assert required[k] !in required[..k];
    assert SameFor(a, b, required[k]);
  }

  lemma SkillsStep(a: Books, b: Books, s: map<AppId, nat>, t: map<AppId, nat>, u: map<AppId, nat>,
                   required: seq<InstId>, k: nat)
    requires k < |required| && SkillsSpared(s, t, AppsOf(a, required)) && SkillsSpared(t, u, AppsOf(b, [required[k]]))
    requires required[k] in a.insts && required[k] in b.insts ==> a.insts[required[k]] == b.insts[required[k]]
    requires required[k] in a.insts
    ensures SkillsSpared(s, u, AppsOf(a, required))
  {
    forall x: AppId | x !in AppsOf(a, required) ensures Published(s, x) == Published(u, x) {
      assert a.insts[required[k]].app in AppsOf(a, required);
      assert x !in AppsOf(b, [required[k]]);
    }
  }

  /** The Apps a removal may take along. */
  ghost function Along(g: Option<Progress>, alsoRequired: bool): seq<InstId> {
    if g.Some? && alsoRequired then g.value.plan.required else []
  }

  /** The staged removal of the App's Skills. */
  function TxOf(skills: map<AppId, nat>, app: AppId): SkillTx {
    SkillTx(app, Published(skills, app))
  }

  /** Uninstalls an App.  Whatever fails, the record and the references to
      everything unfinished are still there to be tried again, the failure was the
      last status asked for, and the Skills were rolled back unless nothing was staged
      or they were already given up for good.  No staged change is left open. */
  method Remove(b: Bot, i: InstId, alsoRequired: bool) returns (r: Outcome, ghost g: Option<Progress>)
    requires b.Valid()
    modifies b`books, b`state, b`entries, b`requests, b`connections, b`skills, b`log
    ensures old(b.requests) <= b.requests && old(b.log).GrowsTo(b.log)
    ensures b.Valid()
    ensures r.Done? ==> i in old(b.books).insts && i !in b.books.insts
    ensures r.NotInstalled? ==> i !in old(b.books).insts
    ensures r.NotInstalled? || r.Unreadable? || r.Unmarked? ==> b.books == old(b.books) && b.skills == old(b.skills)
    ensures r.NotInstalled? || r.Unreadable? ==> b.log == old(b.log)
    ensures r.Unmarked? ==> b.log == old(b.log).AskStatus(i, Removing, false)
    ensures r.Failing? ==>
      i in old(b.books).insts && i in b.books.insts && b.books.insts[i].app == old(b.books).insts[i].app
    ensures r.Failing? ==> b.log.FailedSince(old(b.log), i, r.recorded)
    ensures r.Failing? && r.recorded ==> b.books.insts[i].status.Broken?
    ensures r.Failing? ==> SkillsAfter(old(b.log), b.log, old(b.skills), b.skills, old(b.books).insts[i].app, r.skills)
    ensures r.Done? ==> b.log.CommittedSince(old(b.log), TxOf(old(b.skills), old(b.books).insts[i].app))
    ensures g.Some? ==> Planned(old(b.books), old(b.entries), i, g.value.plan)
    ensures r.Failing? && g.Some? ==> Retained(b.books, i, g.value)
    ensures r.Failing? && r.skills.Unstaged? ==> g.None?
    ensures r.Failing? && g.None? ==>
      b.books.refs == old(b.books.refs) && b.books.links == old(b.books.links) && r.skills.Unstaged?
    ensures g.Some? && b.hasDependencies ==> SettledUpTo(b.entries, g.value)
    ensures r.Done? || (r.Failing? && r.skills.GivenUp?) ==> g.Some? && Complete(g.value)
    ensures r.Done? && alsoRequired ==> forall c :: c in g.value.plan.required ==> c !in b.books.insts
    ensures Spared(old(b.books), b.books, i, Along(g, alsoRequired))
    ensures SkillsSpared(old(b.skills), b.skills, AppsOf(old(b.books), [i] + Along(g, alsoRequired)))
    ensures OnlyLosses(old(b.entries), b.entries)
    ensures old(Ready(b)) ==> Ready(b) && (r.Done? || r.NotInstalled?)
    decreases if alsoRequired then 1 else 0, 4
  {
    hide SameFor, Retained, SettledUpTo, Planned, Complete, Orphaned, AppsOf, SkillsSpared, OnlyLosses;
    NoCopiesLost(b.entries);
    SkillsSame(b.skills, AppsOf(b.books, [i] + Along(None, alsoRequired)));
    g := None;
    RemainsSame(b.books);
    var inst := b.Get(i);
    if inst.NoRow? {
      return NotInstalled, g;
    }
    if inst.Unread? {
      return Unreadable, g;
    }
    var plan := MakePlan(b, i);
    if plan.None? {
      var recorded := RecordFailure(b, i);
      return Failing(recorded, Unstaged), g;
    }
    var marked := b.SetStatus(i, Removing, "");
    if !marked {
      return Unmarked, g;
    }
    MarkingSpares(old(b.books), b.books, i);
    MarkingKeepsPlan(old(b.books), b.books, b.entries, i, plan.value);
    ghost var marking := b.books;
    r, g := RemoveStaged(b, i, inst.value.app, plan.value, alsoRequired);
    SparedBefore(old(b.books), marking, b.books, i, Along(g, alsoRequired));
    AppsMarked(old(b.books), marking, i, Along(g, alsoRequired));
  }

  /** What became of the Skills of a failing removal: untouched, rolled back by the
      last rollback with that result, or committed. */
  ghost predicate SkillsAfter(was: Journal, now: Journal, before: map<AppId, nat>, after: map<AppId, nat>, app: AppId,
                              s: Staged)
  {
    match s
    case Unstaged => after == before && now.rollbacks == was.rollbacks && now.commits == was.commits
    case PutBack(restored) =>
      && now.RolledBackSince(was, TxOf(before, app), restored)
      && Published(after, app) == (if restored then Published(before, app) else None)
    case GivenUp => now.CommittedSince(was, TxOf(before, app))
  }

  lemma MarkingSpares(a: Books, b: Books, i: InstId)
    requires i in a.insts && b == a.WithInst(i, a.insts[i].(status := Removing, error := ""))
    ensures Spared(a, b, i, [])
  {
  }

  /** Marking the record as being removed leaves the plan valid. */
  lemma MarkingKeepsPlan(a: Books, b: Books, entries: Entries, i: InstId, p: Plan)
    requires i in a.insts && b == a.WithInst(i, a.insts[i].(status := Removing, error := ""))
    requires Planned(a, entries, i, p)
    ensures Planned(b, entries, i, p)
  {
    assert forall d :: a.Shared(d, i) <==> b.Shared(d, i);
    forall c ensures Orphaned(a, i, c) <==> Orphaned(b, i, c) {
      assert a.Own(c) == b.Own(c);
    }
  }

  lemma SparedBefore(a: Books, b: Books, c: Books, i: InstId, others: seq<InstId>)
    requires Spared(a, b, i, []) && Spared(b, c, i, others)
    ensures Spared(a, c, i, others)
  {
    forall x: InstId | x != i && x !in others ensures SameFor(a, c, x) {
      SameForTransitive(a, b, c, x);
    }
  }

  lemma AppsMarked(a: Books, b: Books, i: InstId, others: seq<InstId>)
    requires i in a.insts && b == a.WithInst(i, a.insts[i].(status := Removing, error := ""))
    ensures {a.insts[i].app} + AppsOf(b, others) == AppsOf(a, [i] + others)
  {
    assert forall c :: c in [i] + others <==> c == i || c in others;
  }

  /** The removal proper, once planned and marked: Skills staged first, given up
      last. */
  method RemoveStaged(b: Bot, i: InstId, app: AppId, p: Plan, alsoRequired: bool)
    returns (r: Outcome, ghost g: Option<Progress>)
    requires b.Valid() && Planned(b.books, b.entries, i, p)
    requires i in b.books.insts && b.books.insts[i].status.Removing? && b.books.insts[i].app == app
    modifies b`books, b`state, b`entries, b`requests, b`connections, b`skills, b`log
    ensures old(b.requests) <= b.requests && old(b.log).GrowsTo(b.log)
    ensures b.Valid() && (r.Done? || r.Failing?)
    ensures r.Done? ==> i !in b.books.insts
    ensures r.Failing? ==> i in b.books.insts && b.books.insts[i].app == app
    ensures r.Failing? ==> b.log.FailedSince(old(b.log), i, r.recorded)
    ensures r.Failing? && r.recorded ==> b.books.insts[i].status.Broken?
    ensures r.Failing? ==> SkillsAfter(old(b.log), b.log, old(b.skills), b.skills, app, r.skills)
    ensures r.Done? ==> b.log.CommittedSince(old(b.log), TxOf(old(b.skills), app))
    ensures g.Some? ==> g.value.plan == p
    ensures r.Failing? && g.Some? ==> Retained(b.books, i, g.value)
    ensures r.Failing? && r.skills.Unstaged? ==> g.None?
    ensures r.Failing? && g.None? ==>
      b.books.refs == old(b.books.refs) && b.books.links == old(b.books.links) && r.skills.Unstaged?
    ensures g.Some? && b.hasDependencies ==> SettledUpTo(b.entries, g.value)
    ensures r.Done? || (r.Failing? && r.skills.GivenUp?) ==> g.Some? && Complete(g.value)
    ensures r.Done? && alsoRequired ==> forall c :: c in p.required ==> c !in b.books.insts
    ensures Spared(old(b.books), b.books, i, Along(g, alsoRequired))
    ensures SkillsSpared(old(b.skills), b.skills, {app} + AppsOf(old(b.books), Along(g, alsoRequired)))
    ensures OnlyLosses(old(b.entries), b.entries)
    ensures old(Ready(b)) ==> Ready(b) && r.Done?
    decreases if alsoRequired then 1 else 0, 3
  {
    hide SameFor, Retained, SettledUpTo, Planned, Complete, Orphaned, AppsOf, SkillsSpared, Spared, OnlyLosses;
    hide Journal.GrowsTo, Journal.FailedSince, Journal.RolledBackSince, Journal.CommittedSince;
    g := None;
    ghost var before, was := b.skills, b.log;
    var tx := b.RemoveSkills(app);
    if tx.None? {
      var recorded := RecordFailure(b, i);
      NothingStaged(was, b.log, i, recorded);
      SkillsSame(b.skills, {app} + AppsOf(old(b.books), Along(g, alsoRequired)));
      NoCopiesLost(b.entries);
      return Failing(recorded, Unstaged), g;
    }
    r, g := Proceed(b, i, app, tx.value, p, alsoRequired);
    Ended(was, b.log, tx.value);
    SkillsUndone(before, b.skills, app, AppsOf(old(b.books), Along(g, alsoRequired)),
                 r.Failing? && r.skills.PutBack? && r.skills.restored);
  }

  /** What remains to be done with the Skills staged. */
  method Proceed(b: Bot, i: InstId, app: AppId, tx: SkillTx, p: Plan, alsoRequired: bool)
    returns (r: Outcome, ghost g: Option<Progress>)
    requires b.Valid() && Planned(b.books, b.entries, i, p) && tx in b.log.open && tx.app == app
    requires i in b.books.insts && b.books.insts[i].status.Removing? && b.books.insts[i].app == app
    modifies b`books, b`state, b`entries, b`requests, b`connections, b`skills, b`log
    ensures old(b.requests) <= b.requests
    ensures old(b.log).(open := old(b.log).open - multiset{tx}).GrowsTo(b.log)
    ensures b.Valid() && (r.Done? || (r.Failing? && !r.skills.Unstaged?))
    ensures r.Done? ==> i !in b.books.insts
    ensures r.Failing? ==> i in b.books.insts && b.books.insts[i].app == app
    ensures r.Failing? ==> b.log.FailedSince(old(b.log), i, r.recorded)
    ensures r.Failing? && r.recorded ==> b.books.insts[i].status.Broken?
    ensures r.Failing? && r.skills.PutBack? ==> b.log.RolledBackSince(old(b.log), tx, r.skills.restored)
    ensures r.Done? || (r.Failing? && r.skills.GivenUp?) ==> b.log.CommittedSince(old(b.log), tx)
    ensures g.Some? && g.value.plan == p
    ensures r.Failing? ==> Retained(b.books, i, g.value)
    ensures b.hasDependencies ==> SettledUpTo(b.entries, g.value)
    ensures r.Done? || (r.Failing? && r.skills.GivenUp?) ==> Complete(g.value)
    ensures r.Done? && alsoRequired ==> forall c :: c in p.required ==> c !in b.books.insts
    ensures Spared(old(b.books), b.books, i, Along(g, alsoRequired))
    ensures app !in AppsOf(old(b.books), Along(g, alsoRequired))
    ensures SkillsSpared(old(b.skills), b.skills, {app} + AppsOf(old(b.books), Along(g, alsoRequired)))
    ensures Published(b.skills, app) ==
      if r.Failing? && r.skills.PutBack? && r.skills.restored then tx.before else Published(old(b.skills), app)
    ensures OnlyLosses(old(b.entries), b.entries)
    ensures old(Ready(b)) ==> Ready(b) && r.Done?
    decreases if alsoRequired then 1 else 0, 2
  {
    hide SameFor, Retained, SettledUpTo, Planned, Complete, Orphaned, AppsOf, SkillsSpared, Spared, OnlyLosses;
    hide Journal.GrowsTo, Journal.FailedSince, Journal.RolledBackSince, Journal.CommittedSince;
    ghost var was, before := b.log, b.skills;
    var ok;
    ghost var h;
    ok, h := Execute(b, i, p, alsoRequired);
    g := Some(h);
    ghost var mid, mids, midLog := b.books, b.skills, b.log;
    StaysOpen(was, midLog, tx);
    NotAmong(old(b.books), Along(g, alsoRequired), app);
    if !ok {
      r := Undo(b, i, tx);
    } else {
      r := GiveUp(b, i, tx);
    }
    if r.Failing? {
      RetainedSame(mid, b.books, i, h);
    }
    LogEnds(was, midLog, b.log, tx, i, r);
    SkillsEnd(before, mids, b.skills, tx, AppsOf(old(b.books), Along(g, alsoRequired)),
              r.Failing? && r.skills.PutBack? && r.skills.restored);
    SparedThen(old(b.books), mid, b.books, i, Along(g, alsoRequired));
  }

  lemma NoCopiesLost(entries: Entries)
    ensures OnlyLosses(entries, entries)
  {
  }

  lemma SkillsSame(skills: map<AppId, nat>, apps: set<AppId>)
    ensures SkillsSpared(skills, skills, apps)
  {
  }

  lemma NothingStaged(a: Journal, z: Journal, i: InstId, recorded: bool)
    requires z == a.AskStatus(i, Broken, recorded)
    ensures a.GrowsTo(z) && z.FailedSince(a, i, recorded)
  {
  }

  lemma StaysOpen(a: Journal, m: Journal, tx: SkillTx)
    requires a.GrowsTo(m) && tx in a.open
    ensures tx in m.open
  {
  }

  lemma LogEnds(a: Journal, m: Journal, z: Journal, tx: SkillTx, i: InstId, r: Outcome)
    requires a.GrowsTo(m) && (r.Done? || (r.Failing? && !r.skills.Unstaged?))
    requires r.Done? ==> z == m.Commit(tx, true)
    requires r.Failing? && r.skills.PutBack? ==> z == m.RollBack(tx, r.skills.restored).AskStatus(i, Broken, r.recorded)
    requires r.Failing? && r.skills.GivenUp? ==>
      || z == m.Commit(tx, true).AskStatus(i, Broken, r.recorded)
      || z == m.Commit(tx, false).AskStatus(i, Broken, r.recorded)
    ensures a.(open := a.open - multiset{tx}).GrowsTo(z)
    ensures r.Failing? ==> z.FailedSince(a, i, r.recorded)
    ensures r.Failing? && r.skills.PutBack? ==> z.RolledBackSince(a, tx, r.skills.restored)
    ensures r.Done? || r.skills.GivenUp? ==> z.CommittedSince(a, tx)
  {
  }

  lemma Ended(a: Journal, z: Journal, tx: SkillTx)
    requires a.Begin(tx).(open := a.Begin(tx).open - multiset{tx}).GrowsTo(z)
    ensures a.GrowsTo(z)
    ensures forall i, f :: z.FailedSince(a.Begin(tx), i, f) ==> z.FailedSince(a, i, f)
    ensures forall f :: z.RolledBackSince(a.Begin(tx), tx, f) ==> z.RolledBackSince(a, tx, f)
    ensures z.CommittedSince(a.Begin(tx), tx) ==> z.CommittedSince(a, tx)
  {
    assert a.Begin(tx).open - multiset{tx} == a.open;
  }

  lemma SkillsEnd(before: map<AppId, nat>, mid: map<AppId, nat>, after: map<AppId, nat>, tx: SkillTx, apps: set<AppId>,
                  restored: bool)
    requires SkillsSpared(before, mid, apps) && tx.app !in apps
    requires after == if restored then Restored(mid, tx) else mid
    ensures SkillsSpared(before, after, {tx.app} + apps)
    ensures Published(after, tx.app) == if restored then tx.before else Published(before, tx.app)
  {
    assert Published(mid, tx.app) == Published(before, tx.app);
    forall a: AppId | a !in {tx.app} + apps ensures Published(before, a) == Published(after, a) {
      assert Published(mid, a) == Published(before, a);
    }
  }

  lemma SkillsUndone(before: map<AppId, nat>, after: map<AppId, nat>, app: AppId, apps: set<AppId>, restored: bool)
    requires SkillsSpared(before - {app}, after, {app} + apps)
    requires Published(after, app) == if restored then Published(before, app) else Published(before - {app}, app)
    ensures SkillsSpared(before, after, {app} + apps)
    ensures Published(after, app) == if restored then Published(before, app) else None
  {
    forall a: AppId | a !in {app} + apps ensures Published(before, a) == Published(after, a) {
      assert Published(after, a) == Published(before - {app}, a);
    }
  }

  lemma RetainedSame(a: Books, b: Books, i: InstId, g: Progress)
    requires Retained(a, i, g) && a.refs == b.refs && a.links == b.links
    ensures Retained(b, i, g)
  {
  }

  lemma SparedThen(a: Books, b: Books, c: Books, i: InstId, others: seq<InstId>)
    requires Spared(a, b, i, others) && Spared(b, c, i, [])
    ensures Spared(a, c, i, others)
  {
    forall x: InstId | x != i && x !in others ensures SameFor(a, c, x) {
      SameForTransitive(a, b, c, x);
    }
  }

  /** The plan, then the Apps it takes along. */
  method Execute(b: Bot, i: InstId, p: Plan, alsoRequired: bool) returns (ok: bool, ghost g: Progress)
    requires b.Valid() && Planned(b.books, b.entries, i, p)
    requires i in b.books.insts && b.books.insts[i].status.Removing?
    modifies b`books, b`state, b`entries, b`requests, b`connections, b`skills, b`log
    ensures old(b.requests) <= b.requests && old(b.log).GrowsTo(b.log)
    ensures b.Valid()
    ensures i in b.books.insts && b.books.insts[i] == old(b.books).insts[i]
    ensures g.plan == p && Retained(b.books, i, g)
    ensures b.hasDependencies ==> SettledUpTo(b.entries, g)
    ensures ok ==> Complete(g)
    ensures ok && alsoRequired ==> forall c :: c in p.required ==> c !in b.books.insts
    ensures Spared(old(b.books), b.books, i, Along(Some(g), alsoRequired))
    ensures SkillsSpared(old(b.skills), b.skills, AppsOf(old(b.books), Along(Some(g), alsoRequired)))
    ensures forall c :: c in p.required && c in old(b.books).insts ==> old(b.books).insts[c].app != old(b.books).insts[i].app
    ensures OnlyLosses(old(b.entries), b.entries)
    ensures old(Ready(b)) ==> Ready(b) && ok
    decreases if alsoRequired then 1 else 0, 1
  {
    hide SameFor, Retained, SettledUpTo, Complete;
    assert forall c :: c in p.required ==> c in b.books.insts && c != i;
    ok, g := CarryOut(b, i, p);
    ghost var mid := b.books;
    ghost var facts := b.entries;
    SparedMore(old(b.books), mid, i, p.required);
    if ok && alsoRequired {
      ok := RemoveRequired(b, p.required);
      OthersAfter(old(b.books), mid, b.books, i, p.required);
      RetainedElsewhere(mid, b.books, i, g);
      if b.hasDependencies { SettledAfter(facts, b.entries, g); }
      LossesTransitive(old(b.entries), facts, b.entries);
    }
  }

  lemma LossesTransitive(a: Entries, b: Entries, c: Entries)
    requires OnlyLosses(a, b) && OnlyLosses(b, c)
    ensures OnlyLosses(a, c)
  {
  }

  lemma SparedMore(a: Books, b: Books, i: InstId, others: seq<InstId>)
    requires Spared(a, b, i, [])
    ensures Spared(a, b, i, others)
  {
  }

  lemma OthersAfter(a: Books, b: Books, c: Books, i: InstId, others: seq<InstId>)
    requires Spared(a, b, i, others) && forall x: InstId :: x !in others ==> SameFor(b, c, x)
    requires i !in others
    ensures Spared(a, c, i, others) && SameFor(b, c, i)
    ensures i in b.insts ==> i in c.insts && c.insts[i] == b.insts[i]
  {
    forall x: InstId | x != i && x !in others ensures SameFor(a, c, x) {
      SameForTransitive(a, b, c, x);
    }
  }

  lemma NotAmong(books: Books, ids: seq<InstId>, app: AppId)
    requires forall c :: c in ids && c in books.insts ==> books.insts[c].app != app
    ensures app !in AppsOf(books, ids)
  {
  }

  /** Puts the Skills back and records the failure, in an order that depends on the
      step that failed. */
  method Undo(b: Bot, i: InstId, tx: SkillTx) returns (r: Outcome)
    requires b.Valid() && i in b.books.insts && tx in b.log.open
    modifies b`books, b`skills, b`log
    ensures b.Valid()
    ensures r.Failing? && r.skills.PutBack?
    ensures b.log == old(b.log).RollBack(tx, r.skills.restored).AskStatus(i, Broken, r.recorded)
    ensures b.skills == if r.skills.restored then Restored(old(b.skills), tx) else old(b.skills)
    ensures Spared(old(b.books), b.books, i, [])
    ensures b.books.refs == old(b.books.refs) && b.books.links == old(b.books.links)
    ensures i in b.books.insts && b.books.insts[i].app == old(b.books).insts[i].app
    ensures r.recorded ==> b.books.insts[i].status.Broken?
  {
    var restored, recorded;
    var rollBackFirst: bool := *;
    if rollBackFirst {
      restored := b.Rollback(tx);
      recorded := RecordFailure(b, i);
    } else {
      recorded := RecordFailure(b, i);
      restored := b.Rollback(tx);
    }
    r := Failing(recorded, PutBack(restored));
  }

  /** Gives the Skills up and deletes the record; once a commit was tried nothing is
      rolled back any more. */
  method GiveUp(b: Bot, i: InstId, tx: SkillTx) returns (r: Outcome)
    requires b.Valid() && i in b.books.insts && tx in b.log.open
    modifies b`books, b`log
    ensures b.Valid()
    ensures r == Done || (r.Failing? && r.skills.GivenUp?)
    ensures r.Done? ==> b.log == old(b.log).Commit(tx, true)
    ensures r.Failing? ==>
      || b.log == old(b.log).Commit(tx, true).AskStatus(i, Broken, r.recorded)
      || b.log == old(b.log).Commit(tx, false).AskStatus(i, Broken, r.recorded)
    ensures r.Done? ==> i !in b.books.insts && forall x :: x in old(b.books).insts && x != i ==> x in b.books.insts
    ensures b.books.insts.Keys <= old(b.books).insts.Keys
    ensures Spared(old(b.books), b.books, i, [])
    ensures r.Failing? ==>
      && b.books.refs == old(b.books.refs) && b.books.links == old(b.books.links)
      && i in b.books.insts && b.books.insts[i].app == old(b.books).insts[i].app
      && (r.recorded ==> b.books.insts[i].status.Broken?)
    ensures b.healthy ==> r.Done?
  {
    var ok := b.Commit(tx);
    if ok {
      ok := b.Delete(i);
    }
    if !ok {
      var recorded := RecordFailure(b, i);
      return Failing(recorded, GivenUp);
    }
    r := Done;
  }
}
