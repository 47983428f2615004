/** The Apps of one bot: installation records, the dependencies and connections they
    share by reference, and the collaborators that hold the real things. */
module AppRecords {
  import opened Options
  import opened InstallOrder
  import opened Sets

  type InstId = nat
  type AppId = nat
  type ConnType = nat
  type ConnId = nat
  type Code = string

  /** `Installing` stands for both transient states on the way to a release. */
  datatype Status = Installing | Updating | Installed | Partial | Removing | Broken

  datatype Reason = ByUser | ByRequirement

  datatype Installation = Installation(app: AppId, revision: nat, status: Status, reason: Reason, error: Code)

  /** Installation `inst` uses dependency `dep`. */
  datatype Ref = Ref(inst: InstId, dep: DepId)

  datatype Key = Key(inst: InstId, kind: ConnType)

  datatype Link = Link(connection: Option<ConnId>, required: bool)

  /** The rows of the store. */
  datatype Books = Books(insts: map<InstId, Installation>, refs: set<Ref>, links: map<Key, Link>)
  {
    /** Every reference belongs to a record, no App has two records, and an
        installed App has its required connectors linked. */
    ghost predicate Valid() {
      && (forall r :: r in refs ==> r.inst in insts)
      && (forall k :: k in links ==> k.inst in insts)
      && (forall k :: k in links && links[k].required && insts[k.inst].status.Installed? ==> links[k].connection.Some?)
      && (forall i, j :: i in insts && j in insts && insts[i].app == insts[j].app ==> i == j)
    }

    function Own(i: InstId): (o: set<DepId>)
      ensures forall d :: d in o <==> Ref(i, d) in refs
    {
      set r | r in refs && r.inst == i :: r.dep
    }

    function Kinds(i: InstId): (o: set<ConnType>)
      ensures forall k :: k in o <==> Key(i, k) in links
    {
      set k | k in links && k.inst == i :: k.kind
    }

    /** Somebody other than `i` references the dependency. */
    predicate Shared(d: DepId, i: InstId) {
      exists r :: r in refs && r.dep == d && r.inst != i
    }

    predicate LinkedElsewhere(c: ConnId, i: InstId) {
      exists k :: k in links && k.inst != i && links[k].connection == Some(c)
    }

    function WithInst(i: InstId, x: Installation): Books {
      this.(insts := insts[i := x])
    }

    function WithoutRef(i: InstId, d: DepId): Books {
      this.(refs := refs - {Ref(i, d)})
    }

    function WithRef(i: InstId, d: DepId): Books {
      this.(refs := refs + {Ref(i, d)})
    }

    function WithoutLink(i: InstId, k: ConnType): Books {
      this.(links := links - {Key(i, k)})
    }

    /** A new link keeps the connection it had when none is given. */
    function WithLink(i: InstId, k: ConnType, c: Option<ConnId>, required: bool): Books {
      var kept := if c.None? && Key(i, k) in links then links[Key(i, k)].connection else c;
      this.(links := links[Key(i, k) := Link(kept, required)])
    }

    /** Deleting the record takes its references along. */
    function Without(i: InstId): Books {
      Books(insts - {i}, set r | r in refs && r.inst != i, map k | k in links && k.inst != i :: links[k])
    }

    predicate Unlinks(k: Key, c: ConnId) {
      k in links && links[k].connection == Some(c)
    }

    /** Disconnecting clears the connection everywhere, and an installed App that
        required it becomes partial. */
    function Disconnected(c: ConnId): Books {
      Books(map i | i in insts ::
              if insts[i].status.Installed? && exists k :: k in links && k.inst == i && Unlinks(k, c) && links[k].required
              then insts[i].(status := Partial) else insts[i],
            refs,
            map k | k in links :: if Unlinks(k, c) then links[k].(connection := None) else links[k])
    }
  }

  /** Closing a connection keeps the books valid: what required it is demoted. */
  lemma DisconnectKeepsValid(books: Books, c: ConnId)
    requires books.Valid()
    ensures books.Disconnected(c).Valid()
  {
    var after := books.Disconnected(c);
    forall k | k in after.links && after.links[k].required && after.insts[k.inst].status.Installed?
      ensures after.links[k].connection.Some?
    {
      assert books.insts[k.inst].status.Installed?;
      assert k in books.links && books.links[k].required;
    }
  }

  /** Deleting a record leaves no reference of it behind, keeps the books valid and
      every other App as it is; what stays shared is what two others share, and what
      nobody but the deleted App used is now nobody's. */
  lemma DeletionTakesReferences(books: Books, i: InstId)
    requires books.Valid()
    ensures var after := books.Without(i);
      && after.Valid() && i !in after.insts && after.Own(i) == {} && after.Kinds(i) == {}
      && (forall x: InstId :: x != i ==> SameFor(books, after, x))
      && (forall d, x: InstId :: x != i ==> (after.Shared(d, x) <==> exists y :: Ref(y, d) in books.refs && y != x && y != i))
      && (forall d :: !books.Shared(d, i) ==> forall r :: r in after.refs ==> r.dep != d)
      && (forall c: ConnId :: !books.LinkedElsewhere(c, i) ==> forall k :: k in after.links ==> after.links[k].connection != Some(c))
  {
    var after := books.Without(i);
    forall d, x: InstId | x != i
      ensures after.Shared(d, x) <==> exists y :: Ref(y, d) in books.refs && y != x && y != i
    {
      if y :| Ref(y, d) in books.refs && y != x && y != i {
        assert Ref(y, d) in after.refs;
      }
    }
    forall c: ConnId, k | !books.LinkedElsewhere(c, i) && k in after.links ensures after.links[k].connection != Some(c) {
      assert k in books.links && k.inst != i;
    }
  }

  /** Nothing about installation `i` differs. */
  ghost predicate SameFor(a: Books, b: Books, i: InstId) {
    && (i in a.insts <==> i in b.insts) && (i in a.insts ==> a.insts[i] == b.insts[i])
    && (forall d :: Ref(i, d) in a.refs <==> Ref(i, d) in b.refs)
    && (forall k :: Key(i, k) in a.links <==> Key(i, k) in b.links)
    && (forall k :: Key(i, k) in a.links ==> a.links[Key(i, k)] == b.links[Key(i, k)])
  }

  lemma SameForTransitive(a: Books, b: Books, c: Books, i: InstId)
    requires SameFor(a, b, i) && SameFor(b, c, i)
    ensures SameFor(a, c, i)
  {
  }

  // ---------------------------------------------------------------------------
  // The workspace

  /** What discovery knows of a dependency the catalog lists. */
  datatype Entry = Entry(present: bool, managed: bool, usable: bool, busy: bool, needs: seq<DepId>)

  type Entries = map<DepId, Entry>

  datatype RunState = Up | Down | NoWorkspace

  datatype Overview = Overview(state: RunState, discoveryFailed: bool, entries: Entries)

  /** A copy installed by the catalog's scripts that needs `d`. */
  predicate NeededBy(entries: Entries, d: DepId, e: DepId) {
    e in entries && e != d && entries[e].present && entries[e].managed && d in entries[e].needs
  }

  predicate IsNeeded(entries: Entries, d: DepId) {
    exists e :: e in entries && NeededBy(entries, d, e)
  }

  function Needs(entries: Entries): Catalog {
    map d | d in entries :: entries[d].needs
  }

  /** A request to remove `dep`, with the state in which it was made. */
  datatype Request = Request(dep: DepId, asker: InstId, books: Books, entries: Entries)

  /** The request names a copy that the scripts installed, that no other App
      references and that no other dependency needs. */
  ghost predicate Justified(q: Request) {
    && q.dep in q.entries && q.entries[q.dep].present && q.entries[q.dep].managed
    && !q.books.Shared(q.dep, q.asker)
    && !IsNeeded(q.entries, q.dep)
  }

  /** No copy got lost. */
  predicate OnlyGains(a: Entries, b: Entries) {
    && a.Keys == b.Keys
    && forall e :: e in a ==> a[e].needs == b[e].needs && a[e].busy == b[e].busy && (a[e].present ==> b[e].present)
  }

  /** Nothing changed but that the copy of `d` is gone. */
  predicate IsLost(a: Entries, b: Entries, d: DepId) {
    d in a && b == a[d := a[d].(present := false)]
  }

  datatype Read<+T> = Found(value: T) | NoRow | Unread

  /** A staged change of one App's Skills. */
  datatype SkillTx = SkillTx(app: AppId, before: Option<nat>)

  function Published(skills: map<AppId, nat>, app: AppId): Option<nat> {
    if app in skills then Some(skills[app]) else None
  }

  function Restored(skills: map<AppId, nat>, tx: SkillTx): map<AppId, nat> {
    if tx.before.Some? then skills[tx.app := tx.before.value] else skills - {tx.app}
  }

  // What was asked of the collaborators, and what they answered.

  datatype StatusAsk = StatusAsk(inst: InstId, status: Status, ok: bool)

  datatype InstallAsk = InstallAsk(dep: DepId, answer: Option<Code>)

  /** A rollback or commit of a staged change. */
  datatype TxEnd = TxEnd(tx: SkillTx, ok: bool)

  datatype Journal = Journal(
    statuses: seq<StatusAsk>,
    installs: seq<InstallAsk>,
    open: multiset<SkillTx>,     // changes staged and neither rolled back nor committed
    rollbacks: seq<TxEnd>,
    commits: seq<TxEnd>)
  {
    function AskStatus(i: InstId, status: Status, ok: bool): Journal {
      this.(statuses := statuses + [StatusAsk(i, status, ok)])
    }

    function AskInstall(d: DepId, answer: Option<Code>): Journal {
      this.(installs := installs + [InstallAsk(d, answer)])
    }

    function Begin(tx: SkillTx): Journal {
      this.(open := open + multiset{tx})
    }

    function RollBack(tx: SkillTx, ok: bool): Journal {
      this.(open := open - multiset{tx}, rollbacks := rollbacks + [TxEnd(tx, ok)])
    }

    function Commit(tx: SkillTx, ok: bool): Journal {
      this.(open := open - multiset{tx}, commits := commits + [TxEnd(tx, ok)])
    }

    /** Entries were added, and every change staged meanwhile was ended. */
    predicate GrowsTo(later: Journal) {
      && statuses <= later.statuses && installs <= later.installs
      && rollbacks <= later.rollbacks && commits <= later.commits && open == later.open
    }

    /** The last status asked for since `before` is that `i` failed. */
    predicate FailedSince(before: Journal, i: InstId, recorded: bool) {
      && |before.statuses| < |statuses|
      && statuses[|statuses| - 1] == StatusAsk(i, Broken, recorded)
    }

    /** The last rollback since `before` is the one of `tx`. */
    predicate RolledBackSince(before: Journal, tx: SkillTx, ok: bool) {
      && |before.rollbacks| < |rollbacks|
      && rollbacks[|rollbacks| - 1] == TxEnd(tx, ok)
    }

    predicate CommittedSince(before: Journal, tx: SkillTx) {
      |before.commits| < |commits| && commits[|commits| - 1].tx == tx
    }
  }

  /** One bot as the Apps service sees it.  Every call may fail and then changes
      nothing, unless its contract says otherwise; while `healthy` none does. */
  class Bot {
    const hasDependencies: bool
    const hasConnectors: bool
    var healthy: bool
    var books: Books
    var state: RunState
    var entries: Entries
    var connections: map<ConnId, ConnType>   // the bot's Connect-It connections
    var active: set<ConnId>                  // those that are authorized
    var skills: map<AppId, nat>              // the published revision of each App
    ghost var requests: seq<Request>         // every removal asked of the workspace
    ghost var log: Journal                   // the other calls whose answers matter

    constructor (hasDependencies: bool, hasConnectors: bool)
      ensures Valid()
    {
      this.hasDependencies, this.hasConnectors := hasDependencies, hasConnectors;
      healthy, state := true, Down;
      books, entries, connections, active, skills := Books(map[], {}, map[]), map[], map[], {}, map[];
      requests, log := [], Journal([], [], multiset{}, [], []);
    }

    ghost predicate Valid()
      reads this
    {
      books.Valid() && forall k :: 0 <= k < |requests| ==> Justified(requests[k])
    }

    method Works() returns (ok: bool)
      ensures healthy ==> ok
    {
      var lucky: bool := *;
      ok := healthy || lucky;
    }

    // The store

    method Get(i: InstId) returns (r: Read<Installation>)
      ensures r.Found? ==> i in books.insts && r.value == books.insts[i]
      ensures r.NoRow? ==> i !in books.insts
      ensures healthy ==> !r.Unread?
    {
      var ok := Works();
      r := if !ok then Unread else if i in books.insts then Found(books.insts[i]) else NoRow;
    }

    method ListRefs(i: InstId) returns (r: Option<seq<DepId>>)
      ensures r.Some? ==> NoDuplicates(r.value) && forall d :: d in r.value <==> Ref(i, d) in books.refs
      ensures healthy ==> r.Some?
    {
      var ok := Works();
      if !ok {
        return None;
      }
      var left := books.Own(i);
      var list: seq<DepId> := [];
      while left != {}
        invariant NoDuplicates(list)
        invariant forall d :: d in books.Own(i) <==> d in list || d in left
        invariant forall d :: d in list ==> d !in left
        decreases left
      {
        var d :| d in left;
        list := list + [d];
        left := left - {d};
      }
      r := Some(list);
    }

    method ListLinks(i: InstId) returns (r: Option<seq<ConnType>>)
      ensures r.Some? ==> NoDuplicates(r.value) && forall k :: k in r.value <==> Key(i, k) in books.links
      ensures healthy ==> r.Some?
    {
      var ok := Works();
      if !ok {
        return None;
      }
      var left := books.Kinds(i);
      var list: seq<ConnType> := [];
      while left != {}
        invariant NoDuplicates(list)
        invariant forall k :: k in books.Kinds(i) <==> k in list || k in left
        invariant forall k :: k in list ==> k !in left
        decreases left
      {
        var k :| k in left;
        list := list + [k];
        left := left - {k};
      }
      r := Some(list);
    }

    method ListInstallations() returns (r: Option<seq<InstId>>)
      ensures r.Some? ==> NoDuplicates(r.value) && forall i :: i in r.value <==> i in books.insts
      ensures healthy ==> r.Some?
    {
      var ok := Works();
      if !ok {
        return None;
      }
      var left := books.insts.Keys;
      var list: seq<InstId> := [];
      while left != {}
        invariant NoDuplicates(list)
        invariant forall i :: i in books.insts <==> i in list || i in left
        invariant forall i :: i in list ==> i !in left
        decreases left
      {
        var i :| i in left;
        list := list + [i];
        left := left - {i};
      }
      r := Some(list);
    }

    method SetStatus(i: InstId, status: Status, error: Code) returns (ok: bool)
      modifies `books, `log
      ensures log == old(log).AskStatus(i, status, ok)
      ensures books == if ok && i in old(books).insts
                       then old(books).WithInst(i, old(books).insts[i].(status := status, error := error)) else old(books)
      ensures healthy ==> ok || i !in old(books).insts
      ensures ok ==> i in old(books).insts
    {
      ok := Works();
      ok := ok && i in books.insts;
      if ok {
        books := books.WithInst(i, books.insts[i].(status := status, error := error));
      }
      log := log.AskStatus(i, status, ok);
    }

    method Find(app: AppId) returns (r: Read<InstId>)
      ensures r.Found? ==> r.value in books.insts && books.insts[r.value].app == app
      ensures r.NoRow? ==> forall i :: i in books.insts ==> books.insts[i].app != app
      ensures healthy ==> !r.Unread?
    {
      var ok := Works();
      if !ok {
        return Unread;
      }
      if i :| i in books.insts && books.insts[i].app == app {
        return Found(i);
      }
      r := NoRow;
    }

    /** Creates the App's record or replaces what it installs; an App the user asked
        for stays so. */
    method Upsert(app: AppId, revision: nat, status: Status, reason: Reason) returns (r: Option<InstId>)
      requires books.Valid()
      modifies `books
      ensures r.None? ==> books == old(books)
      ensures healthy ==> r.Some?
      ensures r.Some? ==>
        var i := r.value;
        && (i in old(books).insts ==> old(books).insts[i].app == app)
        && (i !in old(books).insts ==> forall j :: j in old(books).insts ==> old(books).insts[j].app != app)
        && books == old(books).WithInst(i, Installation(app, revision, status,
             if i in old(books).insts && reason.ByRequirement? then old(books).insts[i].reason else reason, ""))
    {
      var ok := Works();
      if !ok {
        return None;
      }
      if i :| i in books.insts && books.insts[i].app == app {
        var kept := if reason.ByRequirement? then books.insts[i].reason else reason;
        books := books.WithInst(i, Installation(app, revision, status, kept, ""));
        return Some(i);
      }
      ghost var unused := UpperBound(books.insts.Keys);
      assert unused !in books.insts;
      var i: InstId :| i !in books.insts;
      books := books.WithInst(i, Installation(app, revision, status, reason, ""));
      r := Some(i);
    }

    method SetRelease(i: InstId, revision: nat) returns (ok: bool)
      modifies `books
      ensures books == if ok && i in old(books).insts
                       then old(books).WithInst(i, old(books).insts[i].(revision := revision)) else old(books)
      ensures ok ==> i in old(books).insts
      ensures healthy && i in old(books).insts ==> ok
    {
      ok := Works();
      ok := ok && i in books.insts;
      if ok {
        books := books.WithInst(i, books.insts[i].(revision := revision));
      }
    }

    method Delete(i: InstId) returns (ok: bool)
      modifies `books
      ensures books == if ok then old(books).Without(i) else old(books)
      ensures healthy && i in old(books).insts ==> ok
    {
      ok := Works();
      ok := ok && i in books.insts;
      if ok {
        books := books.Without(i);
      }
    }

    method AddRef(i: InstId, d: DepId) returns (ok: bool)
      modifies `books
      ensures books == if ok then old(books).WithRef(i, d) else old(books)
      ensures ok ==> i in old(books).insts
      ensures healthy && i in old(books).insts ==> ok
    {
      ok := Works();
      ok := ok && i in books.insts;
      if ok {
        books := books.WithRef(i, d);
      }
    }

    method RemoveRef(i: InstId, d: DepId) returns (ok: bool)
      modifies `books
      ensures books == if ok then old(books).WithoutRef(i, d) else old(books)
      ensures healthy ==> ok
    {
      ok := Works();
      if ok {
        books := books.WithoutRef(i, d);
      }
    }

    method PutLink(i: InstId, k: ConnType, c: Option<ConnId>, required: bool) returns (ok: bool)
      modifies `books
      ensures books == if ok then old(books).WithLink(i, k, c, required) else old(books)
      ensures ok ==> i in old(books).insts
      ensures healthy && i in old(books).insts ==> ok
    {
      ok := Works();
      ok := ok && i in books.insts;
      if ok {
        books := books.WithLink(i, k, c, required);
      }
    }

    method RemoveLink(i: InstId, k: ConnType) returns (ok: bool)
      modifies `books
      ensures books == if ok then old(books).WithoutLink(i, k) else old(books)
      ensures healthy ==> ok
    {
      ok := Works();
      if ok {
        books := books.WithoutLink(i, k);
      }
    }

    // The dependency manager

    /** What is known without starting the workspace: the facts, if it runs and
        could be searched. */
    method ListDependencies() returns (r: Option<Overview>)
      ensures r.Some? ==> r.value.state == state && Needs(r.value.entries) == Needs(entries)
      ensures r.Some? && state.Up? && !r.value.discoveryFailed ==> r.value.entries == entries
      ensures healthy ==> r.Some? && !r.value.discoveryFailed
    {
      var ok := Works();
      if !ok {
        return None;
      }
      var searched := Works();
      var seen: set<DepId>, fit: set<DepId>, held: set<DepId> := *, *, *;
      var guess := map d | d in entries :: entries[d].(present := d in seen, usable := d in fit, busy := d in held);
      r := Some(Overview(state, !searched, if state.Up? && searched then entries else guess));
    }

    method EnsureRunning() returns (ok: bool)
      modifies `state
      ensures ok ==> state.Up?
      ensures !ok ==> state == old(state)
      ensures healthy && !old(state).NoWorkspace? ==> ok
    {
      ok := Works();
      ok := ok && !state.NoWorkspace?;
      if ok {
        state := Up;
      }
    }

    method HasDependents(d: DepId) returns (r: Option<bool>)
      ensures r.Some? ==> r.value == IsNeeded(entries, d)
      ensures healthy ==> r.Some?
    {
      var ok := Works();
      r := if ok then Some(IsNeeded(entries, d)) else None;
    }

    /** Removes a copy that nothing needs.  A removal that fails half way may have
        lost the copy all the same. */
    method RemoveDependency(d: DepId, ghost asker: InstId) returns (ok: bool)
      modifies `entries, `requests
      ensures requests == old(requests) + [Request(d, asker, books, old(entries))]
      ensures ok ==> IsLost(old(entries), entries, d)
      ensures !ok ==> entries == old(entries) || IsLost(old(entries), entries, d)
      ensures healthy && d in old(entries) && !IsNeeded(old(entries), d) ==> ok
    {
      requests := requests + [Request(d, asker, books, entries)];
      ok := false;
      if d in entries && !IsNeeded(entries, d) {
        ok := Works();
        var lost: bool := *;
        if ok || lost {
          entries := entries[d := entries[d].(present := false)];
        }
      }
    }

    /** Installs a copy, and on the way whatever it lacks of its requirements. */
    method InstallDependency(d: DepId) returns (r: Option<Code>)
      modifies `entries, `log
      ensures log == old(log).AskInstall(d, r)
      ensures OnlyGains(old(entries), entries)
      ensures r.None? ==> d in entries && entries[d].present && entries[d].usable
      ensures r.Some? ==> r.value != ""
      ensures healthy && d in old(entries) ==> r.None?
    {
      var code: Code := *;
      r := Some(if code == "" then "app.operation_failed" else code);
      var ok := Works();
      if ok && d in entries {
        var more: set<DepId> := *;
        entries := map e | e in entries ::
          if e == d || (e in more && !entries[e].present) then entries[e].(present := true, usable := true)
          else entries[e];
        r := None;
      }
      log := log.AskInstall(d, r);
    }

    // Connections

    /** A new connection of the bot; one that still has to be authorized is not
        active yet. */
    method CreateConnection(kind: ConnType) returns (r: Option<ConnId>)
      modifies `connections, `active
      ensures r.None? ==> connections == old(connections) && active == old(active)
      ensures r.Some? ==>
        && r.value !in old(connections) && connections == old(connections)[r.value := kind]
        && (active == old(active) || active == old(active) + {r.value})
      ensures healthy ==> r.Some?
    {
      var ok := Works();
      if !ok {
        return None;
      }
      ghost var unused := UpperBound(connections.Keys);
      assert unused !in connections;
      var c: ConnId :| c !in connections;
      connections := connections[c := kind];
      var authorized: bool := *;
      if authorized {
        active := active + {c};
      }
      r := Some(c);
    }

    method Disconnect(c: ConnId) returns (ok: bool)
      modifies `connections, `books
      ensures ok ==> connections == old(connections) - {c}
      ensures books == if ok && c in old(connections) then old(books).Disconnected(c) else old(books)
      ensures !ok ==> connections == old(connections)
      ensures healthy ==> ok
    {
      ok := Works();
      if ok && c in connections {
        books := books.Disconnected(c);
        connections := connections - {c};
      }
    }

    /** An active connection of each type; none when they cannot be listed. */
    method ActiveConnections() returns (r: map<ConnType, ConnId>)
      ensures forall k :: k in r ==> r[k] in connections && r[k] in active && connections[r[k]] == k
      ensures r == map[] || forall c :: c in connections && c in active ==> connections[c] in r
      ensures healthy && hasConnectors ==> forall c :: c in connections && c in active ==> connections[c] in r
    {
      r := map[];
      var ok := Works();
      if !ok || !hasConnectors {
        return;
      }
      var left := connections.Keys;
      while left != {}
        invariant left <= connections.Keys
        invariant forall k :: k in r ==> r[k] in connections && r[k] in active && connections[r[k]] == k
        invariant forall c :: c in connections && c in active && c !in left ==> connections[c] in r
        decreases left
      {
        var c :| c in left;
        left := left - {c};
        if c in active && connections[c] !in r {
          r := r[connections[c] := c];
        }
      }
    }

    // Skills

    method RemoveSkills(app: AppId) returns (tx: Option<SkillTx>)
      modifies `skills, `log
      ensures tx.None? ==> skills == old(skills) && log == old(log)
      ensures tx.Some? ==> log == old(log).Begin(tx.value)
      ensures tx.Some? ==> skills == old(skills) - {app} && tx.value == SkillTx(app, Published(old(skills), app))
      ensures healthy ==> tx.Some?
    {
      var ok := Works();
      if !ok {
        return None;
      }
      tx := Some(SkillTx(app, Published(skills, app)));
      skills := skills - {app};
      log := log.Begin(tx.value);
    }

    method PublishSkills(app: AppId, revision: nat) returns (tx: Option<SkillTx>)
      modifies `skills, `log
      ensures tx.None? ==> skills == old(skills) && log == old(log)
      ensures tx.Some? ==> log == old(log).Begin(tx.value)
      ensures tx.Some? ==> skills == old(skills)[app := revision] && tx.value == SkillTx(app, Published(old(skills), app))
      ensures healthy ==> tx.Some?
    {
      var ok := Works();
      if !ok {
        return None;
      }
      tx := Some(SkillTx(app, Published(skills, app)));
      skills := skills[app := revision];
      log := log.Begin(tx.value);
    }

    method Rollback(tx: SkillTx) returns (ok: bool)
      requires tx in log.open
      modifies `skills, `log
      ensures skills == if ok then Restored(old(skills), tx) else old(skills)
      ensures log == old(log).RollBack(tx, ok)
      ensures healthy ==> ok
    {
      ok := Works();
      if ok {
        skills := Restored(skills, tx);
      }
      log := log.RollBack(tx, ok);
    }

    /** Committing only drops what was kept for a rollback. */
    method Commit(tx: SkillTx) returns (ok: bool)
      requires tx in log.open
      modifies `log
      ensures log == old(log).Commit(tx, ok)
      ensures healthy ==> ok
    {
      ok := Works();
      log := log.Commit(tx, ok);
    }
  }
}
