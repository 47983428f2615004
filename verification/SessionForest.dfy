/** Restoring the sessions of an archive: leaving out retired automation history and
    rebuilding the forest of parents and children under new ids. */
module SessionForest {
  import opened Options
  import opened Sets

  type SessionId = nat
  type NewId = nat

  datatype Session = Session(id: SessionId, parent: Option<SessionId>, automation: bool)

  function Ids(sessions: seq<Session>): set<SessionId> {
    set s | s in sessions :: s.id
  }

  // ---------------------------------------------------------------------------
  // Sets closed under children

  /** `x` holds `base` and every session whose parent it holds. */
  ghost predicate Closed(sessions: seq<Session>, base: set<SessionId>, x: set<SessionId>) {
    && base <= x
    && forall s :: s in sessions && s.parent.Some? && s.parent.value in x ==> s.id in x
  }

  ghost predicate Least(sessions: seq<Session>, base: set<SessionId>, x: set<SessionId>) {
    Closed(sessions, base, x) && forall y :: Closed(sessions, base, y) ==> x <= y
  }

  predicate ParentOf(sessions: seq<Session>, p: SessionId, c: SessionId) {
    exists s :: s in sessions && s.id == c && s.parent == Some(p)
  }

  /** A line of descent from a member of `base`. */
  ghost predicate Descent(sessions: seq<Session>, base: set<SessionId>, p: seq<SessionId>) {
    && p != [] && p[0] in base
    && forall j :: 0 <= j < |p| - 1 ==> ParentOf(sessions, p[j], p[j + 1])
  }

  ghost predicate DescendsFrom(sessions: seq<Session>, base: set<SessionId>, c: SessionId) {
    exists p :: Descent(sessions, base, p) && p[|p| - 1] == c
  }

  lemma {:induction false} DescentStaysInside(sessions: seq<Session>, base: set<SessionId>, x: set<SessionId>, p: seq<SessionId>)
    requires Closed(sessions, base, x) && Descent(sessions, base, p)
    ensures p[|p| - 1] in x
  {
    if |p| > 1 {
      var q := p[..|p| - 1];
      assert Descent(sessions, base, q) by {
        assert forall j :: 0 <= j < |q| - 1 ==> ParentOf(sessions, p[j], p[j + 1]);
      }
      DescentStaysInside(sessions, base, x, q);
      assert ParentOf(sessions, p[|p| - 2], p[|p| - 1]);
    }
  }

  lemma DescentExtends(sessions: seq<Session>, base: set<SessionId>, s: Session)
    requires s in sessions && s.parent.Some? && DescendsFrom(sessions, base, s.parent.value)
    ensures DescendsFrom(sessions, base, s.id)
  {
    var p :| Descent(sessions, base, p) && p[|p| - 1] == s.parent.value;
    var q := p + [s.id];
    forall j | 0 <= j < |q| - 1 ensures ParentOf(sessions, q[j], q[j + 1]) {
      if j < |p| - 1 {
        assert ParentOf(sessions, p[j], p[j + 1]);
      } else {
        assert s.parent == Some(q[j]) && s.id == q[j + 1];
      }
    }
    assert Descent(sessions, base, q);
  }

  /** The least closed set holds exactly what descends from `base`. */
  lemma LeastIsDescent(sessions: seq<Session>, base: set<SessionId>, x: set<SessionId>, c: SessionId)
    requires Least(sessions, base, x)
    ensures c in x <==> DescendsFrom(sessions, base, c)
  {
    if DescendsFrom(sessions, base, c) {
      var p :| Descent(sessions, base, p) && p[|p| - 1] == c;
      DescentStaysInside(sessions, base, x, p);
    }
    if c in x {
      var y := set d | d in base + Ids(sessions) && DescendsFrom(sessions, base, d);
      assert Closed(sessions, base, y) by {
        forall b | b in base ensures b in y {
          assert Descent(sessions, base, [b]);
        }
        forall s | s in sessions && s.parent.Some? && s.parent.value in y ensures s.id in y {
          DescentExtends(sessions, base, s);
        }
      }
    }
  }

  // ---------------------------------------------------------------------------
  // Retired sessions

  function Automation(sessions: seq<Session>): set<SessionId> {
    set s | s in sessions && s.automation :: s.id
  }

  /** Repeats until nothing changes.  Each round that changes something adds an id of
      the archive, so the rounds end. */
  method RetiredSessions(sessions: seq<Session>) returns (retired: set<SessionId>)
    ensures Least(sessions, Automation(sessions), retired)
  {
    retired := {};
    for k := 0 to |sessions|
      invariant retired == Automation(sessions[..k])
    {
      assert sessions[..k + 1] == sessions[..k] + [sessions[k]];
      if sessions[k].automation {
        retired := retired + {sessions[k].id};
      }
    }
    assert sessions[..|sessions|] == sessions;
    var changed := true;
    while changed
      invariant Automation(sessions) <= retired <= Ids(sessions)
      invariant forall y :: Closed(sessions, Automation(sessions), y) ==> retired <= y
      invariant !changed ==> Closed(sessions, Automation(sessions), retired)
      decreases |Ids(sessions) - retired|, if changed then 1 else 0
    {
      ghost var before := retired;
      changed, retired := RetireChildren(sessions, retired);
      if changed {
        ProperSubsetIsSmaller(Ids(sessions) - retired, Ids(sessions) - before);
      }
    }
  }

  /** One round over the archive. */
  method RetireChildren(sessions: seq<Session>, before: set<SessionId>) returns (changed: bool, retired: set<SessionId>)
    requires before <= Ids(sessions)
    ensures before <= retired <= Ids(sessions)
    ensures changed <==> before != retired
    ensures forall base, y :: Closed(sessions, base, y) && before <= y ==> retired <= y
    ensures !changed ==> forall s :: s in sessions && s.parent.Some? && s.parent.value in retired ==> s.id in retired
  {
    changed, retired := false, before;
    for k := 0 to |sessions|
      invariant before <= retired <= Ids(sessions)
      invariant changed <==> before != retired
      invariant forall base, y :: Closed(sessions, base, y) && before <= y ==> retired <= y
      invariant !changed ==> forall j :: 0 <= j < k && sessions[j].parent.Some? && sessions[j].parent.value in before ==>
        sessions[j].id in before
    {
      var s := sessions[k];
      assert s in sessions;
      if s.parent.Some? && s.parent.value in retired && s.id !in retired {
        retired := retired + {s.id};
        changed := true;
      }
    }
  }

  // ---------------------------------------------------------------------------
  // Recreating the rest

  datatype Created = Created(session: Session, parent: Option<NewId>, id: NewId)

  function SessionsOf(created: seq<Created>): seq<Session> {
    seq(|created|, k requires 0 <= k < |created| => created[k].session)
  }

  function Roots(sessions: seq<Session>): set<SessionId> {
    set s | s in sessions && s.parent.None? :: s.id
  }

  /** The session created at `k` hangs under one created earlier for its parent. */
  predicate Hangs(created: seq<Created>, k: nat)
    requires k < |created|
  {
    && created[k].session.parent.Some?
    && exists j :: 0 <= j < k && created[j].session.id == created[k].session.parent.value
                 && created[k].parent == Some(created[j].id)
  }

  /** A session without a parent is a root; one whose parent is grounded hangs under
      it; any other becomes a root. */
  predicate WellHung(created: seq<Created>, grounded: set<SessionId>, k: nat)
    requires k < |created|
  {
    var s := created[k].session;
    if s.parent.Some? && s.parent.value in grounded then Hangs(created, k) else created[k].parent.None?
  }

  predicate Numbered(created: seq<Created>, next: NewId) {
    && (forall k :: 0 <= k < |created| ==> created[k].id < next)
    && (forall j, k :: 0 <= j < k < |created| ==> created[j].id != created[k].id)
  }

  predicate Listed(created: seq<Created>, ids: map<SessionId, NewId>) {
    forall k :: 0 <= k < |created| ==> created[k].session.id in ids
  }

  predicate CreatedAs(created: seq<Created>, d: SessionId, id: NewId) {
    exists k :: 0 <= k < |created| && created[k].session.id == d && created[k].id == id
  }

  predicate Mapped(created: seq<Created>, ids: map<SessionId, NewId>) {
    forall d :: d in ids ==> CreatedAs(created, d, ids[d])
  }

  lemma StaysMapped(a: seq<Created>, ids: map<SessionId, NewId>, c: Created)
    requires Mapped(a, ids) && Listed(a, ids)
    ensures Mapped(a + [c], ids[c.session.id := c.id]) && Listed(a + [c], ids[c.session.id := c.id])
  {
    var b := a + [c];
    var more := ids[c.session.id := c.id];
    assert b[|a|] == c;
    forall d | d in more ensures CreatedAs(b, d, more[d]) {
      if d != c.session.id {
        assert CreatedAs(a, d, ids[d]);
        var k :| 0 <= k < |a| && a[k].session.id == d && a[k].id == ids[d];
        assert b[k] == a[k];
      }
    }
  }

  class Importer {
    const healthy: bool                     // no statement fails
    var sessionMap: map<SessionId, NewId>
    var created: seq<Created>
    var nextId: NewId

    constructor (healthy: bool)
      ensures Valid() && created == [] && sessionMap == map[] && this.healthy == healthy
    {
      this.healthy := healthy;
      sessionMap, created, nextId := map[], [], 0;
    }

    /** New ids are distinct, and the map knows the latest one of every id. */
    ghost predicate Valid()
      reads this
    {
      Numbered(created, nextId) && Listed(created, sessionMap) && Mapped(created, sessionMap)
    }

    method CreateSession(s: Session, parent: Option<NewId>) returns (ok: bool)
      requires Valid()
      modifies this
      ensures Valid()
      ensures ok ==> exists id :: created == old(created) + [Created(s, parent, id)] && sessionMap == old(sessionMap)[s.id := id]
      ensures !ok ==> created == old(created) && sessionMap == old(sessionMap)
      ensures healthy ==> ok
    {
      var lucky: bool := *;
      ok := healthy || lucky;
      if ok {
        StaysMapped(created, sessionMap, Created(s, parent, nextId));
        created := created + [Created(s, parent, nextId)];
        sessionMap := sessionMap[s.id := nextId];
        nextId := nextId + 1;
      }
    }
  }

  function Kept(sessions: seq<Session>, retired: set<SessionId>): seq<Session> {
    if sessions == [] then [] else
    Kept(sessions[..|sessions| - 1], retired)
      + if sessions[|sessions| - 1].id in retired then [] else [sessions[|sessions| - 1]]
  }

  lemma {:induction false} KeptHolds(sessions: seq<Session>, retired: set<SessionId>)
    ensures forall s :: s in Kept(sessions, retired) <==> s in sessions && s.id !in retired
  {
    if sessions != [] {
      KeptHolds(sessions[..|sessions| - 1], retired);
    }
  }

  /** A session created while its parent's place was known. */
  predicate InPlace(created: seq<Created>, k: nat)
    requires k < |created|
  {
    if created[k].session.parent.None? then created[k].parent.None? else Hangs(created, k)
  }

  lemma StaysInPlace(a: seq<Created>, b: seq<Created>, k: nat)
    requires a <= b && k < |a|
    ensures Hangs(a, k) ==> Hangs(b, k)
    ensures InPlace(a, k) ==> InPlace(b, k)
    ensures forall g :: WellHung(a, g, k) ==> WellHung(b, g, k)
  {
    if Hangs(a, k) {
      var j :| 0 <= j < k && a[j].session.id == a[k].session.parent.value && a[k].parent == Some(a[j].id);
      assert b[j] == a[j] && b[k] == a[k];
    }
    assert b[k] == a[k];
  }

  lemma OneMoreCreated(a: seq<Created>, b: seq<Created>, c: Created)
    requires b == a + [c]
    ensures SessionsOf(b) == SessionsOf(a) + [c.session]
    ensures multiset(SessionsOf(b)) == multiset(SessionsOf(a)) + multiset{c.session}
  {
    assert SessionsOf(b) == SessionsOf(a) + [c.session];
  }

  /** What the work-list keeps: `created` and `pending` together are the sessions to
      restore, and nothing is created before its place is known. */
  ghost predicate Working(im: Importer, kept: seq<Session>, pending: multiset<Session>)
    reads im
  {
    && im.Valid()
    && multiset(SessionsOf(im.created)) + pending == multiset(kept)
    && (forall k :: 0 <= k < |im.created| ==> InPlace(im.created, k))
    && (forall y :: Closed(kept, Roots(kept), y) ==> im.sessionMap.Keys <= y)
  }

  lemma InMultiset(kept: seq<Session>, done: multiset<Session>, pending: multiset<Session>, s: Session)
    requires done + pending == multiset(kept) && s in pending
    ensures s in kept
  {
    assert s in multiset(kept);
  }

  /** Creates a pending session whose place is known. */
  method Place(im: Importer, ghost kept: seq<Session>, ghost pending: multiset<Session>, s: Session) returns (ok: bool)
    requires Working(im, kept, pending) && s in pending
    requires s.parent.Some? ==> s.parent.value in im.sessionMap
    modifies im
    ensures ok ==> Working(im, kept, pending - multiset{s})
    ensures ok ==> old(im.sessionMap.Keys) <= im.sessionMap.Keys
    ensures im.healthy ==> ok
    ensures im.Valid()
  {
    InMultiset(kept, multiset(SessionsOf(im.created)), pending, s);
    hide InPlace, Closed, Roots, Hangs, Mapped, Listed, Numbered;
    ghost var before := im.created;
    var parent := if s.parent.Some? then Some(im.sessionMap[s.parent.value]) else None;
    ghost var map0 := im.sessionMap;
    ok := im.CreateSession(s, parent);
    if ok {
      ghost var id :| im.created == before + [Created(s, parent, id)] && im.sessionMap == map0[s.id := id];
      OneMoreCreated(before, im.created, Created(s, parent, id));
      PlacedInPlace(before, im.created, Created(s, parent, id), map0);
      PlacedIsGrounded(kept, map0.Keys, s);
    }
  }

  lemma PlacedInPlace(before: seq<Created>, after: seq<Created>, c: Created, ids: map<SessionId, NewId>)
    requires after == before + [c]
    requires forall k :: 0 <= k < |before| ==> InPlace(before, k)
    requires Mapped(before, ids)
    requires c.session.parent.Some? ==> c.session.parent.value in ids && c.parent == Some(ids[c.session.parent.value])
    requires c.session.parent.None? ==> c.parent.None?
    ensures forall k :: 0 <= k < |after| ==> InPlace(after, k)
  {
    forall k | 0 <= k < |after| ensures InPlace(after, k) {
      if k < |before| {
        StaysInPlace(before, after, k);
      } else if c.session.parent.Some? {
        var d := c.session.parent.value;
        assert CreatedAs(before, d, ids[d]);
        var j :| 0 <= j < |before| && before[j].session.id == d && before[j].id == ids[d];
        assert after[j] == before[j];
      }
    }
  }

  lemma PlacedIsGrounded(kept: seq<Session>, ids: set<SessionId>, s: Session)
    requires s in kept && (s.parent.Some? ==> s.parent.value in ids)
    requires forall y :: Closed(kept, Roots(kept), y) ==> ids <= y
    ensures forall y :: Closed(kept, Roots(kept), y) ==> ids + {s.id} <= y
  {
  }

  lemma WorkingIsValid(im: Importer, kept: seq<Session>, pending: multiset<Session>)
    requires Working(im, kept, pending)
    ensures im.Valid()
  {
  }

  lemma MoveOn(pending: seq<Session>, i: nat, next: seq<Session>)
    requires i < |pending|
    ensures pending[i] in multiset(pending[..i + 1]) + multiset(next)
    ensures multiset(pending[..i + 1]) + multiset(next) == multiset(pending[..i]) + multiset(next + [pending[i]])
    ensures multiset(pending[..i + 1]) + multiset(next) - multiset{pending[i]} == multiset(pending[..i]) + multiset(next)
  {
    assert pending[..i + 1] == pending[..i] + [pending[i]];
  }

  /** One round, backwards over the pending sessions. */
  method Round(im: Importer, ghost kept: seq<Session>, pending: seq<Session>) returns (ok: bool, next: seq<Session>, progressed: bool)
    requires Working(im, kept, multiset(pending))
    modifies im
    ensures im.Valid()
    ensures im.healthy ==> ok
    ensures ok ==> Working(im, kept, multiset(next))
    ensures ok ==> |next| <= |pending| && (progressed ==> |next| < |pending|)
    ensures ok && !progressed ==>
      forall s :: s in next ==> s.parent.Some? && s.parent.value !in im.sessionMap
  {
    hide Working;
    assert im.Valid() by { WorkingIsValid(im, kept, multiset(pending)); }
    next, progressed, ok := [], false, true;
    var i := |pending| - 1;
    assert pending[..i + 1] == pending;
    assert multiset(pending) + multiset(next) == multiset(pending);
    while i >= 0
      invariant -1 <= i < |pending| && im.Valid()
      invariant Working(im, kept, multiset(pending[..i + 1]) + multiset(next))
      invariant |next| + i + 1 <= |pending| && (progressed ==> |next| + i + 1 < |pending|)
      invariant !progressed ==> forall s :: s in next ==> s.parent.Some? && s.parent.value !in im.sessionMap
    {
      var s := pending[i];
      MoveOn(pending, i, next);
      if s.parent.Some? && s.parent.value !in im.sessionMap {
        next := next + [s];
      } else {
        ok := Place(im, kept, multiset(pending[..i + 1]) + multiset(next), s);
        if !ok {
          return;
        }
        progressed := true;
      }
      i := i - 1;
    }
    assert multiset(pending[..0]) + multiset(next) == multiset(next);
  }

  /** When a round changes nothing, the ids created are those grounded. */
  lemma StuckIsLeast(im: Importer, kept: seq<Session>, next: seq<Session>)
    requires Working(im, kept, multiset(next))
    requires forall s :: s in next ==> s.parent.Some? && s.parent.value !in im.sessionMap
    ensures Least(kept, Roots(kept), im.sessionMap.Keys)
  {
    var made := SessionsOf(im.created);
    forall s | s in kept && (s.parent.None? || s.parent.value in im.sessionMap) ensures s.id in im.sessionMap {
      assert s in multiset(kept);
      assert s in made;
      var k :| 0 <= k < |made| && made[k] == s;
      assert im.created[k].session == s;
    }
  }

  /** What is left over becomes roots. */
  method PlaceOrphans(im: Importer, ghost kept: seq<Session>, orphans: seq<Session>, ghost grounded: set<SessionId>) returns (ok: bool)
    requires im.Valid() && multiset(SessionsOf(im.created)) + multiset(orphans) == multiset(kept)
    requires forall s :: s in orphans ==> s.parent.Some? && s.parent.value !in grounded
    requires forall k :: 0 <= k < |im.created| ==> WellHung(im.created, grounded, k)
    modifies im
    ensures im.Valid()
    ensures im.healthy ==> ok
    ensures ok ==> multiset(SessionsOf(im.created)) == multiset(kept)
    ensures ok ==> forall k :: 0 <= k < |im.created| ==> WellHung(im.created, grounded, k)
  {
    hide Hangs, Mapped, Listed, Numbered;
    var i := |orphans| - 1;
    assert orphans[..i + 1] == orphans;
    while i >= 0
      invariant -1 <= i < |orphans| && im.Valid()
      invariant multiset(SessionsOf(im.created)) + multiset(orphans[..i + 1]) == multiset(kept)
      invariant forall k :: 0 <= k < |im.created| ==> WellHung(im.created, grounded, k)
    {
      var s := orphans[i];
      assert s in orphans;
      assert orphans[..i + 1] == orphans[..i] + [s];
      ghost var before := im.created;
      ok := im.CreateSession(s, None);
      if !ok {
        return;
      }
      ghost var id :| im.created == before + [Created(s, None, id)];
      OneMoreCreated(before, im.created, Created(s, None, id));
      forall k | 0 <= k < |im.created| ensures WellHung(im.created, grounded, k) {
        if k < |before| { StaysInPlace(before, im.created, k); }
      }
      i := i - 1;
    }
    assert orphans[..0] == [];
    ok := true;
  }

  lemma NothingYet(im: Importer, kept: seq<Session>)
    requires im.Valid() && im.created == [] && im.sessionMap == map[]
    ensures Working(im, kept, multiset(kept))
  {
    assert SessionsOf(im.created) == [];
  }

  lemma WorkIsDone(im: Importer, kept: seq<Session>, pending: multiset<Session>)
    requires Working(im, kept, pending)
    ensures im.Valid() && multiset(SessionsOf(im.created)) + pending == multiset(kept)
  {
  }

  /** Restores the sessions that are not retired.  Each of them is created once; it
      hangs under its parent exactly when its line of ancestors in the archive ends
      at a session without one, and all others become roots. */
  method RestoreSessions(im: Importer, sessions: seq<Session>)
    returns (ok: bool, retired: set<SessionId>, ghost grounded: set<SessionId>)
    requires im.Valid() && im.created == [] && im.sessionMap == map[]
    modifies im
    ensures im.Valid()
    ensures Least(sessions, Automation(sessions), retired)
    ensures im.healthy ==> ok
    ensures ok ==> multiset(SessionsOf(im.created)) == multiset(Kept(sessions, retired))
    ensures ok ==> Least(Kept(sessions, retired), Roots(Kept(sessions, retired)), grounded)
    ensures ok ==> forall k :: 0 <= k < |im.created| ==> WellHung(im.created, grounded, k)
  {
    hide Mapped, Listed, Numbered, Least, WellHung, Working;
    retired := RetiredSessions(sessions);
    grounded := {};
    var pending := [];
    for k := 0 to |sessions|
      invariant pending == Kept(sessions[..k], retired)
    {
      assert sessions[..k + 1][..k] == sessions[..k];
      if sessions[k].id !in retired {
        pending := pending + [sessions[k]];
      }
    }
    assert sessions[..|sessions|] == sessions;
    ghost var kept := pending;
    NothingYet(im, kept);
    while pending != []
      invariant Working(im, kept, multiset(pending))
      decreases |pending|
    {
      var next, progressed;
      ok, next, progressed := Round(im, kept, pending);
      if !ok {
        return;
      }
      if !progressed {
        StuckIsLeast(im, kept, next);
        grounded := im.sessionMap.Keys;
        EverythingHangs(im, kept, multiset(next), grounded);
        WorkIsDone(im, kept, multiset(next));
        ok := PlaceOrphans(im, kept, next, grounded);
        return;
      }
      pending := next;
    }
    StuckIsLeast(im, kept, []);
    grounded := im.sessionMap.Keys;
    EverythingHangs(im, kept, multiset([]), grounded);
    WorkIsDone(im, kept, multiset([]));
    ok := true;
  }

  lemma EverythingHangs(im: Importer, kept: seq<Session>, pending: multiset<Session>, grounded: set<SessionId>)
    requires Working(im, kept, pending) && grounded == im.sessionMap.Keys
    ensures forall k :: 0 <= k < |im.created| ==> WellHung(im.created, grounded, k)
  {
    forall k | 0 <= k < |im.created| ensures WellHung(im.created, grounded, k) {
      assert InPlace(im.created, k);
    }
  }

  /** With the archive's ids distinct, a session that keeps its parent carries the
      parent's new id. */
  lemma ParentIsRemapped(im: Importer, grounded: set<SessionId>, k: nat)
    requires im.Valid() && k < |im.created| && WellHung(im.created, grounded, k)
    requires forall i, j :: 0 <= i < j < |im.created| ==> im.created[i].session.id != im.created[j].session.id
    ensures var s := im.created[k].session;
      im.created[k].parent ==
        if s.parent.Some? && s.parent.value in grounded && s.parent.value in im.sessionMap
        then Some(im.sessionMap[s.parent.value]) else None
  {
    var c := im.created[k];
    if c.session.parent.Some? && c.session.parent.value in grounded {
      var d := c.session.parent.value;
      var j :| 0 <= j < k && im.created[j].session.id == d && c.parent == Some(im.created[j].id);
      assert CreatedAs(im.created, d, im.sessionMap[d]);
      var m :| 0 <= m < |im.created| && im.created[m].session.id == d && im.created[m].id == im.sessionMap[d];
      assert j == m;
    }
  }

  /** Which sessions keep their parent, told by the archive alone. */
  lemma KeepsParentIffAnchored(sessions: seq<Session>, retired: set<SessionId>, grounded: set<SessionId>, p: SessionId)
    requires Least(Kept(sessions, retired), Roots(Kept(sessions, retired)), grounded)
    ensures p in grounded <==> DescendsFrom(Kept(sessions, retired), Roots(Kept(sessions, retired)), p)
  {
    LeastIsDescent(Kept(sessions, retired), Roots(Kept(sessions, retired)), grounded, p);
  }
}
