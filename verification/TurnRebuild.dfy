/** Rebuilding the turns of a history from nothing but the order of its messages. */
module TurnRebuild {
  import opened Options
  import opened Turns

  /** The turn a session is in: what alone it, whether an answer was bound to it or
      needs none, and the number of its latest message. */
  datatype Cursor = Cursor(turn: TurnId, request: Option<MsgId>, bound: bool, number: int)

  type Groups = seq<seq<Item>>

  predicate NonEmpty(g: Groups) {
    forall p :: 0 <= p < |g| ==> g[p] != []
  }

  predicate FreshIn(g: seq<Item>, m: MsgId) {
    forall k :: 0 <= k < |g| ==> g[k].id != m
  }

  predicate Fresh(g: Groups, m: MsgId) {
    forall p :: 0 <= p < |g| ==> FreshIn(g[p], m)
  }

  /** The cursor stands at the end of group `g`, held by turn `t`. */
  predicate At(c: Cursor, g: seq<Item>, t: TurnId)
    requires g != []
  {
    c == Cursor(t, RequestOf(g), !g[0].role.User? || FirstAssistant(g).Some?, First(g) + |g| - 1)
  }

  /** Only message `m` moved, and it moved into turn `t`. */
  ghost predicate Moved(a: Rows, b: Rows, m: MsgId, t: TurnId) {
    a.Keys == b.Keys && In(b, m, t) && forall k :: k in a && k != m ==> b[k] == a[k]
  }

  lemma GroupHeldElsewhere(rows: Rows, after: Rows, s: SessionId, at: int, g: seq<Item>, u: TurnId, m: MsgId, t: TurnId)
    requires g != [] && GroupHeld(rows, s, at, g, u) && FreshIn(g, m) && Moved(rows, after, m, t) && u != t
    ensures GroupHeld(after, s, at, g, u)
  {
    forall k | 0 <= k < |g| ensures HeldAt(after, g[k].id, s, Place(u, at, First(g) + k, Visible)) {
      assert HeldAt(rows, g[k].id, s, Place(u, at, First(g) + k, Visible));
    }
    forall k | In(after, k, u) ensures exists j :: 0 <= j < |g| && g[j].id == k {
      assert In(rows, k, u);
    }
  }

  lemma HeldElsewhere(rows: Rows, after: Rows, s: SessionId, base: int, g: Groups, ts: seq<TurnId>, m: MsgId, t: TurnId)
    requires NonEmpty(g) && SessionHeld(rows, s, base, g, ts) && Fresh(g, m) && Moved(rows, after, m, t)
    requires forall k :: In(rows, k, t) ==> !InSession(rows, k, s)
    ensures SessionHeld(after, s, base, g, ts)
  {
    forall p | 0 <= p < |g| ensures GroupHeld(after, s, base + p, g[p], ts[p]) {
      assert GroupHeld(rows, s, base + p, g[p], ts[p]);
      assert HeldAt(rows, g[p][0].id, s, Place(ts[p], base + p, First(g[p]), Visible));
      assert In(rows, g[p][0].id, ts[p]) && InSession(rows, g[p][0].id, s);
      GroupHeldElsewhere(rows, after, s, base + p, g[p], ts[p], m, t);
    }
  }

  lemma HeldWithNewGroup(rows: Rows, s: SessionId, base: int, g: Groups, ts: seq<TurnId>, x: Item, t: TurnId, after: Rows)
    requires NonEmpty(g) && SessionHeld(rows, s, base, g, ts) && Fresh(g, x.id)
    requires (g == [] || x.role.User?) && InSession(rows, x.id, s) && forall k :: !In(rows, k, t)
    requires after == Put(rows, x.id, Place(t, base + |g|, First([x]), Visible))
    ensures NonEmpty(Grown(g, x)) && SessionHeld(after, s, base, Grown(g, x), ts + [t]) && Moved(rows, after, x.id, t)
  {
    hide GroupHeld;
    var h, us := Grown(g, x), ts + [t];
    HeldElsewhere(rows, after, s, base, g, ts, x.id, t);
    forall p | 0 <= p < |h| ensures GroupHeld(after, s, base + p, h[p], us[p]) {
      if p < |g| {
        assert GroupHeld(after, s, base + p, g[p], ts[p]);
        assert h[p] == g[p] && us[p] == ts[p];
      } else {
        assert h[p] == [x] && us[p] == t;
        OneHeld(rows, s, base + p, x, t, after);
      }
    }
  }

  lemma OneHeld(rows: Rows, s: SessionId, at: int, x: Item, t: TurnId, after: Rows)
    requires InSession(rows, x.id, s) && forall k :: !In(rows, k, t)
    requires after == Put(rows, x.id, Place(t, at, First([x]), Visible))
    ensures GroupHeld(after, s, at, [x], t)
  {
    var g := [x];
    assert HeldAt(after, g[0].id, s, Place(t, at, First(g), Visible));
    forall m | In(after, m, t) ensures exists k :: 0 <= k < |g| && g[k].id == m {
      assert !In(rows, m, t);
      assert g[0].id == m;
    }
  }

  /** Two groups of a session never share a turn. */
  lemma TurnsDiffer(rows: Rows, s: SessionId, base: int, g: Groups, ts: seq<TurnId>, p: nat, q: nat)
    requires NonEmpty(g) && SessionHeld(rows, s, base, g, ts) && p < |g| && q < |g| && p != q
    ensures ts[p] != ts[q]
  {
    assert GroupHeld(rows, s, base + p, g[p], ts[p]) && GroupHeld(rows, s, base + q, g[q], ts[q]);
    assert HeldAt(rows, g[p][0].id, s, Place(ts[p], base + p, First(g[p]), Visible));
    assert In(rows, g[p][0].id, ts[p]);
  }

  lemma GroupWithJoin(rows: Rows, s: SessionId, at: int, g: seq<Item>, t: TurnId, x: Item, after: Rows)
    requires g != [] && GroupHeld(rows, s, at, g, t) && FreshIn(g, x.id) && InSession(rows, x.id, s)
    requires after == Put(rows, x.id, Place(t, at, First(g) + |g|, Visible))
    ensures GroupHeld(after, s, at, g + [x], t) && Moved(rows, after, x.id, t)
  {
    var h := g + [x];
    forall k | 0 <= k < |h| ensures HeldAt(after, h[k].id, s, Place(t, at, First(h) + k, Visible)) {
      if k < |g| { assert h[k] == g[k] && HeldAt(rows, g[k].id, s, Place(t, at, First(g) + k, Visible)); }
    }
    forall m | In(after, m, t) ensures exists k :: 0 <= k < |h| && h[k].id == m {
      if m == x.id {
        assert h[|g|].id == m;
      } else {
        assert In(rows, m, t);
        var k :| 0 <= k < |g| && g[k].id == m;
        assert h[k].id == m;
      }
    }
  }

  lemma HeldWithJoin(rows: Rows, s: SessionId, base: int, g: Groups, ts: seq<TurnId>, x: Item, after: Rows)
    requires NonEmpty(g) && SessionHeld(rows, s, base, g, ts) && Fresh(g, x.id)
    requires g != [] && !x.role.User? && InSession(rows, x.id, s)
    requires var last, t := g[|g| - 1], ts[|ts| - 1];
      after == Put(rows, x.id, Place(t, base + |g| - 1, First(last) + |last|, Visible))
    ensures NonEmpty(Grown(g, x)) && SessionHeld(after, s, base, Grown(g, x), ts)
    ensures Moved(rows, after, x.id, ts[|ts| - 1])
  {
    hide GroupHeld;
    var h, n := Grown(g, x), |g| - 1;
    GroupWithJoin(rows, s, base + n, g[n], ts[n], x, after);
    forall p | 0 <= p < |h| ensures GroupHeld(after, s, base + p, h[p], ts[p]) {
      assert GroupHeld(rows, s, base + p, g[p], ts[p]);
      if p < n {
        assert h[p] == g[p];
        TurnsDiffer(rows, s, base, g, ts, p, n);
        GroupHeldElsewhere(rows, after, s, base + p, g[p], ts[p], x.id, ts[n]);
      } else {
        assert h[p] == g[n] + [x];
      }
    }
  }

  lemma AtOpens(x: Item, t: TurnId)
    ensures At(Cursor(t, RequestOf([x]), !x.role.User?, First([x])), [x], t) && AnsweredAtOnce([x])
  {
    var g := [x];
    assert g[..|g| - 1] == [];
    assert FirstAssistant(g[..|g| - 1]) == None;
  }

  lemma AtMovesOn(c: Cursor, g: seq<Item>, t: TurnId, x: Item)
    requires g != [] && At(c, g, t)
    ensures At(c.(bound := c.bound || x.role.Assistant?, number := c.number + 1), g + [x], t)
  {
    assert (g + [x])[..|g + [x]| - 1] == g;
  }

  /** The session's cursor stands at the end of its last group. */
  predicate CursorFor(cursors: map<SessionId, Cursor>, s: SessionId, g: Groups, ts: seq<TurnId>)
    requires NonEmpty(g)
  {
    && (s in cursors <==> g != []) && |ts| == |g|
    && (g != [] ==> At(cursors[s], g[|g| - 1], ts[|ts| - 1]))
  }

  /** Every turn a user opens is answered at once or not at all. */
  predicate AtOnce(g: Groups)
    requires NonEmpty(g)
  {
    forall p :: 0 <= p < |g| ==> AnsweredAtOnce(g[p])
  }

  /** The message opens a turn. */
  method Open(h: History, s: SessionId, x: Item, ghost base: int, ghost g: Groups, ghost ts: seq<TurnId>)
    returns (c: Option<Cursor>)
    requires h.Valid() && NonEmpty(g) && SessionHeld(h.rows, s, base, g, ts) && Fresh(g, x.id)
    requires (g == [] || x.role.User?) && (s in h.next ==> h.next[s] == base + |g|)
    modifies h
    ensures h.Valid() && SameMessages(old(h.rows), h.rows) && h.next.Keys == old(h.next).Keys
    ensures h.healthy && s in old(h.next) && InSession(old(h.rows), x.id, s) ==> c.Some?
    ensures c.Some? ==>
      && var t := c.value.turn;
      && NonEmpty(Grown(g, x)) && SessionHeld(h.rows, s, base, Grown(g, x), ts + [t])
      && At(c.value, [x], t) && (forall k :: !In(old(h.rows), k, t))
      && Moved(old(h.rows), h.rows, x.id, t)
      && s in old(h.next) && h.next == old(h.next)[s := base + |g| + 1]
  {
    hide SessionHeld, GroupHeld;
    var request := if x.role.User? then Some(x.id) else None;
    var assistant := if x.role.User? then None else Some(x.id);
    ghost var rows := h.rows;
    var t := h.CreateTurn(s, request, assistant);
    if t.None? {
      return None;
    }
    var number := if x.role.User? then 1 else 2;
    ghost var alone := h.rows;
    LinkItself(rows, alone, s, base + |g|, x.id, t.value, number);
    var ok, _ := h.Link(t.value, x.id, number);
    if !ok {
      return None;
    }
    HeldWithNewGroup(rows, s, base, g, ts, x, t.value, h.rows);
    AtOpens(x, t.value);
    c := Some(Cursor(t.value, request, !x.role.User?, number));
  }

  /** A message alone in its turn is linked to where it is. */
  lemma LinkItself(rows: Rows, alone: Rows, s: SessionId, at: int, m: MsgId, t: TurnId, n: int)
    requires InSession(rows, m, s) && (forall k :: !In(rows, k, t))
    requires alone == Put(rows, m, Place(t, at, n, Visible))
    ensures forall e :: In(alone, e, t) <==> e == m
    ensures Put(alone, m, LinkPlace(alone, m, n)) == alone
  {
    forall e | In(alone, e, t) ensures e == m {
      assert !In(rows, e, t);
    }
  }

  predicate Agrees(rows: Rows, g: seq<Item>) {
    forall k :: 0 <= k < |g| ==> g[k].id in rows && rows[g[k].id].role == g[k].role
  }

  /** Whoever is in the turn is in the group, where its number says. */
  lemma Members(rows: Rows, s: SessionId, at: int, g: seq<Item>, t: TurnId)
    requires g != [] && GroupHeld(rows, s, at, g, t)
    ensures In(rows, g[0].id, t)
    ensures forall m :: In(rows, m, t) ==>
      var p := rows[m].place.value;
      && InSession(rows, m, s) && p.position == at && p.mark.Visible?
      && First(g) <= p.number < First(g) + |g| && g[p.number - First(g)].id == m
  {
    assert HeldAt(rows, g[0].id, s, Place(t, at, First(g), Visible));
    forall m | In(rows, m, t) ensures exists k :: 0 <= k < |g| && HeldAt(rows, m, s, Place(t, at, First(g) + k, Visible)) && g[k].id == m {
      var k :| 0 <= k < |g| && g[k].id == m;
      assert HeldAt(rows, g[k].id, s, Place(t, at, First(g) + k, Visible));
    }
  }

  /** An answer can be bound to the turn of a user exactly if nothing is numbered 2
      there yet. */
  lemma BindIff(rows: Rows, s: SessionId, at: int, g: seq<Item>, t: TurnId, x: Item)
    requires g != [] && g[0].role.User? && GroupHeld(rows, s, at, g, t) && FreshIn(g, x.id) && InSession(rows, x.id, s)
    requires FirstAssistant(g).None? && Unique(rows)
    ensures var p := Place(t, at, 2, Visible);
      && g[0].id in rows && rows[g[0].id].place.Some? && BoundPlace(rows, g[0].id) == p
      && (Unique(Put(rows, x.id, p)) <==> |g| == 1)
    ensures Agrees(rows, g) ==> CanBind(rows, s, g[0].id)
  {
    var p := Place(t, at, 2, Visible);
    var after := Put(rows, x.id, p);
    assert HeldAt(rows, g[0].id, s, Place(t, at, 1, Visible));
    Members(rows, s, at, g, t);
    if |g| > 1 {
      assert HeldAt(rows, g[1].id, s, Place(t, at, First(g) + 1, Visible));
      assert Clash(after, g[1].id, x.id);
    } else {
      forall a, b | a in after && b in after && Clash(after, a, b) ensures a == b {
        if a != x.id && b != x.id { assert Clash(rows, a, b); }
      }
    }
    if Agrees(rows, g) {
      NoAssistant(g);
      forall m | In(rows, m, t) ensures !rows[m].role.Assistant? {
        var k := rows[m].place.value.number - First(g);
        assert rows[g[k].id].role == g[k].role;
      }
    }
  }

  /** The next number of a turn is free. */
  lemma LinkNext(rows: Rows, s: SessionId, at: int, g: seq<Item>, t: TurnId, x: Item, now: Rows)
    requires g != [] && GroupHeld(rows, s, at, g, t) && FreshIn(g, x.id) && InSession(rows, x.id, s) && Unique(rows)
    requires now == rows || now == Put(rows, x.id, Place(t, at, 2, Visible))
    ensures In(now, g[0].id, t)
    ensures forall e :: In(now, e, t) ==>
      InSession(now, e, s) && LinkPlace(now, e, First(g) + |g|) == Place(t, at, First(g) + |g|, Visible)
    ensures Unique(Put(rows, x.id, Place(t, at, First(g) + |g|, Visible)))
    ensures Put(now, x.id, Place(t, at, First(g) + |g|, Visible)) == Put(rows, x.id, Place(t, at, First(g) + |g|, Visible))
  {
    var n := First(g) + |g|;
    Members(rows, s, at, g, t);
    forall e | In(now, e, t) ensures InSession(now, e, s) && LinkPlace(now, e, n) == Place(t, at, n, Visible) {
      assert e != x.id || now == rows ==> In(rows, e, t);
      assert In(now, e, t) && now[e].place.value.position == at && now[e].place.value.mark.Visible?;
    }
    var after := Put(rows, x.id, Place(t, at, n, Visible));
    forall a, b | a in after && b in after && Clash(after, a, b) ensures a == b {
      if a != x.id && b != x.id { assert Clash(rows, a, b); }
    }
  }

  /** The message joins the turn the session is in; the first message of the assistant
      in a user's turn is bound to it.  The binding needs the number 2, so it succeeds
      exactly if that message comes at once. */
  method Join(h: History, s: SessionId, x: Item, c0: Cursor, ghost base: int, ghost g: Groups, ghost ts: seq<TurnId>)
    returns (c: Option<Cursor>)
    requires h.Valid() && NonEmpty(g) && SessionHeld(h.rows, s, base, g, ts) && Fresh(g, x.id)
    requires g != [] && !x.role.User? && At(c0, g[|g| - 1], ts[|ts| - 1])
    modifies h`rows
    ensures h.Valid() && SameMessages(old(h.rows), h.rows)
    ensures c.Some? ==>
      && NonEmpty(Grown(g, x)) && SessionHeld(h.rows, s, base, Grown(g, x), ts)
      && At(c.value, g[|g| - 1] + [x], c0.turn)
      && Moved(old(h.rows), h.rows, x.id, c0.turn)
      && (forall k :: In(old(h.rows), k, c0.turn) ==> InSession(old(h.rows), k, s))
      && (AnsweredAtOnce(g[|g| - 1]) ==> AnsweredAtOnce(g[|g| - 1] + [x]))
    ensures h.healthy && InSession(old(h.rows), x.id, s) && Agrees(old(h.rows), g[|g| - 1]) && c.None? ==>
      !AnsweredAtOnce(g[|g| - 1] + [x])
  {
    hide GroupHeld, Unique, CanBind, LinkPlace;
    ghost var rows, last, t := h.rows, g[|g| - 1], ts[|ts| - 1];
    ghost var at := base + |g| - 1;
    assert GroupHeld(rows, s, at, last, t);
    assert FreshIn(last, x.id);
    AtMovesOn(c0, last, t, x);
    AtOnceGrows(last, x);
    Members(rows, s, at, last, t);
    var bound := c0.bound;
    if x.role.Assistant? && !bound && c0.request.Some? {
      if InSession(h.rows, x.id, s) { BindIff(rows, s, at, last, t, x); }
      var ok := h.BindAssistant(s, c0.request.value, x.id);
      if !ok {
        return None;
      }
      bound := true;
    }
    ghost var now := h.rows;
    if InSession(rows, x.id, s) { LinkNext(rows, s, at, last, t, x, now); }
    var ok, _ := h.Link(c0.turn, x.id, c0.number + 1);
    if !ok {
      return None;
    }
    HeldWithJoin(rows, s, base, g, ts, x, h.rows);
    c := Some(c0.(bound := bound, number := c0.number + 1));
  }

  /** A joining message leaves a group answered at once unless it is the late first
      message of the assistant. */
  lemma AtOnceGrows(g: seq<Item>, x: Item)
    requires g != []
    ensures AnsweredAtOnce(g) ==>
      (AnsweredAtOnce(g + [x]) <==> !(g[0].role.User? && FirstAssistant(g).None? && x.role.Assistant? && |g| > 1))
    ensures !AnsweredAtOnce(g) ==> !AnsweredAtOnce(g + [x])
  {
    var h := g + [x];
    NoAssistant(g);
    if k :| 0 < k < |g| && g[k].role.Assistant? { assert h[k].role.Assistant?; }
    if x.role.Assistant? { assert h[|g|].role.Assistant?; }
    assert forall k :: 0 <= k < |g| ==> h[k] == g[k];
  }

  // ---------------------------------------------------------------------------
  // All messages

  predicate Complete(m: Message) {
    m.id.Some? && m.session.Some?
  }

  predicate DistinctIds(messages: seq<Message>) {
    forall i, j :: 0 <= i < j < |messages| && Complete(messages[i]) && Complete(messages[j]) ==>
      messages[i].id != messages[j].id
  }

  /** The messages are rows of the table, in sessions that exist. */
  ghost predicate Coherent(rows: Rows, sessions: set<SessionId>, messages: seq<Message>) {
    forall i :: 0 <= i < |messages| && Complete(messages[i]) ==>
      && messages[i].session.value in sessions
      && InSession(rows, messages[i].id.value, messages[i].session.value)
      && rows[messages[i].id.value].role == messages[i].role
  }

  function GroupsOf(messages: seq<Message>, s: SessionId): (g: Groups)
    ensures NonEmpty(g)
  {
    Split(Items(messages, s))
  }

  function TurnsOf(ts: map<SessionId, seq<TurnId>>, s: SessionId): seq<TurnId> {
    if s in ts then ts[s] else []
  }

  function BaseOf(next: map<SessionId, int>, s: SessionId): int {
    if s in next then next[s] else 0
  }

  /** Session `s` is rebuilt as far as `messages` go. */
  ghost predicate Rebuilt(rows: Rows, next: map<SessionId, int>, first: map<SessionId, int>, messages: seq<Message>,
                          ts: map<SessionId, seq<TurnId>>, s: SessionId)
  {
    var g := GroupsOf(messages, s);
    && SessionHeld(rows, s, BaseOf(first, s), g, TurnsOf(ts, s))
    && (s in next <==> s in first) && (s in first ==> next[s] == first[s] + |g|)
    && AtOnce(g)
  }

  lemma {:induction false} ItemsAreMessages(messages: seq<Message>, s: SessionId, x: Item)
    requires x in Items(messages, s)
    ensures exists i :: 0 <= i < |messages| && messages[i] == Message(Some(x.id), Some(s), x.role)
  {
    var m := messages[|messages| - 1];
    if x in Items(messages[..|messages| - 1], s) {
      ItemsAreMessages(messages[..|messages| - 1], s, x);
      var i :| 0 <= i < |messages| - 1 && messages[i] == Message(Some(x.id), Some(s), x.role);
    } else {
      assert m == Message(Some(x.id), Some(s), x.role);
    }
  }

  lemma {:induction false} GroupsAreItems(groups: Groups, p: nat, k: nat)
    requires p < |groups| && k < |groups[p]|
    ensures groups[p][k] in Flatten(groups)
  {
    if p < |groups| - 1 {
      GroupsAreItems(groups[..|groups| - 1], p, k);
    }
  }

  lemma GroupsAreMessages(messages: seq<Message>, s: SessionId, p: nat, k: nat)
    requires p < |GroupsOf(messages, s)| && k < |GroupsOf(messages, s)[p]|
    ensures var x := GroupsOf(messages, s)[p][k];
      exists i :: 0 <= i < |messages| && messages[i] == Message(Some(x.id), Some(s), x.role)
  {
    SplitKeepsAll(Items(messages, s));
    GroupsAreItems(GroupsOf(messages, s), p, k);
    ItemsAreMessages(messages, s, GroupsOf(messages, s)[p][k]);
  }

  /** The groups so far hold no message that comes later. */
  lemma LaterIsFresh(messages: seq<Message>, n: nat, s: SessionId)
    requires n < |messages| && DistinctIds(messages) && Complete(messages[n])
    ensures Fresh(GroupsOf(messages[..n], s), messages[n].id.value)
  {
    var g: seq<seq<Item>> := GroupsOf(messages[..n], s);
    forall p: int, k: int | 0 <= p < |g| && 0 <= k < |g[p]| ensures g[p][k].id != messages[n].id.value {
      GroupsAreMessages(messages[..n], s, p, k);
      var i :| 0 <= i < n && messages[..n][i] == Message(Some(g[p][k].id), Some(s), g[p][k].role);
      assert Complete(messages[i]);
    }
  }

  /** The groups of a coherent history carry the roles of its rows. */
  lemma GroupsAgree(rows: Rows, sessions: set<SessionId>, messages: seq<Message>, n: nat, s: SessionId, p: nat)
    requires n <= |messages| && Coherent(rows, sessions, messages) && p < |GroupsOf(messages[..n], s)|
    ensures Agrees(rows, GroupsOf(messages[..n], s)[p])
  {
    var g := GroupsOf(messages[..n], s)[p];
    forall k | 0 <= k < |g| ensures g[k].id in rows && rows[g[k].id].role == g[k].role {
      GroupsAreMessages(messages[..n], s, p, k);
      var i :| 0 <= i < n && messages[..n][i] == Message(Some(g[k].id), Some(s), g[k].role);
      assert Complete(messages[i]);
    }
  }

  lemma NextItems(messages: seq<Message>, n: nat, s: SessionId)
    requires n < |messages|
    ensures var m := messages[n]; var before := Items(messages[..n], s);
      Items(messages[..n + 1], s) == if m.id.Some? && m.session == Some(s) then before + [Item(m.id.value, m.role)] else before
    ensures var m := messages[n]; var before := GroupsOf(messages[..n], s);
      GroupsOf(messages[..n + 1], s) == if m.id.Some? && m.session == Some(s) then Grown(before, Item(m.id.value, m.role)) else before
  {
    assert messages[..n + 1][..n] == messages[..n];
    var m := messages[n];
    var before := Items(messages[..n], s);
    if m.id.Some? && m.session == Some(s) {
      var x := Item(m.id.value, m.role);
      assert (before + [x])[..|before|] == before;
    }
  }

  lemma LateGrows(g: Groups, x: Item)
    requires NonEmpty(g) && !AtOnce(g)
    ensures NonEmpty(Grown(g, x)) && !AtOnce(Grown(g, x))
  {
    var p :| 0 <= p < |g| && !AnsweredAtOnce(g[p]);
    var h := Grown(g, x);
    if p == |g| - 1 && !x.role.User? {
      AtOnceGrows(g[p], x);
      assert h[p] == g[p] + [x];
    } else {
      assert h[p] == g[p];
    }
  }

  /** A turn answered late stays so, whatever comes after. */
  lemma {:induction false} StaysLate(messages: seq<Message>, n: nat, s: SessionId)
    requires n <= |messages| && !AtOnce(GroupsOf(messages[..n], s))
    ensures !AtOnce(GroupsOf(messages, s))
    decreases |messages| - n
  {
    if n < |messages| {
      NextItems(messages, n, s);
      var m := messages[n];
      if m.id.Some? && m.session == Some(s) {
        LateGrows(GroupsOf(messages[..n], s), Item(m.id.value, m.role));
      }
      StaysLate(messages, n + 1, s);
    } else {
      assert messages[..n] == messages;
    }
  }

  /** Everything known of one session. */
  ghost predicate Tracked(rows: Rows, next: map<SessionId, int>, first: map<SessionId, int>, messages: seq<Message>,
                          ts: map<SessionId, seq<TurnId>>, cursors: map<SessionId, Cursor>, s: SessionId)
  {
    && Rebuilt(rows, next, first, messages, ts, s)
    && CursorFor(cursors, s, GroupsOf(messages, s), TurnsOf(ts, s))
  }

  /** What a message changes for the other sessions: nothing. */
  lemma TrackedElsewhere(rows: Rows, next: map<SessionId, int>, first: map<SessionId, int>,
                         messages: seq<Message>, n: nat, ts: map<SessionId, seq<TurnId>>,
                         cursors: map<SessionId, Cursor>, s: SessionId,
                         after: Rows, next': map<SessionId, int>,
                         ts': map<SessionId, seq<TurnId>>, cursors': map<SessionId, Cursor>, t: TurnId)
    requires n < |messages| && DistinctIds(messages) && Complete(messages[n]) && messages[n].session != Some(s)
    requires Tracked(rows, next, first, messages[..n], ts, cursors, s)
    requires Moved(rows, after, messages[n].id.value, t)
    requires forall k :: In(rows, k, t) ==> InSession(rows, k, messages[n].session.value)
    requires TurnsOf(ts', s) == TurnsOf(ts, s)
    requires (s in next' <==> s in next) && (s in next ==> next'[s] == next[s])
    requires (s in cursors' <==> s in cursors) && (s in cursors ==> cursors'[s] == cursors[s])
    ensures Tracked(after, next', first, messages[..n + 1], ts', cursors', s)
  {
    NextItems(messages, n, s);
    LaterIsFresh(messages, n, s);
    HeldElsewhere(rows, after, s, BaseOf(first, s), GroupsOf(messages[..n], s), TurnsOf(ts, s), messages[n].id.value, t);
  }

  /** The invariant of the loop, over all sessions. */
  ghost predicate Progress(h: History, first: map<SessionId, int>, messages: seq<Message>,
                           ts: map<SessionId, seq<TurnId>>, cursors: map<SessionId, Cursor>)
    reads h
  {
    && h.Valid()
    && forall s: SessionId :: Tracked(h.rows, h.next, first, messages, ts, cursors, s)
  }

  lemma GrownShape(g: Groups, x: Item)
    ensures var h := Grown(g, x);
      && h != [] && |h| == |g| + (if g == [] || x.role.User? then 1 else 0)
      && h[|h| - 1] == if g == [] || x.role.User? then [x] else g[|g| - 1] + [x]
    ensures NonEmpty(g) && AtOnce(g) ==>
      NonEmpty(Grown(g, x)) && (AnsweredAtOnce(Grown(g, x)[|Grown(g, x)| - 1]) <==> AtOnce(Grown(g, x)))
  {
    var h := Grown(g, x);
    if NonEmpty(g) && AtOnce(g) {
      forall p | 0 <= p < |h| - 1 ensures AnsweredAtOnce(h[p]) {
        assert h[p] == g[p];
      }
    }
  }

  /** One message, seen by its own session. */
  method AdvanceOwn(h: History, ghost first: map<SessionId, int>, messages: seq<Message>, n: nat,
                    ghost ts: map<SessionId, seq<TurnId>>, cursors: map<SessionId, Cursor>)
    returns (c: Option<Cursor>, ghost ts': map<SessionId, seq<TurnId>>)
    requires n < |messages| && DistinctIds(messages) && Complete(messages[n]) && h.Valid()
    requires Tracked(h.rows, h.next, first, messages[..n], ts, cursors, messages[n].session.value)
    modifies h
    ensures h.Valid() && SameMessages(old(h.rows), h.rows) && h.next.Keys == old(h.next).Keys
    ensures h.healthy && Coherent(old(h.rows), old(h.next).Keys, messages) && c.None? ==>
      !AtOnce(GroupsOf(messages[..n + 1], messages[n].session.value))
    ensures c.Some? ==>
      && var s := messages[n].session.value;
      && Tracked(h.rows, h.next, first, messages[..n + 1], ts', cursors[s := c.value], s)
      && Moved(old(h.rows), h.rows, messages[n].id.value, c.value.turn)
      && (forall k :: In(old(h.rows), k, c.value.turn) ==> InSession(old(h.rows), k, s))
      && (forall r :: r in old(h.next) && r != s ==> h.next[r] == old(h.next)[r])
      && forall r :: r != s ==> TurnsOf(ts', r) == TurnsOf(ts, r)
  {
    hide Tracked, Items, Split, Fresh, DistinctIds, GroupHeld, Agrees, AnsweredAtOnce, AtOnce, Unique, Coherent;
    hide SessionHeld, Grown, GroupsOf, NonEmpty, Moved, In, SameMessages, First, FirstAssistant;
    ts' := ts;
    var s, x := messages[n].session.value, Item(messages[n].id.value, messages[n].role);
    ghost var g, base := GroupsOf(messages[..n], s), BaseOf(first, s);
    LaterIsFresh(messages, n, s);
    TrackedParts(h.rows, h.next, first, messages[..n], ts, cursors, s);
    GrownShape(g, x);
    NextItems(messages, n, s);
    if Coherent(h.rows, h.next.Keys, messages) {
      CoherentOne(h.rows, h.next.Keys, messages, n);
      if g != [] { GroupsAgree(h.rows, h.next.Keys, messages, n, s, |g| - 1); }
    }
    if x.role.User? || s !in cursors {
      AtOpens(x, 0);
      c := Open(h, s, x, base, g, TurnsOf(ts, s));
      if c.Some? {
        ts' := ts[s := TurnsOf(ts, s) + [c.value.turn]];
      }
    } else {
      LastAtOnce(g);
      c := Join(h, s, x, cursors[s], base, g, TurnsOf(ts, s));
    }
    if c.Some? {
      TrackedNow(h.rows, h.next, first, messages, n, ts', cursors[s := c.value], s, x, c.value);
    }
  }

  lemma CoherentOne(rows: Rows, sessions: set<SessionId>, messages: seq<Message>, n: nat)
    requires n < |messages| && Complete(messages[n]) && Coherent(rows, sessions, messages)
    ensures messages[n].session.value in sessions && InSession(rows, messages[n].id.value, messages[n].session.value)
  {
  }

  lemma LastAtOnce(g: Groups)
    requires g != [] && NonEmpty(g) && AtOnce(g)
    ensures AnsweredAtOnce(g[|g| - 1])
  {
  }

  lemma TrackedParts(rows: Rows, next: map<SessionId, int>, first: map<SessionId, int>, messages: seq<Message>,
                     ts: map<SessionId, seq<TurnId>>, cursors: map<SessionId, Cursor>, s: SessionId)
    requires Tracked(rows, next, first, messages, ts, cursors, s)
    ensures var g := GroupsOf(messages, s);
      && NonEmpty(g) && SessionHeld(rows, s, BaseOf(first, s), g, TurnsOf(ts, s)) && AtOnce(g)
      && (s in next <==> s in first) && (s in first ==> next[s] == first[s] + |g|)
      && CursorFor(cursors, s, g, TurnsOf(ts, s))
  {
  }

  lemma TrackedNow(rows: Rows, next: map<SessionId, int>, first: map<SessionId, int>, messages: seq<Message>, n: nat,
                   ts: map<SessionId, seq<TurnId>>, cursors: map<SessionId, Cursor>, s: SessionId, x: Item, c: Cursor)
    requires n < |messages| && messages[n] == Message(Some(x.id), Some(s), x.role)
    requires var g, us := Grown(GroupsOf(messages[..n], s), x), TurnsOf(ts, s);
      && NonEmpty(g) && g != [] && SessionHeld(rows, s, BaseOf(first, s), g, us) && AtOnce(g)
      && At(c, g[|g| - 1], us[|us| - 1])
      && (s in next <==> s in first) && (s in first ==> next[s] == first[s] + |g|)
    requires s in cursors && cursors[s] == c
    ensures Tracked(rows, next, first, messages[..n + 1], ts, cursors, s)
  {
    NextItems(messages, n, s);
  }

  method Advance(h: History, ghost first: map<SessionId, int>, messages: seq<Message>, n: nat,
                 ghost ts: map<SessionId, seq<TurnId>>, cursors: map<SessionId, Cursor>)
    returns (ok: bool, ghost ts': map<SessionId, seq<TurnId>>, cursors': map<SessionId, Cursor>)
    requires n < |messages| && DistinctIds(messages) && Complete(messages[n])
    requires Progress(h, first, messages[..n], ts, cursors)
    modifies h
    ensures h.Valid() && SameMessages(old(h.rows), h.rows) && h.next.Keys == old(h.next).Keys
    ensures ok ==> Progress(h, first, messages[..n + 1], ts', cursors')
    ensures h.healthy && Coherent(old(h.rows), old(h.next).Keys, messages) && !ok ==>
      !AtOnce(GroupsOf(messages[..n + 1], messages[n].session.value))
  {
    hide Tracked, DistinctIds, Coherent, AtOnce, Unique, Split, Items;
    ghost var rows, next := h.rows, h.next;
    cursors' := cursors;
    var c;
    c, ts' := AdvanceOwn(h, first, messages, n, ts, cursors);
    ok := c.Some?;
    if ok {
      var s := messages[n].session.value;
      cursors' := cursors[s := c.value];
      ghost var upto := messages[..n + 1];
      forall r: SessionId
        ensures Tracked(h.rows, h.next, first, upto, ts', cursors', r)
      {
        if r != s {
          TrackedElsewhere(rows, next, first, messages, n, ts, cursors, r, h.rows, h.next, ts', cursors', c.value.turn);
        }
      }
    }
  }

  lemma SkippedMessage(messages: seq<Message>, n: nat)
    requires n < |messages| && !Complete(messages[n])
    ensures forall s: SessionId :: GroupsOf(messages[..n + 1], s) == GroupsOf(messages[..n], s)
  {
    forall s: SessionId ensures GroupsOf(messages[..n + 1], s) == GroupsOf(messages[..n], s) {
      NextItems(messages, n, s);
    }
  }

  lemma CoherentStays(a: Rows, b: Rows, sessions: set<SessionId>, messages: seq<Message>)
    requires Coherent(a, sessions, messages) && SameMessages(a, b)
    ensures Coherent(b, sessions, messages)
  {
  }

  /** Rebuilds the turns.  Each session's complete messages are split at the user's;
      the groups become turns at consecutive positions, each of which holds exactly
      the messages of its group, numbered without gaps.  With the database in order it
      goes through exactly if every turn a user opens is answered at once or not at
      all. */
  method RebuildTurns(h: History, messages: seq<Message>) returns (ok: bool, ghost ts: map<SessionId, seq<TurnId>>)
    requires h.Valid() && DistinctIds(messages)
    modifies h
    ensures h.Valid() && SameMessages(old(h.rows), h.rows)
    ensures ok ==> forall s: SessionId :: Rebuilt(h.rows, h.next, old(h.next), messages, ts, s)
    ensures h.healthy && Coherent(old(h.rows), old(h.next).Keys, messages) ==>
      (ok <==> forall s: SessionId :: AtOnce(GroupsOf(messages, s)))
  {
    hide Tracked, DistinctIds, Rebuilt, GroupsOf, Coherent, AtOnce, Unique;
    ghost var first, rows := h.next, h.rows;
    var cursors: map<SessionId, Cursor> := map[];
    ts := map[];
    ok := true;
    NothingRebuilt(h, first);
    for n := 0 to |messages|
      invariant Progress(h, first, messages[..n], ts, cursors)
      invariant SameMessages(rows, h.rows) && h.next.Keys == first.Keys
    {
      if Complete(messages[n]) {
        if Coherent(rows, first.Keys, messages) { CoherentStays(rows, h.rows, first.Keys, messages); }
        ok, ts, cursors := Advance(h, first, messages, n, ts, cursors);
        if !ok {
          if h.healthy && Coherent(rows, first.Keys, messages) { StaysLate(messages, n + 1, messages[n].session.value); }
          return;
        }
      } else {
        SkippedMessage(messages, n);
        SkipKeeps(h, first, messages, n, ts, cursors);
      }
    }
    assert messages[..|messages|] == messages;
    forall s: SessionId ensures Rebuilt(h.rows, h.next, first, messages, ts, s) && AtOnce(GroupsOf(messages, s)) {
      TrackedIsRebuilt(h.rows, h.next, first, messages, ts, cursors, s);
    }
    ok := true;
  }

  lemma NothingRebuilt(h: History, first: map<SessionId, int>)
    requires h.Valid() && first == h.next
    ensures forall messages: seq<Message> :: messages == [] ==> Progress(h, first, messages, map[], map[])
  {
  }

  lemma SkipKeeps(h: History, first: map<SessionId, int>, messages: seq<Message>, n: nat,
                  ts: map<SessionId, seq<TurnId>>, cursors: map<SessionId, Cursor>)
    requires n < |messages| && Progress(h, first, messages[..n], ts, cursors)
    requires forall s: SessionId :: GroupsOf(messages[..n + 1], s) == GroupsOf(messages[..n], s)
    ensures Progress(h, first, messages[..n + 1], ts, cursors)
  {
    var upto := messages[..n + 1];
    forall s: SessionId ensures Tracked(h.rows, h.next, first, upto, ts, cursors, s) {
      assert Tracked(h.rows, h.next, first, messages[..n], ts, cursors, s);
    }
  }

  lemma TrackedIsRebuilt(rows: Rows, next: map<SessionId, int>, first: map<SessionId, int>, messages: seq<Message>,
                         ts: map<SessionId, seq<TurnId>>, cursors: map<SessionId, Cursor>, s: SessionId)
    requires Tracked(rows, next, first, messages, ts, cursors, s)
    ensures Rebuilt(rows, next, first, messages, ts, s) && AtOnce(GroupsOf(messages, s))
  {
  }

  /** What a rebuilt turn was asked and answered: the user's message that alone it,
      and the first message of the assistant; a leading turn is answered by its first
      message if the assistant wrote that. */
  lemma RebuiltTurnReads(rows: Rows, after: Rows, next: map<SessionId, int>, first: map<SessionId, int>,
                         messages: seq<Message>, ts: map<SessionId, seq<TurnId>>, s: SessionId, p: nat, m: MsgId)
    requires Rebuilt(after, next, first, messages, ts, s) && p < |GroupsOf(messages, s)|
    requires Coherent(rows, first.Keys, messages) && SameMessages(rows, after)
    ensures var g, t := GroupsOf(messages, s)[p], TurnsOf(ts, s)[p];
      && (IsRequest(after, t, m) <==> RequestOf(g) == Some(m))
      && (IsAnswer(after, t, m) <==> AnswerOf(g) == Some(m))
      && AnswerOf(g) == if g[0].role.User? then FirstAssistant(g) else if g[0].role.Assistant? then Some(g[0].id) else None
  {
    hide Split, Items, First, FirstAssistant, GroupHeld, AnswerOf, Agrees;
    var groups := GroupsOf(messages, s);
    var g, t := groups[p], TurnsOf(ts, s)[p];
    assert GroupHeld(after, s, BaseOf(first, s) + p, g, t);
    assert messages[..|messages|] == messages;
    GroupsAgree(rows, first.Keys, messages, |messages|, s, p);
    SplitOpensAtUsers(Items(messages, s));
    assert WellFormed(g, p == 0);
    AgreesStays(rows, after, g);
    HeldTurnReads(after, s, BaseOf(first, s) + p, g, t, m);
    AnswersRead(g);
  }

  lemma AgreesStays(a: Rows, b: Rows, g: seq<Item>)
    requires Agrees(a, g) && SameMessages(a, b)
    ensures forall k :: 0 <= k < |g| ==> g[k].id in b && b[g[k].id].role == g[k].role
  {
    forall k | 0 <= k < |g| ensures g[k].id in b && b[g[k].id].role == g[k].role {
      assert g[k].id in a;
    }
  }

  lemma AnswersRead(g: seq<Item>)
    requires g != [] && AnsweredAtOnce(g) && forall k :: 0 < k < |g| ==> !g[k].role.User?
    ensures AnswerOf(g) == if g[0].role.User? then FirstAssistant(g) else if g[0].role.Assistant? then Some(g[0].id) else None
  {
    if g[0].role.User? {
      FirstAssistantAnswers(g);
    }
  }
}
