/** The turns of a restored history: the statements that assign messages to turns,
    and the structure they are rebuilt with when the archive has none.  A turn is
    nothing but the messages that carry its id; what was asked and what was answered
    is read off their roles and numbers. */
module Turns {
  import opened Options

  type MsgId = nat
  type SessionId = nat
  type TurnId = nat

  datatype Role = User | Assistant | Other

  datatype Mark = Visible | Hidden | Superseded(at: int, replacement: Option<TurnId>, reason: string)

  /** Where a message sits: in which turn, at which position of its session, as the
      how-manieth of the turn. */
  datatype Place = Place(turn: TurnId, position: int, number: int, mark: Mark)

  datatype Row = Row(session: SessionId, role: Role, place: Option<Place>)

  type Rows = map<MsgId, Row>

  predicate In(rows: Rows, m: MsgId, t: TurnId) {
    m in rows && rows[m].place.Some? && rows[m].place.value.turn == t
  }

  predicate Takes(rows: Rows, m: MsgId, t: TurnId, n: int) {
    In(rows, m, t) && rows[m].place.value.number == n
  }

  predicate Clash(rows: Rows, a: MsgId, b: MsgId) {
    && a in rows && b in rows && rows[a].place.Some? && rows[b].place.Some?
    && rows[a].place.value.turn == rows[b].place.value.turn
    && rows[a].place.value.number == rows[b].place.value.number
  }

  /** The unique index: no two messages of a turn share a number. */
  predicate Unique(rows: Rows) {
    forall a, b :: a in rows && b in rows && Clash(rows, a, b) ==> a == b
  }

  predicate InSession(rows: Rows, m: MsgId, s: SessionId) {
    m in rows && rows[m].session == s
  }

  predicate HeldAt(rows: Rows, m: MsgId, s: SessionId, p: Place) {
    m in rows && rows[m].session == s && rows[m].place == Some(p)
  }

  /** The request of a turn is the user's message numbered 1. */
  predicate IsRequest(rows: Rows, t: TurnId, m: MsgId) {
    Takes(rows, m, t, 1) && rows[m].role.User?
  }

  /** Its answer is the assistant's message numbered 2. */
  predicate IsAnswer(rows: Rows, t: TurnId, m: MsgId) {
    Takes(rows, m, t, 2) && rows[m].role.Assistant?
  }

  function Put(rows: Rows, m: MsgId, p: Place): Rows
    requires m in rows
  {
    rows[m := rows[m].(place := Some(p))]
  }

  function PutIf(rows: Rows, m: Option<MsgId>, s: SessionId, p: Place): Rows {
    if m.Some? && InSession(rows, m.value, s) then Put(rows, m.value, p) else rows
  }

  function Opened(rows: Rows, t: TurnId, s: SessionId, at: int, request: Option<MsgId>, assistant: Option<MsgId>): Rows {
    PutIf(PutIf(rows, request, s, Place(t, at, 1, Visible)), assistant, s, Place(t, at, 2, Visible))
  }

  predicate CanOpen(rows: Rows, s: SessionId, request: Option<MsgId>, assistant: Option<MsgId>) {
    (request.Some? && InSession(rows, request.value, s)) || (assistant.Some? && InSession(rows, assistant.value, s))
  }

  /** The request is in a visible turn without a visible answer. */
  predicate CanBind(rows: Rows, s: SessionId, request: MsgId) {
    && InSession(rows, request, s) && rows[request].place.Some? && rows[request].place.value.mark.Visible?
    && forall m :: m in rows && IsAnswer(rows, rows[request].place.value.turn, m) ==> !rows[m].place.value.mark.Visible?
  }

  function BoundPlace(rows: Rows, request: MsgId): Place
    requires request in rows && rows[request].place.Some?
  {
    rows[request].place.value.(number := 2, mark := Visible)
  }

  /** The place next to message `e`: visible if any message there is. */
  function LinkPlace(rows: Rows, e: MsgId, n: int): Place
    requires e in rows && rows[e].place.Some?
  {
    var p := rows[e].place.value;
    Place(p.turn, p.position, n,
      if exists k :: k in rows && In(rows, k, p.turn) && rows[k].session == rows[e].session
           && rows[k].place.value.position == p.position && rows[k].place.value.mark.Visible?
      then Visible else Hidden)
  }

  function Remarked(row: Row, mark: Mark): Row
    requires row.place.Some?
  {
    row.(place := Some(row.place.value.(mark := mark)))
  }

  /** The rows differ in no more than their mark. */
  predicate SamePlace(a: Row, b: Row) {
    && a.session == b.session && a.role == b.role && a.place.Some? == b.place.Some?
    && (a.place.Some? ==> a.place.value == b.place.value.(mark := a.place.value.mark))
  }

  predicate CanSupersede(rows: Rows, m: MsgId, t: TurnId, s: SessionId) {
    In(rows, m, t) && rows[m].session == s && !rows[m].place.value.mark.Superseded?
  }

  function SupersededRows(rows: Rows, t: TurnId, s: SessionId, mark: Mark): Rows {
    map m | m in rows :: if CanSupersede(rows, m, t, s) then Remarked(rows[m], mark) else rows[m]
  }

  function HiddenRows(rows: Rows, t: TurnId): Rows {
    map m | m in rows ::
      if In(rows, m, t) && rows[m].place.value.mark.Visible? then Remarked(rows[m], Hidden) else rows[m]
  }

  /** Messages keep their session and their role. */
  ghost predicate SameMessages(a: Rows, b: Rows) {
    a.Keys == b.Keys && forall m :: m in a ==> a[m].session == b[m].session && a[m].role == b[m].role
  }

  /** The history tables of one bot.  A statement that finds nothing to change or would
      break the unique index fails and changes nothing; any may fail, but while
      `healthy` no other does. */
  class History {
    const healthy: bool
    var rows: Rows                      // messages
    var next: map<SessionId, int>       // each session's next turn position
    var nextTurn: TurnId                // turn ids from here on are fresh

    constructor (rows: Rows, next: map<SessionId, int>, nextTurn: TurnId, healthy: bool)
      requires Unique(rows) && forall m :: m in rows && rows[m].place.Some? ==> rows[m].place.value.turn < nextTurn
      ensures this.rows == rows && this.next == next && this.nextTurn == nextTurn && this.healthy == healthy && Valid()
    {
      this.rows, this.next, this.nextTurn, this.healthy := rows, next, nextTurn, healthy;
    }

    ghost predicate Valid()
      reads this
    {
      Unique(rows) && forall m :: m in rows && rows[m].place.Some? ==> rows[m].place.value.turn < nextTurn
    }

    method Works() returns (ok: bool)
      ensures healthy ==> ok
    {
      var lucky: bool := *;
      ok := healthy || lucky;
    }

    /** A new turn at the session's next position.  The request becomes its first
        message, the assistant message its second. */
    method CreateTurn(s: SessionId, request: Option<MsgId>, assistant: Option<MsgId>) returns (r: Option<TurnId>)
      requires Valid()
      modifies this
      ensures Valid() && SameMessages(old(rows), rows)
      ensures r.None? ==> rows == old(rows) && next == old(next)
      ensures healthy ==> (r.Some? <==> s in old(next) && CanOpen(old(rows), s, request, assistant))
      ensures r.Some? ==>
        && s in old(next) && CanOpen(old(rows), s, request, assistant)
        && (forall m :: !In(old(rows), m, r.value))
        && next == old(next)[s := old(next)[s] + 1]
        && rows == Opened(old(rows), r.value, s, old(next)[s], request, assistant)
    {
      var ok := Works();
      if !ok || s !in next || !CanOpen(rows, s, request, assistant) {
        return None;
      }
      hide Unique, Clash;
      var t, at := nextTurn, next[s];
      OpenedFresh(rows, t, s, at, request, assistant);
      nextTurn := nextTurn + 1;
      next := next[s := at + 1];
      rows := Opened(rows, t, s, at, request, assistant);
      r := Some(t);
    }

    /** A turn at a given position, under an id chosen before. */
    method CreateTurnAt(t: TurnId, s: SessionId, at: int, request: Option<MsgId>, assistant: Option<MsgId>) returns (ok: bool)
      requires Valid()
      modifies `rows, `nextTurn
      ensures Valid() && SameMessages(old(rows), rows) && nextTurn >= old(nextTurn)
      ensures !ok ==> rows == old(rows)
      ensures ok ==> rows == Opened(old(rows), t, s, at, request, assistant)
      ensures ok ==> CanOpen(old(rows), s, request, assistant)
      ensures healthy ==>
        (ok <==> CanOpen(old(rows), s, request, assistant) && Unique(Opened(old(rows), t, s, at, request, assistant)))
    {
      ok := Works();
      ok := ok && CanOpen(rows, s, request, assistant) && Unique(Opened(rows, t, s, at, request, assistant));
      if ok {
        rows := Opened(rows, t, s, at, request, assistant);
        nextTurn := if t < nextTurn then nextTurn else t + 1;
      }
    }

    /** Makes an assistant message the answer of the turn its request is in. */
    method BindAssistant(s: SessionId, request: MsgId, assistant: MsgId) returns (ok: bool)
      requires Valid()
      modifies `rows
      ensures Valid() && SameMessages(old(rows), rows)
      ensures !ok ==> rows == old(rows)
      ensures ok ==>
        && CanBind(old(rows), s, request) && InSession(old(rows), assistant, s)
        && rows == Put(old(rows), assistant, BoundPlace(old(rows), request))
      ensures healthy ==>
        (ok <==> CanBind(old(rows), s, request) && InSession(old(rows), assistant, s)
                 && Unique(Put(old(rows), assistant, BoundPlace(old(rows), request))))
    {
      ok := Works();
      ok := ok && CanBind(rows, s, request) && InSession(rows, assistant, s)
        && Unique(Put(rows, assistant, BoundPlace(rows, request)));
      if ok {
        rows := Put(rows, assistant, BoundPlace(rows, request));
      }
    }

    /** Puts a message into the turn of others, next to one of them. */
    method Link(t: TurnId, m: MsgId, n: int) returns (ok: bool, ghost e: MsgId)
      requires Valid()
      modifies `rows
      ensures Valid() && SameMessages(old(rows), rows)
      ensures !ok ==> rows == old(rows)
      ensures ok ==>
        && In(old(rows), e, t) && InSession(old(rows), m, old(rows)[e].session)
        && rows == Put(old(rows), m, LinkPlace(old(rows), e, n))
      ensures healthy && !ok && (exists k :: In(old(rows), k, t)) ==>
        && In(old(rows), e, t)
        && (InSession(old(rows), m, old(rows)[e].session) ==> !Unique(Put(old(rows), m, LinkPlace(old(rows), e, n))))
    {
      e := 0;
      ok := Works();
      if !ok || !exists k :: k in rows && In(rows, k, t) {
        return false, e;
      }
      var x :| x in rows && In(rows, x, t);
      e := x;
      ok := InSession(rows, m, rows[x].session) && Unique(Put(rows, m, LinkPlace(rows, x, n)));
      if ok {
        rows := Put(rows, m, LinkPlace(rows, x, n));
      }
    }

    method Supersede(t: TurnId, s: SessionId, mark: Mark) returns (ok: bool)
      requires Valid() && mark.Superseded?
      modifies `rows
      ensures Valid() && SameMessages(old(rows), rows)
      ensures rows == if ok then SupersededRows(old(rows), t, s, mark) else old(rows)
      ensures healthy ==> (ok <==> exists m :: m in old(rows) && CanSupersede(old(rows), m, t, s))
    {
      ok := Works();
      ok := ok && exists m :: m in rows && CanSupersede(rows, m, t, s);
      if ok {
        MarksKeepIndex(rows, SupersededRows(rows, t, s, mark));
        rows := SupersededRows(rows, t, s, mark);
      }
    }

    method Hide(t: TurnId) returns (ok: bool)
      requires Valid()
      modifies `rows
      ensures Valid() && SameMessages(old(rows), rows)
      ensures rows == if ok then HiddenRows(old(rows), t) else old(rows)
      ensures healthy ==> ok
    {
      ok := Works();
      if ok {
        MarksKeepIndex(rows, HiddenRows(rows, t));
        rows := HiddenRows(rows, t);
      }
    }

    method SetNext(s: SessionId, at: int) returns (ok: bool)
      modifies `next
      ensures next == if ok then old(next)[s := at] else old(next)
      ensures healthy ==> ok
    {
      ok := Works();
      if ok {
        next := next[s := at];
      }
    }
  }

  /** Marks are not part of the index. */
  lemma MarksKeepIndex(a: Rows, b: Rows)
    requires a.Keys == b.Keys && Unique(a)
    requires forall m :: m in a ==> SamePlace(a[m], b[m])
    ensures Unique(b)
  {
    forall m, k | m in b && k in b && Clash(b, m, k) ensures m == k {
      assert SamePlace(a[m], b[m]) && SamePlace(a[k], b[k]) && Clash(a, m, k);
    }
  }

  /** A turn opened under a fresh id. */
  lemma OpenedFresh(rows: Rows, t: TurnId, s: SessionId, at: int, request: Option<MsgId>, assistant: Option<MsgId>)
    requires Unique(rows) && forall m :: !In(rows, m, t)
    ensures Unique(Opened(rows, t, s, at, request, assistant))
  {
    var after := Opened(rows, t, s, at, request, assistant);
    forall a, b | a in after && b in after && Clash(after, a, b) ensures a == b {
      if In(after, a, t) {
        assert In(after, b, t) && !In(rows, a, t) && !In(rows, b, t);
      } else {
        assert !In(after, b, t) && after[a] == rows[a] && after[b] == rows[b];
        assert Clash(rows, a, b);
      }
    }
  }

  // ---------------------------------------------------------------------------
  // Splitting a session at its user messages

  /** A restored message; the caller may have lost its id or its session. */
  datatype Message = Message(id: Option<MsgId>, session: Option<SessionId>, role: Role)

  datatype Item = Item(id: MsgId, role: Role)

  function Items(messages: seq<Message>, s: SessionId): seq<Item> {
    if messages == [] then [] else
    var m := messages[|messages| - 1];
    Items(messages[..|messages| - 1], s)
      + if m.id.Some? && m.session == Some(s) then [Item(m.id.value, m.role)] else []
  }

  /** The groups with one more message: a user message opens a group, any other joins
      the last one. */
  function Grown(g: seq<seq<Item>>, x: Item): seq<seq<Item>> {
    if g == [] || x.role.User? then g + [[x]] else g[..|g| - 1] + [g[|g| - 1] + [x]]
  }

  /** One group for each user message, preceded by one for what comes before the
      first. */
  function Split(items: seq<Item>): (groups: seq<seq<Item>>)
    ensures forall p :: 0 <= p < |groups| ==> groups[p] != []
  {
    if items == [] then [] else Grown(Split(items[..|items| - 1]), items[|items| - 1])
  }

  function Flatten(groups: seq<seq<Item>>): seq<Item> {
    if groups == [] then [] else Flatten(groups[..|groups| - 1]) + groups[|groups| - 1]
  }

  lemma GrownFlattens(g: seq<seq<Item>>, x: Item)
    ensures Flatten(Grown(g, x)) == Flatten(g) + [x]
  {
    var h := Grown(g, x);
    if g == [] || x.role.User? {
      assert h[..|h| - 1] == g;
    } else {
      assert h[..|h| - 1] == g[..|g| - 1];
      assert Flatten(h) == Flatten(g[..|g| - 1]) + (g[|g| - 1] + [x]);
    }
  }

  /** The groups are the session, in order. */
  lemma {:induction false} SplitKeepsAll(items: seq<Item>)
    ensures Flatten(Split(items)) == items
  {
    if items != [] {
      var init, x := items[..|items| - 1], items[|items| - 1];
      SplitKeepsAll(init);
      GrownFlattens(Split(init), x);
      assert items == init + [x];
    }
  }

  /** After its first message a group holds no user message; only the leading group
      may begin with another one. */
  predicate WellFormed(g: seq<Item>, leading: bool) {
    && g != [] && (!leading ==> g[0].role.User?)
    && forall k :: 0 < k < |g| ==> !g[k].role.User?
  }

  predicate AllWellFormed(g: seq<seq<Item>>) {
    forall p :: 0 <= p < |g| ==> WellFormed(g[p], p == 0)
  }

  lemma GrownWellFormed(g: seq<seq<Item>>, x: Item)
    requires AllWellFormed(g)
    ensures AllWellFormed(Grown(g, x))
  {
    var h := Grown(g, x);
    forall p | 0 <= p < |h| ensures WellFormed(h[p], p == 0) {
      if p < |g| { assert WellFormed(g[p], p == 0); }
    }
  }

  lemma {:induction false} SplitOpensAtUsers(items: seq<Item>)
    ensures AllWellFormed(Split(items))
  {
    hide Grown, WellFormed;
    if items != [] {
      SplitOpensAtUsers(items[..|items| - 1]);
      GrownWellFormed(Split(items[..|items| - 1]), items[|items| - 1]);
    }
  }

  /** The number of a group's first message. */
  function First(g: seq<Item>): int
    requires g != []
  {
    if g[0].role.User? then 1 else 2
  }

  function RequestOf(g: seq<Item>): Option<MsgId>
    requires g != []
  {
    if g[0].role.User? then Some(g[0].id) else None
  }

  /** The message numbered 2, if the assistant wrote it. */
  function AnswerOf(g: seq<Item>): Option<MsgId>
    requires g != []
  {
    var k := 2 - First(g);
    if k < |g| && g[k].role.Assistant? then Some(g[k].id) else None
  }

  function FirstAssistant(g: seq<Item>): Option<MsgId> {
    if g == [] then None else
    var a := FirstAssistant(g[..|g| - 1]);
    if a.None? && g[|g| - 1].role.Assistant? then Some(g[|g| - 1].id) else a
  }

  /** Nothing comes between the user's request and the first message of the
      assistant. */
  predicate AnsweredAtOnce(g: seq<Item>)
    requires g != []
  {
    g[0].role.User? && (exists k :: 0 < k < |g| && g[k].role.Assistant?) ==> g[1].role.Assistant?
  }

  lemma {:induction false} FirstAssistantIsFirst(g: seq<Item>, k: nat)
    requires k < |g| && g[k].role.Assistant? && forall j :: 0 <= j < k ==> !g[j].role.Assistant?
    ensures FirstAssistant(g) == Some(g[k].id)
  {
    if k < |g| - 1 {
      FirstAssistantIsFirst(g[..|g| - 1], k);
    } else {
      NoAssistant(g[..k]);
    }
  }

  lemma {:induction false} NoAssistant(g: seq<Item>)
    ensures FirstAssistant(g).None? <==> forall j :: 0 <= j < |g| ==> !g[j].role.Assistant?
  {
    if g != [] {
      NoAssistant(g[..|g| - 1]);
      assert forall j :: 0 <= j < |g| - 1 ==> g[..|g| - 1][j] == g[j];
    }
  }

  /** In a group that a user opens, the first message of the assistant is the answer
      exactly if it comes at once. */
  lemma FirstAssistantAnswers(g: seq<Item>)
    requires WellFormed(g, false)
    ensures AnswerOf(g) == FirstAssistant(g) || (AnswerOf(g).None? && FirstAssistant(g).Some?)
    ensures AnswerOf(g) == FirstAssistant(g) <==> AnsweredAtOnce(g)
  {
    NoAssistant(g);
    if |g| > 1 && g[1].role.Assistant? {
      FirstAssistantIsFirst(g, 1);
    }
  }

  lemma SplitJoins(items: seq<Item>, g: seq<Item>, x: Item)
    requires Split(items) == [g] && !x.role.User?
    ensures Split(items + [x]) == [g + [x]]
  {
    assert (items + [x])[..|items|] == items;
    assert [g][..0] == [];
  }

  lemma SplitOne(x: Item)
    ensures Split([x]) == [[x]]
  {
    assert [x][..0] == [];
  }

  /** A user, a tool and the assistant: the answer comes third. */
  lemma LateAnswer(items: seq<Item>)
    requires items == [Item(1, User), Item(2, Other), Item(3, Assistant)]
    ensures Split(items) == [items] && !AnsweredAtOnce(items)
    ensures AnswerOf(items) == None && FirstAssistant(items) == Some(3)
  {
    hide Split, FirstAssistant;
    var one := [Item(1, User)];
    SplitOne(Item(1, User));
    SplitJoins(one, one, Item(2, Other));
    SplitJoins(one + [Item(2, Other)], one + [Item(2, Other)], Item(3, Assistant));
    assert items == one + [Item(2, Other)] + [Item(3, Assistant)];
    assert items[2].role.Assistant?;
    FirstAssistantIsFirst(items, 2);
  }

  /** Turn `t` holds the messages of group `g`, numbered without gaps, and no others. */
  ghost predicate GroupHeld(rows: Rows, s: SessionId, position: int, g: seq<Item>, t: TurnId)
    requires g != []
  {
    && (forall k :: 0 <= k < |g| ==> HeldAt(rows, g[k].id, s, Place(t, position, First(g) + k, Visible)))
    && forall m :: In(rows, m, t) ==> exists k :: 0 <= k < |g| && g[k].id == m
  }

  /** What the turn of a group was asked and answered follows from its messages. */
  lemma HeldTurnReads(rows: Rows, s: SessionId, position: int, g: seq<Item>, t: TurnId, m: MsgId)
    requires g != [] && GroupHeld(rows, s, position, g, t) && (forall k :: 0 < k < |g| ==> !g[k].role.User?)
    requires forall k :: 0 <= k < |g| ==> rows[g[k].id].role == g[k].role
    ensures IsRequest(rows, t, m) <==> RequestOf(g) == Some(m)
    ensures IsAnswer(rows, t, m) <==> AnswerOf(g) == Some(m)
  {
    if In(rows, m, t) {
      var k :| 0 <= k < |g| && g[k].id == m;
      assert HeldAt(rows, g[k].id, s, Place(t, position, First(g) + k, Visible));
    }
    assert HeldAt(rows, g[0].id, s, Place(t, position, First(g), Visible));
    var k := 2 - First(g);
    if k < |g| { assert HeldAt(rows, g[k].id, s, Place(t, position, First(g) + k, Visible)); }
  }

  /** The turns `ts` hold the groups of a session, from position `base` on. */
  ghost predicate SessionHeld(rows: Rows, s: SessionId, base: int, groups: seq<seq<Item>>, ts: seq<TurnId>)
    requires forall p :: 0 <= p < |groups| ==> groups[p] != []
  {
    && |ts| == |groups|
    && forall p :: 0 <= p < |groups| ==> GroupHeld(rows, s, base + p, groups[p], ts[p])
  }
}
