/** Restoring the turns an archive recorded with its messages. */
module TurnRestore {
  import opened Options
  import opened Turns
  import opened TurnRebuild

  type OldTurn = nat
  type OldId = nat

  /** A message row of the archive; every reference may be missing. */
  datatype Archived = Archived(
    id: Option<OldId>,
    session: Option<OldId>,
    turn: Option<OldTurn>,
    position: Option<int>,
    number: Option<int>,
    role: Role,
    visible: bool,
    supersededAt: Option<int>,
    supersededBy: Option<OldTurn>,
    reason: string)

  /** The ids under which sessions and messages were recreated. */
  datatype IdMaps = IdMaps(sessions: map<OldId, SessionId>, messages: map<OldId, MsgId>)

  /** The message was in a turn, at a place, and was recreated with its session. */
  predicate Qualifies(m: Archived, ids: IdMaps) {
    && m.id.Some? && m.session.Some? && m.turn.Some?
    && m.position.Some? && 0 < m.position.value && m.number.Some? && 0 < m.number.value
    && m.session.value in ids.sessions && m.id.value in ids.messages
  }

  function NewMsg(m: Archived, ids: IdMaps): MsgId
    requires Qualifies(m, ids)
  {
    ids.messages[m.id.value]
  }

  /** The messages of an old turn, in archive order. */
  function Members(messages: seq<Archived>, ids: IdMaps, t: OldTurn): (ms: seq<Archived>)
    ensures forall k :: 0 <= k < |ms| ==> Qualifies(ms[k], ids) && ms[k].turn == Some(t)
  {
    if messages == [] then [] else
    var m := messages[|messages| - 1];
    Members(messages[..|messages| - 1], ids, t)
      + if Qualifies(m, ids) && m.turn == Some(t) then [m] else []
  }

  datatype Line = Line(msg: MsgId, number: int)

  datatype Group = Group(
    newTurn: TurnId,
    session: SessionId,
    position: int,
    request: Option<MsgId>,
    assistant: Option<MsgId>,
    lines: seq<Line>,
    visible: bool,
    mark: Option<(int, Option<OldTurn>, string)>)

  predicate Asks(m: Archived) {
    m.number == Some(1) && m.role.User?
  }

  predicate Answers(m: Archived) {
    m.number == Some(2) && m.role.Assistant?
  }

  /** `x` is the new id of the first request among the messages, none if there is
      none. */
  ghost predicate FirstRequest(ms: seq<Archived>, ids: IdMaps, x: Option<MsgId>)
    requires forall k :: 0 <= k < |ms| ==> Qualifies(ms[k], ids)
  {
    if x.None? then forall k :: 0 <= k < |ms| ==> !Asks(ms[k])
    else exists k :: 0 <= k < |ms| && Asks(ms[k]) && NewMsg(ms[k], ids) == x.value && forall j :: 0 <= j < k ==> !Asks(ms[j])
  }

  ghost predicate FirstAnswer(ms: seq<Archived>, ids: IdMaps, x: Option<MsgId>)
    requires forall k :: 0 <= k < |ms| ==> Qualifies(ms[k], ids)
  {
    if x.None? then forall k :: 0 <= k < |ms| ==> !Answers(ms[k])
    else exists k :: 0 <= k < |ms| && Answers(ms[k]) && NewMsg(ms[k], ids) == x.value && forall j :: 0 <= j < k ==> !Answers(ms[j])
  }

  predicate Marks(m: Archived, mark: (int, Option<OldTurn>, string)) {
    m.supersededAt == Some(mark.0) && m.supersededBy == mark.1 && m.reason == mark.2
  }

  /** The mark is that of the latest supersession, the first of several at once. */
  ghost predicate LatestMark(ms: seq<Archived>, mark: Option<(int, Option<OldTurn>, string)>) {
    if mark.None? then forall k :: 0 <= k < |ms| ==> ms[k].supersededAt.None?
    else
      && (exists k :: 0 <= k < |ms| && Marks(ms[k], mark.value)
            && forall j :: 0 <= j < k && ms[j].supersededAt.Some? ==> ms[j].supersededAt.value < mark.value.0)
      && (forall k :: 0 <= k < |ms| && ms[k].supersededAt.Some? ==> ms[k].supersededAt.value <= mark.value.0)
  }

  /** The group says what its messages say together. */
  ghost predicate GroupFor(g: Group, ms: seq<Archived>, ids: IdMaps)
    requires forall k :: 0 <= k < |ms| ==> Qualifies(ms[k], ids)
  {
    && ms != [] && Qualifies(ms[0], ids)
    && g.session == ids.sessions[ms[0].session.value] && g.position == ms[0].position.value
    && |g.lines| == |ms|
    && (forall k :: 0 <= k < |ms| ==> g.lines[k] == Line(NewMsg(ms[k], ids), ms[k].number.value))
    && (g.visible <==> exists k :: 0 <= k < |ms| && ms[k].visible)
    && FirstRequest(ms, ids, g.request) && FirstAnswer(ms, ids, g.assistant)
    && LatestMark(ms, g.mark)
  }

  /** The group after one more message. */
  function Extended(g: Group, m: Archived, ids: IdMaps): Group
    requires Qualifies(m, ids)
  {
    var id := NewMsg(m, ids);
    g.(visible := g.visible || m.visible,
       request := if Asks(m) && g.request.None? then Some(id) else g.request,
       assistant := if !(Asks(m) && g.request.None?) && Answers(m) && g.assistant.None? then Some(id) else g.assistant,
       mark := if m.supersededAt.Some? && (g.mark.None? || m.supersededAt.value > g.mark.value.0)
               then Some((m.supersededAt.value, m.supersededBy, m.reason)) else g.mark,
       lines := g.lines + [Line(id, m.number.value)])
  }

  lemma FirstRequestExtends(ms: seq<Archived>, m: Archived, ids: IdMaps, x: Option<MsgId>)
    requires Qualifies(m, ids) && forall k :: 0 <= k < |ms| ==> Qualifies(ms[k], ids)
    requires FirstRequest(ms, ids, x)
    ensures FirstRequest(ms + [m], ids, if Asks(m) && x.None? then Some(NewMsg(m, ids)) else x)
  {
    var all := ms + [m];
    if x.Some? {
      var k :| 0 <= k < |ms| && Asks(ms[k]) && NewMsg(ms[k], ids) == x.value && forall j :: 0 <= j < k ==> !Asks(ms[j]);
      assert all[k] == ms[k];
    } else if Asks(m) {
      assert all[|ms|] == m;
    }
  }

  lemma FirstAnswerExtends(ms: seq<Archived>, m: Archived, ids: IdMaps, x: Option<MsgId>)
    requires Qualifies(m, ids) && forall k :: 0 <= k < |ms| ==> Qualifies(ms[k], ids)
    requires FirstAnswer(ms, ids, x)
    ensures FirstAnswer(ms + [m], ids, if Answers(m) && x.None? then Some(NewMsg(m, ids)) else x)
  {
    var all := ms + [m];
    if x.Some? {
      var k :| 0 <= k < |ms| && Answers(ms[k]) && NewMsg(ms[k], ids) == x.value && forall j :: 0 <= j < k ==> !Answers(ms[j]);
      assert all[k] == ms[k];
    } else if Answers(m) {
      assert all[|ms|] == m;
    }
  }

  lemma MarkExtends(ms: seq<Archived>, m: Archived, mark: Option<(int, Option<OldTurn>, string)>)
    requires LatestMark(ms, mark)
    ensures LatestMark(ms + [m], if m.supersededAt.Some? && (mark.None? || m.supersededAt.value > mark.value.0)
                                 then Some((m.supersededAt.value, m.supersededBy, m.reason)) else mark)
  {
    var all := ms + [m];
    if m.supersededAt.Some? && (mark.None? || m.supersededAt.value > mark.value.0) {
      assert all[|ms|] == m;
    } else if mark.Some? {
      var k :| 0 <= k < |ms| && Marks(ms[k], mark.value)
        && forall j :: 0 <= j < k && ms[j].supersededAt.Some? ==> ms[j].supersededAt.value < mark.value.0;
      assert all[k] == ms[k];
    }
  }

  lemma GroupExtends(g: Group, ms: seq<Archived>, m: Archived, ids: IdMaps)
    requires Qualifies(m, ids) && forall k :: 0 <= k < |ms| ==> Qualifies(ms[k], ids)
    requires GroupFor(g, ms, ids)
    ensures GroupFor(Extended(g, m, ids), ms + [m], ids)
  {
    FirstRequestExtends(ms, m, ids, g.request);
    FirstAnswerExtends(ms, m, ids, g.assistant);
    MarkExtends(ms, m, g.mark);
    var all := ms + [m];
    if g.visible {
      var k :| 0 <= k < |ms| && ms[k].visible;
      assert all[k].visible;
    }
    if m.visible { assert all[|ms|].visible; }
  }

  /** A new group for the first message of an old turn. */
  function Started(newTurn: TurnId, m: Archived, ids: IdMaps): Group
    requires Qualifies(m, ids)
  {
    Extended(Group(newTurn, ids.sessions[m.session.value], m.position.value, None, None, [], false, None), m, ids)
  }

  lemma StartedFor(newTurn: TurnId, m: Archived, ids: IdMaps)
    requires Qualifies(m, ids)
    ensures GroupFor(Started(newTurn, m, ids), [m], ids)
  {
    var ms, g := [m], Started(newTurn, m, ids);
    FirstOfOne(m, ids);
    assert g.lines == [Line(NewMsg(m, ids), m.number.value)];
    assert g.visible <==> ms[0].visible;
    assert g.request == (if Asks(m) then Some(NewMsg(m, ids)) else None);
    assert g.assistant == (if Answers(m) then Some(NewMsg(m, ids)) else None);
  }

  lemma FirstOfOne(m: Archived, ids: IdMaps)
    requires Qualifies(m, ids)
    ensures FirstRequest([m], ids, if Asks(m) then Some(NewMsg(m, ids)) else None)
    ensures FirstAnswer([m], ids, if Answers(m) then Some(NewMsg(m, ids)) else None)
    ensures LatestMark([m], if m.supersededAt.Some? then Some((m.supersededAt.value, m.supersededBy, m.reason)) else None)
  {
    var none: seq<Archived> := [];
    FirstRequestExtends(none, m, ids, None);
    FirstAnswerExtends(none, m, ids, None);
    MarkExtends(none, m, None);
    assert none + [m] == [m];
  }

  // ---------------------------------------------------------------------------
  // Grouping

  type GroupMap = map<OldTurn, Group>

  predicate DistinctMessages(messages: seq<Archived>, ids: IdMaps) {
    forall i, j :: 0 <= i < j < |messages| && Qualifies(messages[i], ids) && Qualifies(messages[j], ids) ==>
      NewMsg(messages[i], ids) != NewMsg(messages[j], ids)
  }

  /** No two groups share a turn, no two lines a message. */
  ghost predicate Separate(groups: GroupMap) {
    && (forall t, u :: t in groups && u in groups && groups[t].newTurn == groups[u].newTurn ==> t == u)
    && (forall t, u, j, k ::
          t in groups && u in groups && 0 <= j < |groups[t].lines| && 0 <= k < |groups[u].lines|
          && groups[t].lines[j].msg == groups[u].lines[k].msg ==>
            t == u && j == k)
  }

  /** Every line's message is one of `used`. */
  ghost predicate Within(groups: GroupMap, used: set<MsgId>) {
    forall t, k :: t in groups && 0 <= k < |groups[t].lines| ==> groups[t].lines[k].msg in used
  }

  ghost predicate Grouped(groups: GroupMap, messages: seq<Archived>, ids: IdMaps) {
    forall t: OldTurn ::
      && (t in groups <==> Members(messages, ids, t) != [])
      && (t in groups ==> GroupFor(groups[t], Members(messages, ids, t), ids))
  }

  lemma NextMembers(messages: seq<Archived>, n: nat, ids: IdMaps, t: OldTurn)
    requires n < |messages|
    ensures var m, ms := messages[n], Members(messages[..n], ids, t);
      Members(messages[..n + 1], ids, t) == if Qualifies(m, ids) && m.turn == Some(t) then ms + [m] else ms
  {
    assert messages[..n + 1][..n] == messages[..n];
  }

  lemma GroupedNext(groups: GroupMap, after: GroupMap, messages: seq<Archived>, n: nat, ids: IdMaps, fresh_: TurnId)
    requires n < |messages| && Grouped(groups, messages[..n], ids)
    requires var m := messages[n];
      after == if !Qualifies(m, ids) then groups
               else if m.turn.value in groups then groups[m.turn.value := Extended(groups[m.turn.value], m, ids)]
               else groups[m.turn.value := Started(fresh_, m, ids)]
    ensures Grouped(after, messages[..n + 1], ids)
  {
    var m, upto, more := messages[n], messages[..n], messages[..n + 1];
    forall t: OldTurn
      ensures t in after <==> Members(more, ids, t) != []
      ensures t in after ==> GroupFor(after[t], Members(more, ids, t), ids)
    {
      NextMembers(messages, n, ids, t);
      if Qualifies(m, ids) && m.turn == Some(t) {
        if t in groups {
          GroupExtends(groups[t], Members(upto, ids, t), m, ids);
        } else {
          StartedFor(fresh_, m, ids);
          assert Members(upto, ids, t) + [m] == [m];
        }
      }
    }
  }

  lemma SeparateNext(groups: GroupMap, used: set<MsgId>, t: OldTurn, g: Group, id: MsgId, number: int)
    requires Separate(groups) && Within(groups, used) && id !in used
    requires if t in groups then g.newTurn == groups[t].newTurn && g.lines == groups[t].lines + [Line(id, number)]
             else g.lines == [Line(id, number)] && forall u :: u in groups ==> groups[u].newTurn != g.newTurn
    ensures Separate(groups[t := g]) && Within(groups[t := g], used + {id})
  {
  }

  /** Collects the messages of each old turn and chooses the new turn's id. */
  method GroupByTurn(messages: seq<Archived>, ids: IdMaps, first: TurnId) returns (groups: GroupMap)
    requires DistinctMessages(messages, ids)
    ensures Grouped(groups, messages, ids) && Separate(groups)
    ensures forall t :: t in groups ==> groups[t].newTurn >= first
  {
    hide Separate, Within, Grouped;
    groups := map[];
    var nextTurn := first;
    ghost var used: set<MsgId> := {};
    NoGroups(ids);
    for n := 0 to |messages|
      invariant Grouped(groups, messages[..n], ids) && Separate(groups) && Within(groups, used)
      invariant nextTurn >= first && forall t :: t in groups ==> first <= groups[t].newTurn < nextTurn
      invariant forall id :: id in used ==> exists i :: 0 <= i < n && Qualifies(messages[i], ids) && NewMsg(messages[i], ids) == id
    {
      var m := messages[n];
      ghost var before := groups;
      if Qualifies(m, ids) {
        var t := m.turn.value;
        assert NewMsg(m, ids) !in used;
        var g := if t in groups then Extended(groups[t], m, ids) else Started(nextTurn, m, ids);
        assert t !in groups ==> g.lines == [Line(NewMsg(m, ids), m.number.value)];
        SeparateNext(groups, used, t, g, NewMsg(m, ids), m.number.value);
        GroupedNext(groups, groups[t := g], messages, n, ids, nextTurn);
        groups := groups[t := g];
        used := used + {NewMsg(m, ids)};
        nextTurn := nextTurn + 1;
      } else {
        GroupedNext(groups, groups, messages, n, ids, nextTurn);
      }
    }
    assert messages[..|messages|] == messages;
  }

  lemma NoGroups(ids: IdMaps)
    ensures Separate(map[]) && Within(map[], {})
    ensures forall messages: seq<Archived> :: messages == [] ==> Grouped(map[], messages, ids)
  {
  }

  // ---------------------------------------------------------------------------
  // Writing the turns

  /** A turn that nothing opens and nothing answers is bound to its first message. */
  function Bound(g: Group): Group {
    if g.request.None? && g.assistant.None? && |g.lines| > 0 then g.(assistant := Some(g.lines[0].msg)) else g
  }

  ghost predicate HasLine(g: Group, m: MsgId) {
    exists k :: 0 <= k < |g.lines| && g.lines[k].msg == m
  }

  /** Who opens and who answers a group are among its messages, as the first and the
      second. */
  predicate OwnMessages(g: Group) {
    && g.lines != []
    && (g.request.Some? ==> Line(g.request.value, 1) in g.lines)
    && (g.assistant.Some? ==> Line(g.assistant.value, 2) in g.lines)
  }

  lemma GroupsOwnTheirMessages(g: Group, ms: seq<Archived>, ids: IdMaps)
    requires forall k :: 0 <= k < |ms| ==> Qualifies(ms[k], ids)
    requires GroupFor(g, ms, ids)
    ensures OwnMessages(g)
  {
    if g.request.Some? {
      var k :| 0 <= k < |ms| && Asks(ms[k]) && NewMsg(ms[k], ids) == g.request.value && forall j :: 0 <= j < k ==> !Asks(ms[j]);
      assert g.lines[k] == Line(g.request.value, 1);
    }
    if g.assistant.Some? {
      var k :| 0 <= k < |ms| && Answers(ms[k]) && NewMsg(ms[k], ids) == g.assistant.value && forall j :: 0 <= j < k ==> !Answers(ms[j]);
      assert g.lines[k] == Line(g.assistant.value, 2);
    }
  }

  predicate DistinctLines(lines: seq<Line>) {
    forall j, k :: 0 <= j < |lines| && 0 <= k < |lines| && lines[j].msg == lines[k].msg ==> j == k
  }

  predicate Sorted(lines: seq<Line>) {
    forall j, k :: 0 <= j < k < |lines| ==> lines[j].number <= lines[k].number
  }

  function Insert(l: Line, lines: seq<Line>): seq<Line> {
    if lines == [] || l.number <= lines[0].number then [l] + lines else [lines[0]] + Insert(l, lines[1..])
  }

  /** The lines by their numbers. */
  function SortLines(lines: seq<Line>): seq<Line> {
    if lines == [] then [] else Insert(lines[0], SortLines(lines[1..]))
  }

  lemma {:induction false} InsertKeeps(l: Line, lines: seq<Line>)
    requires Sorted(lines) && DistinctLines(lines) && forall x :: x in lines ==> x.msg != l.msg
    ensures Sorted(Insert(l, lines)) && DistinctLines(Insert(l, lines)) && |Insert(l, lines)| == |lines| + 1
    ensures forall x :: x in Insert(l, lines) <==> x == l || x in lines
  {
    if lines != [] && l.number > lines[0].number {
      var rest := lines[1..];
      InsertKeeps(l, rest);
      var more := Insert(l, rest);
      forall k | 0 <= k < |more| ensures lines[0].number <= more[k].number && lines[0].msg != more[k].msg {
        assert more[k] in more;
        if more[k] in rest { var j :| 0 <= j < |rest| && rest[j] == more[k]; assert lines[j + 1] == rest[j]; }
      }
      assert lines == [lines[0]] + rest;
    }
  }

  lemma {:induction false} SortKeeps(lines: seq<Line>)
    requires DistinctLines(lines)
    ensures Sorted(SortLines(lines)) && DistinctLines(SortLines(lines)) && |SortLines(lines)| == |lines|
    ensures forall x :: x in SortLines(lines) <==> x in lines
  {
    if lines != [] {
      var rest := lines[1..];
      assert forall j, k :: 0 <= j < |rest| && 0 <= k < |rest| && rest[j].msg == rest[k].msg ==>
        lines[j + 1].msg == lines[k + 1].msg;
      SortKeeps(rest);
      forall x | x in rest ensures x.msg != lines[0].msg {
        var j :| 0 <= j < |rest| && rest[j] == x;
        assert lines[j + 1] == x;
      }
      assert forall x :: x in SortLines(rest) ==> x in rest;
      InsertKeeps(lines[0], SortLines(rest));
      assert lines == [lines[0]] + rest;
    }
  }

  /** The turn stands as archived: its messages at their numbers, all under one mark,
      and no others. */
  ghost predicate Standing(rows: Rows, g: Group, mark: Mark) {
    && (forall l :: l in g.lines ==> HeldAt(rows, l.msg, g.session, Place(g.newTurn, g.position, l.number, mark)))
    && forall m :: In(rows, m, g.newTurn) ==> HasLine(g, m)
  }

  /** Only the group's own messages differ. */
  ghost predicate OnlyOf(g: Group, rows: Rows, after: Rows) {
    rows.Keys == after.Keys && forall m :: m in rows && !HasLine(g, m) ==> after[m] == rows[m]
  }

  predicate DistinctNumbers(g: Group) {
    forall a, b :: a in g.lines && b in g.lines && a.number == b.number ==> a == b
  }

  /** The turn is bound to its first archived message, whose own number comes after 2,
      while another message has that number. */
  predicate Displaced(g: Group) {
    && g.request.None? && g.assistant.None? && g.lines != [] && g.lines[0].number > 2
    && exists l :: l in g.lines && l.number == 2
  }

  /** The messages are in the turn's session, at different numbers, and the second is
      not displaced. */
  predicate Writable(rows: Rows, g: Group) {
    (forall l :: l in g.lines ==> InSession(rows, l.msg, g.session)) && DistinctNumbers(g) && !Displaced(g)
  }

  /** Such a turn: of two tool messages numbered 3 and 2 the archive lists the third
      first. */
  lemma DisplacedTurn(rows: Rows, g: Group)
    requires g.request.None? && g.assistant.None? && g.lines == [Line(1, 3), Line(2, 2)]
    ensures Displaced(g) && !Writable(rows, g) && DistinctNumbers(g) && OwnMessages(g)
  {
    assert g.lines[1] in g.lines;
  }

  ghost predicate LinkedBefore(sorted: seq<Line>, n: nat, m: MsgId)
    requires n <= |sorted|
  {
    exists k :: 0 <= k < n && sorted[k].msg == m
  }

  function PlaceIn(g: Group, n: int): Place {
    Place(g.newTurn, g.position, n, Visible)
  }

  /** A turn being written: the first `n` lines are where they belong, whoever opened
      it is still where that put it, and nobody else is in it. */
  ghost predicate Linking(rows: Rows, g: Group, sorted: seq<Line>, n: nat)
    requires n <= |sorted|
  {
    && (forall k :: 0 <= k < n ==> HeldAt(rows, sorted[k].msg, g.session, PlaceIn(g, sorted[k].number)))
    && (g.request.Some? && InSession(rows, g.request.value, g.session) && !LinkedBefore(sorted, n, g.request.value) ==>
          HeldAt(rows, g.request.value, g.session, PlaceIn(g, 1)))
    && (g.assistant.Some? && InSession(rows, g.assistant.value, g.session) && !LinkedBefore(sorted, n, g.assistant.value) ==>
          HeldAt(rows, g.assistant.value, g.session, PlaceIn(g, 2)))
    && (exists m :: In(rows, m, g.newTurn))
    && (forall m: MsgId :: In(rows, m, g.newTurn) ==>
          && InSession(rows, m, g.session)
          && (LinkedBefore(sorted, n, m) || g.request == Some(m) || g.assistant == Some(m)))
  }

  lemma LinkingStarts(rows: Rows, g: Group, sorted: seq<Line>)
    requires forall m :: !In(rows, m, g.newTurn)
    requires g.request.None? || g.assistant.None? || g.request != g.assistant
    requires CanOpen(rows, g.session, g.request, g.assistant)
    ensures Linking(Opened(rows, g.newTurn, g.session, g.position, g.request, g.assistant), g, sorted, 0)
  {
    var after := Opened(rows, g.newTurn, g.session, g.position, g.request, g.assistant);
    forall m: MsgId | In(after, m, g.newTurn) ensures InSession(after, m, g.session) && (g.request == Some(m) || g.assistant == Some(m)) {
      assert !In(rows, m, g.newTurn);
    }
    if g.assistant.Some? && InSession(rows, g.assistant.value, g.session) {
      assert In(after, g.assistant.value, g.newTurn);
    } else {
      assert In(after, g.request.value, g.newTurn);
    }
  }

  /** Whoever is in a turn being written is visible, at its position, and at the number
      of its line or where opening the turn put it. */
  lemma LinkingMember(rows: Rows, g: Group, sorted: seq<Line>, n: nat, m: MsgId)
    requires n <= |sorted| && Linking(rows, g, sorted, n) && In(rows, m, g.newTurn)
    ensures InSession(rows, m, g.session) && rows[m].place.value == PlaceIn(g, rows[m].place.value.number)
    ensures LinkedBefore(sorted, n, m) ==> exists k :: 0 <= k < n && sorted[k] == Line(m, rows[m].place.value.number)
    ensures !LinkedBefore(sorted, n, m) ==>
      || (g.request == Some(m) && rows[m].place.value.number == 1)
      || (g.assistant == Some(m) && rows[m].place.value.number == 2)
  {
    if LinkedBefore(sorted, n, m) {
      var k :| 0 <= k < n && sorted[k].msg == m;
      assert HeldAt(rows, sorted[k].msg, g.session, PlaceIn(g, sorted[k].number));
      assert sorted[k] == Line(m, rows[m].place.value.number);
    }
  }

  lemma LinkingPlace(rows: Rows, g: Group, sorted: seq<Line>, n: nat, e: MsgId, number: int)
    requires n <= |sorted| && Linking(rows, g, sorted, n) && In(rows, e, g.newTurn)
    ensures rows[e].session == g.session && LinkPlace(rows, e, number) == PlaceIn(g, number)
  {
    LinkingMember(rows, g, sorted, n, e);
    assert In(rows, e, g.newTurn) && rows[e].place.value.mark.Visible?;
  }

  lemma LinkingStep(rows: Rows, g: Group, sorted: seq<Line>, n: nat, after: Rows)
    requires n < |sorted| && Linking(rows, g, sorted, n) && DistinctLines(sorted)
    requires InSession(rows, sorted[n].msg, g.session)
    requires after == Put(rows, sorted[n].msg, PlaceIn(g, sorted[n].number))
    ensures Linking(after, g, sorted, n + 1)
  {
    var x := sorted[n].msg;
    assert forall m :: LinkedBefore(sorted, n, m) ==> LinkedBefore(sorted, n + 1, m);
    assert sorted[n].msg == x;
    assert LinkedBefore(sorted, n + 1, x) && In(after, x, g.newTurn);
    forall k | 0 <= k < n + 1 ensures HeldAt(after, sorted[k].msg, g.session, PlaceIn(g, sorted[k].number)) {
      if k < n {
        assert HeldAt(rows, sorted[k].msg, g.session, PlaceIn(g, sorted[k].number));
      }
    }
    forall m: MsgId | In(after, m, g.newTurn)
      ensures InSession(after, m, g.session) && (LinkedBefore(sorted, n + 1, m) || g.request == Some(m) || g.assistant == Some(m))
    {
      if m != x { assert In(rows, m, g.newTurn); }
    }
  }

  /** In a turn that can be written the next number is free. */
  lemma NumberIsFree(rows: Rows, g: Group, sorted: seq<Line>, n: nat)
    requires n < |sorted| && Linking(rows, Bound(g), sorted, n) && Unique(rows)
    requires Sorted(sorted) && (forall x :: x in sorted <==> x in g.lines)
    requires OwnMessages(g) && Writable(rows, g)
    ensures InSession(rows, sorted[n].msg, g.session)
    ensures Unique(Put(rows, sorted[n].msg, PlaceIn(g, sorted[n].number)))
  {
    var l, b := sorted[n], Bound(g);
    var after := Put(rows, l.msg, PlaceIn(g, l.number));
    assert l in sorted;
    forall m | Takes(rows, m, g.newTurn, l.number) ensures m == l.msg {
      LinkingMember(rows, b, sorted, n, m);
      if LinkedBefore(sorted, n, m) {
        var k :| 0 <= k < n && sorted[k] == Line(m, l.number);
        assert sorted[k] in g.lines;
      } else if g.request == Some(m) {
        assert Line(m, 1) in g.lines;
      } else if g.assistant == Some(m) {
        assert Line(m, 2) in g.lines;
      } else {
        FallbackIsFree(g, sorted, n);
      }
    }
    forall a, c | a in after && c in after && Clash(after, a, c) ensures a == c {
      if a != l.msg && c != l.msg {
        assert Clash(rows, a, c);
      } else {
        var m := if a == l.msg then c else a;
        assert m == l.msg || Takes(rows, m, g.newTurn, l.number);
      }
    }
  }

  lemma FallbackIsFree(g: Group, sorted: seq<Line>, n: nat)
    requires n < |sorted| && sorted[n].number == 2 && Sorted(sorted) && (forall x :: x in sorted <==> x in g.lines)
    requires g.request.None? && g.assistant.None? && g.lines != [] && DistinctNumbers(g) && !Displaced(g)
    ensures sorted[n].msg == g.lines[0].msg || LinkedBefore(sorted, n, g.lines[0].msg)
  {
    var first := g.lines[0];
    assert sorted[n] in g.lines && first in g.lines;
    var k :| 0 <= k < |sorted| && sorted[k] == first;
    if first.number != 2 {
      assert k < n;
      assert sorted[k].msg == first.msg;
    }
  }

  /** A displaced second message cannot be linked. */
  lemma DisplacedClashes(rows: Rows, g: Group, sorted: seq<Line>, n: nat)
    requires n < |sorted| && Linking(rows, Bound(g), sorted, n)
    requires Sorted(sorted) && DistinctLines(sorted) && (forall x :: x in sorted <==> x in g.lines)
    requires Displaced(g) && sorted[n].number == 2 && InSession(rows, g.lines[0].msg, g.session)
    requires sorted[n].msg in rows
    ensures !Unique(Put(rows, sorted[n].msg, PlaceIn(g, 2)))
  {
    var first, x := g.lines[0], sorted[n].msg;
    assert first in g.lines;
    var k :| 0 <= k < |sorted| && sorted[k] == first;
    assert k > n;
    assert first.msg != x;
    assert !LinkedBefore(sorted, n, first.msg);
    assert HeldAt(rows, first.msg, g.session, PlaceIn(g, 2));
    assert Clash(Put(rows, x, PlaceIn(g, 2)), first.msg, x);
  }

  lemma LinkingDone(rows: Rows, g: Group, sorted: seq<Line>)
    requires Linking(rows, Bound(g), sorted, |sorted|) && Unique(rows) && OwnMessages(g)
    requires forall x :: x in sorted <==> x in g.lines
    requires DistinctLines(g.lines)
    ensures Standing(rows, g, Visible) && DistinctNumbers(g)
    ensures forall l :: l in g.lines ==> InSession(rows, l.msg, g.session)
  {
    forall l | l in g.lines ensures HeldAt(rows, l.msg, g.session, PlaceIn(g, l.number)) {
      assert l in sorted;
      var k :| 0 <= k < |sorted| && sorted[k] == l;
      assert HeldAt(rows, sorted[k].msg, g.session, PlaceIn(g, sorted[k].number));
    }
    OpenersAreLines(g);
    forall m | In(rows, m, g.newTurn) ensures HasLine(g, m) {
      if k :| 0 <= k < |sorted| && sorted[k].msg == m {
        assert sorted[k] in g.lines;
        var j :| 0 <= j < |g.lines| && g.lines[j] == sorted[k];
      }
    }
    forall a, b | a in g.lines && b in g.lines && a.number == b.number ensures a == b {
      assert Clash(rows, a.msg, b.msg);
      var j :| 0 <= j < |g.lines| && g.lines[j] == a;
      var k :| 0 <= k < |g.lines| && g.lines[k] == b;
    }
  }

  lemma OpenersAreLines(g: Group)
    requires OwnMessages(g)
    ensures Bound(g).request.Some? ==> HasLine(g, Bound(g).request.value)
    ensures Bound(g).assistant.Some? ==> HasLine(g, Bound(g).assistant.value)
  {
    if g.request.Some? { LineIsOwn(g, Line(g.request.value, 1)); }
    if g.assistant.Some? { LineIsOwn(g, Line(g.assistant.value, 2)); }
    assert g.lines[0] in g.lines;
    LineIsOwn(g, g.lines[0]);
  }

  lemma OpeningIsOwn(rows: Rows, g: Group)
    requires OwnMessages(g)
    ensures var b := Bound(g);
      OnlyOf(g, rows, Opened(rows, b.newTurn, b.session, b.position, b.request, b.assistant))
  {
    OpenersAreLines(g);
  }

  lemma LineIsOwn(g: Group, l: Line)
    requires l in g.lines
    ensures HasLine(g, l.msg)
  {
    var k :| 0 <= k < |g.lines| && g.lines[k] == l;
  }

  lemma OpenersDiffer(g: Group)
    requires OwnMessages(g) && DistinctLines(g.lines)
    ensures var b := Bound(g); b.request.None? || b.assistant.None? || b.request != b.assistant
  {
    if g.request.Some? && g.assistant.Some? {
      var j :| 0 <= j < |g.lines| && g.lines[j] == Line(g.request.value, 1);
      var k :| 0 <= k < |g.lines| && g.lines[k] == Line(g.assistant.value, 2);
    }
  }

  lemma WritableOpens(rows: Rows, g: Group)
    requires OwnMessages(g) && Writable(rows, g)
    ensures CanOpen(rows, g.session, Bound(g).request, Bound(g).assistant)
  {
    if g.request.Some? {
      assert Line(g.request.value, 1) in g.lines;
    } else if g.assistant.Some? {
      assert Line(g.assistant.value, 2) in g.lines;
    } else {
      assert g.lines[0] in g.lines;
    }
  }

  lemma WritableStays(a: Rows, b: Rows, g: Group)
    requires SameMessages(a, b)
    ensures Writable(a, g) <==> Writable(b, g)
  {
  }

  /** One line of a turn being written. */
  method LinkLine(h: History, g: Group, sorted: seq<Line>, n: nat, ghost rows: Rows) returns (ok: bool)
    requires h.Valid() && OwnMessages(g) && n < |sorted|
    requires Sorted(sorted) && DistinctLines(sorted) && (forall x :: x in sorted <==> x in g.lines)
    requires Linking(h.rows, Bound(g), sorted, n) && SameMessages(rows, h.rows) && OnlyOf(g, rows, h.rows)
    requires Displaced(g) ==> InSession(rows, g.lines[0].msg, g.session) && forall k :: 0 <= k < n ==> sorted[k].number != 2
    modifies h`rows
    ensures h.Valid() && SameMessages(rows, h.rows)
    ensures ok ==>
      && Linking(h.rows, Bound(g), sorted, n + 1) && OnlyOf(g, rows, h.rows)
      && (Displaced(g) ==> sorted[n].number != 2)
    ensures h.healthy && Writable(rows, g) ==> ok
  {
    hide Linking, Unique, Displaced, OwnMessages, DistinctLines, OnlyOf, Sorted, LinkPlace, DistinctNumbers, Writable;
    hide SameMessages, HasLine;
    var l := sorted[n];
    ghost var b, before := Bound(g), h.rows;
    assert l in sorted;
    LineIsOwn(g, l);
    WritableStays(rows, before, g);
    AnyPlace(before, b, sorted, n, l.number);
    if Writable(before, g) { NumberIsFree(before, g, sorted, n); }
    if Displaced(g) && l.number == 2 && l.msg in before {
      DisplacedSession(rows, before, g);
      DisplacedClashes(before, g, sorted, n);
    }
    ghost var e;
    ok, e := h.Link(g.newTurn, l.msg, l.number);
    SameAgain(rows, before, h.rows);
    if ok {
      LinkingStep(before, b, sorted, n, h.rows);
      OnlyOfStep(g, rows, before, h.rows, l.msg);
    }
  }

  /** Opens the turn and links its lines in their order.  With the database in order
      that goes through exactly if the turn can be written. */
  method WriteGroup(h: History, g: Group) returns (ok: bool)
    requires h.Valid() && OwnMessages(g) && DistinctLines(g.lines)
    requires forall m :: !In(h.rows, m, g.newTurn)
    modifies h`rows, h`nextTurn
    ensures h.Valid() && h.nextTurn >= old(h.nextTurn) && SameMessages(old(h.rows), h.rows)
    ensures ok ==> Standing(h.rows, g, Visible) && OnlyOf(g, old(h.rows), h.rows) && Writable(old(h.rows), g)
    ensures h.healthy && Writable(old(h.rows), g) ==> ok
  {
    hide Linking, Unique, Displaced, OwnMessages, DistinctLines, Standing, OnlyOf, Sorted, LinkPlace, DistinctNumbers, Opened;
    hide Writable, SameMessages, CanOpen, HasLine;
    ghost var rows := h.rows;
    var b := Bound(g);
    OpeningIsOwn(rows, g);
    OpenersDiffer(g);
    if Writable(rows, g) { WritableOpens(rows, g); }
    OpenedFresh(rows, g.newTurn, g.session, g.position, b.request, b.assistant);
    ok := h.CreateTurnAt(g.newTurn, g.session, g.position, b.request, b.assistant);
    if !ok {
      return;
    }
    SortKeeps(g.lines);
    var sorted := SortLines(g.lines);
    LinkingStarts(rows, b, sorted);
    BoundFirst(rows, g);
    for n := 0 to |sorted|
      invariant h.Valid() && h.nextTurn >= old(h.nextTurn) && SameMessages(rows, h.rows)
      invariant Linking(h.rows, b, sorted, n) && OnlyOf(g, rows, h.rows)
      invariant Displaced(g) ==> forall k :: 0 <= k < n ==> sorted[k].number != 2
    {
      ok := LinkLine(h, g, sorted, n, rows);
      if !ok {
        return;
      }
    }
    LinkingDone(h.rows, g, sorted);
    NotDisplaced(g, sorted);
    NowWritable(rows, h.rows, g);
    ok := true;
  }

  lemma NowWritable(a: Rows, b: Rows, g: Group)
    requires SameMessages(a, b) && DistinctNumbers(g) && !Displaced(g)
    requires forall l :: l in g.lines ==> InSession(b, l.msg, g.session)
    ensures Writable(a, g)
  {
  }

  lemma BoundFirst(rows: Rows, g: Group)
    requires CanOpen(rows, g.session, Bound(g).request, Bound(g).assistant)
    ensures Displaced(g) ==> InSession(rows, g.lines[0].msg, g.session)
  {
  }

  lemma DisplacedSession(a: Rows, b: Rows, g: Group)
    requires Displaced(g) && SameMessages(a, b) && InSession(a, g.lines[0].msg, g.session)
    ensures g.lines != [] && InSession(b, g.lines[0].msg, g.session)
  {
  }

  lemma AnyPlace(rows: Rows, g: Group, sorted: seq<Line>, n: nat, number: int)
    requires n <= |sorted| && Linking(rows, g, sorted, n)
    ensures exists m :: In(rows, m, g.newTurn)
    ensures forall e :: In(rows, e, g.newTurn) ==>
      rows[e].session == g.session && LinkPlace(rows, e, number) == PlaceIn(g, number)
  {
    forall e | In(rows, e, g.newTurn)
      ensures rows[e].session == g.session && LinkPlace(rows, e, number) == PlaceIn(g, number)
    {
      LinkingPlace(rows, g, sorted, n, e, number);
    }
  }

  lemma OnlyOfStep(g: Group, a: Rows, b: Rows, c: Rows, m: MsgId)
    requires OnlyOf(g, a, b) && HasLine(g, m) && m in b && c.Keys == b.Keys && forall k :: k in b && k != m ==> c[k] == b[k]
    ensures OnlyOf(g, a, c)
  {
  }

  lemma NotDisplaced(g: Group, sorted: seq<Line>)
    requires forall x :: x in sorted <==> x in g.lines
    requires Displaced(g) ==> forall k :: 0 <= k < |sorted| ==> sorted[k].number != 2
    ensures !Displaced(g)
  {
  }

  lemma OwnLinesIn(rows: Rows, g: Group, mark: Mark)
    requires Standing(rows, g, mark)
    ensures forall m :: HasLine(g, m) ==> In(rows, m, g.newTurn)
  {
    forall m | HasLine(g, m) ensures In(rows, m, g.newTurn) {
      var k :| 0 <= k < |g.lines| && g.lines[k].msg == m;
      assert g.lines[k] in g.lines;
      assert HeldAt(rows, g.lines[k].msg, g.session, Place(g.newTurn, g.position, g.lines[k].number, mark));
    }
  }

  lemma StandingElsewhere(groups: GroupMap, t: OldTurn, u: OldTurn, rows: Rows, after: Rows, mark: Mark)
    requires Separate(groups) && t in groups && u in groups && t != u
    requires Standing(rows, groups[u], mark) && Standing(after, groups[t], Visible) && OnlyOf(groups[t], rows, after)
    ensures Standing(after, groups[u], mark)
  {
    var g, o := groups[u], groups[t];
    forall l | l in g.lines ensures HeldAt(after, l.msg, g.session, Place(g.newTurn, g.position, l.number, mark)) {
      var k :| 0 <= k < |g.lines| && g.lines[k] == l;
      assert !HasLine(o, g.lines[k].msg);
    }
    OwnLinesIn(after, o, Visible);
    forall m | In(after, m, g.newTurn) ensures HasLine(g, m) {
      assert !HasLine(o, m);
      assert In(rows, m, g.newTurn);
    }
  }

  lemma FreshElsewhere(groups: GroupMap, t: OldTurn, u: OldTurn, rows: Rows, after: Rows)
    requires Separate(groups) && t in groups && u in groups && t != u
    requires Standing(after, groups[t], Visible) && OnlyOf(groups[t], rows, after)
    requires forall m :: !In(rows, m, groups[u].newTurn)
    ensures forall m :: !In(after, m, groups[u].newTurn)
  {
    var o := groups[t];
    OwnLinesIn(after, o, Visible);
    forall m ensures !In(after, m, groups[u].newTurn) {
      if !HasLine(o, m) {
        assert !In(rows, m, groups[u].newTurn);
      }
    }
  }

  /** The next position of each session is one above the largest restored. */
  ghost predicate NextAbove(next: map<SessionId, int>, groups: GroupMap, done: set<OldTurn>)
    requires done <= groups.Keys
  {
    && (forall t :: t in done ==> groups[t].session in next && groups[t].position + 1 <= next[groups[t].session])
    && (forall s :: s in next ==> exists t :: t in done && groups[t].session == s && next[s] == groups[t].position + 1)
  }

  lemma NextOfNone(groups: GroupMap)
    ensures NextAbove(map[], groups, {})
  {
  }

  lemma NextStep(next: map<SessionId, int>, groups: GroupMap, done: set<OldTurn>, t: OldTurn)
    requires done <= groups.Keys && t in groups && NextAbove(next, groups, done)
    ensures var s, at := groups[t].session, groups[t].position + 1;
      NextAbove(if s !in next || at > next[s] then next[s := at] else next, groups, done + {t})
  {
    var s, at := groups[t].session, groups[t].position + 1;
    var after := if s !in next || at > next[s] then next[s := at] else next;
    forall r | r in after ensures exists u :: u in done + {t} && groups[u].session == r && after[r] == groups[u].position + 1 {
      if r == s && (s !in next || at > next[s]) {
        assert t in done + {t};
      } else {
        var u :| u in done && groups[u].session == r && next[r] == groups[u].position + 1;
        assert u in done + {t};
      }
    }
  }

  method WriteGroups(h: History, groups: GroupMap) returns (ok: bool, turnMap: map<OldTurn, TurnId>, next: map<SessionId, int>)
    requires h.Valid() && Separate(groups)
    requires forall t :: t in groups ==> OwnMessages(groups[t])
    requires forall t, m :: t in groups ==> !In(h.rows, m, groups[t].newTurn)
    modifies h`rows, h`nextTurn
    ensures h.Valid() && SameMessages(old(h.rows), h.rows)
    ensures ok ==> turnMap.Keys == groups.Keys && forall t :: t in groups ==> turnMap[t] == groups[t].newTurn
    ensures ok ==> forall t :: t in groups ==> Standing(h.rows, groups[t], Visible)
    ensures ok ==> forall t :: t in groups ==> Writable(old(h.rows), groups[t])
    ensures h.healthy && (forall t :: t in groups ==> Writable(old(h.rows), groups[t])) ==> ok
    ensures ok ==> NextAbove(next, groups, groups.Keys)
  {
    hide Standing, OnlyOf, OwnMessages, Separate, DistinctLines, NextAbove, Writable, Unique;
    ghost var first := h.rows;
    turnMap, next, ok := map[], map[], true;
    NextOfNone(groups);
    assert groups.Keys - groups.Keys == {};
    var left := groups.Keys;
    while left != {}
      invariant left <= groups.Keys && h.Valid() && SameMessages(first, h.rows)
      invariant turnMap.Keys == groups.Keys - left && forall t :: t in turnMap ==> turnMap[t] == groups[t].newTurn
      invariant forall t :: t in groups && t !in left ==> Standing(h.rows, groups[t], Visible) && Writable(first, groups[t])
      invariant forall t, m :: t in left ==> !In(h.rows, m, groups[t].newTurn)
      invariant NextAbove(next, groups, groups.Keys - left)
      decreases left
    {
      var t :| t in left;
      ghost var rows, done := h.rows, groups.Keys - left;
      LinesAreDistinct(groups, t);
      WritableStays(first, rows, groups[t]);
      ok := WriteGroup(h, groups[t]);
      if !ok {
        return;
      }
      forall u | u in groups && u !in left ensures Standing(h.rows, groups[u], Visible) {
        StandingElsewhere(groups, t, u, rows, h.rows, Visible);
      }
      forall u | u in left && u != t ensures forall m :: !In(h.rows, m, groups[u].newTurn) {
        FreshElsewhere(groups, t, u, rows, h.rows);
      }
      turnMap := turnMap[t := groups[t].newTurn];
      NextStep(next, groups, done, t);
      var s, at := groups[t].session, groups[t].position + 1;
      next := if s !in next || at > next[s] then next[s := at] else next;
      left := left - {t};
      assert groups.Keys - left == done + {t};
    }
    assert groups.Keys - left == groups.Keys;
    ok := true;
  }

  lemma LinesAreDistinct(groups: GroupMap, t: OldTurn)
    requires Separate(groups) && t in groups
    ensures DistinctLines(groups[t].lines)
  {
  }

  /** A superseded turn points to the turn restored for its replacement, if that was
      restored; a turn nobody saw is hidden. */
  function MarkOf(g: Group, turnMap: map<OldTurn, TurnId>): Mark {
    if g.mark.Some? then
      Superseded(g.mark.value.0,
        if g.mark.value.1.Some? && g.mark.value.1.value in turnMap then Some(turnMap[g.mark.value.1.value]) else None,
        g.mark.value.2)
    else if g.visible then Visible
    else Hidden
  }

  /** What a mark changes: the turn's own messages. */
  lemma MarkingOwn(rows: Rows, after: Rows, g: Group, mark: Mark)
    requires Standing(rows, g, Visible) && g.lines != []
    requires || (mark.Superseded? && after == SupersededRows(rows, g.newTurn, g.session, mark))
             || (mark.Hidden? && after == HiddenRows(rows, g.newTurn))
    ensures Standing(after, g, mark)
    ensures exists m :: m in rows && CanSupersede(rows, m, g.newTurn, g.session)
  {
    forall l | l in g.lines ensures HeldAt(after, l.msg, g.session, Place(g.newTurn, g.position, l.number, mark)) {
      assert HeldAt(rows, l.msg, g.session, Place(g.newTurn, g.position, l.number, Visible));
    }
    assert g.lines[0] in g.lines;
    assert CanSupersede(rows, g.lines[0].msg, g.newTurn, g.session);
    forall m | In(after, m, g.newTurn) ensures HasLine(g, m) {
      assert In(rows, m, g.newTurn);
    }
  }

  lemma MarkingOthers(rows: Rows, after: Rows, g: Group, mark: Mark, o: Group, other: Mark)
    requires Standing(rows, o, other) && o.newTurn != g.newTurn
    requires || (mark.Superseded? && after == SupersededRows(rows, g.newTurn, g.session, mark))
             || (mark.Hidden? && after == HiddenRows(rows, g.newTurn))
    ensures Standing(after, o, other)
  {
    forall l | l in o.lines ensures HeldAt(after, l.msg, o.session, Place(o.newTurn, o.position, l.number, other)) {
      assert HeldAt(rows, l.msg, o.session, Place(o.newTurn, o.position, l.number, other));
    }
    forall m | In(after, m, o.newTurn) ensures HasLine(o, m) {
      assert In(rows, m, o.newTurn);
    }
  }

  method MarkGroup(h: History, g: Group, turnMap: map<OldTurn, TurnId>) returns (ok: bool)
    requires h.Valid() && Standing(h.rows, g, Visible) && g.lines != []
    modifies h`rows
    ensures h.Valid() && SameMessages(old(h.rows), h.rows)
    ensures ok ==> Standing(h.rows, g, MarkOf(g, turnMap))
    ensures ok ==> forall o: Group, k: Mark :: o.newTurn != g.newTurn && Standing(old(h.rows), o, k) ==> Standing(h.rows, o, k)
    ensures h.healthy ==> ok
  {
    hide Standing, Unique;
    ghost var rows := h.rows;
    ok := true;
    var mark := MarkOf(g, turnMap);
    if g.mark.Some? {
      MarkingOwn(rows, SupersededRows(rows, g.newTurn, g.session, mark), g, mark);
      ok := h.Supersede(g.newTurn, g.session, mark);
    } else if !g.visible {
      MarkingOwn(rows, HiddenRows(rows, g.newTurn), g, mark);
      ok := h.Hide(g.newTurn);
    }
    if ok && !mark.Visible? {
      forall o: Group, k: Mark | o.newTurn != g.newTurn && Standing(rows, o, k) ensures Standing(h.rows, o, k) {
        MarkingOthers(rows, h.rows, g, mark, o, k);
      }
    }
  }

  method MarkGroups(h: History, groups: GroupMap, turnMap: map<OldTurn, TurnId>) returns (ok: bool)
    requires h.Valid() && Separate(groups)
    requires forall t :: t in groups ==> Standing(h.rows, groups[t], Visible) && groups[t].lines != []
    modifies h`rows
    ensures h.Valid() && SameMessages(old(h.rows), h.rows)
    ensures ok ==> forall t :: t in groups ==> Standing(h.rows, groups[t], MarkOf(groups[t], turnMap))
    ensures h.healthy ==> ok
  {
    hide Standing, Unique, MarkOf, Separate;
    assert forall t, u :: t in groups && u in groups && t != u ==> groups[t].newTurn != groups[u].newTurn by {
      SeparateTurns(groups);
    }
    var left := groups.Keys;
    ok := true;
    while left != {}
      invariant left <= groups.Keys && h.Valid() && SameMessages(old(h.rows), h.rows)
      invariant forall t :: t in groups && t !in left ==> Standing(h.rows, groups[t], MarkOf(groups[t], turnMap))
      invariant forall t :: t in left ==> Standing(h.rows, groups[t], Visible)
      decreases left
    {
      var t :| t in left;
      ok := MarkGroup(h, groups[t], turnMap);
      if !ok {
        return;
      }
      left := left - {t};
    }
    ok := true;
  }

  lemma SeparateTurns(groups: GroupMap)
    requires Separate(groups)
    ensures forall t, u :: t in groups && u in groups && t != u ==> groups[t].newTurn != groups[u].newTurn
  {
  }

  method WriteNext(h: History, next: map<SessionId, int>) returns (ok: bool)
    modifies h`next
    ensures ok ==> h.next == old(h.next) + next
    ensures h.healthy ==> ok
  {
    ghost var first := h.next;
    var left := next.Keys;
    ok := true;
    while left != {}
      invariant left <= next.Keys
      invariant h.next == first + (map s | s in next && s !in left :: next[s])
      decreases left
    {
      var s :| s in left;
      ok := h.SetNext(s, next[s]);
      if !ok {
        return;
      }
      left := left - {s};
    }
    assert (map s | s in next && s !in left :: next[s]) == next;
    ok := true;
  }

  // ---------------------------------------------------------------------------
  // The whole restore

  lemma {:induction false} MemberExists(messages: seq<Archived>, ids: IdMaps, i: nat)
    requires i < |messages| && Qualifies(messages[i], ids)
    ensures messages[i] in Members(messages, ids, messages[i].turn.value)
  {
    if i < |messages| - 1 {
      MemberExists(messages[..|messages| - 1], ids, i);
    }
  }

  function NewTurns(groups: GroupMap): map<OldTurn, TurnId> {
    map u | u in groups :: groups[u].newTurn
  }

  /** Every turn stands as archived, under its mark. */
  ghost predicate AllStanding(rows: Rows, groups: GroupMap) {
    forall t :: t in groups ==> Standing(rows, groups[t], MarkOf(groups[t], NewTurns(groups)))
  }

  /** Every message that was in a turn is in the turn restored for it, under its
      archived number and that turn's mark. */
  lemma EveryMessageIsPlaced(rows: Rows, groups: GroupMap, messages: seq<Archived>, ids: IdMaps, i: nat)
    requires Grouped(groups, messages, ids) && i < |messages| && Qualifies(messages[i], ids) && AllStanding(rows, groups)
    ensures var m := messages[i];
      && m.turn.value in groups && NewMsg(m, ids) in rows
      && var g := groups[m.turn.value];
      && rows[NewMsg(m, ids)].session == g.session
      && rows[NewMsg(m, ids)].place == Some(Place(g.newTurn, g.position, m.number.value, MarkOf(g, NewTurns(groups))))
  {
    var m := messages[i];
    var t := m.turn.value;
    MemberExists(messages, ids, i);
    var ms := Members(messages, ids, t);
    var k :| 0 <= k < |ms| && ms[k] == m;
    var g := groups[t];
    assert g.lines[k] == Line(NewMsg(m, ids), m.number.value);
    assert g.lines[k] in g.lines;
    assert HeldAt(rows, g.lines[k].msg, g.session, Place(g.newTurn, g.position, g.lines[k].number, MarkOf(g, NewTurns(groups))));
  }

  /** What a restored turn was asked and answered is what the archive says; one that
      had neither has neither, though it was opened with its first message. */
  lemma RestoredTurnReads(rows: Rows, g: Group, mark: Mark, ms: seq<Archived>, ids: IdMaps, m: MsgId)
    requires forall k :: 0 <= k < |ms| ==> Qualifies(ms[k], ids)
    requires GroupFor(g, ms, ids) && Standing(rows, g, mark) && Unique(rows)
    requires forall k :: 0 <= k < |ms| ==> rows[NewMsg(ms[k], ids)].role == ms[k].role
    ensures IsRequest(rows, g.newTurn, m) <==> g.request == Some(m)
    ensures IsAnswer(rows, g.newTurn, m) <==> g.assistant == Some(m)
  {
    GroupsOwnTheirMessages(g, ms, ids);
    if g.request.Some? { RequestIsRead(rows, g, mark, ms, ids); }
    if g.assistant.Some? { AnswerIsRead(rows, g, mark, ms, ids); }
    if IsRequest(rows, g.newTurn, m) || IsAnswer(rows, g.newTurn, m) {
      var k :| 0 <= k < |g.lines| && g.lines[k].msg == m;
      assert g.lines[k] in g.lines;
      assert HeldAt(rows, m, g.session, Place(g.newTurn, g.position, ms[k].number.value, mark));
      assert IsRequest(rows, g.newTurn, m) ==> Asks(ms[k]);
      assert IsAnswer(rows, g.newTurn, m) ==> Answers(ms[k]);
      if g.request.Some? && IsRequest(rows, g.newTurn, m) { assert Clash(rows, m, g.request.value); }
      if g.assistant.Some? && IsAnswer(rows, g.newTurn, m) { assert Clash(rows, m, g.assistant.value); }
    }
  }

  lemma RequestIsRead(rows: Rows, g: Group, mark: Mark, ms: seq<Archived>, ids: IdMaps)
    requires forall k :: 0 <= k < |ms| ==> Qualifies(ms[k], ids)
    requires GroupFor(g, ms, ids) && Standing(rows, g, mark) && g.request.Some?
    requires forall k :: 0 <= k < |ms| ==> NewMsg(ms[k], ids) in rows ==> rows[NewMsg(ms[k], ids)].role == ms[k].role
    ensures IsRequest(rows, g.newTurn, g.request.value)
  {
    var k :| 0 <= k < |ms| && Asks(ms[k]) && NewMsg(ms[k], ids) == g.request.value && forall j :: 0 <= j < k ==> !Asks(ms[j]);
    assert g.lines[k] == Line(g.request.value, 1) && g.lines[k] in g.lines;
    assert HeldAt(rows, g.request.value, g.session, Place(g.newTurn, g.position, 1, mark));
  }

  lemma AnswerIsRead(rows: Rows, g: Group, mark: Mark, ms: seq<Archived>, ids: IdMaps)
    requires forall k :: 0 <= k < |ms| ==> Qualifies(ms[k], ids)
    requires GroupFor(g, ms, ids) && Standing(rows, g, mark) && g.assistant.Some?
    requires forall k :: 0 <= k < |ms| ==> NewMsg(ms[k], ids) in rows ==> rows[NewMsg(ms[k], ids)].role == ms[k].role
    ensures IsAnswer(rows, g.newTurn, g.assistant.value)
  {
    var k :| 0 <= k < |ms| && Answers(ms[k]) && NewMsg(ms[k], ids) == g.assistant.value && forall j :: 0 <= j < k ==> !Answers(ms[j]);
    assert g.lines[k] == Line(g.assistant.value, 2) && g.lines[k] in g.lines;
    assert HeldAt(rows, g.assistant.value, g.session, Place(g.newTurn, g.position, 2, mark));
  }

  /** What a successful restore leaves when the archive recorded turns. */
  ghost predicate Restored(h: History, groups: GroupMap, messages: seq<Archived>, ids: IdMaps, first: map<SessionId, int>)
    reads h
  {
    && Grouped(groups, messages, ids) && Separate(groups) && AllStanding(h.rows, groups)
    && exists next :: NextAbove(next, groups, groups.Keys) && h.next == first + next
  }

  /** Restores the recorded turns, or rebuilds them when the archive has none.  With the
      database in order the former goes through exactly if every turn can be written,
      the latter exactly if every user is answered at once or not at all. */
  method RestoreTurns(h: History, messages: seq<Archived>, ids: IdMaps, fallback: seq<Message>)
    returns (ok: bool, groups: GroupMap, ghost ts: map<SessionId, seq<TurnId>>)
    requires h.Valid() && DistinctMessages(messages, ids) && DistinctIds(fallback)
    modifies h
    ensures h.Valid() && SameMessages(old(h.rows), h.rows)
    ensures groups == map[] <==> !exists i :: 0 <= i < |messages| && Qualifies(messages[i], ids)
    ensures ok && groups != map[] ==> Restored(h, groups, messages, ids, old(h.next))
    ensures messages == [] ==> ok && h.rows == old(h.rows) && h.next == old(h.next)
    ensures ok && groups == map[] && messages != [] ==>
      forall s: SessionId :: Rebuilt(h.rows, h.next, old(h.next), fallback, ts, s)
    ensures h.healthy && groups != map[] ==> (ok <==> forall t :: t in groups ==> Writable(old(h.rows), groups[t]))
    ensures h.healthy && groups == map[] && messages != [] && Coherent(old(h.rows), old(h.next).Keys, fallback) ==>
      (ok <==> forall s: SessionId :: AtOnce(GroupsOf(fallback, s)))
  {
    hide Grouped, Separate, Standing, MarkOf, Rebuilt, GroupFor, NextAbove, Unique, Writable, AtOnce, Coherent, OwnMessages;
    ts := map[];
    if messages == [] {
      return true, map[], ts;
    }
    groups := GroupByTurn(messages, ids, h.nextTurn);
    SomeGroup(groups, messages, ids);
    if groups == map[] {
      ok, ts := RebuildTurns(h, fallback);
      return;
    }
    GroupsOwn(groups, messages, ids);
    var turnMap, next;
    ghost var first, start := h.next, h.rows;
    NewTurnsAreFresh(h, groups);
    ok, turnMap, next := WriteGroups(h, groups);
    if ok {
      assert turnMap == NewTurns(groups);
      ghost var mid := h.rows;
      ok := MarkGroups(h, groups, turnMap);
      SameAgain(start, mid, h.rows);
      if ok {
        ok := WriteNext(h, next);
      }
    }
  }

  lemma SameAgain(a: Rows, b: Rows, c: Rows)
    requires SameMessages(a, b) && SameMessages(b, c)
    ensures SameMessages(a, c)
  {
  }

  lemma NewTurnsAreFresh(h: History, groups: GroupMap)
    requires h.Valid() && forall t :: t in groups ==> groups[t].newTurn >= h.nextTurn
    ensures forall t, m :: t in groups ==> !In(h.rows, m, groups[t].newTurn)
  {
  }

  lemma GroupsOwn(groups: GroupMap, messages: seq<Archived>, ids: IdMaps)
    requires Grouped(groups, messages, ids)
    ensures forall t :: t in groups ==> OwnMessages(groups[t]) && groups[t].lines != []
  {
    forall t | t in groups ensures OwnMessages(groups[t]) && groups[t].lines != [] {
      GroupsOwnTheirMessages(groups[t], Members(messages, ids, t), ids);
    }
  }

  lemma {:induction false} MembersQualify(messages: seq<Archived>, ids: IdMaps, t: OldTurn)
    requires Members(messages, ids, t) != []
    ensures exists i :: 0 <= i < |messages| && Qualifies(messages[i], ids)
  {
    var n := |messages| - 1;
    if !Qualifies(messages[n], ids) {
      MembersQualify(messages[..n], ids, t);
      var i :| 0 <= i < n && Qualifies(messages[..n][i], ids);
      assert Qualifies(messages[i], ids);
    }
  }

  lemma SomeGroup(groups: GroupMap, messages: seq<Archived>, ids: IdMaps)
    requires Grouped(groups, messages, ids)
    ensures groups == map[] <==> !exists i :: 0 <= i < |messages| && Qualifies(messages[i], ids)
  {
    if groups != map[] {
      var t :| t in groups;
      MembersQualify(messages, ids, t);
    }
    if i :| 0 <= i < |messages| && Qualifies(messages[i], ids) {
      MemberExists(messages, ids, i);
      assert Members(messages, ids, messages[i].turn.value) != [];
    }
  }
}
