/** The channel connections of one process.  A connection is started, replaced and
    stopped in several critical sections with slow calls in between; each section
    is one step here, and threads interleave between them. */
module Connections {
  import opened Options
  import opened Sets

  type ConfigId = nat
  type ConnId = nat
  type BotId = nat
  type ChannelType = nat
  type ThreadId = nat

  datatype Config = Config(id: ConfigId, bot: BotId, kind: ChannelType, updatedAt: int, disabled: bool)

  datatype Entry = Entry(config: Config, conn: ConnId)

  datatype Status = Status(running: bool, failed: bool)

  /** What the mutex guards, and the history of connections: those numbered below
      `created` were returned by `Connect`, those in `stopped` had `Stop` called. */
  datatype Shared = Shared(
    entries: map<ConfigId, Entry>,
    meta: map<ConfigId, Status>,
    created: ConnId,
    stopped: set<ConnId>)

  // ---------------------------------------------------------------------------
  // Critical sections

  function WithStatus(s: Shared, id: ConfigId, x: Status): Shared {
    s.(meta := s.meta[id := x])
  }

  /** The entries that satisfy a condition leave both maps. */
  function Dropped(s: Shared, gone: set<ConfigId>): Shared {
    s.(entries := s.entries - gone, meta := s.meta - gone)
  }

  function ConnsOf(s: Shared, ids: set<ConfigId>): set<ConnId> {
    set id | id in ids && id in s.entries :: s.entries[id].conn
  }

  function OfBot(s: Shared, bot: BotId): set<ConfigId> {
    set id | id in s.entries && s.entries[id].config.bot == bot
  }

  function OfBotAndKind(s: Shared, bot: BotId, kind: ChannelType): set<ConfigId> {
    set id | id in s.entries && s.entries[id].config.bot == bot && s.entries[id].config.kind == kind
  }

  function OfKind(s: Shared, kind: ChannelType): set<ConfigId> {
    set id | id in s.entries && s.entries[id].config.kind == kind
  }

  /** Entries dropped and stopped without letting the mutex go. */
  function StoppedInside(s: Shared, gone: set<ConfigId>): Shared {
    Dropped(s, gone).(stopped := s.stopped + ConnsOf(s, gone))
  }

  /** The last section of a reconcile: nothing inactive stays in either map. */
  function Swept(s: Shared, active: set<ConfigId>): Shared {
    StoppedInside(s, s.entries.Keys - active).(meta := map id | id in s.meta && id in active :: s.meta[id])
  }

  // ---------------------------------------------------------------------------
  // Threads

  /** Where an operation stands between its critical sections. */
  datatype Thread =
    | Ensuring(config: Config)
    | Replacing(config: Config, old_: Entry)     // took the entry out, about to stop it
    | Reinserting(old_: Entry)                   // its channel cannot be stopped
    | Checking(config: Config)
    | Connecting(config: Config)
    | Inserting(config: Config, conn: ConnId)
    | Discarding(conn: ConnId)                   // lost the race, about to stop its own
    | Stopping(victims: set<Entry>)              // took entries out, stops one after another
    | Marking(config: Config)                    // about to record a failure

  function Held(t: Thread): set<ConnId> {
    match t
    case Replacing(_, e) => {e.conn}
    case Reinserting(e) => {e.conn}
    case Inserting(_, c) => {c}
    case Discarding(c) => {c}
    case Stopping(v) => set e | e in v :: e.conn
    case _ => {}
  }

  datatype State = State(shared: Shared, threads: map<ThreadId, Thread>)

  datatype StopAnswer = Fine | Unsupported | Error

  datatype Step =
    | Begin(t: ThreadId, config: Config)
    | Enter(t: ThreadId, receiver: bool, running: bool)
    | StopOld(t: ThreadId, answer: StopAnswer)
    | Reinsert(t: ThreadId, running: bool)
    | Check(t: ThreadId, receiver: bool, running: bool)
    | Connect(t: ThreadId, ok: bool)
    | Insert(t: ThreadId, running: bool)
    | Discard(t: ThreadId)
    | Mark(t: ThreadId)
    | TakeOne(t: ThreadId, id: ConfigId, always: bool)
    | TakeBot(t: ThreadId, bot: BotId)
    | StopNext(t: ThreadId, e: Entry)
    | RemoveFor(bot: BotId, kind: ChannelType)
    | RemoveAdapter(kind: ChannelType)
    | Sweep(active: set<ConfigId>)
    | StopAll

  function Put(s: State, t: ThreadId, x: Thread): State {
    s.(threads := s.threads[t := x])
  }

  function End(s: State, t: ThreadId): State {
    s.(threads := s.threads - {t})
  }

  predicate Is(s: State, t: ThreadId) {
    t in s.threads
  }

  predicate Enabled(s: State, step: Step) {
    match step
    case Begin(t, c) => !Is(s, t) && !c.disabled
    case Enter(t, _, _) => Is(s, t) && s.threads[t].Ensuring?
    case StopOld(t, _) => Is(s, t) && s.threads[t].Replacing?
    case Reinsert(t, _) => Is(s, t) && s.threads[t].Reinserting?
    case Check(t, _, _) => Is(s, t) && s.threads[t].Checking?
    case Connect(t, _) => Is(s, t) && s.threads[t].Connecting?
    case Insert(t, _) => Is(s, t) && s.threads[t].Inserting?
    case Discard(t) => Is(s, t) && s.threads[t].Discarding?
    case Mark(t) => Is(s, t) && s.threads[t].Marking?
    case TakeOne(t, _, _) => !Is(s, t)
    case TakeBot(t, _) => !Is(s, t)
    case StopNext(t, e) =>
      Is(s, t) && s.threads[t].Stopping? && (s.threads[t].victims == {} || e in s.threads[t].victims)
    case _ => true
  }

  /** The first section of ensuring a connection: an up-to-date one is kept, an older
      one is taken out to be replaced. */
  function Entered(s: State, t: ThreadId, receiver: bool, running: bool): State
    requires Is(s, t) && s.threads[t].Ensuring?
  {
    var c := s.threads[t].config;
    if !receiver then End(s.(shared := WithStatus(s.shared, c.id, Status(false, true))), t)
    else if c.id !in s.shared.entries then Put(s, t, Checking(c))
    else
      var e := s.shared.entries[c.id];
      if e.config.updatedAt >= c.updatedAt then End(s.(shared := WithStatus(s.shared, e.config.id, Status(running, false))), t)
      else Put(s.(shared := s.shared.(entries := s.shared.entries - {c.id})), t, Replacing(c, e))
  }

  function CalledStop(s: State, c: ConnId): State {
    s.(shared := s.shared.(stopped := s.shared.stopped + {c}))
  }

  function OldStopped(s: State, t: ThreadId, answer: StopAnswer): State
    requires Is(s, t) && s.threads[t].Replacing?
  {
    var x := s.threads[t];
    Put(CalledStop(s, x.old_.conn), t,
        match answer
        case Fine => Checking(x.config)
        case Unsupported => Reinserting(x.old_)
        case Error => Marking(x.config))
  }

  /** Puts back what cannot be stopped, unless somebody was faster. */
  function Reinserted(s: State, t: ThreadId, running: bool): State
    requires Is(s, t) && s.threads[t].Reinserting?
  {
    var e := s.threads[t].old_;
    var id := e.config.id;
    if id in s.shared.entries then End(s, t)
    else End(s.(shared := WithStatus(s.shared.(entries := s.shared.entries[id := e]), id, Status(running, false))), t)
  }

  function Checked(s: State, t: ThreadId, receiver: bool, running: bool): State
    requires Is(s, t) && s.threads[t].Checking?
  {
    var c := s.threads[t].config;
    if !receiver then End(s.(shared := WithStatus(s.shared, c.id, Status(false, true))), t)
    else if c.id in s.shared.entries then
      End(s.(shared := WithStatus(s.shared, s.shared.entries[c.id].config.id, Status(running, false))), t)
    else Put(s, t, Connecting(c))
  }

  function Connected(s: State, t: ThreadId, ok: bool): State
    requires Is(s, t) && s.threads[t].Connecting?
  {
    var c := s.threads[t].config;
    if ok then Put(s.(shared := s.shared.(created := s.shared.created + 1)), t, Inserting(c, s.shared.created))
    else Put(s, t, Marking(c))
  }

  function Inserted(s: State, t: ThreadId, running: bool): State
    requires Is(s, t) && s.threads[t].Inserting?
  {
    var x := s.threads[t];
    var id := x.config.id;
    if id in s.shared.entries then
      Put(s.(shared := WithStatus(s.shared, s.shared.entries[id].config.id, Status(running, false))), t, Discarding(x.conn))
    else
      End(s.(shared := WithStatus(s.shared.(entries := s.shared.entries[id := Entry(x.config, x.conn)]), id, Status(true, false))), t)
  }

  /** Takes one entry out; `always` when its status goes even if there was none. */
  function TakenOne(s: State, t: ThreadId, id: ConfigId, always: bool): State {
    if id in s.shared.entries then Put(s.(shared := Dropped(s.shared, {id})), t, Stopping({s.shared.entries[id]}))
    else if always then s.(shared := s.shared.(meta := s.shared.meta - {id}))
    else s
  }

  function EntriesOf(s: Shared, ids: set<ConfigId>): set<Entry> {
    set id | id in ids && id in s.entries :: s.entries[id]
  }

  function TakenBot(s: State, t: ThreadId, bot: BotId): State {
    var gone := OfBot(s.shared, bot);
    Put(s.(shared := Dropped(s.shared, gone)), t, Stopping(EntriesOf(s.shared, gone)))
  }

  function NextStopped(s: State, t: ThreadId, e: Entry): State
    requires Is(s, t) && s.threads[t].Stopping?
  {
    var v := s.threads[t].victims;
    if v == {} then End(s, t) else Put(CalledStop(s, e.conn), t, Stopping(v - {e}))
  }

  function Next(s: State, step: Step): State
    requires Enabled(s, step)
  {
    match step
    case Begin(t, c) => Put(s, t, Ensuring(c))
    case Enter(t, receiver, running) => Entered(s, t, receiver, running)
    case StopOld(t, answer) => OldStopped(s, t, answer)
    case Reinsert(t, running) => Reinserted(s, t, running)
    case Check(t, receiver, running) => Checked(s, t, receiver, running)
    case Connect(t, ok) => Connected(s, t, ok)
    case Insert(t, running) => Inserted(s, t, running)
    case Discard(t) => End(CalledStop(s, s.threads[t].conn), t)
    case Mark(t) => End(s.(shared := WithStatus(s.shared, s.threads[t].config.id, Status(false, true))), t)
    case TakeOne(t, id, always) => TakenOne(s, t, id, always)
    case TakeBot(t, bot) => TakenBot(s, t, bot)
    case StopNext(t, e) => NextStopped(s, t, e)
    case RemoveFor(bot, kind) => s.(shared := StoppedInside(s.shared, OfBotAndKind(s.shared, bot, kind)))
    case RemoveAdapter(kind) => s.(shared := StoppedInside(s.shared, OfKind(s.shared, kind)))
    case Sweep(active) => s.(shared := Swept(s.shared, active))
    case StopAll => s.(shared := StoppedInside(s.shared, s.shared.entries.Keys))
  }

  // ---------------------------------------------------------------------------
  // No connection is lost

  predicate InMap(s: State, c: ConnId) {
    exists id :: id in s.shared.entries && s.shared.entries[id].conn == c
  }

  predicate HeldBy(s: State, t: ThreadId, c: ConnId) {
    t in s.threads && c in Held(s.threads[t])
  }

  /** The connection is in the map, in the hands of an operation, or had `Stop`
      called. */
  ghost predicate Accounted(s: State, c: ConnId) {
    InMap(s, c) || c in s.shared.stopped || exists t :: HeldBy(s, t, c)
  }

  /** No connection is in two places at once. */
  ghost predicate Separate(s: State) {
    && (forall i, j :: i in s.shared.entries && j in s.shared.entries && s.shared.entries[i].conn == s.shared.entries[j].conn ==> i == j)
    && (forall t, u, c: ConnId :: HeldBy(s, t, c) && HeldBy(s, u, c) ==> t == u)
    && (forall t, c: ConnId :: HeldBy(s, t, c) ==> !InMap(s, c))
  }

  /** What is put back was stopped in vain; what is replaced was the config's own. */
  predicate ThreadOk(t: Thread, stopped: set<ConnId>) {
    && (t.Reinserting? ==> t.old_.conn in stopped)
    && (t.Replacing? ==> t.old_.config.id == t.config.id)
  }

  ghost predicate Known(s: State) {
    && (forall id :: id in s.shared.entries ==> s.shared.entries[id].config.id == id && s.shared.entries[id].conn < s.shared.created)
    && (forall t, c: ConnId :: HeldBy(s, t, c) ==> c < s.shared.created)
    && (forall t :: t in s.threads ==> ThreadOk(s.threads[t], s.shared.stopped))
  }

  ghost predicate NothingLost(s: State) {
    forall c: ConnId :: c < s.shared.created ==> Accounted(s, c)
  }

  ghost predicate Inv(s: State) {
    Known(s) && Separate(s) && NothingLost(s)
  }

  /** A step that leaves the map alone and moves at most the connections of one
      thread, none of which it forgets. */
  lemma ThreadStep(s: State, u: State, t: ThreadId)
    requires Inv(s) && u.shared.entries == s.shared.entries && u.shared.created == s.shared.created
    requires s.shared.stopped <= u.shared.stopped
    requires forall x :: x != t ==> (x in u.threads <==> x in s.threads) && (x in s.threads ==> u.threads[x] == s.threads[x])
    requires forall c: ConnId :: HeldBy(u, t, c) ==> HeldBy(s, t, c)
    requires forall c: ConnId :: HeldBy(s, t, c) ==> HeldBy(u, t, c) || c in u.shared.stopped
    requires t in u.threads ==> ThreadOk(u.threads[t], u.shared.stopped)
    ensures Inv(u)
  {
    forall x, c: ConnId | HeldBy(u, x, c) ensures HeldBy(s, x, c) {
      if x != t { assert u.threads[x] == s.threads[x]; }
    }
    forall c: ConnId | c < u.shared.created ensures Accounted(u, c) {
      assert Accounted(s, c);
      if InMap(s, c) {
        assert InMap(u, c);
      } else if x :| HeldBy(s, x, c) {
        if x != t { assert HeldBy(u, x, c); }
      }
    }
  }

  /** A step that takes entries out of the map, into the hands of `t` or stopped. */
  lemma TakingStep(s: State, u: State, t: ThreadId, gone: set<ConfigId>)
    requires Inv(s) && u.shared.entries == s.shared.entries - gone && u.shared.created == s.shared.created
    requires s.shared.stopped <= u.shared.stopped
    requires forall x :: x != t ==> (x in u.threads <==> x in s.threads) && (x in s.threads ==> u.threads[x] == s.threads[x])
    requires forall c: ConnId :: !HeldBy(s, t, c)
    requires forall c: ConnId :: HeldBy(u, t, c) ==> c in ConnsOf(s.shared, gone)
    requires forall c: ConnId :: c in ConnsOf(s.shared, gone) ==> HeldBy(u, t, c) || c in u.shared.stopped
    requires t in u.threads ==> ThreadOk(u.threads[t], u.shared.stopped)
    ensures Inv(u)
  {
    forall x, c: ConnId | HeldBy(u, x, c) ensures x != t ==> HeldBy(s, x, c) {
      if x != t { assert u.threads[x] == s.threads[x]; }
    }
    forall c: ConnId | c in ConnsOf(s.shared, gone) ensures InMap(s, c) && !InMap(u, c) {
      var id :| id in gone && id in s.shared.entries && s.shared.entries[id].conn == c;
    }
    forall c: ConnId | c < u.shared.created ensures Accounted(u, c) {
      assert Accounted(s, c);
      if InMap(s, c) {
        var id :| id in s.shared.entries && s.shared.entries[id].conn == c;
        if id in gone { assert c in ConnsOf(s.shared, gone); } else { assert u.shared.entries[id].conn == c; }
      } else if x :| HeldBy(s, x, c) {
        assert HeldBy(u, x, c);
      }
    }
  }

  /** A step by which thread `t` puts the connection it holds into the map. */
  lemma PuttingStep(s: State, u: State, t: ThreadId, id: ConfigId, e: Entry)
    requires Inv(s) && id !in s.shared.entries && e.config.id == id
    requires u.shared.entries == s.shared.entries[id := e] && u.shared.created == s.shared.created
    requires u.shared.stopped == s.shared.stopped && u.threads == s.threads - {t}
    requires forall c: ConnId :: HeldBy(s, t, c) <==> c == e.conn
    ensures Inv(u)
  {
    assert HeldBy(s, t, e.conn) && !InMap(s, e.conn);
    assert u.shared.entries[id].conn == e.conn;
    forall c: ConnId ensures InMap(u, c) <==> InMap(s, c) || c == e.conn {
      if InMap(s, c) {
        var j :| j in s.shared.entries && s.shared.entries[j].conn == c;
        assert u.shared.entries[j].conn == c;
      }
    }
    forall x, c: ConnId | HeldBy(u, x, c) ensures x != t && HeldBy(s, x, c) {
    }
    forall c: ConnId | c < u.shared.created ensures Accounted(u, c) {
      assert Accounted(s, c);
      if !InMap(u, c) && c !in u.shared.stopped {
        var x :| HeldBy(s, x, c);
        assert HeldBy(u, x, c);
      }
    }
  }

  lemma ConnectStep(s: State, t: ThreadId)
    requires Inv(s) && Is(s, t) && s.threads[t].Connecting?
    ensures Inv(Connected(s, t, true))
  {
    var u := Connected(s, t, true);
    var n := s.shared.created;
    assert HeldBy(u, t, n);
    forall x, c: ConnId | HeldBy(u, x, c) ensures (x == t && c == n) || (x != t && HeldBy(s, x, c)) {
      if x != t { assert u.threads[x] == s.threads[x]; }
    }
    forall c: ConnId | c < u.shared.created ensures Accounted(u, c) {
      if c < n {
        assert Accounted(s, c);
        if InMap(s, c) {
          assert InMap(u, c);
        } else if x :| HeldBy(s, x, c) {
          assert x != t && HeldBy(u, x, c);
        }
      }
    }
  }

  lemma EnterKeeps(s: State, t: ThreadId, receiver: bool, running: bool)
    requires Inv(s) && Enabled(s, Enter(t, receiver, running))
    ensures Inv(Entered(s, t, receiver, running))
  {
    var c, u := s.threads[t].config, Entered(s, t, receiver, running);
    if t in u.threads && u.threads[t].Replacing? {
      assert s.shared.entries[c.id].conn in ConnsOf(s.shared, {c.id});
      TakingStep(s, u, t, {c.id});
    } else {
      ThreadStep(s, u, t);
    }
  }

  lemma InsertKeeps(s: State, t: ThreadId, running: bool)
    requires Inv(s) && Enabled(s, Insert(t, running))
    ensures Inv(Inserted(s, t, running))
  {
    var x, u := s.threads[t], Inserted(s, t, running);
    if x.config.id in s.shared.entries {
      ThreadStep(s, u, t);
    } else {
      PuttingStep(s, u, t, x.config.id, Entry(x.config, x.conn));
    }
  }

  lemma ReinsertKeeps(s: State, t: ThreadId, running: bool)
    requires Inv(s) && Enabled(s, Reinsert(t, running))
    ensures Inv(Reinserted(s, t, running))
  {
    var e, u := s.threads[t].old_, Reinserted(s, t, running);
    assert ThreadOk(s.threads[t], s.shared.stopped);
    if e.config.id in s.shared.entries {
      ThreadStep(s, u, t);
    } else {
      PuttingStep(s, u, t, e.config.id, e);
    }
  }

  lemma CheckKeeps(s: State, t: ThreadId, receiver: bool, running: bool)
    requires Inv(s) && Enabled(s, Check(t, receiver, running))
    ensures Inv(Checked(s, t, receiver, running))
  {
    ThreadStep(s, Checked(s, t, receiver, running), t);
  }

  lemma StopKeeps(s: State, t: ThreadId, answer: StopAnswer)
    requires Inv(s) && Enabled(s, StopOld(t, answer))
    ensures Inv(OldStopped(s, t, answer))
  {
    ThreadStep(s, OldStopped(s, t, answer), t);
  }

  lemma StopNextKeeps(s: State, t: ThreadId, e: Entry)
    requires Inv(s) && Enabled(s, StopNext(t, e))
    ensures Inv(NextStopped(s, t, e))
  {
    ThreadStep(s, NextStopped(s, t, e), t);
  }

  lemma TakeKeeps(s: State, t: ThreadId, gone: set<ConfigId>)
    requires Inv(s) && !Is(s, t)
    ensures Inv(Put(s.(shared := Dropped(s.shared, gone)), t, Stopping(EntriesOf(s.shared, gone))))
  {
    var u := Put(s.(shared := Dropped(s.shared, gone)), t, Stopping(EntriesOf(s.shared, gone)));
    forall c: ConnId ensures HeldBy(u, t, c) <==> c in ConnsOf(s.shared, gone) {
      if c in ConnsOf(s.shared, gone) {
        var id :| id in gone && id in s.shared.entries && s.shared.entries[id].conn == c;
        assert s.shared.entries[id] in EntriesOf(s.shared, gone);
      }
    }
    TakingStep(s, u, t, gone);
  }

  /** Entries stopped under the mutex. */
  lemma InsideKeeps(s: State, gone: set<ConfigId>, meta: map<ConfigId, Status>)
    requires Inv(s)
    ensures Inv(s.(shared := StoppedInside(s.shared, gone).(meta := meta)))
  {
    var t: ThreadId := UpperBound(s.threads.Keys);
    TakingStep(s, s.(shared := StoppedInside(s.shared, gone).(meta := meta)), t, gone);
  }

  lemma EnsuringStep(s: State, step: Step)
    requires Inv(s) && Enabled(s, step)
    requires step.Enter? || step.StopOld? || step.Reinsert? || step.Check? || step.Connect? || step.Insert?
    ensures Inv(Next(s, step))
  {
    hide Inv;
    match step {
      case Enter(t, receiver, running) => EnterKeeps(s, t, receiver, running);
      case StopOld(t, answer) => StopKeeps(s, t, answer);
      case Reinsert(t, running) => ReinsertKeeps(s, t, running);
      case Check(t, receiver, running) => CheckKeeps(s, t, receiver, running);
      case Connect(t, ok) => if ok { ConnectStep(s, t); } else { ThreadStep(s, Next(s, step), t); }
      case Insert(t, running) => InsertKeeps(s, t, running);
    }
  }

  lemma RemovingStep(s: State, step: Step)
    requires Inv(s) && Enabled(s, step)
    requires step.TakeOne? || step.TakeBot? || step.StopNext? || step.RemoveFor? || step.RemoveAdapter?
          || step.Sweep? || step.StopAll?
    ensures Inv(Next(s, step))
  {
    hide Inv;
    match step {
      case TakeOne(t, id, _) =>
        if id in s.shared.entries {
          TakeKeeps(s, t, {id});
          assert EntriesOf(s.shared, {id}) == {s.shared.entries[id]};
        } else {
          ThreadStep(s, Next(s, step), t);
        }
      case TakeBot(t, bot) => TakeKeeps(s, t, OfBot(s.shared, bot));
      case StopNext(t, e) => StopNextKeeps(s, t, e);
      case RemoveFor(bot, kind) => InsideKeeps(s, OfBotAndKind(s.shared, bot, kind), Next(s, step).shared.meta);
      case RemoveAdapter(kind) => InsideKeeps(s, OfKind(s.shared, kind), Next(s, step).shared.meta);
      case Sweep(active) => InsideKeeps(s, s.shared.entries.Keys - active, Next(s, step).shared.meta);
      case StopAll => InsideKeeps(s, s.shared.entries.Keys, Next(s, step).shared.meta);
    }
  }

  lemma EveryStep(s: State, step: Step)
    requires Inv(s) && Enabled(s, step)
    ensures Inv(Next(s, step))
  {
    match step {
      case Begin(t, _) => ThreadStep(s, Next(s, step), t);
      case Discard(t) => ThreadStep(s, Next(s, step), t);
      case Mark(t) => ThreadStep(s, Next(s, step), t);
      case Enter(_, _, _) | StopOld(_, _) | Reinsert(_, _) | Check(_, _, _) | Connect(_, _) | Insert(_, _) =>
        EnsuringStep(s, step);
      case _ => RemovingStep(s, step);
    }
  }

  // ---------------------------------------------------------------------------
  // Runs

  ghost predicate IsRun(run: seq<State>, steps: seq<Step>) {
    && |run| == |steps| + 1 && run[0] == State(Shared(map[], map[], 0, {}), map[])
    && forall k :: 0 <= k < |steps| ==> Enabled(run[k], steps[k]) && run[k + 1] == Next(run[k], steps[k])
  }

  lemma {:induction false} EveryState(run: seq<State>, steps: seq<Step>, k: nat)
    requires IsRun(run, steps) && k < |run|
    ensures Inv(run[k])
  {
    if k > 0 {
      EveryState(run, steps, k - 1);
      EveryStep(run[k - 1], steps[k - 1]);
    }
  }

  /** No interleaving leaks a connection: whatever `Connect` returned is in the map,
      in the hands of one operation, or had `Stop` called; and once no operation is
      under way it is one of the outer two. */
  lemma NoLeak(run: seq<State>, steps: seq<Step>, k: nat, c: ConnId)
    requires IsRun(run, steps) && k < |run| && c < run[k].shared.created
    ensures Accounted(run[k], c)
    ensures forall t, u :: HeldBy(run[k], t, c) && HeldBy(run[k], u, c) ==> t == u && !InMap(run[k], c)
    ensures run[k].threads == map[] ==> InMap(run[k], c) || c in run[k].shared.stopped
  {
    EveryState(run, steps, k);
  }

  /** An entry is never overwritten: it stays, or it leaves the map for the hands of
      one operation or for good after `Stop`. */
  lemma NeverOverwritten(run: seq<State>, steps: seq<Step>, k: nat, id: ConfigId)
    requires IsRun(run, steps) && k < |steps| && id in run[k].shared.entries
    ensures var e, s := run[k].shared.entries[id], run[k + 1];
      if id in s.shared.entries then s.shared.entries[id] == e
      else e.conn in s.shared.stopped || exists t :: HeldBy(s, t, e.conn)
  {
    var s, u, e := run[k], run[k + 1], run[k].shared.entries[id];
    EveryState(run, steps, k);
    EveryState(run, steps, k + 1);
    CreatedGrows(s, steps[k]);
    if id in u.shared.entries {
      KeepsEntries(s, steps[k], id);
    } else {
      assert Accounted(u, e.conn);
      if InMap(u, e.conn) {
        var j :| j in u.shared.entries && u.shared.entries[j].conn == e.conn;
        NewEntries(s, steps[k], j);
      }
    }
  }

  lemma KeepsEntries(s: State, step: Step, id: ConfigId)
    requires Enabled(s, step) && id in s.shared.entries && id in Next(s, step).shared.entries
    ensures Next(s, step).shared.entries[id] == s.shared.entries[id]
  {
  }

  lemma CreatedGrows(s: State, step: Step)
    requires Enabled(s, step)
    ensures s.shared.created <= Next(s, step).shared.created
  {
  }

  lemma NewEntries(s: State, step: Step, j: ConfigId)
    requires Inv(s) && Enabled(s, step) && j in Next(s, step).shared.entries && j !in s.shared.entries
    ensures exists t :: HeldBy(s, t, Next(s, step).shared.entries[j].conn)
  {
    match step {
      case Reinsert(t, _) => assert HeldBy(s, t, Next(s, step).shared.entries[j].conn);
      case Insert(t, _) => assert HeldBy(s, t, Next(s, step).shared.entries[j].conn);
      case _ =>
    }
  }

  // ---------------------------------------------------------------------------
  // Operations deliver

  function Rank(t: Thread): nat {
    match t
    case Inserting(_, _) => 2
    case Stopping(v) => |v|
    case _ => 1
  }

  predicate StepOf(step: Step, t: ThreadId) {
    match step
    case StopOld(u, _) => u == t
    case Reinsert(u, _) => u == t
    case Insert(u, _) => u == t
    case Discard(u) => u == t
    case StopNext(u, _) => u == t
    case _ => false
  }

  /** An operation that holds a connection can go on, and with each of its own steps
      the connection reaches the map or its stop, or is held a step closer to it. */
  lemma HolderDelivers(s: State, t: ThreadId, c: ConnId, step: Step)
    requires Inv(s) && HeldBy(s, t, c) && Enabled(s, step) && StepOf(step, t)
    ensures var u := Next(s, step);
      || InMap(u, c) || c in u.shared.stopped
      || (HeldBy(u, t, c) && Rank(u.threads[t]) < Rank(s.threads[t]))
  {
    var u := Next(s, step);
    assert ThreadOk(s.threads[t], s.shared.stopped);
    match step {
      case Reinsert(_, _) => assert c in u.shared.stopped;
      case Insert(_, _) =>
        var id := s.threads[t].config.id;
        if id !in s.shared.entries { assert u.shared.entries[id].conn == c; }
      case StopNext(_, e) =>
        if c != e.conn { assert HeldBy(u, t, c); }
      case _ =>
    }
  }

  lemma HolderGoesOn(s: State, t: ThreadId, c: ConnId) returns (step: Step)
    requires HeldBy(s, t, c)
    ensures Enabled(s, step) && StepOf(step, t)
  {
    match s.threads[t] {
      case Replacing(_, _) => step := StopOld(t, Fine);
      case Reinserting(_) => step := Reinsert(t, true);
      case Inserting(_, _) => step := Insert(t, true);
      case Discarding(_) => step := Discard(t);
      case Stopping(v) =>
        var e :| e in v && e.conn == c;
        step := StopNext(t, e);
      case _ => step := Discard(t);
    }
  }

  // ---------------------------------------------------------------------------
  // The manager

  /** What the channels answer to one caller. */
  datatype ChannelAnswer = Receiver(available: bool) | StopCalled(conn: ConnId, answer: StopAnswer) | ConnectCalled(ok: bool)

  predicate UpToDate(entries: map<ConfigId, Entry>, c: Config) {
    c.id in entries && entries[c.id].config.updatedAt >= c.updatedAt
  }

  /** Asking for a new connection: is there a receiver, and does it connect. */
  predicate AsksToConnect(asks: seq<ChannelAnswer>) {
    && asks != [] && asks[0].Receiver?
    && if asks[0].available then |asks| == 2 && asks[1].ConnectCalled? else |asks| == 1
  }

  /** All that is asked about a config, by what is registered for it: an entry that is
      up to date is left alone, an older one is stopped first. */
  predicate Dialogue(entries: map<ConfigId, Entry>, c: Config, asks: seq<ChannelAnswer>) {
    && asks != [] && asks[0].Receiver?
    && if !asks[0].available || UpToDate(entries, c) then |asks| == 1
       else if c.id !in entries then AsksToConnect(asks[1..])
       else && |asks| > 1 && asks[1].StopCalled? && asks[1].conn == entries[c.id].conn
            && if asks[1].answer.Fine? then AsksToConnect(asks[2..]) else |asks| == 2
  }

  /** The entries of a config afterwards: the new connection when the last thing asked
      for was one and it was made; the old entry when there is no receiver, when it was
      up to date and when it could not be stopped; none otherwise. */
  function Ensured(entries: map<ConfigId, Entry>, c: Config, asks: seq<ChannelAnswer>, made: ConnId): map<ConfigId, Entry>
    requires asks != []
  {
    var last := asks[|asks| - 1];
    if last == ConnectCalled(true) then entries[c.id := Entry(c, made)]
    else if |asks| == 1 || (last.StopCalled? && last.answer.Unsupported?) then entries
    else entries - {c.id}
  }

  predicate Failed(asks: seq<ChannelAnswer>)
    requires asks != []
  {
    var last := asks[|asks| - 1];
    last == ConnectCalled(false) || (last.StopCalled? && !last.answer.Fine? && !last.answer.Unsupported?)
  }

  /** So a config ends up to date exactly when it was, or when the receiver exists,
      what there was could be stopped, and the connect worked; an older entry is left
      exactly when there is no receiver or it could not be stopped. */
  lemma DialogueDecides(entries: map<ConfigId, Entry>, c: Config, asks: seq<ChannelAnswer>, made: ConnId)
    requires Dialogue(entries, c, asks)
    ensures var after := Ensured(entries, c, asks, made);
      && after - {c.id} == entries - {c.id}
      && (UpToDate(after, c) <==> UpToDate(entries, c) || asks[|asks| - 1] == ConnectCalled(true))
      && (c.id in after && !UpToDate(after, c) <==>
            && c.id in entries && !UpToDate(entries, c)
            && (!asks[0].available || (asks[1].StopCalled? && asks[1].answer.Unsupported?)))
    ensures asks[|asks| - 1] == ConnectCalled(true) ==>
      && (forall k :: 0 <= k < |asks| && asks[k].Receiver? ==> asks[k].available)
      && (c.id in entries ==> asks[1] == StopCalled(entries[c.id].conn, Fine))
  {
    assert forall k :: 0 <= k < |asks[1..]| ==> asks[1..][k] == asks[k + 1];
    if |asks| > 1 {
      assert forall k :: 0 <= k < |asks[2..]| ==> asks[2..][k] == asks[k + 2];
    }
  }

  /** The manager's own code, section by section; the machine above says what the
      sections do when others come in between. */
  class Manager {
    var connections: map<ConfigId, Entry>
    var connectionMeta: map<ConfigId, Status>
    var created: ConnId
    var stopped: set<ConnId>
    ghost var answers: seq<ChannelAnswer>   // of the channels, in order

    constructor ()
      ensures Valid() && View() == Shared(map[], map[], 0, {})
    {
      connections, connectionMeta, created, stopped := map[], map[], 0, {};
      answers := [];
    }

    function View(): Shared
      reads this
    {
      Shared(connections, connectionMeta, created, stopped)
    }

    /** With nobody else at work. */
    ghost predicate Valid()
      reads this
    {
      Inv(State(View(), map[]))
    }

    method SetStatus(id: ConfigId, x: Status)
      modifies `connectionMeta
      ensures View() == WithStatus(old(View()), id, x)
    {
      connectionMeta := connectionMeta[id := x];
    }

    /** Stops a connection; some channels cannot. */
    method StopConnection(c: ConnId) returns (answer: StopAnswer)
      modifies `stopped, `answers
      ensures View() == old(View()).(stopped := old(stopped) + {c})
      ensures answers == old(answers) + [StopCalled(c, answer)]
    {
      stopped := stopped + {c};
      answer := *;
      answers := answers + [StopCalled(c, answer)];
    }

    method GetReceiver() returns (available: bool)
      modifies `answers
      ensures answers == old(answers) + [Receiver(available)]
    {
      available := *;
      answers := answers + [Receiver(available)];
    }

    /** A connection is made outside the lock. */
    method Dial() returns (conn: Option<ConnId>)
      modifies `created, `answers
      ensures answers == old(answers) + [ConnectCalled(conn.Some?)]
      ensures conn.None? ==> created == old(created)
      ensures conn.Some? ==> conn.value == old(created) && created == old(created) + 1
    {
      var ok: bool := *;
      conn := None;
      if ok {
        conn := Some(created);
        created := created + 1;
      }
      answers := answers + [ConnectCalled(ok)];
    }

    /** Stops and drops entries one after another, the mutex held. */
    method DropInside(gone: set<ConfigId>)
      modifies `connections, `connectionMeta, `stopped, `answers
      requires gone <= connections.Keys
      ensures View() == StoppedInside(old(View()), gone)
    {
      ghost var was := View();
      var left := gone;
      while left != {}
        invariant left <= gone
        invariant View() == StoppedInside(was, gone - left)
        decreases left
      {
        var id :| id in left;
        ghost var before := gone - left;
        left := left - {id};
        assert gone - left == before + {id};
        OneMoreInside(was, before, id);
        var _ := StopConnection(connections[id].conn);
        connections := connections - {id};
        connectionMeta := connectionMeta - {id};
      }
      assert gone - left == gone;
    }

    /** Stops and removes a bot's connections of one channel type. */
    method RemoveConnection(bot: BotId, kind: ChannelType)
      requires Valid()
      modifies `connections, `connectionMeta, `stopped, `answers
      ensures Valid() && View() == StoppedInside(old(View()), OfBotAndKind(old(View()), bot, kind))
    {
      var gone := set id | id in connections && connections[id].config.bot == bot && connections[id].config.kind == kind;
      assert gone == OfBotAndKind(View(), bot, kind);
      InsideKeeps(State(View(), map[]), gone, Dropped(View(), gone).meta);
      DropInside(gone);
    }

    method StopAll()
      requires Valid()
      modifies `connections, `connectionMeta, `stopped, `answers
      ensures Valid() && connections == map[] && forall c: ConnId :: c < created ==> c in stopped
    {
      InsideKeeps(State(View(), map[]), connections.Keys, Dropped(View(), connections.Keys).meta);
      DropInside(connections.Keys);
      forall c: ConnId | c < created ensures c in stopped {
        assert Accounted(State(View(), map[]), c);
      }
    }

    /** Takes one entry out under the mutex and stops it after. */
    method Stop(id: ConfigId) returns (answer: StopAnswer)
      requires Valid()
      modifies `connections, `connectionMeta, `stopped, `answers
      ensures Valid() && id !in connections
      ensures View() == if id in old(connections) then StoppedInside(old(View()), {id}) else old(View())
    {
      answer := Fine;
      if id in connections {
        InsideKeeps(State(View(), map[]), {id}, connectionMeta - {id});
        var e := connections[id];
        connections := connections - {id};
        connectionMeta := connectionMeta - {id};
        answer := StopConnection(e.conn);
        assert ConnsOf(old(View()), {id}) == {e.conn};
      }
    }

    /** Starts, keeps or replaces the connection of a config.  Run alone it touches no
        other config, leaves what the answers of the channels call for, and what it
        does is a run of the machine. */
    method EnsureConnection(c: Config) returns (failed: bool, ghost asks: seq<ChannelAnswer>)
      requires Valid()
      modifies this
      ensures Valid()
      ensures answers == old(answers) + asks && Dialogue(old(connections), c, asks)
      ensures connections == Ensured(old(connections), c, asks, old(created))
      ensures failed <==> Failed(asks)
      ensures c.id in connectionMeta && (connectionMeta[c.id].failed <==> asks[|asks| - 1] == Receiver(false) || failed)
      ensures connections - {c.id} == old(connections) - {c.id}
      ensures connectionMeta - {c.id} == old(connectionMeta) - {c.id}
      ensures old(created) <= created && old(stopped) <= stopped
      ensures asks[|asks| - 1] == ConnectCalled(true) && c.id in old(connections) ==> old(connections)[c.id].conn in stopped
    {
      hide Inv;
      failed := false;
      ghost var t: ThreadId := 0;
      ghost var s := State(View(), map[t := Ensuring(c)]);
      BeginsAlone(State(View(), map[]), s, t);
      var receiver := GetReceiver();
      asks := [Receiver(receiver)];
      var running: bool := *;
      EnterKeeps(s, t, receiver, running);
      if !receiver {
        s := Entered(s, t, receiver, running);
        SetStatus(c.id, Status(false, true));
        AloneAgain(s, View());
      } else if c.id !in connections {
        assert Entered(s, t, receiver, running) == State(View(), map[t := Checking(c)]);
        ghost var more;
        failed, more := ConnectAndInsert(c, State(View(), map[t := Checking(c)]), t);
        asks := asks + more;
        assert asks[1..] == more;
      } else if connections[c.id].config.updatedAt >= c.updatedAt {
        s := Entered(s, t, receiver, running);
        EntryIsItsConfigs(old(View()), c.id);
        SetStatus(c.id, Status(running, false));
        AloneAgain(s, View());
      } else {
        EntryIsItsConfigs(old(View()), c.id);
        var e := connections[c.id];
        connections := connections - {c.id};
        assert Entered(s, t, receiver, running) == State(View(), map[t := Replacing(c, e)]);
        ghost var more;
        failed, more := Replace(c, e, State(View(), map[t := Replacing(c, e)]), t);
        asks := asks + more;
        assert asks[1..] == more && asks[2..] == more[1..];
        assert connections == Ensured(old(connections), c, asks, old(created));
      }
    }

    /** Stops the connection just taken out, then starts its successor; one that
        cannot be stopped goes back. */
    method Replace(c: Config, e: Entry, ghost s0: State, ghost t: ThreadId)
      returns (failed: bool, ghost asks: seq<ChannelAnswer>)
      requires s0 == State(View(), map[t := Replacing(c, e)]) && Inv(s0)
      requires c.id !in connections && e.config.id == c.id
      modifies this
      ensures Valid()
      ensures answers == old(answers) + asks
      ensures asks != [] && asks[0].StopCalled? && asks[0].conn == e.conn
      ensures if asks[0].answer.Fine? then AsksToConnect(asks[1..]) else |asks| == 1
      ensures connections ==
        if asks[0].answer.Unsupported? then old(connections)[c.id := e]
        else if asks[|asks| - 1] == ConnectCalled(true) then old(connections)[c.id := Entry(c, old(created))]
        else old(connections)
      ensures failed <==> Failed(asks)
      ensures c.id in connectionMeta && (connectionMeta[c.id].failed <==> asks[|asks| - 1] == Receiver(false) || failed)
      ensures connectionMeta - {c.id} == old(connectionMeta) - {c.id}
      ensures old(created) <= created && old(stopped) + {e.conn} <= stopped
    {
      hide Inv;
      failed := false;
      var answer := StopConnection(e.conn);
      asks := [StopCalled(e.conn, answer)];
      StopKeeps(s0, t, answer);
      ghost var s := OldStopped(s0, t, answer);
      if answer.Fine? {
        assert s == State(View(), map[t := Checking(c)]);
        ghost var more;
        failed, more := ConnectAndInsert(c, s, t);
        asks := asks + more;
        assert asks[1..] == more;
      } else if answer.Unsupported? {
        var running: bool := *;
        ReinsertKeeps(s, t, running);
        connections := connections[c.id := e];
        SetStatus(c.id, Status(running, false));
        AloneAgain(Reinserted(s, t, running), View());
      } else {
        failed := true;
        EveryStep(s, Mark(t));
        SetStatus(c.id, Status(false, true));
        AloneAgain(Next(s, Mark(t)), View());
      }
    }

    /** The second half: check again, connect, insert. */
    method ConnectAndInsert(c: Config, ghost s0: State, ghost t: ThreadId)
      returns (failed: bool, ghost asks: seq<ChannelAnswer>)
      requires s0 == State(View(), map[t := Checking(c)]) && Inv(s0) && c.id !in connections
      modifies this
      ensures Valid()
      ensures answers == old(answers) + asks && AsksToConnect(asks)
      ensures connections ==
        if asks[|asks| - 1] == ConnectCalled(true) then old(connections)[c.id := Entry(c, old(created))] else old(connections)
      ensures failed <==> Failed(asks)
      ensures c.id in connectionMeta && (connectionMeta[c.id].failed <==> asks[|asks| - 1] == Receiver(false) || failed)
      ensures connectionMeta - {c.id} == old(connectionMeta) - {c.id}
      ensures old(created) <= created && stopped == old(stopped)
    {
      hide Inv;
      failed := false;
      ghost var s := s0;
      var receiver := GetReceiver();
      asks := [Receiver(receiver)];
      CheckKeeps(s, t, receiver, true);
      s := Checked(s, t, receiver, true);
      if !receiver {
        SetStatus(c.id, Status(false, true));
        AloneAgain(s, View());
        return;
      }
      var conn := Dial();
      asks := [Receiver(true), ConnectCalled(conn.Some?)];
      if conn.None? {
        failed := true;
        EveryStep(s, Connect(t, false));
        s := Next(s, Connect(t, false));
        EveryStep(s, Mark(t));
        SetStatus(c.id, Status(false, true));
        AloneAgain(Next(s, Mark(t)), View());
        return;
      }
      ConnectStep(s, t);
      s := Connected(s, t, true);
      InsertKeeps(s, t, true);
      s := Inserted(s, t, true);
      connections := connections[c.id := Entry(c, conn.value)];
      SetStatus(c.id, Status(true, false));
      AloneAgain(s, View());
    }

    /** A reconcile that runs alone leaves only active configs in both maps, loses no
        connection, and stops those of all others. */
    method Reconcile(configs: seq<Config>)
      requires Valid()
      modifies this
      ensures Valid()
      ensures forall id :: id in connections || id in connectionMeta ==> exists c :: c in configs && c.id == id && !c.disabled
      ensures forall id :: id in old(connections) && (forall c :: c in configs && c.id == id ==> c.disabled) ==>
        old(connections)[id].conn in stopped
    {
      hide Valid;
      var active: set<ConfigId> := {};
      for k := 0 to |configs|
        invariant Valid()
        invariant forall id :: id in active <==> exists j :: 0 <= j < k && configs[j].id == id && !configs[j].disabled
        invariant forall id :: id in old(connections) && id !in active ==> id in connections && connections[id] == old(connections)[id]
      {
        var c := configs[k];
        if !c.disabled {
          ghost var before := connections;
          active := active + {c.id};
          var failed, _ := EnsureConnection(c);
          if failed {
            SetStatusKeeps(c.id, Status(false, true));
          }
          forall id | id in old(connections) && id !in active ensures id in connections && connections[id] == old(connections)[id] {
            assert id in before - {c.id};
            assert id in connections - {c.id};
          }
        }
      }
      SweepInactive(active);
      forall id | id in active ensures exists c :: c in configs && c.id == id && !c.disabled {
        var j :| 0 <= j < |configs| && configs[j].id == id && !configs[j].disabled;
        assert configs[j] in configs;
      }
    }

    method SetStatusKeeps(id: ConfigId, x: Status)
      requires Valid()
      modifies `connectionMeta
      ensures Valid() && View() == WithStatus(old(View()), id, x)
    {
      SetStatus(id, x);
      ThreadStep(State(old(View()), map[]), State(View(), map[]), 0);
    }

    method SweepInactive(active: set<ConfigId>)
      requires Valid()
      modifies `connections, `connectionMeta, `stopped, `answers
      ensures Valid() && View() == Swept(old(View()), active)
      ensures connections.Keys <= active && connectionMeta.Keys <= active
      ensures forall id :: id in old(connections) && id !in active ==> old(connections)[id].conn in stopped
    {
      hide Inv;
      InsideKeeps(State(View(), map[]), connections.Keys - active, Swept(View(), active).meta);
      ghost var s := State(View(), map[]);
      DropInside(connections.Keys - active);
      connectionMeta := map id | id in connectionMeta && id in active :: connectionMeta[id];
      assert connectionMeta == Swept(old(View()), active).meta;
      assert State(View(), map[]) == s.(shared := Swept(old(View()), active));
    }
  }

  lemma OneMoreInside(s: Shared, gone: set<ConfigId>, id: ConfigId)
    requires id in s.entries && id !in gone
    ensures var u := StoppedInside(s, gone);
      StoppedInside(s, gone + {id}) ==
        u.(entries := u.entries - {id}, meta := u.meta - {id}, stopped := u.stopped + {s.entries[id].conn})
      && u.entries[id] == s.entries[id]
  {
    assert ConnsOf(s, gone + {id}) == ConnsOf(s, gone) + {s.entries[id].conn};
  }

  lemma BeginsAlone(s: State, u: State, t: ThreadId)
    requires Inv(s) && s.threads == map[] && u.shared == s.shared && u.threads.Keys == {t} && u.threads[t].Ensuring?
    ensures Inv(u)
  {
    ThreadStep(s, u, t);
  }

  lemma EntryIsItsConfigs(v: Shared, id: ConfigId)
    requires Inv(State(v, map[])) && id in v.entries
    ensures v.entries[id].config.id == id
  {
  }

  lemma AloneAgain(s: State, v: Shared)
    requires Inv(s) && s.shared == v && s.threads == map[]
    ensures Inv(State(v, map[]))
  {
    assert s == State(v, map[]);
  }
}
