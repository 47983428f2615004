/** The delete lifecycle of a bot: an ordered list of cleanups, each of which may
    fail and put the bot back, before its row goes. */
module BotLifecycle {
  import opened Options
  import opened Workspace
  import opened Repository
  import opened Passes
  import opened Protocol
  import opened Fencing
  import opened Runs
  import opened Deletion

  type AccountId = nat
  type SecretId = nat

  /** A status the reconciler derived and is about to write. */
  datatype StatusWrite = StatusWrite(bot: BotId, status: BotStatus)

  /** The status a failing deletion returns the bot to. */
  function RevertStatus(before: BotStatus): BotStatus {
    if before.FailedStatus? then FailedStatus else Ready
  }

  /** A failing deletion puts the bot back where it came from exactly when that was
      `ready` or `failed`.  A bot still being created comes out ready, and so does
      a failed bot that is deleted a second time while `deleting`. */
  lemma PutBack(before: BotStatus)
    ensures RevertStatus(before) == before <==> !before.Creating? && !before.Deleting?
    ensures RevertStatus(RevertStatus(before)) == RevertStatus(before)
    ensures RevertStatus(Deleting) == Ready && RevertStatus(FailedStatus) == FailedStatus
  {
  }

  // ---------------------------------------------------------------------------
  // Derived statuses

  /** The statuses of all bots, and the derived ones that passed their check and are
      about to be written. */
  datatype Board = Board(statuses: map<BotId, BotStatus>, writes: map<ThreadId, StatusWrite>)

  /** Deriving a status from a workspace row takes a read of the bot's and then a
      write. */
  datatype Derivation = Check(id: ThreadId, bot: BotId, row: Row) | Put(id: ThreadId)

  predicate CanDerive(b: Board, d: Derivation) {
    match d
    case Check(id, _, _) => id !in b.writes
    case Put(id) => id in b.writes
  }

  /** Nothing is written for an unwanted workspace, over the same status, or to a bot
      being deleted. */
  predicate GoesThrough(b: Board, bot: BotId, row: Row) {
    && DeriveBotStatus(row).Some? && bot in b.statuses
    && !b.statuses[bot].Deleting? && b.statuses[bot] != DeriveBotStatus(row).value
  }

  function AfterDeriving(b: Board, d: Derivation): Board
    requires CanDerive(b, d)
  {
    match d
    case Check(id, bot, row) =>
      if GoesThrough(b, bot, row) then b.(writes := b.writes[id := StatusWrite(bot, DeriveBotStatus(row).value)]) else b
    case Put(id) =>
      var w := b.writes[id];
      Board(if w.bot in b.statuses then b.statuses[w.bot := w.status] else b.statuses, b.writes - {id})
  }

  function Replay(b: Board, ds: seq<Derivation>): Option<Board>
    decreases |ds|
  {
    if ds == [] then Some(b)
    else if CanDerive(b, ds[0]) then Replay(AfterDeriving(b, ds[0]), ds[1..])
    else None
  }

  predicate NoWriteFor(b: Board, bot: BotId) {
    forall id :: id in b.writes ==> b.writes[id].bot != bot
  }

  /** No derived status is `deleting`. */
  predicate Sound(b: Board) {
    forall id :: id in b.writes ==> !b.writes[id].status.Deleting?
  }

  predicate IsDeleting(b: Board, bot: BotId) {
    bot in b.statuses && b.statuses[bot].Deleting?
  }

  lemma {:induction false} ReplayKeeps(b: Board, ds: seq<Derivation>)
    requires Sound(b) && Replay(b, ds).Some?
    ensures var z := Replay(b, ds).value;
      && Sound(z) && z.statuses.Keys == b.statuses.Keys
      && forall bot :: IsDeleting(b, bot) && NoWriteFor(b, bot) ==> IsDeleting(z, bot) && NoWriteFor(z, bot)
    decreases |ds|
  {
    if ds != [] {
      ReplayKeeps(AfterDeriving(b, ds[0]), ds[1..]);
    }
  }

  /** A bot being deleted keeps that status, whatever is derived from now on, exactly
      when no derived status for it has already passed its check. */
  lemma KeepsDeleting(b: Board, bot: BotId)
    requires Sound(b) && IsDeleting(b, bot)
    ensures NoWriteFor(b, bot) <==>
      forall ds :: Replay(b, ds).Some? ==> IsDeleting(Replay(b, ds).value, bot)
  {
    if NoWriteFor(b, bot) {
      forall ds | Replay(b, ds).Some? ensures IsDeleting(Replay(b, ds).value, bot) {
        ReplayKeeps(b, ds);
      }
    } else {
      var id :| id in b.writes && b.writes[id].bot == bot;
      var ds := [Put(id)];
      assert ds[1..] == [];
      assert Replay(b, ds) == Some(AfterDeriving(b, Put(id)));
    }
  }

  ghost predicate LeadsTo(a: Board, b: Board) {
    exists ds :: Replay(a, ds) == Some(b)
  }

  lemma {:induction false} ReplayBoth(a: Board, ds: seq<Derivation>, b: Board, es: seq<Derivation>)
    requires Replay(a, ds) == Some(b)
    ensures Replay(a, ds + es) == Replay(b, es)
    decreases |ds|
  {
    if ds == [] {
      assert ds + es == es;
    } else {
      assert (ds + es)[1..] == ds[1..] + es;
      ReplayBoth(AfterDeriving(a, ds[0]), ds[1..], b, es);
    }
  }

  lemma LeadsFurther(a: Board, b: Board, d: Derivation)
    requires LeadsTo(a, b) && CanDerive(b, d)
    ensures LeadsTo(a, AfterDeriving(b, d))
  {
    var ds :| Replay(a, ds) == Some(b);
    ReplayBoth(a, ds, b, [d]);
    assert [d][1..] == [];
  }

  lemma LeadsKeeps(a: Board, b: Board)
    requires Sound(a) && LeadsTo(a, b)
    ensures Sound(b) && b.statuses.Keys == a.statuses.Keys
    ensures forall bot :: IsDeleting(a, bot) && NoWriteFor(a, bot) ==> IsDeleting(b, bot) && NoWriteFor(b, bot)
  {
    var ds :| Replay(a, ds) == Some(b);
    ReplayKeeps(a, ds);
  }

  // ---------------------------------------------------------------------------
  // The lifecycle

  /** The removal recorded in step `i` was accepted in state `j`; it is a real one
      exactly if the accepted row is still unwanted. */
  ghost predicate Removed(c: Config, run: seq<State>, steps: seq<Step>, i: nat, j: nat) {
    && |run| == |steps| + 1 && i < j < |run|
    && steps[i] == Intend(UNWANTED)
    && Accepted(c, run[j].row, run[i + 1].row.generation)
    && (RemovedForGood(run, steps, i, j) <==> run[j].row.desired.Gone?)
  }

  lemma RemovalIsReal(c: Config, run: seq<State>, steps: seq<Step>, i: nat, j: nat)
    requires IsRun(c, run, steps) && i < j < |run| && steps[i] == Intend(UNWANTED)
    requires Accepted(c, run[j].row, run[i + 1].row.generation)
    ensures Removed(c, run, steps, i, j)
  {
    DeletionIsHonest(c, run, steps, i, j);
  }

  /** The answer a wait for that generation is looking for. */
  predicate Answers(c: Config, w: Row, generation: nat) {
    w.generation >= generation && w.Final(c.maxAttempts)
  }

  /** The request of the lifecycle, if it is part of the run, is the step `at`. */
  predicate Requests(run: seq<State>, steps: seq<Step>, at: Option<nat>) {
    |run| == |steps| + 1 && (at.Some? ==> at.value < |steps| && steps[at.value] == Intend(UNWANTED))
  }

  /** As far as the run goes, the request has no answer that still stands at its end. */
  predicate Unanswered(c: Config, run: seq<State>, steps: seq<Step>, at: Option<nat>)
    requires Requests(run, steps, at)
  {
    at.None? || !Answers(c, run[|run| - 1].row, run[at.value + 1].row.generation)
  }

  /** The run answers the request, and every answer on it is an absent workspace. */
  ghost predicate AnsweredAbsent(c: Config, run: seq<State>, steps: seq<Step>, at: Option<nat>)
    requires Requests(run, steps, at)
  {
    && !Unanswered(c, run, steps, at)
    && forall j :: at.value < j < |run| && Answers(c, run[j].row, run[at.value + 1].row.generation) ==>
         run[j].row.observed.Absent?
  }

  /** A status the lifecycle asked to be written, and whether it was. */
  datatype StatusAsk = StatusAsk(bot: BotId, status: BotStatus, ok: bool)

  class Bots {
    const configured: bool        // a Connect-It client exists
    const hasConnectors: bool     // the optional collaborators that are wired
    const hasWorkspaces: bool
    const healthy: bool           // the database and all services answer, and in time

    var statuses: map<BotId, BotStatus>        // the bots table
    var writes: map<ThreadId, StatusWrite>     // status writes past their check
    var bindings: map<BotId, seq<AccountId>>   // connector bindings of each bot
    var remote: set<AccountId>                 // live connections at Connect-It
    var secrets: map<SecretId, set<BotId>>     // active credentials and the bots that use them
    ghost var asked: seq<StatusAsk>            // every status the lifecycle asked for
    ghost var answers: seq<Row>                // every row a wait for the workspace returned
    ghost var failures: nat                    // calls that failed

    constructor (configured: bool, hasConnectors: bool, hasWorkspaces: bool, healthy: bool)
      ensures Sound(View()) && NoOrphans()
    {
      this.configured, this.hasConnectors, this.hasWorkspaces := configured, hasConnectors, hasWorkspaces;
      this.healthy := healthy;
      statuses, writes, bindings, remote, secrets := map[], map[], map[], {}, map[];
      asked, answers, failures := [], [], 0;
    }

    function View(): Board
      reads this
    {
      Board(statuses, writes)
    }

    /** No active credential is without a bot that could still find it. */
    ghost predicate NoOrphans()
      reads this
    {
      forall k :: k in secrets ==> secrets[k] != {}
    }

    /** No connection stays live at Connect-It for a binding of the bot. */
    ghost predicate Unlinked(bot: BotId)
      reads this
    {
      bot in bindings ==> forall a :: a in bindings[bot] ==> a !in remote
    }

    /** A call to the database or to another service, which may fail. */
    method Try() returns (ok: bool)
      modifies `failures
      ensures healthy ==> ok
      ensures failures == old(failures) + if ok then 0 else 1
    {
      ok := *;
      if healthy {
        ok := true;
      }
      if !ok {
        failures := failures + 1;
      }
    }

    // The reconciler's status writes: a read, then a write.

    method CheckStatus(id: ThreadId, bot: BotId, row: Row)
      requires id !in writes
      modifies `writes
      ensures View() == AfterDeriving(old(View()), Check(id, bot, row))
    {
      var status := DeriveBotStatus(row);
      if status.None? || bot !in statuses {
        return;
      }
      if statuses[bot] == Deleting || statuses[bot] == status.value {
        return;
      }
      writes := writes[id := StatusWrite(bot, status.value)];
    }

    method WriteStatus(id: ThreadId)
      requires id in writes
      modifies `writes, `statuses
      ensures View() == AfterDeriving(old(View()), Put(id))
    {
      var w := writes[id];
      writes := writes - {id};
      if w.bot in statuses {
        statuses := statuses[w.bot := w.status];
      }
    }

    /** Whatever the reconciler derives meanwhile. */
    method Meanwhile()
      modifies `writes, `statuses
      ensures LeadsTo(old(View()), View())
    {
      hide Replay;
      var n :| 0 <= n;
      ghost var first := View();
      assert LeadsTo(first, first) by { NothingDerived(first); }
      while n > 0
        invariant LeadsTo(first, View())
      {
        var id: ThreadId :| 0 <= id;
        if id in writes {
          LeadsFurther(first, View(), Put(id));
          WriteStatus(id);
        } else {
          var bot: BotId :| 0 <= bot;
          var row: Row := *;
          LeadsFurther(first, View(), Check(id, bot, row));
          CheckStatus(id, bot, row);
        }
        n := n - 1;
      }
    }

    method UpdateStatus(bot: BotId, status: BotStatus) returns (ok: bool)
      modifies `statuses, `asked, `failures
      ensures statuses == if ok && bot in old(statuses) then old(statuses)[bot := status] else old(statuses)
      ensures asked == old(asked) + [StatusAsk(bot, status, ok)]
      ensures failures == old(failures) + (if ok then 0 else 1) && (healthy ==> ok)
    {
      ok := Try();
      if ok && bot in statuses {
        statuses := statuses[bot := status];
      }
      asked := asked + [StatusAsk(bot, status, ok)];
    }

    /** Marks the bot and answers with the status a failure returns to; without an
        answer nothing changed, and there was no such bot or a call failed. */
    method Delete(bot: BotId) returns (r: Option<BotStatus>)
      modifies `statuses, `asked, `failures
      ensures r.None? ==> statuses == old(statuses) && (bot !in statuses || failures > old(failures))
      ensures healthy ==> (r.Some? <==> bot in old(statuses))
      ensures r.Some? ==>
        && bot in old(statuses) && statuses == old(statuses)[bot := Deleting]
        && r.value == RevertStatus(old(statuses)[bot])
        && asked == old(asked) + if old(statuses)[bot].Deleting? then [] else [StatusAsk(bot, Deleting, true)]
    {
      var readable := Try();
      if !readable || bot !in statuses {
        return None;
      }
      var status := statuses[bot];
      var revert := Ready;
      if status != Deleting {
        if status == FailedStatus {
          revert := FailedStatus;
        }
        var ok := UpdateStatus(bot, Deleting);
        if !ok {
          return None;
        }
      }
      r := Some(revert);
    }

    /** The bot has bindings that nothing here could close. */
    predicate CannotUnlink(bot: BotId)
      reads this
    {
      hasConnectors && !configured && bot in bindings && bindings[bot] != []
    }

    /** Every connection is closed, or the first that cannot be stops the cleanup
        with all bindings kept. */
    method CleanupConnectors(bot: BotId) returns (ok: bool)
      requires hasConnectors
      modifies `remote, `failures
      ensures ok ==> Unlinked(bot)
      ensures failures >= old(failures) && (healthy ==> failures == old(failures))
      ensures !ok ==> failures > old(failures) || CannotUnlink(bot)
      ensures CannotUnlink(bot) ==> !ok
      ensures remote <= old(remote)
      ensures forall a :: a in old(remote) && (bot in bindings ==> a !in bindings[bot]) ==> a in remote
    {
      ok := Try();
      if !ok {
        return;
      }
      var items := if bot in bindings then bindings[bot] else [];
      if items == [] {
        return true;
      }
      if !configured {
        return false;
      }
      for i := 0 to |items|
        invariant remote <= old(remote) && failures == old(failures)
        invariant forall k :: 0 <= k < i ==> items[k] !in remote
        invariant forall a :: a in old(remote) && a !in items ==> a in remote
      {
        ok := Try();
        if !ok {
          return;
        }
        remote := remote - {items[i]};
      }
      ok := true;
    }

    /** Revokes what no other bot uses. */
    method RevokeCredentials(bot: BotId) returns (ok: bool)
      modifies `secrets, `failures
      ensures ok ==> secrets == map k | k in old(secrets) && old(secrets)[k] != {bot} :: old(secrets)[k]
      ensures !ok ==> secrets == old(secrets)
      ensures failures == old(failures) + (if ok then 0 else 1) && (healthy ==> ok)
    {
      ok := Try();
      if ok {
        secrets := map k | k in secrets && secrets[k] != {bot} :: secrets[k];
      }
    }

    /** Deletes the row; bindings and the bot's uses of credentials go with it. */
    method DeleteRow(bot: BotId) returns (ok: bool)
      modifies `statuses, `bindings, `secrets, `failures
      ensures statuses == if ok then old(statuses) - {bot} else old(statuses)
      ensures bindings == if ok then old(bindings) - {bot} else old(bindings)
      ensures secrets == if ok then map k | k in old(secrets) :: old(secrets)[k] - {bot} else old(secrets)
      ensures failures == old(failures) + (if ok then 0 else 1) && (healthy ==> ok)
    {
      ok := Try();
      if ok {
        statuses := statuses - {bot};
        bindings := bindings - {bot};
        secrets := map k | k in secrets :: secrets[k] - {bot};
      }
    }

    // The bot's workspace lives on a run of the protocol; the lifecycle meets it
    // at growing positions.

    /** Records the removal, or fails without a trace. */
    method RequestAbsent(run: seq<State>, steps: seq<Step>, at: Option<nat>) returns (r: Option<nat>)
      requires Requests(run, steps, at)
      modifies `failures
      ensures r.Some? ==> at.Some? && r.value == run[at.value + 1].row.generation
      ensures failures >= old(failures) && (healthy ==> failures == old(failures))
      ensures r.None? ==> at.None? || failures > old(failures)
    {
      var ok := Try();
      r := if ok && at.Some? then Some(run[at.value + 1].row.generation) else None;
    }

    /** Polls until the workspace has a final answer for the generation, for as long as
        the run goes.  A failure still inside its fast budget is not one. */
    method Await(c: Config, run: seq<State>, from: nat, generation: nat) returns (r: Option<Row>, j: nat)
      requires from < |run|
      modifies `answers, `failures
      ensures r.Some? ==>
        && from <= j < |run| && r.value == run[j].row && Answers(c, r.value, generation)
        && !(r.value.observed.Failed? && r.value.attempts < c.maxAttempts)
      ensures answers == old(answers) + if r.Some? then [r.value] else []
      ensures failures >= old(failures) && (healthy ==> failures == old(failures))
      ensures r.None? ==> failures > old(failures) || !Answers(c, run[|run| - 1].row, generation)
    {
      j, r := from, None;
      while true
        invariant from <= j < |run| && failures == old(failures) && answers == old(answers)
        decreases |run| - j
      {
        var readable := Try();
        if !readable {
          return;
        }
        var w := run[j].row;
        if w.generation >= generation && w.Final(c.maxAttempts) {
          answers := answers + [w];
          return Some(w), j;
        }
        var inTime := Try();
        if !inTime || j == |run| - 1 {
          return;
        }
        var pause :| 0 <= pause;
        j := if j + 1 + pause < |run| then j + 1 + pause else |run| - 1;
      }
    }

    /** The last wait ended with a workspace that is not absent. */
    ghost predicate NotAbsent(before: seq<Row>)
      reads this
    {
      |before| < |answers| && !answers[|answers| - 1].observed.Absent?
    }

    /** The removal is requested and answered with an absent workspace. */
    method RemoveWorkspace(c: Config, run: seq<State>, steps: seq<Step>, at: Option<nat>) returns (ok: bool, j: nat)
      requires IsRun(c, run, steps) && Requests(run, steps, at) && Sound(View())
      modifies `writes, `statuses, `answers, `failures
      ensures LeadsTo(old(View()), View())
      ensures ok ==> at.Some? && Removed(c, run, steps, at.value, j) && answers == old(answers) + [run[j].row]
      ensures failures >= old(failures) && (healthy ==> failures == old(failures))
      ensures !ok ==> failures > old(failures) || NotAbsent(old(answers)) || Unanswered(c, run, steps, at)
      ensures healthy && AnsweredAbsent(c, run, steps, at) ==> ok
    {
      hide IsRun, Replay;
      j, ok := 0, false;
      var generation := RequestAbsent(run, steps, at);
      if generation.None? {
        NothingDerived(View());
        return;
      }
      Meanwhile();
      var outcome;
      outcome, j := Await(c, run, at.value + 1, generation.value);
      if outcome.None? || !outcome.value.observed.Absent? {
        return;
      }
      RemovalIsReal(c, run, steps, at.value, j);
      ok := true;
    }

    /** Something stood in the way: a call that failed, bindings nobody can close, a
        workspace that is still there, or no answer about it. */
    ghost predicate Hindered(c: Config, run: seq<State>, steps: seq<Step>, at: Option<nat>,
                             bot: BotId, before: seq<Row>, failed: nat)
      requires Requests(run, steps, at)
      reads this
    {
      failures > failed || CannotUnlink(bot) || NotAbsent(before) || (hasWorkspaces && Unanswered(c, run, steps, at))
    }

    /** Nothing stands in the way. */
    ghost predicate Clear(c: Config, run: seq<State>, steps: seq<Step>, at: Option<nat>, bot: BotId)
      requires Requests(run, steps, at)
      reads this
    {
      healthy && !CannotUnlink(bot) && (hasWorkspaces ==> AnsweredAbsent(c, run, steps, at))
    }

    /** The cleanups in their order; the first that fails ends the deletion with the
        row kept. */
    method CleanUp(c: Config, run: seq<State>, steps: seq<Step>, at: Option<nat>, bot: BotId) returns (ok: bool, j: nat)
      requires IsRun(c, run, steps) && Requests(run, steps, at) && NoOrphans() && Sound(View())
      modifies `statuses, `writes, `bindings, `remote, `secrets, `answers, `failures
      ensures NoOrphans()
      ensures ok ==> statuses.Keys == old(statuses.Keys) - {bot} && bindings == old(bindings) - {bot}
      ensures !ok ==> LeadsTo(old(View()), View()) && bindings == old(bindings)
      ensures !ok ==> Hindered(c, run, steps, at, bot, old(answers), old(failures))
      ensures old(Clear(c, run, steps, at, bot)) ==> ok
      ensures old(CannotUnlink(bot)) ==> !ok
      ensures ok && hasConnectors && bot in old(bindings) ==> forall a :: a in old(bindings)[bot] ==> a !in remote
      ensures forall k :: k in old(secrets) && old(secrets)[k] - {bot} != {} ==> k in secrets
      ensures ok && hasWorkspaces ==> at.Some? && Removed(c, run, steps, at.value, j)
    {
      hide IsRun, Removed, Replay, LeadsTo, Sound, AnsweredAbsent, Unanswered;
      j, ok := 0, false;
      ghost var first := View();
      NothingDerived(first);
      if hasConnectors {
        var cleaned := CleanupConnectors(bot);
        if !cleaned {
          return;
        }
      }
      Meanwhile();
      LeadsKeeps(first, View());
      if hasWorkspaces {
        ghost var mid := View();
        var removed;
        removed, j := RemoveWorkspace(c, run, steps, at);
        LeadsAll(first, mid, View());
        LeadsKeeps(first, View());
        if !removed {
          return;
        }
      }
      ghost var mid := View();
      ok := Erase(bot);
      if !ok { LeadsAll(first, mid, View()); }
    }

    method Erase(bot: BotId) returns (ok: bool)
      requires NoOrphans() && Sound(View())
      modifies `writes, `statuses, `bindings, `secrets, `failures
      ensures NoOrphans()
      ensures ok ==> statuses.Keys == old(statuses.Keys) - {bot} && bindings == old(bindings) - {bot}
      ensures !ok ==> LeadsTo(old(View()), View()) && bindings == old(bindings)
      ensures failures == old(failures) + (if ok then 0 else 1) && (healthy ==> ok)
      ensures forall k :: k in old(secrets) && old(secrets)[k] - {bot} != {} ==> k in secrets
    {
      hide Replay, LeadsTo, Sound;
      ghost var first := View();
      NothingDerived(first);
      ok := RevokeCredentials(bot);
      if !ok {
        return;
      }
      Meanwhile();
      LeadsKeeps(first, View());
      ok := DeleteRow(bot);
    }

    /** The lifecycle succeeds only past every cleanup, and always when nothing stands
        in the way.  Every other way out has a cause, keeps the bot's row, and asks last
        for the status to revert to, which the bot then carries unless that very write
        failed. */
    method RunDeleteLifecycle(c: Config, run: seq<State>, steps: seq<Step>, at: Option<nat>,
                              bot: BotId, revertStatus: BotStatus)
      returns (ok: bool, reverted: bool, j: nat)
      requires IsRun(c, run, steps) && Requests(run, steps, at) && NoOrphans() && Sound(View())
      modifies this
      ensures NoOrphans()
      ensures ok ==> statuses.Keys == old(statuses.Keys) - {bot} && bindings == old(bindings) - {bot}
      ensures ok ==> asked == old(asked)
      ensures !ok ==> statuses.Keys == old(statuses.Keys) && bindings == old(bindings)
      ensures !ok ==> asked == old(asked) + [StatusAsk(bot, RevertStatus(revertStatus), reverted)]
      ensures !ok ==> Hindered(c, run, steps, at, bot, old(answers), old(failures))
      ensures old(Clear(c, run, steps, at, bot)) ==> ok
      ensures old(CannotUnlink(bot)) ==> !ok
      ensures !ok && reverted && bot in statuses ==> statuses[bot] == RevertStatus(revertStatus)
      ensures !ok && !reverted ==>
        (IsDeleting(old(View()), bot) && NoWriteFor(old(View()), bot) ==> IsDeleting(View(), bot))
      ensures ok && hasConnectors && bot in old(bindings) ==> forall a :: a in old(bindings)[bot] ==> a !in remote
      ensures forall k :: k in old(secrets) && old(secrets)[k] - {bot} != {} ==> k in secrets
      ensures ok && hasWorkspaces ==> at.Some? && Removed(c, run, steps, at.value, j)
    {
      hide IsRun, Removed, Replay, LeadsTo, Sound, AnsweredAbsent, Unanswered;
      var back := if revertStatus != FailedStatus then Ready else FailedStatus;
      reverted := false;
      ghost var first := View();
      ok, j := CleanUp(c, run, steps, at, bot);
      if !ok {
        LeadsKeeps(first, View());
        reverted := UpdateStatus(bot, back);
      }
    }
  }

  lemma NothingDerived(b: Board)
    ensures LeadsTo(b, b)
  {
    assert Replay(b, []) == Some(b);
  }

  lemma LeadsAll(a: Board, b: Board, c: Board)
    requires LeadsTo(a, b) && LeadsTo(b, c)
    ensures LeadsTo(a, c)
  {
    var ds :| Replay(a, ds) == Some(b);
    var es :| Replay(b, es) == Some(c);
    ReplayBoth(a, ds, b, es);
  }
}
