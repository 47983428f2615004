/** The slots of one process: which rows it is reconciling and for which pool.  One
    loop claims; passes finish at any moment in between. */
module Slots {
  import opened Options
  import opened Workspace
  import opened Repository
  import opened Sets

  datatype Pool = Shared | Removals | Provisionings

  /** The desired state a pool claims by. */
  function Filter(p: Pool): Option<Desired> {
    match p
    case Shared => None
    case Removals => Some(Gone)
    case Provisionings => Some(Present)
  }

  function HeldBy(running: map<BotId, Pool>, p: Pool): set<BotId> {
    set b | b in running && running[b] == p
  }

  /** One bot more or less in the pools. */
  lemma HeldAfterMark(running: map<BotId, Pool>, b: BotId, p: Pool, q: Pool)
    requires b !in running
    ensures |HeldBy(running[b := p], q)| == |HeldBy(running, q)| + if p == q then 1 else 0
  {
    if p == q {
      assert HeldBy(running[b := p], q) == HeldBy(running, q) + {b};
    } else {
      assert HeldBy(running[b := p], q) == HeldBy(running, q);
    }
  }

  lemma HeldAfterUnmark(running: map<BotId, Pool>, gone: set<BotId>, q: Pool)
    ensures HeldBy(running - gone, q) == HeldBy(running, q) - gone
    ensures |HeldBy(running - gone, q)| <= |HeldBy(running, q)|
  {
    SubsetIsSmaller(HeldBy(running - gone, q), HeldBy(running, q));
  }

  lemma HeldNoMore(before: map<BotId, Pool>, after: map<BotId, Pool>, gone: set<BotId>)
    requires after == before - gone && gone <= before.Keys
    ensures after.Keys <= before.Keys && before.Keys - after.Keys == gone
    ensures forall p: Pool :: |HeldBy(after, p)| <= |HeldBy(before, p)|
  {
    forall p: Pool ensures |HeldBy(after, p)| <= |HeldBy(before, p)| {
      HeldAfterUnmark(before, gone, p);
    }
  }

  type Rows = map<BotId, Row>

  /** Only leases of held rows may have been given up. */
  ghost predicate OnlyReleased(a: Rows, b: Rows, held: set<BotId>) {
    && a.Keys == b.Keys
    && forall k :: k in a ==> SameButLease(a[k], b[k]) && (k !in held ==> a[k] == b[k])
  }

  lemma ReleasedMore(a: Rows, b: Rows, gone: set<BotId>, bot: BotId, owner: Owner)
    requires OnlyReleased(a, b, gone)
    ensures OnlyReleased(a, if bot in b then b[bot := ReleasedBy(b[bot], owner)] else b, gone + {bot})
  {
  }

  lemma NothingReleased(a: Rows, gone: set<BotId>)
    ensures OnlyReleased(a, a, gone)
  {
  }

  /** No row differs but those held or claimed. */
  ghost predicate Apart(a: Rows, b: Rows, held: set<BotId>, claimed: set<BotId>) {
    a.Keys == b.Keys && forall k :: k in a && k !in held && k !in claimed ==> a[k] == b[k]
  }

  /** The claimed rows were candidates of the pool, but for the lease of a pass that
      ended just now, and carry a fresh lease. */
  ghost predicate Leased(rows: Rows, owner: Owner, until: Time, filter: Option<Desired>, claimed: Rows) {
    forall b :: b in claimed ==>
      && b in rows && claimed[b].leaseOwner == Some(owner) && claimed[b].leaseUntil == Some(until)
      && (filter.Some? ==> claimed[b].desired == filter.value)
      && SameButLease(rows[b].(version := claimed[b].version), claimed[b])
  }

  /** A candidate nobody here holds is left out only if the claim was cut short, and
      then nothing due later was taken. */
  ghost predicate NoneLeft(rows: Rows, held: set<BotId>, filter: Option<Desired>, now: Time, claimed: Rows, short: bool) {
    forall c :: c in rows && c !in held && Candidate(rows[c], filter, now) && c !in claimed ==>
      short && forall b :: b in claimed && b in rows ==> rows[b].nextAttempt <= rows[c].nextAttempt
  }

  lemma ClaimTakes(a: Rows, b: Rows, held: set<BotId>, owner: Owner, until: Time, filter: Option<Desired>, now: Time,
                   limit: nat, claimed: Rows)
    requires OnlyReleased(a, b, held)
    requires forall k :: k in claimed ==>
      && k in b && Candidate(b[k], filter, now) && claimed[k] == LeasedTo(b[k], owner, until)
    requires forall c :: c in b && Candidate(b[c], filter, now) && c !in claimed ==>
      && |claimed| == limit
      && forall k :: k in claimed ==> b[k].nextAttempt <= b[c].nextAttempt
    ensures Leased(a, owner, until, filter, claimed)
    ensures NoneLeft(a, held, filter, now, claimed, |claimed| >= limit)
    ensures Apart(a, b + claimed, held, claimed.Keys)
  {
    forall k | k in claimed ensures k in a && SameButLease(a[k], b[k]) && a[k].nextAttempt == b[k].nextAttempt {
    }
  }

  lemma ApartThen(a: Rows, b: Rows, c: Rows, held: set<BotId>, more: set<BotId>, claimed: set<BotId>, also: set<BotId>)
    requires Apart(a, b, held, claimed) && Apart(b, c, more, also) && more <= held + claimed
    ensures Apart(a, c, held, claimed + also)
  {
  }

  /** Of the rows that the pools claim by, all are taken but those held here. */
  ghost predicate TakenBy(rows: Rows, held: set<BotId>, ps: seq<Pool>, now: Time, claimed: set<BotId>) {
    forall c, p :: p in ps && c in rows && c !in held && Candidate(rows[c], Filter(p), now) ==> c in claimed
  }

  /** What earlier pools took and left carries over to the next one. */
  lemma TakenLater(a: Rows, b: Rows, held: set<BotId>, more: set<BotId>, ps: seq<Pool>, p: Pool, now: Time,
                   claimed: set<BotId>, taken: Rows)
    requires TakenBy(a, held, ps, now, claimed)
    requires Apart(a, b, held, claimed) && more <= held + claimed && NoneLeft(b, more, Filter(p), now, taken, false)
    ensures TakenBy(a, held, ps + [p], now, claimed + taken.Keys)
  {
    forall c | c in a && c !in held && Candidate(a[c], Filter(p), now) && c !in claimed ensures c in taken {
      assert b[c] == a[c];
    }
  }

  /** Between them the pools claim every due row. */
  lemma PoolsCover(rows: Rows, held: set<BotId>, ps: seq<Pool>, now: Time, claimed: set<BotId>)
    requires TakenBy(rows, held, ps, now, claimed) && (ps == [Removals, Provisionings] || ps == [Shared])
    ensures forall b :: b in rows && rows[b].Due(now) && b !in held ==> b in claimed
  {
    forall b | b in rows && rows[b].Due(now) && b !in held ensures b in claimed {
      var p := if |ps| == 1 then Shared else if rows[b].desired.Present? then Provisionings else Removals;
      assert p in ps && Candidate(rows[b], Filter(p), now);
    }
  }

  /** A round of the loop so far: which rows it claimed and started, and that nothing
      due was left out unless some pool ran short. */
  ghost predicate Round(first: Rows, rows: Rows, held: set<BotId>, holds: set<BotId>, started: set<BotId>,
                        claimed: set<BotId>, ps: seq<Pool>, now: Time, short: bool)
  {
    && Apart(first, rows, held, claimed) && holds <= held + started && started <= claimed
    && (!short ==> TakenBy(first, held, ps, now, claimed))
  }

  lemma RoundBegins(rows: Rows, held: set<BotId>, now: Time)
    ensures Round(rows, rows, held, held, {}, {}, [], now, false)
  {
  }

  lemma RoundGoesOn(first: Rows, before: Rows, rows: Rows, held: set<BotId>, busy: set<BotId>, holds: set<BotId>,
                    started: set<BotId>, claimed: set<BotId>, ps: seq<Pool>, now: Time, short: bool, p: Pool,
                    n: set<BotId>, taken: Rows, cut: bool)
    requires Round(first, before, held, busy, started, claimed, ps, now, short)
    requires Apart(before, rows, busy, taken.Keys) && holds <= busy + n && n <= taken.Keys
    requires !cut ==> NoneLeft(before, busy, Filter(p), now, taken, false)
    ensures Round(first, rows, held, holds, started + n, claimed + taken.Keys, ps + [p], now, short || cut)
  {
    ApartThen(first, before, rows, held, busy, claimed, taken.Keys);
    if !short && !cut {
      TakenLater(first, before, held, busy, ps, p, now, claimed, taken);
    }
  }

  lemma RoundOver(first: Rows, rows: Rows, held: set<BotId>, holds: set<BotId>, started: set<BotId>, claimed: set<BotId>,
                  ps: seq<Pool>, now: Time, short: bool)
    requires Round(first, rows, held, holds, started, claimed, ps, now, short)
    ensures holds <= held + started && started <= claimed
    ensures (ps == [Removals, Provisionings] || ps == [Shared]) && !short ==>
      forall b :: b in first && first[b].Due(now) && b !in held ==> b in claimed
  {
    if (ps == [Removals, Provisionings] || ps == [Shared]) && !short {
      PoolsCover(first, held, ps, now, claimed);
    }
  }

  lemma Same(rows: Rows, held: set<BotId>, owner: Owner, until: Time, filter: Option<Desired>)
    ensures Apart(rows, rows, held, {}) && Leased(rows, owner, until, filter, map[])
  {
  }

  lemma ReleasedIsApart(a: Rows, b: Rows, held: set<BotId>, gone: set<BotId>)
    requires OnlyReleased(a, b, gone) && gone <= held
    ensures OnlyReleased(a, b, held) && Apart(a, b, held, {})
  {
  }

  class Slots {
    const concurrency: nat
    const teardownConcurrency: nat
    const owner: Owner
    const lease: Time
    const repo: Repository
    var running: map<BotId, Pool>
    var passes: multiset<BotId>      // the passes this process has in flight
    var kicked: bool                 // a wake-up of the loop is pending
    var healthy: bool                // the database answers

    constructor (concurrency: nat, teardownConcurrency: nat, owner: Owner, lease: Time, repo: Repository)
      requires 0 < concurrency
      ensures Valid() && running == map[]
    {
      this.concurrency, this.teardownConcurrency := concurrency, teardownConcurrency;
      this.owner, this.lease, this.repo := owner, lease, repo;
      running, passes, kicked, healthy := map[], multiset{}, false, true;
    }

    function Size(p: Pool): nat {
      if p.Removals? then teardownConcurrency else concurrency
    }

    /** No pool runs more passes than it has slots, and no bot has two passes here. */
    ghost predicate Valid()
      reads this
    {
      && (forall p: Pool :: |HeldBy(running, p)| <= Size(p))
      && (forall b :: passes[b] == if b in running then 1 else 0)
    }

    function Pools(): (ps: seq<Pool>) {
      if teardownConcurrency > 0 then [Removals, Provisionings] else [Shared]
    }

    /** How many rows may be claimed for a pool. */
    method FreeSlots(p: Pool) returns (n: nat)
      requires Valid()
      ensures n == Size(p) - |HeldBy(running, p)|
    {
      var free: int := Size(p);
      var left := running.Keys;
      ghost var counted: set<BotId> := {};
      while left != {}
        invariant left <= running.Keys
        invariant forall b :: b in counted <==> b in running && running[b] == p && b !in left
        invariant free == Size(p) - |counted|
        decreases |left|
      {
        var b :| b in left;
        left := left - {b};
        if running[b] == p {
          free := free - 1;
          counted := counted + {b};
        }
      }
      assert counted == HeldBy(running, p);
      n := if free <= 0 then 0 else free;
    }

    method MarkRunning(bot: BotId, p: Pool) returns (ok: bool)
      modifies `running
      ensures ok <==> bot !in old(running)
      ensures running == if ok then old(running)[bot := p] else old(running)
    {
      if bot in running {
        return false;
      }
      running := running[bot := p];
      ok := true;
    }

    /** A pass ends: the row is released, then its slot, then the loop is woken if
        the pass left something recorded. */
    method FinishPass(bot: BotId, recorded: bool)
      requires Valid() && bot in running
      modifies `running, `passes, `kicked, repo
      ensures Valid()
      ensures running == old(running) - {bot} && passes == old(passes) - multiset{bot}
      ensures kicked == (old(kicked) || recorded)
      ensures repo.rows == if bot in old(repo.rows)
                           then old(repo.rows)[bot := ReleasedBy(old(repo.rows)[bot], owner)] else old(repo.rows)
    {
      repo.Release(bot, owner);
      forall p: Pool ensures |HeldBy(running - {bot}, p)| <= |HeldBy(running, p)| {
        HeldAfterUnmark(running, {bot}, p);
      }
      running := running - {bot};
      passes := passes - multiset{bot};
      kicked := kicked || recorded;
    }

    /** Any passes end, in any order; the rows of the others keep their lease. */
    method FinishSome()
      requires Valid()
      modifies `running, `passes, `kicked, repo
      ensures Valid()
      ensures running.Keys <= old(running.Keys)
      ensures forall p: Pool :: |HeldBy(running, p)| <= |HeldBy(old(running), p)|
      ensures OnlyReleased(old(repo.rows), repo.rows, old(running.Keys) - running.Keys)
    {
      hide OnlyReleased, HeldBy, Valid;
      ghost var gone: set<BotId> := {};
      assert running == old(running) - gone;
      NothingReleased(repo.rows, gone);
      var stop: bool := *;
      while !stop && running != map[]
        invariant Valid() && gone <= old(running.Keys) && running == old(running) - gone
        invariant OnlyReleased(old(repo.rows), repo.rows, gone)
        decreases |running|
      {
        var bot :| bot in running;
        var recorded: bool := *;
        ReleasedMore(old(repo.rows), repo.rows, gone, bot, owner);
        gone := gone + {bot};
        FinishPass(bot, recorded);
        stop := *;
      }
      HeldNoMore(old(running), running, gone);
    }

    /** Starts a pass, unless one for the bot is still running here. */
    method StartPass(bot: BotId, p: Pool) returns (ok: bool)
      requires Valid() && |HeldBy(running, p)| < Size(p)
      modifies `running, `passes
      ensures Valid()
      ensures ok <==> bot !in old(running)
      ensures running == if ok then old(running)[bot := p] else old(running)
      ensures passes == if ok then old(passes) + multiset{bot} else old(passes)
      ensures |HeldBy(running, p)| <= |HeldBy(old(running), p)| + 1
    {
      ghost var before := running;
      ok := MarkRunning(bot, p);
      if ok {
        forall q: Pool ensures |HeldBy(running, q)| == |HeldBy(before, q)| + if p == q then 1 else 0 {
          HeldAfterMark(before, bot, p, q);
        }
        passes := passes + multiset{bot};
      }
    }

    /** The next claimed row, after whatever passes ended meanwhile. */
    method StartNext(bot: BotId, p: Pool) returns (ok: bool)
      requires Valid() && |HeldBy(running, p)| < Size(p)
      modifies `running, `passes, `kicked, repo
      ensures Valid()
      ensures |HeldBy(running, p)| <= |HeldBy(old(running), p)| + 1
      ensures !ok ==> bot in old(running)
      ensures forall b :: b in running ==> b in old(running) || (ok && b == bot)
      ensures Apart(old(repo.rows), repo.rows, old(running.Keys), {})
    {
      FinishSome();
      ok := StartPass(bot, p);
    }

    /** Starts the claimed rows one after another, while other passes end.  A row
        this process is still working on keeps its new lease for that pass. */
    method StartAll(claimed: set<BotId>, p: Pool) returns (started: set<BotId>)
      requires Valid() && |HeldBy(running, p)| + |claimed| <= Size(p)
      modifies `running, `passes, `kicked, repo
      ensures Valid()
      ensures started <= claimed
      ensures forall b :: b in claimed ==> b in started || b in old(running)
      ensures forall b :: b in running ==> b in old(running) || b in started
      ensures Apart(old(repo.rows), repo.rows, old(running.Keys), claimed)
    {
      started := {};
      var todo := claimed;
      while todo != {}
        invariant Valid() && todo <= claimed
        invariant |HeldBy(running, p)| + |todo| <= Size(p)
        invariant started <= claimed && started !! todo
        invariant forall b :: b in claimed ==> b in todo || b in started || b in old(running)
        invariant forall b :: b in running ==> b in old(running) || b in started
        invariant Apart(old(repo.rows), repo.rows, old(running.Keys), claimed)
        decreases |todo|
      {
        var bot :| bot in todo;
        todo := todo - {bot};
        var ok := StartNext(bot, p);
        if ok {
          started := started + {bot};
        }
      }
    }

    /** A statement that may fail, unless the database answers. */
    method Works() returns (ok: bool)
      ensures healthy ==> ok
    {
      var lucky: bool := *;
      ok := healthy || lucky;
    }

    /** Claims due rows for the free slots of one pool and starts them.  Nothing is
        claimed beyond what can start at once, so no leased row waits for a slot; and
        a due row that this process does not hold is left out only when the slots ran
        out, for rows that were due no later. */
    method ClaimInto(p: Pool, now: Time)
      returns (ok: bool, started: set<BotId>, skipped: bool, more: bool, claimed: map<BotId, Row>)
      requires Valid()
      modifies `running, `passes, `kicked, repo
      ensures Valid()
      ensures healthy ==> ok
      ensures !ok ==> started == {} && claimed == map[] && !skipped && !more
      ensures ok ==> (skipped <==> |HeldBy(old(running), p)| == Size(p)) && (!skipped ==> |HeldBy(old(running), p)| < Size(p))
      ensures |claimed| + |HeldBy(old(running), p)| <= Size(p)
      ensures ok ==> (more <==> !skipped && |claimed| + |HeldBy(old(running), p)| == Size(p))
      ensures Leased(old(repo.rows), owner, now + lease, Filter(p), claimed)
      ensures ok && !skipped ==> NoneLeft(old(repo.rows), old(running.Keys), Filter(p), now, claimed, more)
      ensures started <= claimed.Keys && claimed.Keys - started <= old(running.Keys)
      ensures running.Keys <= old(running.Keys) + started
      ensures Apart(old(repo.rows), repo.rows, old(running.Keys), claimed.Keys)
    {
      hide OnlyReleased, Apart, Leased, NoneLeft, Candidate;
      Same(repo.rows, running.Keys, owner, now + lease, Filter(p));
      ok, started, more, claimed := true, {}, false, map[];
      var limit := FreeSlots(p);
      skipped := limit == 0;
      if skipped {
        return;
      }
      ghost var first := repo.rows;
      FinishSome();
      ghost var before := repo.rows;
      ReleasedIsApart(first, before, old(running.Keys), old(running.Keys) - running.Keys);
      ok := Works();
      if !ok {
        return;
      }
      claimed := repo.Claim(owner, lease, Filter(p), limit, now);
      more := |claimed| >= limit;
      assert |claimed.Keys| == |claimed|;
      ClaimTakes(first, before, old(running.Keys), owner, now + lease, Filter(p), now, limit, claimed);
      ghost var after := repo.rows;
      started := StartAll(claimed.Keys, p);
      ApartThen(first, after, repo.rows, old(running.Keys), old(running.Keys), claimed.Keys, claimed.Keys);
      assert claimed.Keys + claimed.Keys == claimed.Keys;
    }

    /** One pass of the loop: every pool in turn, removals first, until a claim
        fails.  When it reports neither a pool without slots nor a claim that took as
        many rows as it could, no due row was left out but those this process holds. */
    method ReconcileOnce(now: Time) returns (ok: bool, started: set<BotId>, skipped: bool, more: bool, claimed: set<BotId>)
      requires Valid()
      modifies `running, `passes, `kicked, repo
      ensures Valid()
      ensures healthy ==> ok
      ensures running.Keys <= old(running.Keys) + started
      ensures started <= claimed
      ensures !skipped && ok ==> |HeldBy(old(running), Pools()[0])| < Size(Pools()[0])
      ensures ok && !skipped && !more ==>
        forall b :: b in old(repo.rows) && old(repo.rows[b]).Due(now) && b !in old(running) ==> b in claimed
    {
      hide Apart, Leased, NoneLeft, HeldBy, TakenBy, Valid, Filter, Round;
      var ps := Pools();
      RoundBegins(repo.rows, running.Keys, now);
      ok, started, skipped, more, claimed := true, {}, false, false, {};
      var i := 0;
      assert ps[..0] == [];
      while i < |ps|
        invariant 0 <= i <= |ps| && Valid() && ok
        invariant Round(old(repo.rows), repo.rows, old(running.Keys), running.Keys, started, claimed, ps[..i], now, skipped || more)
        invariant i > 0 && !skipped ==> |HeldBy(old(running), ps[0])| < Size(ps[0])
        invariant i == 0 ==> running == old(running)
      {
        ghost var before, busy, first, had, short := repo.rows, running.Keys, started, claimed, skipped || more;
        assert ps[..i + 1] == ps[..i] + [ps[i]];
        var n, s, m, rows;
        ok, n, s, m, rows := ClaimInto(ps[i], now);
        RoundGoesOn(old(repo.rows), before, repo.rows, old(running.Keys), busy, running.Keys, first, had, ps[..i], now, short,
                    ps[i], n, rows, !ok || s || m);
        started, skipped, more, claimed := started + n, skipped || s, more || m, claimed + rows.Keys;
        if !ok {
          RoundOver(old(repo.rows), repo.rows, old(running.Keys), running.Keys, started, claimed, ps[..i + 1], now, true);
          return;
        }
        i := i + 1;
      }
      assert ps[..|ps|] == ps;
      RoundOver(old(repo.rows), repo.rows, old(running.Keys), running.Keys, started, claimed, ps, now, skipped || more);
    }
  }
}
