/** The contract of the bot_workspaces table: what each statement does to one row,
    and the repository that applies them to the shared table. */
module Repository {
  import opened Options
  import opened Workspace

  /** An observation written by a lease holder. */
  datatype Write = Write(
    observed: Observed,
    observedGeneration: nat,
    markReady: bool,
    errorCode: string,
    errorPhase: string,
    attempts: nat,
    nextAttempt: Time,
    release: bool)

  function NewRow(desired: Desired, image: string, preserve: bool, now: Time): Row {
    Row(desired, 1, image, preserve, Absent, 0, false, "", "", 0, now, None, None, 1)
  }

  /** A new intent: the generation goes up, the retry budget is fresh and the row
      is due.  The lease is not touched. */
  function Upserted(w: Row, desired: Desired, image: string, preserve: bool, now: Time): Row {
    w.(desired := desired, generation := w.generation + 1,
       image := if image != "" then image else w.image,
       preserve := preserve, attempts := 0, nextAttempt := now, version := w.version + 1)
  }

  function RemovalCancelled(w: Row, observed: Observed, now: Time): Row {
    w.(desired := Present, generation := w.generation + 1, preserve := false,
       observed := observed, observedGeneration := w.generation + 1,
       everReady := w.everReady || observed.Running?, errorPhase := "",
       attempts := 0, nextAttempt := now, version := w.version + 1)
  }

  function LeasedTo(w: Row, owner: Owner, until: Time): Row {
    w.(leaseOwner := Some(owner), leaseUntil := Some(until), version := w.version + 1)
  }

  function Renewed(w: Row, until: Time): Row {
    w.(leaseUntil := Some(until))
  }

  function ReleasedBy(w: Row, owner: Owner): Row {
    if w.leaseOwner == Some(owner) then w.(leaseOwner := None, leaseUntil := None) else w
  }

  predicate CanWrite(w: Row, owner: Owner, version: nat) {
    w.leaseOwner == Some(owner) && w.version == version
  }

  function Written(w: Row, u: Write): Row {
    w.(observed := u.observed, observedGeneration := u.observedGeneration,
       everReady := w.everReady || u.markReady,
       errorCode := u.errorCode, errorPhase := u.errorPhase,
       attempts := u.attempts, nextAttempt := u.nextAttempt,
       leaseOwner := if u.release then None else w.leaseOwner,
       leaseUntil := if u.release then None else w.leaseUntil,
       version := w.version + 1)
  }

  /** The rows differ in nothing but their lease. */
  predicate SameButLease(a: Row, b: Row) {
    a.(leaseOwner := b.leaseOwner, leaseUntil := b.leaseUntil) == b
  }

  /** The rows carry the same intent. */
  predicate SameIntent(a: Row, b: Row) {
    && a.desired == b.desired && a.generation == b.generation
    && a.image == b.image && a.preserve == b.preserve
  }

  datatype Result<+T> = Ok(value: T) | NotFound | VersionConflict | Unavailable

  /** Rows that may be claimed, limited to those that want `filter` when given. */
  predicate Candidate(w: Row, filter: Option<Desired>, now: Time) {
    w.Due(now) && (filter.Some? ==> w.desired == filter.value)
  }

  lemma {:induction false} EarliestExists(at: map<BotId, Time>, left: set<BotId>) returns (b: BotId)
    requires left <= at.Keys && left != {}
    ensures b in left && forall c :: c in left ==> at[b] <= at[c]
  {
    b :| b in left;
    if left != {b} {
      var c := EarliestExists(at, left - {b});
      if at[c] < at[b] {
        b := c;
      }
    }
  }

  /** Up to `limit` keys, none later than one left out. */
  method EarliestFirst(at: map<BotId, Time>, limit: nat) returns (chosen: set<BotId>)
    ensures chosen <= at.Keys && |chosen| <= limit
    ensures forall c :: c in at.Keys - chosen ==> |chosen| == limit
    ensures forall b, c :: b in chosen && c in at.Keys - chosen ==> at[b] <= at[c]
  {
    var left := at.Keys;
    chosen := {};
    while |chosen| < limit && left != {}
      invariant |chosen| <= limit
      invariant left <= at.Keys && chosen == at.Keys - left
      invariant forall b, c :: b in chosen && c in left ==> at[b] <= at[c]
      decreases left
    {
      ghost var e := EarliestExists(at, left);
      var b :| b in left && forall c :: c in left ==> at[b] <= at[c];
      chosen := chosen + {b};
      left := left - {b};
    }
  }

  // ---------------------------------------------------------------------------
  // What the statements mean for those who hold or wait for the row

  /** A new intent leaves whoever works on the row behind: nothing prepared on an
      earlier version lands any more, the row asks for a pass with its whole retry
      budget and is due as soon as the lease allows, and only that waits for the
      lease, which the intent neither takes nor shortens. */
  lemma NewIntentFences(w: Row, desired: Desired, image: string, preserve: bool, now: Time)
    ensures var u := Upserted(w, desired, image, preserve, now);
      && (forall o, v: nat :: v <= w.version ==> !CanWrite(u, o, v))
      && (u.Behind() <==> w.observedGeneration <= w.generation)
      && (u.Behind() ==> !u.Settled() && forall t :: u.Due(t) <==> now <= t && w.Unleased(t))
      && (forall n :: u.RetryPending(n) <==> w.observed.Failed? && n > 0)
      && (forall t :: u.Unleased(t) <==> w.Unleased(t))
      && (forall o :: Upserted(ReleasedBy(w, o), desired, image, preserve, now) == ReleasedBy(u, o))
    ensures forall o, u: Write :: u.observedGeneration <= w.generation ==>
      Upserted(Written(LeasedTo(w, o, now), u), desired, image, preserve, now).Behind()
  {
  }

  /** The last of several intents is the one that counts: an earlier one leaves its
      generation behind, and its image if the later names none. */
  lemma LastIntentCounts(w: Row, a: Desired, i: string, p: bool, s: Time, b: Desired, j: string, q: bool, t: Time)
    ensures var u := Upserted(Upserted(w, a, i, p, s), b, j, q, t);
      && (w.observedGeneration <= w.generation ==> Decide(u) == Decide(Upserted(w, b, j, q, t)))
      && u.generation == w.generation + 2
      && u.image == (if j != "" then j else if i != "" then i else w.image)
      && u.preserve == q && u.nextAttempt == t
  {
  }

  /** A release frees the row for everybody and ends all writing under that lease;
      anybody else's release changes nothing, and no release touches more than the
      lease. */
  lemma ReleaseFrees(w: Row, owner: Owner)
    ensures var r := ReleasedBy(w, owner);
      && SameButLease(w, r)
      && (w.leaseOwner == Some(owner) ==>
            && (forall t :: r.Due(t) <==> w.nextAttempt <= t && w.Pending())
            && forall o, v :: !CanWrite(r, o, v))
      && (w.leaseOwner != Some(owner) ==> r == w)
      && (forall o, v :: CanWrite(r, o, v) <==> CanWrite(w, o, v) && o != owner)
      && (forall o :: ReleasedBy(ReleasedBy(w, o), owner) == ReleasedBy(r, o))
  {
  }

  class Repository {
    var rows: map<BotId, Row>
    ghost var landed: map<Owner, seq<Write>>   // the observations of each owner that were written

    constructor ()
      ensures rows == map[] && landed == map[]
    {
      rows, landed := map[], map[];
    }

    ghost function LandedBy(owner: Owner): seq<Write>
      reads `landed
    {
      if owner in landed then landed[owner] else []
    }

    method Upsert(bot: BotId, desired: Desired, image: string, preserve: bool, now: Time) returns (w: Row)
      modifies `rows
      ensures w == if bot in old(rows) then Upserted(old(rows)[bot], desired, image, preserve, now)
                   else NewRow(desired, image, preserve, now)
      ensures rows == old(rows)[bot := w]
    {
      w := if bot in rows then Upserted(rows[bot], desired, image, preserve, now)
           else NewRow(desired, image, preserve, now);
      rows := rows[bot := w];
    }

    method CancelRemoval(bot: BotId, observed: Observed, now: Time) returns (r: Result<Row>)
      modifies `rows
      ensures r.Ok? <==> bot in old(rows) && old(rows)[bot].RemovalFailed()
      ensures r.Ok? ==> r.value == RemovalCancelled(old(rows)[bot], observed, now)
      ensures r.Ok? ==> rows == old(rows)[bot := r.value]
      ensures !r.Ok? ==> r.NotFound? && rows == old(rows)
    {
      if bot !in rows || !rows[bot].RemovalFailed() {
        return NotFound;
      }
      r := Ok(RemovalCancelled(rows[bot], observed, now));
      rows := rows[bot := r.value];
    }

    /** Leases up to `limit` due rows, those due longest first. */
    method Claim(owner: Owner, lease: Time, filter: Option<Desired>, limit: nat, now: Time)
      returns (claimed: map<BotId, Row>)
      modifies `rows
      ensures |claimed| <= limit
      ensures forall b :: b in claimed ==>
        && b in old(rows) && Candidate(old(rows)[b], filter, now)
        && claimed[b] == LeasedTo(old(rows)[b], owner, now + lease)
      ensures rows == old(rows) + claimed
      ensures forall c :: c in old(rows) && Candidate(old(rows)[c], filter, now) && c !in claimed ==>
        && |claimed| == limit
        && forall b :: b in claimed ==> old(rows)[b].nextAttempt <= old(rows)[c].nextAttempt
    {
      var due := set b | b in rows && Candidate(rows[b], filter, now);
      var at := map b | b in due :: rows[b].nextAttempt;
      var chosen := EarliestFirst(at, limit);
      claimed := map b | b in chosen :: LeasedTo(rows[b], owner, now + lease);
      assert claimed.Keys == chosen && |claimed| == |claimed.Keys|;
      assert forall c :: c in due && c !in claimed ==> c in at.Keys - chosen;
      assert forall b :: b in claimed ==> at[b] == rows[b].nextAttempt;
      rows := rows + claimed;
    }

    /** Leases one row, due or not, when nobody holds it. */
    method ClaimOne(bot: BotId, owner: Owner, lease: Time, now: Time) returns (r: Result<Row>)
      modifies `rows
      ensures r.Ok? <==> bot in old(rows) && old(rows)[bot].Unleased(now)
      ensures r.Ok? ==> r.value == LeasedTo(old(rows)[bot], owner, now + lease)
      ensures r.Ok? ==> rows == old(rows)[bot := r.value]
      ensures !r.Ok? ==> r.NotFound? && rows == old(rows)
    {
      if bot !in rows || !rows[bot].Unleased(now) {
        return NotFound;
      }
      r := Ok(LeasedTo(rows[bot], owner, now + lease));
      rows := rows[bot := r.value];
    }

    method Renew(bot: BotId, owner: Owner, lease: Time, now: Time) returns (ok: bool)
      modifies `rows
      ensures ok <==> bot in old(rows) && old(rows)[bot].leaseOwner == Some(owner)
      ensures rows == if ok then old(rows)[bot := Renewed(old(rows)[bot], now + lease)] else old(rows)
    {
      ok := bot in rows && rows[bot].leaseOwner == Some(owner);
      if ok {
        rows := rows[bot := Renewed(rows[bot], now + lease)];
      }
    }

    method WriteObserved(bot: BotId, owner: Owner, version: nat, u: Write) returns (r: Result<Row>)
      modifies `rows, `landed
      ensures r.Ok? <==> bot in old(rows) && CanWrite(old(rows)[bot], owner, version)
      ensures r.Ok? ==> r.value == Written(old(rows)[bot], u) && rows == old(rows)[bot := r.value]
      ensures !r.Ok? ==> r.VersionConflict? && rows == old(rows)
      ensures landed == if r.Ok? then old(landed)[owner := old(LandedBy(owner)) + [u]] else old(landed)
    {
      if bot !in rows || !CanWrite(rows[bot], owner, version) {
        return VersionConflict;
      }
      r := Ok(Written(rows[bot], u));
      landed := landed[owner := LandedBy(owner) + [u]];
      rows := rows[bot := r.value];
    }

    method Release(bot: BotId, owner: Owner)
      modifies `rows
      ensures rows == if bot in old(rows) then old(rows)[bot := ReleasedBy(old(rows)[bot], owner)] else old(rows)
    {
      if bot in rows {
        rows := rows[bot := ReleasedBy(rows[bot], owner)];
      }
    }
  }
}
