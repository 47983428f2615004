/** The order in which dependencies are installed: depth first over what each one
    requires, prerequisites first. */
module InstallOrder {
  type DepId = nat

  /** The dependency catalog: what each known dependency requires. */
  type Catalog = map<DepId, seq<DepId>>

  predicate Linked(cat: Catalog, p: seq<DepId>, k: nat)
    requires 0 < k < |p|
  {
    p[k - 1] in cat && p[k] in cat[p[k - 1]]
  }

  /** `p` follows requirements, starting from one of `ids`. */
  predicate Chain(cat: Catalog, ids: seq<DepId>, p: seq<DepId>) {
    && p != [] && p[0] in ids
    && forall k :: 0 < k < |p| ==> Linked(cat, p, k)
  }

  /** Everything `ids` transitively require, themselves included. */
  ghost predicate Needed(cat: Catalog, ids: seq<DepId>, d: DepId) {
    exists p :: Chain(cat, ids, p) && p[|p| - 1] == d
  }

  predicate NoDuplicates(s: seq<DepId>) {
    forall i, j :: 0 <= i < j < |s| ==> s[i] != s[j]
  }

  predicate PrerequisitesFirst(cat: Catalog, order: seq<DepId>) {
    forall k :: 0 <= k < |order| ==> order[k] in cat && forall r :: r in cat[order[k]] ==> r in order[..k]
  }

  /** Why no order exists: a chain that leads to an unknown dependency or comes back
      to one of its own members. */
  predicate Obstacle(cat: Catalog, ids: seq<DepId>, p: seq<DepId>) {
    && Chain(cat, ids, p)
    && (p[|p| - 1] !in cat || p[|p| - 1] in p[..|p| - 1])
  }

  lemma ChainExtends(cat: Catalog, ids: seq<DepId>, p: seq<DepId>, d: DepId)
    requires Chain(cat, ids, p) && p[|p| - 1] in cat && d in cat[p[|p| - 1]]
    ensures Chain(cat, ids, p + [d])
  {
    forall k | 0 < k < |p + [d]| ensures Linked(cat, p + [d], k) {
      if k < |p| { assert Linked(cat, p, k); }
    }
  }

  lemma ChainPrefix(cat: Catalog, ids: seq<DepId>, p: seq<DepId>, d: DepId)
    requires Chain(cat, ids, p + [d]) && p != []
    ensures Chain(cat, ids, p) && p[|p| - 1] in cat && d in cat[p[|p| - 1]]
  {
    forall k | 0 < k < |p| ensures Linked(cat, p, k) {
      assert Linked(cat, p + [d], k);
    }
    assert Linked(cat, p + [d], |p|);
  }

  /** Along a chain positions in the order only go down, so it stays inside the
      order and never comes back. */
  lemma {:induction false} ChainDescends(cat: Catalog, ids: seq<DepId>, order: seq<DepId>, p: seq<DepId>) returns (k: nat)
    requires PrerequisitesFirst(cat, order) && NoDuplicates(order) && Chain(cat, ids, p)
    requires forall i :: i in ids ==> i in order
    ensures k < |order| && order[k] == p[|p| - 1]
    ensures forall j :: 0 <= j < |p| - 1 ==> p[j] in order[k + 1..]
  {
    var last := p[|p| - 1];
    if |p| == 1 {
      k :| 0 <= k < |order| && order[k] == last;
    } else {
      var q := p[..|p| - 1];
      assert p == q + [last];
      ChainPrefix(cat, ids, q, last);
      var m := ChainDescends(cat, ids, order, q);
      assert last in order[..m];
      k :| 0 <= k < m && order[k] == last;
      forall j | 0 <= j < |p| - 1 ensures p[j] in order[k + 1..] {
        if j == |q| - 1 {
          assert order[k + 1..][m - k - 1] == p[j];
        } else {
          assert p[j] in order[m + 1..];
          assert order[k + 1..] == order[k + 1..m + 1] + order[m + 1..];
        }
      }
    }
  }

  /** An order that puts prerequisites first excludes every obstacle. */
  lemma OrderExcludesObstacles(cat: Catalog, ids: seq<DepId>, order: seq<DepId>, p: seq<DepId>)
    requires PrerequisitesFirst(cat, order) && NoDuplicates(order)
    requires forall i :: i in ids ==> i in order
    ensures !Obstacle(cat, ids, p)
  {
    if Obstacle(cat, ids, p) {
      var k := ChainDescends(cat, ids, order, p);
    }
  }

  lemma OrderHoldsNeeded(cat: Catalog, ids: seq<DepId>, order: seq<DepId>, d: DepId)
    requires PrerequisitesFirst(cat, order) && NoDuplicates(order)
    requires forall i :: i in ids ==> i in order
    requires Needed(cat, ids, d)
    ensures d in order
  {
    var p :| Chain(cat, ids, p) && p[|p| - 1] == d;
    var k := ChainDescends(cat, ids, order, p);
  }

  datatype Mark = Visiting | Finished

  class Walk {
    const cat: Catalog
    const ids: seq<DepId>
    var state: map<DepId, Mark>
    var order: seq<DepId>

    constructor (cat: Catalog, ids: seq<DepId>)
      ensures this.cat == cat && this.ids == ids && state == map[] && order == [] && Valid([])
    {
      this.cat, this.ids, this.state, this.order := cat, ids, map[], [];
    }

    /** `stack` holds the dependencies being visited, each required by the one
        before it. */
    ghost predicate Valid(stack: seq<DepId>)
      reads this
    {
      && (stack == [] || Chain(cat, ids, stack))
      && state.Keys <= cat.Keys
      && (forall d :: d in state && state[d].Visiting? <==> d in stack)
      && (forall d :: d in state && state[d].Finished? <==> d in order)
      && NoDuplicates(order) && PrerequisitesFirst(cat, order)
      && (forall d :: d in order ==> Needed(cat, ids, d))
    }

    /** Appends `id` and whatever it requires, or shows why it cannot. */
    method Visit(id: DepId, ghost stack: seq<DepId>) returns (ok: bool, ghost obstacle: seq<DepId>)
      requires Valid(stack) && Chain(cat, ids, stack + [id])
      modifies this
      ensures ok ==> Valid(stack) && id in order && old(order) <= order && old(state.Keys) <= state.Keys
      ensures !ok ==> Obstacle(cat, ids, obstacle)
      decreases cat.Keys - state.Keys, 0
    {
      hide NoDuplicates, PrerequisitesFirst, Needed, Linked;
      obstacle := stack + [id];
      assert obstacle[..|obstacle| - 1] == stack && obstacle[|obstacle| - 1] == id;
      if id in state {
        return state[id].Finished?, obstacle;
      }
      if id !in cat {
        return false, obstacle;
      }
      Enter(id, stack);
      ok, obstacle := VisitAll(cat[id], stack + [id]);
      if !ok {
        return;
      }
      Finish(id, stack);
      ok := true;
    }

    /** Visits what the top of the stack requires, in its order. */
    method VisitAll(required: seq<DepId>, ghost stack: seq<DepId>) returns (ok: bool, ghost obstacle: seq<DepId>)
      requires Valid(stack) && stack != []
      requires stack[|stack| - 1] in cat && required == cat[stack[|stack| - 1]]
      modifies this
      ensures ok ==> Valid(stack) && old(order) <= order && old(state.Keys) <= state.Keys
      ensures ok ==> forall r :: r in required ==> r in order
      ensures !ok ==> Obstacle(cat, ids, obstacle)
      decreases cat.Keys - state.Keys, 1
    {
      hide NoDuplicates, PrerequisitesFirst, Needed, Linked, Obstacle;
      for i := 0 to |required|
        invariant Valid(stack) && old(order) <= order && old(state.Keys) <= state.Keys
        invariant forall j :: 0 <= j < i ==> required[j] in order
      {
        ChainExtends(cat, ids, stack, required[i]);
        ok, obstacle := Visit(required[i], stack);
        if !ok {
          return;
        }
      }
      ok, obstacle := true, [];
    }

    method Enter(id: DepId, ghost stack: seq<DepId>)
      requires Valid(stack) && Chain(cat, ids, stack + [id]) && id !in state && id in cat
      modifies `state
      ensures Valid(stack + [id]) && state.Keys == old(state.Keys) + {id}
    {
      state := state[id := Visiting];
      assert forall d :: d in stack + [id] <==> d in stack || d == id;
    }

    /** All that `id` requires is in the order; now it follows. */
    method Finish(id: DepId, ghost stack: seq<DepId>)
      requires Valid(stack + [id]) && id in cat && id !in stack
      requires forall r :: r in cat[id] ==> r in order
      modifies this
      ensures Valid(stack) && order == old(order) + [id] && state.Keys == old(state.Keys)
    {
      ghost var inner := stack + [id];
      assert inner[|inner| - 1] == id && id in inner;
      assert id !in order;
      state := state[id := Finished];
      order := order + [id];
      assert Needed(cat, ids, id) by {
        assert Chain(cat, ids, inner);
      }
      if stack != [] { ChainPrefix(cat, ids, stack, id); }
      assert PrerequisitesFirst(cat, order) by {
        assert order[..|order| - 1] == old(order);
        forall k | 0 <= k < |order| - 1 ensures order[..k] == old(order)[..k] {
        }
      }
      assert forall d :: d in stack <==> d in inner && d != id;
    }
  }

  /** The ids with everything they transitively require and nothing else, each once
      and after its own requirements; or none, exactly when some chain from them
      meets an unknown dependency or closes into a cycle. */
  method ExpandedOrder(cat: Catalog, ids: seq<DepId>) returns (ok: bool, order: seq<DepId>)
    ensures ok <==> !exists p :: Obstacle(cat, ids, p)
    ensures ok ==> NoDuplicates(order) && PrerequisitesFirst(cat, order)
    ensures ok ==> forall d :: d in order <==> Needed(cat, ids, d)
    ensures ok ==> forall d :: d in ids ==> d in order
  {
    hide Linked, PrerequisitesFirst, Needed, Obstacle;
    var walk := new Walk(cat, ids);
    order := [];
    for i := 0 to |ids|
      invariant fresh(walk) && walk.cat == cat && walk.ids == ids
      invariant walk.Valid([])
      invariant forall j :: 0 <= j < i ==> ids[j] in walk.order
    {
      ghost var was := walk.order;
      ghost var obstacle;
      ok, obstacle := walk.Visit(ids[i], []);
      if !ok {
        return;
      }
      assert forall d :: d in was ==> d in walk.order;
    }
    order, ok := walk.order, true;
    forall p ensures !Obstacle(cat, ids, p) {
      OrderExcludesObstacles(cat, ids, order, p);
    }
    forall d | Needed(cat, ids, d) ensures d in order {
      OrderHoldsNeeded(cat, ids, order, d);
    }
  }
}
