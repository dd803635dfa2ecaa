/** When plans are destroyed. A `Setup` is a class instance, and three kinds of holder keep
    references to it: the shared cache's entries, every live engine (`let setup`), and every
    `Setup` a caller keeps from the public `get`. Its `deinit` hands the native plan to
    `pffft_destroy_setup` when the last reference goes. The model tracks the references through
    the operations that move them and records every destruction:
    - opening an engine with `FFT(n:)`, or with `FFT(setup:)` from a setup the caller holds;
    - a caller keeping the result of `SetupCache.shared.get`;
    - an engine or a caller-held setup going out of scope;
    - clearing the cache. */
module Lifetimes {
  import opened Outcomes
  import opened SwiftInt
  import opened Elements
  import opened Setups
  import opened Engines
  import opened SetupCaches

  /** The shared cache, the live engines, the setups callers hold, and the identities of the
      plans destroyed so far, counted with multiplicity. */
  datatype World = World(cache: Cache, engines: seq<Engine>, held: seq<Setup>, destroyed: multiset<nat>)

  /** The plans the cache references. */
  function CacheIds(c: Cache): set<nat> {
    set key | key in c.entries && c.entries[key].Some? :: c.entries[key].value.handle.id
  }

  /** The identities `id` gives the elements of `xs`. */
  function Ids<T>(xs: seq<T>, id: T -> nat): set<nat> {
    set i | 0 <= i < |xs| :: id(xs[i])
  }

  function EngineId(g: Engine): nat {
    g.setup.handle.id
  }

  function SetupId(s: Setup): nat {
    s.handle.id
  }

  /** Every plan still referenced by the cache, an engine, or a caller. */
  function Referenced(c: Cache, es: seq<Engine>, hs: seq<Setup>): set<nat> {
    CacheIds(c) + Ids(es, EngineId) + Ids(hs, SetupId)
  }

  /** Replace the holders; each plan that thereby loses its last reference is destroyed. */
  function Settle(w: World, c': Cache, es': seq<Engine>, hs': seq<Setup>): (r: World)
    ensures r.cache == c' && r.engines == es' && r.held == hs'
    ensures forall id :: (r.destroyed[id] ==
                          w.destroyed[id] + if id in Referenced(w.cache, w.engines, w.held) && id !in Referenced(c', es', hs') then 1 else 0)
  {
    World(c', es', hs', w.destroyed + multiset(Referenced(w.cache, w.engines, w.held) - Referenced(c', es', hs')))
  }

  /** A plan some holder keeps: it went through `Int32(n)` and its identity was handed out. */
  ghost predicate Issued(s: Setup, nextId: nat) {
    InInt32(s.n) && s.handle.id < nextId
  }

  /** The process invariant: the cache invariant holds; every plan identity handed out is either
      still referenced or destroyed, never both; none is destroyed twice. */
  ghost predicate Inv(w: World) {
    && SetupCaches.Inv(w.cache)
    && (forall i :: 0 <= i < |w.engines| ==> Issued(w.engines[i].setup, w.cache.nextId))
    && (forall i :: 0 <= i < |w.held| ==> Issued(w.held[i], w.cache.nextId))
    && (forall id :: id in w.destroyed ==> w.destroyed[id] == 1 && id < w.cache.nextId)
    && (forall id :: id in Referenced(w.cache, w.engines, w.held) ==> id !in w.destroyed)
    && (forall id :: 0 <= id < w.cache.nextId ==> id in Referenced(w.cache, w.engines, w.held) || id in w.destroyed)
  }

  /** A fresh process: an empty shared cache, no engines, no caller-held setups, nothing destroyed. */
  function Initial(): (w: World)
    ensures Inv(w)
  {
    World(Empty(), [], [], multiset{})
  }

  /** The state after `FFT(n:)`, and the engine or the error it threw. */
  datatype Opened = Opened(world: World, result: Result<Engine, FFTError>)

  /** `FFT(n:)`: get the plan from the shared cache and build an engine around it. */
  function OpenEngine(w: World, k: Kernel, n: int, e: Element): (r: Opened)
    requires SetupCaches.Inv(w.cache) && InInt32(n)
    ensures r.world.cache == Get(w.cache, k, n, e).cache && r.world.held == w.held
    ensures r.result.Failure? <==> Get(w.cache, k, n, e).result.Failure?
    ensures r.result.Failure? ==> r.result.error == InvalidSize && r.world.engines == w.engines
    ensures r.result.Success? ==>
      && r.result.value == FromSetup(e, Get(w.cache, k, n, e).result.value)
      && r.result.value.n == n
      && r.world.engines == w.engines + [r.result.value]
  {
    var reply := Get(w.cache, k, n, e);
    GetReturnsPlanForKey(w.cache, k, n, e);
    match reply.result
    case Failure(err) => Opened(Settle(w, reply.cache, w.engines, w.held), Failure(err))
    case Success(s) =>
      var g := FromSetup(e, s);
      Opened(Settle(w, reply.cache, w.engines + [g], w.held), Success(g))
  }

  /** The state after a caller's `let s = try SetupCache.shared.get(n:type:)`, and what it got. */
  datatype Fetched = Fetched(world: World, result: Result<Setup, FFTError>)

  /** A caller gets a plan from the shared cache and keeps it. */
  function GetSetup(w: World, k: Kernel, n: int, e: Element): (r: Fetched)
    requires InInt32(n)
    ensures r.world.cache == Get(w.cache, k, n, e).cache && r.world.engines == w.engines
    ensures r.result == Get(w.cache, k, n, e).result
    ensures r.result.Failure? ==> r.world.held == w.held
    ensures r.result.Success? ==> r.world.held == w.held + [r.result.value]
  {
    var reply := Get(w.cache, k, n, e);
    match reply.result
    case Failure(err) => Fetched(Settle(w, reply.cache, w.engines, w.held), Failure(err))
    case Success(s) => Fetched(Settle(w, reply.cache, w.engines, w.held + [s]), Success(s))
  }

  /** `FFT<T>(setup:)` on the setup the caller holds at index `i`, for element type `e`. The
      caller keeps its own reference. */
  function OpenEngineFromSetup(w: World, i: int, e: Element): (r: World)
    requires 0 <= i < |w.held| && InInt32(w.held[i].n)
    ensures r.cache == w.cache && r.held == w.held
    ensures r.engines == w.engines + [FromSetup(e, w.held[i])]
    ensures r.engines[|w.engines|].setup == w.held[i]
  {
    Settle(w, w.cache, w.engines + [FromSetup(e, w.held[i])], w.held)
  }

  /** The engine at index `i` goes out of scope and drops its reference to its plan. */
  function CloseEngine(w: World, i: int): (r: World)
    requires 0 <= i < |w.engines|
    ensures r.cache == w.cache && r.held == w.held
    ensures |r.engines| == |w.engines| - 1
    ensures forall j :: 0 <= j < |r.engines| ==> r.engines[j] == w.engines[if j < i then j else j + 1]
  {
    Settle(w, w.cache, w.engines[..i] + w.engines[i + 1..], w.held)
  }

  /** The caller-held setup at index `i` goes out of scope. */
  function DropSetup(w: World, i: int): (r: World)
    requires 0 <= i < |w.held|
    ensures r.cache == w.cache && r.engines == w.engines
    ensures |r.held| == |w.held| - 1
    ensures forall j :: 0 <= j < |r.held| ==> r.held[j] == w.held[if j < i then j else j + 1]
  {
    Settle(w, w.cache, w.engines, w.held[..i] + w.held[i + 1..])
  }

  /** `SetupCache.shared.clear()`: the cache drops all its references. */
  function ClearCache(w: World): (r: World)
    ensures r.cache == Clear(w.cache) && r.engines == w.engines && r.held == w.held
  {
    Settle(w, Clear(w.cache), w.engines, w.held)
  }

  // Facts about the referenced identities.

  lemma CacheIdsBelowNext(c: Cache)
    requires SetupCaches.Inv(c)
    ensures forall id :: id in CacheIds(c) ==> id < c.nextId
  {
    forall id | id in CacheIds(c)
      ensures id < c.nextId
    {
      var key :| key in c.entries && c.entries[key].Some? && c.entries[key].value.handle.id == id;
      assert BuiltFor(key, c.entries[key].value, c.nextId);
    }
  }

  lemma CacheIdsAfterGet(c: Cache, k: Kernel, n: int, e: Element)
    requires SetupCaches.Inv(c) && InInt32(n)
    ensures CacheIds(c) <= CacheIds(Get(c, k, n, e).cache)
    ensures CacheIds(Get(c, k, n, e).cache) <= CacheIds(c) + {c.nextId}
    ensures Get(c, k, n, e).result.Success? ==> Get(c, k, n, e).result.value.handle.id in CacheIds(Get(c, k, n, e).cache)
  {
    var r := Get(c, k, n, e);
    var key := CacheKey(n, e);
    forall id | id in CacheIds(c)
      ensures id in CacheIds(r.cache)
    {
      var k1 :| k1 in c.entries && c.entries[k1].Some? && c.entries[k1].value.handle.id == id;
      assert Lookup(r.cache, k1) == Lookup(c, k1) || k1 == key;
    }
    forall id | id in CacheIds(r.cache)
      ensures id in CacheIds(c) + {c.nextId}
    {
      var k1 :| k1 in r.cache.entries && r.cache.entries[k1].Some? && r.cache.entries[k1].value.handle.id == id;
      if k1 != key {
        assert Lookup(r.cache, k1) == Lookup(c, k1);
      }
    }
    if r.result.Success? {
      assert r.cache.entries[key] == Some(r.result.value);
    }
  }

  lemma CacheIdsAfterClear(c: Cache)
    ensures CacheIds(Clear(c)) == {}
  {
  }

  lemma IdsAppend<T>(xs: seq<T>, x: T, id: T -> nat)
    ensures Ids(xs + [x], id) == Ids(xs, id) + {id(x)}
  {
    var xs' := xs + [x];
    assert xs'[|xs|] == x;
    forall v | v in Ids(xs', id)
      ensures v in Ids(xs, id) + {id(x)}
    {
      var i :| 0 <= i < |xs'| && id(xs'[i]) == v;
      if i < |xs| {
        assert xs'[i] == xs[i];
      }
    }
    forall v | v in Ids(xs, id)
      ensures v in Ids(xs', id)
    {
      var i :| 0 <= i < |xs| && id(xs[i]) == v;
      assert xs'[i] == xs[i];
    }
  }

  lemma IdsRemove<T>(xs: seq<T>, i: int, id: T -> nat)
    requires 0 <= i < |xs|
    ensures Ids(xs[..i] + xs[i + 1..], id) <= Ids(xs, id)
    ensures Ids(xs, id) <= Ids(xs[..i] + xs[i + 1..], id) + {id(xs[i])}
  {
    var xs' := xs[..i] + xs[i + 1..];
    forall v | v in Ids(xs', id)
      ensures v in Ids(xs, id)
    {
      var j :| 0 <= j < |xs'| && id(xs'[j]) == v;
      if j < i {
        assert xs'[j] == xs[j];
      } else {
        assert xs'[j] == xs[j + 1];
      }
    }
    forall v | v in Ids(xs, id)
      ensures v in Ids(xs', id) + {id(xs[i])}
    {
      var j :| 0 <= j < |xs| && id(xs[j]) == v;
      if j < i {
        assert xs'[j] == xs[j];
      } else if j > i {
        assert xs'[j - 1] == xs[j];
      }
    }
  }

  /** The destruction bookkeeping of one step, over the referenced sets before and after it. */
  lemma SettleAccounting(d: multiset<nat>, before: set<nat>, after: set<nat>, next: nat, next': nat)
    requires forall id :: id in d ==> d[id] == 1 && id < next
    requires forall id :: id in before ==> id !in d && id < next
    requires forall id :: 0 <= id < next ==> id in before || id in d
    requires next <= next'
    requires forall id :: id in after ==> id in before || next <= id
    requires forall id :: next <= id < next' ==> id in after
    ensures forall id :: id in d + multiset(before - after) ==> (d + multiset(before - after))[id] == 1 && id < next'
    ensures forall id :: id in after ==> id !in d + multiset(before - after)
    ensures forall id :: 0 <= id < next' ==> id in after || id in d + multiset(before - after)
  {
    var d' := d + multiset(before - after);
    forall id | id in d'
      ensures d'[id] == 1 && id < next'
    {
      if id in d {
        assert id !in before;
      } else {
        assert id in before;
      }
    }
  }

  /** Ids of well-formed holders lie below the identity counter. */
  lemma ReferencedBelowNext(w: World)
    requires SetupCaches.Inv(w.cache)
    requires forall i :: 0 <= i < |w.engines| ==> Issued(w.engines[i].setup, w.cache.nextId)
    requires forall i :: 0 <= i < |w.held| ==> Issued(w.held[i], w.cache.nextId)
    ensures forall id :: id in Referenced(w.cache, w.engines, w.held) ==> id < w.cache.nextId
  {
    CacheIdsBelowNext(w.cache);
    forall id | id in Ids(w.engines, EngineId)
      ensures id < w.cache.nextId
    {
      var i :| 0 <= i < |w.engines| && EngineId(w.engines[i]) == id;
      assert Issued(w.engines[i].setup, w.cache.nextId);
    }
    forall id | id in Ids(w.held, SetupId)
      ensures id < w.cache.nextId
    {
      var i :| 0 <= i < |w.held| && SetupId(w.held[i]) == id;
      assert Issued(w.held[i], w.cache.nextId);
    }
  }

  /** Settling into holders whose referenced plans are the old ones plus possibly fresh
      identities keeps the invariant, provided the new holders are well formed. */
  lemma SettlePreservesInv(w: World, c': Cache, es': seq<Engine>, hs': seq<Setup>)
    requires Inv(w)
    requires SetupCaches.Inv(c') && w.cache.nextId <= c'.nextId
    requires forall i :: 0 <= i < |es'| ==> Issued(es'[i].setup, c'.nextId)
    requires forall i :: 0 <= i < |hs'| ==> Issued(hs'[i], c'.nextId)
    requires forall id :: id in Referenced(c', es', hs') ==> id in Referenced(w.cache, w.engines, w.held) || w.cache.nextId <= id
    requires forall id :: w.cache.nextId <= id < c'.nextId ==> id in Referenced(c', es', hs')
    ensures Inv(Settle(w, c', es', hs'))
  {
    ReferencedBelowNext(w);
    SettleAccounting(w.destroyed, Referenced(w.cache, w.engines, w.held), Referenced(c', es', hs'), w.cache.nextId, c'.nextId);
  }

  /** A `get` on the shared cache, whose plan goes to one new holder, keeps the invariant. */
  lemma GetStepPreservesInv(w: World, k: Kernel, n: int, e: Element, es': seq<Engine>, hs': seq<Setup>)
    requires Inv(w) && InInt32(n)
    requires Get(w.cache, k, n, e).result.Failure? ==> es' == w.engines && hs' == w.held
    requires Get(w.cache, k, n, e).result.Success? ==>
      (var s := Get(w.cache, k, n, e).result.value;
       || (es' == w.engines + [FromSetup(e, s)] && hs' == w.held)
       || (es' == w.engines && hs' == w.held + [s]))
    ensures Inv(Settle(w, Get(w.cache, k, n, e).cache, es', hs'))
  {
    var reply := Get(w.cache, k, n, e);
    GetPreservesInv(w.cache, k, n, e);
    GetReturnsPlanForKey(w.cache, k, n, e);
    CacheIdsAfterGet(w.cache, k, n, e);
    CacheIdsBelowNext(reply.cache);
    var c := w.cache;
    var c' := reply.cache;
    if reply.result.Success? {
      var s := reply.result.value;
      var g := FromSetup(e, s);
      IdsAppend(w.engines, g, EngineId);
      IdsAppend(w.held, s, SetupId);
      assert s.handle.id in CacheIds(c');
      forall i | 0 <= i < |es'|
        ensures Issued(es'[i].setup, c'.nextId)
      {
        if i < |w.engines| {
          assert es'[i] == w.engines[i];
        }
      }
      forall i | 0 <= i < |hs'|
        ensures Issued(hs'[i], c'.nextId)
      {
        if i < |w.held| {
          assert hs'[i] == w.held[i];
        }
      }
      forall id | c.nextId <= id < c'.nextId
        ensures id in Referenced(c', es', hs')
      {
        assert CacheKey(n, e) !in c.entries;
      }
      SettlePreservesInv(w, c', es', hs');
    } else {
      assert c'.nextId == c.nextId;
      SettlePreservesInv(w, c', es', hs');
    }
  }

  lemma OpenPreservesInv(w: World, k: Kernel, n: int, e: Element)
    requires Inv(w) && InInt32(n)
    ensures Inv(OpenEngine(w, k, n, e).world)
  {
    var reply := Get(w.cache, k, n, e);
    if reply.result.Success? {
      GetStepPreservesInv(w, k, n, e, w.engines + [FromSetup(e, reply.result.value)], w.held);
    } else {
      GetStepPreservesInv(w, k, n, e, w.engines, w.held);
    }
  }

  lemma GetSetupPreservesInv(w: World, k: Kernel, n: int, e: Element)
    requires Inv(w) && InInt32(n)
    ensures Inv(GetSetup(w, k, n, e).world)
  {
    var reply := Get(w.cache, k, n, e);
    if reply.result.Success? {
      GetStepPreservesInv(w, k, n, e, w.engines, w.held + [reply.result.value]);
    } else {
      GetStepPreservesInv(w, k, n, e, w.engines, w.held);
    }
  }

  lemma OpenFromSetupPreservesInv(w: World, i: int, e: Element)
    requires Inv(w) && 0 <= i < |w.held|
    ensures InInt32(w.held[i].n)
    ensures Inv(OpenEngineFromSetup(w, i, e))
  {
    assert Issued(w.held[i], w.cache.nextId);
    var g := FromSetup(e, w.held[i]);
    var es' := w.engines + [g];
    IdsAppend(w.engines, g, EngineId);
    assert g.setup.handle.id in Ids(w.held, SetupId);
    forall j | 0 <= j < |es'|
      ensures Issued(es'[j].setup, w.cache.nextId)
    {
      if j < |w.engines| {
        assert es'[j] == w.engines[j];
      }
    }
    SettlePreservesInv(w, w.cache, es', w.held);
  }

  lemma ClosePreservesInv(w: World, i: int)
    requires Inv(w) && 0 <= i < |w.engines|
    ensures Inv(CloseEngine(w, i))
  {
    var es' := w.engines[..i] + w.engines[i + 1..];
    IdsRemove(w.engines, i, EngineId);
    forall j | 0 <= j < |es'|
      ensures Issued(es'[j].setup, w.cache.nextId)
    {
      assert es'[j] == w.engines[if j < i then j else j + 1];
    }
    SettlePreservesInv(w, w.cache, es', w.held);
  }

  lemma DropSetupPreservesInv(w: World, i: int)
    requires Inv(w) && 0 <= i < |w.held|
    ensures Inv(DropSetup(w, i))
  {
    var hs' := w.held[..i] + w.held[i + 1..];
    IdsRemove(w.held, i, SetupId);
    forall j | 0 <= j < |hs'|
      ensures Issued(hs'[j], w.cache.nextId)
    {
      assert hs'[j] == w.held[if j < i then j else j + 1];
    }
    SettlePreservesInv(w, w.cache, w.engines, hs');
  }

  lemma ClearPreservesInv(w: World)
    requires Inv(w)
    ensures Inv(ClearCache(w))
  {
    CacheIdsAfterClear(w.cache);
    SetupCaches.ClearPreservesInv(w.cache);
    SettlePreservesInv(w, Clear(w.cache), w.engines, w.held);
  }

  /** Opening an engine, by size or from a held setup, and keeping the result of `get` destroy
      no plan: they only add references. */
  lemma AcquiringDestroysNothing(w: World, k: Kernel, n: int, e: Element, i: int)
    requires Inv(w) && InInt32(n)
    ensures OpenEngine(w, k, n, e).world.destroyed == w.destroyed
    ensures GetSetup(w, k, n, e).world.destroyed == w.destroyed
    ensures 0 <= i < |w.held| && InInt32(w.held[i].n) ==> OpenEngineFromSetup(w, i, e).destroyed == w.destroyed
  {
    var reply := Get(w.cache, k, n, e);
    CacheIdsAfterGet(w.cache, k, n, e);
    var before := Referenced(w.cache, w.engines, w.held);
    if reply.result.Success? {
      var s := reply.result.value;
      IdsAppend(w.engines, FromSetup(e, s), EngineId);
      IdsAppend(w.held, s, SetupId);
      assert before - Referenced(reply.cache, w.engines + [FromSetup(e, s)], w.held) == {};
      assert before - Referenced(reply.cache, w.engines, w.held + [s]) == {};
    } else {
      assert before - Referenced(reply.cache, w.engines, w.held) == {};
    }
    if 0 <= i < |w.held| && InInt32(w.held[i].n) {
      IdsAppend(w.engines, FromSetup(e, w.held[i]), EngineId);
      assert before - Referenced(w.cache, w.engines + [FromSetup(e, w.held[i])], w.held) == {};
    }
  }

  /** Clearing the cache destroys no plan an engine or a caller still holds, and leaves them as
      they were; each plan only the cache held is destroyed, once. */
  lemma ClearSparesHolders(w: World)
    requires Inv(w)
    ensures ClearCache(w).engines == w.engines && ClearCache(w).held == w.held
    ensures forall i :: 0 <= i < |w.engines| ==> w.engines[i].setup.handle.id !in ClearCache(w).destroyed
    ensures forall i :: 0 <= i < |w.held| ==> w.held[i].handle.id !in ClearCache(w).destroyed
    ensures forall id :: id in CacheIds(w.cache) && id !in Ids(w.engines, EngineId) && id !in Ids(w.held, SetupId)
                     ==> ClearCache(w).destroyed[id] == 1
  {
    ClearPreservesInv(w);
    CacheIdsAfterClear(w.cache);
    forall i | 0 <= i < |w.engines|
      ensures w.engines[i].setup.handle.id !in ClearCache(w).destroyed
    {
      assert EngineId(w.engines[i]) in Ids(w.engines, EngineId);
    }
    forall i | 0 <= i < |w.held|
      ensures w.held[i].handle.id !in ClearCache(w).destroyed
    {
      assert SetupId(w.held[i]) in Ids(w.held, SetupId);
    }
  }

  /** A caller who got a plan from the shared cache keeps it alive across `clear`. */
  lemma KeptSetupSurvivesClear(w: World, k: Kernel, n: int, e: Element)
    requires Inv(w) && InInt32(n)
    ensures GetSetup(w, k, n, e).result.Success? ==>
      GetSetup(w, k, n, e).result.value.handle.id !in ClearCache(GetSetup(w, k, n, e).world).destroyed
  {
    var f := GetSetup(w, k, n, e);
    if f.result.Success? {
      GetSetupPreservesInv(w, k, n, e);
      ClearSparesHolders(f.world);
      assert f.world.held[|w.held|] == f.result.value;
    }
  }

  /** Every destruction is of a plan that has just lost its last reference, whether held by the
      cache, an engine or a caller, and no plan is destroyed twice. */
  lemma DestroysOnlyUnreferencedOnce(w: World, c': Cache, es': seq<Engine>, hs': seq<Setup>, id: nat)
    requires Inv(w)
    requires Settle(w, c', es', hs').destroyed[id] > w.destroyed[id]
    ensures id in Referenced(w.cache, w.engines, w.held) && id !in Referenced(c', es', hs')
    ensures w.destroyed[id] == 0 && Settle(w, c', es', hs').destroyed[id] == 1
  {
  }

  /** Once no cache entry, no engine and no caller holds a plan, every plan ever built has been
      destroyed exactly once. */
  lemma AllReleasedAllDestroyed(w: World)
    requires Inv(w) && w.cache.entries == map[] && |w.engines| == 0 && |w.held| == 0
    ensures forall id :: 0 <= id < w.cache.nextId ==> w.destroyed[id] == 1
  {
    assert Referenced(w.cache, w.engines, w.held) == {};
  }

  /** `FFT(n:)` always builds its engine around a plan that fits the element type, so on that
      path `init(setup:)` behaves as the checked `FromFittingSetup`. */
  lemma OpenEnginePlanFits(w: World, k: Kernel, n: int, e: Element)
    requires SetupCaches.Inv(w.cache) && InInt32(n)
    ensures OpenEngine(w, k, n, e).result.Success? ==>
      && PlanFits(e, OpenEngine(w, k, n, e).result.value.setup)
      && FromFittingSetup(e, OpenEngine(w, k, n, e).result.value.setup) == Some(OpenEngine(w, k, n, e).result.value)
  {
    GetReturnsPlanForKey(w.cache, k, n, e);
  }

  /** Through the public API a caller can open an engine on a plan built for another element
      type: it gets a complex `Float` plan of size 64 from the shared cache and passes it to
      `FFT<Float>(setup:)` or `FFT<Double>(setup:)`, which accept it unchecked. What those
      engines then do is `Engines.MisfitEnginePassesGuards`. */
  lemma CallerCanOpenMisfitEngine(k: Kernel, e: Element)
    requires k.newSetup(Float, Complex, 64)
    ensures var f := GetSetup(Initial(), k, 64, ComplexOf(Float));
      && f.result == Success(Setup(Handle(0, Float, Complex, 64), 64))
      && f.world.held == [Setup(Handle(0, Float, Complex, 64), 64)]
      && OpenEngineFromSetup(f.world, 0, e).engines == [FromSetup(e, Setup(Handle(0, Float, Complex, 64), 64))]
  {
    var c := Get(Empty(), k, 64, ComplexOf(Float));
    assert Lookup(Empty(), CacheKey(64, ComplexOf(Float))).None?;
    assert c.result == Success(Setup(Handle(0, Float, Complex, 64), 64));
  }
}
