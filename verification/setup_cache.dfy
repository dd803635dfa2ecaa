/** `SetupCache`: memoizes plans by size and element type, caching failures as a `nil` entry.
    `get` is modelled sequentially: the shared-read lookup and the exclusive re-check-and-insert
    section are two separate steps, so another request may run between them. */
module SetupCaches {
  import opened Outcomes
  import opened SwiftInt
  import opened Elements
  import opened Setups

  /** `CacheKey`: the size together with the identity of the element type. */
  datatype CacheKey = CacheKey(n: int, element: Element)

  /** The cache's state. `entries` is the dictionary `[CacheKey: Setup?]`, where a `None` value is
      the cached-failure sentinel. `built` counts, per key, the plan constructions attempted since
      the last `clear` (bookkeeping of the model, not a field of the class). `nextId` is the
      identity the next plan built receives, so distinct plans have distinct identities. */
  datatype Cache = Cache(entries: map<CacheKey, Option<Setup>>, built: map<CacheKey, nat>, nextId: nat)

  /** `SetupCache()`: an empty cache. */
  function Empty(): (c: Cache)
    ensures forall key :: Lookup(c, key).None? && Constructions(c, key) == 0
  {
    Cache(map[], map[], 0)
  }

  /** `cache[key]`: `None` when the key is absent, `Some(entry)` otherwise. */
  function Lookup(c: Cache, key: CacheKey): (r: Option<Option<Setup>>)
    ensures r.Some? <==> key in c.entries
    ensures r.Some? ==> r.value == c.entries[key]
  {
    if key in c.entries then Some(c.entries[key]) else None
  }

  /** How many times a plan for `key` was constructed since the last `clear`. */
  function Constructions(c: Cache, key: CacheKey): nat {
    if key in c.built then c.built[key] else 0
  }

  /** A plan stored under `key` was built for that key's size and element type, with the kind
      `Setup(n:type:)` requests, and has an identity already handed out. */
  ghost predicate BuiltFor(key: CacheKey, s: Setup, nextId: nat) {
    && s.n == key.n
    && s.handle == Handle(s.handle.id, key.element.scalar, Resolve(key.element, Real), key.n)
    && s.handle.id < nextId
  }

  /** The cache invariant: a key has an entry exactly when one construction for it happened since
      the last `clear`; every stored plan matches its key; no two keys share a plan. */
  ghost predicate Inv(c: Cache) {
    && c.built.Keys == c.entries.Keys
    && (forall key :: key in c.built ==> c.built[key] == 1)
    && (forall key :: key in c.entries ==> InInt32(key.n))
    && (forall key :: key in c.entries && c.entries[key].Some? ==> BuiltFor(key, c.entries[key].value, c.nextId))
    && (forall k1, k2 :: k1 in c.entries && k2 in c.entries && k1 != k2 && c.entries[k1].Some? && c.entries[k2].Some?
          ==> c.entries[k1].value.handle.id != c.entries[k2].value.handle.id)
  }

  lemma EmptyInv()
    ensures Inv(Empty())
  {
  }

  /** Under the invariant, a key has had exactly one construction if it has an entry and none
      otherwise: at most one construction per key between clears. */
  lemma AtMostOneConstruction(c: Cache, key: CacheKey)
    requires Inv(c)
    ensures Constructions(c, key) <= 1
    ensures Constructions(c, key) == 1 <==> key in c.entries
  {
  }

  /** The state after the exclusive section, and the entry it read or installed. */
  datatype Section = Section(cache: Cache, entry: Option<Setup>)

  /** The exclusive (barrier) section of `get`: re-read the key; only if it is still absent, build a
      plan with `try? Setup(n:type:)` and install the plan or the `nil` sentinel. */
  function Exclusive(c: Cache, k: Kernel, key: CacheKey): (r: Section)
    requires InInt32(key.n)
    ensures key in c.entries ==> r == Section(c, c.entries[key])
    ensures key !in c.entries ==>
      && r.entry == NewSetup(k, key.n, key.element, c.nextId).ToOption()
      && r.cache.entries == c.entries[key := r.entry]
      && Constructions(r.cache, key) == Constructions(c, key) + 1
      && r.cache.nextId == (if r.entry.Some? then c.nextId + 1 else c.nextId)
    ensures forall other :: other != key ==> Constructions(r.cache, other) == Constructions(c, other)
  {
    match Lookup(c, key)
    case Some(entry) => Section(c, entry)
    case None =>
      var entry := NewSetup(k, key.n, key.element, c.nextId).ToOption();
      Section(Cache(c.entries[key := entry], c.built[key := Constructions(c, key) + 1],
                    if entry.Some? then c.nextId + 1 else c.nextId),
              entry)
  }

  /** The final `guard let s = setup!`: the sentinel becomes `invalidSize`. */
  function Unwrap(entry: Option<Setup>): (r: Result<Setup, FFTError>)
    ensures r.Failure? <==> entry.None?
    ensures r.Failure? ==> r.error == InvalidSize
    ensures r.Success? ==> entry == Some(r.value)
  {
    match entry
    case Some(s) => Success(s)
    case None => Failure(InvalidSize)
  }

  /** The state after a `get`, and what it returned or threw. */
  datatype Reply = Reply(cache: Cache, result: Result<Setup, FFTError>)

  /** `get(n:type:)`. A hit returns the stored entry and constructs nothing; a miss goes through
      the exclusive section. The result is the key's entry after the call, and no other key's
      entry or construction count changes. */
  function Get(c: Cache, k: Kernel, n: int, e: Element): (r: Reply)
    requires InInt32(n)
    ensures CacheKey(n, e) in c.entries ==> r.cache == c && r.result == Unwrap(c.entries[CacheKey(n, e)])
    ensures CacheKey(n, e) !in c.entries ==>
      && Constructions(r.cache, CacheKey(n, e)) == Constructions(c, CacheKey(n, e)) + 1
      && (r.result.Success? <==> k.newSetup(e.scalar, if IsComplex(e) then Complex else Real, n))
      && (r.result.Success? ==> r.result.value.handle.id == c.nextId && r.cache.nextId == c.nextId + 1)
      && (r.result.Success? ==> r.result.value.n == n)
      && (r.result.Failure? ==> r.cache.nextId == c.nextId)
    ensures Lookup(r.cache, CacheKey(n, e)).Some? && r.result == Unwrap(r.cache.entries[CacheKey(n, e)])
    ensures r.result.Failure? ==> r.result.error == InvalidSize
    ensures c.nextId <= r.cache.nextId
    ensures forall other :: other != CacheKey(n, e) ==>
      Lookup(r.cache, other) == Lookup(c, other) && Constructions(r.cache, other) == Constructions(c, other)
  {
    var key := CacheKey(n, e);
    var first := Lookup(c, key);
    if first.Some? then
      Reply(c, Unwrap(first.value))
    else
      var section := Exclusive(c, k, key);
      Reply(section.cache, Unwrap(section.entry))
  }

  /** `clear()`: every entry goes, and so does every construction count; identities keep
      increasing. */
  function Clear(c: Cache): (r: Cache)
    ensures forall key :: Lookup(r, key).None? && Constructions(r, key) == 0
    ensures r.nextId == c.nextId
  {
    c.(entries := map[], built := map[])
  }

  lemma ClearPreservesInv(c: Cache)
    requires Inv(c)
    ensures Inv(Clear(c))
  {
  }

  lemma GetPreservesInv(c: Cache, k: Kernel, n: int, e: Element)
    requires Inv(c) && InInt32(n)
    ensures Inv(Get(c, k, n, e).cache)
  {
    var key := CacheKey(n, e);
    if key !in c.entries {
      var r := Get(c, k, n, e).cache;
      assert r.entries == c.entries[key := r.entries[key]];
      assert r.built == c.built[key := 1];
      forall k1 | k1 in r.entries && r.entries[k1].Some?
        ensures BuiltFor(k1, r.entries[k1].value, r.nextId)
      {
        if k1 != key {
          assert BuiltFor(k1, c.entries[k1].value, c.nextId);
        }
      }
    }
  }

  /** Under the invariant, a plan `get` returns was built for the requested size, with the kind
      `Setup(n:type:)` requests for the element type. */
  lemma GetReturnsPlanForKey(c: Cache, k: Kernel, n: int, e: Element)
    requires Inv(c) && InInt32(n)
    ensures var r := Get(c, k, n, e).result;
      r.Success? ==> (&& r.value.n == n && r.value.handle.n == n && r.value.handle.scalar == e.scalar
                      && r.value.handle.kind == (if IsComplex(e) then Complex else Real))
  {
    var key := CacheKey(n, e);
    if key in c.entries && c.entries[key].Some? {
      assert BuiltFor(key, c.entries[key].value, c.nextId);
    }
  }

  /** A failed construction is cached: the next `get` for the key throws again without a new
      construction, whatever the kernel would now answer. */
  lemma FailureIsCached(c: Cache, k: Kernel, k': Kernel, n: int, e: Element)
    requires InInt32(n)
    requires Get(c, k, n, e).result.Failure?
    ensures Get(Get(c, k, n, e).cache, k', n, e).result.Failure?
    ensures Get(Get(c, k, n, e).cache, k', n, e).cache == Get(c, k, n, e).cache
  {
  }

  /** `c'` keeps every entry of `c`: what a run of `get`s without `clear` leaves. */
  ghost predicate Extends(c: Cache, c': Cache) {
    && c.nextId <= c'.nextId
    && forall key :: key in c.entries ==> key in c'.entries && c'.entries[key] == c.entries[key]
  }

  lemma GetExtends(c: Cache, k: Kernel, n: int, e: Element)
    requires InInt32(n)
    ensures Extends(c, Get(c, k, n, e).cache)
  {
    var r := Get(c, k, n, e).cache;
    forall key | key in c.entries
      ensures key in r.entries && r.entries[key] == c.entries[key]
    {
      assert Lookup(r, key) == Lookup(c, key);
    }
  }

  /** Once a `get` has returned a plan, every later `get` for the same key before a `clear`
      returns the identical plan. */
  lemma SameSetupOnRepeatedGets(c: Cache, c': Cache, k: Kernel, k': Kernel, n: int, e: Element)
    requires InInt32(n)
    requires Get(c, k, n, e).result.Success?
    requires Extends(Get(c, k, n, e).cache, c')
    ensures Get(c', k', n, e) == Reply(c', Get(c, k, n, e).result)
  {
    assert Lookup(Get(c, k, n, e).cache, CacheKey(n, e)).Some?;
  }

  /** A `get` for one size and element type leaves the entry of every other size or element type
      as it was. */
  lemma KeysAreIndependent(c: Cache, k: Kernel, n: int, e: Element, n': int, e': Element)
    requires InInt32(n) && (n != n' || e != e')
    ensures Lookup(Get(c, k, n, e).cache, CacheKey(n', e')) == Lookup(c, CacheKey(n', e'))
  {
  }

  /** After `clear`, a `get` constructs a fresh plan, distinct from every plan the cache held. */
  lemma FreshAfterClear(c: Cache, k: Kernel, n: int, e: Element)
    requires Inv(c) && InInt32(n)
    ensures Constructions(Get(Clear(c), k, n, e).cache, CacheKey(n, e)) == 1
    ensures var r := Get(Clear(c), k, n, e).result;
      r.Success? ==> forall key :: key in c.entries && c.entries[key].Some? ==> c.entries[key].value != r.value
  {
    var r := Get(Clear(c), k, n, e).result;
    if r.Success? {
      forall key | key in c.entries && c.entries[key].Some?
        ensures c.entries[key].value != r.value
      {
        assert BuiltFor(key, c.entries[key].value, c.nextId);
      }
    }
  }

  /** Two first requests for the same key race: both miss on the shared read, one runs its
      exclusive section first. The other's re-check then finds the entry, so it returns the same
      result and the key is still constructed once. */
  lemma RacingFirstRequests(c: Cache, kA: Kernel, kB: Kernel, n: int, e: Element)
    requires Inv(c) && InInt32(n)
    requires Lookup(c, CacheKey(n, e)).None?
    ensures var b := Get(c, kB, n, e);
      var a := Exclusive(b.cache, kA, CacheKey(n, e));
      && a.cache == b.cache
      && Unwrap(a.entry) == b.result
      && Constructions(a.cache, CacheKey(n, e)) == 1
  {
  }
}
