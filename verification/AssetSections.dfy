/** What each locked section of the asset cache brings about, for the thread that runs it and
    for those that come after. */
module AssetSections {
  import opened Options
  import opened AssetModel
  import opened AssetSafety
  import opened AssetPolicy
  import opened AssetLoads
  import opened AssetEffects
  import opened AssetAnchors

  // --------------------------------------------------------------------- lookups

  /** The name is cached and, if it is cached as missing, its time is not up. */
  predicate Known(c: Cache, n: string, now: nat) {
    n in c.names && (c.names[n].Negative? ==> c.names[n].expires > now)
  }

  /** `u` is `s` after a lookup that found nothing: an entry whose time is up is gone. */
  ghost predicate Forgotten(c: Cache, n: string, u: Cache) {
    && n !in u.names
    && u == c.(names := c.names - {n}, negatives := c.negatives - {n}, nextExpiry := u.nextExpiry)
  }

  /** A retired generation sends the caller away; a known name is a hit; a name that is being
      loaded is joined, under its own load; any other name gets a new load that the caller
      leads. */
  lemma BeginLoadIs(s: Source, n: string, now: nat)
    requires CacheInv(s.cache)
    ensures var (u, l) := BeginLoad(s, n, now);
      if s.retired then l == Retry && u == s
      else if Known(s.cache, n, now) then
        && l == Hit(s.cache.names[n])
        && u == s.(cache := u.cache)
        && if s.cache.names[n].Positive? then Used(s.cache, s.cache.names[n].data, u.cache) else u == s
      else
        && Forgotten(s.cache, n, u.cache)
        && if n in s.loads then l == Join(s.loads[n]) && u == s.(cache := u.cache)
           else
             && l == Lead(|s.records|)
             && u == s.(cache := u.cache, loads := s.loads[n := |s.records|],
                        records := s.records + [Load(0, None)], active := s.active + 1)
  {
    hide CacheInv, CachedName, Used;
    CachedNameIs(s.cache, n, now);
    var (c, e) := CachedName(s.cache, n, now);
    assert e.None? ==> n !in c.names;
    assert e.None? ==> Forgotten(s.cache, n, c);
  }

  /** A source that is found counts as used; looking for one changes nothing else. */
  lemma CachedSourceIs(s: Source, a: Alias)
    requires CacheInv(s.cache)
    ensures var u := CachedSource(s, a);
      if a in s.cache.sources then u == s.(cache := u.cache) && Used(s.cache, s.cache.sources[a], u.cache) else u == s
  {
    hide CacheInv, Touch, Used;
    if a in s.cache.sources { TouchIs(s.cache, s.cache.sources[a]); }
  }

  // ---------------------------------------------------------------- publication

  /** Whoever publishes a source goes on with what was cached for it first, and protects that;
      a live generation has it cached from then on, a retired one stays as it is. */
  lemma PublishSourceIs(s: Source, id: LoadId, a: Alias, d: Data)
    requires CacheInv(s.cache) && id < |s.records| && !a.Name?
    ensures var (u, r) := PublishSource(s, id, a, d);
      && r == (if a in s.cache.sources then s.cache.sources[a] else d)
      && u == s.(cache := u.cache, records := u.records)
      && (s.retired && a !in s.cache.sources ==> u == s)
      && (!s.retired || a in s.cache.sources ==> a in u.cache.sources && u.cache.sources[a] == r)
      && ((!s.retired || a in s.cache.sources) && s.records[id].blob == 0 ==> u.records[id].blob == KeyOf(r))
      && u.cache.names == s.cache.names
      && (forall b | b != a :: (b in u.cache.sources <==> b in s.cache.sources)
           && (b in s.cache.sources ==> u.cache.sources[b] == s.cache.sources[b]))
  {
    hide CacheInv, ProtectLoad, SetSource, Linked;
    var e := if a in s.cache.sources then s.cache.sources[a] else d;
    ProtectLoadKeepsCache(s, id, e);
    ProtectKeepsNames(s, id, e);
    ProtectRecords(s, id, e);
    SetSourceIs(ProtectLoad(s, id, e).cache, a, e);
  }

  lemma ProtectRecords(s: Source, id: LoadId, d: Data)
    requires id < |s.records|
    ensures var u := ProtectLoad(s, id, d);
      && u == s.(cache := u.cache, records := u.records) && |u.records| == |s.records|
      && (s.records[id].blob == 0 ==> u.records[id].blob == KeyOf(d))
      && (s.records[id].blob != 0 ==> u == s)
  {
  }

  /** Naming the data of a load changes no other name, and nothing once the generation is
      retired. */
  lemma PublishNamesLeave(s: Source, id: LoadId, requested: string, used: string, d: Data)
    requires CacheInv(s.cache) && id < |s.records|
    ensures var u := PublishNames(s, id, requested, used, d);
      && u == s.(cache := u.cache, records := u.records) && u.cache.sources == s.cache.sources
      && (s.retired ==> u == s)
      && (forall m | m != requested && m != used :: (m in u.cache.names <==> m in s.cache.names)
           && (m in s.cache.names ==> u.cache.names[m] == s.cache.names[m]))
      && (used == "" && used != requested ==> (used in u.cache.names <==> used in s.cache.names))
  {
    hide CacheInv, ProtectLoad, SetName;
    ProtectLoadKeepsCache(s, id, d);
    ProtectKeepsNames(s, id, d);
    ProtectRecords(s, id, d);
    var p := ProtectLoad(s, id, d).cache;
    SetNameIs(p, requested, d);
    SetNameKeepsInv(p, requested, d);
    SetNameIs(SetName(p, requested, d), used, d);
  }

  /** A borrow is counted exactly while the generation is live and has the blob. */
  lemma BeginBorrowIs(s: Source, k: Key)
    requires CacheInv(s.cache)
    ensures var (u, ok) := BeginBorrow(s, k);
      && ok == (!s.retired && k in s.cache.blobs)
      && (!ok ==> u == s)
      && (ok ==>
           && k in u.cache.blobs && u.cache.blobs[k].handles == s.cache.blobs[k].handles + 1
           && k !in u.cache.lru && Removed(s.cache.lru, k, u.cache.lru)
           && u.cache == s.cache.(blobs := s.cache.blobs[k := u.cache.blobs[k]], lru := u.cache.lru)
           && u == s.(cache := u.cache))
  {
    if k in s.cache.blobs {
      BorrowTakes(s.cache, k);
      BorrowKeepsInv(s.cache, k);
    }
    hide AliasInv, NegativeInv, Borrow, Removed;
  }

  // ------------------------------------------------------------------ retirement

  /** Retirement takes hold at once.  Without a load in progress the generation gives up its
      cache and hands out its archive for closing; with one, it keeps both until the load
      finishes.  Retiring it again changes nothing. */
  lemma RetireIs(s: Source)
    ensures var u := Retire(s);
      && u.retired && Retire(u) == u
      && if s.active != 0 then u == s.(retired := true)
         else
           && u.cache == Empty().(nextOrder := s.cache.nextOrder) && u.archive.None?
           && u.dropped == s.dropped + (if s.archive.Some? then [s.archive.value] else [])
           && u == s.(retired := true, cache := u.cache, archive := None, dropped := u.dropped)
  {
  }

  /** A finished load is in the table no longer; the last load of a retired generation gives up
      the cache and hands out the archive, any other load leaves the archive where it is. */
  lemma FinishDrops(s: Source, n: string, id: LoadId, outcome: Outcome, policy: Policy, now: nat)
    requires CacheInv(s.cache) && id < |s.records|
    ensures var u := FinishLoad(s, n, id, outcome, policy, now);
      && u.retired == s.retired && u.active == s.active - 1 && u.loads == s.loads - {n}
      && u.opens == s.opens && u.opening == s.opening && u.closed == s.closed
      && if s.retired && s.active == 1
         then
           && u.cache == Empty().(nextOrder := u.cache.nextOrder) && u.archive.None?
           && u.dropped == s.dropped + (if s.archive.Some? then [s.archive.value] else [])
         else u.archive == s.archive && u.dropped == s.dropped
  {
    FinishShape(s, n, id, outcome, policy, now);
    hide CacheInv, Publish, Settle, Enforce, FinishLoad;
    SettleIs(Publish(s, n, id, outcome, policy, now), n, id, outcome);
    PublishRest(s, n, id, outcome, policy, now);
  }

  /** The parts of finishLoad. */
  lemma FinishShape(s: Source, n: string, id: LoadId, outcome: Outcome, policy: Policy, now: nat)
    requires CacheInv(s.cache) && id < |s.records|
    ensures var p := Publish(s, n, id, outcome, policy, now);
      && |p.records| == |s.records| && CacheInv(p.cache) && CacheInv(Settle(p, n, id, outcome).cache)
      && var u := Settle(p, n, id, outcome);
         FinishLoad(s, n, id, outcome, policy, now) ==
           Drop(if u.retired then u else u.(cache := Enforce(u.cache, policy, now)))
  {
    hide CacheInv, Publish, Settle, Enforce, Drop;
    PublishKeepsCache(s, n, id, outcome, policy, now);
    SettleKeepsCache(Publish(s, n, id, outcome, policy, now), n, id, outcome);
  }

  lemma PublishRest(s: Source, n: string, id: LoadId, outcome: Outcome, policy: Policy, now: nat)
    requires id < |s.records|
    ensures var p := Publish(s, n, id, outcome, policy, now);
      p == s.(cache := p.cache, records := p.records) && |p.records| == |s.records|
  {
    hide SetName, AddNegative, Protect;
  }

  // ------------------------------------------------------------------- the policy

  /** The cache is within its budget or has nothing left to evict, and its negative entries are
      few and live. */
  ghost predicate MeetsPolicy(c: Cache, policy: Policy, now: nat) {
    && (c.bytes <= policy.budget || forall k | k in c.blobs :: Protected(c.blobs[k]))
    && |c.negatives| <= policy.cap
    && forall n | n in c.negatives :: n in c.names && c.names[n].Negative? && c.names[n].expires > now
  }

  /** Whenever a load of a live generation has finished, and whenever a native handle has been
      given back, the policy is met, whatever the cache was like before. */
  lemma SectionsMeetPolicy(s: Source, n: string, id: LoadId, outcome: Outcome, k: Key, policy: Policy, now: nat)
    requires CacheInv(s.cache) && !s.retired
    ensures id < |s.records| ==> MeetsPolicy(FinishLoad(s, n, id, outcome, policy, now).cache, policy, now)
    ensures k in s.cache.blobs && s.cache.blobs[k].handles > 0 ==>
      MeetsPolicy(Returned(s, k, policy, now).cache, policy, now)
  {
    hide CacheInv, Publish, Settle, Enforce, FinishLoad, Return;
    if id < |s.records| {
      FinishShape(s, n, id, outcome, policy, now);
      PublishRest(s, n, id, outcome, policy, now);
      SettleRest(Publish(s, n, id, outcome, policy, now), n, id, outcome);
      EnforceKeepsPolicy(Settle(Publish(s, n, id, outcome, policy, now), n, id, outcome).cache, policy, now);
    }
    ReleaseKeepsInv(s.cache, k);
    EnforceKeepsPolicy(Return(s.cache, k), policy, now);
  }

  lemma SettleRest(p: Source, n: string, id: LoadId, outcome: Outcome)
    requires id < |p.records|
    ensures Settle(p, n, id, outcome).retired == p.retired
  {
  }

  // ------------------------------------------------------- what a load leaves behind

  /** In `c` everything that could be evicted before `k` would be. */
  ghost predicate LastToGo(c: Cache, k: Key) {
    k in c.blobs && (Protected(c.blobs[k]) || (c.lru != [] && c.lru[|c.lru| - 1] == k))
  }

  /** What is named after the most recently used blob outlives an enforcement unless that has
      to evict every blob it can. */
  lemma EnforceSparesLast(c: Cache, policy: Policy, now: nat, a: Alias)
    requires CacheInv(c) && Ref(c, a) != 0 && LastToGo(c, Ref(c, a))
    ensures var r := Enforce(c, policy, now); Ref(r, a) == Ref(c, a) || r.lru == []
  {
    hide CacheInv, Enforce, Evict, SameRefs, Ref;
    var q := NegativesFirst(c, policy, now);
    RefIs(c, q, a);
    EvictSparesLast(q, policy.budget, a);
  }

  /** Enforcement brings the negative entries in order before it evicts anything. */
  lemma NegativesFirst(c: Cache, policy: Policy, now: nat) returns (q: Cache)
    requires CacheInv(c)
    ensures CacheInv(q) && SameRefs(c, q) && q.blobs == c.blobs && q.lru == c.lru
    ensures Enforce(c, policy, now) == Evict(q, policy.budget)
  {
    hide CacheInv, Prune, Cap, Evict, Expired, SameRefs;
    PruneIsExact(c, now);
    var p := Prune(c, now);
    CapIsExact(p, policy.cap);
    q := Cap(p, policy.cap);
    ExpiredAreNegative(c, now);
    NegativesRefs(c, Expired(c, now), p);
    CappedAreNegative(p, policy.cap, q);
    RefsTrans(c, p, q);
  }

  lemma RefsTrans(c: Cache, p: Cache, q: Cache)
    requires SameRefs(c, p) && SameRefs(p, q)
    ensures SameRefs(c, q)
  {
  }

  lemma RefIs(c: Cache, q: Cache, a: Alias)
    requires SameRefs(c, q)
    ensures Ref(q, a) == Ref(c, a)
  {
  }

  lemma EvictSparesLast(c: Cache, budget: nat, a: Alias)
    requires CacheInv(c) && Ref(c, a) != 0 && LastToGo(c, Ref(c, a))
    ensures Ref(Evict(c, budget), a) == Ref(c, a) || Evict(c, budget).lru == []
  {
    var k := Ref(c, a);
    var j := EvictsShortestPrefix(c, budget);
    if k in Front(c, j) {
      assert k in c.lru[..j] && k in c.lru;
      assert !Protected(c.blobs[k]);
      LastInFront(c.lru, j);
      assert Evict(c, budget).lru == c.lru[j..];
    } else {
      TargetSurvives(c, Front(c, j), Evict(c, budget), k, a);
    }
    hide AliasInv, NegativeInv, Evict;
  }

  lemma LastInFront(s: seq<Key>, j: nat)
    requires NoDup(s) && j <= |s| && s != [] && s[|s| - 1] in s[..j]
    ensures j == |s| && s[j..] == []
  {
  }

  /** What a load protected when it finished in a live generation is the last to be evicted: its
      names and sources are still there, or nothing that could be evicted is. */
  lemma FinishedIsNewest(s: Source, n: string, id: LoadId, outcome: Outcome, policy: Policy, now: nat, a: Alias)
    requires CacheInv(s.cache) && id < |s.records| && !s.retired
    requires var p := Publish(s, n, id, outcome, policy, now);
      && |p.records| == |s.records| && p.records[id].blob == Ref(p.cache, a) != 0
      && Ref(p.cache, a) in p.cache.blobs && p.cache.blobs[Ref(p.cache, a)].inFlight > 0
    ensures var r := FinishLoad(s, n, id, outcome, policy, now).cache;
      Ref(r, a) == Publish(s, n, id, outcome, policy, now).records[id].blob || r.lru == []
  {
    hide CacheInv, Publish, Enforce, FinishLoad;
    FinishShape(s, n, id, outcome, policy, now);
    PublishRest(s, n, id, outcome, policy, now);
    var p := Publish(s, n, id, outcome, policy, now);
    SettleReleases(p, n, id, outcome, a);
    EnforceSparesLast(Settle(p, n, id, outcome).cache, policy, now, a);
  }

  lemma SettleReleases(p: Source, n: string, id: LoadId, outcome: Outcome, a: Alias)
    requires CacheInv(p.cache) && id < |p.records|
    requires var k := p.records[id].blob; k != 0 && k in p.cache.blobs && p.cache.blobs[k].inFlight > 0
    ensures var u, k := Settle(p, n, id, outcome), p.records[id].blob;
      Ref(u.cache, a) == Ref(p.cache, a) && LastToGo(u.cache, k) && u.retired == p.retired
  {
    ReleaseIs(p.cache, p.records[id].blob);
    hide CacheInv, Release;
  }

  /** So is a blob whose native handle was given back last. */
  lemma ReturnedIsNewest(s: Source, k: Key, policy: Policy, now: nat, a: Alias)
    requires CacheInv(s.cache) && !s.retired && k != 0 && Ref(s.cache, a) == k
    requires k in s.cache.blobs && s.cache.blobs[k].handles > 0
    ensures var u := Returned(s, k, policy, now);
      && u == s.(cache := u.cache)
      && (Ref(u.cache, a) == k || u.cache.lru == [])
      && (k in u.cache.blobs ==> u.cache.blobs[k].handles == s.cache.blobs[k].handles - 1)
  {
    hide CacheInv, Return, Enforce;
    ReleaseKeepsInv(s.cache, k);
    ReleaseIs(s.cache, k);
    EnforceSparesLast(Return(s.cache, k), policy, now, a);
    EnforceKeepsBlob(Return(s.cache, k), policy, now, k);
  }

  lemma EnforceKeepsBlob(c: Cache, policy: Policy, now: nat, k: Key)
    requires CacheInv(c)
    ensures var r := Enforce(c, policy, now); k in r.blobs ==> k in c.blobs && r.blobs[k] == c.blobs[k]
  {
    hide CacheInv, Enforce, Evict, Front;
    var q := NegativesFirst(c, policy, now);
    var j := EvictsShortestPrefix(q, policy.budget);
  }

  /** Data that a load found and that nobody had named yet is cached under the load's name when
      the load finishes, or nothing that could be evicted is left. */
  lemma FinishedIsNamed(s: Source, n: string, id: LoadId, d: Data, policy: Policy, now: nat)
    requires CacheInv(s.cache) && id < |s.records| && !s.retired && n !in s.cache.names
    requires KeyOf(d) != 0 && s.records[id].blob == 0
    ensures var r := FinishLoad(s, n, id, Loaded(d), policy, now).cache;
      r.lru == [] || (n in r.names && r.names[n].Positive? && KeyOf(r.names[n].data) == KeyOf(d))
  {
    hide CacheInv, Publish, FinishLoad, Enforce;
    PublishIs(s, n, id, Loaded(d), policy, now);
    PublishHolds(s, n, id, d, policy, now);
    FinishedIsNewest(s, n, id, Loaded(d), policy, now, Name(n));
  }

  lemma PublishHolds(s: Source, n: string, id: LoadId, d: Data, policy: Policy, now: nat)
    requires CacheInv(s.cache) && id < |s.records| && !s.retired && n !in s.cache.names
    requires KeyOf(d) != 0 && s.records[id].blob == 0
    ensures var p := Publish(s, n, id, Loaded(d), policy, now);
      |p.records| == |s.records| && p.records[id].blob == KeyOf(d)
  {
    hide CacheInv, SetName, Protect;
  }

  /** A file that was not there stays known as missing until its time is up, whatever the
      enforcement that follows had to remove. */
  lemma FinishedIsMissing(s: Source, n: string, id: LoadId, policy: Policy, now: nat)
    requires CacheInv(s.cache) && id < |s.records| && !s.retired && n !in s.cache.names
    requires policy.cap > 0 && policy.ttl > 0
    ensures var r := FinishLoad(s, n, id, Missing, policy, now).cache;
      && n in r.negatives && n in r.names && r.names[n].Negative? && r.names[n].expires == now + policy.ttl
      && (forall t: nat :: Known(r, n, t) <==> t < now + policy.ttl)
  {
    hide CacheInv, Publish, FinishLoad, Enforce, AddNegative, Settle;
    FinishShape(s, n, id, Missing, policy, now);
    PublishRest(s, n, id, Missing, policy, now);
    MissingPublished(s, n, id, policy, now);
    var p := Publish(s, n, id, Missing, policy, now);
    SettleKeepsNames(p, n, id, Missing);
    EnforceKeepsNewest(Settle(p, n, id, Missing).cache, policy, now, n);
  }

  lemma MissingPublished(s: Source, n: string, id: LoadId, policy: Policy, now: nat)
    requires CacheInv(s.cache) && id < |s.records| && !s.retired && n !in s.cache.names
    requires policy.cap > 0 && policy.ttl > 0
    ensures var p := Publish(s, n, id, Missing, policy, now); NewestMissing(p.cache, n, now + policy.ttl)
  {
    hide AliasInv, LruInv, AddNegative;
    AddNegativeIs(s.cache, n, now, policy.ttl);
    AddNegativeKeepsInv(s.cache, n, now, policy.ttl);
  }

  /** `n` is cached as missing until `expires`, and no other name was found missing later. */
  ghost predicate NewestMissing(c: Cache, n: string, expires: nat) {
    && n in c.negatives && n in c.names && c.names[n].Negative? && c.names[n].expires == expires
    && forall m | m in c.negatives && m != n :: m in c.names && c.names[m].Negative? &&
         c.names[m].order < c.names[n].order
  }

  lemma SettleKeepsNames(p: Source, n: string, id: LoadId, outcome: Outcome)
    requires id < |p.records|
    ensures var u := Settle(p, n, id, outcome);
      u.retired == p.retired && u.cache.names == p.cache.names && u.cache.negatives == p.cache.negatives
  {
  }

  lemma EnforceKeepsNewest(c: Cache, policy: Policy, now: nat, n: string)
    requires CacheInv(c) && policy.cap > 0 && policy.ttl > 0 && NewestMissing(c, n, now + policy.ttl)
    ensures var r := Enforce(c, policy, now); n in r.negatives && n in r.names && r.names[n] == c.names[n]
  {
    PruneIsExact(c, now);
    var p := Prune(c, now);
    CapIsExact(p, policy.cap);
    var q := Cap(p, policy.cap);
    assert n !in Expired(c, now) && n in p.negatives && p.names[n] == c.names[n];
    CapKeepsNewest(p, policy.cap, n, q);
    var k := EvictsShortestPrefix(q, policy.budget);
    FrontIsReal(q, k);
    assert Ref(q, Name(n)) == 0;
    hide CacheInv, Prune, Cap, Evict, Expired, Front;
  }

  lemma CapKeepsNewest(p: Cache, cap: nat, n: string, q: Cache)
    requires CacheInv(p) && cap > 0 && Capped(p, cap, q) && n in p.negatives
    requires forall m | m in p.negatives && m != n :: Order(p, m) < Order(p, n)
    ensures n in q.negatives && n in q.names && q.names[n] == p.names[n]
  {
    assert q.negatives != {};
    var m :| m in q.negatives;
    if m != n { assert !(Order(p, n) < Order(p, m)); }
  }
}
