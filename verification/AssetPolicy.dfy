/** Budget, negative-cache and expiry enforcement: what is removed and what survives. */
module AssetPolicy {
  import opened AssetModel
  import opened AssetSafety

  // --------------------------------------------------------------- byte budget

  /** The eviction loop of enforceAssetCachePolicyLocked. */
  ghost function Evict(c: Cache, budget: nat): Cache
    requires CacheInv(c)
    decreases |c.lru|
  {
    if c.bytes <= budget || c.lru == [] then c
    else
      PurgeFront(c);
      Evict(Purge(c, c.lru[0]), budget)
  }

  ghost predicate Listed(c: Cache) { forall i | 0 <= i < |c.lru| :: c.lru[i] in c.blobs }

  /** The bytes of the `k` least recently used blobs. */
  ghost function PrefixBytes(c: Cache, k: nat): nat
    requires k <= |c.lru| && Listed(c)
  {
    if k == 0 then 0 else PrefixBytes(c, k - 1) + c.blobs[c.lru[k - 1]].bytes
  }

  /** The blobs, names and sources of `r` are those of `c` that do not belong to `gone`. */
  ghost predicate WithoutBlobs(c: Cache, gone: set<Key>, r: Cache) {
    && (forall b :: b in r.blobs <==> b in c.blobs && b !in gone)
    && (forall b | b in r.blobs :: r.blobs[b] == c.blobs[b])
    && (forall n :: n in r.names <==> n in c.names && Target(c.names, c.sources, Name(n)) !in gone)
    && (forall n | n in r.names :: r.names[n] == c.names[n])
    && (forall a :: a in r.sources <==> a in c.sources && KeyOf(c.sources[a]) !in gone)
    && (forall a | a in r.sources :: r.sources[a] == c.sources[a])
    && r.negatives == c.negatives && r.nextOrder == c.nextOrder && r.nextExpiry == c.nextExpiry
  }

  ghost function Front(c: Cache, k: nat): (front: set<Key>)
    requires k <= |c.lru|
    ensures forall b :: b in front <==> b in c.lru[..k]
  {
    set b | b in c.lru[..k]
  }

  /** `r` is `c` without its `k` least recently used blobs and everything naming them. */
  ghost predicate WithoutPrefix(c: Cache, k: nat, r: Cache)
    requires k <= |c.lru| && Listed(c)
  {
    WithoutBlobs(c, Front(c, k), r) && r.lru == c.lru[k..] && r.bytes == c.bytes - PrefixBytes(c, k)
  }

  lemma PurgeFront(c: Cache)
    requires CacheInv(c) && c.lru != []
    ensures c.lru[0] in c.blobs && CacheInv(Purge(c, c.lru[0])) && Listed(c)
    ensures Purge(c, c.lru[0]).lru == c.lru[1..] && Listed(Purge(c, c.lru[0]))
    ensures WithoutPrefix(c, 1, Purge(c, c.lru[0]))
  {
    var k := c.lru[0];
    assert k in c.lru;
    var p := Purge(c, k);
    PurgeKeepsInv(c, k);
    DropAliasesExact(c, k, c.blobs[k].aliases);
    assert PrefixBytes(c, 1) == PrefixBytes(c, 0) + c.blobs[k].bytes;
    assert forall b :: b in c.lru[..1] <==> b == k;
    forall a ensures a in c.blobs[k].aliases <==> Target(c.names, c.sources, a) == k {}
  }

  lemma {:induction false} PrefixShift(c: Cache, k: nat)
    requires CacheInv(c) && c.lru != [] && 0 < k <= |c.lru| && Listed(c) && Listed(Purge(c, c.lru[0]))
    requires Purge(c, c.lru[0]).lru == c.lru[1..]
    ensures PrefixBytes(c, k) == c.blobs[c.lru[0]].bytes + PrefixBytes(Purge(c, c.lru[0]), k - 1)
  {
    if k <= 1 {
    } else {
      PrefixShift(c, k - 1);
      assert c.lru[k - 1] == c.lru[1..][k - 2];
      assert c.lru[k - 1] != c.lru[0];
    }
  }

  lemma WithoutMore(c: Cache, p: Cache, r: Cache, first: set<Key>, rest: set<Key>)
    requires WithoutBlobs(c, first, p) && WithoutBlobs(p, rest, r)
    ensures WithoutBlobs(c, first + rest, r)
  {
  }

  lemma FrontSplit(c: Cache, p: Cache, k: nat)
    requires c.lru != [] && p.lru == c.lru[1..] && k <= |p.lru|
    ensures Front(c, k + 1) == Front(c, 1) + Front(p, k) && c.lru[k + 1..] == p.lru[k..]
  {
    assert c.lru[..k + 1] == c.lru[..1] + p.lru[..k];
  }

  lemma WithoutPrefixStep(c: Cache, p: Cache, k: nat, r: Cache)
    requires CacheInv(c) && c.lru != [] && p == Purge(c, c.lru[0]) && Listed(c) && Listed(p)
    requires p.lru == c.lru[1..] && WithoutPrefix(c, 1, p) && k <= |p.lru| && WithoutPrefix(p, k, r)
    ensures WithoutPrefix(c, k + 1, r)
  {
    hide CacheInv, Purge, WithoutBlobs, Front;
    WithoutMore(c, p, r, Front(c, 1), Front(p, k));
    FrontSplit(c, p, k);
    PrefixShift(c, k + 1);
    assert PrefixBytes(c, 1) == PrefixBytes(c, 0) + c.blobs[c.lru[0]].bytes;
  }

  lemma WithoutNothing(c: Cache)
    requires CacheInv(c)
    ensures Listed(c) && WithoutPrefix(c, 0, c)
  {
  }

  /** Budget enforcement removes exactly the shortest prefix of the LRU that brings the
      cache within its budget, with every name and source of those blobs; or all of the
      LRU, when what is left over budget is protected.  Nothing else changes. */
  lemma {:induction false} EvictsShortestPrefix(c: Cache, budget: nat) returns (k: nat)
    requires CacheInv(c)
    ensures Listed(c) && k <= |c.lru| && WithoutPrefix(c, k, Evict(c, budget)) && CacheInv(Evict(c, budget))
    ensures forall j: nat | j < k :: c.bytes - PrefixBytes(c, j) > budget
    ensures Evict(c, budget).bytes <= budget || k == |c.lru|
    decreases |c.lru|
  {
    hide CacheInv, Purge, WithoutBlobs, Front, Listed;
    WithoutNothing(c);
    if c.bytes <= budget || c.lru == [] {
      k := 0;
    } else {
      PurgeFront(c);
      var p := Purge(c, c.lru[0]);
      var j := EvictsShortestPrefix(p, budget);
      k := j + 1;
      WithoutPrefixStep(c, p, j, Evict(c, budget));
      forall i: nat | i < k ensures c.bytes - PrefixBytes(c, i) > budget {
        if i > 0 {
          PrefixShift(c, i);
          assert p.bytes - PrefixBytes(p, i - 1) > budget;
        }
      }
    }
  }

  /** A protected blob and everything naming it outlive any enforcement. */
  lemma ProtectedSurvives(c: Cache, budget: nat, b: Key, a: Alias)
    requires CacheInv(c) && b in c.blobs && Protected(c.blobs[b])
    ensures var r := Evict(c, budget);
      && b in r.blobs && r.blobs[b] == c.blobs[b]
      && (Target(c.names, c.sources, a) == b ==> Target(r.names, r.sources, a) == b)
  {
    var k := EvictsShortestPrefix(c, budget);
    assert b !in c.lru;
    assert b !in Front(c, k);
    TargetSurvives(c, Front(c, k), Evict(c, budget), b, a);
    hide CacheInv, Evict, Front;
  }

  lemma TargetSurvives(c: Cache, gone: set<Key>, r: Cache, b: Key, a: Alias)
    requires WithoutBlobs(c, gone, r) && b !in gone
    ensures b != 0 && Target(c.names, c.sources, a) == b ==> Target(r.names, r.sources, a) == b
  {
  }

  // ------------------------------------------------------------ negative entries

  ghost predicate Indexed(names: map<string, Entry>, negatives: set<string>) {
    forall n | n in negatives :: n in names && names[n].Negative?
  }

  ghost function Expired(c: Cache, now: nat): set<string>
    requires Indexed(c.names, c.negatives)
  {
    set n | n in c.negatives && c.names[n].expires <= now
  }

  /** 0 stands for no bound, the zero time. */
  ghost predicate IsEarliest(names: map<string, Entry>, negatives: set<string>, t: nat)
    requires Indexed(names, negatives)
  {
    && (forall n | n in negatives :: t <= names[n].expires)
    && (if negatives == {} then t == 0 else exists n :: n in negatives && names[n].expires == t)
  }

  ghost function Earliest(names: map<string, Entry>, negatives: set<string>): (t: nat)
    requires Indexed(names, negatives)
    ensures IsEarliest(names, negatives, t)
    decreases |negatives|
  {
    if negatives == {} then 0
    else
      var n :| n in negatives;
      var t := Earliest(names, negatives - {n});
      assert negatives == negatives - {n} + {n};
      if negatives - {n} == {} || names[n].expires < t then names[n].expires else t
  }

  /** pruneExpiredNegativeLocked */
  ghost function Prune(c: Cache, now: nat): Cache
    requires CacheInv(c)
  {
    if c.negatives == {} || c.nextExpiry > now then c
    else
      var names, negatives := c.names - Expired(c, now), c.negatives - Expired(c, now);
      c.(names := names, negatives := negatives, nextExpiry := Earliest(names, negatives))
  }

  /** `r` is `c` without the negative entries `gone`. */
  ghost predicate WithoutNegatives(c: Cache, gone: set<string>, r: Cache) {
    && r == c.(names := r.names, negatives := r.negatives, nextExpiry := r.nextExpiry)
    && r.negatives == c.negatives - gone
    && r.names == c.names - gone
  }

  lemma DropNegativesKeepsAliases(c: Cache, gone: set<string>)
    requires CacheInv(c) && gone <= c.negatives
    ensures AliasInv(c.names - gone, c.sources, c.blobs)
  {
    AliasRename(c.names, c.names - gone, c.sources, c.blobs);
  }

  /** Exactly the expired entries go, whether or not the scan was skipped. */
  lemma PruneIsExact(c: Cache, now: nat)
    requires CacheInv(c)
    ensures CacheInv(Prune(c, now)) && WithoutNegatives(c, Expired(c, now), Prune(c, now))
    ensures forall n | n in Prune(c, now).negatives :: Prune(c, now).names[n].expires > now
  {
    if c.negatives == {} || c.nextExpiry > now {
      assert Expired(c, now) == {};
      assert c.names - {} == c.names;
    } else {
      DropNegativesKeepsAliases(c, Expired(c, now));
    }
  }

  ghost function Order(c: Cache, n: string): nat
    requires n in c.names && c.names[n].Negative?
  {
    c.names[n].order
  }

  ghost predicate IsOldest(c: Cache, n: string)
    requires CacheInv(c)
  {
    n in c.negatives && forall m | m in c.negatives :: Order(c, n) <= Order(c, m)
  }

  lemma {:induction false} OldestExists(c: Cache, s: set<string>) returns (n: string)
    requires CacheInv(c) && s != {} && s <= c.negatives
    ensures n in s && forall m | m in s :: Order(c, n) <= Order(c, m)
    decreases |s|
  {
    n :| n in s;
    if s != {n} {
      var m := OldestExists(c, s - {n});
      if Order(c, m) < Order(c, n) { n := m; }
    }
  }

  /** oldestNegativeLocked */
  ghost function Oldest(c: Cache): (n: string)
    requires CacheInv(c) && c.negatives != {}
    ensures IsOldest(c, n)
  {
    assert exists n :: IsOldest(c, n) by {
      var n := OldestExists(c, c.negatives);
      assert IsOldest(c, n);
    }
    var n :| IsOldest(c, n);
    n
  }

  /** The loop that brings the negative index within its capacity. */
  ghost function Cap(c: Cache, cap: nat): Cache
    requires CacheInv(c)
    decreases |c.negatives|
  {
    if |c.negatives| <= cap then c
    else
      DeleteNameKeepsInv(c, Oldest(c));
      Cap(DeleteName(c, Oldest(c)), cap)
  }

  /** Every entry that goes is older than every entry that stays. */
  ghost predicate OlderThanKept(c: Cache, kept: set<string>)
    requires CacheInv(c)
  {
    forall n, m | n in c.negatives - kept && m in kept && m in c.negatives :: Order(c, n) < Order(c, m)
  }

  /** At most `cap` entries stay, no more go than that needs, and those that go are older
      than all that stay. */
  ghost predicate Capped(c: Cache, cap: nat, r: Cache)
    requires CacheInv(c)
  {
    && r.negatives <= c.negatives
    && WithoutNegatives(c, c.negatives - r.negatives, r)
    && |r.negatives| == (if |c.negatives| < cap then |c.negatives| else cap)
    && OlderThanKept(c, r.negatives)
  }

  lemma DeleteNegative(c: Cache, n: string)
    requires CacheInv(c) && n in c.negatives
    ensures CacheInv(DeleteName(c, n)) && WithoutNegatives(c, {n}, DeleteName(c, n))
    ensures |DeleteName(c, n).negatives| == |c.negatives| - 1
  {
    DeleteNameKeepsInv(c, n);
  }

  lemma WithoutMoreNegatives(c: Cache, u: Cache, r: Cache, first: set<string>, rest: set<string>)
    requires WithoutNegatives(c, first, u) && WithoutNegatives(u, rest, r)
    ensures WithoutNegatives(c, first + rest, r)
  {
    assert c.names - (first + rest) == c.names - first - rest;
  }

  lemma OlderStep(c: Cache, n: string, u: Cache, kept: set<string>)
    requires CacheInv(c) && IsOldest(c, n) && CacheInv(u) && WithoutNegatives(c, {n}, u)
    requires kept <= u.negatives && OlderThanKept(u, kept)
    ensures OlderThanKept(c, kept)
  {
    hide AliasInv, LruInv;
    forall a, m | a in c.negatives - kept && m in kept && m in c.negatives ensures Order(c, a) < Order(c, m) {
      assert Order(u, m) == Order(c, m);
      if a != n {
        assert a in u.negatives - kept && Order(u, a) == Order(c, a);
      } else {
        assert n != m && c.names[n].order <= c.names[m].order;
      }
    }
  }

  lemma CappedStep(c: Cache, n: string, u: Cache, cap: nat, r: Cache)
    requires CacheInv(c) && IsOldest(c, n) && CacheInv(u) && WithoutNegatives(c, {n}, u)
    requires |u.negatives| == |c.negatives| - 1 >= cap && Capped(u, cap, r)
    ensures Capped(c, cap, r)
  {
    hide CacheInv, OlderThanKept;
    OlderStep(c, n, u, r.negatives);
    WithoutMoreNegatives(c, u, r, {n}, u.negatives - r.negatives);
    assert c.negatives - r.negatives == {n} + (u.negatives - r.negatives);
  }

  lemma CappedAlready(c: Cache, cap: nat)
    requires CacheInv(c) && |c.negatives| <= cap
    ensures Capped(c, cap, c)
  {
    hide CacheInv;
    assert c.names - (c.negatives - c.negatives) == c.names;
  }

  lemma {:induction false} CapIsExact(c: Cache, cap: nat)
    requires CacheInv(c)
    ensures CacheInv(Cap(c, cap)) && Capped(c, cap, Cap(c, cap))
    decreases |c.negatives|
  {
    hide CacheInv, DeleteName, Capped, WithoutNegatives;
    if |c.negatives| <= cap {
      CappedAlready(c, cap);
    } else {
      var n := Oldest(c);
      var u := DeleteName(c, n);
      DeleteNegative(c, n);
      CapIsExact(u, cap);
      CappedStep(c, n, u, cap, Cap(u, cap));
    }
  }

  // ------------------------------------------------------------------ the policy

  datatype Policy = Policy(budget: nat, cap: nat, ttl: nat)

  /** enforceAssetCachePolicyLocked of a live generation. */
  ghost function Enforce(c: Cache, policy: Policy, now: nat): Cache
    requires CacheInv(c)
  {
    PruneIsExact(c, now);
    CapIsExact(Prune(c, now), policy.cap);
    Evict(Cap(Prune(c, now), policy.cap), policy.budget)
  }

  /** What holds after every enforcement. */
  lemma EnforceKeepsPolicy(c: Cache, policy: Policy, now: nat)
    requires CacheInv(c)
    ensures var r := Enforce(c, policy, now);
      && CacheInv(r)
      && (r.bytes <= policy.budget || forall k | k in r.blobs :: Protected(r.blobs[k]))
      && |r.negatives| <= policy.cap
      && (forall k | k in c.blobs && Protected(c.blobs[k]) :: k in r.blobs && r.blobs[k] == c.blobs[k])
      && (forall n | n in r.negatives ::
            && n in c.negatives && n in r.names && r.names[n] == c.names[n]
            && r.names[n].Negative? && r.names[n].expires > now)
  {
    PruneIsExact(c, now);
    var p := Prune(c, now);
    CapIsExact(p, policy.cap);
    var q := Cap(p, policy.cap);
    var k := EvictsShortestPrefix(q, policy.budget);
    var r := Enforce(c, policy, now);
    if r.bytes > policy.budget {
      assert r.lru == [];
    }
    forall k | k in c.blobs && Protected(c.blobs[k]) ensures k in r.blobs && r.blobs[k] == c.blobs[k] {
      ProtectedSurvives(q, policy.budget, k, Path(""));
    }
  }
}
