/** The asset cache as the object its methods update: every method is one locked helper
    or one locked section, and computes what the value-level functions say. */
module AssetStore {
  import opened Options
  import opened AssetModel
  import opened AssetSafety
  import opened AssetPolicy
  import opened AssetLoads
  import opened AssetSections

  /** Go's order on strings. */
  predicate Less(a: string, b: string) {
    if b == "" then false
    else if a == "" then true
    else a[0] < b[0] || (a[0] == b[0] && Less(a[1..], b[1..]))
  }

  lemma EarliestIsUnique(names: map<string, Entry>, negatives: set<string>, t: nat)
    requires Indexed(names, negatives) && IsEarliest(names, negatives, t)
    ensures t == Earliest(names, negatives)
  {
    var e := Earliest(names, negatives);
    assert IsEarliest(names, negatives, e);
    if negatives != {} {
      var n :| n in negatives && names[n].expires == t;
      var m :| m in negatives && names[m].expires == e;
    }
  }

  lemma OldestIsUnique(c: Cache, n: string)
    requires CacheInv(c) && IsOldest(c, n)
    ensures n == Oldest(c)
  {
    assert IsOldest(c, Oldest(c));
  }

  lemma EarliestFrame(names: map<string, Entry>, names': map<string, Entry>, negatives: set<string>)
    requires Indexed(names, negatives) && Indexed(names', negatives) && forall n | n in negatives ::
      names'[n] == names[n]
    ensures Earliest(names, negatives) == Earliest(names', negatives)
  {
    var t := Earliest(names, negatives);
    assert IsEarliest(names, negatives, t);
    assert IsEarliest(names', negatives, t);
    EarliestIsUnique(names', negatives, t);
  }

  /** The scan for expired names of `c` has still to look at `todo`: `u` is without the
      expired ones seen so far, and `next` is the earliest expiry of the others. */
  ghost predicate Scanned(c: Cache, expired: set<string>, todo: set<string>, u: Cache, next: nat) {
    && todo <= c.negatives && expired <= c.negatives && Indexed(c.names, c.negatives)
    && u == c.(names := c.names - (expired - todo), negatives := c.negatives - (expired - todo),
         nextExpiry := u.nextExpiry)
    && IsEarliest(c.names, c.negatives - todo - expired, next)
  }

  lemma ScanStart(c: Cache, expired: set<string>)
    requires CacheInv(c) && expired <= c.negatives
    ensures Scanned(c, expired, c.negatives, c, 0)
  {
    assert expired - c.negatives == {} && c.negatives - c.negatives - expired == {};
    assert c.names - {} == c.names && c.negatives - {} == c.negatives;
  }

  lemma ScanSees(c: Cache, expired: set<string>, todo: set<string>, n: string, next: nat, u: Cache)
    requires Scanned(c, expired, todo, u, next) && n in todo
    ensures n in c.negatives && n in u.names && u.names[n] == c.names[n] && u.names[n].Negative?
  {
  }

  lemma ScanDrops(c: Cache, expired: set<string>, todo: set<string>, n: string, next: nat, u: Cache)
    requires Scanned(c, expired, todo, u, next) && n in todo && n in expired
    ensures Scanned(c, expired, todo - {n}, DeleteName(u, n), next)
  {
    ScanSees(c, expired, todo, n, next, u);
    assert expired - (todo - {n}) == (expired - todo) + {n};
    assert c.names - (expired - (todo - {n})) == (c.names - (expired - todo)) - {n};
    assert c.negatives - (expired - (todo - {n})) == (c.negatives - (expired - todo)) - {n};
    assert c.negatives - (todo - {n}) - expired == c.negatives - todo - expired;
  }

  lemma ScanKeeps(c: Cache, expired: set<string>, todo: set<string>, n: string, next: nat, u: Cache)
    requires CacheInv(c) && Scanned(c, expired, todo, u, next) && n in todo && n !in expired
    ensures n in c.names && c.names[n].Negative?
    ensures var e := c.names[n].expires; Scanned(c, expired, todo - {n}, u, if next == 0 || e < next then e else next)
  {
    hide AliasInv, LruInv;
    assert expired - (todo - {n}) == expired - todo;
    assert c.negatives - (todo - {n}) - expired == (c.negatives - todo - expired) + {n};
  }

  /** One entry `n` of the scan, in whichever way it goes. */
  lemma ScanNext(c: Cache, now: nat, todo: set<string>, n: string, next: nat, u: Cache)
    requires CacheInv(c) && Scanned(c, Expired(c, now), todo, u, next) && n in todo
    ensures n in u.names && u.names[n].Negative?
    ensures var e := u.names[n].expires;
      Scanned(c, Expired(c, now), todo - {n}, if e <= now then DeleteName(u, n) else u,
              if e > now && (next == 0 || e < next) then e else next)
  {
    var expired := Expired(c, now);
    ScanSees(c, expired, todo, n, next, u);
    InExpired(c, now, n);
    if n in expired {
      ScanDrops(c, expired, todo, n, next, u);
    } else {
      ScanKeeps(c, expired, todo, n, next, u);
    }
    hide CacheInv, Scanned, DeleteName, Expired;
  }

  lemma ScanDone(c: Cache, now: nat, next: nat, u: Cache)
    requires CacheInv(c) && c.negatives != {} && c.nextExpiry <= now && Scanned(c, Expired(c, now), {}, u, next)
    ensures Prune(c, now) == u.(nextExpiry := next)
  {
    var expired := Expired(c, now);
    hide AliasInv, LruInv;
    assert expired - {} == expired && c.negatives - {} - expired == c.negatives - expired;
    EarliestIsUnique(c.names, c.negatives - expired, next);
    EarliestFrame(c.names, c.names - expired, c.negatives - expired);
  }

  lemma InExpired(c: Cache, now: nat, n: string)
    requires CacheInv(c) && n in c.negatives
    ensures n in c.names && c.names[n].Negative? && (n in Expired(c, now) <==> c.names[n].expires <= now)
  {
  }

  /** What finishLoad's method needs to know about each of its parts. */
  lemma FinishParts(s: Source, n: string, id: LoadId, outcome: Outcome, policy: Policy, now: nat)
    requires SourceInv(s) && Active(s, n, id) && (|s.loads| == 1 ==> s.opening.None?)
    ensures CacheInv(s.cache) && SourceInv(FinishLoad(s, n, id, outcome, policy, now))
    ensures var p := Publish(s, n, id, outcome, policy, now);
      && |p.records| == |s.records| && CacheInv(Settle(p, n, id, outcome).cache)
      && Settle(p, n, id, outcome).dropped == s.dropped && Settle(p, n, id, outcome).archive == s.archive
      && var u := Settle(p, n, id, outcome);
         FinishLoad(s, n, id, outcome, policy, now) ==
             Drop(if u.retired then u else u.(cache := Enforce(u.cache, policy, now)))
  {
    FinishLoadKeepsInv(s, n, id, outcome, policy, now);
    PublishKeepsCache(s, n, id, outcome, policy, now);
    SettleKeepsCache(Publish(s, n, id, outcome, policy, now), n, id, outcome);
    PublishKeepsInv(s, n, id, outcome, policy, now);
    SettleKeepsLoads(Publish(s, n, id, outcome, policy, now), n, id, outcome);
    hide Enforce, CacheInv, LoadsInv, ArchiveInv, Publish, Settle, Drop;
  }

  /** What finishLoad leaves beside the cache. */
  lemma FinishLeaves(s: Source, n: string, id: LoadId, outcome: Outcome, policy: Policy, now: nat)
    requires SourceInv(s) && Active(s, n, id) && (|s.loads| == 1 ==> s.opening.None?)
    ensures CacheInv(s.cache)
    ensures var u := FinishLoad(s, n, id, outcome, policy, now);
      && u.retired == s.retired && u.active == s.active - 1 && u.loads == s.loads - {n}
      && id < |u.records| && u.records[id] == Load(0, Some(outcome))
      && (!u.retired ==> MeetsPolicy(u.cache, policy, now))
      && if u.retired && u.active == 0 then u.cache == Empty().(nextOrder := u.cache.nextOrder) && u.archive.None?
         else u.archive == s.archive
  {
    hide CacheInv, LoadsInv, ArchiveInv, FinishLoad, MeetsPolicy;
    FinishLoadKeepsInv(s, n, id, outcome, policy, now);
    FinishDrops(s, n, id, outcome, policy, now);
    if !s.retired { SectionsMeetPolicy(s, n, id, outcome, 0, policy, now); }
  }

  lemma ReturnedParts(s: Source, k: Key, policy: Policy, now: nat)
    requires SourceInv(s)
    ensures SourceInv(Returned(s, k, policy, now)) && CacheInv(s.cache) && CacheInv(Return(s.cache, k))
    ensures Returned(s, k, policy, now) ==
      if k !in s.cache.blobs || s.cache.blobs[k].handles == 0 then s
      else s.(cache := if s.retired then Return(s.cache, k) else Enforce(Return(s.cache, k), policy, now))
  {
    hide LoadsInv, ArchiveInv, SameLoads, Enforce;
    EndBorrowKeepsInv(s, k, policy, now);
    ReleaseKeepsInv(s.cache, k);
  }

  lemma OpeningIsCounted(s: Source)
    requires SourceInv(s) && s.opening.Some?
    ensures s.opening.value < |s.opens|
  {
  }

  class AssetCache {
    var nameCache: map<string, Entry>
    var sources: map<Alias, Data>
    var blobs: map<Key, Blob>
    var inactiveBlobs: seq<Key>
    var cachedBytes: int
    var negativeNames: set<string>
    var nextNegative: nat
    var nextNegativeExpiry: nat
    var loads: map<string, LoadId>
    var records: seq<Load>
    var activeLoads: int
    var retired: bool
    var apkArch: Option<Handle>
    var apkOpening: Option<Handle>
    var opens: seq<Option<bool>>
    var dropped: seq<Handle>
    var closed: seq<Handle>

    function View(): Source
      reads this
    {
      Source(Cache(nameCache, sources, blobs, inactiveBlobs, cachedBytes, negativeNames, nextNegative,
          nextNegativeExpiry),
             loads, records, activeLoads, retired, apkArch, apkOpening, opens, dropped, closed)
    }

    /** A listed blob is behind all others. */
    predicate LastToGo(k: Key)
      reads this
    {
      k in blobs && blobs[k].queued ==> inactiveBlobs != [] && inactiveBlobs[|inactiveBlobs| - 1] == k
    }

    constructor ()
      ensures View() == Start() && SourceInv(View())
    {
      nameCache, sources, blobs, inactiveBlobs, cachedBytes := map[], map[], map[], [], 0;
      negativeNames, nextNegative, nextNegativeExpiry := {}, 0, 0;
      loads, records, activeLoads, retired := map[], [], 0, false;
      apkArch, apkOpening, opens, dropped, closed := None, None, [], [], [];
      new;
      EmptyKeepsInv(0);
    }

    // ------------------------------------------------------------ locked helpers

    method TouchBlob(d: Data)
      modifies this`inactiveBlobs
      ensures View().cache == Touch(old(View().cache), d)
      ensures LastToGo(KeyOf(d))
    {
      var k := KeyOf(d);
      if k in blobs && blobs[k].queued {
        inactiveBlobs := Without(inactiveBlobs, k) + [k];
      }
    }

    method MakeBlobEvictable(k: Key)
      modifies this`inactiveBlobs, this`blobs
      ensures View().cache == MakeEvictable(old(View().cache), k)
      ensures k in blobs && !Protected(blobs[k]) ==> blobs[k].queued
    {
      if k !in blobs || blobs[k].inFlight != 0 || blobs[k].handles != 0 || blobs[k].queued {
        return;
      }
      inactiveBlobs := inactiveBlobs + [k];
      blobs := blobs[k := blobs[k].(queued := true)];
    }

    method RecordBlob(d: Data) returns (k: Key)
      modifies this`inactiveBlobs, this`blobs, this`cachedBytes
      ensures k == KeyOf(d) && View().cache == Record(old(View().cache), d)
      ensures k != 0 ==> k in blobs && cachedBytes == old(cachedBytes) + (if k in old(blobs) then 0 else d.len)
    {
      k := KeyOf(d);
      if k == 0 {
        return;
      }
      if k in blobs {
        TouchBlob(d);
        return;
      }
      blobs := blobs[k := Blob(d.len, [], 0, 0, false)];
      cachedBytes := cachedBytes + d.len;
      MakeBlobEvictable(k);
      assert blobs == old(blobs)[k := Blob(d.len, [], 0, 0, true)];
    }

    method RemoveBlob(k: Key)
      requires k in blobs
      modifies this`inactiveBlobs, this`blobs, this`cachedBytes
      ensures View().cache == AssetModel.RemoveBlob(old(View().cache), k)
      ensures k !in blobs && cachedBytes == old(cachedBytes) - old(blobs)[k].bytes
    {
      if blobs[k].queued {
        inactiveBlobs := Without(inactiveBlobs, k);
      }
      cachedBytes := cachedBytes - blobs[k].bytes;
      blobs := blobs - {k};
    }

    method LinkBlobAlias(d: Data, a: Alias)
      modifies this`inactiveBlobs, this`blobs, this`cachedBytes
      ensures View().cache == Link(old(View().cache), d, a)
      ensures KeyOf(d) != 0 ==> KeyOf(d) in blobs && a in blobs[KeyOf(d)].aliases
    {
      var k := RecordBlob(d);
      if k != 0 {
        blobs := blobs[k := blobs[k].(aliases := blobs[k].aliases + [a])];
      }
    }

    method UnlinkBlobAlias(k: Key, a: Alias)
      modifies this`inactiveBlobs, this`blobs, this`cachedBytes
      ensures View().cache == Unlink(old(View().cache), k, a)
    {
      if k == 0 || k !in blobs {
        return;
      }
      blobs := blobs[k := blobs[k].(aliases := Without(blobs[k].aliases, a))];
      if blobs[k].aliases == [] {
        RemoveBlob(k);
      }
    }

    method DeleteName(n: string)
      modifies this`nameCache, this`inactiveBlobs, this`blobs, this`cachedBytes, this`negativeNames,
               this`nextNegativeExpiry
      ensures View().cache == AssetModel.DeleteName(old(View().cache), n)
      ensures nameCache == old(nameCache) - {n}
      ensures (negativeNames == {} && old(negativeNames) != {} ==> nextNegativeExpiry == 0)
    {
      if n !in nameCache {
        return;
      }
      var entry := nameCache[n];
      nameCache := nameCache - {n};
      if entry.Positive? {
        UnlinkBlobAlias(KeyOf(entry.data), Name(n));
        return;
      }
      negativeNames := negativeNames - {n};
      if negativeNames == {} {
        nextNegativeExpiry := 0;
      }
    }

    method SetNamePositive(n: string, d: Data)
      modifies this`nameCache, this`inactiveBlobs, this`blobs, this`cachedBytes, this`negativeNames,
               this`nextNegativeExpiry
      ensures View().cache == SetName(old(View().cache), n, d)
      ensures n in nameCache && nameCache[n].Positive? && KeyOf(nameCache[n].data) == KeyOf(d)
    {
      if n in nameCache && nameCache[n].Positive? && KeyOf(nameCache[n].data) == KeyOf(d) {
        TouchBlob(d);
        return;
      }
      DeleteName(n);
      nameCache := nameCache[n := Positive(d)];
      LinkBlobAlias(d, Name(n));
    }

    method SetSource(a: Alias, d: Data) returns (r: Data)
      requires !a.Name?
      modifies this`sources, this`inactiveBlobs, this`blobs, this`cachedBytes
      ensures View().cache == AssetModel.SetSource(old(View().cache), a, d)
      ensures r == if a in old(sources) then old(sources)[a] else d
      ensures a in sources && sources[a] == r
    {
      if a in sources {
        return sources[a];
      }
      sources := sources[a := d];
      LinkBlobAlias(d, a);
      r := d;
    }

    method ProtectLoadBlob(id: LoadId, d: Data)
      requires id < |records|
      modifies this`inactiveBlobs, this`blobs, this`cachedBytes, this`records
      ensures View() == ProtectLoad(old(View()), id, d)
    {
      if records[id].blob != 0 {
        return;
      }
      hide Protect;
      var k := ProtectBlob(d);
      if k == 0 {
        assert records == records[id := records[id].(blob := 0)];
        return;
      }
      records := records[id := records[id].(blob := k)];
    }

    /** The blob is recorded, and one load more protects it. */
    method ProtectBlob(d: Data) returns (k: Key)
      modifies this`inactiveBlobs, this`blobs, this`cachedBytes
      ensures k == KeyOf(d) && View().cache == Protect(old(View().cache), d)
    {
      RecordHas(View().cache, d);
      hide Record, Hold;
      k := RecordBlob(d);
      if k == 0 {
        return;
      }
      HoldBlob(k, blobs[k].(inFlight := blobs[k].inFlight + 1));
    }

    /** A blob that a load or a native handle protects leaves the LRU. */
    method HoldBlob(k: Key, b: Blob)
      requires k in blobs
      modifies this`inactiveBlobs, this`blobs
      ensures View().cache == Hold(old(View().cache), k, b)
    {
      if blobs[k].queued {
        inactiveBlobs := Without(inactiveBlobs, k);
      }
      blobs := blobs[k := b.(queued := false)];
    }

    method ReleaseLoadBlob(id: LoadId)
      requires id < |records|
      modifies this`inactiveBlobs, this`blobs, this`records
      ensures View() == ReleaseLoad(old(View()), id)
      ensures records[id].blob == 0 && blobs.Keys == old(blobs).Keys
    {
      var k := records[id].blob;
      if k == 0 {
        return;
      }
      records := records[id := records[id].(blob := 0)];
      if k !in blobs || blobs[k].inFlight == 0 {
        return;
      }
      blobs := blobs[k := blobs[k].(inFlight := blobs[k].inFlight - 1)];
      MakeBlobEvictable(k);
    }

    method CacheNegative(n: string, policy: Policy, now: nat)
      modifies this`nameCache, this`inactiveBlobs, this`blobs, this`cachedBytes, this`negativeNames,
               this`nextNegative, this`nextNegativeExpiry
      ensures View().cache ==
        if policy.cap == 0 || policy.ttl == 0 then old(View().cache)
        else AddNegative(old(View().cache), n, now, policy.ttl)
    {
      if policy.cap == 0 || policy.ttl == 0 {
        return;
      }
      hide AssetModel.DeleteName;
      DeleteName(n);
      RecordNegative(n, now + policy.ttl);
    }

    method RecordNegative(n: string, expiresAt: nat)
      modifies this`nameCache, this`negativeNames, this`nextNegative, this`nextNegativeExpiry
      ensures var u := old(View().cache);
        View().cache == u.(
          names := u.names[n := Negative(expiresAt, u.nextOrder + 1)], negatives := u.negatives + {n},
          nextOrder := u.nextOrder + 1,
          nextExpiry := if u.nextExpiry == 0 || expiresAt < u.nextExpiry then expiresAt else u.nextExpiry)
    {
      nextNegative := nextNegative + 1;
      nameCache := nameCache[n := Negative(expiresAt, nextNegative)];
      negativeNames := negativeNames + {n};
      if nextNegativeExpiry == 0 || expiresAt < nextNegativeExpiry {
        nextNegativeExpiry := expiresAt;
      }
    }

    // ---------------------------------------------------------------- enforcement

    method RemoveBlobAliases(k: Key)
      modifies this`nameCache, this`sources, this`inactiveBlobs, this`blobs, this`cachedBytes
      ensures View().cache == Purge(old(View().cache), k)
    {
      if k !in blobs {
        return;
      }
      DropBlobAliases(k, blobs[k].aliases);
      RemoveBlob(k);
    }

    method DropBlobAliases(k: Key, aliases: seq<Alias>)
      modifies this`nameCache, this`sources
      ensures View().cache == DropAliases(old(View().cache), k, aliases)
    {
      ghost var c := View().cache;
      for i := 0 to |aliases|
        invariant View().cache == DropAliases(c, k, aliases[..i])
      {
        var a := aliases[i];
        assert aliases[..i + 1][..i] == aliases[..i];
        if a.Name? {
          if a.key in nameCache && nameCache[a.key].Positive? && KeyOf(nameCache[a.key].data) == k {
            nameCache := nameCache - {a.key};
          }
        } else if a in sources && KeyOf(sources[a]) == k {
          sources := sources - {a};
        }
        assert View().cache == DropAlias(DropAliases(c, k, aliases[..i]), k, a);
      }
      assert aliases[..|aliases|] == aliases;
    }

    method PruneExpiredNegative(now: nat)
      requires CacheInv(View().cache)
      modifies this`nameCache, this`inactiveBlobs, this`blobs, this`cachedBytes, this`negativeNames,
               this`nextNegativeExpiry
      ensures View().cache == Prune(old(View().cache), now)
    {
      if |negativeNames| == 0 || nextNegativeExpiry > now {
        return;
      }
      ghost var c, expired := View().cache, Expired(View().cache, now);
      var todo, next := negativeNames, 0;
      ScanStart(c, expired);
      hide CacheInv, Scanned, AssetModel.DeleteName, Expired, Prune;
      while todo != {}
        invariant Scanned(c, expired, todo, View().cache, next)
        decreases |todo|
      {
        var n :| n in todo;
        ScanNext(c, now, todo, n, next, View().cache);
        next := ScanEntry(n, now, next);
        todo := todo - {n};
      }
      ScanDone(c, now, next, View().cache);
      nextNegativeExpiry := next;
    }

    /** One entry of the scan: it goes, or it counts for the new bound. */
    method ScanEntry(n: string, now: nat, next: nat) returns (bound: nat)
      requires n in nameCache && nameCache[n].Negative?
      modifies this`nameCache, this`inactiveBlobs, this`blobs, this`cachedBytes, this`negativeNames,
               this`nextNegativeExpiry
      ensures View().cache ==
        if old(nameCache)[n].expires <= now then AssetModel.DeleteName(old(View().cache), n) else old(View().cache)
      ensures var e := old(nameCache)[n].expires; bound == if e > now && (next == 0 || e < next) then e else next
    {
      hide AssetModel.DeleteName;
      bound := next;
      var expires := nameCache[n].expires;
      if expires <= now {
        DeleteName(n);
      } else if next == 0 || expires < next {
        bound := expires;
      }
    }

    method OldestNegative() returns (oldest: string, found: bool)
      requires CacheInv(View().cache)
      ensures found == (negativeNames != {})
      ensures found ==> oldest == Oldest(View().cache)
    {
      ghost var c := View().cache;
      var todo := negativeNames;
      var order := 0;
      oldest, found := "", false;
      hide AliasInv, LruInv;
      while todo != {}
        invariant todo <= negativeNames && found == (todo != negativeNames)
        invariant found ==> oldest in negativeNames - todo && order == Order(c, oldest)
        invariant found ==> forall m | m in negativeNames - todo :: order <= Order(c, m)
        decreases |todo|
      {
        var n :| n in todo;
        todo := todo - {n};
        var o := nameCache[n].order;
        if !found || o < order || (o == order && Less(n, oldest)) {
          oldest, order, found := n, o, true;
        }
      }
      if found {
        OldestIsUnique(c, oldest);
      }
    }

    method EnforcePolicy(policy: Policy, now: nat)
      requires CacheInv(View().cache)
      modifies this`nameCache, this`sources, this`inactiveBlobs, this`blobs, this`cachedBytes, this`negativeNames,
               this`nextNegativeExpiry
      ensures CacheInv(View().cache)
      ensures !retired ==> View().cache == Enforce(old(View().cache), policy, now)
      ensures retired ==>
        CacheInv(Prune(old(View().cache), now)) &&
        View().cache == Cap(Prune(old(View().cache), now), policy.cap)
    {
      hide CacheInv, Prune, Cap, Evict, Purge, AssetModel.DeleteName, Oldest, WithoutNegatives, Capped, Expired;
      hide OlderThanKept;
      PruneIsExact(View().cache, now);
      PruneExpiredNegative(now);
      ghost var p := View().cache;
      CapNegatives(policy.cap);
      CapIsExact(p, policy.cap);
      if retired {
        return;
      }
      TrimBytes(policy.budget);
    }

    method CapNegatives(cap: nat)
      requires CacheInv(View().cache)
      modifies this`nameCache, this`inactiveBlobs, this`blobs, this`cachedBytes, this`negativeNames,
               this`nextNegativeExpiry
      ensures View().cache == Cap(old(View().cache), cap)
    {
      while |negativeNames| > cap
        invariant CacheInv(View().cache) && Cap(View().cache, cap) == Cap(old(View().cache), cap)
        decreases |negativeNames|
      {
        hide CacheInv, AssetModel.DeleteName, WithoutNegatives;
        var n, found := OldestNegative();
        if !found {
          break;
        }
        DeleteNegative(View().cache, n);
        DeleteName(n);
      }
    }

    method TrimBytes(budget: nat)
      requires CacheInv(View().cache)
      modifies this`nameCache, this`sources, this`inactiveBlobs, this`blobs, this`cachedBytes
      ensures CacheInv(View().cache) && View().cache == Evict(old(View().cache), budget)
    {
      while cachedBytes > budget
        invariant CacheInv(View().cache) && Evict(View().cache, budget) == Evict(old(View().cache), budget)
        decreases |inactiveBlobs|
      {
        hide CacheInv, Purge, WithoutBlobs;
        if inactiveBlobs == [] {
          return;
        }
        PurgeFront(View().cache);
        RemoveBlobAliases(inactiveBlobs[0]);
      }
    }

    // --------------------------------------------------------------- locked sections

    method CachedName(n: string, now: nat) returns (r: Option<Entry>)
      modifies this`nameCache, this`inactiveBlobs, this`blobs, this`cachedBytes, this`negativeNames,
               this`nextNegativeExpiry
      ensures (View().cache, r) == AssetLoads.CachedName(old(View().cache), n, now)
      ensures r == if Known(old(View().cache), n, now) then Some(old(nameCache)[n]) else None
      ensures r.Some? && r.value.Positive? ==> LastToGo(KeyOf(r.value.data))
      ensures r.None? ==> nameCache == old(nameCache) - {n}
    {
      if n !in nameCache {
        return None;
      }
      var entry := nameCache[n];
      if entry.Negative? && entry.expires <= now {
        DeleteName(n);
        return None;
      }
      if entry.Positive? {
        TouchBlob(entry.data);
      }
      r := Some(entry);
    }

    method BeginLoad(n: string, now: nat) returns (r: Lookup)
      requires SourceInv(View())
      modifies this
      ensures SourceInv(View()) && (View(), r) == AssetLoads.BeginLoad(old(View()), n, now)
      ensures if old(retired) then r == Retry
        else if Known(old(View().cache), n, now) then r == Hit(old(nameCache)[n])
        else if n in old(loads) then r == Join(old(loads)[n])
        else r == Lead(|old(records)|)
      ensures r.Lead? ==> loads == old(loads)[n := r.id] && activeLoads == old(activeLoads) + 1
      ensures !r.Lead? ==> loads == old(loads) && records == old(records) && activeLoads == old(activeLoads)
      ensures r.Hit? && r.entry.Positive? ==> LastToGo(KeyOf(r.entry.data))
    {
      hide SourceInv, AssetLoads.CachedName, Known, LastToGo;
      BeginLoadKeepsInv(View(), n, now);
      if retired {
        return Retry;
      }
      var entry := CachedName(n, now);
      if entry.Some? {
        return Hit(entry.value);
      }
      if n in loads {
        return Join(loads[n]);
      }
      r := Lead(|records|);
      loads := loads[n := |records|];
      records := records + [Load(0, None)];
      activeLoads := activeLoads + 1;
    }

    /** dropRetiredCachesLocked; the archive to close, if any, is handed to the caller. */
    method DropRetiredCaches() returns (archive: Option<Handle>)
      modifies this
      ensures View() == Drop(old(View()))
      ensures archive == if retired && activeLoads == 0 then old(apkArch) else None
    {
      archive := None;
      if !retired || activeLoads != 0 {
        return;
      }
      ClearCaches();
      if apkArch.None? {
        return;
      }
      archive := apkArch;
      apkArch := None;
      dropped := dropped + [archive.value];
    }

    method ClearCaches()
      modifies this`nameCache, this`sources, this`inactiveBlobs, this`blobs, this`cachedBytes, this`negativeNames,
               this`nextNegativeExpiry
      ensures View().cache == Empty().(nextOrder := nextNegative)
    {
      nameCache, sources, blobs, negativeNames, inactiveBlobs := map[], map[], map[], {}, [];
      cachedBytes, nextNegativeExpiry := 0, 0;
    }

    method Retire() returns (archive: Option<Handle>)
      requires SourceInv(View()) && (activeLoads == 0 ==> apkOpening.None?)
      modifies this
      ensures SourceInv(View()) && View() == AssetLoads.Retire(old(View()))
      ensures retired && loads == old(loads) && records == old(records)
      ensures if activeLoads == 0
        then View().cache == Empty().(nextOrder := old(nextNegative)) && apkArch.None? && archive == old(apkArch)
        else View() == old(View()).(retired := true) && archive.None?
    {
      RetireKeepsInv(View());
      hide SourceInv;
      retired := true;
      archive := DropRetiredCaches();
    }

    method FinishLoad(n: string, id: LoadId, outcome: Outcome, policy: Policy, now: nat)
        returns (archive: Option<Handle>)
      requires SourceInv(View()) && Active(View(), n, id) && (|loads| == 1 ==> apkOpening.None?)
      modifies this
      ensures SourceInv(View()) && View() == AssetLoads.FinishLoad(old(View()), n, id, outcome, policy, now)
      ensures id < |records| && records[id] == Load(0, Some(outcome)) && loads == old(loads) - {n}
      ensures retired == old(retired) && activeLoads == old(activeLoads) - 1
      ensures !retired ==> MeetsPolicy(View().cache, policy, now)
      ensures if retired && activeLoads == 0
        then View().cache == Empty().(nextOrder := nextNegative) && apkArch.None? && archive == old(apkArch)
        else archive.None? && apkArch == old(apkArch)
    {
      hide SourceInv, Enforce, CacheInv, Publish, Settle, Drop, AssetLoads.FinishLoad, MeetsPolicy;
      FinishParts(View(), n, id, outcome, policy, now);
      FinishLeaves(View(), n, id, outcome, policy, now);
      PublishOutcome(n, id, outcome, policy, now);
      SettleLoad(n, id, outcome);
      EnforceWhileLive(policy, now);
      archive := DropRetiredCaches();
    }

    method EnforceWhileLive(policy: Policy, now: nat)
      requires CacheInv(View().cache)
      modifies this`nameCache, this`sources, this`inactiveBlobs, this`blobs, this`cachedBytes, this`negativeNames,
               this`nextNegativeExpiry
      ensures View() == if retired then old(View()) else old(View()).(cache := Enforce(old(View().cache), policy, now))
    {
      hide CacheInv, Enforce;
      if !retired {
        EnforcePolicy(policy, now);
      }
    }

    /** The part of finishLoad that hands the result to the waiters. */
    method SettleLoad(n: string, id: LoadId, outcome: Outcome)
      requires id < |records|
      modifies this`loads, this`records, this`activeLoads, this`blobs, this`inactiveBlobs
      ensures View() == Settle(old(View()), n, id, outcome)
    {
      hide ReleaseLoad;
      loads := loads - {n};
      records := records[id := records[id].(result := Some(outcome))];
      activeLoads := activeLoads - 1;
      ReleaseLoadBlob(id);
    }

    /** The part of finishLoad that caches the outcome. */
    method PublishOutcome(n: string, id: LoadId, outcome: Outcome, policy: Policy, now: nat)
      requires id < |records|
      modifies this
      ensures View() == Publish(old(View()), n, id, outcome, policy, now)
    {
      if retired || n in nameCache {
        return;
      }
      hide ProtectLoad, SetName, AddNegative;
      match outcome {
        case Loaded(d) =>
          PublishData(n, id, d);
        case Missing =>
          CacheNegative(n, policy, now);
        case Failed =>
      }
    }

    method PublishData(n: string, id: LoadId, d: Data)
      requires id < |records|
      modifies this
      ensures var p := ProtectLoad(old(View()), id, d); View() == p.(cache := SetName(p.cache, n, d))
    {
      hide ProtectLoad, SetName;
      ProtectLoadBlob(id, d);
      SetNamePositive(n, d);
    }

    method EnsureAPKBegin() returns (r: Opening)
      requires SourceInv(View()) && activeLoads > 0
      modifies this`opens, this`apkOpening
      ensures SourceInv(View()) && (View(), r) == EnsureBegin(old(View()))
      ensures if apkArch.Some? then r == Ready(apkArch.value)
        else if old(apkOpening).Some? then r == Await(old(apkOpening).value)
        else r == Open(|old(opens)|) && opens == old(opens) + [None]
      ensures apkArch.None? ==> apkOpening == if r.Await? then old(apkOpening) else Some(|old(opens)|)
    {
      EnsureKeepsInv(View(), 0, false);
      hide SourceInv;
      if apkArch.Some? {
        return Ready(apkArch.value);
      }
      if apkOpening.Some? {
        return Await(apkOpening.value);
      }
      r := Open(|opens|);
      apkOpening := Some(|opens|);
      opens := opens + [None];
    }

    method EnsureAPKEnd(h: Handle, ok: bool)
      requires SourceInv(View()) && activeLoads > 0 && apkOpening == Some(h)
      modifies this`apkArch, this`opens, this`apkOpening
      ensures SourceInv(View()) && h < |old(opens)| && View() == EnsureEnd(old(View()), h, ok)
      ensures h < |opens| && opens[h] == Some(ok) && apkOpening.None?
      ensures apkArch == if ok then Some(h) else old(apkArch)
    {
      hide SourceInv;
      EnsureKeepsInv(View(), h, ok);
      OpeningIsCounted(View());
      StoreOpened(h, ok);
    }

    method StoreOpened(h: Handle, ok: bool)
      requires h < |opens|
      modifies this`apkArch, this`opens, this`apkOpening
      ensures View() == EnsureEnd(old(View()), h, ok)
    {
      if ok {
        apkArch := Some(h);
      }
      opens := opens[h := Some(ok)];
      apkOpening := None;
    }

    method CloseDropped()
      requires SourceInv(View()) && dropped != []
      modifies this
      ensures SourceInv(View()) && View() == CloseArchive(old(View()))
      ensures closed == old(closed) + [old(dropped)[0]] && old(dropped)[0] !in dropped
    {
      CloseArchiveKeepsInv(View());
      dropped, closed := dropped[1..], closed + [dropped[0]];
    }

    method CachedSource(a: Alias) returns (r: Option<Data>)
      requires SourceInv(View())
      modifies this
      ensures SourceInv(View()) && View() == AssetLoads.CachedSource(old(View()), a)
      ensures r == if a in old(sources) then Some(old(sources)[a]) else None
      ensures r.Some? ==> LastToGo(KeyOf(r.value))
    {
      CachedSourceKeepsInv(View(), a);
      if a in sources {
        TouchBlob(sources[a]);
        return Some(sources[a]);
      }
      r := None;
    }

    /** `discard` asks for the mapping of `d` to be given up: another one won. */
    method PublishSource(n: string, id: LoadId, a: Alias, d: Data) returns (r: Data, discard: bool)
      requires SourceInv(View()) && Active(View(), n, id) && !a.Name?
      modifies this
      ensures SourceInv(View()) && (View(), r) == AssetLoads.PublishSource(old(View()), id, a, d)
      ensures r == if a in old(sources) then old(sources)[a] else d
      ensures !retired || a in old(sources) ==> a in sources && sources[a] == r
      ensures discard <==> KeyOf(r) != KeyOf(d)
    {
      hide SourceInv, SameLoads, ProtectLoad, AssetModel.SetSource;
      PublishSourceKeepsInv(View(), n, id, a, d);
      discard := false;
      if a in sources {
        r := sources[a];
        ProtectLoadBlob(id, r);
        discard := KeyOf(r) != KeyOf(d);
      } else if !retired {
        ProtectLoadBlob(id, d);
        r := SetSource(a, d);
      } else {
        r := d;
      }
    }

    method CacheSuccessAliases(requested: string, used: string, d: Data, id: LoadId)
      requires SourceInv(View()) && Active(View(), requested, id)
      modifies this
      ensures SourceInv(View()) && View() == PublishNames(old(View()), id, requested, used, d)
    {
      hide SourceInv, SameLoads, ProtectLoad, SetName;
      PublishNamesKeepsInv(View(), requested, id, used, d);
      if retired {
        return;
      }
      ProtectLoadBlob(id, d);
      SetNamePositive(requested, d);
      if used != "" && used != requested && used !in nameCache {
        SetNamePositive(used, d);
      }
    }

    method BeginNativeBorrow(k: Key) returns (ok: bool)
      requires SourceInv(View())
      modifies this
      ensures SourceInv(View()) && (View(), ok) == BeginBorrow(old(View()), k)
      ensures ok == (!retired && k in old(blobs))
      ensures ok ==> k in blobs && blobs[k].handles == old(blobs)[k].handles + 1 && !blobs[k].queued
    {
      hide SourceInv, SameLoads;
      BeginBorrowKeepsInv(View(), k);
      if retired || k !in blobs {
        return false;
      }
      HoldBlob(k, blobs[k].(handles := blobs[k].handles + 1));
      ok := true;
    }

    method EndNativeBorrow(k: Key, policy: Policy, now: nat)
      requires SourceInv(View())
      modifies this
      ensures SourceInv(View()) && View() == Returned(old(View()), k, policy, now)
      ensures !retired && k in old(blobs) && old(blobs)[k].handles > 0 ==> MeetsPolicy(View().cache, policy, now)
    {
      hide SourceInv, CacheInv, Enforce, EndBorrow, Return, Returned, MeetsPolicy;
      ReturnedParts(View(), k, policy, now);
      if !retired { SectionsMeetPolicy(View(), "", |records|, Missing, k, policy, now); }
      if k !in blobs || blobs[k].handles == 0 {
        return;
      }
      DropHandle(k);
      EnforceWhileLive(policy, now);
    }

    /** The part of endNativeBorrow that gives up the handle. */
    method DropHandle(k: Key)
      requires k in blobs && blobs[k].handles > 0
      modifies this`blobs, this`inactiveBlobs
      ensures View().cache == Return(old(View().cache), k)
    {
      blobs := blobs[k := blobs[k].(handles := blobs[k].handles - 1)];
      MakeBlobEvictable(k);
    }
  }
}
