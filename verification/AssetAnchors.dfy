/** Why re-pointing a name never costs a blob: a name that its leader may still re-point got its
    data under another name at the same time, and that one stays as long as the data does. */
module AssetAnchors {
  import opened Options
  import opened AssetModel
  import opened AssetSafety
  import opened AssetPolicy
  import opened AssetLoads
  import opened AssetEffects
  import opened AssetRuns

  /** The blob an alias refers to in `c`, 0 when it refers to none. */
  function Ref(c: Cache, a: Alias): Key { Target(c.names, c.sources, a) }

  /** The leader of the name has not named its data yet, so it may re-point the name. */
  ghost predicate Unsettled(w: World, n: string) {
    exists t :: 0 <= t < |w.threads| && Unnamed(w.threads[t], n)
  }

  predicate Unnamed(pc: Pc, n: string) { pc.Leading? && pc.name == n && !pc.named }

  /** No leader can take the alias away from its data. */
  ghost predicate Anchor(w: World, a: Alias) { a.Name? ==> !Unsettled(w, a.key) }

  ghost predicate HasAnchor(w: World, k: Key) { exists a :: Ref(w.src.cache, a) == k && Anchor(w, a) }

  ghost predicate NameOk(w: World, n: string) {
    Unsettled(w, n) && Ref(w.src.cache, Name(n)) != 0 ==> HasAnchor(w, Ref(w.src.cache, Name(n)))
  }

  ghost predicate Anchored(w: World) { forall n {:trigger NameOk(w, n)} :: NameOk(w, n) }

  // ---------------------------------------------------- what happens to references

  /** No name comes to refer to a blob, and a blob that keeps a name keeps all its aliases. */
  ghost predicate Whole(c: Cache, r: Cache) {
    && (forall n {:trigger Name(n)} :: Ref(r, Name(n)) != 0 ==> Ref(r, Name(n)) == Ref(c, Name(n)))
    && (forall n, b {:trigger Name(n), Ref(r, b)} ::
          Ref(c, Name(n)) == Ref(c, b) != 0 && Ref(r, Name(n)) == Ref(c, Name(n)) ==> Ref(r, b) == Ref(c, b))
  }

  ghost predicate SameRefs(c: Cache, r: Cache) { forall a :: Ref(r, a) == Ref(c, a) }

  lemma WholeTrans(c: Cache, d: Cache, r: Cache)
    requires Whole(c, d) && Whole(d, r)
    ensures Whole(c, r)
  {
    forall n, b {:trigger Name(n), Ref(r, b)} |
      Ref(c, Name(n)) == Ref(c, b) != 0 && Ref(r, Name(n)) == Ref(c, Name(n))
      ensures Ref(r, b) == Ref(c, b)
    {
      assert Ref(d, Name(n)) == Ref(c, Name(n));
      assert Ref(d, b) == Ref(c, b);
    }
  }

  lemma SameIsWhole(c: Cache, r: Cache)
    requires SameRefs(c, r)
    ensures Whole(c, r)
  {
  }

  lemma UntouchedRefs(c: Cache, r: Cache)
    requires r.names == c.names && r.sources == c.sources
    ensures SameRefs(c, r)
  {
  }

  lemma DeleteNegativeRefs(c: Cache, n: string)
    requires n in c.names ==> c.names[n].Negative?
    ensures SameRefs(c, DeleteName(c, n))
  {
  }

  lemma CachedNameRefs(c: Cache, n: string, now: nat)
    ensures SameRefs(c, CachedName(c, n, now).0)
    ensures CachedName(c, n, now).1.None? ==> Ref(c, Name(n)) == 0
  {
    if n in c.names && c.names[n].Negative? { DeleteNegativeRefs(c, n); }
  }

  lemma AddNegativeRefs(c: Cache, n: string, now: nat, ttl: nat)
    requires n !in c.names
    ensures SameRefs(c, AddNegative(c, n, now, ttl))
  {
  }

  lemma RecordRefs(c: Cache, d: Data)
    ensures Record(c, d).names == c.names && Record(c, d).sources == c.sources
  {
  }

  lemma ProtectRefs(s: Source, id: LoadId, d: Data)
    requires id < |s.records|
    ensures SameRefs(s.cache, ProtectLoad(s, id, d).cache)
  {
    ProtectKeepsNames(s, id, d);
    hide ProtectLoad;
  }

  lemma SetSourceIsWhole(c: Cache, a: Alias, d: Data)
    requires !a.Name?
    ensures Whole(c, SetSource(c, a, d))
  {
    SetSourceSources(c, a, d);
    hide SetSource;
  }

  lemma SetNameRefs(c: Cache, n: string, d: Data)
    requires CacheInv(c)
    ensures Ref(SetName(c, n, d), Name(n)) == KeyOf(d)
    ensures forall a | a != Name(n) :: Ref(SetName(c, n, d), a) == Ref(c, a)
  {
    SetNameNames(c, n, d);
    hide SetName, CacheInv;
  }

  lemma EvictIsWhole(c: Cache, gone: set<Key>, r: Cache)
    requires WithoutBlobs(c, gone, r) && 0 !in gone
    ensures Whole(c, r)
  {
  }

  lemma NegativesRefs(c: Cache, gone: set<string>, r: Cache)
    requires WithoutNegatives(c, gone, r) && forall n | n in gone && n in c.names :: c.names[n].Negative?
    ensures SameRefs(c, r)
  {
  }

  lemma EnforceIsWhole(c: Cache, policy: Policy, now: nat)
    requires CacheInv(c)
    ensures Whole(c, Enforce(c, policy, now))
  {
    PruneIsExact(c, now);
    var p := Prune(c, now);
    CapIsExact(p, policy.cap);
    var q := Cap(p, policy.cap);
    var k := EvictsShortestPrefix(q, policy.budget);
    ExpiredAreNegative(c, now);
    NegativesRefs(c, Expired(c, now), p);
    CappedAreNegative(p, policy.cap, q);
    FrontIsReal(q, k);
    hide CacheInv, Prune, Cap, Evict, Expired, Front, Whole, SameRefs, WithoutBlobs;
    EvictIsWhole(q, Front(q, k), Enforce(c, policy, now));
    SameIsWhole(c, p);
    SameIsWhole(p, q);
    WholeTrans(c, p, q);
    WholeTrans(c, q, Enforce(c, policy, now));
  }

  lemma ExpiredAreNegative(c: Cache, now: nat)
    requires CacheInv(c)
    ensures Indexed(c.names, c.negatives)
    ensures forall n | n in Expired(c, now) :: n in c.names && c.names[n].Negative?
  {
  }

  lemma CappedAreNegative(c: Cache, cap: nat, r: Cache)
    requires CacheInv(c) && Capped(c, cap, r)
    ensures SameRefs(c, r)
  {
    NegativesRefs(c, c.negatives - r.negatives, r);
  }

  lemma FrontIsReal(c: Cache, k: nat)
    requires CacheInv(c) && k <= |c.lru|
    ensures 0 !in Front(c, k)
  {
    assert forall b | b in c.lru[..k] :: b in c.lru;
  }

  lemma DropIsWhole(s: Source)
    ensures Whole(s.cache, Drop(s).cache)
  {
  }

  // ------------------------------------------------------------- the sections

  /** The sections in which no leader names anything. */
  predicate Naming(a: Action) { a.Names? || a.Finish? }

  lemma LookupIsWhole(w: World, a: Action)
    requires CacheInv(w.src.cache) && Enabled(w, a) && (a.Look? || a.Begin? || a.Peek? || a.Guard?)
    ensures Whole(w.src.cache, Do(w, a).src.cache)
  {
    var s := w.src;
    hide Whole, SameRefs, CacheInv, CachedName, ProtectLoad, BeginLoad;
    match a
    case Look(t, name, now) =>
      CachedNameRefs(s.cache, name, now);
      SameIsWhole(s.cache, CachedName(s.cache, name, now).0);
    case Begin(t, name, now) => BeginIsWhole(s, name, now);
    case Peek(t, b) => PeekIsWhole(s, b);
    case Guard(t, d) =>
      ProtectRefs(s, w.threads[t].id, d);
      SameIsWhole(s.cache, ProtectLoad(s, w.threads[t].id, d).cache);
  }

  lemma ArchiveIsWhole(w: World, a: Action)
    requires CacheInv(w.src.cache) && Enabled(w, a)
    requires a.Wake? || a.Ensure? || a.Ensured? || a.Awaited? || a.RetireNow? || a.Close? || a.Borrowing?
    ensures Whole(w.src.cache, Do(w, a).src.cache)
  {
    UntouchedRefs(w.src.cache, w.src.cache);
    SameIsWhole(w.src.cache, w.src.cache);
    hide Whole, SameRefs, CacheInv, Drop, Borrow;
    if a.RetireNow? {
      DropIsWhole(w.src.(retired := true));
    } else if a.Borrowing? {
      BorrowIsWhole(w.src.cache, a.k);
    } else {
      ArchiveKeepsCache(w, a);
      hide Do;
    }
  }

  lemma ArchiveKeepsCache(w: World, a: Action)
    requires CacheInv(w.src.cache) && Enabled(w, a)
    requires a.Wake? || a.Ensure? || a.Ensured? || a.Awaited? || a.Close?
    ensures Do(w, a).src.cache == w.src.cache
  {
    hide CacheInv;
  }

  lemma QuietIsWhole(w: World, a: Action)
    requires CacheInv(w.src.cache) && Enabled(w, a) && !Naming(a)
    ensures Whole(w.src.cache, Do(w, a).src.cache)
  {
    hide Whole, CacheInv, PublishSource, Returned;
    if a.Share? {
      ShareIsWhole(w.src, w.threads[a.t].id, a.a, a.d);
    } else if a.Returning? {
      ReturnedIsWhole(w.src, a.k, a.policy, a.now);
    } else if a.Look? || a.Begin? || a.Peek? || a.Guard? {
      LookupIsWhole(w, a);
    } else {
      ArchiveIsWhole(w, a);
    }
  }

  lemma BeginIsWhole(s: Source, name: string, now: nat)
    ensures Whole(s.cache, BeginLoad(s, name, now).0.cache)
  {
    CachedNameRefs(s.cache, name, now);
    SameIsWhole(s.cache, CachedName(s.cache, name, now).0);
    UntouchedRefs(s.cache, s.cache);
    SameIsWhole(s.cache, s.cache);
    hide Whole, SameRefs, CachedName;
  }

  lemma PeekIsWhole(s: Source, b: Alias)
    ensures Whole(s.cache, CachedSource(s, b).cache)
  {
    UntouchedRefs(s.cache, CachedSource(s, b).cache);
    SameIsWhole(s.cache, CachedSource(s, b).cache);
  }

  lemma BorrowIsWhole(c: Cache, k: Key)
    ensures Whole(c, Borrow(c, k)) && Whole(c, Return(c, k))
  {
    UntouchedRefs(c, Borrow(c, k));
    UntouchedRefs(c, Return(c, k));
    SameIsWhole(c, Borrow(c, k));
    SameIsWhole(c, Return(c, k));
  }

  lemma ShareIsWhole(s: Source, id: LoadId, a: Alias, d: Data)
    requires id < |s.records| && !a.Name?
    ensures Whole(s.cache, PublishSource(s, id, a, d).0.cache)
  {
    UntouchedRefs(s.cache, s.cache);
    SameIsWhole(s.cache, s.cache);
    ProtectRefs(s, id, d);
    var p := ProtectLoad(s, id, d).cache;
    SameIsWhole(s.cache, p);
    SetSourceIsWhole(p, a, d);
    WholeTrans(s.cache, p, SetSource(p, a, d));
    if a in s.cache.sources {
      ProtectRefs(s, id, s.cache.sources[a]);
      SameIsWhole(s.cache, ProtectLoad(s, id, s.cache.sources[a]).cache);
    }
    hide Whole, SameRefs, ProtectLoad, SetSource;
  }

  lemma ReturnedIsWhole(s: Source, k: Key, policy: Policy, now: nat)
    requires CacheInv(s.cache)
    ensures Whole(s.cache, Returned(s, k, policy, now).cache)
  {
    BorrowIsWhole(s.cache, k);
    UntouchedRefs(s.cache, s.cache);
    SameIsWhole(s.cache, s.cache);
    ReleaseKeepsInv(s.cache, k);
    EnforceIsWhole(Return(s.cache, k), policy, now);
    hide Whole, SameRefs, CacheInv, Enforce, Return;
    WholeTrans(s.cache, Return(s.cache, k), Enforce(Return(s.cache, k), policy, now));
  }

  /** After the names are set a finishing load only gives things up. */
  lemma FinishIsWhole(s: Source, name: string, id: LoadId, outcome: Outcome, policy: Policy, now: nat)
    requires CacheInv(s.cache) && id < |s.records|
    ensures Whole(Publish(s, name, id, outcome, policy, now).cache, FinishLoad(s, name, id, outcome, policy, now).cache)
  {
    PublishKeepsCache(s, name, id, outcome, policy, now);
    var p := Publish(s, name, id, outcome, policy, now);
    var u := Settle(p, name, id, outcome);
    SettleKeepsCache(p, name, id, outcome);
    SettleRefs(p, name, id, outcome);
    SameIsWhole(p.cache, u.cache);
    EnforceIsWhole(u.cache, policy, now);
    var v := if u.retired then u else u.(cache := Enforce(u.cache, policy, now));
    hide Whole, SameRefs, CacheInv, Enforce, Settle, Drop, Publish;
    WholeTrans(p.cache, u.cache, Enforce(u.cache, policy, now));
    DropIsWhole(v);
    WholeTrans(p.cache, v.cache, Drop(v).cache);
  }

  lemma SettleRefs(p: Source, name: string, id: LoadId, outcome: Outcome)
    requires id < |p.records|
    ensures SameRefs(p.cache, Settle(p, name, id, outcome).cache)
  {
    UntouchedRefs(p.cache, Settle(p, name, id, outcome).cache);
  }

  // ------------------------------------------------------------- the invariant

  /** What keeps the names anchored when nobody names anything. */
  lemma WholeKeepsAnchored(w: World, v: World)
    requires Anchored(w) && Whole(w.src.cache, v.src.cache)
    requires forall n {:trigger Unsettled(v, n)} ::
      Unsettled(v, n) ==> Unsettled(w, n) || Ref(w.src.cache, Name(n)) == 0
    ensures Anchored(v)
  {
    forall n {:trigger NameOk(v, n)} ensures NameOk(v, n) {
      var k := Ref(v.src.cache, Name(n));
      if Unsettled(v, n) && k != 0 {
        assert NameOk(w, n);
        var a :| Ref(w.src.cache, a) == k && Anchor(w, a);
        assert Ref(v.src.cache, a) == k;
        assert Anchor(v, a);
      }
    }
  }

  /** What keeps them anchored when the leader of `n` names its data: `n`, which it cannot
      re-point any more, and perhaps one more name that was free. */
  lemma NamingKeepsAnchored(w: World, v: World, n: string, used: string, k: Key)
    requires Anchored(w) && !Unsettled(v, n) && (Unsettled(w, n) || Ref(w.src.cache, Name(n)) == 0)
    requires forall m {:trigger Unsettled(v, m)} :: Unsettled(v, m) ==> Unsettled(w, m)
    requires forall a | a != Name(n) && a != Name(used) :: Ref(v.src.cache, a) == Ref(w.src.cache, a)
    requires Ref(v.src.cache, Name(n)) == k
    requires used != n ==>
      var u := Name(used);
      Ref(v.src.cache, u) == Ref(w.src.cache, u) || (Ref(w.src.cache, u) == 0 && Ref(v.src.cache, u) == k)
    ensures Anchored(v)
  {
    forall m {:trigger NameOk(v, m)} ensures NameOk(v, m) {
      var j := Ref(v.src.cache, Name(m));
      if Unsettled(v, m) && j != 0 {
        if j == k {
          assert Ref(v.src.cache, Name(n)) == j && Anchor(v, Name(n));
        } else {
          assert NameOk(w, m);
          var a :| Ref(w.src.cache, a) == j && Anchor(w, a);
          assert Ref(v.src.cache, a) == j && Anchor(v, a);
        }
      }
    }
  }

  /** Only a thread that begins to lead comes to have a name to settle, and the name is free. */
  lemma ThreadAfter(w: World, a: Action, u: Tid, n: string)
    requires CacheInv(w.src.cache) && Enabled(w, a) && u < |Do(w, a).threads| && Unnamed(Do(w, a).threads[u], n)
    ensures u < |w.threads| && (Unnamed(w.threads[u], n) || (a.Begin? && Ref(w.src.cache, Name(n)) == 0))
  {
    if a.Begin? { CachedNameRefs(w.src.cache, a.name, a.now); }
    hide CacheInv, FinishLoad, CachedSource, ProtectLoad, PublishSource, PublishNames, Retire, CloseArchive;
    hide BeginBorrow, Returned, CachedName, Ref, EnsureEnd;
  }

  lemma UnsettledAfter(w: World, a: Action, n: string)
    requires CacheInv(w.src.cache) && Enabled(w, a)
    ensures Unsettled(Do(w, a), n) ==> Unsettled(w, n) || (a.Begin? && Ref(w.src.cache, Name(n)) == 0)
  {
    hide CacheInv, Do, Enabled, Ref;
    if Unsettled(Do(w, a), n) {
      var t :| 0 <= t < |Do(w, a).threads| && Unnamed(Do(w, a).threads[t], n);
      ThreadAfter(w, a, t, n);
    }
  }

  lemma QuietKeepsAnchored(w: World, a: Action)
    requires CacheInv(w.src.cache) && Enabled(w, a) && !Naming(a) && Anchored(w)
    ensures Anchored(Do(w, a))
  {
    hide CacheInv, Do, Enabled, Ref, Whole, Unsettled, Anchored;
    QuietIsWhole(w, a);
    forall n {:trigger Unsettled(Do(w, a), n)}
      ensures Unsettled(Do(w, a), n) ==> Unsettled(w, n) || Ref(w.src.cache, Name(n)) == 0
    {
      UnsettledAfter(w, a, n);
    }
    WholeKeepsAnchored(w, Do(w, a));
  }

  lemma SoleLeader(w: World, t: Tid, u: Tid)
    requires WorldInv(w) && t < |w.threads| && u < |w.threads|
    requires w.threads[t].Leading? && w.threads[u].Leading? && w.threads[t].name == w.threads[u].name
    ensures t == u
  {
    hide SourceInv;
    assert ThreadOk(w, t) && ThreadOk(w, u);
  }

  /** `v` is `w` with the leader `t` gone on past its naming and nobody else moved. */
  ghost predicate Settling(w: World, t: Tid, v: World) {
    && t < |w.threads| == |v.threads| && w.threads[t].Leading?
    && !Unnamed(v.threads[t], w.threads[t].name)
    && forall u | 0 <= u < |w.threads| && u != t :: v.threads[u] == w.threads[u]
  }

  lemma LeaderSettles(w: World, t: Tid, v: World, n: string)
    requires WorldInv(w) && Settling(w, t, v) && (v.threads[t].Leading? ==> v.threads[t].named)
    ensures Unsettled(v, n) ==> Unsettled(w, n) && n != w.threads[t].name
  {
    hide WorldInv;
    if Unsettled(v, n) {
      var u :| 0 <= u < |v.threads| && Unnamed(v.threads[u], n);
      assert u != t && Unnamed(w.threads[u], n);
      if n == w.threads[t].name { SoleLeader(w, t, u); }
    }
  }

  /** The references after cacheSuccessAliases of a live generation. */
  lemma NamesRefs(s: Source, id: LoadId, requested: string, used: string, d: Data)
    requires CacheInv(s.cache) && id < |s.records| && !s.retired
    ensures var r := PublishNames(s, id, requested, used, d).cache;
      && Ref(r, Name(requested)) == KeyOf(d)
      && (forall a | a != Name(requested) && a != Name(used) :: Ref(r, a) == Ref(s.cache, a))
      && (used != requested ==>
           Ref(r, Name(used)) == Ref(s.cache, Name(used)) ||
           (Ref(s.cache, Name(used)) == 0 && Ref(r, Name(used)) == KeyOf(d)))
  {
    ProtectRefs(s, id, d);
    ProtectLoadKeepsCache(s, id, d);
    var p := ProtectLoad(s, id, d).cache;
    var c := SetName(p, requested, d);
    SetNameRefs(p, requested, d);
    SetNameKeepsInv(p, requested, d);
    FreeRef(c, used);
    hide CacheInv, ProtectLoad, SetName, Ref;
    SetNameRefs(c, used, d);
  }

  lemma FreeRef(c: Cache, n: string)
    ensures n !in c.names ==> Ref(c, Name(n)) == 0
  {
  }

  lemma NamesKeepAnchored(w: World, t: Tid, used: string, d: Data)
    requires WorldInv(w) && Enabled(w, Names(t, used, d)) && Anchored(w)
    ensures Anchored(DoNames(w, t, used, d))
  {
    var v, n := DoNames(w, t, used, d), w.threads[t].name;
    assert CacheInv(w.src.cache) && Settling(w, t, v) && Unnamed(w.threads[t], n);
    if w.src.retired { RetiredNames(w, t, used, d); } else { NamesRefs(w.src, w.threads[t].id, n, used, d); }
    UntouchedRefs(w.src.cache, w.src.cache);
    SameIsWhole(w.src.cache, w.src.cache);
    hide WorldInv, CacheInv, Ref, Anchored, Settling, Whole, PublishNames;
    forall m {:trigger Unsettled(v, m)} ensures Unsettled(v, m) ==> Unsettled(w, m) && m != n {
      LeaderSettles(w, t, v, m);
    }
    if w.src.retired {
      WholeKeepsAnchored(w, v);
    } else {
      assert Unsettled(w, n);
      NamingKeepsAnchored(w, v, n, used, KeyOf(d));
    }
  }

  lemma RetiredNames(w: World, t: Tid, used: string, d: Data)
    requires Busy(w, t) && w.src.retired
    ensures DoNames(w, t, used, d).src == w.src
  {
  }

  /** A finishing load sets no name but its own, and that only if it was free. */
  lemma PublishRefs(s: Source, name: string, id: LoadId, outcome: Outcome, policy: Policy, now: nat)
    requires CacheInv(s.cache) && id < |s.records|
    ensures var r := Publish(s, name, id, outcome, policy, now).cache;
      SameRefs(s.cache, r) ||
      (Ref(s.cache, Name(name)) == 0 && forall a | a != Name(name) :: Ref(r, a) == Ref(s.cache, a))
  {
    UntouchedRefs(s.cache, s.cache);
    FreeRef(s.cache, name);
    if !s.retired && name !in s.cache.names {
      match outcome
      case Loaded(d) =>
        ProtectRefs(s, id, d);
        ProtectLoadKeepsCache(s, id, d);
        SetNameRefs(ProtectLoad(s, id, d).cache, name, d);
      case Missing => AddNegativeRefs(s.cache, name, now, policy.ttl);
      case Failed =>
    }
    hide CacheInv, ProtectLoad, SetName, Ref, AddNegative;
  }

  lemma FinishKeepsAnchored(w: World, t: Tid, outcome: Outcome, policy: Policy, now: nat)
    requires WorldInv(w) && Busy(w, t) && Anchored(w)
    ensures var pc := w.threads[t];
      Anchored(At(w.(src := FinishLoad(w.src, pc.name, pc.id, outcome, policy, now)), t,
          Opened(pc.name, pc.id, outcome)))
  {
    var n, id := w.threads[t].name, w.threads[t].id;
    assert CacheInv(w.src.cache);
    PublishKeepsCache(w.src, n, id, outcome, policy, now);
    PublishRefs(w.src, n, id, outcome, policy, now);
    FinishIsWhole(w.src, n, id, outcome, policy, now);
    var p := Publish(w.src, n, id, outcome, policy, now);
    var x := At(w.(src := p), t, Opened(n, id, outcome));
    var v := x.(src := FinishLoad(w.src, n, id, outcome, policy, now));
    assert Settling(w, t, x);
    hide WorldInv, CacheInv, Ref, Anchored, Settling, Whole, SameRefs, Publish, FinishLoad;
    PublishedKeepsAnchored(w, t, x);
    forall m {:trigger Unsettled(v, m)} ensures Unsettled(v, m) ==> Unsettled(x, m) { SameLeaders(x, v, m); }
    WholeKeepsAnchored(x, v);
  }

  lemma SameLeaders(w: World, v: World, n: string)
    requires v.threads == w.threads
    ensures Unsettled(v, n) ==> Unsettled(w, n)
  {
  }

  lemma PublishedKeepsAnchored(w: World, t: Tid, x: World)
    requires WorldInv(w) && Settling(w, t, x) && !x.threads[t].Leading? && Anchored(w)
    requires var n := w.threads[t].name;
      SameRefs(w.src.cache, x.src.cache) ||
      (Ref(w.src.cache, Name(n)) == 0 && forall a | a != Name(n) :: Ref(x.src.cache, a) == Ref(w.src.cache, a))
    ensures Anchored(x)
  {
    var n := w.threads[t].name;
    forall m {:trigger Unsettled(x, m)} ensures Unsettled(x, m) ==> Unsettled(w, m) && m != n {
      LeaderSettles(w, t, x, m);
    }
    hide WorldInv, Ref, Anchored, Settling, Whole, SameRefs;
    if SameRefs(w.src.cache, x.src.cache) {
      SameIsWhole(w.src.cache, x.src.cache);
      WholeKeepsAnchored(w, x);
    } else {
      NamingKeepsAnchored(w, x, n, n, Ref(x.src.cache, Name(n)));
    }
  }

  /** Every section of every thread keeps the names anchored. */
  lemma StepKeepsAnchored(w: World, a: Action)
    requires WorldInv(w) && Enabled(w, a) && Anchored(w)
    ensures Anchored(Do(w, a))
  {
    assert CacheInv(w.src.cache);
    hide WorldInv, CacheInv, Anchored, DoNames, FinishLoad;
    if a.Names? {
      NamesKeepAnchored(w, a.t, a.used, a.d);
    } else if a.Finish? {
      FinishKeepsAnchored(w, a.t, a.outcome, a.policy, a.now);
    } else {
      QuietKeepsAnchored(w, a);
    }
  }

  lemma StartAnchored(threads: nat)
    ensures Anchored(AssetRuns.Start(threads))
  {
  }

  /** The data a leader is about to take a name from has another alias. */
  lemma OtherAlias(w: World, t: Tid)
    requires WorldInv(w) && Anchored(w) && Looking(w, t)
    ensures Movable(w.src.cache, w.threads[t].name)
  {
    var n := w.threads[t].name;
    assert Unnamed(w.threads[t], n);
    hide WorldInv, Ref;
    if Ref(w.src.cache, Name(n)) != 0 {
      assert NameOk(w, n);
      var a :| Ref(w.src.cache, a) == Ref(w.src.cache, Name(n)) && Anchor(w, a);
      assert a != Name(n);
    }
  }

  /** Nothing is lost when the name is taken away: it refers to no blob, or to one with
      another alias. */
  ghost predicate Movable(c: Cache, n: string) {
    Ref(c, Name(n)) != 0 ==> exists a :: a != Name(n) && Ref(c, a) == Ref(c, Name(n))
  }
}
