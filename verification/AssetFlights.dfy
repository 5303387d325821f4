/** Protections: in every state of every run a blob is protected by exactly the loads that say
    so, from the moment they do until they finish, and nothing but the eviction of an
    unprotected blob takes a blob out of a generation that is not over. */
module AssetFlights {
  import opened Options
  import opened AssetModel
  import opened AssetSafety
  import opened AssetPolicy
  import opened AssetLoads
  import opened AssetEffects
  import opened AssetRuns
  import opened AssetAnchors

  /** How many loads say that they protect blob `k`. */
  ghost function Flights(records: seq<Load>, k: Key): nat {
    if records == [] then 0
    else Flights(records[..|records| - 1], k) + if records[|records| - 1].blob == k then 1 else 0
  }

  lemma {:induction false} FlightsSet(records: seq<Load>, i: nat, l: Load, k: Key)
    requires i < |records|
    ensures Flights(records[i := l], k) + (if records[i].blob == k then 1 else 0) == Flights(records, k) +
      if l.blob == k then 1 else 0
  {
    var front := records[..|records| - 1];
    if i < |records| - 1 {
      assert records[i := l][..|records| - 1] == front[i := l];
      FlightsSet(front, i, l, k);
    } else {
      assert records[i := l][..|records| - 1] == front;
    }
  }

  lemma {:induction false} NoFlights(records: seq<Load>, k: Key)
    requires k != 0 && forall i | 0 <= i < |records| :: records[i].blob == 0
    ensures Flights(records, k) == 0
  {
    if records == [] {
    } else {
      NoFlights(records[..|records| - 1], k);
    }
  }

  lemma SomeFlight(records: seq<Load>, i: nat)
    requires i < |records|
    ensures Flights(records, records[i].blob) > 0
  {
    FlightsSet(records, i, Load(records[i].blob + 1, None), records[i].blob);
  }

  function Flying(c: Cache, k: Key): nat { if k in c.blobs then c.blobs[k].inFlight else 0 }

  function Handles(c: Cache, k: Key): nat { if k in c.blobs then c.blobs[k].handles else 0 }

  /** Each blob is protected by as many loads as say that they protect it. */
  ghost predicate FlightsOk(c: Cache, records: seq<Load>) { forall k | k != 0 :: Flying(c, k) == Flights(records, k) }

  /** From `c` to `r` no protection was given or lost; so no protected blob was. */
  ghost predicate Steady(c: Cache, r: Cache) {
    forall k :: Flying(r, k) == Flying(c, k) && Handles(r, k) == Handles(c, k)
  }

  lemma SteadyTrans(c: Cache, d: Cache, r: Cache)
    requires Steady(c, d) && Steady(d, r)
    ensures Steady(c, r)
  {
  }

  lemma SteadySelf(c: Cache)
    ensures Steady(c, c)
  {
  }

  lemma SteadyKeeps(c: Cache, r: Cache, records: seq<Load>)
    requires FlightsOk(c, records) && Steady(c, r)
    ensures FlightsOk(r, records)
  {
  }

  // ----------------------------------------------------------- steady operations

  lemma RecordIsSteady(c: Cache, d: Data)
    ensures Steady(c, Record(c, d)) && Steady(c, Touch(c, d))
  {
  }

  lemma LinkIsSteady(c: Cache, a: Alias, d: Data)
    ensures Steady(c, Link(Point(c, a, d), d, a))
  {
    RecordIsSteady(Point(c, a, d), d);
  }

  /** Taking a name away from data that has another alias loses nothing. */
  lemma DeleteIsSteady(c: Cache, n: string)
    requires CacheInv(c) && Movable(c, n)
    ensures Steady(c, DeleteName(c, n))
  {
    DeleteKeepsBlobs(c, n);
    hide CacheInv, Movable;
  }

  lemma SetNameIsSteady(c: Cache, n: string, d: Data)
    requires CacheInv(c) && Movable(c, n)
    ensures Steady(c, SetName(c, n, d))
  {
    DeleteIsSteady(c, n);
    RecordIsSteady(c, d);
    var u := DeleteName(c, n);
    LinkIsSteady(u, Name(n), d);
    hide CacheInv, DeleteName, Link, Touch, Steady;
    SteadyTrans(c, u, Link(Point(u, Name(n), d), d, Name(n)));
  }

  lemma FreeIsMovable(c: Cache, n: string)
    requires n in c.names ==> c.names[n].Negative?
    ensures Movable(c, n)
  {
  }

  lemma SetSourceIsSteady(c: Cache, a: Alias, d: Data)
    ensures Steady(c, SetSource(c, a, d))
  {
    SteadySelf(c);
    LinkIsSteady(c, a, d);
    hide Link;
  }

  lemma ForgetIsSteady(c: Cache, n: string)
    requires n in c.names ==> c.names[n].Negative?
    ensures Steady(c, DeleteName(c, n))
  {
  }

  lemma AddNegativeIsSteady(c: Cache, n: string, now: nat, ttl: nat)
    requires n !in c.names
    ensures Steady(c, AddNegative(c, n, now, ttl))
  {
    ForgetIsSteady(c, n);
    hide DeleteName;
  }

  lemma CachedNameIsSteady(c: Cache, n: string, now: nat)
    ensures Steady(c, CachedName(c, n, now).0)
  {
    if n in c.names && c.names[n].Positive? { RecordIsSteady(c, c.names[n].data); } else { ForgetIsSteady(c, n); }
    SteadySelf(c);
    hide DeleteName, Touch, Steady;
  }

  lemma EnforceBlobs(c: Cache, policy: Policy, now: nat)
    requires CacheInv(c)
    ensures var r := Enforce(c, policy, now); forall k | k in r.blobs :: k in c.blobs && r.blobs[k] == c.blobs[k]
  {
    hide CacheInv, Prune, Cap, Evict, Expired, OlderThanKept;
    PruneIsExact(c, now);
    CapIsExact(Prune(c, now), policy.cap);
    var k := EvictsShortestPrefix(Cap(Prune(c, now), policy.cap), policy.budget);
  }

  lemma EnforceIsSteady(c: Cache, policy: Policy, now: nat)
    requires CacheInv(c)
    ensures Steady(c, Enforce(c, policy, now))
  {
    hide CacheInv, Enforce;
    EnforceKeepsPolicy(c, policy, now);
    EnforceBlobs(c, policy, now);
    var r := Enforce(c, policy, now);
    forall k ensures Flying(r, k) == Flying(c, k) && Handles(r, k) == Handles(c, k) {
      if k in c.blobs && Protected(c.blobs[k]) { assert r.blobs[k] == c.blobs[k]; }
    }
  }

  // --------------------------------------------------------- protect and release

  /** A load that protects no blob yet adds one protection, and that is all. */
  lemma ProtectFlies(s: Source, id: LoadId, d: Data)
    requires FlightsOk(s.cache, s.records) && id < |s.records|
    ensures var u := ProtectLoad(s, id, d);
      FlightsOk(u.cache, u.records) && forall k :: Handles(u.cache, k) == Handles(s.cache, k)
  {
    if s.records[id].blob == 0 {
      var u := ProtectLoad(s, id, d);
      RecordIsSteady(s.cache, d);
      RecordHas(s.cache, d);
      hide Record;
      forall k | k != 0 ensures Flying(u.cache, k) == Flights(u.records, k) {
        FlightsSet(s.records, id, s.records[id].(blob := KeyOf(d)), k);
        assert Flying(Record(s.cache, d), k) == Flying(s.cache, k);
      }
      assert forall k :: Handles(Record(s.cache, d), k) == Handles(s.cache, k);
    }
  }

  /** A load gives up the one protection it has. */
  lemma ReleaseFlies(s: Source, id: LoadId)
    requires FlightsOk(s.cache, s.records) && id < |s.records|
    ensures var u := ReleaseLoad(s, id);
      FlightsOk(u.cache, u.records) && forall k :: Handles(u.cache, k) == Handles(s.cache, k)
  {
    var u, j := ReleaseLoad(s, id), s.records[id].blob;
    SomeFlight(s.records, id);
    if j != 0 { assert Flying(s.cache, j) == Flights(s.records, j); }
    forall k | k != 0 ensures Flying(u.cache, k) == Flights(u.records, k) {
      FlightsSet(s.records, id, s.records[id].(blob := 0), k);
      assert Flying(s.cache, k) == Flights(s.records, k);
    }
  }

  /** The account of protections is exact after a section, and no handle came or went. */
  ghost predicate Flown(s: Source, u: Source) {
    FlightsOk(u.cache, u.records) && forall k :: Handles(u.cache, k) == Handles(s.cache, k)
  }

  lemma SteadyFlies(s: Source, p: Source, u: Source)
    requires Flown(s, p) && u.records == p.records && Steady(p.cache, u.cache)
    ensures Flown(s, u)
  {
  }

  lemma PublishFlies(s: Source, name: string, id: LoadId, outcome: Outcome, policy: Policy, now: nat)
    requires CacheInv(s.cache) && FlightsOk(s.cache, s.records) && id < |s.records|
    ensures Flown(s, Publish(s, name, id, outcome, policy, now))
  {
    var u := Publish(s, name, id, outcome, policy, now);
    SteadySelf(s.cache);
    if !s.retired && name !in s.cache.names {
      match outcome
      case Loaded(d) =>
        ProtectFlies(s, id, d);
        ProtectLoadKeepsCache(s, id, d);
        ProtectKeepsNames(s, id, d);
        var p := ProtectLoad(s, id, d);
        FreeIsMovable(p.cache, name);
        SetNameIsSteady(p.cache, name, d);
        hide CacheInv, ProtectLoad, SetName, FlightsOk, Steady;
        SteadyFlies(s, p, u);
      case Missing =>
        AddNegativeIsSteady(s.cache, name, now, policy.ttl);
        hide CacheInv, AddNegative, FlightsOk, Steady;
        SteadyFlies(s, s, u);
      case Failed =>
    }
  }

  lemma SettleFlies(s: Source, name: string, id: LoadId, outcome: Outcome)
    requires FlightsOk(s.cache, s.records) && id < |s.records|
    ensures Flown(s, Settle(s, name, id, outcome))
  {
    var l := s.records[id].(result := Some(outcome));
    forall k ensures Flights(s.records[id := l], k) == Flights(s.records, k) { FlightsSet(s.records, id, l, k); }
    ReleaseFlies(s.(loads := s.loads - {name}, active := s.active - 1, records := s.records[id := l]), id);
    hide ReleaseLoad;
  }

  lemma FlownTrans(s: Source, p: Source, u: Source)
    requires Flown(s, p) && Flown(p, u)
    ensures Flown(s, u)
  {
  }

  /** finishLoad before it drops what is left of a retired generation. */
  ghost function Ended(s: Source, name: string, id: LoadId, outcome: Outcome, policy: Policy, now: nat): Source
    requires CacheInv(s.cache) && id < |s.records|
  {
    PublishKeepsCache(s, name, id, outcome, policy, now);
    SettleKeepsCache(Publish(s, name, id, outcome, policy, now), name, id, outcome);
    var u := Settle(Publish(s, name, id, outcome, policy, now), name, id, outcome);
    if u.retired then u else u.(cache := Enforce(u.cache, policy, now))
  }

  lemma EndedFlies(s: Source, name: string, id: LoadId, outcome: Outcome, policy: Policy, now: nat)
    requires CacheInv(s.cache) && FlightsOk(s.cache, s.records) && id < |s.records|
    ensures Flown(s, Ended(s, name, id, outcome, policy, now))
  {
    PublishKeepsCache(s, name, id, outcome, policy, now);
    PublishFlies(s, name, id, outcome, policy, now);
    var p := Publish(s, name, id, outcome, policy, now);
    SettleFlies(p, name, id, outcome);
    SettleKeepsCache(p, name, id, outcome);
    var u := Settle(p, name, id, outcome);
    EnforceIsSteady(u.cache, policy, now);
    SteadySelf(u.cache);
    assert FlightsOk(p.cache, p.records);
    hide CacheInv, Publish, Settle, Enforce, FlightsOk, Steady;
    SteadyFlies(p, u, Ended(s, name, id, outcome, policy, now));
    FlownTrans(s, p, Ended(s, name, id, outcome, policy, now));
  }

  lemma ShareFlies(s: Source, id: LoadId, a: Alias, d: Data)
    requires FlightsOk(s.cache, s.records) && id < |s.records|
    ensures Flown(s, PublishSource(s, id, a, d).0)
  {
    if a in s.cache.sources {
      ProtectFlies(s, id, s.cache.sources[a]);
      hide ProtectLoad;
    } else if !s.retired {
      ProtectFlies(s, id, d);
      var p := ProtectLoad(s, id, d);
      SetSourceIsSteady(p.cache, a, d);
      hide ProtectLoad, SetSource, FlightsOk, Steady;
      SteadyFlies(s, p, PublishSource(s, id, a, d).0);
    }
  }

  lemma MovableSame(c: Cache, r: Cache, n: string)
    requires SameRefs(c, r) && Movable(c, n)
    ensures Movable(r, n)
  {
  }

  /** The requested name may be taken away from other data that has another alias. */
  lemma NamesFly(s: Source, id: LoadId, requested: string, used: string, d: Data)
    requires CacheInv(s.cache) && FlightsOk(s.cache, s.records) && id < |s.records| && Movable(s.cache, requested)
    ensures Flown(s, PublishNames(s, id, requested, used, d))
  {
    if !s.retired {
      ProtectFlies(s, id, d);
      ProtectLoadKeepsCache(s, id, d);
      ProtectRefs(s, id, d);
      var p := ProtectLoad(s, id, d);
      MovableSame(s.cache, p.cache, requested);
      SetNameIsSteady(p.cache, requested, d);
      SetNameKeepsInv(p.cache, requested, d);
      var c := SetName(p.cache, requested, d);
      if used !in c.names {
        FreeIsMovable(c, used);
        SetNameIsSteady(c, used, d);
        SteadyTrans(p.cache, c, SetName(c, used, d));
      }
      hide CacheInv, ProtectLoad, SetName, FlightsOk, Steady;
      SteadyFlies(s, p, PublishNames(s, id, requested, used, d));
    }
  }

  // -------------------------------------------------------- no blob is lost

  lemma DeleteKeepsBlobs(c: Cache, n: string)
    requires CacheInv(c) && Movable(c, n)
    ensures DeleteName(c, n).blobs.Keys == c.blobs.Keys
  {
    var k := Ref(c, Name(n));
    if k != 0 {
      var a :| a != Name(n) && Ref(c, a) == k;
      assert AliasInv(c.names, c.sources, c.blobs);
      assert k in c.blobs && a in c.blobs[k].aliases && NoDup(c.blobs[k].aliases);
      assert a in Without(c.blobs[k].aliases, Name(n));
    }
    hide CacheInv;
  }

  lemma SetNameKeepsBlobs(c: Cache, n: string, d: Data)
    requires CacheInv(c) && Movable(c, n)
    ensures c.blobs.Keys <= SetName(c, n, d).blobs.Keys
  {
    DeleteKeepsBlobs(c, n);
    hide CacheInv, DeleteName;
  }

  lemma ProtectKeepsBlobs(s: Source, id: LoadId, d: Data)
    requires id < |s.records|
    ensures s.cache.blobs.Keys <= ProtectLoad(s, id, d).cache.blobs.Keys
  {
  }

  lemma NamesKeepBlobs(s: Source, id: LoadId, requested: string, used: string, d: Data)
    requires CacheInv(s.cache) && id < |s.records| && Movable(s.cache, requested)
    ensures s.cache.blobs.Keys <= PublishNames(s, id, requested, used, d).cache.blobs.Keys
  {
    ProtectKeepsBlobs(s, id, d);
    ProtectLoadKeepsCache(s, id, d);
    ProtectRefs(s, id, d);
    hide CacheInv, ProtectLoad, SetName, Movable, SameRefs;
    var p := ProtectLoad(s, id, d).cache;
    MovableSame(s.cache, p, requested);
    SetNameKeepsBlobs(p, requested, d);
    SetNameKeepsInv(p, requested, d);
    var c := SetName(p, requested, d);
    if used !in c.names {
      FreeIsMovable(c, used);
      SetNameKeepsBlobs(c, used, d);
    }
  }

  /** Naming data takes no blob out of the cache, not even one whose name is taken away. */
  lemma NamesLoseNoBlob(w: World, t: Tid, used: string, d: Data)
    requires WorldInv(w) && Anchored(w) && Enabled(w, Names(t, used, d))
    ensures w.src.cache.blobs.Keys <= DoNames(w, t, used, d).src.cache.blobs.Keys
  {
    assert CacheInv(w.src.cache);
    OtherAlias(w, t);
    NamesKeepBlobs(w.src, w.threads[t].id, w.threads[t].name, used, d);
    hide WorldInv, Anchored, CacheInv, PublishNames, Movable;
  }

  lemma BeginFlies(s: Source, name: string, now: nat)
    requires FlightsOk(s.cache, s.records)
    ensures Flown(s, BeginLoad(s, name, now).0)
  {
    CachedNameIsSteady(s.cache, name, now);
    hide CachedName;
    forall k | k != 0 ensures Flights(s.records + [Load(0, None)], k) == Flights(s.records, k) {
      assert (s.records + [Load(0, None)])[..|s.records|] == s.records;
    }
  }

  /** Handles of `x` once one handle of `k` has been given back, if `k` has any. */
  function Fewer(c: Cache, k: Key, x: Key): nat {
    if x == k && Handles(c, k) > 0 then Handles(c, k) - 1 else Handles(c, x)
  }

  lemma ReturnIs(c: Cache, k: Key)
    ensures forall x :: Flying(Return(c, k), x) == Flying(c, x) && Handles(Return(c, k), x) == Fewer(c, k, x)
  {
  }

  /** The generation is retired and at rest: it has given its whole cache up. */
  predicate Over(s: Source) { s.retired && s.active == 0 }

  lemma ReturnedIs(s: Source, k: Key, policy: Policy, now: nat)
    requires CacheInv(s.cache)
    ensures var u := Returned(s, k, policy, now);
      && Over(u) == Over(s) && u.records == s.records
      && forall x :: Handles(u.cache, x) == Fewer(s.cache, k, x) && Flying(u.cache, x) == Flying(s.cache, x)
  {
    ReturnIs(s.cache, k);
    ReleaseKeepsInv(s.cache, k);
    EnforceIsSteady(Return(s.cache, k), policy, now);
    hide CacheInv, Enforce, Return;
  }

  lemma BorrowIs(s: Source, k: Key)
    ensures var (u, ok) := BeginBorrow(s, k);
      && u.records == s.records && (forall x :: Flying(u.cache, x) == Flying(s.cache, x))
      && u.cache.blobs.Keys == s.cache.blobs.Keys && (ok ==> k in s.cache.blobs)
      && forall x :: Handles(u.cache, x) == Handles(s.cache, x) + if ok && x == k then 1 else 0
  {
  }

  // ----------------------------------------------------------- every section

  predicate ByLeader(a: Action) { a.Guard? || a.Share? || a.Names? }

  lemma LeaderFlies(w: World, a: Action)
    requires WorldInv(w) && Anchored(w) && Enabled(w, a) && ByLeader(a) && FlightsOk(w.src.cache, w.src.records)
    ensures Flown(w.src, Do(w, a).src)
  {
    assert CacheInv(w.src.cache);
    hide WorldInv, Anchored, CacheInv, FlightsOk, PublishSource, PublishNames, ProtectLoad, Movable;
    match a
    case Guard(t, d) => ProtectFlies(w.src, w.threads[t].id, d);
    case Share(t, b, d) => ShareFlies(w.src, w.threads[t].id, b, d);
    case Names(t, used, d) =>
      OtherAlias(w, t);
      NamesFly(w.src, w.threads[t].id, w.threads[t].name, used, d);
  }

  lemma LookupFlies(w: World, a: Action)
    requires CacheInv(w.src.cache) && Enabled(w, a) && FlightsOk(w.src.cache, w.src.records)
    requires a.Look? || a.Begin? || a.Peek?
    ensures Flown(w.src, Do(w, a).src)
  {
    SteadySelf(w.src.cache);
    hide CacheInv, BeginLoad, CachedName, Touch;
    if a.Look? {
      CachedNameIsSteady(w.src.cache, a.name, a.now);
    } else if a.Begin? {
      BeginFlies(w.src, a.name, a.now);
    } else if a.a in w.src.cache.sources {
      RecordIsSteady(w.src.cache, w.src.cache.sources[a.a]);
    }
  }

  predicate AtArchive(a: Action) { a.Wake? || a.Ensure? || a.Ensured? || a.Awaited? || a.Close? }

  lemma ArchiveFlies(w: World, a: Action)
    requires CacheInv(w.src.cache) && Enabled(w, a) && FlightsOk(w.src.cache, w.src.records) && AtArchive(a)
    ensures Flown(w.src, Do(w, a).src)
  {
    hide CacheInv, FlightsOk, Handles;
  }

  /** The sections that can end the generation. */
  predicate Ending(a: Action) { a.Finish? || a.RetireNow? }

  lemma EndingFlies(w: World, a: Action)
    requires CacheInv(w.src.cache) && Enabled(w, a) && Ending(a) && FlightsOk(w.src.cache, w.src.records)
    ensures !Over(Do(w, a).src) ==> Flown(w.src, Do(w, a).src)
  {
    if a.Finish? {
      EndedFlies(w.src, w.threads[a.t].name, w.threads[a.t].id, a.outcome, a.policy, a.now);
      hide CacheInv, FlightsOk, Publish, Settle, Enforce, Handles;
    } else {
      hide CacheInv, FlightsOk, Handles;
    }
  }

  predicate Handling(a: Action) { a.Borrowing? || a.Returning? }

  /** Apart from borrows and returns, sections neither give nor take handles while the
      generation is not over. */
  lemma SectionFlies(w: World, a: Action)
    requires WorldInv(w) && Anchored(w) && Enabled(w, a) && FlightsOk(w.src.cache, w.src.records) && !Handling(a)
    ensures !Over(Do(w, a).src) ==> Flown(w.src, Do(w, a).src)
  {
    assert CacheInv(w.src.cache);
    hide WorldInv, Anchored, CacheInv, FlightsOk, Flown, Do, Enabled, Over;
    if ByLeader(a) {
      LeaderFlies(w, a);
    } else if Ending(a) {
      EndingFlies(w, a);
    } else if AtArchive(a) {
      ArchiveFlies(w, a);
    } else {
      LookupFlies(w, a);
    }
  }

  lemma HandlingFlies(w: World, a: Action)
    requires CacheInv(w.src.cache) && Enabled(w, a) && Handling(a) && FlightsOk(w.src.cache, w.src.records)
    ensures FlightsOk(Do(w, a).src.cache, Do(w, a).src.records)
  {
    if a.Borrowing? { BorrowIs(w.src, a.k); } else { ReturnedIs(w.src, a.k, a.policy, a.now); }
    hide CacheInv, BeginBorrow, Returned;
  }

  /** When no load runs none protects a blob. */
  lemma RestHasNoFlights(w: World)
    requires WorldInv(w) && NoLeader(w)
    ensures forall k | k != 0 :: Flights(w.src.records, k) == 0
  {
    forall id | 0 <= id < |w.src.records| ensures w.src.records[id].blob == 0 { assert LeaderOk(w, id); }
    forall k | k != 0 ensures Flights(w.src.records, k) == 0 { NoFlights(w.src.records, k); }
  }

  lemma OverHasNoFlights(w: World)
    requires WorldInv(w) && Over(w.src)
    ensures FlightsOk(w.src.cache, w.src.records) && w.src.cache.blobs == map[]
  {
    NoLeaderNoLoad(w);
    RestHasNoFlights(w);
    hide CacheInv, LoadsInv, ArchiveInv, NoLeader;
  }

  /** Every section keeps the account of protections exact. */
  lemma StepFlies(w: World, a: Action)
    requires WorldInv(w) && Anchored(w) && Enabled(w, a) && FlightsOk(w.src.cache, w.src.records)
    ensures FlightsOk(Do(w, a).src.cache, Do(w, a).src.records)
  {
    assert CacheInv(w.src.cache);
    hide WorldInv, Anchored, CacheInv, FlightsOk, Do, Enabled, Over;
    if Handling(a) {
      HandlingFlies(w, a);
    } else {
      StepKeepsInv(w, a);
      SectionFlies(w, a);
      if Over(Do(w, a).src) { OverHasNoFlights(Do(w, a)); }
    }
  }

  ghost predicate Guarded(w: World) { WorldInv(w) && Anchored(w) && FlightsOk(w.src.cache, w.src.records) }

  lemma {:induction false} RunFlies(w: World, trace: seq<Action>, v: World)
    requires Guarded(w) && Run(w, trace, v)
    ensures Guarded(v)
    decreases |trace|
  {
    hide WorldInv, Do, Enabled, CacheInv, FlightsOk, Anchored;
    if trace == [] {
    } else {
      StepKeepsInv(w, trace[0]);
      StepKeepsAnchored(w, trace[0]);
      StepFlies(w, trace[0]);
      RunFlies(Do(w, trace[0]), trace[1..], v);
    }
  }

  lemma StartIsGuarded(threads: nat)
    ensures Guarded(AssetRuns.Start(threads))
  {
    StartInv(threads);
    StartAnchored(threads);
    hide WorldInv, Anchored;
  }

  lemma GuardedBlob(w: World, id: LoadId)
    requires Guarded(w) && id < |w.src.records| && w.src.records[id].blob != 0
    ensures var k := w.src.records[id].blob;
      && k in w.src.cache.blobs && w.src.cache.blobs[k].inFlight == Flights(w.src.records, k) > 0 &&
           k !in w.src.cache.lru
  {
    SomeFlight(w.src.records, id);
    assert Flying(w.src.cache, w.src.records[id].blob) == Flights(w.src.records, w.src.records[id].blob);
    hide AliasInv, NegativeInv, LoadsInv, ArchiveInv, Anchored, Flights;
  }

  /** From the moment a load protects a blob until it finishes, the blob is cached, no candidate
      for eviction, and protected by exactly the loads that say so. */
  lemma RunningLoadProtects(threads: nat, trace: seq<Action>, w: World, t: Tid)
    requires Run(AssetRuns.Start(threads), trace, w) && t < |w.threads| && w.threads[t].Leading?
    ensures var id := w.threads[t].id;
      id < |w.src.records| &&
      var k := w.src.records[id].blob;
      k != 0 ==>
        k in w.src.cache.blobs && w.src.cache.blobs[k].inFlight == Flights(w.src.records, k) > 0 &&
            k !in w.src.cache.lru
    ensures forall k | k != 0 :: Flying(w.src.cache, k) == Flights(w.src.records, k)
  {
    StartIsGuarded(threads);
    RunFlies(AssetRuns.Start(threads), trace, w);
    assert ThreadOk(w, t);
    if w.src.records[w.threads[t].id].blob != 0 { GuardedBlob(w, w.threads[t].id); }
    hide Run, WorldInv, Anchored, Flights;
  }

  /** When no load runs, whatever happened before, no blob is protected by a load: exactly
      the blobs with a native handle are kept from eviction. */
  lemma NothingStaysProtected(threads: nat, trace: seq<Action>, w: World)
    requires Run(AssetRuns.Start(threads), trace, w) && NoLeader(w)
    ensures forall k | k in w.src.cache.blobs :: w.src.cache.blobs[k].inFlight == 0
    ensures forall k | k in w.src.cache.blobs :: k in w.src.cache.lru <==> w.src.cache.blobs[k].handles == 0
  {
    StartIsGuarded(threads);
    RunFlies(AssetRuns.Start(threads), trace, w);
    RestUnprotected(w);
    hide Run, AliasInv, NegativeInv, ArchiveInv, LoadsInv, NoLeader, Anchored;
  }

  lemma RestUnprotected(w: World)
    requires Guarded(w) && NoLeader(w)
    ensures forall k | k in w.src.cache.blobs :: w.src.cache.blobs[k].inFlight == 0
  {
    RestHasNoFlights(w);
    assert 0 !in w.src.cache.blobs;
    hide WorldInv, Anchored;
    forall k | k in w.src.cache.blobs ensures w.src.cache.blobs[k].inFlight == 0 {
      assert Flying(w.src.cache, k) == Flights(w.src.records, k);
    }
  }
}
