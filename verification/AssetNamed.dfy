/** A load that has named its data stays named: its name refers to the blob it protects until
    the load finishes, so its finishLoad has nothing left to publish. */
module AssetNamed {
  import opened Options
  import opened AssetModel
  import opened AssetSafety
  import opened AssetPolicy
  import opened AssetLoads
  import opened AssetEffects
  import opened AssetRuns
  import opened AssetAnchors
  import opened AssetFlights

  ghost predicate NamedOk(w: World, t: Tid)
    requires t < |w.threads|
  {
    var pc := w.threads[t];
    pc.Leading? && pc.named && !w.src.retired && pc.id < |w.src.records| && w.src.records[pc.id].blob != 0 ==>
      Ref(w.src.cache, Name(pc.name)) == w.src.records[pc.id].blob
  }

  ghost predicate NamesHold(w: World) { forall t {:trigger NamedOk(w, t)} | 0 <= t < |w.threads| :: NamedOk(w, t) }

  lemma EnforceHolds(c: Cache, policy: Policy, now: nat, a: Alias)
    requires CacheInv(c) && Flying(c, Ref(c, a)) > 0
    ensures Ref(Enforce(c, policy, now), a) == Ref(c, a)
  {
    var b := Ref(c, a);
    PruneIsExact(c, now);
    var p := Prune(c, now);
    CapIsExact(p, policy.cap);
    var q := Cap(p, policy.cap);
    ExpiredAreNegative(c, now);
    NegativesRefs(c, Expired(c, now), p);
    CappedAreNegative(p, policy.cap, q);
    assert q.blobs == c.blobs;
    ProtectedSurvives(q, policy.budget, b, a);
    hide CacheInv, Prune, Cap, Evict, Expired;
  }

  /** The sections that change no name, or none that refers to data. */
  predicate Nameless(a: Action) { !a.Names? && !a.Finish? && !a.RetireNow? && !a.Returning? }

  lemma LookupKeepsNames(w: World, a: Action, n: string)
    requires CacheInv(w.src.cache) && Enabled(w, a) && (a.Look? || a.Begin?)
    ensures Ref(Do(w, a).src.cache, Name(n)) == Ref(w.src.cache, Name(n))
  {
    CachedNameRefs(w.src.cache, a.name, a.now);
    hide CacheInv, CachedName, Ref;
  }

  lemma ShareKeepsNames(s: Source, id: LoadId, a: Alias, d: Data, n: string)
    requires id < |s.records| && !a.Name?
    ensures Ref(PublishSource(s, id, a, d).0.cache, Name(n)) == Ref(s.cache, Name(n))
  {
    if a in s.cache.sources { ProtectKeepsNames(s, id, s.cache.sources[a]); }
    ProtectKeepsNames(s, id, d);
    SetSourceSources(ProtectLoad(s, id, d).cache, a, d);
    hide ProtectLoad, SetSource;
  }

  lemma NamelessKeepsNames(w: World, a: Action, n: string)
    requires CacheInv(w.src.cache) && Enabled(w, a) && Nameless(a)
    ensures Ref(Do(w, a).src.cache, Name(n)) == Ref(w.src.cache, Name(n))
  {
    if a.Look? || a.Begin? {
      LookupKeepsNames(w, a, n);
    } else if a.Guard? {
      ProtectRefs(w.src, w.threads[a.t].id, a.d);
    } else if a.Share? {
      ShareKeepsNames(w.src, w.threads[a.t].id, a.a, a.d, n);
    }
    hide CacheInv, ProtectLoad, PublishSource, BeginLoad, CachedName;
  }

  lemma ReturnedHolds(s: Source, k: Key, policy: Policy, now: nat, a: Alias)
    requires CacheInv(s.cache) && Flying(s.cache, Ref(s.cache, a)) > 0
    ensures Ref(Returned(s, k, policy, now).cache, a) == Ref(s.cache, a)
  {
    ReleaseKeepsInv(s.cache, k);
    ReturnIs(s.cache, k);
    var r := Return(s.cache, k);
    UntouchedRefs(s.cache, r);
    assert Ref(r, a) == Ref(s.cache, a);
    EnforceHolds(r, policy, now, a);
    hide CacheInv, Enforce, Return, Ref;
  }

  /** Another load's end takes no name from a blob that load `id` protects. */
  lemma EndedHolds(s: Source, name: string, own: LoadId, outcome: Outcome, policy: Policy, now: nat, id: LoadId,
      n: string)
    requires CacheInv(s.cache) && FlightsOk(s.cache, s.records) && own < |s.records|
    requires id < |s.records| && id != own && n != name
    requires s.records[id].blob != 0 && Ref(s.cache, Name(n)) == s.records[id].blob
    ensures Ref(Ended(s, name, own, outcome, policy, now).cache, Name(n)) == s.records[id].blob
  {
    var k := s.records[id].blob;
    PublishKeepsCache(s, name, own, outcome, policy, now);
    PublishRefs(s, name, own, outcome, policy, now);
    PublishFlies(s, name, own, outcome, policy, now);
    var p := Publish(s, name, own, outcome, policy, now);
    SettleFlies(p, name, own, outcome);
    SettleKeepsCache(p, name, own, outcome);
    SettleRefs(p, name, own, outcome);
    var u := Settle(p, name, own, outcome);
    OtherRecords(s, name, own, outcome, policy, now, id);
    assert Ref(u.cache, Name(n)) == k;
    SomeFlight(u.records, id);
    assert Flying(u.cache, k) == Flights(u.records, k);
    EnforceHolds(u.cache, policy, now, Name(n));
    hide CacheInv, Publish, Settle, Enforce, Ref, Flights, FlightsOk;
  }

  lemma OtherRecords(s: Source, name: string, own: LoadId, outcome: Outcome, policy: Policy, now: nat, id: LoadId)
    requires own < |s.records| && id < |s.records| && id != own
    ensures var p := Publish(s, name, own, outcome, policy, now);
      |p.records| == |s.records| && Settle(p, name, own, outcome).records[id] == s.records[id]
  {
  }

  /** The load whose record a section may change. */
  predicate Touches(w: World, a: Action, id: LoadId)
    requires Enabled(w, a)
  {
    (a.Guard? || a.Share? || a.Names? || a.Finish?) && w.threads[a.t].id == id
  }

  lemma LeaderRecords(w: World, a: Action, id: LoadId)
    requires CacheInv(w.src.cache) && Enabled(w, a) && id < |w.src.records| && !Touches(w, a, id)
    requires a.Guard? || a.Share? || a.Names?
    ensures id < |Do(w, a).src.records| && Do(w, a).src.records[id] == w.src.records[id]
  {
    hide CacheInv, Protect, SetName, SetSource;
  }

  lemma FinishRecords(w: World, a: Action, id: LoadId)
    requires CacheInv(w.src.cache) && Enabled(w, a) && a.Finish? && id < |w.src.records| && w.threads[a.t].id != id
    ensures id < |Do(w, a).src.records| && Do(w, a).src.records[id] == w.src.records[id]
  {
    var pc := w.threads[a.t];
    OtherRecords(w.src, pc.name, pc.id, a.outcome, a.policy, a.now, id);
    hide CacheInv, Publish, Settle, Enforce;
  }

  lemma RecordStays(w: World, a: Action, id: LoadId)
    requires CacheInv(w.src.cache) && Enabled(w, a) && id < |w.src.records| && !Touches(w, a, id)
    ensures id < |Do(w, a).src.records| && Do(w, a).src.records[id] == w.src.records[id]
  {
    if a.Finish? {
      FinishRecords(w, a, id);
    } else if a.Returning? {
      ReturnedIs(w.src, a.k, a.policy, a.now);
      hide CacheInv, Returned;
    } else if a.Guard? || a.Share? || a.Names? {
      LeaderRecords(w, a, id);
    } else {
      QuietRecords(w, a, id);
    }
    hide CacheInv, Do, Enabled;
  }

  lemma QuietRecords(w: World, a: Action, id: LoadId)
    requires CacheInv(w.src.cache) && Enabled(w, a) && id < |w.src.records|
    requires !(a.Guard? || a.Share? || a.Names? || a.Finish? || a.Returning?)
    ensures id < |Do(w, a).src.records| && Do(w, a).src.records[id] == w.src.records[id]
  {
    hide CacheInv, CachedName, Touch, Borrow;
  }

  // ------------------------------------------------------------- every section

  /** The leader `t` has named its data and is not the one to move. */
  ghost predicate Resting(w: World, a: Action, t: Tid)
    requires Enabled(w, a)
  {
    && t < |w.threads| && w.threads[t].Leading? && w.threads[t].named && w.threads[t].id < |w.src.records|
    && w.src.records[w.threads[t].id].blob != 0 && !Touches(w, a, w.threads[t].id)
    && Ref(w.src.cache, Name(w.threads[t].name)) == w.src.records[w.threads[t].id].blob
    && (a.Names? || a.Finish? ==> w.threads[a.t].name != w.threads[t].name)
  }

  lemma HeldFlies(w: World, id: LoadId)
    requires FlightsOk(w.src.cache, w.src.records) && id < |w.src.records| && w.src.records[id].blob != 0
    ensures Flying(w.src.cache, w.src.records[id].blob) > 0
  {
    SomeFlight(w.src.records, id);
  }

  /** Naming re-points no name that refers to data but the leader's own. */
  lemma OtherNaming(w: World, t: Tid, used: string, d: Data, n: string)
    requires CacheInv(w.src.cache) && Busy(w, t) && n != w.threads[t].name && Ref(w.src.cache, Name(n)) != 0
    ensures Ref(DoNames(w, t, used, d).src.cache, Name(n)) == Ref(w.src.cache, Name(n))
  {
    if w.src.retired {
      RetiredNames(w, t, used, d);
    } else {
      NamesRefs(w.src, w.threads[t].id, w.threads[t].name, used, d);
    }
    hide CacheInv, PublishNames, Ref;
  }

  lemma OthersHold(w: World, a: Action, t: Tid)
    requires WorldInv(w) && FlightsOk(w.src.cache, w.src.records) && Enabled(w, a) && Resting(w, a, t)
    ensures !Do(w, a).src.retired ==>
      Ref(Do(w, a).src.cache, Name(w.threads[t].name)) == w.src.records[w.threads[t].id].blob
  {
    var n, id := w.threads[t].name, w.threads[t].id;
    assert CacheInv(w.src.cache);
    HeldFlies(w, id);
    hide WorldInv, CacheInv, Ref, FlightsOk;
    if a.Names? {
      OtherNaming(w, a.t, a.used, a.d, n);
      hide DoNames;
    } else if a.Finish? {
      EndedHolds(w.src, w.threads[a.t].name, w.threads[a.t].id, a.outcome, a.policy, a.now, id, n);
      hide Publish, Settle, Enforce;
    } else if a.Returning? {
      ReturnedHolds(w.src, a.k, a.policy, a.now, Name(n));
      hide Returned;
    } else if !a.RetireNow? {
      NamelessKeepsNames(w, a, n);
    }
  }

  /** A thread that leads with its data named either named it just now or was there before. */
  lemma NamedBefore(w: World, a: Action, t: Tid)
    requires CacheInv(w.src.cache) && Enabled(w, a) && t < |Do(w, a).threads|
    requires Do(w, a).threads[t].Leading? && Do(w, a).threads[t].named && !(a.Names? && a.t == t)
    ensures t < |w.threads| && w.threads[t].Leading? && w.threads[t].named
    ensures w.threads[t].name == Do(w, a).threads[t].name && w.threads[t].id == Do(w, a).threads[t].id
    ensures (a.Guard? || a.Share? || a.Names? || a.Finish?) ==> a.t != t
  {
    hide CacheInv, FinishLoad, CachedSource, ProtectLoad, PublishSource, PublishNames, Retire, CloseArchive;
    hide BeginBorrow, Returned, CachedName, EnsureEnd;
  }

  lemma RetiredStays(w: World, a: Action)
    requires WorldInv(w) && Enabled(w, a)
    ensures w.src.retired ==> Do(w, a).src.retired
  {
    if w.src.retired { RetiredStep(w, a); }
  }

  lemma OneLeaderPerLoad(w: World, t: Tid, u: Tid)
    requires WorldInv(w) && t < |w.threads| && u < |w.threads|
    requires w.threads[t].Leading? && w.threads[u].Leading? && w.threads[t].id == w.threads[u].id
    ensures t == u && w.threads[t].id < |w.src.records|
  {
    hide SourceInv;
    assert ThreadOk(w, t) && ThreadOk(w, u);
  }

  lemma OthersKeepNamed(w: World, a: Action, t: Tid)
    requires Guarded(w) && Enabled(w, a) && NamesHold(w) && t < |Do(w, a).threads|
    requires Do(w, a).threads[t].Leading? && Do(w, a).threads[t].named && !(a.Names? && a.t == t)
    ensures NamedOk(Do(w, a), t)
  {
    assert CacheInv(w.src.cache);
    NamedBefore(w, a, t);
    RetiredStays(w, a);
    OneLeaderPerLoad(w, t, t);
    if a.Guard? || a.Share? || a.Names? || a.Finish? {
      if w.threads[a.t].id == w.threads[t].id { OneLeaderPerLoad(w, t, a.t); }
      if w.threads[a.t].name == w.threads[t].name { SoleLeader(w, t, a.t); }
    }
    RecordStays(w, a, w.threads[t].id);
    assert NamedOk(w, t);
    hide WorldInv, Anchored, FlightsOk, CacheInv, Ref, Do, NamesHold;
    if !w.src.retired && w.src.records[w.threads[t].id].blob != 0 { OthersHold(w, a, t); }
  }

  /** Naming makes the name refer to the blob the load protects from then on. */
  lemma NamesNamed(w: World, t: Tid, used: string, d: Data)
    requires WorldInv(w) && Enabled(w, Names(t, used, d))
    ensures NamedOk(DoNames(w, t, used, d), t)
  {
    if !w.src.retired {
      NamesRefs(w.src, w.threads[t].id, w.threads[t].name, used, d);
      NamesBlob(w.src, w.threads[t].id, w.threads[t].name, used, d);
    }
    hide WorldInv, PublishNames, Ref;
  }

  lemma NamesBlob(s: Source, id: LoadId, requested: string, used: string, d: Data)
    requires id < |s.records| && !s.retired && (s.records[id].blob == 0 || s.records[id].blob == KeyOf(d))
    ensures var u := PublishNames(s, id, requested, used, d);
      |u.records| == |s.records| && u.records[id].blob == KeyOf(d)
  {
    hide Protect, SetName;
  }

  lemma StepKeepsNames(w: World, a: Action)
    requires Guarded(w) && Enabled(w, a) && NamesHold(w)
    ensures NamesHold(Do(w, a))
  {
    assert CacheInv(w.src.cache);
    hide WorldInv, Anchored, FlightsOk, CacheInv, DoNames;
    var v := Do(w, a);
    forall t {:trigger NamedOk(v, t)} | 0 <= t < |v.threads| ensures NamedOk(v, t) {
      if a.Names? && a.t == t {
        NamesNamed(w, t, a.used, a.d);
      } else if v.threads[t].Leading? && v.threads[t].named {
        OthersKeepNamed(w, a, t);
      }
    }
  }

  lemma {:induction false} RunKeepsNames(w: World, trace: seq<Action>, v: World)
    requires Guarded(w) && NamesHold(w) && Run(w, trace, v)
    ensures Guarded(v) && NamesHold(v)
    decreases |trace|
  {
    hide WorldInv, Do, Enabled, CacheInv, FlightsOk, Anchored, NamesHold;
    if trace == [] {
    } else {
      StepKeepsInv(w, trace[0]);
      StepKeepsAnchored(w, trace[0]);
      StepFlies(w, trace[0]);
      StepKeepsNames(w, trace[0]);
      RunKeepsNames(Do(w, trace[0]), trace[1..], v);
    }
  }

  /** A leader that has named its data in a live generation leaves its name on the blob it
      protects, whatever the others do, and publishes nothing more when it finishes. */
  lemma NamedStaysNamed(threads: nat, trace: seq<Action>, w: World, t: Tid, outcome: Outcome, policy: Policy, now: nat)
    requires Run(AssetRuns.Start(threads), trace, w) && t < |w.threads|
    requires w.threads[t].Leading? && w.threads[t].named && !w.src.retired
    ensures var pc := w.threads[t];
      && pc.id < |w.src.records|
      && (w.src.records[pc.id].blob != 0 ==>
           && Ref(w.src.cache, Name(pc.name)) == w.src.records[pc.id].blob
           && Publish(w.src, pc.name, pc.id, outcome, policy, now) == w.src)
  {
    StartIsGuarded(threads);
    assert NamesHold(AssetRuns.Start(threads));
    RunKeepsNames(AssetRuns.Start(threads), trace, w);
    assert ThreadOk(w, t) && NamedOk(w, t);
    FreeRef(w.src.cache, w.threads[t].name);
    hide Run, WorldInv, Anchored, FlightsOk, Ref;
  }
}
