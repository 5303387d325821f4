/** One source generation: single-flight loads, the archive and retirement around the
    cache.  Each function is one section that the source runs under the cache mutex. */
module AssetLoads {
  import opened Options
  import opened AssetModel
  import opened AssetSafety
  import opened AssetPolicy

  datatype Outcome = Loaded(data: Data) | Missing | Failed

  /** assetLoad; `result` is set when `done` is closed, `blob` is its blobKey. */
  datatype Load = Load(blob: Key, result: Option<Outcome>)
  type LoadId = nat

  /** An archive is known by the number of the attempt that opened it. */
  type Handle = nat

  /** `opens` holds the outcome of every attempt to open the archive.  `dropped` are the
      archives handed out for closing, `closed` those that have been closed since. */
  datatype Source = Source(
    cache: Cache, loads: map<string, LoadId>, records: seq<Load>, active: int, retired: bool,
    archive: Option<Handle>, opening: Option<Handle>, opens: seq<Option<bool>>, dropped: seq<Handle>,
        closed: seq<Handle>)

  function Start(): Source { Source(Empty(), map[], [], 0, false, None, None, [], [], []) }

  // ------------------------------------------------------------------- sections

  datatype Lookup = Hit(entry: Entry) | Retry | Join(id: LoadId) | Lead(id: LoadId)

  /** cachedNameLocked */
  function CachedName(c: Cache, name: string, now: nat): (Cache, Option<Entry>) {
    if name !in c.names then (c, None)
    else
      match c.names[name]
      case Negative(expires, _) => if expires <= now then (DeleteName(c, name), None) else (c, Some(c.names[name]))
      case Positive(d) => (Touch(c, d), Some(c.names[name]))
  }

  /** beginLoad */
  function BeginLoad(s: Source, name: string, now: nat): (Source, Lookup) {
    if s.retired then (s, Retry)
    else
      var (c, entry) := CachedName(s.cache, name, now);
      var u := s.(cache := c);
      if entry.Some? then (u, Hit(entry.value))
      else if name in s.loads then (u, Join(s.loads[name]))
      else
        var id := |s.records|;
        (u.(loads := s.loads[name := id], records := s.records + [Load(0, None)], active := s.active + 1), Lead(id))
  }

  /** protectLoadBlobLocked */
  function ProtectLoad(s: Source, id: LoadId, d: Data): Source
    requires id < |s.records|
  {
    if s.records[id].blob != 0 then s
    else s.(cache := Protect(s.cache, d), records := s.records[id := s.records[id].(blob := KeyOf(d))])
  }

  /** releaseLoadBlobLocked */
  function ReleaseLoad(s: Source, id: LoadId): Source
    requires id < |s.records|
  {
    var k := s.records[id].blob;
    if k == 0 then s
    else s.(cache := Release(s.cache, k), records := s.records[id := s.records[id].(blob := 0)])
  }

  /** dropRetiredCachesLocked */
  function Drop(s: Source): Source {
    if !s.retired || s.active != 0 then s
    else
      s.(cache := Empty().(nextOrder := s.cache.nextOrder), archive := None,
         dropped := if s.archive.Some? then s.dropped + [s.archive.value] else s.dropped)
  }

  function Retire(s: Source): Source { Drop(s.(retired := true)) }

  /** What a finished load leaves in the cache. */
  function Publish(s: Source, name: string, id: LoadId, outcome: Outcome, policy: Policy, now: nat): Source
    requires id < |s.records|
  {
    if s.retired || name in s.cache.names then s
    else
      match outcome
      case Loaded(d) =>
        var p := ProtectLoad(s, id, d);
        p.(cache := SetName(p.cache, name, d))
      case Missing =>
        if policy.cap == 0 || policy.ttl == 0 then s else s.(cache := AddNegative(s.cache, name, now, policy.ttl))
      case Failed => s
  }

  /** The load leaves the table with its result and gives up its blob. */
  function Settle(s: Source, name: string, id: LoadId, outcome: Outcome): Source
    requires id < |s.records|
  {
    ReleaseLoad(s.(loads := s.loads - {name}, active := s.active - 1,
                   records := s.records[id := s.records[id].(result := Some(outcome))]), id)
  }

  /** finishLoad */
  ghost function FinishLoad(s: Source, name: string, id: LoadId, outcome: Outcome, policy: Policy, now: nat): Source
    requires CacheInv(s.cache) && id < |s.records|
  {
    PublishKeepsCache(s, name, id, outcome, policy, now);
    var u := Settle(Publish(s, name, id, outcome, policy, now), name, id, outcome);
    SettleKeepsCache(Publish(s, name, id, outcome, policy, now), name, id, outcome);
    Drop(if u.retired then u else u.(cache := Enforce(u.cache, policy, now)))
  }

  datatype Opening = Ready(h: Handle) | Await(h: Handle) | Open(h: Handle)

  /** ensureAPK up to the point where it waits, opens the file or returns. */
  function EnsureBegin(s: Source): (Source, Opening) {
    if s.archive.Some? then (s, Ready(s.archive.value))
    else if s.opening.Some? then (s, Await(s.opening.value))
    else (s.(opening := Some(|s.opens|), opens := s.opens + [None]), Open(|s.opens|))
  }

  /** ensureAPK once the file has been opened, or could not be. */
  function EnsureEnd(s: Source, h: Handle, ok: bool): Source
    requires h < |s.opens|
  {
    s.(archive := if ok then Some(h) else s.archive, opening := None, opens := s.opens[h := Some(ok)])
  }

  /** closeArchive of the archive that was dropped first. */
  function CloseArchive(s: Source): Source {
    if s.dropped == [] then s else s.(dropped := s.dropped[1..], closed := s.closed + [s.dropped[0]])
  }

  /** cachedSource */
  function CachedSource(s: Source, a: Alias): Source {
    if a in s.cache.sources then s.(cache := Touch(s.cache, s.cache.sources[a])) else s
  }

  /** publishPath, and the last section of inflateZip: the data that is used from here on. */
  function PublishSource(s: Source, id: LoadId, a: Alias, d: Data): (Source, Data)
    requires id < |s.records|
  {
    if a in s.cache.sources then (ProtectLoad(s, id, s.cache.sources[a]), s.cache.sources[a])
    else if !s.retired then
      var p := ProtectLoad(s, id, d);
      (p.(cache := SetSource(p.cache, a, d)), d)
    else (s, d)
  }

  /** cacheSuccessAliases */
  function PublishNames(s: Source, id: LoadId, requested: string, used: string, d: Data): Source
    requires id < |s.records|
  {
    if s.retired then s
    else
      var p := ProtectLoad(s, id, d);
      var c := SetName(p.cache, requested, d);
      p.(cache := if used != "" && used != requested && used !in c.names then SetName(c, used, d) else c)
  }

  /** beginNativeBorrow */
  function BeginBorrow(s: Source, k: Key): (Source, bool) {
    if s.retired || k !in s.cache.blobs then (s, false) else (s.(cache := Borrow(s.cache, k)), true)
  }

  /** endNativeBorrow */
  ghost function EndBorrow(s: Source, k: Key): (r: Cache)
    requires CacheInv(s.cache)
    ensures CacheInv(r)
  {
    ReleaseKeepsInv(s.cache, k);
    Return(s.cache, k)
  }

  /** endNativeBorrow enforces the policy only when the blob still had a handle. */
  ghost function Returned(s: Source, k: Key, policy: Policy, now: nat): Source
    requires CacheInv(s.cache)
  {
    if k !in s.cache.blobs || s.cache.blobs[k].handles == 0 then s
    else s.(cache := if s.retired then EndBorrow(s, k) else Enforce(EndBorrow(s, k), policy, now))
  }

  // ------------------------------------------------------------------ invariant

  ghost predicate LoadsInv(s: Source) {
    && s.active == |s.loads|
    && (forall n | n in s.loads :: s.loads[n] < |s.records| && s.records[s.loads[n]].result.None?)
    && (forall n, m | n in s.loads && m in s.loads && s.loads[n] == s.loads[m] :: n == m)
    && (forall id | 0 <= id < |s.records| && s.records[id].result.Some? :: s.records[id].blob == 0)
  }

  /** The archive that was opened is held by the generation, or it has been handed out for
      closing, once, after the last load of a retired generation. */
  ghost predicate ArchiveInv(s: Source) {
    && (s.archive.Some? ==> s.archive.value < |s.opens| && s.opens[s.archive.value] == Some(true) && s.opening.None?)
    && (s.opening.Some? ==> s.opening.value < |s.opens| && s.opens[s.opening.value].None?)
    && (forall h | 0 <= h < |s.opens| && s.opens[h].None? :: s.opening == Some(h))
    && (forall h | 0 <= h < |s.opens| && s.opens[h] == Some(true) :: s.archive == Some(h) || h in s.dropped ||
         h in s.closed)
    && |s.dropped| + |s.closed| <= 1
    && (s.dropped != [] || s.closed != [] ==> s.archive.None? && s.retired && s.active == 0)
    && (forall h | h in s.dropped || h in s.closed :: h < |s.opens| && s.opens[h] == Some(true))
    && (s.retired && s.active == 0 ==> s.archive.None? && s.opening.None?)
  }

  ghost predicate SourceInv(s: Source) {
    && CacheInv(s.cache) && LoadsInv(s) && ArchiveInv(s)
    && (s.retired && s.active == 0 ==> s.cache == Empty().(nextOrder := s.cache.nextOrder))
  }

  lemma EmptyKeepsInv(n: nat)
    ensures CacheInv(Empty().(nextOrder := n))
  {
  }

  lemma ProtectLoadKeepsCache(s: Source, id: LoadId, d: Data)
    requires CacheInv(s.cache) && id < |s.records|
    ensures CacheInv(ProtectLoad(s, id, d).cache)
  {
    ProtectKeepsInv(s.cache, d);
  }

  lemma PublishKeepsCache(s: Source, name: string, id: LoadId, outcome: Outcome, policy: Policy, now: nat)
    requires CacheInv(s.cache) && id < |s.records|
    ensures CacheInv(Publish(s, name, id, outcome, policy, now).cache)
    ensures |Publish(s, name, id, outcome, policy, now).records| == |s.records|
  {
    hide CacheInv;
    if !s.retired && name !in s.cache.names {
      match outcome
      case Loaded(d) =>
        ProtectLoadKeepsCache(s, id, d);
        SetNameKeepsInv(ProtectLoad(s, id, d).cache, name, d);
      case Missing =>
        if policy.cap != 0 && policy.ttl != 0 {
          AddNegativeKeepsInv(s.cache, name, now, policy.ttl);
        }
      case Failed =>
    }
  }

  lemma SettleKeepsCache(s: Source, name: string, id: LoadId, outcome: Outcome)
    requires CacheInv(s.cache) && id < |s.records|
    ensures CacheInv(Settle(s, name, id, outcome).cache)
  {
    ReleaseKeepsInv(s.cache, s.records[id].blob);
  }

  lemma CachedNameKeepsInv(c: Cache, name: string, now: nat)
    requires CacheInv(c)
    ensures CacheInv(CachedName(c, name, now).0)
    ensures CachedName(c, name, now).1.Some? ==> name in c.names && CachedName(c, name, now).1.value == c.names[name]
    ensures CachedName(c, name, now).1.None? <==>
      name !in c.names || (c.names[name].Negative? && c.names[name].expires <= now)
    ensures CachedName(c, name, now).1.None? ==> name !in CachedName(c, name, now).0.names
  {
    DeleteNameKeepsInv(c, name);
    if name in c.names && c.names[name].Positive? {
      TouchKeepsInv(c, c.names[name].data);
    }
  }

  /** Of an empty cache every section that needs no load leaves it as it is. */
  lemma EmptyStays(c: Cache, name: string, now: nat, k: Key, a: Alias)
    requires c == Empty().(nextOrder := c.nextOrder)
    ensures CachedName(c, name, now).0 == c && k !in c.blobs && a !in c.sources
  {
  }

  // --------------------------------------------------- every section keeps it

  lemma CountAdd(loads: map<string, LoadId>, name: string, id: LoadId)
    requires name !in loads
    ensures |loads[name := id]| == |loads| + 1
  {
    assert loads[name := id].Keys == loads.Keys + {name};
  }

  lemma CountRemove(loads: map<string, LoadId>, name: string)
    requires name in loads
    ensures |loads - {name}| == |loads| - 1
  {
    assert loads.Keys == (loads - {name}).Keys + {name};
  }

  lemma LeadKeepsLoads(s: Source, name: string, u: Source)
    requires LoadsInv(s) && name !in s.loads
    requires u.loads == s.loads[name := |s.records|] && u.records == s.records + [Load(0, None)]
    requires u.active == s.active + 1
    ensures LoadsInv(u)
  {
    CountAdd(s.loads, name, |s.records|);
  }

  lemma SameLoadsInv(s: Source, u: Source)
    requires LoadsInv(s) && u == s.(cache := u.cache)
    ensures LoadsInv(u)
  {
  }

  lemma BeginLoadKeepsInv(s: Source, name: string, now: nat)
    requires SourceInv(s)
    ensures SourceInv(BeginLoad(s, name, now).0)
  {
    hide CacheInv, CachedName, LoadsInv;
    CachedNameKeepsInv(s.cache, name, now);
    var (r, lookup) := BeginLoad(s, name, now);
    if lookup.Lead? {
      LeadKeepsLoads(s, name, r);
    } else {
      SameLoadsInv(s, r);
    }
  }

  /** `u` differs from `s` in the cache, and in the blob an unfinished load protects. */
  ghost predicate SameLoads(s: Source, u: Source) {
    && u == s.(cache := u.cache, records := u.records)
    && |u.records| == |s.records|
    && (forall i | 0 <= i < |s.records| :: u.records[i].result == s.records[i].result)
    && (forall i | 0 <= i < |s.records| && s.records[i].result.Some? :: u.records[i] == s.records[i])
  }

  lemma CacheChange(s: Source, u: Source)
    requires SourceInv(s) && SameLoads(s, u) && CacheInv(u.cache)
    requires !s.retired || s.active != 0 || u.cache == s.cache
    ensures SourceInv(u)
  {
    hide CacheInv;
  }

  /** A load that still runs. */
  ghost predicate Active(s: Source, name: string, id: LoadId) {
    name in s.loads && s.loads[name] == id && id < |s.records| && s.records[id].result.None?
  }

  lemma ActiveCounts(s: Source, name: string, id: LoadId)
    requires SourceInv(s) && Active(s, name, id)
    ensures s.active > 0
  {
    assert |s.loads| == |s.loads.Keys|;
    assert name in s.loads.Keys;
  }

  lemma ProtectLoadKeepsInv(s: Source, name: string, id: LoadId, d: Data)
    requires SourceInv(s) && Active(s, name, id)
    ensures SourceInv(ProtectLoad(s, id, d)) && Active(ProtectLoad(s, id, d), name, id)
    ensures SameLoads(s, ProtectLoad(s, id, d))
  {
    hide CacheInv, LoadsInv, ArchiveInv, Protect;
    ActiveCounts(s, name, id);
    ProtectLoadKeepsCache(s, id, d);
    CacheChange(s, ProtectLoad(s, id, d));
  }

  lemma CachedSourceKeepsInv(s: Source, a: Alias)
    requires SourceInv(s)
    ensures SourceInv(CachedSource(s, a)) && SameLoads(s, CachedSource(s, a))
  {
    if a in s.cache.sources {
      TouchKeepsInv(s.cache, s.cache.sources[a]);
      hide CacheInv;
      CacheChange(s, CachedSource(s, a));
    }
  }

  lemma PublishSourceKeepsInv(s: Source, name: string, id: LoadId, a: Alias, d: Data)
    requires SourceInv(s) && Active(s, name, id) && !a.Name?
    ensures var u := PublishSource(s, id, a, d).0;
      SourceInv(u) && Active(u, name, id) && SameLoads(s, u)
  {
    hide CacheInv, LoadsInv, ArchiveInv;
    ActiveCounts(s, name, id);
    if a in s.cache.sources {
      ProtectLoadKeepsInv(s, name, id, s.cache.sources[a]);
    } else if !s.retired {
      ProtectLoadKeepsInv(s, name, id, d);
      var p := ProtectLoad(s, id, d);
      SetSourceKeepsInv(p.cache, a, d);
      CacheChange(p, PublishSource(s, id, a, d).0);
    }
  }

  lemma PublishNamesKeepsInv(s: Source, name: string, id: LoadId, used: string, d: Data)
    requires SourceInv(s) && Active(s, name, id)
    ensures var u := PublishNames(s, id, name, used, d);
      SourceInv(u) && Active(u, name, id) && SameLoads(s, u)
  {
    hide CacheInv, LoadsInv, ArchiveInv;
    ActiveCounts(s, name, id);
    if !s.retired {
      ProtectLoadKeepsInv(s, name, id, d);
      var p := ProtectLoad(s, id, d);
      SetNameKeepsInv(p.cache, name, d);
      SetNameKeepsInv(SetName(p.cache, name, d), used, d);
      CacheChange(p, PublishNames(s, id, name, used, d));
    }
  }

  lemma PublishKeepsInv(s: Source, name: string, id: LoadId, outcome: Outcome, policy: Policy, now: nat)
    requires SourceInv(s) && Active(s, name, id)
    ensures var u := Publish(s, name, id, outcome, policy, now);
      SourceInv(u) && Active(u, name, id) && SameLoads(s, u)
  {
    hide CacheInv, LoadsInv, ArchiveInv;
    ActiveCounts(s, name, id);
    PublishKeepsCache(s, name, id, outcome, policy, now);
    if !s.retired && name !in s.cache.names && outcome.Loaded? {
      ProtectLoadKeepsInv(s, name, id, outcome.data);
      CacheChange(ProtectLoad(s, id, outcome.data), Publish(s, name, id, outcome, policy, now));
    } else {
      CacheChange(s, Publish(s, name, id, outcome, policy, now));
    }
  }

  lemma SettleKeepsLoads(s: Source, name: string, id: LoadId, outcome: Outcome)
    requires LoadsInv(s) && Active(s, name, id)
    ensures var u := Settle(s, name, id, outcome);
      && LoadsInv(u) && u == s.(cache := u.cache, records := u.records, loads := u.loads, active := s.active - 1)
      && |u.records| == |s.records| && u.records[id] == Load(0, Some(outcome))
      && (forall i | 0 <= i < |s.records| && i != id :: u.records[i] == s.records[i])
      && u.loads == s.loads - {name}
  {
    CountRemove(s.loads, name);
    SettleIs(s, name, id, outcome);
    hide Settle;
  }

  lemma SettleIs(s: Source, name: string, id: LoadId, outcome: Outcome)
    requires id < |s.records|
    ensures var u := Settle(s, name, id, outcome);
      && u == s.(cache := u.cache, records := s.records[id := Load(0, Some(outcome))], loads := s.loads - {name},
           active := s.active - 1)
  {
    hide Release;
  }

  lemma DropKeepsInv(s: Source)
    requires CacheInv(s.cache) && LoadsInv(s) && (s.active != 0 ==> ArchiveInv(s))
    requires s.retired ==> ArchiveInv(s.(active := s.active + 1)) || ArchiveInv(s)
    requires !s.retired ==> ArchiveInv(s)
    requires s.retired && s.active == 0 ==> s.opening.None?
    ensures SourceInv(Drop(s)) && Drop(s).loads == s.loads && Drop(s).records == s.records
  {
    EmptyKeepsInv(s.cache.nextOrder);
    hide CacheInv;
  }

  /** The caller has no archive open in progress: the leader finishes after ensureAPK. */
  lemma FinishLoadKeepsInv(s: Source, name: string, id: LoadId, outcome: Outcome, policy: Policy, now: nat)
    requires SourceInv(s) && Active(s, name, id) && (|s.loads| == 1 ==> s.opening.None?)
    ensures var u := FinishLoad(s, name, id, outcome, policy, now);
      && SourceInv(u) && |u.records| == |s.records| && u.records[id] == Load(0, Some(outcome))
      && u.loads == s.loads - {name}
      && (forall i | 0 <= i < |s.records| && i != id :: u.records[i].result == s.records[i].result)
  {
    hide CacheInv, LoadsInv, ArchiveInv, Publish, Settle, Enforce;
    PublishKeepsInv(s, name, id, outcome, policy, now);
    var p := Publish(s, name, id, outcome, policy, now);
    SettleKeepsLoads(p, name, id, outcome);
    SettleKeepsCache(p, name, id, outcome);
    var u := Settle(p, name, id, outcome);
    EnforceKeepsPolicy(u.cache, policy, now);
    var v := if u.retired then u else u.(cache := Enforce(u.cache, policy, now));
    ActiveCounts(p, name, id);
    FinishArchive(p, v);
    SameLoadsInv(u, v);
    assert |p.loads| == p.active by { ActiveIsLoads(p); }
    DropKeepsInv(v);
  }

  lemma ActiveIsLoads(s: Source)
    requires LoadsInv(s)
    ensures s.active == |s.loads|
  {
  }

  lemma FinishArchive(s: Source, u: Source)
    requires ArchiveInv(s) && s.active > 0
    requires u == s.(cache := u.cache, records := u.records, loads := u.loads, active := s.active - 1)
    ensures ArchiveInv(u.(active := u.active + 1)) && (!u.retired || u.active != 0 ==> ArchiveInv(u))
  {
  }

  lemma RetireKeepsInv(s: Source)
    requires SourceInv(s) && (s.active == 0 ==> s.opening.None?)
    ensures SourceInv(Retire(s)) && Retire(s).loads == s.loads && Retire(s).records == s.records
  {
    hide CacheInv;
    var r := s.(retired := true);
    assert LoadsInv(r);
    if s.active == 0 && !s.retired {
      assert ArchiveInv(r.(active := 1));
    }
    DropKeepsInv(r);
  }

  lemma EnsureKeepsInv(s: Source, h: Handle, ok: bool)
    requires SourceInv(s) && s.active > 0
    ensures SourceInv(EnsureBegin(s).0)
    ensures s.opening == Some(h) ==> SourceInv(EnsureEnd(s, h, ok))
  {
    EnsureKeepsLoads(s, h, ok);
    EnsureBeginArchive(s);
    if s.opening == Some(h) { EnsureEndArchive(s, h, ok); }
    hide CacheInv, LoadsInv, ArchiveInv;
  }

  lemma EnsureKeepsLoads(s: Source, h: Handle, ok: bool)
    requires LoadsInv(s)
    ensures LoadsInv(EnsureBegin(s).0) && (h < |s.opens| ==> LoadsInv(EnsureEnd(s, h, ok)))
  {
  }

  lemma EnsureBeginArchive(s: Source)
    requires ArchiveInv(s) && s.active > 0
    ensures ArchiveInv(EnsureBegin(s).0)
  {
  }

  lemma EnsureEndArchive(s: Source, h: Handle, ok: bool)
    requires ArchiveInv(s) && s.active > 0 && s.opening == Some(h)
    ensures h < |s.opens| && ArchiveInv(EnsureEnd(s, h, ok))
  {
  }

  lemma CloseArchiveKeepsInv(s: Source)
    requires SourceInv(s)
    ensures SourceInv(CloseArchive(s))
  {
    hide CacheInv, LoadsInv;
    SameLoadsArchive(s);
  }

  lemma SameLoadsArchive(s: Source)
    requires LoadsInv(s)
    ensures LoadsInv(CloseArchive(s))
  {
  }

  lemma BeginBorrowKeepsInv(s: Source, k: Key)
    requires SourceInv(s)
    ensures SourceInv(BeginBorrow(s, k).0) && SameLoads(s, BeginBorrow(s, k).0)
  {
    hide CacheInv, LoadsInv, ArchiveInv, Borrow;
    BorrowKeepsInv(s.cache, k);
    CacheChange(s, BeginBorrow(s, k).0);
  }

  lemma EndBorrowKeepsInv(s: Source, k: Key, policy: Policy, now: nat)
    requires SourceInv(s)
    ensures SourceInv(Returned(s, k, policy, now)) && SameLoads(s, Returned(s, k, policy, now))
  {
    hide CacheInv, LoadsInv, ArchiveInv, Enforce, Return;
    ReleaseKeepsInv(s.cache, k);
    EnforceKeepsPolicy(Return(s.cache, k), policy, now);
    CacheChange(s, Returned(s, k, policy, now));
  }
}
