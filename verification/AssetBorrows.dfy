/** Native handles and the borrows behind them: the asset cache of one generation run
    together with the lease protocol, whose first acquisition of a blob and whose last
    release of it call beginNativeBorrow and endNativeBorrow. */
module AssetBorrows {
  import opened Options
  import opened AssetModel
  import opened AssetSafety
  import opened AssetPolicy
  import opened AssetLoads
  import Opens = AssetRuns
  import Anchors = AssetAnchors
  import Flights = AssetFlights
  import Maps = AssetMappings
  import Pool = LeaseModel
  import Lease = LeaseRuns
  import LeaseSafety
  import LeaseTheorems

  // ------------------------------------------------------------ the joint run

  type Tid = nat

  /** `here` maps the pin records that this cache counts to the blob each is for. */
  datatype Joint = Joint(cache: Opens.World, lease: Lease.World, here: map<nat, Key>)

  /** `Begin` is beginNativeBorrow on this cache and `End` endNativeBorrow; `OpenStep` is any
      other section of the cache, and `LeaseStep` of the leases: it may count the borrow in the
      cache of another generation, or in none.  Only this cache adopts and releases the mappings
      of its blobs, and no file is mapped at the address of one. */
  datatype Act =
    | OpenStep(a: Opens.Action)
    | LeaseStep(b: Lease.Action)
    | Begin(t: Tid)
    | End(t: Tid, policy: Policy, now: nat)

  function Blobs(w: Opens.World): set<Key> { w.src.cache.blobs.Keys }

  /** The leases after a section of the cache took `w` to `u`: the mappings of the blobs that
      left are released and those of the blobs that came are adopted. */
  ghost function Led(l: Lease.World, w: Opens.World, u: Opens.World): Lease.World {
    l.(pool := Maps.Follow(l.pool, Blobs(w), Blobs(u)))
  }

  predicate Enabled(j: Joint, x: Act) {
    match x
    case OpenStep(a) => Opens.Enabled(j.cache, a) && !a.Borrowing? && !a.Returning?
    case LeaseStep(b) =>
      && Lease.Enabled(j.lease, b) && !(b.EndBorrow? && j.lease.threads[b.t].record in j.here)
      && (b.Map? || b.AdoptIt? || b.Evict? ==> b.k !in Blobs(j.cache))
    case Begin(t) =>
      && Lease.Enabled(j.lease, Lease.Borrowed(t, true)) && j.lease.threads[t].first
      && Lease.RecordOf(j.lease, j.lease.threads[t].b).Some?
    case End(t, _, _) =>
      && Lease.Enabled(j.lease, Lease.EndBorrow(t)) && j.lease.threads[t].tracked && j.lease.threads[t].record in j.here
  }

  ghost function DoBegin(j: Joint, t: Tid): Joint
    requires Enabled(j, Begin(t)) && CacheInv(j.cache.src.cache)
  {
    var b := j.lease.threads[t].b;
    var k, r := j.lease.loans[b].key, Lease.RecordOf(j.lease, b).value;
    var ok := BeginBorrow(j.cache.src, k).1;
    Joint(Opens.Do(j.cache, Opens.Borrowing(k)), Lease.Do(j.lease, Lease.Borrowed(t, ok)),
          if ok then j.here[r := k] else j.here)
  }

  ghost function DoEnd(j: Joint, t: Tid, policy: Policy, now: nat): Joint
    requires Enabled(j, End(t, policy, now)) && CacheInv(j.cache.src.cache)
  {
    var pc := j.lease.threads[t];
    var u := Opens.Do(j.cache, Opens.Returning(pc.k, policy, now));
    Joint(u, Led(Lease.Do(j.lease, Lease.EndBorrow(t)), j.cache, u), j.here - {pc.record})
  }

  ghost function Do(j: Joint, x: Act): Joint
    requires Enabled(j, x) && CacheInv(j.cache.src.cache)
  {
    match x
    case OpenStep(a) =>
      var u := Opens.Do(j.cache, a);
      j.(cache := u, lease := Led(j.lease, j.cache, u))
    case LeaseStep(b) => j.(lease := Lease.Do(j.lease, b))
    case Begin(t) => DoBegin(j, t)
    case End(t, policy, now) => DoEnd(j, t, policy, now)
  }

  // ----------------------------------------------- the blob of a counted record

  /** The blob whose native handle pin record `r` answers for. */
  function KeyAt(l: Lease.World, r: nat): Option<Key> {
    if r !in l.claims then None
    else
      match l.claims[r]
      case Undecided(_) => None
      case Begun(t) =>
        if t < |l.threads| && l.threads[t].Claimed? && l.threads[t].b in l.loans
        then Some(l.loans[l.threads[t].b].key) else None
      case Tracked(k) => Some(k)
      case Closing(t) => if t < |l.threads| && l.threads[t].Ending? then Some(l.threads[t].k) else None
  }

  /** What thread `u` and its borrow say about a claim stays as it is. */
  ghost predicate Untouched(l: Lease.World, v: Lease.World, u: Tid) {
    && u < |l.threads| && u < |v.threads| && v.threads[u] == l.threads[u]
    && (l.threads[u].Claimed? && l.threads[u].b in l.loans ==>
          l.threads[u].b in v.loans && v.loans[l.threads[u].b].key == l.loans[l.threads[u].b].key)
  }

  lemma SameClaimSameKey(l: Lease.World, v: Lease.World, r: nat)
    requires KeyAt(l, r).Some? && r in v.claims && v.claims[r] == l.claims[r]
    requires l.claims[r].Begun? || l.claims[r].Closing? ==> Untouched(l, v, l.claims[r].t)
    ensures KeyAt(v, r) == KeyAt(l, r)
  {
  }

  /** The steps that make claims or settle them. */
  predicate Claims(b: Lease.Action) { b.Take? || b.Borrowed? || b.Commit? || b.Finish? || b.EndBorrow? }

  lemma OtherClaims(l: Lease.World, b: Lease.Action)
    requires Lease.Enabled(l, b) && !Claims(b)
    ensures Lease.Do(l, b).claims == l.claims
  {
    hide Pool.Track, Pool.Release, Pool.Register, Pool.Fire, Lease.RecordOf, Pool.ReleasePin;
  }

  lemma OtherThreads(l: Lease.World, b: Lease.Action, u: Tid)
    requires Lease.Enabled(l, b) && !Claims(b) && u < |l.threads| && (l.threads[u].Claimed? || l.threads[u].Ending?)
    ensures u < |Lease.Do(l, b).threads| && Lease.Do(l, b).threads[u] == l.threads[u]
  {
    hide Pool.Track, Pool.Release, Pool.Register, Pool.Fire, Lease.RecordOf, Pool.ReleasePin;
  }

  lemma OtherLoans(l: Lease.World, b: Lease.Action, c: Lease.Borrow)
    requires Lease.Enabled(l, b) && !Claims(b) && c in l.loans
    ensures c in Lease.Do(l, b).loans && Lease.Do(l, b).loans[c].key == l.loans[c].key
  {
    hide Pool.Track, Pool.Release, Pool.Register, Pool.Fire, Lease.RecordOf, Pool.ReleasePin;
  }

  lemma OtherKeepsKey(l: Lease.World, b: Lease.Action, r: nat)
    requires Lease.Enabled(l, b) && !Claims(b) && KeyAt(l, r).Some?
    ensures KeyAt(Lease.Do(l, b), r) == KeyAt(l, r)
  {
    hide Lease.Do, Lease.Enabled;
    OtherClaims(l, b);
    if l.claims[r].Begun? || l.claims[r].Closing? {
      var u := l.claims[r].t;
      OtherThreads(l, b, u);
      if l.claims[r].Begun? { OtherLoans(l, b, l.threads[u].b); }
    }
    SameClaimSameKey(l, Lease.Do(l, b), r);
  }

  lemma TakeKeepsKey(l: Lease.World, t: Tid, k: Key, len: nat, r: nat)
    requires Lease.Inv(l) && Lease.Enabled(l, Lease.Take(t, k, len)) && KeyAt(l, r).Some?
    ensures KeyAt(Lease.DoTake(l, t, k, len), r) == KeyAt(l, r)
  {
    LeaseSafety.FreshBorrow(l);
    LeaseSafety.FreshClaim(l);
    hide Lease.Inv, Pool.Acquire;
    SameClaimSameKey(l, Lease.DoTake(l, t, k, len), r);
  }

  lemma BorrowedKeepsKey(l: Lease.World, t: Tid, ok: bool, r: nat)
    requires Lease.Inv(l) && Lease.Enabled(l, Lease.Borrowed(t, ok)) && KeyAt(l, r).Some?
    ensures KeyAt(Lease.DoBorrowed(l, t, ok), r) == KeyAt(l, r)
  {
    assert Lease.ClaimThread(l, t);
    hide Lease.Inv;
    SameClaimSameKey(l, Lease.DoBorrowed(l, t, ok), r);
  }

  lemma CommitKeepsKey(l: Lease.World, t: Tid, r: nat)
    requires Lease.Inv(l) && Lease.Enabled(l, Lease.Commit(t)) && KeyAt(l, r).Some?
    ensures KeyAt(Lease.DoCommit(l, t), r) == KeyAt(l, r)
  {
    assert Lease.ClaimThread(l, t) && Lease.ClaimOk(l, r);
    hide Lease.Inv, Pool.Track;
    if r != l.threads[t].record { SameClaimSameKey(l, Lease.DoCommit(l, t), r); }
  }

  /** The last release of a record goes on with the blob it was counted for. */
  lemma FinishKeepsTracked(l: Lease.World, t: Tid, r: nat)
    requires Lease.Inv(l) && Lease.Enabled(l, Lease.Finish(t)) && r in l.claims && l.claims[r].Tracked?
    ensures KeyAt(Lease.DoFinish(l, t), r) == KeyAt(l, r)
  {
    LeaseSafety.FinishShape(l, t);
    assert Lease.PinClaim(l, l.loans[l.threads[t].b].key);
    hide Lease.Inv, Lease.DoFinish, Pool.Release;
  }

  lemma FinishKeepsOthers(l: Lease.World, t: Tid, r: nat)
    requires Lease.Inv(l) && Lease.Enabled(l, Lease.Finish(t)) && KeyAt(l, r).Some? && !l.claims[r].Tracked?
    ensures KeyAt(Lease.DoFinish(l, t), r) == KeyAt(l, r)
  {
    LeaseSafety.FinishShape(l, t);
    assert Lease.LoanThread(l, t) && Lease.PinClaim(l, l.loans[l.threads[t].b].key);
    if l.claims[r].Begun? { assert Lease.LoanThread(l, l.claims[r].t); }
    hide Lease.Inv, Lease.DoFinish, Pool.Release;
    SameClaimSameKey(l, Lease.DoFinish(l, t), r);
  }

  /** The last release of a record goes on with the blob it was counted for. */
  lemma FinishKeepsKey(l: Lease.World, t: Tid, r: nat)
    requires Lease.Inv(l) && Lease.Enabled(l, Lease.Finish(t)) && KeyAt(l, r).Some?
    ensures KeyAt(Lease.DoFinish(l, t), r) == KeyAt(l, r)
  {
    hide Lease.Inv, Lease.DoFinish;
    if l.claims[r].Tracked? { FinishKeepsTracked(l, t, r); } else { FinishKeepsOthers(l, t, r); }
  }

  lemma EndKeepsKey(l: Lease.World, t: Tid, r: nat)
    requires Lease.Inv(l) && Lease.Enabled(l, Lease.EndBorrow(t)) && KeyAt(l, r).Some? && r != l.threads[t].record
    ensures KeyAt(Lease.DoEnd(l, t), r) == KeyAt(l, r)
  {
    assert Lease.ClaimThread(l, t) && Lease.ClaimOk(l, r);
    hide Lease.Inv;
    SameClaimSameKey(l, Lease.DoEnd(l, t), r);
  }

  lemma KeyStays(l: Lease.World, b: Lease.Action, r: nat)
    requires Lease.Inv(l) && Lease.Enabled(l, b) && KeyAt(l, r).Some?
    requires b.EndBorrow? ==> l.threads[b.t].record != r
    ensures KeyAt(Lease.Do(l, b), r) == KeyAt(l, r)
  {
    hide Lease.Inv, Lease.DoTake, Lease.DoBorrowed, Lease.DoCommit, Lease.DoFinish, Lease.DoEnd;
    match b
    case Take(t, k, len) => TakeKeepsKey(l, t, k, len, r);
    case Borrowed(t, ok) => BorrowedKeepsKey(l, t, ok, r);
    case Commit(t) => CommitKeepsKey(l, t, r);
    case Finish(t) => FinishKeepsKey(l, t, r);
    case EndBorrow(t) => EndKeepsKey(l, t, r);
    case _ => OtherKeepsKey(l, b, r);
  }

  // ------------------------------------------------------------------ invariant

  /** The counted records that are for blob `k`. */
  ghost function For(here: map<nat, Key>, k: Key): set<nat> { set r | r in here && here[r] == k }

  lemma ForPut(here: map<nat, Key>, r: nat, k: Key, x: Key)
    requires r !in here
    ensures |For(here[r := k], x)| == |For(here, x)| + if x == k then 1 else 0
  {
    assert For(here[r := k], x) == if x == k then For(here, x) + {r} else For(here, x);
  }

  lemma ForTake(here: map<nat, Key>, r: nat, x: Key)
    requires r in here
    ensures |For(here - {r}, x)| == |For(here, x)| - if x == here[r] then 1 else 0
  {
    assert For(here - {r}, x) == if x == here[r] then For(here, x) - {r} else For(here, x);
  }

  ghost predicate Counted(l: Lease.World, here: map<nat, Key>) { forall r | r in here :: KeyAt(l, r) == Some(here[r]) }

  /** Each blob of a generation that is not over has one handle for each counted record. */
  ghost predicate Account(s: Source, here: map<nat, Key>) {
    !Flights.Over(s) ==> forall k :: Flights.Handles(s.cache, k) == |For(here, k)|
  }

  ghost predicate Inv(j: Joint) {
    && Flights.Guarded(j.cache) && Lease.Inv(j.lease) && Counted(j.lease, j.here) && Account(j.cache.src, j.here)
    && Maps.Adopted(Blobs(j.cache), j.lease.pool)
  }

  lemma LedKeeps(l: Lease.World, w: Opens.World, u: Opens.World, here: map<nat, Key>)
    requires Lease.Inv(l) && Counted(l, here) && Maps.Adopted(Blobs(w), l.pool)
    ensures var v := Led(l, w, u); Lease.Inv(v) && Counted(v, here) && Maps.Adopted(Blobs(u), v.pool)
    ensures forall k | k in Blobs(w) && k in Blobs(u) && k in l.pool.mapped ::
      LeaseTheorems.StaysCached(l.pool, Led(l, w, u).pool, k)
  {
    Maps.FollowKeeps(l, Blobs(w), Blobs(u));
    LedKeys(l, w, u, here);
    hide Lease.Inv, Maps.Follow, Maps.Adopted, Counted;
  }

  lemma LedKeys(l: Lease.World, w: Opens.World, u: Opens.World, here: map<nat, Key>)
    requires Counted(l, here)
    ensures Counted(Led(l, w, u), here)
  {
    hide Maps.Follow;
    forall r | r in here ensures KeyAt(Led(l, w, u), r) == Some(here[r]) { assert KeyAt(l, r) == Some(here[r]); }
  }

  /** A generation that is over stays over. */
  lemma OverStays(w: Opens.World, a: Opens.Action)
    requires Opens.WorldInv(w) && Opens.Enabled(w, a) && Flights.Over(w.src)
    ensures Flights.Over(Opens.Do(w, a).src)
  {
    assert CacheInv(w.src.cache);
    Opens.NoLeaderNoLoad(w);
    Opens.RetiredStep(w, a);
    Opens.StepKeepsInv(w, a);
    forall t | 0 <= t < |Opens.Do(w, a).threads| ensures !Opens.Do(w, a).threads[t].Leading? {
      Opens.SameThreads(w, a);
      Opens.NoNewLeader(w, a, t);
    }
    Opens.NoLeaderNoLoad(Opens.Do(w, a));
    hide Opens.WorldInv, CacheInv, Opens.Do, Opens.Enabled;
  }

  lemma OpenKeepsAccount(w: Opens.World, a: Opens.Action, here: map<nat, Key>)
    requires Flights.Guarded(w) && Opens.Enabled(w, a) && !Flights.Handling(a) && Account(w.src, here)
    ensures Account(Opens.Do(w, a).src, here)
  {
    assert CacheInv(w.src.cache);
    if Flights.Over(w.src) { OverStays(w, a); }
    Flights.SectionFlies(w, a);
    hide Opens.WorldInv, Anchors.Anchored, Flights.FlightsOk, CacheInv, Opens.Do, Opens.Enabled, Flights.Over;
  }

  lemma BeginKeepsAccount(s: Source, here: map<nat, Key>, record: nat, k: Key)
    requires Account(s, here) && record !in here
    ensures var (u, ok) := BeginBorrow(s, k); Account(u, if ok then here[record := k] else here)
  {
    Flights.BorrowIs(s, k);
    forall x ensures |For(here[record := k], x)| == |For(here, x)| + if x == k then 1 else 0 {
      ForPut(here, record, k, x);
    }
    assert Flights.Over(BeginBorrow(s, k).0) == Flights.Over(s);
    hide BeginBorrow, Flights.Handles, Flights.Flying, Flights.Over;
  }

  lemma EndKeepsAccount(s: Source, here: map<nat, Key>, record: nat, policy: Policy, now: nat)
    requires CacheInv(s.cache) && Account(s, here) && record in here
    ensures Account(Returned(s, here[record], policy, now), here - {record})
  {
    var k := here[record];
    Flights.ReturnedIs(s, k, policy, now);
    hide CacheInv, Returned, Flights.Handles, Flights.Over;
    if !Flights.Over(s) {
      assert record in For(here, k);
      forall x ensures |For(here - {record}, x)| == Flights.Fewer(s.cache, k, x) {
        ForTake(here, record, x);
        assert Flights.Handles(s.cache, x) == |For(here, x)|;
      }
    }
  }

  // ----------------------------------------------------------- beginning and ending

  lemma BeginCounts(l: Lease.World, t: Tid, ok: bool)
    requires Lease.Inv(l) && Lease.Enabled(l, Lease.Borrowed(t, ok)) && l.threads[t].first
    ensures var b := l.threads[t].b;
      && b in l.loans && Lease.RecordOf(l, b).Some? && KeyAt(l, Lease.RecordOf(l, b).value).None?
      && (ok ==> KeyAt(Lease.DoBorrowed(l, t, ok), Lease.RecordOf(l, b).value) == Some(l.loans[b].key))
  {
    assert Lease.ClaimThread(l, t);
    hide Lease.Inv;
  }

  lemma EndCounts(l: Lease.World, t: Tid)
    requires Lease.Inv(l) && Lease.Enabled(l, Lease.EndBorrow(t)) && l.threads[t].tracked
    ensures KeyAt(l, l.threads[t].record) == Some(l.threads[t].k)
  {
    assert Lease.ClaimThread(l, t);
    hide Lease.Inv;
  }

  lemma KeysStay(l: Lease.World, b: Lease.Action, here: map<nat, Key>)
    requires Lease.Inv(l) && Lease.Enabled(l, b) && Counted(l, here)
    requires b.EndBorrow? ==> l.threads[b.t].record !in here
    ensures Lease.Inv(Lease.Do(l, b)) && Counted(Lease.Do(l, b), here)
  {
    hide Lease.Inv, Lease.Do, Lease.Enabled, KeyAt;
    LeaseTheorems.StepKeepsInv(l, b);
    forall r | r in here ensures KeyAt(Lease.Do(l, b), r) == Some(here[r]) { KeyStays(l, b, r); }
  }

  lemma CacheStep(w: Opens.World, a: Opens.Action)
    requires Flights.Guarded(w) && Opens.Enabled(w, a)
    ensures CacheInv(w.src.cache) && Flights.Guarded(Opens.Do(w, a))
  {
    hide Opens.Enabled, Opens.Do, Flights.FlightsOk, CacheInv, Anchors.Anchored;
    Opens.StepKeepsInv(w, a);
    Anchors.StepKeepsAnchored(w, a);
    Flights.StepFlies(w, a);
  }

  lemma BeginShape(j: Joint, t: Tid)
    requires Enabled(j, Begin(t)) && CacheInv(j.cache.src.cache)
    ensures var v, b := Do(j, Begin(t)), j.lease.threads[t].b;
      var (u, ok) := BeginBorrow(j.cache.src, j.lease.loans[b].key);
      && v.cache == Opens.Do(j.cache, Opens.Borrowing(j.lease.loans[b].key)) && v.cache.src == u
      && v.lease == Lease.Do(j.lease, Lease.Borrowed(t, ok))
      && v.here == if ok then j.here[Lease.RecordOf(j.lease, b).value := j.lease.loans[b].key] else j.here
  {
    hide CacheInv, BeginBorrow, Lease.DoBorrowed;
  }

  lemma EndShape(j: Joint, t: Tid, policy: Policy, now: nat)
    requires Enabled(j, End(t, policy, now)) && CacheInv(j.cache.src.cache)
    ensures var v, pc := Do(j, End(t, policy, now)), j.lease.threads[t];
      && v.cache == Opens.Do(j.cache, Opens.Returning(pc.k, policy, now))
      && v.cache.src == Returned(j.cache.src, pc.k, policy, now)
      && v.lease == Led(Lease.Do(j.lease, Lease.EndBorrow(t)), j.cache, v.cache) && v.here == j.here - {pc.record}
  {
    hide CacheInv, Returned, Lease.DoEnd, Led;
  }

  lemma BeginKeepsCounted(l: Lease.World, t: Tid, ok: bool, here: map<nat, Key>)
    requires Lease.Inv(l) && Lease.Enabled(l, Lease.Borrowed(t, ok)) && l.threads[t].first && Counted(l, here)
    ensures var b := l.threads[t].b;
      && b in l.loans && Lease.RecordOf(l, b).Some? && Lease.RecordOf(l, b).value !in here
      && var v := Lease.Do(l, Lease.Borrowed(t, ok));
         Lease.Inv(v) && Counted(v, if ok then here[Lease.RecordOf(l, b).value := l.loans[b].key] else here)
  {
    BeginCounts(l, t, ok);
    KeysStay(l, Lease.Borrowed(t, ok), here);
    hide Lease.Inv, Lease.DoBorrowed, KeyAt;
  }

  lemma BeginKeepsInv(j: Joint, t: Tid)
    requires Inv(j) && Enabled(j, Begin(t))
    ensures Inv(Do(j, Begin(t)))
  {
    hide Flights.Guarded, Lease.Inv, CacheInv, BeginBorrow, Lease.Do, Opens.Do, Do, Counted, Account;
    var b := j.lease.threads[t].b;
    var k := j.lease.loans[b].key;
    CacheStep(j.cache, Opens.Borrowing(k));
    BeginKeepsCounted(j.lease, t, BeginBorrow(j.cache.src, k).1, j.here);
    BeginKeepsAccount(j.cache.src, j.here, Lease.RecordOf(j.lease, b).value, k);
    Flights.BorrowIs(j.cache.src, k);
    Maps.StepKeepsAdopted(j.lease, Lease.Borrowed(t, BeginBorrow(j.cache.src, k).1), Blobs(j.cache));
    BeginShape(j, t);
  }

  lemma EndKeepsCounted(l: Lease.World, t: Tid, here: map<nat, Key>)
    requires Lease.Inv(l) && Lease.Enabled(l, Lease.EndBorrow(t)) && l.threads[t].tracked && Counted(l, here)
    ensures l.threads[t].record in here ==> here[l.threads[t].record] == l.threads[t].k
    ensures var v := Lease.Do(l, Lease.EndBorrow(t)); Lease.Inv(v) && Counted(v, here - {l.threads[t].record})
  {
    EndCounts(l, t);
    KeysStay(l, Lease.EndBorrow(t), here - {l.threads[t].record});
    hide Lease.Inv, Lease.DoEnd, KeyAt;
  }

  lemma EndKeepsInv(j: Joint, t: Tid, policy: Policy, now: nat)
    requires Inv(j) && Enabled(j, End(t, policy, now))
    ensures Inv(Do(j, End(t, policy, now)))
  {
    hide Flights.Guarded, Lease.Inv, CacheInv, Returned, Lease.Do, Opens.Do, Do, Counted, Account, Maps.Adopted, Led;
    CacheStep(j.cache, Opens.Returning(j.lease.threads[t].k, policy, now));
    EndKeepsCounted(j.lease, t, j.here);
    EndKeepsAccount(j.cache.src, j.here, j.lease.threads[t].record, policy, now);
    EndShape(j, t, policy, now);
    Maps.StepKeepsAdopted(j.lease, Lease.EndBorrow(t), Blobs(j.cache));
    LedKeeps(Lease.Do(j.lease, Lease.EndBorrow(t)), j.cache, Do(j, End(t, policy, now)).cache,
             j.here - {j.lease.threads[t].record});
  }

  lemma OpenKeepsInv(j: Joint, a: Opens.Action)
    requires Inv(j) && Enabled(j, OpenStep(a))
    ensures Inv(Do(j, OpenStep(a)))
  {
    hide Flights.Guarded, Lease.Inv, CacheInv, Opens.Do, Counted, Account, Maps.Adopted, Led;
    CacheStep(j.cache, a);
    OpenKeepsAccount(j.cache, a, j.here);
    LedKeeps(j.lease, j.cache, Opens.Do(j.cache, a), j.here);
  }

  lemma StepKeepsInv(j: Joint, x: Act)
    requires Inv(j) && Enabled(j, x)
    ensures CacheInv(j.cache.src.cache) && Inv(Do(j, x))
  {
    assert CacheInv(j.cache.src.cache);
    hide CacheInv;
    match x
    case OpenStep(a) => OpenKeepsInv(j, a);
    case LeaseStep(b) =>
      KeysStay(j.lease, b, j.here);
      Maps.StepKeepsAdopted(j.lease, b, Blobs(j.cache));
      hide Flights.Guarded, Lease.Inv, Lease.Do, Counted, Account, Maps.Adopted;
    case Begin(t) => BeginKeepsInv(j, t);
    case End(t, policy, now) => EndKeepsInv(j, t, policy, now);
  }

  // ------------------------------------------------------------------------ runs

  function Start(threads: nat, clients: nat, objects: set<Key>): Joint {
    Joint(Opens.Start(threads), Lease.Start(clients, objects), map[])
  }

  ghost predicate Run(j: Joint, trace: seq<Act>, v: Joint)
    decreases |trace|
  {
    if trace == [] then j == v
    else Enabled(j, trace[0]) && CacheInv(j.cache.src.cache) && Run(Do(j, trace[0]), trace[1..], v)
  }

  lemma {:induction false} RunKeepsInv(j: Joint, trace: seq<Act>, v: Joint)
    requires Inv(j) && Run(j, trace, v)
    ensures Inv(v)
    decreases |trace|
  {
    hide Inv, Do, Enabled, CacheInv;
    if trace == [] {
    } else {
      StepKeepsInv(j, trace[0]);
      RunKeepsInv(Do(j, trace[0]), trace[1..], v);
    }
  }

  lemma StartInv(threads: nat, clients: nat, objects: set<Key>)
    ensures Inv(Start(threads, clients, objects))
  {
    Flights.StartIsGuarded(threads);
    Lease.StartInv(clients, objects);
    hide Flights.Guarded, Lease.Inv;
    assert forall k :: For(map[], k) == {};
  }

  /** Until the generation is over a blob has exactly one handle for each borrow counted for it,
      and each of those is live or has its last close under way. */
  lemma HandlesAreBorrows(threads: nat, clients: nat, objects: set<Key>, trace: seq<Act>, j: Joint, k: Key)
    requires Run(Start(threads, clients, objects), trace, j)
    ensures Flights.Handles(j.cache.src.cache, k) == if Flights.Over(j.cache.src) then 0 else |For(j.here, k)|
    ensures forall r | r in For(j.here, k) :: r in j.lease.claims && KeyAt(j.lease, r) == Some(k)
  {
    StartInv(threads, clients, objects);
    RunKeepsInv(Start(threads, clients, objects), trace, j);
    if Flights.Over(j.cache.src) { Flights.OverHasNoFlights(j.cache); }
    hide Run, Opens.WorldInv, Lease.Inv, Anchors.Anchored;
  }

  /** While a generation is not over every borrowed blob is cached, is no candidate for eviction,
      and has as many native handles as there are borrows counted for it; if it is mapped, its
      mapping is marked as the cache's. */
  lemma BorrowsAreProtected(threads: nat, clients: nat, objects: set<Key>, trace: seq<Act>, j: Joint, r: nat)
    requires Run(Start(threads, clients, objects), trace, j) && !Flights.Over(j.cache.src) && r in j.here
    ensures var k, c := j.here[r], j.cache.src.cache;
      && KeyAt(j.lease, r) == Some(k)
      && k in c.blobs && c.blobs[k].handles == |For(j.here, k)| > 0 && k !in c.lru
      && (k in j.lease.pool.mapped ==> j.lease.pool.mapped[k].cached)
  {
    StartInv(threads, clients, objects);
    RunKeepsInv(Start(threads, clients, objects), trace, j);
    assert LruInv(j.cache.src.cache.lru, j.cache.src.cache.blobs);
    hide Run, Flights.Guarded, Lease.Inv, Flights.Over;
    assert r in For(j.here, j.here[r]);
    assert Flights.Handles(j.cache.src.cache, j.here[r]) == |For(j.here, j.here[r])|;
  }

  lemma BeginKeepsMapping(j: Joint, t: Tid, k: Key)
    requires Inv(j) && Enabled(j, Begin(t)) && CacheInv(j.cache.src.cache) && k in Blobs(j.cache)
    requires k in j.lease.pool.mapped
    ensures LeaseTheorems.StaysCached(j.lease.pool, Do(j, Begin(t)).lease.pool, k)
  {
    hide Flights.Guarded, Lease.Inv, CacheInv, Opens.Do, Lease.Do, Counted, Account, BeginBorrow, Do;
    BeginShape(j, t);
    var ok := BeginBorrow(j.cache.src, j.lease.loans[j.lease.threads[t].b].key).1;
    Maps.StepKeepsAdopted(j.lease, Lease.Borrowed(t, ok), Blobs(j.cache));
  }

  lemma EndKeepsMapping(j: Joint, t: Tid, policy: Policy, now: nat, k: Key)
    requires Inv(j) && Enabled(j, End(t, policy, now)) && CacheInv(j.cache.src.cache)
    requires k in Blobs(j.cache) && k in Blobs(Do(j, End(t, policy, now)).cache) && k in j.lease.pool.mapped
    ensures LeaseTheorems.StaysCached(j.lease.pool, Do(j, End(t, policy, now)).lease.pool, k)
  {
    hide Flights.Guarded, Lease.Inv, CacheInv, Opens.Do, Lease.Do, Counted, Account, Do, Led, Maps.Adopted;
    EndShape(j, t, policy, now);
    EndKeepsCounted(j.lease, t, j.here);
    Maps.StepKeepsAdopted(j.lease, Lease.EndBorrow(t), Blobs(j.cache));
    LedKeeps(Lease.Do(j.lease, Lease.EndBorrow(t)), j.cache, Do(j, End(t, policy, now)).cache,
             j.here - {j.lease.threads[t].record});
  }

  /** While a blob stays cached its mapping is neither given back nor exchanged for another. */
  lemma CachedMappingStays(j: Joint, x: Act, k: Key)
    requires Inv(j) && Enabled(j, x) && CacheInv(j.cache.src.cache)
    requires k in Blobs(j.cache) && k in Blobs(Do(j, x).cache) && k in j.lease.pool.mapped
    ensures LeaseTheorems.StaysCached(j.lease.pool, Do(j, x).lease.pool, k)
  {
    hide Flights.Guarded, Lease.Inv, CacheInv, Opens.Do, Lease.Do, Counted, Account, DoBegin, DoEnd, Led;
    match x
    case OpenStep(a) => LedKeeps(j.lease, j.cache, Opens.Do(j.cache, a), j.here);
    case LeaseStep(b) => Maps.StepKeepsAdopted(j.lease, b, Blobs(j.cache));
    case Begin(t) => BeginKeepsMapping(j, t, k);
    case End(t, policy, now) => EndKeepsMapping(j, t, policy, now, k);
  }

  /** When every asset is closed and every close over, and no load runs, nothing in the cache
      is protected: all of it is in the LRU, and the next enforcement meets the budget. */
  lemma ClosedIsEvictable(threads: nat, clients: nat, objects: set<Key>, trace: seq<Act>, j: Joint, policy: Policy,
      now: nat)
    requires Run(Start(threads, clients, objects), trace, j)
    requires LeaseTheorems.AtRest(j.lease) && Opens.NoLeader(j.cache)
    ensures var c := j.cache.src.cache;
      && CacheInv(c) && (forall k | k in c.blobs :: !Protected(c.blobs[k]) && k in c.lru)
      && Enforce(c, policy, now).bytes <= policy.budget
  {
    StartInv(threads, clients, objects);
    RunKeepsInv(Start(threads, clients, objects), trace, j);
    Flights.RestUnprotected(j.cache);
    LeaseTheorems.RestIsEmpty(j.lease);
    NoneCounted(j);
    assert CacheInv(j.cache.src.cache);
    hide Run, Flights.Guarded, Lease.Inv, Opens.NoLeader, LeaseTheorems.AtRest;
    UnprotectedMeetsBudget(j.cache.src.cache, policy, now);
  }

  lemma CountedAreClaims(l: Lease.World, here: map<nat, Key>)
    requires Counted(l, here)
    ensures here.Keys <= l.claims.Keys
  {
    forall r | r in here ensures r in l.claims { assert KeyAt(l, r) == Some(here[r]); }
  }

  lemma NoneCounted(j: Joint)
    requires Inv(j) && j.lease.claims == map[]
    ensures forall k | k in j.cache.src.cache.blobs :: j.cache.src.cache.blobs[k].handles == 0
  {
    CountedAreClaims(j.lease, j.here);
    if Flights.Over(j.cache.src) { Flights.OverHasNoFlights(j.cache); }
    hide Flights.Guarded, Lease.Inv, Flights.Over;
    forall k | k in j.cache.src.cache.blobs ensures j.cache.src.cache.blobs[k].handles == 0 {
      assert For(j.here, k) == {};
      assert Flights.Handles(j.cache.src.cache, k) == j.cache.src.cache.blobs[k].handles;
    }
  }

  lemma UnprotectedMeetsBudget(c: Cache, policy: Policy, now: nat)
    requires CacheInv(c) && forall k | k in c.blobs :: !Protected(c.blobs[k])
    ensures (forall k | k in c.blobs :: k in c.lru) && Enforce(c, policy, now).bytes <= policy.budget
  {
    EnforceKeepsPolicy(c, policy, now);
    Flights.EnforceBlobs(c, policy, now);
    var r := Enforce(c, policy, now);
    hide Enforce, AliasInv, NegativeInv;
    if r.blobs != map[] {
      var k :| k in r.blobs;
      assert !Protected(r.blobs[k]);
    }
  }
}
