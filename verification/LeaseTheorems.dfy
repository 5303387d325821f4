/** What holds over every run of the lease protocol. */
module LeaseTheorems {
  import opened Options
  import opened LeaseModel
  import opened LeaseRuns
  import opened LeaseSafety

  lemma StepKeepsInv(w: World, a: Action)
    requires Inv(w) && Enabled(w, a)
    ensures Inv(Do(w, a))
  {
    hide Inv, DoTake, DoBorrowed, DoCommit, DoEnlist, DoConstruct, DoClose, DoFire, DoFinish, DoEnd, DoUnpin;
    match a
    case Map(k) => MapKeepsInv(w, k);
    case AdoptIt(k) => CacheStepKeepsInv(w, k);
    case Evict(k) => CacheStepKeepsInv(w, k);
    case DiscardIt(k) => CacheStepKeepsInv(w, k);
    case Take(t, k, len) => TakeKeepsInv(w, t, k, len);
    case Borrowed(t, ok) => BorrowedKeepsInv(w, t, ok);
    case Commit(t) => CommitKeepsInv(w, t);
    case Enlist(t) => EnlistKeepsInv(w, t);
    case Construct(t, ok) => ConstructKeepsInv(w, t, ok);
    case Close(t, a) => CloseKeepsInv(w, t, a);
    case FireIt(t) => FireKeepsInv(w, t);
    case Finish(t) => FinishKeepsInv(w, t);
    case EndBorrow(t) => EndKeepsInv(w, t);
    case Unpin(t) => UnpinKeepsInv(w, t);
  }

  ghost predicate Run(w: World, trace: seq<Action>, v: World)
    decreases |trace|
  {
    if trace == [] then w == v
    else Enabled(w, trace[0]) && Run(Do(w, trace[0]), trace[1..], v)
  }

  lemma {:induction false} RunKeepsInv(w: World, trace: seq<Action>, v: World)
    requires Inv(w) && Run(w, trace, v)
    ensures Inv(v)
    decreases |trace|
  {
    hide Inv, Do, Enabled;
    if trace == [] {
    } else {
      StepKeepsInv(w, trace[0]);
      RunKeepsInv(Do(w, trace[0]), trace[1..], v);
    }
  }

  // ------------------------------------------------------------------ conservation

  /** The handle count is the number of borrows acquired and not yet released, which is
      the sum of the handles of the pins; each pin has one handle for each borrow of its
      blob, and each mapping one pin for each claim on it. */
  lemma HandlesConserved(threads: nat, objects: set<Key>, trace: seq<Action>, w: World, k: Key)
    requires Run(Start(threads, objects), trace, w)
    ensures w.pool.totals == Totals(Sum(Handles, w.pool.pins), Sum(Blobs, w.pool.pins), Sum(Bytes, w.pool.pins))
    ensures w.pool.totals.handles == |w.loans|
    ensures if k in w.pool.pins then w.pool.pins[k].handles == Count(w.loans, k) > 0 else Count(w.loans, k) == 0
    ensures k in w.pool.mapped ==> w.pool.mapped[k].pins == Count(w.holds, k)
  {
    hide Run, TokensInv, HoldsInv, ClaimsInv;
    StartInv(threads, objects);
    RunKeepsInv(Start(threads, objects), trace, w);
    if k in w.pool.pins { assert PinCount(w, k); } else { UnpinnedCount(w, k); }
    if k in w.pool.mapped { assert MappedOk(w, k); }
  }

  // ---------------------------------------------------------------------- mappings

  /** No mapping is given back twice, and none that a live borrow reads from. */
  lemma BorrowedStaysMapped(threads: nat, objects: set<Key>, trace: seq<Action>, w: World)
    requires Run(Start(threads, objects), trace, w)
    ensures NoDup(w.pool.unmapped)
    ensures forall b | b in w.loans && w.loans[b].mapping.Some? ::
      && w.loans[b].key in w.pool.mapped && w.pool.mapped[w.loans[b].key].id == w.loans[b].mapping.value
      && w.loans[b].mapping.value !in w.pool.unmapped && w.pool.mapped[w.loans[b].key].pins > 0
  {
    hide Run, TokensInv, ClaimsInv;
    StartInv(threads, objects);
    RunKeepsInv(Start(threads, objects), trace, w);
    forall b | b in w.loans && w.loans[b].mapping.Some?
      ensures w.loans[b].key in w.pool.mapped && w.pool.mapped[w.loans[b].key].id == w.loans[b].mapping.value
      ensures w.loans[b].mapping.value !in w.pool.unmapped && w.pool.mapped[w.loans[b].key].pins > 0
    {
      assert LoanMapped(w, b);
      BorrowedIsPinned(w, b);
      assert MappedOk(w, w.loans[b].key);
    }
  }

  /** From `w` to `v` the mapping at `k` is given back, and no borrow reads from it. */
  ghost predicate GivenBack(w: World, v: World, k: Key) {
    && k in w.pool.mapped && v.pool.unmapped == w.pool.unmapped + [w.pool.mapped[k].id]
    && v.pool.mapped == w.pool.mapped - {k}
    && forall b | b in w.loans :: w.loans[b].key != k
  }

  lemma UnpinnedUnread(w: World, k: Key)
    requires Inv(w) && k in w.pool.mapped && w.pool.mapped[k].pins == 0
    ensures forall b | b in w.loans :: w.loans[b].key != k
  {
    hide LoansInv, HoldsInv, TokensInv, ClaimsInv, PoolInv;
    assert MappedOk(w, k);
    forall b | b in w.loans ensures w.loans[b].key != k {
      if w.loans[b].key !in w.objects { BorrowedIsPinned(w, b); }
    }
  }

  /** The cache gives a mapping back exactly when nothing pins it, and otherwise only lets
      go of it; a mapping is discarded exactly when nothing caches or pins it. */
  lemma CacheUnmaps(w: World, k: Key)
    requires Inv(w)
    ensures var v := w.(pool := ReleaseFromCache(w.pool, k));
      if k !in w.pool.mapped then v == w
      else if w.pool.mapped[k].pins == 0 then GivenBack(w, v, k)
      else v.pool.unmapped == w.pool.unmapped && v.pool.mapped == w.pool.mapped[k := w.pool.mapped[k].(cached := false)]
    ensures var v := w.(pool := Discard(w.pool, k));
      if k in w.pool.mapped && !w.pool.mapped[k].cached && w.pool.mapped[k].pins == 0 then GivenBack(w, v, k)
      else v == w
  {
    if k in w.pool.mapped { assert MappedOk(w, k); }
    if k in w.pool.mapped && w.pool.mapped[k].pins == 0 { UnpinnedUnread(w, k); }
    hide Inv;
  }

  /** A new mapping is one that never was there before, and nobody caches or pins it yet. */
  lemma MapIsNew(w: World, k: Key)
    requires Inv(w) && Enabled(w, Map(k))
    ensures var v := Do(w, Map(k));
      && k in v.pool.mapped && v.pool.mapped == w.pool.mapped[k := v.pool.mapped[k]]
      && !v.pool.mapped[k].cached && v.pool.mapped[k].pins == 0
      && v.pool.mapped[k].id !in w.pool.unmapped && v.pool.unmapped == w.pool.unmapped
      && forall j | j in w.pool.mapped :: w.pool.mapped[j].id != v.pool.mapped[k].id
  {
    forall j | j in w.pool.mapped ensures w.pool.mapped[j].id < w.pool.made { assert MappedOk(w, j); }
    hide LoansInv, TokensInv, HoldsInv, ClaimsInv;
  }

  /** Which steps touch the table of mappings. */
  lemma MappedStays(w: World, a: Action)
    requires Enabled(w, a) && !a.Take? && !a.Unpin? && !a.Map? && !a.AdoptIt? && !a.Evict? && !a.DiscardIt?
    ensures Do(w, a).pool.mapped == w.pool.mapped && Do(w, a).pool.unmapped == w.pool.unmapped
  {
    hide Track, Release, Register, Fire, RecordOf;
  }

  ghost predicate StaysCached(p: Pool, q: Pool, k: Key) {
    k in p.mapped && k in q.mapped && q.mapped[k].cached && q.mapped[k].id == p.mapped[k].id
  }

  lemma SectionsKeepCached(p: Pool, k: Key, j: Key, len: nat)
    requires k in p.mapped && k != 0
    ensures StaysCached(p, Adopt(p, k), k)
    ensures p.mapped[k].cached ==>
      && StaysCached(p, Adopt(p, j), k) && StaysCached(p, Acquire(p, j, len), k)
      && StaysCached(p, ReleasePin(p, j), k) && StaysCached(p, Discard(p, j), k)
      && (j != k ==> StaysCached(p, MapFile(p, j), k) && StaysCached(p, ReleaseFromCache(p, j), k))
  {
  }

  /** Once adopted a mapping stays, cached and with its pages, until the cache lets go. */
  lemma AdoptedStays(w: World, a: Action, k: Key)
    requires Inv(w) && Enabled(w, a) && k in w.pool.mapped && (w.pool.mapped[k].cached || a == AdoptIt(k))
    requires a != Evict(k)
    ensures StaysCached(w.pool, Do(w, a).pool, k)
  {
    assert MappedOk(w, k);
    hide Inv, Acquire, ReleasePin, MapFile, Adopt, ReleaseFromCache, Discard;
    if a.Take? {
      SectionsKeepCached(w.pool, k, a.k, a.len);
    } else if a.Unpin? {
      SectionsKeepCached(w.pool, k, w.threads[a.t].k, 0);
    } else {
      SectionsKeepCached(w.pool, k, if a.Map? || a.AdoptIt? || a.Evict? || a.DiscardIt? then a.k else 0, 0);
      if !(a.Map? || a.AdoptIt? || a.Evict? || a.DiscardIt?) { MappedStays(w, a); }
      hide DoBorrowed, DoCommit, DoEnlist, DoConstruct, DoClose, DoFire, DoFinish, DoEnd, DoTake, DoUnpin;
    }
  }

  /** A release gives a mapping back exactly when it gave up the last pin and the cache has
      let go of it. */
  lemma ReleaseUnmaps(w: World, t: Tid)
    requires Inv(w) && Enabled(w, Unpin(t))
    ensures var v, pc := DoUnpin(w, t), w.threads[t];
      if pc.mapped && pc.k in w.pool.mapped && w.pool.mapped[pc.k].pins == 1 && !w.pool.mapped[pc.k].cached
      then GivenBack(w, v, pc.k)
      else
        && v.pool.unmapped == w.pool.unmapped && v.pool.mapped.Keys == w.pool.mapped.Keys
        && forall j | j in w.pool.mapped ::
             && v.pool.mapped[j] == w.pool.mapped[j].(pins := v.pool.mapped[j].pins)
             && v.pool.mapped[j].pins == w.pool.mapped[j].pins - if pc.mapped && j == pc.k then 1 else 0
  {
    UnpinFacts(w, t);
    ReleasePinIs(w.pool, w.threads[t].k);
    var v, k := DoUnpin(w, t), w.threads[t].k;
    hide ReleasePin;
    if w.threads[t].mapped {
      HeldIsPinned(w, w.threads[t].record);
      UnpinMaps(w, w.threads[t].record);
      var u := w.(pool := ReleasePin(w.pool, k), holds := w.holds - {w.threads[t].record});
      assert MappedOk(w, k);
      hide LoansInv, HoldsInv, TokensInv, ClaimsInv, PoolInv;
      forall b | b in w.loans && k !in v.pool.mapped ensures w.loans[b].key != k { assert LoanMapped(u, b); }
    }
  }

  lemma ReleasePinIs(p: Pool, k: Key)
    ensures var q := ReleasePin(p, k);
      if k == 0 || k !in p.mapped || p.mapped[k].pins == 0 then q == p
      else if p.mapped[k].pins == 1 && !p.mapped[k].cached
        then q == p.(mapped := p.mapped - {k}, unmapped := p.unmapped + [p.mapped[k].id])
      else q == p.(mapped := p.mapped[k := p.mapped[k].(pins := p.mapped[k].pins - 1)])
  {
  }

  lemma OthersNeverUnmap(w: World, a: Action)
    requires Enabled(w, a) && !a.Evict? && !a.DiscardIt? && !a.Unpin?
    ensures Do(w, a).pool.unmapped == w.pool.unmapped
    ensures forall k | k in w.pool.mapped && a != Map(k) ::
      k in Do(w, a).pool.mapped && Do(w, a).pool.mapped[k].id == w.pool.mapped[k].id
  {
    hide Track, Release, Register, Fire, RecordOf;
    if a.Take? { assert Acquire(w.pool, a.k, a.len).unmapped == w.pool.unmapped; }
  }

  /** Data that is borrowed is held: a mapped blob by a claim on its mapping, Go data by a
      pin of its own exactly when it has bytes. */
  lemma BorrowedIsHeld(threads: nat, objects: set<Key>, trace: seq<Action>, w: World, b: Borrow)
    requires Run(Start(threads, objects), trace, w) && b in w.loans
    ensures var k := w.loans[b].key;
      && k in w.pool.pins
      && if k in objects then w.pool.pins[k].heap <==> w.pool.pins[k].bytes != 0
         else !w.pool.pins[k].heap && w.pool.pins[k].record in w.holds && w.holds[w.pool.pins[k].record].key == k
  {
    hide Run, TokensInv, ClaimsInv, MapsInv;
    StartInv(threads, objects);
    RunKeepsInv(Start(threads, objects), trace, w);
    ObjectsStay(Start(threads, objects), trace, w);
    assert LoanOk(w, b) && PinHold(w, w.loans[b].key);
  }

  lemma ObjectsStep(w: World, a: Action)
    requires Enabled(w, a)
    ensures Do(w, a).objects == w.objects
  {
    hide Track, Release, Register, Fire, RecordOf, Acquire, ReleasePin;
  }

  lemma {:induction false} ObjectsStay(w: World, trace: seq<Action>, v: World)
    requires Run(w, trace, v)
    ensures v.objects == w.objects
    decreases |trace|
  {
    hide Do, Enabled;
    if trace == [] {
    } else {
      ObjectsStep(w, trace[0]);
      ObjectsStay(Do(w, trace[0]), trace[1..], v);
    }
  }

  // ------------------------------------------------------------------------ tokens

  /** Whenever a token is fired its lease is there, so its release runs; the token is then
      gone, and it can only come back with another borrow. */
  lemma TokenFires(threads: nat, objects: set<Key>, trace: seq<Action>, w: World, t: Tid)
    requires Run(Start(threads, objects), trace, w) && Enabled(w, FireIt(t))
    ensures var x := w.threads[t].token;
      && x in w.pool.leases && Do(w, FireIt(t)).threads[t] == Releasing(w.pool.leases[x])
      && x !in Do(w, FireIt(t)).pool.leases
      && (forall u: Tid | u < |w.threads| && u != t :: TokenOf(w.threads[u]) != Some(x))
      && (forall a | 0 <= a < |w.assets| :: w.assets[a] != Some(x))
  {
    hide Run, LoansInv, HoldsInv, ClaimsInv, MapsInv;
    StartInv(threads, objects);
    RunKeepsInv(Start(threads, objects), trace, w);
    FireFindsLease(w, t);
    forall u: Tid | u < |w.threads| && u != t ensures TokenOf(w.threads[u]) != Some(w.threads[t].token) {
      assert TokenThread(w, u) && TokenThread(w, t);
    }
    forall a | 0 <= a < |w.assets| ensures w.assets[a] != Some(w.threads[t].token) {
      assert AssetOk(w, a) && TokenThread(w, t);
    }
  }

  /** A borrow that has been released does not come back. */
  ghost predicate Gone(w: World, b: Borrow) { b < w.born && b !in w.loans }

  /** The steps that change the table of borrows, and how: a new borrow has a new number. */
  lemma LoansAfter(w: World, a: Action)
    requires Enabled(w, a) && (a.Take? || a.Enlist? || a.FireIt? || a.Finish?)
    ensures w.born <= Do(w, a).born
    ensures forall b | b in Do(w, a).loans :: b in w.loans || b == w.born
  {
    hide Acquire, Release, Register, Fire;
  }

  lemma LoansStay(w: World, a: Action)
    requires Enabled(w, a) && !a.Take? && !a.Enlist? && !a.FireIt? && !a.Finish?
    ensures Do(w, a).loans == w.loans && Do(w, a).born == w.born
  {
    hide Do;
    if a.Map? || a.AdoptIt? || a.Evict? || a.DiscardIt? {
      CacheLeavesLoans(w, a);
    } else if a.Construct? || a.Close? {
      AssetLeavesLoans(w, a);
    } else {
      ThreadLeavesLoans(w, a);
    }
  }

  lemma CacheLeavesLoans(w: World, a: Action)
    requires Enabled(w, a) && (a.Map? || a.AdoptIt? || a.Evict? || a.DiscardIt?)
    ensures Do(w, a).loans == w.loans && Do(w, a).born == w.born
  {
    hide MapFile, Adopt, ReleaseFromCache, Discard;
  }

  lemma AssetLeavesLoans(w: World, a: Action)
    requires Enabled(w, a) && (a.Construct? || a.Close?)
    ensures Do(w, a).loans == w.loans && Do(w, a).born == w.born
  {
  }

  lemma ThreadLeavesLoans(w: World, a: Action)
    requires Enabled(w, a)
    requires a.Borrowed? || a.Commit? || a.EndBorrow? || a.Unpin?
    ensures Do(w, a).loans == w.loans && Do(w, a).born == w.born
  {
    hide Track, RecordOf, ReleasePin;
  }

  lemma GoneStep(w: World, a: Action, b: Borrow)
    requires Enabled(w, a) && Gone(w, b)
    ensures Gone(Do(w, a), b)
  {
    hide Do, Enabled;
    if a.Take? || a.Enlist? || a.FireIt? || a.Finish? { LoansAfter(w, a); } else { LoansStay(w, a); }
  }

  /** Each borrow is released at most once: once its release has run it is not released
      again, whatever follows. */
  lemma {:induction false} ReleasedOnce(w: World, trace: seq<Action>, v: World, b: Borrow, t: Tid)
    requires Inv(w) && Run(w, trace, v) && Gone(w, b)
    ensures Gone(v, b)
    ensures Enabled(v, Finish(t)) ==> v.threads[t].b != b
    decreases |trace|
  {
    hide Inv, Do;
    if trace == [] {
    } else {
      StepKeepsInv(w, trace[0]);
      GoneStep(w, trace[0], b);
      ReleasedOnce(Do(w, trace[0]), trace[1..], v, b, t);
    }
  }

  lemma FinishReleases(w: World, t: Tid)
    requires Inv(w) && Enabled(w, Finish(t))
    ensures Gone(Do(w, Finish(t)), w.threads[t].b) && Do(w, Finish(t)).pool.totals.handles == w.pool.totals.handles - 1
  {
    assert LoanOk(w, w.threads[t].b);
    FinishShape(w, t);
  }

  // ----------------------------------------------------------------------- at rest

  ghost predicate AtRest(w: World) {
    (forall t | 0 <= t < |w.threads| :: w.threads[t].Idle?) && (forall a | 0 <= a < |w.assets| :: w.assets[a].None?)
  }

  lemma RestNoLoans(w: World, b: Borrow)
    requires LoansInv(w) && TokensInv(w) && b in w.loans
    ensures !AtRest(w)
  {
    assert LoanOk(w, b);
    if w.loans[b].place.Leased? { assert LeaseOk(w, w.loans[b].place.token); }
  }

  lemma RestNoHolds(w: World, r: nat)
    requires Inv(w) && r in w.holds
    ensures !AtRest(w)
  {
    hide MapsInv, ClaimsInv, PoolInv;
    assert HoldOk(w, r);
    if w.holds[r].place.InRecord? {
      var k := w.holds[r].key;
      assert PinCount(w, k);
      var b :| b in Of(w.loans, k);
      RestNoLoans(w, b);
    }
  }

  lemma RestNoClaims(w: World, r: nat)
    requires Inv(w) && r in w.claims
    ensures !AtRest(w)
  {
    hide MapsInv, HoldsInv, PoolInv;
    assert ClaimOk(w, r);
    if w.claims[r].Tracked? {
      var k := w.claims[r].k;
      assert PinCount(w, k);
      var b :| b in Of(w.loans, k);
      RestNoLoans(w, b);
    }
  }

  /** When every handle has been closed and every close is over nothing is left: no pin,
      no lease, no cache borrow, no pin on a mapping, and all totals are zero. */
  lemma NothingLeaks(threads: nat, objects: set<Key>, trace: seq<Action>, w: World)
    requires Run(Start(threads, objects), trace, w) && AtRest(w)
    ensures w.loans == map[] && w.holds == map[] && w.claims == map[] && w.pool.leases == map[] && w.pool.pins == map[]
    ensures w.pool.totals == Totals(0, 0, 0) && forall k | k in w.pool.mapped :: w.pool.mapped[k].pins == 0
  {
    hide Run, Inv;
    StartInv(threads, objects);
    RunKeepsInv(Start(threads, objects), trace, w);
    assert w.loans == map[] && w.holds == map[] && w.claims == map[] by { RestIsEmpty(w); }
    EmptyAccounts(w);
  }

  lemma RestIsEmpty(w: World)
    requires Inv(w) && AtRest(w)
    ensures w.loans == map[] && w.holds == map[] && w.claims == map[]
  {
    assert LoansInv(w) && TokensInv(w);
    hide Inv, AtRest;
    if b :| b in w.loans { RestNoLoans(w, b); assert false; }
    if r :| r in w.holds { RestNoHolds(w, r); assert false; }
    if r :| r in w.claims { RestNoClaims(w, r); assert false; }
  }

  lemma EmptyAccounts(w: World)
    requires Inv(w) && w.loans == map[] && w.holds == map[]
    ensures w.pool.leases == map[] && w.pool.pins == map[] && w.pool.totals == Totals(0, 0, 0)
    ensures forall k | k in w.pool.mapped :: w.pool.mapped[k].pins == 0
  {
    hide HoldsInv, ClaimsInv;
    forall k ensures Count(w.loans, k) == 0 && Count(w.holds, k) == 0 {
      assert Of(w.loans, k) == {} && Of(w.holds, k) == {};
    }
    assert w.pool.pins == map[] by {
      forall k ensures k !in w.pool.pins { assert k in w.pool.pins ==> PinCount(w, k); }
    }
    assert w.pool.leases == map[] by {
      forall x ensures x !in w.pool.leases { assert x in w.pool.leases ==> LeaseOk(w, x); }
    }
    forall k | k in w.pool.mapped ensures w.pool.mapped[k].pins == 0 { assert MappedOk(w, k); }
  }
}
