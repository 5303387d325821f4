/** Every step of the lease protocol keeps its invariant. */
module LeaseSafety {
  import opened Options
  import opened LeaseModel
  import opened LeaseRuns

  // ---------------------------------------------------- what a step leaves alone

  lemma LoansFrame(w: World, v: World)
    requires LoansInv(w) && |v.threads| == |w.threads| && v.loans == w.loans && v.born == w.born
    requires v.pool.leases == w.pool.leases && v.pool.totals.handles == w.pool.totals.handles
    requires v.pool.pins.Keys == w.pool.pins.Keys
    requires forall k | k in w.pool.pins :: v.pool.pins[k].handles == w.pool.pins[k].handles
    requires forall t | 0 <= t < |w.threads| :: BorrowOf(v.threads[t]) == BorrowOf(w.threads[t])
    ensures LoansInv(v)
  {
    forall b {:trigger LoanOk(v, b)} | b in v.loans ensures LoanOk(v, b) { assert LoanOk(w, b); }
    forall t {:trigger LoanThread(v, t)} | 0 <= t < |v.threads| ensures LoanThread(v, t) { assert LoanThread(w, t); }
    forall k {:trigger PinCount(v, k)} | k in v.pool.pins ensures PinCount(v, k) {
      assert k in w.pool.pins && PinCount(w, k);
    }
  }

  lemma TokensFrame(w: World, v: World)
    requires TokensInv(w) && |v.threads| == |w.threads| && v.owner == w.owner && v.assets == w.assets
    requires v.pool.leases == w.pool.leases
    requires forall b | b in w.loans && w.loans[b].place.Leased? :: b in v.loans && v.loans[b] == w.loans[b]
    requires forall t | 0 <= t < |w.threads| :: TokenOf(v.threads[t]) == TokenOf(w.threads[t])
    ensures TokensInv(v)
  {
    forall x {:trigger LeaseOk(v, x)} | x in v.pool.leases ensures LeaseOk(v, x) { assert LeaseOk(w, x); }
    forall t {:trigger TokenThread(v, t)} | 0 <= t < |v.threads| ensures TokenThread(v, t) { assert TokenThread(w, t); }
    forall a {:trigger AssetOk(v, a)} | 0 <= a < |v.assets| ensures AssetOk(v, a) { assert AssetOk(w, a); }
  }

  lemma HoldsFrame(w: World, v: World)
    requires HoldsInv(w) && |v.threads| == |w.threads| && v.holds == w.holds && v.objects == w.objects
    requires v.pool.records == w.pool.records && v.pool.pins.Keys == w.pool.pins.Keys
    requires forall k | k in w.pool.pins ::
      && v.pool.pins[k].record == w.pool.pins[k].record && v.pool.pins[k].heap == w.pool.pins[k].heap
      && v.pool.pins[k].bytes == w.pool.pins[k].bytes
    requires forall t | 0 <= t < |w.threads| :: HeldOf(v.threads[t]) == HeldOf(w.threads[t])
    ensures HoldsInv(v)
  {
    forall r {:trigger HoldOk(v, r)} | r in v.holds ensures HoldOk(v, r) { assert HoldOk(w, r); }
    forall t {:trigger HoldThread(v, t)} | 0 <= t < |v.threads| ensures HoldThread(v, t) { assert HoldThread(w, t); }
    forall k {:trigger PinHold(v, k)} | k in v.pool.pins ensures PinHold(v, k) {
      assert k in w.pool.pins && PinHold(w, k);
    }
  }

  lemma ClaimsFrame(w: World, v: World)
    requires ClaimsInv(w) && |v.threads| == |w.threads| && v.claims == w.claims && v.pool.records == w.pool.records
    requires v.pool.pins.Keys == w.pool.pins.Keys
    requires forall k | k in w.pool.pins ::
      v.pool.pins[k].record == w.pool.pins[k].record && v.pool.pins[k].tracked == w.pool.pins[k].tracked
    requires forall b | b in w.loans :: b in v.loans && v.loans[b].key == w.loans[b].key
    requires forall t | 0 <= t < |w.threads| :: DutyOf(v.threads[t]) == DutyOf(w.threads[t])
    ensures ClaimsInv(v)
  {
    forall r {:trigger ClaimOk(v, r)} | r in v.claims ensures ClaimOk(v, r) { assert ClaimOk(w, r); }
    forall t {:trigger ClaimThread(v, t)} | 0 <= t < |v.threads| ensures ClaimThread(v, t) { assert ClaimThread(w, t); }
    forall k {:trigger PinClaim(v, k)} | k in v.pool.pins ensures PinClaim(v, k) {
      assert k in w.pool.pins && PinClaim(w, k);
    }
  }

  lemma MapsFrame(w: World, v: World)
    requires MapsInv(w) && v.pool.mapped == w.pool.mapped && v.pool.made == w.pool.made
    requires v.pool.unmapped == w.pool.unmapped
    requires v.holds == w.holds && v.objects == w.objects
    requires forall b | b in v.loans ::
      b in w.loans && v.loans[b].key == w.loans[b].key && v.loans[b].mapping == w.loans[b].mapping
    ensures MapsInv(v)
  {
    forall k {:trigger MappedOk(v, k)} | k in v.pool.mapped ensures MappedOk(v, k) { assert MappedOk(w, k); }
    forall b {:trigger LoanMapped(v, b)} | b in v.loans ensures LoanMapped(v, b) { assert LoanMapped(w, b); }
  }

  // ------------------------------------------------------------------- mappings

  /** A blob with a borrow, or whose release is not over, has its mapping pinned. */
  lemma HeldIsPinned(w: World, r: nat)
    requires MapsInv(w) && r in w.holds
    ensures var k := w.holds[r].key; k in w.pool.mapped && w.pool.mapped[k].pins > 0
  {
    assert MappedOk(w, w.holds[r].key);
    assert r in Of(w.holds, w.holds[r].key);
  }

  lemma BorrowedIsPinned(w: World, b: Borrow)
    requires LoansInv(w) && HoldsInv(w) && MapsInv(w) && b in w.loans && w.loans[b].key !in w.objects
    ensures var k := w.loans[b].key; k in w.pool.mapped && w.pool.mapped[k].pins > 0
  {
    hide MapsInv;
    assert LoanOk(w, b) && PinHold(w, w.loans[b].key);
    HeldIsPinned(w, w.pool.pins[w.loans[b].key].record);
  }

  /** The mappings change, but not those that are pinned. */
  lemma MappingsChange(w: World, q: Pool)
    requires Inv(w) && q == w.pool.(mapped := q.mapped, unmapped := q.unmapped, made := q.made) && PoolInv(q)
    requires forall k | k in w.pool.mapped && w.pool.mapped[k].pins > 0 ::
      k in q.mapped && q.mapped[k].id == w.pool.mapped[k].id && q.mapped[k].pins == w.pool.mapped[k].pins
    requires forall k {:trigger MappedOk(w.(pool := q), k)} | k in q.mapped :: MappedOk(w.(pool := q), k)
    ensures Inv(w.(pool := q))
  {
    var v := w.(pool := q);
    hide PoolInv, MappedOk, LoansInv, TokensInv, HoldsInv, ClaimsInv;
    LoansFrame(w, v);
    TokensFrame(w, v);
    HoldsFrame(w, v);
    ClaimsFrame(w, v);
    forall b {:trigger LoanMapped(v, b)} | b in v.loans ensures LoanMapped(v, b) {
      assert LoanMapped(w, b);
      if w.loans[b].key !in w.objects { BorrowedIsPinned(w, b); }
    }
    forall r | r in v.holds ensures v.holds[r].key in v.pool.mapped { HeldIsPinned(w, r); }
  }

  lemma UnheldCount(w: World, k: Key)
    requires MapsInv(w) && k !in w.pool.mapped
    ensures Count(w.holds, k) == 0
  {
    assert Of(w.holds, k) == {};
  }

  lemma MapKeepsInv(w: World, k: Key)
    requires Inv(w) && k != 0 && k !in w.pool.mapped && k !in w.objects
    ensures Inv(w.(pool := MapFile(w.pool, k)))
  {
    hide LoansInv, TokensInv, HoldsInv, ClaimsInv;
    var q := MapFile(w.pool, k);
    UnheldCount(w, k);
    forall j {:trigger MappedOk(w.(pool := q), j)} | j in q.mapped ensures MappedOk(w.(pool := q), j) {
      if j != k { assert MappedOk(w, j); }
    }
    assert PoolInv(q) by {
      forall j | j in w.pool.mapped ensures w.pool.mapped[j].id < w.pool.made { assert MappedOk(w, j); }
    }
    MappingsChange(w, q);
  }

  /** An unpinned mapping goes. */
  lemma MappingGoes(w: World, k: Key)
    requires Inv(w) && k in w.pool.mapped && w.pool.mapped[k].pins == 0
    ensures Inv(w.(pool := Unmap(w.pool, k)))
  {
    hide LoansInv, TokensInv, HoldsInv, ClaimsInv;
    var q := Unmap(w.pool, k);
    assert MappedOk(w, k);
    forall j {:trigger MappedOk(w.(pool := q), j)} | j in q.mapped ensures MappedOk(w.(pool := q), j) {
      assert MappedOk(w, j);
    }
    MappingsChange(w, q);
  }

  /** Only the flag of a mapping changes. */
  lemma FlagChanges(w: World, k: Key, cached: bool)
    requires Inv(w) && k in w.pool.mapped
    ensures Inv(w.(pool := w.pool.(mapped := w.pool.mapped[k := w.pool.mapped[k].(cached := cached)])))
  {
    hide LoansInv, TokensInv, HoldsInv, ClaimsInv;
    var q := w.pool.(mapped := w.pool.mapped[k := w.pool.mapped[k].(cached := cached)]);
    forall j {:trigger MappedOk(w.(pool := q), j)} | j in q.mapped ensures MappedOk(w.(pool := q), j) {
      assert MappedOk(w, j);
    }
    MappingsChange(w, q);
  }

  lemma CacheStepKeepsInv(w: World, k: Key)
    requires Inv(w)
    ensures Inv(w.(pool := Adopt(w.pool, k))) && Inv(w.(pool := ReleaseFromCache(w.pool, k)))
    ensures Inv(w.(pool := Discard(w.pool, k)))
  {
    hide Inv;
    if k in w.pool.mapped {
      FlagChanges(w, k, true);
      FlagChanges(w, k, false);
      if w.pool.mapped[k].pins == 0 { MappingGoes(w, k); }
    }
  }

  // --------------------------------------------------------- acquiring a borrow

  lemma FreshBorrow(w: World)
    requires LoansInv(w)
    ensures w.born !in w.loans
  {
    forall b | b in w.loans ensures b < w.born { assert LoanOk(w, b); }
  }

  lemma FreshHold(w: World)
    requires HoldsInv(w)
    ensures w.pool.records !in w.holds
  {
    forall r | r in w.holds ensures r < w.pool.records { assert HoldOk(w, r); }
  }

  lemma FreshClaim(w: World)
    requires ClaimsInv(w)
    ensures w.pool.records !in w.claims
  {
    forall r | r in w.claims ensures r < w.pool.records { assert ClaimOk(w, r); }
  }

  lemma TakeLoans(w: World, t: Tid, k: Key, len: nat)
    requires LoansInv(w) && ClaimsInv(w) && Enabled(w, Take(t, k, len))
    ensures LoansInv(DoTake(w, t, k, len))
  {
    var v, b := DoTake(w, t, k, len), w.born;
    FreshBorrow(w);
    hide ClaimsInv;
    forall c {:trigger LoanOk(v, c)} | c in v.loans ensures LoanOk(v, c) { if c != b { assert LoanOk(w, c); } }
    forall u {:trigger LoanThread(v, u)} | 0 <= u < |v.threads| ensures LoanThread(v, u) { assert LoanThread(w, u); }
    forall j {:trigger PinCount(v, j)} | j in v.pool.pins ensures PinCount(v, j) {
      CountPut(w.loans, b, v.loans[b], j);
      if j in w.pool.pins { assert PinCount(w, j); } else { UnpinnedCount(w, j); }
    }
  }

  lemma UnpinnedCount(w: World, k: Key)
    requires LoansInv(w) && k !in w.pool.pins
    ensures Count(w.loans, k) == 0
  {
    forall b ensures b !in Of(w.loans, k) { if b in w.loans { assert LoanOk(w, b); } }
    assert Of(w.loans, k) == {};
  }

  lemma TakeTokens(w: World, t: Tid, k: Key, len: nat)
    requires LoansInv(w) && TokensInv(w) && Enabled(w, Take(t, k, len))
    ensures TokensInv(DoTake(w, t, k, len))
  {
    var b := w.born;
    FreshBorrow(w);
    hide LoansInv, TokensInv;
    TokensFrame(w, DoTake(w, t, k, len));
  }

  lemma TakeHolds(w: World, t: Tid, k: Key, len: nat)
    requires HoldsInv(w) && MapsInv(w) && Enabled(w, Take(t, k, len))
    ensures HoldsInv(DoTake(w, t, k, len))
  {
    var v := DoTake(w, t, k, len);
    if k in w.pool.mapped { assert MappedOk(w, k); }
    hide MapsInv;
    FreshHold(w);
    forall r {:trigger HoldOk(v, r)} | r in v.holds ensures HoldOk(v, r) { if r in w.holds { assert HoldOk(w, r); } }
    forall u {:trigger HoldThread(v, u)} | 0 <= u < |v.threads| ensures HoldThread(v, u) { assert HoldThread(w, u); }
    forall j {:trigger PinHold(v, j)} | j in v.pool.pins ensures PinHold(v, j) {
      if j in w.pool.pins { assert PinHold(w, j); }
    }
  }

  lemma TakeClaimThread(w: World, t: Tid, k: Key, len: nat, u: Tid)
    requires LoansInv(w) && ClaimsInv(w) && Enabled(w, Take(t, k, len)) && u < |w.threads|
    ensures ClaimThread(DoTake(w, t, k, len), u)
  {
    FreshBorrow(w);
    FreshClaim(w);
    assert ClaimThread(w, u);
    hide LoansInv, ClaimsInv;
  }

  lemma TakeClaimOk(w: World, t: Tid, k: Key, len: nat, r: nat)
    requires LoansInv(w) && ClaimsInv(w) && Enabled(w, Take(t, k, len)) && r in DoTake(w, t, k, len).claims
    ensures ClaimOk(DoTake(w, t, k, len), r)
  {
    FreshBorrow(w);
    FreshClaim(w);
    if r in w.claims { assert ClaimOk(w, r); }
    hide LoansInv, ClaimsInv;
  }

  lemma TakePinClaim(w: World, t: Tid, k: Key, len: nat, j: Key)
    requires ClaimsInv(w) && Enabled(w, Take(t, k, len)) && j in DoTake(w, t, k, len).pool.pins
    ensures PinClaim(DoTake(w, t, k, len), j)
  {
    FreshClaim(w);
    if j in w.pool.pins { assert PinClaim(w, j); }
    hide ClaimsInv;
  }

  lemma TakeClaims(w: World, t: Tid, k: Key, len: nat)
    requires LoansInv(w) && ClaimsInv(w) && Enabled(w, Take(t, k, len))
    ensures ClaimsInv(DoTake(w, t, k, len))
  {
    var v := DoTake(w, t, k, len);
    assert |v.threads| == |w.threads|;
    hide DoTake, LoansInv, ClaimOk, ClaimThread, PinClaim;
    forall r {:trigger ClaimOk(v, r)} | r in v.claims ensures ClaimOk(v, r) { TakeClaimOk(w, t, k, len, r); }
    forall u {:trigger ClaimThread(v, u)} | 0 <= u < |v.threads| ensures ClaimThread(v, u) {
      TakeClaimThread(w, t, k, len, u);
    }
    forall j {:trigger PinClaim(v, j)} | j in v.pool.pins ensures PinClaim(v, j) { TakePinClaim(w, t, k, len, j); }
  }

  /** The pin record of a new borrow claims the mapping it reads from. */
  lemma TakeMapped(w: World, t: Tid, k: Key, len: nat, j: Key)
    requires HoldsInv(w) && MapsInv(w) && Enabled(w, Take(t, k, len)) && j in DoTake(w, t, k, len).pool.mapped
    ensures MappedOk(DoTake(w, t, k, len), j)
  {
    var v, r := DoTake(w, t, k, len), w.pool.records;
    FreshHold(w);
    assert j in w.pool.mapped && MappedOk(w, j);
    hide HoldsInv, MapsInv;
    if r in v.holds { CountPut(w.holds, r, v.holds[r], j); }
  }

  lemma TakeMaps(w: World, t: Tid, k: Key, len: nat)
    requires HoldsInv(w) && MapsInv(w) && Enabled(w, Take(t, k, len))
    ensures MapsInv(DoTake(w, t, k, len))
  {
    var v := DoTake(w, t, k, len);
    if k in w.pool.mapped { assert MappedOk(w, k); }
    hide HoldsInv, MappedOk;
    forall j {:trigger MappedOk(v, j)} | j in v.pool.mapped ensures MappedOk(v, j) { TakeMapped(w, t, k, len, j); }
    forall c {:trigger LoanMapped(v, c)} | c in v.loans ensures LoanMapped(v, c) {
      if c in w.loans { assert LoanMapped(w, c); }
    }
  }

  lemma TakePool(w: World, k: Key, len: nat)
    requires PoolInv(w.pool)
    ensures PoolInv(Acquire(w.pool, k, len))
  {
    var q := Acquire(w.pool, k, len);
    SumPut(Handles, w.pool.pins, k, q.pins[k]);
    SumPut(Blobs, w.pool.pins, k, q.pins[k]);
    SumPut(Bytes, w.pool.pins, k, q.pins[k]);
  }

  lemma TakeKeepsInv(w: World, t: Tid, k: Key, len: nat)
    requires Inv(w) && Enabled(w, Take(t, k, len))
    ensures Inv(DoTake(w, t, k, len))
  {
    hide LoansInv, TokensInv, HoldsInv, ClaimsInv, MapsInv, PoolInv;
    TakeLoans(w, t, k, len);
    TakeTokens(w, t, k, len);
    TakeHolds(w, t, k, len);
    TakeClaims(w, t, k, len);
    TakeMaps(w, t, k, len);
    TakePool(w, k, len);
  }

  /** A step of thread `t` that concerns cache borrows alone. */
  lemma ClaimStep(w: World, v: World, t: Tid, pc: Pc)
    requires Inv(w) && t < |w.threads| && v == w.(threads := w.threads[t := pc], claims := v.claims) && ClaimsInv(v)
    requires BorrowOf(pc) == BorrowOf(w.threads[t]) && TokenOf(pc) == TokenOf(w.threads[t])
    requires HeldOf(pc) == HeldOf(w.threads[t])
    ensures Inv(v)
  {
    hide LoansInv, TokensInv, HoldsInv, MapsInv, ClaimsInv, PoolInv, BorrowOf, TokenOf, HeldOf;
    LoansFrame(w, v);
    TokensFrame(w, v);
    HoldsFrame(w, v);
    MapsFrame(w, v);
  }

  /** A step of thread `t` that concerns tokens alone. */
  lemma TokenStep(w: World, v: World, t: Tid, pc: Pc)
    requires Inv(w) && t < |w.threads| && v == w.(threads := w.threads[t := pc], owner := v.owner, assets := v.assets)
    requires TokensInv(v)
    requires BorrowOf(pc) == BorrowOf(w.threads[t]) && HeldOf(pc) == HeldOf(w.threads[t])
    requires DutyOf(pc) == DutyOf(w.threads[t])
    ensures Inv(v)
  {
    hide LoansInv, TokensInv, HoldsInv, MapsInv, ClaimsInv, PoolInv, BorrowOf, HeldOf, DutyOf;
    LoansFrame(w, v);
    HoldsFrame(w, v);
    ClaimsFrame(w, v);
    MapsFrame(w, v);
  }

  lemma BorrowedKeepsInv(w: World, t: Tid, ok: bool)
    requires Inv(w) && Enabled(w, Borrowed(t, ok))
    ensures Inv(DoBorrowed(w, t, ok))
  {
    hide LoansInv, TokensInv, HoldsInv, ClaimsInv, MapsInv, PoolInv;
    BorrowedClaims(w, t, ok);
    ClaimStep(w, DoBorrowed(w, t, ok), t, DoBorrowed(w, t, ok).threads[t]);
  }

  lemma BorrowedClaims(w: World, t: Tid, ok: bool)
    requires ClaimsInv(w) && Enabled(w, Borrowed(t, ok))
    ensures ClaimsInv(DoBorrowed(w, t, ok))
  {
    var v := DoBorrowed(w, t, ok);
    assert ClaimThread(w, t);
    if w.threads[t].first {
      forall r {:trigger ClaimOk(v, r)} | r in v.claims ensures ClaimOk(v, r) {
        if r in w.claims { assert ClaimOk(w, r); }
      }
      forall u {:trigger ClaimThread(v, u)} | 0 <= u < |v.threads| ensures ClaimThread(v, u) {
        assert ClaimThread(w, u);
      }
      forall j {:trigger PinClaim(v, j)} | j in v.pool.pins ensures PinClaim(v, j) { assert PinClaim(w, j); }
    } else {
      hide ClaimsInv;
      ClaimsFrame(w, v);
    }
  }

  lemma TrackKeepsPool(p: Pool, k: Key)
    requires PoolInv(p)
    ensures PoolInv(Track(p, k))
  {
    if k in p.pins {
      hide NoDup;
      SumPut(Handles, p.pins, k, p.pins[k].(tracked := true));
      SumPut(Blobs, p.pins, k, p.pins[k].(tracked := true));
      SumPut(Bytes, p.pins, k, p.pins[k].(tracked := true));
    }
  }

  lemma CommitKeepsInv(w: World, t: Tid)
    requires Inv(w) && Enabled(w, Commit(t))
    ensures Inv(DoCommit(w, t))
  {
    hide LoansInv, TokensInv, HoldsInv, ClaimsInv, MapsInv, PoolInv;
    var v := DoCommit(w, t);
    CommitClaims(w, t);
    TrackKeepsPool(w.pool, w.loans[w.threads[t].b].key);
    LoansFrame(w, v);
    TokensFrame(w, v);
    HoldsFrame(w, v);
    MapsFrame(w, v);
  }

  lemma CommitClaims(w: World, t: Tid)
    requires ClaimsInv(w) && Enabled(w, Commit(t))
    ensures ClaimsInv(DoCommit(w, t))
  {
    var v := DoCommit(w, t);
    assert ClaimThread(w, t);
    forall r {:trigger ClaimOk(v, r)} | r in v.claims ensures ClaimOk(v, r) {
      if r in w.claims { assert ClaimOk(w, r); }
    }
    forall u {:trigger ClaimThread(v, u)} | 0 <= u < |v.threads| ensures ClaimThread(v, u) { assert ClaimThread(w, u); }
    forall j {:trigger PinClaim(v, j)} | j in v.pool.pins ensures PinClaim(v, j) { assert PinClaim(w, j); }
  }

  // ------------------------------------------------------------ tokens and closing

  lemma EnlistKeepsInv(w: World, t: Tid)
    requires Inv(w) && Enabled(w, Enlist(t))
    ensures Inv(DoEnlist(w, t))
  {
    hide LoansInv, TokensInv, HoldsInv, ClaimsInv, MapsInv;
    var v := DoEnlist(w, t);
    HoldsFrame(w, v);
    ClaimsFrame(w, v);
    MapsFrame(w, v);
    EnlistLoans(w, t);
    EnlistTokens(w, t);
  }

  lemma EnlistLoans(w: World, t: Tid)
    requires LoansInv(w) && Enabled(w, Enlist(t))
    ensures LoansInv(DoEnlist(w, t))
  {
    var v, b := DoEnlist(w, t), w.threads[t].b;
    assert LoanThread(w, t);
    assert v.loans.Keys == w.loans.Keys;
    forall c {:trigger LoanOk(v, c)} | c in v.loans ensures LoanOk(v, c) { assert LoanOk(w, c); }
    forall u {:trigger LoanThread(v, u)} | 0 <= u < |v.threads| ensures LoanThread(v, u) { assert LoanThread(w, u); }
    forall j {:trigger PinCount(v, j)} | j in v.pool.pins ensures PinCount(v, j) {
      assert PinCount(w, j);
      CountPut(w.loans, b, v.loans[b], j);
    }
  }

  lemma EnlistTokens(w: World, t: Tid)
    requires LoansInv(w) && TokensInv(w) && Enabled(w, Enlist(t))
    ensures TokensInv(DoEnlist(w, t))
  {
    var v := DoEnlist(w, t);
    assert LoanThread(w, t);
    hide LoansInv;
    forall x {:trigger LeaseOk(v, x)} | x in v.pool.leases ensures LeaseOk(v, x) {
      if x in w.pool.leases { assert LeaseOk(w, x); }
    }
    forall u {:trigger TokenThread(v, u)} | 0 <= u < |v.threads| ensures TokenThread(v, u) { assert TokenThread(w, u); }
    forall a {:trigger AssetOk(v, a)} | 0 <= a < |v.assets| ensures AssetOk(v, a) { assert AssetOk(w, a); }
  }

  lemma ConstructKeepsInv(w: World, t: Tid, ok: bool)
    requires Inv(w) && Enabled(w, Construct(t, ok))
    ensures Inv(DoConstruct(w, t, ok))
  {
    hide LoansInv, TokensInv, HoldsInv, ClaimsInv, MapsInv, PoolInv;
    ConstructTokens(w, t, ok);
    TokenStep(w, DoConstruct(w, t, ok), t, DoConstruct(w, t, ok).threads[t]);
  }

  lemma ConstructTokens(w: World, t: Tid, ok: bool)
    requires TokensInv(w) && Enabled(w, Construct(t, ok))
    ensures TokensInv(DoConstruct(w, t, ok))
  {
    var v := DoConstruct(w, t, ok);
    assert TokenThread(w, t);
    forall x {:trigger LeaseOk(v, x)} | x in v.pool.leases ensures LeaseOk(v, x) { assert LeaseOk(w, x); }
    forall u {:trigger TokenThread(v, u)} | 0 <= u < |v.threads| ensures TokenThread(v, u) { assert TokenThread(w, u); }
    forall a {:trigger AssetOk(v, a)} | 0 <= a < |v.assets| ensures AssetOk(v, a) {
      if a < |w.assets| { assert AssetOk(w, a); }
    }
  }

  lemma CloseKeepsInv(w: World, t: Tid, a: nat)
    requires Inv(w) && Enabled(w, Close(t, a))
    ensures Inv(DoClose(w, t, a))
  {
    hide LoansInv, TokensInv, HoldsInv, ClaimsInv, MapsInv, PoolInv;
    CloseTokens(w, t, a);
    if w.assets[a].Some? {
      TokenStep(w, DoClose(w, t, a), t, DoClose(w, t, a).threads[t]);
    }
  }

  lemma CloseTokens(w: World, t: Tid, a: nat)
    requires TokensInv(w) && Enabled(w, Close(t, a))
    ensures TokensInv(DoClose(w, t, a))
  {
    var v := DoClose(w, t, a);
    assert AssetOk(w, a);
    forall x {:trigger LeaseOk(v, x)} | x in v.pool.leases ensures LeaseOk(v, x) { assert LeaseOk(w, x); }
    forall u {:trigger TokenThread(v, u)} | 0 <= u < |v.threads| ensures TokenThread(v, u) { assert TokenThread(w, u); }
    forall i {:trigger AssetOk(v, i)} | 0 <= i < |v.assets| ensures AssetOk(v, i) { assert AssetOk(w, i); }
  }

  /** A token on its way to be fired is registered: its lease is found. */
  lemma FireFindsLease(w: World, t: Tid)
    requires Inv(w) && Enabled(w, FireIt(t))
    ensures var x := w.threads[t].token; x != 0 && x in w.pool.leases && w.pool.leases[x] in w.loans
  {
    assert TokenThread(w, t);
    assert LeaseOk(w, w.threads[t].token);
  }

  lemma FireShape(w: World, t: Tid)
    requires Enabled(w, FireIt(t))
    ensures var v := DoFire(w, t);
      && v == w.(pool := v.pool, threads := v.threads, loans := v.loans, owner := v.owner)
      && v.pool == w.pool.(leases := v.pool.leases)
      && v.threads == w.threads[t := v.threads[t]] && (v.threads[t].Idle? || v.threads[t].Releasing?)
      && v.loans.Keys == w.loans.Keys
      && forall b | b in w.loans :: v.loans[b].key == w.loans[b].key && v.loans[b].mapping == w.loans[b].mapping
  {
  }

  lemma FireFrames(w: World, t: Tid)
    requires HoldsInv(w) && ClaimsInv(w) && MapsInv(w) && Enabled(w, FireIt(t))
    ensures HoldsInv(DoFire(w, t)) && ClaimsInv(DoFire(w, t)) && MapsInv(DoFire(w, t))
  {
    FireShape(w, t);
    hide HoldsInv, ClaimsInv, MapsInv, DoFire;
    var v := DoFire(w, t);
    HoldsFrame(w, v);
    ClaimsFrame(w, v);
    MapsFrame(w, v);
  }

  lemma FireKeepsInv(w: World, t: Tid)
    requires Inv(w) && Enabled(w, FireIt(t))
    ensures Inv(DoFire(w, t))
  {
    FireFindsLease(w, t);
    hide LoansInv, TokensInv, HoldsInv, ClaimsInv, MapsInv;
    FireFrames(w, t);
    FireLoans(w, t);
    FireTokens(w, t);
  }

  lemma FireLoans(w: World, t: Tid)
    requires LoansInv(w) && TokensInv(w) && Enabled(w, FireIt(t)) && w.threads[t].token in w.pool.leases
    ensures LoansInv(DoFire(w, t))
  {
    var v, x := DoFire(w, t), w.threads[t].token;
    assert LeaseOk(w, x);
    var b := w.pool.leases[x];
    assert v.loans.Keys == w.loans.Keys;
    forall c {:trigger LoanOk(v, c)} | c in v.loans ensures LoanOk(v, c) { assert LoanOk(w, c); }
    forall u {:trigger LoanThread(v, u)} | 0 <= u < |v.threads| ensures LoanThread(v, u) { assert LoanThread(w, u); }
    forall j {:trigger PinCount(v, j)} | j in v.pool.pins ensures PinCount(v, j) {
      assert PinCount(w, j);
      CountPut(w.loans, b, v.loans[b], j);
    }
  }

  lemma FireTokens(w: World, t: Tid)
    requires TokensInv(w) && Enabled(w, FireIt(t)) && w.threads[t].token in w.pool.leases
    ensures TokensInv(DoFire(w, t))
  {
    var v := DoFire(w, t);
    assert TokenThread(w, t) && LeaseOk(w, w.threads[t].token);
    forall x {:trigger LeaseOk(v, x)} | x in v.pool.leases ensures LeaseOk(v, x) { assert LeaseOk(w, x); }
    forall u {:trigger TokenThread(v, u)} | 0 <= u < |v.threads| ensures TokenThread(v, u) { assert TokenThread(w, u); }
    forall i {:trigger AssetOk(v, i)} | 0 <= i < |v.assets| ensures AssetOk(v, i) { assert AssetOk(w, i); }
  }

  // ------------------------------------------------------------------- releasing

  /** The guard of releaseAssetBorrowedPin never fires: a borrow's pin is there. */
  lemma ReleaseFindsPin(w: World, t: Tid)
    requires LoansInv(w) && Enabled(w, Finish(t))
    ensures var k := w.loans[w.threads[t].b].key; k in w.pool.pins && w.pool.pins[k].handles == Count(w.loans, k) > 0
  {
    var b := w.threads[t].b;
    assert LoanOk(w, b);
    assert PinCount(w, w.loans[b].key);
  }

  /** What a release does: the last one takes the pin along. */
  lemma FinishShape(w: World, t: Tid)
    requires LoansInv(w) && Enabled(w, Finish(t))
    ensures var v, b := DoFinish(w, t), w.threads[t].b;
      var k := w.loans[b].key;
      && k in w.pool.pins && w.pool.pins[k].handles == Count(w.loans, k) > 0
      && var pin := w.pool.pins[k];
         var r, last := pin.record, pin.handles == 1;
      && v == w.(pool := v.pool, loans := w.loans - {b}, threads := v.threads, holds := v.holds, claims := v.claims)
      && v.threads == w.threads[t := if last then Ending(r, k, pin.tracked, r in w.holds) else Idle]
      && v.pool == w.pool.(pins := v.pool.pins, totals := v.pool.totals) &&
           v.pool.totals.handles == w.pool.totals.handles - 1
      && v.pool.pins == (if last then w.pool.pins - {k} else w.pool.pins[k := pin.(handles := pin.handles - 1)])
      && v.holds == (if last && r in w.holds then w.holds[r := w.holds[r].(place := With(t))] else w.holds)
      && v.claims == (if last && pin.tracked then w.claims[r := Closing(t)] else w.claims)
  {
    ReleaseFindsPin(w, t);
  }

  lemma FinishLoanOk(w: World, t: Tid, c: Borrow)
    requires LoansInv(w) && Enabled(w, Finish(t)) && c in w.loans && c != w.threads[t].b
    ensures LoanOk(DoFinish(w, t), c)
  {
    FinishShape(w, t);
    FinishKeepsKey(w, t, c);
    assert LoanOk(w, c);
    hide DoFinish, Release, LoansInv;
  }

  /** While another borrow of the blob remains its pin does. */
  lemma FinishKeepsKey(w: World, t: Tid, c: Borrow)
    requires LoansInv(w) && Enabled(w, Finish(t)) && c in w.loans && c != w.threads[t].b
    ensures w.loans[c].key == w.loans[w.threads[t].b].key ==> Count(w.loans, w.loans[c].key) > 1
  {
    var b := w.threads[t].b;
    hide LoansInv;
    if w.loans[c].key == w.loans[b].key {
      CountTake(w.loans, b, w.loans[b].key);
      assert c in Of(w.loans - {b}, w.loans[b].key);
    }
  }

  lemma FinishLoanThread(w: World, t: Tid, u: Tid)
    requires LoansInv(w) && Enabled(w, Finish(t)) && u < |w.threads|
    ensures LoanThread(DoFinish(w, t), u)
  {
    FinishShape(w, t);
    assert LoanThread(w, u) && LoanThread(w, t);
    hide DoFinish, Release, LoansInv;
  }

  lemma FinishPinCount(w: World, t: Tid, j: Key)
    requires LoansInv(w) && Enabled(w, Finish(t)) && j in DoFinish(w, t).pool.pins
    ensures PinCount(DoFinish(w, t), j)
  {
    FinishShape(w, t);
    assert PinCount(w, j);
    hide DoFinish, Release, LoansInv;
    CountTake(w.loans, w.threads[t].b, j);
  }

  lemma FinishLoans(w: World, t: Tid)
    requires LoansInv(w) && Enabled(w, Finish(t))
    ensures LoansInv(DoFinish(w, t))
  {
    var v := DoFinish(w, t);
    FinishShape(w, t);
    hide DoFinish, Release, LoanOk, LoanThread, PinCount;
    forall c {:trigger LoanOk(v, c)} | c in v.loans ensures LoanOk(v, c) { FinishLoanOk(w, t, c); }
    forall u {:trigger LoanThread(v, u)} | 0 <= u < |v.threads| ensures LoanThread(v, u) { FinishLoanThread(w, t, u); }
    forall j {:trigger PinCount(v, j)} | j in v.pool.pins ensures PinCount(v, j) { FinishPinCount(w, t, j); }
  }

  lemma FinishTokens(w: World, t: Tid)
    requires LoansInv(w) && TokensInv(w) && Enabled(w, Finish(t))
    ensures TokensInv(DoFinish(w, t))
  {
    FinishShape(w, t);
    hide DoFinish, Release;
    assert LoanThread(w, t);
    hide LoansInv, TokensInv;
    TokensFrame(w, DoFinish(w, t));
  }

  lemma FinishHoldOk(w: World, t: Tid, r: nat)
    requires LoansInv(w) && HoldsInv(w) && Enabled(w, Finish(t)) && r in w.holds
    ensures r in DoFinish(w, t).holds && HoldOk(DoFinish(w, t), r)
  {
    FinishShape(w, t);
    assert HoldOk(w, r) && PinHold(w, w.loans[w.threads[t].b].key);
    hide DoFinish, Release, LoansInv, HoldsInv;
  }

  lemma FinishHoldThread(w: World, t: Tid, u: Tid)
    requires LoansInv(w) && HoldsInv(w) && Enabled(w, Finish(t)) && u < |w.threads|
    ensures HoldThread(DoFinish(w, t), u)
  {
    FinishShape(w, t);
    assert HoldThread(w, u) && PinHold(w, w.loans[w.threads[t].b].key);
    hide DoFinish, Release, LoansInv, HoldsInv;
  }

  lemma FinishPinHold(w: World, t: Tid, j: Key)
    requires LoansInv(w) && HoldsInv(w) && Enabled(w, Finish(t)) && j in DoFinish(w, t).pool.pins
    ensures PinHold(DoFinish(w, t), j)
  {
    FinishShape(w, t);
    assert PinHold(w, j) && PinHold(w, w.loans[w.threads[t].b].key);
    hide DoFinish, Release, LoansInv, HoldsInv;
  }

  lemma FinishHolds(w: World, t: Tid)
    requires LoansInv(w) && HoldsInv(w) && Enabled(w, Finish(t))
    ensures HoldsInv(DoFinish(w, t))
  {
    var v := DoFinish(w, t);
    FinishShape(w, t);
    hide DoFinish, Release, LoansInv, HoldOk, HoldThread, PinHold;
    forall r {:trigger HoldOk(v, r)} | r in v.holds ensures HoldOk(v, r) { FinishHoldOk(w, t, r); }
    forall u {:trigger HoldThread(v, u)} | 0 <= u < |v.threads| ensures HoldThread(v, u) { FinishHoldThread(w, t, u); }
    forall j {:trigger PinHold(v, j)} | j in v.pool.pins ensures PinHold(v, j) { FinishPinHold(w, t, j); }
  }

  /** The last borrow of a record is not one whose cache borrow is undecided. */
  lemma FinishRecordOf(w: World, t: Tid, c: Borrow)
    requires LoansInv(w) && Enabled(w, Finish(t)) && RecordOf(w, c).Some? && c != w.threads[t].b
    ensures RecordOf(DoFinish(w, t), c) == RecordOf(w, c)
  {
    var b := w.threads[t].b;
    var k := w.loans[b].key;
    FinishShape(w, t);
    hide DoFinish, Release;
    CountTake(w.loans, b, k);
    if w.loans[c].key == k { assert c in Of(w.loans - {b}, k); }
  }

  lemma FinishClaimOk(w: World, t: Tid, r: nat)
    requires LoansInv(w) && ClaimsInv(w) && Enabled(w, Finish(t)) && r in w.claims
    ensures r in DoFinish(w, t).claims && ClaimOk(DoFinish(w, t), r)
  {
    FinishShape(w, t);
    assert ClaimOk(w, r) && PinClaim(w, w.loans[w.threads[t].b].key);
    if w.claims[r].Undecided? || w.claims[r].Begun? {
      var u := w.claims[r].t;
      assert LoanThread(w, u) && LoanThread(w, t);
      FinishRecordOf(w, t, DutyOf(w.threads[u]).b);
    }
    hide DoFinish, Release, LoansInv, ClaimsInv;
  }

  lemma FinishClaimThread(w: World, t: Tid, u: Tid)
    requires LoansInv(w) && ClaimsInv(w) && Enabled(w, Finish(t)) && u < |w.threads|
    ensures ClaimThread(DoFinish(w, t), u)
  {
    FinishShape(w, t);
    assert ClaimThread(w, u) && PinClaim(w, w.loans[w.threads[t].b].key);
    assert LoanThread(w, u) && LoanThread(w, t);
    if u != t && (DutyOf(w.threads[u]).ToDecide? || DutyOf(w.threads[u]).ToCommit?) {
      FinishRecordOf(w, t, w.threads[u].b);
    }
    hide DoFinish, Release, LoansInv, ClaimsInv;
  }

  lemma FinishClaims(w: World, t: Tid)
    requires LoansInv(w) && ClaimsInv(w) && Enabled(w, Finish(t))
    ensures ClaimsInv(DoFinish(w, t))
  {
    var v := DoFinish(w, t);
    FinishShape(w, t);
    hide DoFinish, Release, LoansInv;
    assert PinClaim(w, w.loans[w.threads[t].b].key);
    forall r {:trigger ClaimOk(v, r)} | r in v.claims ensures ClaimOk(v, r) { FinishClaimOk(w, t, r); }
    forall u {:trigger ClaimThread(v, u)} | 0 <= u < |v.threads| ensures ClaimThread(v, u) {
      FinishClaimThread(w, t, u);
    }
    hide ClaimOk, ClaimThread;
    forall j {:trigger PinClaim(v, j)} | j in v.pool.pins ensures PinClaim(v, j) { FinishOtherPin(w, t, j); }
  }

  lemma FinishOtherPin(w: World, t: Tid, j: Key)
    requires LoansInv(w) && ClaimsInv(w) && Enabled(w, Finish(t)) && j in DoFinish(w, t).pool.pins
    ensures PinClaim(DoFinish(w, t), j)
  {
    FinishShape(w, t);
    assert j in w.pool.pins && PinClaim(w, j) && PinClaim(w, w.loans[w.threads[t].b].key);
    hide DoFinish, Release, LoansInv, ClaimsInv, Count;
  }

  lemma FinishMaps(w: World, t: Tid)
    requires LoansInv(w) && HoldsInv(w) && MapsInv(w) && Enabled(w, Finish(t))
    ensures MapsInv(DoFinish(w, t))
  {
    var v := DoFinish(w, t);
    FinishShape(w, t);
    hide DoFinish, Release;
    hide LoansInv;
    forall k {:trigger MappedOk(v, k)} | k in v.pool.mapped ensures MappedOk(v, k) {
      assert MappedOk(w, k);
      SameCount(w.holds, v.holds, k);
    }
    forall b {:trigger LoanMapped(v, b)} | b in v.loans ensures LoanMapped(v, b) { assert LoanMapped(w, b); }
  }

  lemma SameCount(holds: map<nat, Loan>, holds': map<nat, Loan>, k: Key)
    requires holds'.Keys == holds.Keys && forall r | r in holds :: holds'[r].key == holds[r].key
    ensures Count(holds', k) == Count(holds, k)
  {
    assert Of(holds', k) == Of(holds, k);
  }

  lemma FinishPool(w: World, k: Key)
    requires PoolInv(w.pool) && k in w.pool.pins && w.pool.pins[k].handles > 0
    ensures PoolInv(Release(w.pool, k).0)
  {
    var pins := w.pool.pins;
    var pin := pins[k].(handles := pins[k].handles - 1);
    hide NoDup;
    SumPut(Handles, pins, k, pin);
    SumPut(Blobs, pins, k, pin);
    SumPut(Bytes, pins, k, pin);
    SumSplit(Handles, pins, k);
    SumSplit(Blobs, pins, k);
    SumSplit(Bytes, pins, k);
  }

  lemma FinishKeepsInv(w: World, t: Tid)
    requires Inv(w) && Enabled(w, Finish(t))
    ensures Inv(DoFinish(w, t))
  {
    hide LoansInv, TokensInv, HoldsInv, ClaimsInv, MapsInv, PoolInv;
    ReleaseFindsPin(w, t);
    FinishLoans(w, t);
    FinishTokens(w, t);
    FinishHolds(w, t);
    FinishClaims(w, t);
    FinishMaps(w, t);
    FinishPool(w, w.loans[w.threads[t].b].key);
  }

  lemma EndKeepsInv(w: World, t: Tid)
    requires Inv(w) && Enabled(w, EndBorrow(t))
    ensures Inv(DoEnd(w, t))
  {
    hide LoansInv, TokensInv, HoldsInv, ClaimsInv, MapsInv, PoolInv;
    EndClaims(w, t);
    ClaimStep(w, DoEnd(w, t), t, DoEnd(w, t).threads[t]);
  }

  lemma EndClaims(w: World, t: Tid)
    requires ClaimsInv(w) && Enabled(w, EndBorrow(t))
    ensures ClaimsInv(DoEnd(w, t))
  {
    var v := DoEnd(w, t);
    assert ClaimThread(w, t);
    forall r {:trigger ClaimOk(v, r)} | r in v.claims ensures ClaimOk(v, r) { assert ClaimOk(w, r); }
    forall u {:trigger ClaimThread(v, u)} | 0 <= u < |v.threads| ensures ClaimThread(v, u) { assert ClaimThread(w, u); }
    forall j {:trigger PinClaim(v, j)} | j in v.pool.pins ensures PinClaim(v, j) { assert PinClaim(w, j); }
  }

  lemma HoldIsPin(w: World, r: nat)
    requires MapsInv(w) && r in w.holds
    ensures var k := w.holds[r].key; k in w.pool.mapped && w.pool.mapped[k].pins == Count(w.holds - {r}, k) + 1
  {
    CountTake(w.holds, r, w.holds[r].key);
    assert MappedOk(w, w.holds[r].key);
    assert r in Of(w.holds, w.holds[r].key);
  }

  lemma UnpinMapped(w: World, r: nat, j: Key)
    requires MapsInv(w) && PoolInv(w.pool) && r in w.holds && j in ReleasePin(w.pool, w.holds[r].key).mapped
    ensures MappedOk(w.(pool := ReleasePin(w.pool, w.holds[r].key), holds := w.holds - {r}), j)
  {
    var k := w.holds[r].key;
    HoldIsPin(w, r);
    assert j in w.pool.mapped && MappedOk(w, j);
    assert j != k ==> w.pool.mapped[j].id != w.pool.mapped[k].id;
    CountTake(w.holds, r, j);
    hide MapsInv, PoolInv, Count;
  }

  /** The mapping stays for the other claims on it. */
  lemma UnpinStays(w: World, r: nat)
    requires MapsInv(w) && r in w.holds
    ensures var k := w.holds[r].key;
      && (forall j | j in w.pool.mapped && (j != k || Count(w.holds - {r}, k) > 0) :: j in ReleasePin(w.pool, k).mapped
            && ReleasePin(w.pool, k).mapped[j].id == w.pool.mapped[j].id)
  {
    HoldIsPin(w, r);
    hide MapsInv, Count;
  }

  lemma UnpinLoan(w: World, r: nat, b: Borrow)
    requires HoldsInv(w) && MapsInv(w) && LoansInv(w) && r in w.holds && w.holds[r].place.With? && b in w.loans
    ensures LoanMapped(w.(pool := ReleasePin(w.pool, w.holds[r].key), holds := w.holds - {r}), b)
  {
    UnpinStays(w, r);
    assert LoanMapped(w, b);
    if w.loans[b].key !in w.objects { BorrowHolds(w, b, r); }
    hide HoldsInv, MapsInv, LoansInv, ReleasePin, Count;
  }

  /** A claim on a mapping goes with one of its pins; the mapping stays for the others. */
  lemma UnpinMaps(w: World, r: nat)
    requires HoldsInv(w) && MapsInv(w) && LoansInv(w) && PoolInv(w.pool) && r in w.holds && w.holds[r].place.With?
    ensures MapsInv(w.(pool := ReleasePin(w.pool, w.holds[r].key), holds := w.holds - {r}))
  {
    var k := w.holds[r].key;
    var v := w.(pool := ReleasePin(w.pool, k), holds := w.holds - {r});
    UnpinStays(w, r);
    hide LoansInv, HoldsInv, PoolInv, ReleasePin, MappedOk, LoanMapped;
    forall j {:trigger MappedOk(v, j)} | j in v.pool.mapped ensures MappedOk(v, j) { UnpinMapped(w, r, j); }
    forall q | q in v.holds ensures v.holds[q].key in v.pool.mapped {
      if w.holds[q].key == k { assert q in Of(w.holds - {r}, k); }
    }
    forall b {:trigger LoanMapped(v, b)} | b in v.loans ensures LoanMapped(v, b) { UnpinLoan(w, r, b); }
  }

  /** While a blob is borrowed its mapping has a claim besides any that is being given up. */
  lemma BorrowHolds(w: World, b: Borrow, r: nat)
    requires HoldsInv(w) && LoansInv(w) && b in w.loans && w.loans[b].key !in w.objects
    requires r in w.holds && w.holds[r].place.With?
    ensures Count(w.holds - {r}, w.loans[b].key) > 0
  {
    var k := w.loans[b].key;
    assert LoanOk(w, b) && PinHold(w, k);
    assert w.pool.pins[k].record in Of(w.holds - {r}, k);
  }

  lemma UnpinHolds(w: World, t: Tid)
    requires HoldsInv(w) && Enabled(w, Unpin(t))
    ensures HoldsInv(DoUnpin(w, t))
  {
    var v := DoUnpin(w, t);
    assert HoldThread(w, t);
    forall r {:trigger HoldOk(v, r)} | r in v.holds ensures HoldOk(v, r) { assert HoldOk(w, r); }
    forall u {:trigger HoldThread(v, u)} | 0 <= u < |v.threads| ensures HoldThread(v, u) { assert HoldThread(w, u); }
    forall j {:trigger PinHold(v, j)} | j in v.pool.pins ensures PinHold(v, j) { assert PinHold(w, j); }
  }

  lemma UnpinPool(w: World, k: Key)
    requires PoolInv(w.pool)
    requires (k in w.pool.mapped ==> w.pool.mapped[k].id < w.pool.made && w.pool.mapped[k].id !in w.pool.unmapped)
    ensures PoolInv(ReleasePin(w.pool, k))
  {
  }

  lemma UnpinFacts(w: World, t: Tid)
    requires HoldsInv(w) && MapsInv(w) && Enabled(w, Unpin(t))
    ensures var pc := w.threads[t];
      if pc.mapped then pc.record in w.holds && w.holds[pc.record].key == pc.k && w.holds[pc.record].place.With?
      else pc.k !in w.pool.mapped
  {
    assert HoldThread(w, t);
    if w.threads[t].mapped { assert HoldOk(w, w.threads[t].record); } else { ObjectsUnmapped(w, w.threads[t].k); }
  }

  lemma UnpinFrames(w: World, t: Tid)
    requires LoansInv(w) && TokensInv(w) && ClaimsInv(w) && Enabled(w, Unpin(t))
    ensures LoansInv(DoUnpin(w, t)) && TokensInv(DoUnpin(w, t)) && ClaimsInv(DoUnpin(w, t))
  {
    hide LoansInv, TokensInv, ClaimsInv;
    var v := DoUnpin(w, t);
    LoansFrame(w, v);
    TokensFrame(w, v);
    ClaimsFrame(w, v);
  }

  lemma UnpinKeepsInv(w: World, t: Tid)
    requires Inv(w) && Enabled(w, Unpin(t))
    ensures Inv(DoUnpin(w, t))
  {
    hide LoansInv, TokensInv, HoldsInv, ClaimsInv, MapsInv, PoolInv;
    var v, pc := DoUnpin(w, t), w.threads[t];
    UnpinFacts(w, t);
    UnpinHolds(w, t);
    UnpinFits(w, pc.k);
    UnpinPool(w, pc.k);
    UnpinFrames(w, t);
    if pc.mapped {
      UnpinMaps(w, pc.record);
      MapsFrame(w.(pool := ReleasePin(w.pool, pc.k), holds := w.holds - {pc.record}), v);
    } else {
      MapsFrame(w, v);
    }
  }

  lemma ObjectsUnmapped(w: World, k: Key)
    requires MapsInv(w) && k in w.objects
    ensures k !in w.pool.mapped
  {
    forall j | j in w.pool.mapped ensures j !in w.objects { assert MappedOk(w, j); }
  }

  lemma UnpinFits(w: World, k: Key)
    requires MapsInv(w)
    ensures k in w.pool.mapped ==> w.pool.mapped[k].id < w.pool.made && w.pool.mapped[k].id !in w.pool.unmapped
  {
    if k in w.pool.mapped { assert MappedOk(w, k); }
  }
}
