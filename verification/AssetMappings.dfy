/** What a section of the asset cache does to the table of mappings: a blob that leaves the
    cache is released from it, a blob that comes is adopted by it. */
module AssetMappings {
  import opened Options
  import opened LeaseModel
  import opened LeaseRuns
  import opened LeaseSafety
  import opened LeaseTheorems

  ghost function ReleaseAll(p: Pool, gone: set<Key>): Pool
    decreases |gone|
  {
    if gone == {} then p
    else
      var k :| k in gone;
      ReleaseAll(ReleaseFromCache(p, k), gone - {k})
  }

  ghost function AdoptAll(p: Pool, come: set<Key>): Pool
    decreases |come|
  {
    if come == {} then p
    else
      var k :| k in come;
      AdoptAll(Adopt(p, k), come - {k})
  }

  /** The pool after the blobs of a cache went from `was` to `now`. */
  ghost function Follow(p: Pool, was: set<Key>, now: set<Key>): Pool {
    AdoptAll(ReleaseAll(p, was - now), now - was)
  }

  ghost function Using(w: World, p: Pool): World { w.(pool := p) }

  /** The mappings outside `gone` are as they were. */
  ghost predicate Apart(p: Pool, q: Pool, gone: set<Key>) {
    forall j | j !in gone :: (j in q.mapped <==> j in p.mapped) && (j in q.mapped ==> q.mapped[j] == p.mapped[j])
  }

  /** The mappings in `come` are marked as cached; nothing else changed. */
  ghost predicate Marked(p: Pool, q: Pool, come: set<Key>) {
    && q.mapped.Keys == p.mapped.Keys
    && forall j | j in p.mapped :: q.mapped[j] == p.mapped[j].(cached := p.mapped[j].cached || j in come)
  }

  lemma ReleaseOne(p: Pool, k: Key)
    ensures Apart(p, ReleaseFromCache(p, k), {k})
  {
  }

  lemma ApartTrans(p: Pool, q: Pool, r: Pool, gone: set<Key>, k: Key)
    requires k in gone && Apart(p, q, {k}) && Apart(q, r, gone - {k})
    ensures Apart(p, r, gone)
  {
  }

  lemma {:induction false} ReleaseAllKeeps(w: World, gone: set<Key>)
    requires Inv(w)
    ensures Inv(Using(w, ReleaseAll(w.pool, gone))) && Apart(w.pool, ReleaseAll(w.pool, gone), gone)
    decreases |gone|
  {
    hide Inv, ReleaseFromCache;
    if gone == {} {
    } else {
      var k :| k in gone && ReleaseAll(w.pool, gone) == ReleaseAll(ReleaseFromCache(w.pool, k), gone - {k});
      hide ReleaseAll, Apart;
      var q := ReleaseFromCache(w.pool, k);
      CacheStepKeepsInv(w, k);
      ReleaseOne(w.pool, k);
      ReleaseAllKeeps(Using(w, q), gone - {k});
      ApartTrans(w.pool, q, ReleaseAll(q, gone - {k}), gone, k);
    }
  }

  lemma AdoptOne(w: World, k: Key)
    requires Inv(w)
    ensures Marked(w.pool, Adopt(w.pool, k), {k})
  {
    if k in w.pool.mapped { assert MappedOk(w, k); }
    hide Inv;
  }

  lemma MarkedTrans(p: Pool, q: Pool, r: Pool, come: set<Key>, k: Key)
    requires k in come && Marked(p, q, {k}) && Marked(q, r, come - {k})
    ensures Marked(p, r, come)
  {
    forall j | j in p.mapped ensures r.mapped[j] == p.mapped[j].(cached := p.mapped[j].cached || j in come) {
      assert j in q.mapped && j in r.mapped;
    }
  }

  lemma {:induction false} AdoptAllKeeps(w: World, come: set<Key>)
    requires Inv(w)
    ensures Inv(Using(w, AdoptAll(w.pool, come))) && Marked(w.pool, AdoptAll(w.pool, come), come)
    decreases |come|
  {
    hide Inv, Adopt;
    if come == {} {
    } else {
      var k :| k in come && AdoptAll(w.pool, come) == AdoptAll(Adopt(w.pool, k), come - {k});
      hide AdoptAll, Marked;
      var q := Adopt(w.pool, k);
      CacheStepKeepsInv(w, k);
      AdoptOne(w, k);
      AdoptAllKeeps(Using(w, q), come - {k});
      MarkedTrans(w.pool, q, AdoptAll(q, come - {k}), come, k);
    }
  }

  /** Every blob of the cache that is mapped is marked as cached. */
  ghost predicate Adopted(blobs: set<Key>, p: Pool) { forall k | k in blobs && k in p.mapped :: p.mapped[k].cached }

  lemma FollowKeeps(w: World, was: set<Key>, now: set<Key>)
    requires Inv(w) && Adopted(was, w.pool)
    ensures Inv(Using(w, Follow(w.pool, was, now))) && Adopted(now, Follow(w.pool, was, now))
    ensures forall k | k in was && k in now && k in w.pool.mapped :: StaysCached(w.pool, Follow(w.pool, was, now), k)
  {
    var q := ReleaseAll(w.pool, was - now);
    ReleaseAllKeeps(w, was - now);
    AdoptAllKeeps(Using(w, q), now - was);
    hide Inv, ReleaseAll, AdoptAll;
  }

  lemma MappedBefore(w: World, a: Action, k: Key)
    requires Enabled(w, a) && k in Do(w, a).pool.mapped
    ensures k in w.pool.mapped || a == Map(k)
  {
    if !(a.Take? || a.Unpin? || a.Map? || a.AdoptIt? || a.Evict? || a.DiscardIt?) { MappedStays(w, a); }
    hide DoBorrowed, DoCommit, DoEnlist, DoConstruct, DoClose, DoFire, DoFinish, DoEnd;
  }

  /** The other sections leave the mappings of cached blobs with the cache. */
  lemma StepKeepsAdopted(w: World, a: Action, blobs: set<Key>)
    requires Inv(w) && Enabled(w, a) && Adopted(blobs, w.pool)
    requires a.Map? || a.AdoptIt? || a.Evict? ==> a.k !in blobs
    ensures Adopted(blobs, Do(w, a).pool)
    ensures forall k | k in blobs && k in w.pool.mapped :: StaysCached(w.pool, Do(w, a).pool, k)
  {
    forall k | k in blobs && k in w.pool.mapped ensures StaysCached(w.pool, Do(w, a).pool, k) { AdoptedStays(w, a, k); }
    forall k | k in blobs && k in Do(w, a).pool.mapped ensures Do(w, a).pool.mapped[k].cached { MappedBefore(w, a, k); }
  }
}
