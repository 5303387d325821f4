/** What the asset cache's operations are for: what is cached, what is protected, and in
    which order blobs become candidates for eviction. */
module AssetEffects {
  import opened Options
  import opened AssetModel
  import opened AssetSafety
  import opened AssetPolicy
  import opened AssetLoads

  /** `s` with `x` moved to, or put at, the end; the order of the others is as it was. */
  ghost predicate MovedToEnd(s: seq<Key>, x: Key, r: seq<Key>) {
    && r != [] && r[|r| - 1] == x && x !in r[..|r| - 1]
    && exists i: nat {:trigger s[..i]} :: i <= |s| &&
         (if i < |s| then s[i] == x && r == s[..i] + s[i + 1..] + [x] else r == s + [x])
  }

  /** Where `x` is in `s`, if it is; what is left when it is taken out. */
  ghost predicate TakenAt(s: seq<Key>, x: Key, i: nat, r: seq<Key>) {
    i <= |s| && if i < |s| then s[i] == x && r == s[..i] + s[i + 1..] else r == s && x !in s
  }

  lemma {:induction false} WithoutIs(s: seq<Key>, x: Key) returns (i: nat)
    ensures TakenAt(s, x, i, Without(s, x))
  {
    if s == [] || s[0] == x {
      i := 0;
    } else {
      hide TakenAt, Without;
      var j := WithoutIs(s[1..], x);
      i := j + 1;
      WithoutHead(s, x);
      TakenLater(s, x, j, Without(s[1..], x));
    }
  }

  lemma TakenLater(s: seq<Key>, x: Key, j: nat, r: seq<Key>)
    requires s != [] && s[0] != x && TakenAt(s[1..], x, j, r)
    ensures TakenAt(s, x, j + 1, [s[0]] + r)
  {
    if j < |s| - 1 { TailSlices(s, j); } else { HeadTail(s); }
  }

  lemma WithoutHead(s: seq<Key>, x: Key)
    requires s != [] && s[0] != x
    ensures Without(s, x) == [s[0]] + Without(s[1..], x)
  {
  }

  lemma HeadTail(s: seq<Key>)
    requires s != []
    ensures [s[0]] + s[1..] == s && forall y | y in s :: y == s[0] || y in s[1..]
  {
  }

  lemma TailSlices(s: seq<Key>, j: nat)
    requires j < |s| - 1
    ensures [s[0]] + (s[1..][..j] + s[1..][j + 1..]) == s[..j + 1] + s[j + 2..]
  {
  }

  /** `r` is `c` after one use of `d`: its blob, if it can be evicted at all, is now the last
      candidate; nothing else changes. */
  ghost predicate Used(c: Cache, d: Data, r: Cache) {
    var k := KeyOf(d);
    && r == c.(lru := r.lru)
    && if k in c.blobs && !Protected(c.blobs[k]) then MovedToEnd(c.lru, k, r.lru) else r.lru == c.lru
  }

  lemma TouchIs(c: Cache, d: Data)
    requires CacheInv(c)
    ensures Used(c, d, Touch(c, d))
  {
    var k := KeyOf(d);
    hide AliasInv, NegativeInv;
    if k in c.blobs && !Protected(c.blobs[k]) { PutLast(c.lru, k); }
  }

  lemma PutLast(s: seq<Key>, k: Key)
    requires NoDup(s)
    ensures MovedToEnd(s, k, Without(s, k) + [k])
  {
    var i := WithoutIs(s, k);
    var r := Without(s, k) + [k];
    assert r[..|r| - 1] == Without(s, k);
    if i == |s| { assert s[..i] == s; }
  }

  /** Use makes a blob the last candidate for eviction and keeps the order of the others;
      a blob that is recorded or used is there afterwards. */
  lemma UseIsLast(c: Cache, d: Data)
    requires CacheInv(c) && KeyOf(d) != 0
    ensures var r, k := Record(c, d), KeyOf(d);
      && r == c.(blobs := r.blobs, lru := r.lru, bytes := r.bytes)
      && k in r.blobs && (k in c.blobs ==> r.blobs == c.blobs && r.bytes == c.bytes)
      && (k !in c.blobs ==> r.blobs == c.blobs[k := Blob(d.len, [], 0, 0, true)] && r.bytes == c.bytes + d.len)
      && (if k in c.blobs && Protected(c.blobs[k]) then r.lru == c.lru else MovedToEnd(c.lru, k, r.lru))
  {
    var k := KeyOf(d);
    hide AliasInv, NegativeInv;
    if k !in c.blobs || !Protected(c.blobs[k]) { PutLast(c.lru, k); }
  }

  /** A name that is set refers to the data; every other name, and every source, is as it
      was, and the name is no longer cached as missing. */
  lemma SetNameIs(c: Cache, n: string, d: Data)
    requires CacheInv(c)
    ensures var r := SetName(c, n, d);
      && n in r.names && r.names[n].Positive? && KeyOf(r.names[n].data) == KeyOf(d)
      && (KeyOf(d) != 0 ==> KeyOf(d) in r.blobs && Name(n) in r.blobs[KeyOf(d)].aliases)
      && (forall m | m != n :: (m in r.names <==> m in c.names) && (m in c.names ==> r.names[m] == c.names[m]))
      && r.sources == c.sources && r.negatives == c.negatives - {n}
  {
    SetNameKeepsInv(c, n, d);
    SetNameNames(c, n, d);
    var r := SetName(c, n, d);
    hide SetName, LruInv;
    assert Target(r.names, r.sources, Name(n)) == KeyOf(d);
  }

  /** A name that goes takes its blob with it if that had no other name or source; nothing else
      about the blobs changes but the alias itself. */
  lemma DeleteNameIs(c: Cache, n: string)
    requires CacheInv(c)
    ensures var r, k := DeleteName(c, n), Target(c.names, c.sources, Name(n));
      && r.names == c.names - {n} && r.sources == c.sources && r.negatives == c.negatives - {n}
      && (k != 0 ==> k in c.blobs)
      && if k != 0 && OnlyAlias(c, k, Name(n))
         then r.blobs == c.blobs - {k} && Removed(c.lru, k, r.lru)
         else r.lru == c.lru && r.blobs.Keys == c.blobs.Keys && forall j | j in r.blobs ::
             SameUse(c.blobs[j], r.blobs[j])
  {
    DeleteNames(c, n);
    var r, k := DeleteName(c, n), Target(c.names, c.sources, Name(n));
    if k != 0 {
      OnlyAliasGoes(c, k, Name(n));
      if OnlyAlias(c, k, Name(n)) { LruTakes(c, k); }
    }
    hide CacheInv, NegativeInv, LruInv, Removed;
  }

  /** `a` is the one alias of blob `k`. */
  ghost predicate OnlyAlias(c: Cache, k: Key, a: Alias) { k in c.blobs && forall b | b in c.blobs[k].aliases :: b == a }

  /** The same blob but for its aliases. */
  predicate SameUse(b: Blob, r: Blob) { r == b.(aliases := r.aliases) }

  ghost predicate Removed(s: seq<Key>, x: Key, r: seq<Key>) { exists i :: TakenAt(s, x, i, r) }

  lemma OnlyAliasGoes(c: Cache, k: Key, a: Alias)
    requires CacheInv(c) && k in c.blobs && a in c.blobs[k].aliases
    ensures OnlyAlias(c, k, a) <==> Without(c.blobs[k].aliases, a) == []
  {
    var s := c.blobs[k].aliases;
    assert NoDup(s);
    hide CacheInv;
    if Without(s, a) != [] { assert Without(s, a)[0] in s; }
    forall b | b in s && Without(s, a) == [] ensures b == a { assert b !in Without(s, a); }
  }

  lemma LruTakes(c: Cache, k: Key)
    requires CacheInv(c) && k in c.blobs
    ensures Removed(c.lru, k, if c.blobs[k].queued then Without(c.lru, k) else c.lru)
  {
    var i := WithoutIs(c.lru, k);
    assert TakenAt(c.lru, k, i, Without(c.lru, k));
    assert k in c.lru <==> c.blobs[k].queued;
  }

  /** What setting a name does to the blobs: the data's blob is used, or recorded with the data
      if it is new, and no protection of any blob changes. */
  lemma SetNameUses(c: Cache, n: string, d: Data)
    requires CacheInv(c)
    ensures var r, k := SetName(c, n, d), KeyOf(d);
      if n in c.names && c.names[n].Positive? && KeyOf(c.names[n].data) == k then Used(c, d, r)
      else
        var q := DeleteName(c, n);
        && Linked(q, Name(n), d, r)
        && (k != 0 ==> (k in q.blobs <==> k in c.blobs) && (k in c.blobs ==> q.blobs[k] == c.blobs[k]))
  {
    var k := KeyOf(d);
    if n in c.names && c.names[n].Positive? && KeyOf(c.names[n].data) == k {
      TouchIs(c, d);
    } else {
      DeleteNameKeepsInv(c, n);
      if k != 0 { DeleteKeepsOther(c, n, k); }
      hide CacheInv, DeleteName, Link, Point, Used, Linked;
      LinkIs(DeleteName(c, n), Name(n), d);
    }
  }

  /** In `r` the new alias `a` refers to `d`: the data's blob was used, or recorded if it is new,
      and no other blob and no protection has changed. */
  ghost predicate Linked(q: Cache, a: Alias, d: Data, r: Cache) {
    var k := KeyOf(d);
    && r.blobs.Keys == q.blobs.Keys + (if k == 0 then {} else {k})
    && (forall j | j in q.blobs && j != k :: r.blobs[j] == q.blobs[j])
    && (k != 0 && k in q.blobs ==> SameUse(q.blobs[k], r.blobs[k]))
    && (k != 0 && k !in q.blobs ==> r.blobs[k] == Blob(d.len, [a], 0, 0, true))
    && if k == 0 || (k in q.blobs && Protected(q.blobs[k])) then r.lru == q.lru else MovedToEnd(q.lru, k, r.lru)
  }

  /** What pointing a name or source at data does to the blobs. */
  lemma LinkIs(q: Cache, a: Alias, d: Data)
    requires CacheInv(q)
    ensures Linked(q, a, d, Link(Point(q, a, d), d, a))
  {
    if KeyOf(d) != 0 { UseIsLast(q, d); }
    LinkUses(q, a, d);
    hide CacheInv, MovedToEnd, Link, Point, Record;
  }

  lemma DeleteKeepsOther(c: Cache, n: string, k: Key)
    requires CacheInv(c) && Target(c.names, c.sources, Name(n)) != k
    ensures var q := DeleteName(c, n);
      (k in q.blobs <==> k in c.blobs) && (k in c.blobs ==> q.blobs[k] == c.blobs[k])
  {
  }

  lemma LinkUses(c: Cache, a: Alias, d: Data)
    ensures var r, u, k := Link(Point(c, a, d), d, a), Record(c, d), KeyOf(d);
      && r.lru == u.lru
      && if k == 0 then r.blobs == c.blobs
         else k in u.blobs && r.blobs == u.blobs[k := u.blobs[k].(aliases := u.blobs[k].aliases + [a])]
  {
    hide Record;
    RecordPoint(c, a, d);
    RecordNothing(c, d);
  }

  lemma RecordNothing(c: Cache, d: Data)
    ensures KeyOf(d) == 0 ==> Record(c, d) == c
  {
  }

  lemma SetNameNames(c: Cache, n: string, d: Data)
    requires CacheInv(c)
    ensures var r := SetName(c, n, d);
      && n in r.names && r.names[n].Positive? && KeyOf(r.names[n].data) == KeyOf(d)
      && (forall m | m != n :: (m in r.names <==> m in c.names) && (m in c.names ==> r.names[m] == c.names[m]))
      && r.sources == c.sources && r.negatives == c.negatives - {n}
  {
    hide AliasInv, LruInv;
    assert n !in c.negatives ==> c.negatives - {n} == c.negatives;
    LinkNames(c, d, Name(n));
    LinkNames(Point(DeleteName(c, n), Name(n), d), d, Name(n));
    DeleteNames(c, n);
    hide Link, Touch, DeleteName;
  }

  lemma LinkNames(c: Cache, d: Data, a: Alias)
    ensures Link(c, d, a) == c.(blobs := Link(c, d, a).blobs, lru := Link(c, d, a).lru, bytes := Link(c, d, a).bytes)
    ensures Touch(c, d) == c.(lru := Touch(c, d).lru)
  {
  }

  lemma DeleteNames(c: Cache, n: string)
    requires CacheInv(c)
    ensures var r := DeleteName(c, n);
      r.names == c.names - {n} && r.sources == c.sources && r.negatives == c.negatives - {n}
  {
    hide AliasInv, LruInv;
    assert n !in c.names ==> c.names - {n} == c.names;
    assert n !in c.negatives ==> c.negatives - {n} == c.negatives;
  }

  /** A source that is set keeps what was cached for it first. */
  lemma SetSourceIs(c: Cache, a: Alias, d: Data)
    requires CacheInv(c) && !a.Name?
    ensures var r := SetSource(c, a, d);
      var e := if a in c.sources then c.sources[a] else d;
      && r.names == c.names && r.negatives == c.negatives
      && a in r.sources && r.sources[a] == e
      && (forall b | b != a ::
            (b in r.sources <==> b in c.sources) && (b in c.sources ==> r.sources[b] == c.sources[b]))
      && (KeyOf(e) != 0 ==> KeyOf(e) in r.blobs && a in r.blobs[KeyOf(e)].aliases)
      && if a in c.sources then r == c else Linked(c, a, d, r)
  {
    if a !in c.sources { LinkIs(c, a, d); }
    SetSourceKeepsInv(c, a, d);
    SetSourceSources(c, a, d);
    SourceIsAlias(SetSource(c, a, d), a);
    hide SetSource, CacheInv, Linked;
  }

  lemma SetSourceSources(c: Cache, a: Alias, d: Data)
    requires !a.Name?
    ensures var r := SetSource(c, a, d);
      && r.names == c.names && r.negatives == c.negatives
      && r.sources == if a in c.sources then c.sources else c.sources[a := d]
  {
    LinkNames(Point(c, a, d), d, a);
    hide Link;
  }

  lemma SourceIsAlias(c: Cache, a: Alias)
    requires CacheInv(c) && a in c.sources
    ensures KeyOf(c.sources[a]) != 0 ==> KeyOf(c.sources[a]) in c.blobs && a in c.blobs[KeyOf(c.sources[a])].aliases
  {
    hide LruInv, NegativeInv;
    assert Target(c.names, c.sources, a) == KeyOf(c.sources[a]);
  }

  /** A missing name is remembered until its time is up and is the newest such name. */
  lemma AddNegativeIs(c: Cache, n: string, now: nat, ttl: nat)
    requires CacheInv(c) && ttl > 0
    ensures var r := AddNegative(c, n, now, ttl);
      && r.negatives == c.negatives + {n} && n in r.names && r.names[n] == Negative(now + ttl, r.nextOrder)
      && (forall m | m != n :: (m in r.names <==> m in c.names) && (m in c.names ==> r.names[m] == c.names[m]))
      && (forall m | m in r.negatives && m != n :: r.names[m].order < r.names[n].order)
      && (forall t: nat | t < now + ttl :: CachedName(r, n, t).1 == Some(r.names[n]))
      && (forall t: nat | t >= now + ttl :: CachedName(r, n, t).1 == None)
  {
    DeleteNameKeepsInv(c, n);
    DeleteNames(c, n);
    assert c.negatives - {n} + {n} == c.negatives + {n};
    hide AliasInv, LruInv;
  }

  /** A blob that is still protected after one protection less stays out of the LRU; one that is
      not becomes the last candidate for eviction. */
  ghost predicate Unheld(c: Cache, k: Key, b: Blob, r: Cache) {
    r == c.(blobs := c.blobs[k := b.(queued := !Protected(b))], lru := if Protected(b) then c.lru else c.lru + [k])
  }

  lemma ReleaseIs(c: Cache, k: Key)
    requires CacheInv(c) && k in c.blobs
    ensures var b, r := c.blobs[k], Release(c, k);
      if b.inFlight == 0 then r == c else Unheld(c, k, b.(inFlight := b.inFlight - 1), r)
    ensures var b, r := c.blobs[k], Return(c, k);
      if b.handles == 0 then r == c else Unheld(c, k, b.(handles := b.handles - 1), r)
  {
    assert c.blobs[k].queued <==> !Protected(c.blobs[k]);
    hide CacheInv;
  }

  /** A native handle takes the blob out of the LRU. */
  lemma BorrowTakes(c: Cache, k: Key)
    requires CacheInv(c) && k in c.blobs
    ensures var b, r := c.blobs[k], Borrow(c, k);
      && r == c.(blobs := c.blobs[k := b.(handles := b.handles + 1, queued := false)], lru := r.lru)
      && Removed(c.lru, k, r.lru)
  {
    LruTakes(c, k);
    hide CacheInv, Removed;
  }

  /** A load that protects data keeps its blob out of the LRU, whatever else happens to the
      LRU, until it releases it. */
  lemma ProtectLoadIs(s: Source, id: LoadId, d: Data)
    requires CacheInv(s.cache) && id < |s.records| && s.records[id].blob == 0 && KeyOf(d) != 0
    ensures var u := ProtectLoad(s, id, d);
      && u.records[id].blob == KeyOf(d) && KeyOf(d) in u.cache.blobs && KeyOf(d) !in u.cache.lru
      && u.cache.blobs[KeyOf(d)].inFlight == 1 +
           (if KeyOf(d) in s.cache.blobs then s.cache.blobs[KeyOf(d)].inFlight else 0)
      && u.cache == s.cache.(blobs := u.cache.blobs, lru := u.cache.lru, bytes := u.cache.bytes)
      && Removed(s.cache.lru, KeyOf(d), u.cache.lru)
      && u == s.(cache := u.cache, records := s.records[id := s.records[id].(blob := KeyOf(d))])
      && (forall k | k != KeyOf(d) ::
            && (k in u.cache.blobs <==> k in s.cache.blobs)
            && (k in s.cache.blobs ==> u.cache.blobs[k] == s.cache.blobs[k]))
  {
    ProtectKeepsInv(s.cache, d);
    ProtectTakes(s.cache, d);
  }

  lemma ProtectTakes(c: Cache, d: Data)
    requires CacheInv(c) && KeyOf(d) != 0
    ensures Removed(c.lru, KeyOf(d), Protect(c, d).lru)
  {
    hide AliasInv, NegativeInv, TakenAt;
    var k := KeyOf(d);
    var i := WithoutIs(c.lru, k);
    assert TakenAt(c.lru, k, i, Without(c.lru, k));
    WithoutLast(Without(c.lru, k), k);
    assert k !in c.lru ==> Without(c.lru, k) == c.lru;
  }

  lemma {:induction false} WithoutLast(s: seq<Key>, k: Key)
    requires k !in s
    ensures Without(s + [k], k) == s
  {
    if s == [] {
    } else {
      WithoutLast(s[1..], k);
      assert (s + [k])[1..] == s[1..] + [k];
    }
  }

  /** What a successful or failed load leaves in a live cache that did not have the name. */
  lemma PublishIs(s: Source, name: string, id: LoadId, outcome: Outcome, policy: Policy, now: nat)
    requires CacheInv(s.cache) && id < |s.records| && !s.retired && name !in s.cache.names
    ensures var u := Publish(s, name, id, outcome, policy, now);
      match outcome
      case Loaded(d) =>
        && name in u.cache.names && u.cache.names[name].Positive? && KeyOf(u.cache.names[name].data) == KeyOf(d)
        && (KeyOf(d) != 0 && s.records[id].blob == 0 ==>
             KeyOf(d) in u.cache.blobs && u.cache.blobs[KeyOf(d)].inFlight > 0)
      case Missing =>
        if policy.cap == 0 || policy.ttl == 0 then u == s
        else name in u.cache.negatives && u.cache.names[name] == Negative(now + policy.ttl, u.cache.nextOrder)
      case Failed => u == s
  {
    match outcome
    case Loaded(d) =>
      ProtectLoadKeepsCache(s, id, d);
      var p := ProtectLoad(s, id, d);
      SetNameIs(p.cache, name, d);
      if KeyOf(d) != 0 && s.records[id].blob == 0 {
        ProtectLoadIs(s, id, d);
        LinkKeepsFlight(p.cache, name, d);
      }
    case Missing =>
      if policy.cap != 0 && policy.ttl != 0 { AddNegativeIs(s.cache, name, now, policy.ttl); }
    case Failed =>
  }

  lemma LinkKeepsFlight(c: Cache, n: string, d: Data)
    requires CacheInv(c) && n !in c.names && KeyOf(d) in c.blobs
    ensures KeyOf(d) in SetName(c, n, d).blobs
    ensures SetName(c, n, d).blobs[KeyOf(d)].inFlight == c.blobs[KeyOf(d)].inFlight
  {
  }

  /** What a load found is cached under the requested name and, if that name was free, under
      the name it was found by. */
  lemma PublishNamesIs(s: Source, id: LoadId, requested: string, used: string, d: Data)
    requires CacheInv(s.cache) && id < |s.records| && !s.retired
    ensures var c := PublishNames(s, id, requested, used, d).cache;
      && requested in c.names && c.names[requested].Positive? && KeyOf(c.names[requested].data) == KeyOf(d)
      && (used != "" && used !in s.cache.names ==>
           used in c.names && c.names[used].Positive? && KeyOf(c.names[used].data) == KeyOf(d))
      && (used in s.cache.names && used != requested ==> used in c.names && c.names[used] == s.cache.names[used])
  {
    ProtectLoadKeepsCache(s, id, d);
    ProtectKeepsNames(s, id, d);
    hide CacheInv, ProtectLoad, SetName;
    var p := ProtectLoad(s, id, d);
    SetNameIs(p.cache, requested, d);
    SetNameKeepsInv(p.cache, requested, d);
    SetNameIs(SetName(p.cache, requested, d), used, d);
  }

  lemma ProtectKeepsNames(s: Source, id: LoadId, d: Data)
    requires id < |s.records|
    ensures ProtectLoad(s, id, d).cache.names == s.cache.names && ProtectLoad(s, id, d).cache.sources == s.cache.sources
  {
  }

  /** A name is a hit exactly when it is cached and, if it is cached as missing, its time is
      not up.  A hit with data counts as a use of the data's blob; a hit of a missing name
      changes nothing; a name whose time is up is forgotten. */
  lemma CachedNameIs(c: Cache, n: string, now: nat)
    requires CacheInv(c)
    ensures var (r, e) := CachedName(c, n, now);
      && (e.Some? <==> n in c.names && (c.names[n].Negative? ==> c.names[n].expires > now))
      && (e.Some? ==> e.value == c.names[n])
      && (e.Some? ==> if e.value.Positive? then Used(c, e.value.data, r) else r == c)
      && (e.None? ==>
           && n !in r.names
           && r == c.(names := c.names - {n}, negatives := c.negatives - {n}, nextExpiry := r.nextExpiry)
           && r.nextExpiry == if c.negatives != {} && r.negatives == {} then 0 else c.nextExpiry)
  {
    CachedNameKeepsInv(c, n, now);
    if n !in c.names {
      assert c.names - {n} == c.names && c.negatives - {n} == c.negatives;
    } else if c.names[n].Positive? {
      TouchIs(c, c.names[n].data);
    }
    hide AliasInv, LruInv, Touch, Used;
  }
}
