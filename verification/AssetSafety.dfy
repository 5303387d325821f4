/** Every locked operation keeps the asset cache's structure. */
module AssetSafety {
  import opened AssetModel

  // ----------------------------------------------------------------- the LRU

  lemma AppendNoDup<T>(s: seq<T>, x: T)
    requires NoDup(s) && x !in s
    ensures NoDup(s + [x])
  {
  }

  lemma LruTouch(lru: seq<Key>, blobs: map<Key, Blob>, k: Key)
    requires LruInv(lru, blobs) && k in lru
    ensures LruInv(Without(lru, k) + [k], blobs)
  {
    AppendNoDup(Without(lru, k), k);
  }

  /** An unprotected blob that is not listed yet joins the LRU. */
  lemma LruJoin(lru: seq<Key>, blobs: map<Key, Blob>, k: Key, b: Blob)
    requires LruInv(lru, blobs) && k !in lru && !Protected(b) && b.queued
    ensures LruInv(lru + [k], blobs[k := b])
  {
    AppendNoDup(lru, k);
  }

  lemma LruLeave(lru: seq<Key>, blobs: map<Key, Blob>, k: Key, b: Blob)
    requires LruInv(lru, blobs) && k in blobs && Protected(b) && !b.queued
    ensures LruInv(if blobs[k].queued then Without(lru, k) else lru, blobs[k := b])
  {
  }

  lemma LruDrop(lru: seq<Key>, blobs: map<Key, Blob>, k: Key)
    requires LruInv(lru, blobs) && k in blobs
    ensures LruInv(if blobs[k].queued then Without(lru, k) else lru, blobs - {k})
  {
  }

  lemma LruSame(lru: seq<Key>, blobs: map<Key, Blob>, k: Key, b: Blob)
    requires LruInv(lru, blobs) && k in blobs && Protected(b) == Protected(blobs[k]) && b.queued == blobs[k].queued
    ensures LruInv(lru, blobs[k := b])
  {
  }

  // ------------------------------------------------------------------ bytes

  lemma SameBytes(blobs: map<Key, Blob>, k: Key, b: Blob)
    requires k in blobs && b.bytes == blobs[k].bytes
    ensures Sum(blobs[k := b]) == Sum(blobs)
  {
    SumAdd(blobs, k, b);
    SumSplit(blobs, k);
  }

  // ---------------------------------------------------------------- aliases

  lemma AliasSame(names: map<string, Entry>, sources: map<Alias, Data>, blobs: map<Key, Blob>, k: Key, b: Blob)
    requires AliasInv(names, sources, blobs) && k in blobs && b.aliases == blobs[k].aliases
    ensures AliasInv(names, sources, blobs[k := b])
  {
  }

  lemma AliasNewBlob(names: map<string, Entry>, sources: map<Alias, Data>, blobs: map<Key, Blob>, k: Key, b: Blob)
    requires AliasInv(names, sources, blobs) && k !in blobs && k != 0 && b.aliases == []
    ensures AliasInv(names, sources, blobs[k := b])
  {
    var u := blobs[k := b];
    forall j, a {:trigger a in u[j].aliases} | j in u ensures a in u[j].aliases <==> Target(names, sources, a) == j {
      assert j in blobs ==> (a in blobs[j].aliases <==> Target(names, sources, a) == j);
    }
  }

  // -------------------------------------------------------- the primitives

  lemma TouchKeepsInv(c: Cache, d: Data)
    requires CacheInv(c)
    ensures CacheInv(Touch(c, d))
  {
    var k := KeyOf(d);
    if k in c.blobs && c.blobs[k].queued {
      LruTouch(c.lru, c.blobs, k);
    }
  }

  lemma RecordKeepsInv(c: Cache, d: Data)
    requires CacheInv(c)
    ensures CacheInv(Record(c, d))
  {
    var k := KeyOf(d);
    if k in c.blobs {
      TouchKeepsInv(c, d);
    } else if k != 0 {
      var b := Blob(d.len, [], 0, 0, true);
      LruJoin(c.lru, c.blobs, k, b);
      AliasNewBlob(c.names, c.sources, c.blobs, k, b);
      SumAdd(c.blobs, k, b);
      assert c.blobs - {k} == c.blobs;
    }
  }

  lemma HoldKeepsInv(c: Cache, k: Key, b: Blob)
    requires CacheInv(c) && k in c.blobs && Protected(b) && b.bytes == c.blobs[k].bytes
    requires b.aliases == c.blobs[k].aliases
    ensures CacheInv(Hold(c, k, b))
  {
    var h := b.(queued := false);
    LruLeave(c.lru, c.blobs, k, h);
    AliasSame(c.names, c.sources, c.blobs, k, h);
    SameBytes(c.blobs, k, h);
  }

  lemma RecordHas(c: Cache, d: Data)
    ensures KeyOf(d) != 0 ==> KeyOf(d) in Record(c, d).blobs
  {
  }

  lemma ProtectKeepsInv(c: Cache, d: Data)
    requires CacheInv(c)
    ensures CacheInv(Protect(c, d))
  {
    hide CacheInv, Touch, Record, Hold;
    RecordKeepsInv(c, d);
    RecordHas(c, d);
    var r, k := Record(c, d), KeyOf(d);
    if k != 0 {
      HoldKeepsInv(r, k, r.blobs[k].(inFlight := r.blobs[k].inFlight + 1));
    }
  }

  lemma BorrowKeepsInv(c: Cache, k: Key)
    requires CacheInv(c)
    ensures CacheInv(Borrow(c, k))
  {
    if k in c.blobs {
      HoldKeepsInv(c, k, c.blobs[k].(handles := c.blobs[k].handles + 1));
    }
  }

  /** Giving up one protection; the blob goes to the back of the LRU when it was the last. */
  lemma UnholdKeepsInv(c: Cache, k: Key, b: Blob)
    requires CacheInv(c) && k in c.blobs && Protected(c.blobs[k]) && !b.queued
    requires b.bytes == c.blobs[k].bytes && b.aliases == c.blobs[k].aliases
    ensures CacheInv(MakeEvictable(c.(blobs := c.blobs[k := b]), k))
  {
    var e := if Protected(b) then b else b.(queued := true);
    assert MakeEvictable(c.(blobs := c.blobs[k := b]), k).blobs == c.blobs[k := e];
    if Protected(b) {
      LruSame(c.lru, c.blobs, k, e);
    } else {
      LruJoin(c.lru, c.blobs, k, e);
    }
    AliasSame(c.names, c.sources, c.blobs, k, e);
    SameBytes(c.blobs, k, e);
  }

  lemma ReleaseKeepsInv(c: Cache, k: Key)
    requires CacheInv(c)
    ensures CacheInv(Release(c, k)) && CacheInv(Return(c, k))
  {
    if k in c.blobs {
      var b := c.blobs[k];
      if b.inFlight != 0 { UnholdKeepsInv(c, k, b.(inFlight := b.inFlight - 1)); }
      if b.handles != 0 { UnholdKeepsInv(c, k, b.(handles := b.handles - 1)); }
    }
  }

  // ------------------------------------------------------ linking and unlinking

  predicate Unused(c: Cache, a: Alias) { if a.Name? then a.key !in c.names else a !in c.sources }

  lemma AliasLink(c: Cache, a: Alias, d: Data)
    requires AliasInv(c.names, c.sources, c.blobs) && Unused(c, a) && (KeyOf(d) == 0 || KeyOf(d) in c.blobs)
    ensures var p := Point(c, a, d);
      var k := KeyOf(d);
      AliasInv(p.names, p.sources,
        if k == 0 then c.blobs else c.blobs[k := c.blobs[k].(aliases := c.blobs[k].aliases + [a])])
  {
    var p, k := Point(c, a, d), KeyOf(d);
    assert forall b | b != a :: Target(p.names, p.sources, b) == Target(c.names, c.sources, b);
    assert Target(p.names, p.sources, a) == k && Target(c.names, c.sources, a) == 0;
    forall b {:trigger Target(p.names, p.sources, b)} | Target(p.names, p.sources, b) != 0
      ensures Target(p.names, p.sources, b) in c.blobs
    {
      assert b != a ==> Target(c.names, c.sources, b) in c.blobs;
    }
    if k != 0 {
      assert a !in c.blobs[k].aliases;
      AppendNoDup(c.blobs[k].aliases, a);
      var u := c.blobs[k := c.blobs[k].(aliases := c.blobs[k].aliases + [a])];
      forall j, b {:trigger b in u[j].aliases} | j in u
        ensures b in u[j].aliases <==> Target(p.names, p.sources, b) == j
      {
        assert b in c.blobs[j].aliases <==> Target(c.names, c.sources, b) == j;
      }
    }
  }

  /** Adding an alias to a blob concerns the alias table alone. */
  lemma LinkFrame(c: Cache, a: Alias, d: Data)
    requires CacheInv(c) && KeyOf(d) in c.blobs
    ensures var b := c.blobs[KeyOf(d)].(aliases := c.blobs[KeyOf(d)].aliases + [a]);
      LruInv(c.lru, c.blobs[KeyOf(d) := b]) && Sum(c.blobs[KeyOf(d) := b]) == c.bytes
  {
    var k := KeyOf(d);
    var b := c.blobs[k].(aliases := c.blobs[k].aliases + [a]);
    hide AliasInv;
    LruSame(c.lru, c.blobs, k, b);
    SameBytes(c.blobs, k, b);
  }

  lemma RecordPoint(c: Cache, a: Alias, d: Data)
    ensures Record(Point(c, a, d), d) == Point(Record(c, d), a, d)
    ensures Unused(c, a) ==> Unused(Record(c, d), a)
    ensures KeyOf(d) != 0 ==> KeyOf(d) in Record(c, d).blobs
  {
  }

  /** An unused alias is pointed at `d` and linked into its blob. */
  lemma LinkKeepsInv(c: Cache, a: Alias, d: Data)
    requires CacheInv(c) && Unused(c, a)
    ensures CacheInv(Link(Point(c, a, d), d, a))
  {
    hide AliasInv, LruInv, NoDup, Record, Sum, Unused, Target;
    RecordKeepsInv(c, d);
    RecordPoint(c, a, d);
    var r := Record(c, d);
    AliasLink(r, a, d);
    if KeyOf(d) != 0 {
      LinkFrame(r, a, d);
    }
  }

  lemma AliasUnlink(names: map<string, Entry>, sources: map<Alias, Data>, blobs: map<Key, Blob>,
      names': map<string, Entry>,
                    k: Key, a: Alias)
    requires AliasInv(names, sources, blobs) && k in blobs && Target(names, sources, a) == k
    requires Target(names', sources, a) == 0
    requires forall b | b != a :: Target(names', sources, b) == Target(names, sources, b)
    ensures var b := blobs[k].(aliases := Without(blobs[k].aliases, a));
      if b.aliases == [] then AliasInv(names', sources, blobs - {k}) else AliasInv(names', sources, blobs[k := b])
  {
    var b := blobs[k].(aliases := Without(blobs[k].aliases, a));
    assert NoDup(blobs[k].aliases);
    var u := if b.aliases == [] then blobs - {k} else blobs[k := b];
    forall j, x {:trigger x in u[j].aliases} | j in u ensures x in u[j].aliases <==> Target(names', sources, x) == j {
      assert x in blobs[j].aliases <==> Target(names, sources, x) == j;
    }
    forall x {:trigger Target(names', sources, x)} | Target(names', sources, x) != 0
      ensures Target(names', sources, x) in u
    {
      assert x != a && Target(names, sources, x) in blobs;
      assert x in blobs[Target(names, sources, x)].aliases;
    }
    forall j {:trigger NoDup(u[j].aliases)} | j in u ensures NoDup(u[j].aliases) { assert NoDup(blobs[j].aliases); }
  }

  lemma UnlinkKeepsInv(c: Cache, n: string)
    requires CacheInv(c) && n in c.names && c.names[n].Positive?
    ensures CacheInv(DeleteName(c, n))
  {
    var k := KeyOf(c.names[n].data);
    var a := Name(n);
    var names := c.names - {n};
    assert Target(c.names, c.sources, a) == k;
    assert forall b | b != a :: Target(names, c.sources, b) == Target(c.names, c.sources, b);
    if k == 0 {
      assert forall b :: Target(names, c.sources, b) == Target(c.names, c.sources, b);
      AliasRename(c.names, names, c.sources, c.blobs);
    } else {
      AliasUnlink(c.names, c.sources, c.blobs, names, k, a);
      var b := c.blobs[k].(aliases := Without(c.blobs[k].aliases, a));
      LruSame(c.lru, c.blobs, k, b);
      SameBytes(c.blobs, k, b);
      if b.aliases == [] {
        LruDrop(c.lru, c.blobs, k);
        SumSplit(c.blobs, k);
        assert c.blobs[k := b] - {k} == c.blobs - {k};
      }
    }
  }

  lemma AliasRename(names: map<string, Entry>, names': map<string, Entry>, sources: map<Alias, Data>,
      blobs: map<Key, Blob>)
    requires AliasInv(names, sources, blobs)
    requires forall b :: Target(names', sources, b) == Target(names, sources, b)
    ensures AliasInv(names', sources, blobs)
  {
  }

  lemma DeleteNameKeepsInv(c: Cache, n: string)
    requires CacheInv(c)
    ensures CacheInv(DeleteName(c, n)) && n !in DeleteName(c, n).names
    ensures forall m | m != n :: m in c.names <==> m in DeleteName(c, n).names
  {
    if n in c.names && c.names[n].Positive? {
      UnlinkKeepsInv(c, n);
    } else if n in c.names {
      AliasRename(c.names, c.names - {n}, c.sources, c.blobs);
    }
  }

  lemma SetNameKeepsInv(c: Cache, n: string, d: Data)
    requires CacheInv(c)
    ensures CacheInv(SetName(c, n, d))
  {
    if n in c.names && c.names[n].Positive? && KeyOf(c.names[n].data) == KeyOf(d) {
      TouchKeepsInv(c, d);
    } else {
      DeleteNameKeepsInv(c, n);
      LinkKeepsInv(DeleteName(c, n), Name(n), d);
    }
  }

  lemma SetSourceKeepsInv(c: Cache, a: Alias, d: Data)
    requires CacheInv(c) && !a.Name?
    ensures CacheInv(SetSource(c, a, d))
  {
    if a !in c.sources {
      LinkKeepsInv(c, a, d);
    }
  }

  lemma AddNegativeKeepsInv(c: Cache, n: string, now: nat, ttl: nat)
    requires CacheInv(c) && ttl > 0
    ensures CacheInv(AddNegative(c, n, now, ttl))
  {
    DeleteNameKeepsInv(c, n);
    var u := DeleteName(c, n);
    AliasRename(u.names, AddNegative(c, n, now, ttl).names, u.sources, u.blobs);
  }

  /** What `a` refers to once every reference to `k` is gone. */
  function Redirect(c: Cache, k: Key, a: Alias): Key {
    var t := Target(c.names, c.sources, a);
    if t == k then 0 else t
  }

  lemma PurgeRedirects(c: Cache, k: Key, a: Alias)
    requires AliasInv(c.names, c.sources, c.blobs) && k in c.blobs
    ensures Target(Purge(c, k).names, Purge(c, k).sources, a) == Redirect(c, k, a)
  {
    DropAliasesExact(c, k, c.blobs[k].aliases);
    assert a in c.blobs[k].aliases <==> Target(c.names, c.sources, a) == k;
  }

  lemma PurgeNegatives(c: Cache, k: Key)
    requires NegativeInv(c.names, c.negatives, c.nextOrder, c.nextExpiry) && k in c.blobs
    ensures NegativeInv(Purge(c, k).names, c.negatives, c.nextOrder, c.nextExpiry)
  {
    DropAliasesExact(c, k, c.blobs[k].aliases);
  }

  lemma PurgeShape(c: Cache, k: Key)
    requires k in c.blobs
    ensures Purge(c, k) == c.(names := Purge(c, k).names, sources := Purge(c, k).sources, blobs := c.blobs - {k},
      bytes := c.bytes - c.blobs[k].bytes, lru := if c.blobs[k].queued then Without(c.lru, k) else c.lru)
  {
    DropAliasesExact(c, k, c.blobs[k].aliases);
    hide DropAliases;
  }

  lemma PurgeKeepsInv(c: Cache, k: Key)
    requires CacheInv(c) && k in c.blobs
    ensures CacheInv(Purge(c, k))
    ensures Purge(c, k) == c.(names := Purge(c, k).names, sources := Purge(c, k).sources, blobs := c.blobs - {k},
      bytes := c.bytes - c.blobs[k].bytes, lru := Purge(c, k).lru)
    ensures forall a :: Target(Purge(c, k).names, Purge(c, k).sources, a) == Redirect(c, k, a)
  {
    PurgeShape(c, k);
    PurgeNegatives(c, k);
    forall a ensures Target(Purge(c, k).names, Purge(c, k).sources, a) == Redirect(c, k, a) { PurgeRedirects(c, k, a); }
    PurgeAliases(c, k);
    LruDrop(c.lru, c.blobs, k);
    SumSplit(c.blobs, k);
    hide AliasInv, LruInv, NegativeInv, Purge, Target, Redirect;
  }

  lemma PurgeAliases(c: Cache, k: Key)
    requires AliasInv(c.names, c.sources, c.blobs) && k in c.blobs
    requires forall a :: Target(Purge(c, k).names, Purge(c, k).sources, a) == Redirect(c, k, a)
    ensures AliasInv(Purge(c, k).names, Purge(c, k).sources, Purge(c, k).blobs)
  {
    var p := Purge(c, k);
    DropAliasesExact(c, k, c.blobs[k].aliases);
    forall j, a {:trigger a in p.blobs[j].aliases} | j in p.blobs
      ensures a in p.blobs[j].aliases <==> Target(p.names, p.sources, a) == j
    {
      assert a in c.blobs[j].aliases <==> Target(c.names, c.sources, a) == j;
    }
    forall j {:trigger NoDup(p.blobs[j].aliases)} | j in p.blobs ensures NoDup(p.blobs[j].aliases) {
      assert NoDup(c.blobs[j].aliases);
    }
  }
}
