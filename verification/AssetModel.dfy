/** The asset cache of one source generation as a value: names, sources, blobs, the
    least-recently-used list and the negative index, with the effect of each locked
    helper on it. */
module AssetModel {

  /** A byte slice, known by the address and the length of its backing array. */
  datatype RawData = RawData(ptr: nat, len: nat)
  type Data = d: RawData | d.len > 0 ==> d.ptr > 0 witness RawData(0, 0)

  type Key = nat

  /** assetBlobKey: empty data has no backing blob. */
  function KeyOf(d: Data): Key { if d.len == 0 then 0 else d.ptr }

  datatype Alias = Name(key: string) | Path(key: string) | Zip(key: string)

  datatype Entry = Positive(data: Data) | Negative(expires: nat, order: nat)

  /** `queued` is blob.lru != nil. */
  datatype Blob = Blob(bytes: nat, aliases: seq<Alias>, inFlight: nat, handles: nat, queued: bool)

  predicate Protected(b: Blob) { b.inFlight != 0 || b.handles != 0 }

  /** Times are offsets from the zero time.Time, which is 0. */
  datatype Cache = Cache(
    names: map<string, Entry>, sources: map<Alias, Data>, blobs: map<Key, Blob>, lru: seq<Key>, bytes: int,
    negatives: set<string>, nextOrder: nat, nextExpiry: nat)

  function Empty(): Cache { Cache(map[], map[], map[], [], 0, {}, 0, 0) }

  // ------------------------------------------------------------------ invariant

  /** The blob an alias refers to, 0 when it refers to none. */
  function Target(names: map<string, Entry>, sources: map<Alias, Data>, a: Alias): Key {
    if a.Name? then
      if a.key in names && names[a.key].Positive? then KeyOf(names[a.key].data) else 0
    else if a in sources then KeyOf(sources[a]) else 0
  }

  ghost predicate NoDup<T>(s: seq<T>) { forall i, j | 0 <= i < j < |s| :: s[i] != s[j] }

  ghost function Sum(blobs: map<Key, Blob>): nat
    decreases |blobs|
  {
    if blobs == map[] then 0
    else
      var k :| k in blobs;
      blobs[k].bytes + Sum(blobs - {k})
  }

  /** Every blob lists exactly the names and sources that refer to it, each once, and
      every reference to data has its blob. */
  ghost predicate AliasInv(names: map<string, Entry>, sources: map<Alias, Data>, blobs: map<Key, Blob>) {
    && 0 !in blobs
    && (forall a {:trigger a in sources} | a in sources :: !a.Name?)
    && (forall k, a {:trigger a in blobs[k].aliases} | k in blobs ::
          a in blobs[k].aliases <==> Target(names, sources, a) == k)
    && (forall k {:trigger NoDup(blobs[k].aliases)} | k in blobs :: NoDup(blobs[k].aliases))
    && (forall a {:trigger Target(names, sources, a)} ::
          Target(names, sources, a) != 0 ==> Target(names, sources, a) in blobs)
  }

  /** The LRU holds exactly the unprotected blobs, each once. */
  ghost predicate LruInv(lru: seq<Key>, blobs: map<Key, Blob>) {
    && NoDup(lru)
    && (forall k :: k in lru <==> k in blobs && !Protected(blobs[k]))
    && (forall k | k in blobs :: blobs[k].queued <==> !Protected(blobs[k]))
  }

  /** The index has exactly the names cached as missing; `nextExpiry` bounds their
      expiries from below and their orders are distinct. */
  ghost predicate NegativeInv(names: map<string, Entry>, negatives: set<string>, nextOrder: nat, nextExpiry: nat) {
    && (forall n :: n in negatives <==> n in names && names[n].Negative?)
    && (forall n | n in negatives :: 0 < nextExpiry <= names[n].expires && names[n].order <= nextOrder)
    && (forall n, m | n in negatives && m in negatives && names[n].order == names[m].order :: n == m)
    && (negatives == {} ==> nextExpiry == 0)
  }

  ghost predicate CacheInv(c: Cache) {
    && AliasInv(c.names, c.sources, c.blobs)
    && LruInv(c.lru, c.blobs)
    && NegativeInv(c.names, c.negatives, c.nextOrder, c.nextExpiry)
    && c.bytes == Sum(c.blobs)
  }

  // ------------------------------------------------------- sequences and sums

  /** Removes the first occurrence of `x`. */
  function Without<T(==,!new)>(s: seq<T>, x: T): (r: seq<T>)
    ensures NoDup(s) ==> NoDup(r) && forall y :: y in r <==> y in s && y != x
    ensures x !in s ==> r == s
    ensures s != [] && s[0] == x ==> r == s[1..]
  {
    if s == [] then []
    else if s[0] == x then s[1..]
    else
      var rest := Without(s[1..], x);
      assert s == [s[0]] + s[1..];
      assert NoDup(s) ==> NoDup(s[1..]) && s[0] !in s[1..];
      [s[0]] + rest
  }

  lemma {:induction false} SumSplit(blobs: map<Key, Blob>, k: Key)
    requires k in blobs
    ensures Sum(blobs) == blobs[k].bytes + Sum(blobs - {k})
    decreases |blobs|
  {
    var j :| j in blobs && Sum(blobs) == blobs[j].bytes + Sum(blobs - {j});
    if j != k {
      SumSplit(blobs - {j}, k);
      SumSplit(blobs - {k}, j);
      assert blobs - {j} - {k} == blobs - {k} - {j};
    }
  }

  lemma SumAdd(blobs: map<Key, Blob>, k: Key, b: Blob)
    ensures Sum(blobs[k := b]) == b.bytes + Sum(blobs - {k})
  {
    SumSplit(blobs[k := b], k);
    assert blobs[k := b] - {k} == blobs - {k};
  }

  // ------------------------------------------------------------- locked helpers

  /** touchBlobLocked */
  function Touch(c: Cache, d: Data): Cache {
    var k := KeyOf(d);
    if k in c.blobs && c.blobs[k].queued then c.(lru := Without(c.lru, k) + [k]) else c
  }

  /** recordBlobLocked */
  function Record(c: Cache, d: Data): Cache {
    var k := KeyOf(d);
    if k == 0 then c
    else if k in c.blobs then Touch(c, d)
    else c.(blobs := c.blobs[k := Blob(d.len, [], 0, 0, true)], bytes := c.bytes + d.len, lru := c.lru + [k])
  }

  /** linkBlobAliasLocked */
  function Link(c: Cache, d: Data, a: Alias): Cache {
    var k := KeyOf(d);
    var r := Record(c, d);
    if k == 0 then r
    else
      assert k in r.blobs;
      r.(blobs := r.blobs[k := r.blobs[k].(aliases := r.blobs[k].aliases + [a])])
  }

  /** removeBlobLocked */
  function RemoveBlob(c: Cache, k: Key): Cache
    requires k in c.blobs
  {
    c.(lru := if c.blobs[k].queued then Without(c.lru, k) else c.lru,
       bytes := c.bytes - c.blobs[k].bytes, blobs := c.blobs - {k})
  }

  /** unlinkBlobAliasLocked */
  function Unlink(c: Cache, k: Key, a: Alias): Cache {
    if k == 0 || k !in c.blobs then c
    else
      var b := c.blobs[k].(aliases := Without(c.blobs[k].aliases, a));
      var u := c.(blobs := c.blobs[k := b]);
      if b.aliases == [] then RemoveBlob(u, k) else u
  }

  /** deleteNameLocked */
  function DeleteName(c: Cache, n: string): Cache {
    if n !in c.names then c
    else
      var u := c.(names := c.names - {n});
      match c.names[n]
      case Positive(d) => Unlink(u, KeyOf(d), Name(n))
      case Negative(_, _) =>
        var left := c.negatives - {n};
        u.(negatives := left, nextExpiry := if left == {} then 0 else c.nextExpiry)
  }

  /** An alias that referred to nothing is pointed at `d`. */
  function Point(c: Cache, a: Alias, d: Data): Cache {
    if a.Name? then c.(names := c.names[a.key := Positive(d)]) else c.(sources := c.sources[a := d])
  }

  /** setNamePositiveLocked */
  function SetName(c: Cache, n: string, d: Data): Cache {
    if n in c.names && c.names[n].Positive? && KeyOf(c.names[n].data) == KeyOf(d) then Touch(c, d)
    else Link(Point(DeleteName(c, n), Name(n), d), d, Name(n))
  }

  /** setSourceLocked */
  function SetSource(c: Cache, a: Alias, d: Data): Cache {
    if a in c.sources then c else Link(Point(c, a, d), d, a)
  }

  /** makeBlobEvictableLocked */
  function MakeEvictable(c: Cache, k: Key): Cache {
    if k !in c.blobs || Protected(c.blobs[k]) || c.blobs[k].queued then c
    else c.(blobs := c.blobs[k := c.blobs[k].(queued := true)], lru := c.lru + [k])
  }

  /** A blob leaves the LRU because a load or a native handle protects it. */
  function Hold(c: Cache, k: Key, b: Blob): Cache
    requires k in c.blobs
  {
    c.(blobs := c.blobs[k := b.(queued := false)], lru := if c.blobs[k].queued then Without(c.lru, k) else c.lru)
  }

  /** protectLoadBlobLocked for a load that protects no blob yet. */
  function Protect(c: Cache, d: Data): Cache {
    var k := KeyOf(d);
    var r := Record(c, d);
    if k == 0 then r
    else
      assert k in r.blobs;
      Hold(r, k, r.blobs[k].(inFlight := r.blobs[k].inFlight + 1))
  }

  /** releaseLoadBlobLocked for a load that protects blob `k`. */
  function Release(c: Cache, k: Key): Cache {
    if k !in c.blobs || c.blobs[k].inFlight == 0 then c
    else MakeEvictable(c.(blobs := c.blobs[k := c.blobs[k].(inFlight := c.blobs[k].inFlight - 1)]), k)
  }

  /** beginNativeBorrow of a live generation. */
  function Borrow(c: Cache, k: Key): Cache {
    if k !in c.blobs then c else Hold(c, k, c.blobs[k].(handles := c.blobs[k].handles + 1))
  }

  /** endNativeBorrow before it enforces the policy. */
  function Return(c: Cache, k: Key): Cache {
    if k !in c.blobs || c.blobs[k].handles == 0 then c
    else MakeEvictable(c.(blobs := c.blobs[k := c.blobs[k].(handles := c.blobs[k].handles - 1)]), k)
  }

  /** removeBlobAliasesLocked */
  function Purge(c: Cache, k: Key): Cache {
    if k !in c.blobs then c
    else RemoveBlob(DropAliases(c, k, c.blobs[k].aliases), k)
  }

  function DropAlias(c: Cache, k: Key, a: Alias): Cache {
    if a.Name? then
      if a.key in c.names && c.names[a.key].Positive? && KeyOf(c.names[a.key].data) == k
      then c.(names := c.names - {a.key}) else c
    else if a in c.sources && KeyOf(c.sources[a]) == k then c.(sources := c.sources - {a}) else c
  }

  function DropAliases(c: Cache, k: Key, aliases: seq<Alias>): (r: Cache)
    ensures r == c.(names := r.names, sources := r.sources)
  {
    if aliases == [] then c
    else DropAlias(DropAliases(c, k, aliases[..|aliases| - 1]), k, aliases[|aliases| - 1])
  }

  /** `r` is `c` without exactly those of the names and sources listed that still refer to `k`. */
  ghost predicate WithoutAliases(c: Cache, k: Key, aliases: seq<Alias>, r: Cache) {
    && r == c.(names := r.names, sources := r.sources)
    && (forall n :: n in r.names <==>
          n in c.names && !(Name(n) in aliases && c.names[n].Positive? && KeyOf(c.names[n].data) == k))
    && (forall n | n in r.names :: r.names[n] == c.names[n])
    && (forall a :: a in r.sources <==> a in c.sources && (a.Name? || !(a in aliases && KeyOf(c.sources[a]) == k)))
    && (forall a | a in r.sources :: r.sources[a] == c.sources[a])
  }

  lemma DropOneMore(c: Cache, k: Key, front: seq<Alias>, a: Alias, r: Cache)
    requires WithoutAliases(c, k, front, r)
    ensures WithoutAliases(c, k, front + [a], DropAlias(r, k, a))
  {
  }

  lemma {:induction false} DropAliasesExact(c: Cache, k: Key, aliases: seq<Alias>)
    ensures WithoutAliases(c, k, aliases, DropAliases(c, k, aliases))
  {
    if aliases == [] {
    } else {
      var front, last := aliases[..|aliases| - 1], aliases[|aliases| - 1];
      DropAliasesExact(c, k, front);
      DropOneMore(c, k, front, last, DropAliases(c, k, front));
      assert aliases == front + [last];
      hide WithoutAliases, DropAlias;
    }
  }

  /** cacheNegativeLocked */
  function AddNegative(c: Cache, n: string, now: nat, ttl: nat): Cache {
    var u := DeleteName(c, n);
    var expires := now + ttl;
    u.(names := u.names[n := Negative(expires, u.nextOrder + 1)], negatives := u.negatives + {n},
       nextOrder := u.nextOrder + 1,
       nextExpiry := if u.nextExpiry == 0 || expires < u.nextExpiry then expires else u.nextExpiry)
  }
}
