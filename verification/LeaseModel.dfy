/** Native asset leases: the pin of a borrowed blob, the mapping of a directory asset and
    the one-shot release tokens.  Each function is one section under one mutex. */
module LeaseModel {
  import opened Options

  type Key = nat
  type Token = nat

  /** The width of uintptr. */
  const WORD := 0x1_0000_0000_0000_0000

  /** mappedDirAsset; `id` tells mappings at the same address apart. */
  datatype Mapping = Mapping(id: nat, cached: bool, pins: nat)

  /** assetPin; `heap` is pinner != nil, `tracked` is tracksCache, `record` numbers the
      records. */
  datatype Pin = Pin(record: nat, bytes: nat, handles: nat, heap: bool, tracked: bool)

  datatype Totals = Totals(handles: int, blobs: int, bytes: int)

  /** `unmapped` lists the mappings given back to the system; `made` and `records` count
      the mappings and the pin records there have been. */
  datatype Pool = Pool(mapped: map<Key, Mapping>, unmapped: seq<nat>, made: nat, pins: map<Key, Pin>, records: nat,
                       totals: Totals, leases: map<Token, nat>, next: Token)

  function EmptyPool(): Pool { Pool(map[], [], 0, map[], 0, Totals(0, 0, 0), map[], 0) }

  // --------------------------------------------------------------------- mappings

  /** The end of mapDirAssetFile. */
  function MapFile(p: Pool, k: Key): Pool {
    p.(mapped := p.mapped[k := Mapping(p.made, false, 0)], made := p.made + 1)
  }

  function Unmap(p: Pool, k: Key): Pool
    requires k in p.mapped
  {
    p.(mapped := p.mapped - {k}, unmapped := p.unmapped + [p.mapped[k].id])
  }

  /** adoptMappedDirAsset */
  function Adopt(p: Pool, k: Key): Pool {
    if k == 0 || k !in p.mapped then p else p.(mapped := p.mapped[k := p.mapped[k].(cached := true)])
  }

  /** releaseMappedDirAssetFromCache */
  function ReleaseFromCache(p: Pool, k: Key): Pool {
    if k == 0 || k !in p.mapped then p
    else if p.mapped[k].pins != 0 then p.(mapped := p.mapped[k := p.mapped[k].(cached := false)])
    else Unmap(p, k)
  }

  /** retainMappedDirAssetPin */
  function Retain(p: Pool, k: Key): Pool {
    if k == 0 || k !in p.mapped then p
    else p.(mapped := p.mapped[k := p.mapped[k].(pins := p.mapped[k].pins + 1)])
  }

  /** releaseMappedDirAssetPin */
  function ReleasePin(p: Pool, k: Key): Pool {
    if k == 0 || k !in p.mapped || p.mapped[k].pins == 0 then p
    else
      var m := p.mapped[k].(pins := p.mapped[k].pins - 1);
      if m.cached || m.pins != 0 then p.(mapped := p.mapped[k := m]) else Unmap(p, k)
  }

  /** discardMappedDirAsset */
  function Discard(p: Pool, k: Key): Pool {
    if k == 0 || k !in p.mapped || p.mapped[k].cached || p.mapped[k].pins != 0 then p else Unmap(p, k)
  }

  // ------------------------------------------------------------------------- pins

  /** acquireAssetBorrow up to the point where the pin is published; the key of empty
      data is the address of a static byte, whose length is 0. */
  function Acquire(p: Pool, k: Key, len: nat): Pool {
    if k in p.pins then
      p.(pins := p.pins[k := p.pins[k].(handles := p.pins[k].handles + 1)],
         totals := p.totals.(handles := p.totals.handles + 1))
    else
      var heap := len != 0 && k !in p.mapped;
      var q := if len != 0 then Retain(p, k) else p;
      q.(pins := p.pins[k := Pin(p.records, len, 1, heap, false)], records := p.records + 1,
         totals := if heap then Totals(p.totals.handles + 1, p.totals.blobs + 1, p.totals.bytes + len)
                   else p.totals.(handles := p.totals.handles + 1))
  }

  /** acquireAssetBorrow once the current cache has counted the borrow. */
  function Track(p: Pool, k: Key): (r: Pool)
    ensures r.mapped == p.mapped && r.unmapped == p.unmapped && r.made == p.made
  {
    if k in p.pins then p.(pins := p.pins[k := p.pins[k].(tracked := true)]) else p
  }

  /** The locked part of releaseAssetBorrowedPin; the pin when its last handle went. */
  function Release(p: Pool, k: Key): (r: (Pool, Option<Pin>))
    ensures r.0.mapped == p.mapped && r.0.unmapped == p.unmapped && r.0.made == p.made
  {
    if k !in p.pins || p.pins[k].handles == 0 then (p, None)
    else
      var pin := p.pins[k].(handles := p.pins[k].handles - 1);
      var totals := p.totals.(handles := p.totals.handles - 1);
      if pin.handles != 0 then (p.(pins := p.pins[k := pin], totals := totals), None)
      else
        (p.(pins := p.pins - {k},
            totals := if pin.heap then Totals(totals.handles, totals.blobs - 1, totals.bytes - pin.bytes) else totals),
         Some(pin))
  }

  // ----------------------------------------------------------------------- tokens

  function After(token: Token): Token { (token + 1) % WORD }

  /** The first token after `from`, at most `fuel` further on, that is free and not 0. */
  function FreeAfter(leases: map<Token, nat>, from: Token, fuel: nat): Option<Token>
    decreases fuel
  {
    if fuel == 0 then None
    else if After(from) != 0 && After(from) !in leases then Some(After(from))
    else FreeAfter(leases, After(from), fuel - 1)
  }

  function Nth(from: Token, i: nat): Token { (from + i) % WORD }

  ghost function Steps(from: Token, n: nat): set<Token> {
    if n == 0 then {} else Steps(from, n - 1) + {Nth(from, n)}
  }

  lemma {:induction false} StepsAreDistinct(from: Token, n: nat)
    requires n < WORD
    ensures |Steps(from, n)| == n
    ensures forall x | x in Steps(from, n) :: exists i: nat {:trigger Nth(from, i)} :: 0 < i <= n && x == Nth(from, i)
  {
    if n == 0 {
    } else {
      StepsAreDistinct(from, n - 1);
      forall i: nat {:trigger Nth(from, i)} | 0 < i < n ensures Nth(from, i) != Nth(from, n) {
        Residues(from, i, n);
      }
    }
  }

  lemma Residues(from: Token, i: nat, n: nat)
    requires i < n < WORD
    ensures Nth(from, i) != Nth(from, n)
  {
    var a, b := from + i, from + n;
    assert a == WORD * (a / WORD) + a % WORD && b == WORD * (b / WORD) + b % WORD;
  }

  lemma AfterNth(from: Token, n: nat)
    ensures After(Nth(from, n)) == Nth(from, n + 1)
  {
  }

  lemma NoSteps(from: Token)
    requires from < WORD
    ensures Nth(from, 0) == from && Steps(from, 0) == {}
  {
  }

  lemma {:induction false} FreeWithin(leases: map<Token, nat>, from: Token, n: nat, fuel: nat)
    requires Steps(from, n) <= leases.Keys + {0}
    requires FreeAfter(leases, Nth(from, n), fuel).None?
    ensures Steps(from, n + fuel) <= leases.Keys + {0}
    decreases fuel
  {
    hide After, Nth;
    if fuel == 0 {
    } else {
      AfterNth(from, n);
      FreeWithin(leases, from, n + 1, fuel - 1);
    }
  }

  lemma TooManySteps(leases: map<Token, nat>, from: Token)
    requires |leases| + 2 < WORD
    ensures !(Steps(from, |leases| + 2) <= leases.Keys + {0})
  {
    hide Nth, Steps;
    StepsAreDistinct(from, |leases| + 2);
    assert |leases.Keys + {0}| <= |leases| + 1;
    if Steps(from, |leases| + 2) <= leases.Keys + {0} {
      SubsetCard(Steps(from, |leases| + 2), leases.Keys + {0});
    }
  }

  /** Among |leases| + 2 successive tokens one is free. */
  lemma FreeTokenExists(leases: map<Token, nat>, from: Token)
    requires from < WORD && |leases| + 2 < WORD
    ensures FreeAfter(leases, from, |leases| + 2).Some?
  {
    hide After, Nth, Steps, FreeAfter;
    var n := |leases| + 2;
    NoSteps(from);
    TooManySteps(leases, from);
    if FreeAfter(leases, from, n).None? {
      FreeWithin(leases, from, 0, n);
    }
  }

  lemma SubsetCard(a: set<Token>, b: set<Token>)
    requires a <= b
    ensures |a| <= |b|
  {
    assert b == a + (b - a);
  }

  lemma {:induction false} FreeAfterIsFree(leases: map<Token, nat>, from: Token, fuel: nat)
    requires FreeAfter(leases, from, fuel).Some?
    decreases fuel
    ensures var x := FreeAfter(leases, from, fuel).value; x != 0 && x !in leases && x < WORD
  {
    if fuel > 0 && !(After(from) != 0 && After(from) !in leases) {
      FreeAfterIsFree(leases, After(from), fuel - 1);
    }
  }

  /** The token registerAssetBorrowRelease gives out. */
  function NextToken(leases: map<Token, nat>, next: Token): (x: Token)
    requires next < WORD && |leases| + 2 < WORD
    ensures x != 0 && x !in leases && x < WORD
  {
    FreeTokenExists(leases, next);
    FreeAfterIsFree(leases, next, |leases| + 2);
    FreeAfter(leases, next, |leases| + 2).value
  }

  /** registerAssetBorrowRelease for borrow `b`. */
  function Register(p: Pool, b: nat): (r: Pool)
    requires p.next < WORD && |p.leases| + 2 < WORD
    ensures r.mapped == p.mapped && r.unmapped == p.unmapped && r.made == p.made
  {
    var x := NextToken(p.leases, p.next);
    p.(leases := p.leases[x := b], next := x)
  }

  /** releaseAssetBorrow up to the callback; the borrow whose release is to run. */
  function Fire(p: Pool, token: Token): (r: (Pool, Option<nat>))
    ensures r.0.mapped == p.mapped && r.0.unmapped == p.unmapped && r.0.made == p.made
  {
    if token == 0 || token !in p.leases then (p, None)
    else (p.(leases := p.leases - {token}), Some(p.leases[token]))
  }
}
