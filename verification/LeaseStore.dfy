/** The lease bookkeeping as the objects its methods update: the mapping table, the pin
    table with its totals, the release registry, and the native asset handle. */
module LeaseStore {
  import opened Options
  import opened LeaseModel

  class AssetPins {
    var byKey: map<Key, Mapping>
    var unmapped: seq<nat>
    var made: nat
    var assetPins: map<Key, Pin>
    var records: nat
    var activeHandles: int
    var pinnedBlobs: int
    var pinnedBytes: int
    var release: map<Token, nat>
    var next: Token

    function View(): Pool
      reads this
    {
      Pool(byKey, unmapped, made, assetPins, records, Totals(activeHandles, pinnedBlobs, pinnedBytes), release, next)
    }

    constructor ()
      ensures View() == EmptyPool()
    {
      byKey, unmapped, made, assetPins, records := map[], [], 0, map[], 0;
      activeHandles, pinnedBlobs, pinnedBytes, release, next := 0, 0, 0, map[], 0;
    }

    method MapDirAsset(k: Key)
      modifies this`byKey, this`made
      ensures View() == MapFile(old(View()), k)
      ensures k in byKey && byKey[k].id == old(made) < made && !byKey[k].cached && byKey[k].pins == 0
    {
      byKey := byKey[k := Mapping(made, false, 0)];
      made := made + 1;
    }

    method UnmapDirAsset(k: Key)
      requires k in byKey
      modifies this`byKey, this`unmapped
      ensures View() == Unmap(old(View()), k)
      ensures k !in byKey && |unmapped| == |old(unmapped)| + 1
    {
      unmapped := unmapped + [byKey[k].id];
      byKey := byKey - {k};
    }

    method AdoptMappedDirAsset(k: Key)
      modifies this`byKey
      ensures View() == Adopt(old(View()), k)
      ensures byKey.Keys == old(byKey).Keys && (k != 0 && k in byKey ==> byKey[k].cached)
      ensures forall j | j in byKey :: byKey[j].pins == old(byKey)[j].pins && byKey[j].id == old(byKey)[j].id
    {
      if k == 0 {
        return;
      }
      if k in byKey {
        byKey := byKey[k := byKey[k].(cached := true)];
      }
    }

    method ReleaseMappedDirAssetFromCache(k: Key)
      modifies this`byKey, this`unmapped
      ensures View() == ReleaseFromCache(old(View()), k)
      ensures k != 0 && k in byKey ==> !byKey[k].cached && byKey[k].pins > 0
      ensures k != 0 && k in old(byKey) ==> (k !in byKey <==> old(byKey)[k].pins == 0)
    {
      if k == 0 || k !in byKey {
        return;
      }
      if byKey[k].pins != 0 {
        byKey := byKey[k := byKey[k].(cached := false)];
        return;
      }
      UnmapDirAsset(k);
    }

    method RetainMappedDirAssetPin(k: Key) returns (ok: bool)
      modifies this`byKey
      ensures View() == Retain(old(View()), k)
      ensures ok <==> k != 0 && k in old(byKey)
      ensures ok ==> k in byKey && byKey[k].pins == old(byKey)[k].pins + 1 && byKey[k].cached == old(byKey)[k].cached
    {
      if k == 0 || k !in byKey {
        return false;
      }
      byKey := byKey[k := byKey[k].(pins := byKey[k].pins + 1)];
      ok := true;
    }

    method ReleaseMappedDirAssetPin(k: Key)
      modifies this`byKey, this`unmapped
      ensures View() == ReleasePin(old(View()), k)
      ensures k != 0 && k in old(byKey) ==>
        (k !in byKey <==> old(byKey)[k].pins == 1 && !old(byKey)[k].cached)
      ensures k in byKey ==> byKey[k].cached == old(byKey)[k].cached
    {
      if k == 0 || k !in byKey || byKey[k].pins == 0 {
        return;
      }
      var m := byKey[k].(pins := byKey[k].pins - 1);
      if m.cached || m.pins != 0 {
        byKey := byKey[k := m];
        return;
      }
      UnmapDirAsset(k);
    }

    method DiscardMappedDirAsset(k: Key)
      modifies this`byKey, this`unmapped
      ensures View() == Discard(old(View()), k)
      ensures k != 0 && k in old(byKey) ==>
        (k !in byKey <==> old(byKey)[k].pins == 0 && !old(byKey)[k].cached)
    {
      if k == 0 || k !in byKey || byKey[k].cached || byKey[k].pins != 0 {
        return;
      }
      UnmapDirAsset(k);
    }

    /** The section of acquireAssetBorrow under the pin mutex. */
    method AcquireAssetBorrow(k: Key, len: nat) returns (first: bool)
      requires k != 0
      modifies this
      ensures View() == Acquire(old(View()), k, len) && first == (k !in old(assetPins))
      ensures k in assetPins && activeHandles == old(activeHandles) + 1
      ensures assetPins[k].handles == 1 + (if first then 0 else old(assetPins)[k].handles)
      ensures first ==> (assetPins[k].heap <==> len != 0 && k !in old(byKey)) && !assetPins[k].tracked
      ensures pinnedBlobs - old(pinnedBlobs) == if first && assetPins[k].heap then 1 else 0
    {
      first := k !in assetPins;
      var pin;
      if first {
        pin := Pin(records, len, 0, false, false);
        records := records + 1;
        if len != 0 {
          var retained := RetainMappedDirAssetPin(k);
          if !retained {
            pin := pin.(heap := true);
            pinnedBlobs := pinnedBlobs + 1;
            pinnedBytes := pinnedBytes + len;
          }
        }
      } else {
        pin := assetPins[k];
      }
      pin := pin.(handles := pin.handles + 1);
      activeHandles := activeHandles + 1;
      assetPins := assetPins[k := pin];
    }

    method TrackCache(k: Key)
      modifies this`assetPins
      ensures View() == Track(old(View()), k)
      ensures assetPins.Keys == old(assetPins).Keys && (k in assetPins ==> assetPins[k].tracked)
    {
      if k in assetPins {
        assetPins := assetPins[k := assetPins[k].(tracked := true)];
      }
    }

    /** The section of releaseAssetBorrowedPin under the pin mutex. */
    method ReleaseAssetBorrow(k: Key) returns (last: Option<Pin>)
      modifies this
      ensures (View(), last) == Release(old(View()), k)
      ensures last.Some? <==> k in old(assetPins) && old(assetPins)[k].handles == 1
      ensures last.Some? ==> k !in assetPins && last.value.handles == 0
      ensures k in old(assetPins) && old(assetPins)[k].handles > 0 ==> activeHandles == old(activeHandles) - 1
      ensures pinnedBlobs - old(pinnedBlobs) == if last.Some? && last.value.heap then -1 else 0
    {
      if k !in assetPins || assetPins[k].handles == 0 {
        return None;
      }
      var pin := assetPins[k].(handles := assetPins[k].handles - 1);
      activeHandles := activeHandles - 1;
      if pin.handles != 0 {
        assetPins := assetPins[k := pin];
        return None;
      }
      assetPins := assetPins - {k};
      if pin.heap {
        pinnedBlobs := pinnedBlobs - 1;
        pinnedBytes := pinnedBytes - pin.bytes;
      }
      last := Some(pin);
    }

    /** The search ends: among any |release| + 2 successive tokens one is free. */
    method RegisterAssetBorrowRelease(b: nat) returns (token: Token)
      requires next < WORD && |release| + 2 < WORD
      modifies this`release, this`next
      ensures View() == Register(old(View()), b) && token == next
      ensures token != 0 && token !in old(release) && release == old(release)[token := b]
    {
      ghost var fuel: nat := |release| + 2;
      FreeTokenExists(release, next);
      while true
        invariant release == old(release) && next < WORD && FreeAfter(release, next, fuel).Some?
        invariant FreeAfter(release, next, fuel) == FreeAfter(release, old(next), |release| + 2)
        decreases fuel
      {
        next := (next + 1) % WORD;
        if next != 0 && next !in release {
          release := release[next := b];
          return next;
        }
        fuel := fuel - 1;
      }
    }

    method FireAssetBorrow(token: Token) returns (b: Option<nat>)
      modifies this`release
      ensures (View(), b) == Fire(old(View()), token)
      ensures b.Some? <==> token != 0 && token in old(release)
      ensures token != 0 ==> token !in release
    {
      if token == 0 {
        return None;
      }
      b := if token in release then Some(release[token]) else None;
      if b.None? { assert release - {token} == release; }
      release := release - {token};
    }
  }

  /** AAsset; `magic` is whether the field holds TIPSY_ASSET_MAGIC. */
  class AAsset {
    var magic: bool
    var buffer: nat
    var fd: int
    var owned: bool
    var releaseToken: Token

    constructor (buffer: nat, owned: bool, fd: int, token: Token)
      ensures magic && this.buffer == buffer && this.owned == owned && this.fd == fd
      ensures releaseToken == if owned then 0 else token
    {
      magic, this.buffer, this.owned, this.fd := true, buffer, owned, fd;
      releaseToken := if owned then 0 else token;
    }

    /** tipsy_AAsset_close up to the callback: what is left for the caller to free, close
        and fire.  The handle is invalid before any of it happens, so a second close, also
        one made by the callback, finds nothing to do. */
    method Close() returns (free: Option<nat>, shut: Option<int>, fire: Option<Token>)
      modifies this
      ensures !magic
      ensures !old(magic) ==> free.None? && shut.None? && fire.None? && unchanged(this)
      ensures old(magic) ==> buffer == 0 && fd == -1 && releaseToken == 0
      ensures free == if old(magic) && owned && old(buffer) != 0 then Some(old(buffer)) else None
      ensures shut == if old(magic) && old(fd) >= 0 then Some(old(fd)) else None
      ensures fire == if old(magic) && !owned && old(releaseToken) != 0 then Some(old(releaseToken)) else None
      ensures owned == old(owned)
    {
      free, shut, fire := None, None, None;
      if !magic {
        return;
      }
      var b, f, o, token := buffer, fd, owned, releaseToken;
      magic, buffer, fd, releaseToken := false, 0, -1, 0;
      if o && b != 0 {
        free := Some(b);
      }
      if f >= 0 {
        shut := Some(f);
      }
      if !o && token != 0 {
        fire := Some(token);
      }
    }
  }
}
