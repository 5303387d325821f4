/** Any number of threads borrowing and closing assets while the cache adopts, evicts and
    discards mappings: every interleaving of the locked sections. */
module LeaseRuns {
  import opened Options
  import opened LeaseModel

  type Tid = nat
  type Borrow = nat

  /** Where a thread is in acquireAssetBorrow, newBorrowedAsset, AAsset_close or
      releaseAssetBorrowedPin. */
  datatype Pc =
    | Idle
    | Acquired(b: Borrow, first: bool)
    | Claimed(b: Borrow, record: nat)
    | Ready(b: Borrow)
    | Registered(token: Token)
    | Firing(token: Token)
    | Releasing(b: Borrow)
    | Ending(record: nat, k: Key, tracked: bool, mapped: bool)
    | Unpinning(record: nat, k: Key, mapped: bool)

  /** Who answers for something: a thread, a registered lease or a pin record. */
  datatype Place = With(t: Tid) | Leased(token: Token) | InRecord

  /** A borrow that has not been released, or the claim of a pin record on a mapping. */
  datatype Loan = Loan(key: Key, mapping: Option<nat>, place: Place)

  /** How far the one cache borrow of a pin record is. */
  datatype Claim = Undecided(t: Tid) | Begun(t: Tid) | Tracked(k: Key) | Closing(t: Tid)

  datatype Owner = Asset(a: nat) | Thread(t: Tid)

  /** `objects` are the addresses of Go data, `assets` the native handles with the token
      each still holds; `loans`, `holds`, `claims` and `owner` are the accounts kept of
      borrows, mapping claims, cache borrows and tokens. */
  datatype World = World(
    pool: Pool, objects: set<Key>, threads: seq<Pc>, assets: seq<Option<Token>>, born: nat,
    loans: map<Borrow, Loan>, holds: map<nat, Loan>, claims: map<nat, Claim>, owner: map<Token, Owner>)

  function Start(threads: nat, objects: set<Key>): World {
    World(EmptyPool(), objects, seq(threads, _ => Idle), [], 0, map[], map[], map[], map[])
  }

  datatype Action =
    | Map(k: Key) | AdoptIt(k: Key) | Evict(k: Key) | DiscardIt(k: Key)
    | Take(t: Tid, k: Key, len: nat) | Borrowed(t: Tid, ok: bool) | Commit(t: Tid) | Enlist(t: Tid)
    | Construct(t: Tid, ok: bool) | Close(t: Tid, a: nat) | FireIt(t: Tid)
    | Finish(t: Tid) | EndBorrow(t: Tid) | Unpin(t: Tid)

  /** mmap returns an address that nothing uses; data that is borrowed is Go data or a
      mapping that is still there. */
  predicate Enabled(w: World, a: Action) {
    match a
    case Map(k) => k != 0 && k !in w.pool.mapped && k !in w.objects
    case AdoptIt(_) => true
    case Evict(_) => true
    case DiscardIt(_) => true
    case Take(t, k, len) => t < |w.threads| && w.threads[t].Idle? &&
        (k in w.objects || (k in w.pool.mapped && len != 0))
    case Borrowed(t, _) => t < |w.threads| && w.threads[t].Acquired?
    case Commit(t) => t < |w.threads| && w.threads[t].Claimed? && w.threads[t].b in w.loans
    case Enlist(t) =>
      && t < |w.threads| && w.threads[t].Ready? && w.threads[t].b in w.loans
      && w.pool.next < WORD && |w.pool.leases| + 2 < WORD
    case Construct(t, _) => t < |w.threads| && w.threads[t].Registered?
    case Close(t, a) => t < |w.threads| && w.threads[t].Idle? && a < |w.assets|
    case FireIt(t) => t < |w.threads| && w.threads[t].Firing?
    case Finish(t) => t < |w.threads| && w.threads[t].Releasing? && w.threads[t].b in w.loans
    case EndBorrow(t) => t < |w.threads| && w.threads[t].Ending?
    case Unpin(t) => t < |w.threads| && w.threads[t].Unpinning?
  }

  function At(w: World, t: Tid, pc: Pc): World
    requires t < |w.threads|
  {
    w.(threads := w.threads[t := pc])
  }

  function DoTake(w: World, t: Tid, k: Key, len: nat): World
    requires Enabled(w, Take(t, k, len))
  {
    var p, q, b, first := w.pool, Acquire(w.pool, k, len), w.born, k !in w.pool.pins;
    var mapping := if k in p.mapped then Some(p.mapped[k].id) else None;
    At(w, t, Acquired(b, first)).(
      pool := q, born := b + 1, loans := w.loans[b := Loan(k, mapping, With(t))],
      holds := if first && k in p.mapped && len != 0 then w.holds[p.records := Loan(k, mapping, InRecord)] else w.holds,
      claims := if first then w.claims[p.records := Undecided(t)] else w.claims)
  }

  function DoBorrowed(w: World, t: Tid, ok: bool): World
    requires Enabled(w, Borrowed(t, ok))
  {
    var pc := w.threads[t];
    if !pc.first then At(w, t, Ready(pc.b))
    else
      var r := if RecordOf(w, pc.b).Some? then RecordOf(w, pc.b).value else 0;
      if ok then At(w, t, Claimed(pc.b, r)).(claims := w.claims[r := Begun(t)])
      else At(w, t, Ready(pc.b)).(claims := w.claims - {r})
  }

  function DoCommit(w: World, t: Tid): World
    requires Enabled(w, Commit(t))
  {
    var pc := w.threads[t];
    At(w, t, Ready(pc.b)).(pool := Track(w.pool, w.loans[pc.b].key),
        claims := w.claims[pc.record := Tracked(w.loans[pc.b].key)])
  }

  function DoEnlist(w: World, t: Tid): World
    requires Enabled(w, Enlist(t))
  {
    var b, q := w.threads[t].b, Register(w.pool, w.threads[t].b);
    At(w, t, Registered(q.next)).(
      pool := q, loans := w.loans[b := w.loans[b].(place := Leased(q.next))], owner := w.owner[q.next := Thread(t)])
  }

  function DoConstruct(w: World, t: Tid, ok: bool): World
    requires Enabled(w, Construct(t, ok))
  {
    var token := w.threads[t].token;
    if ok then At(w, t, Idle).(assets := w.assets + [Some(token)], owner := w.owner[token := Asset(|w.assets|)])
    else At(w, t, Firing(token))
  }

  /** tipsy_AAsset_close up to the callback; a handle without its magic is left alone. */
  function DoClose(w: World, t: Tid, a: nat): World
    requires Enabled(w, Close(t, a))
  {
    if w.assets[a].None? then w
    else
      var token := w.assets[a].value;
      At(w, t, Firing(token)).(assets := w.assets[a := None], owner := w.owner[token := Thread(t)])
  }

  function DoFire(w: World, t: Tid): World
    requires Enabled(w, FireIt(t))
  {
    var token := w.threads[t].token;
    var (q, b) := Fire(w.pool, token);
    if b.None? || b.value !in w.loans then At(w, t, Idle).(pool := q)
    else
      At(w, t, Releasing(b.value)).(
        pool := q, loans := w.loans[b.value := w.loans[b.value].(place := With(t))], owner := w.owner - {token})
  }

  function DoFinish(w: World, t: Tid): World
    requires Enabled(w, Finish(t))
  {
    var b := w.threads[t].b;
    var k := w.loans[b].key;
    var (q, last) := Release(w.pool, k);
    var u := w.(pool := q, loans := w.loans - {b});
    if last.None? then At(u, t, Idle)
    else
      var r := last.value.record;
      var v := At(u, t, Ending(r, k, last.value.tracked, r in w.holds));
      v.(holds := if r in w.holds then w.holds[r := w.holds[r].(place := With(t))] else w.holds,
         claims := if last.value.tracked then w.claims[r := Closing(t)] else w.claims)
  }

  function DoEnd(w: World, t: Tid): World
    requires Enabled(w, EndBorrow(t))
  {
    var pc := w.threads[t];
    At(w, t, Unpinning(pc.record, pc.k, pc.mapped)).(claims := if pc.tracked then w.claims - {pc.record} else w.claims)
  }

  function DoUnpin(w: World, t: Tid): World
    requires Enabled(w, Unpin(t))
  {
    var pc := w.threads[t];
    At(w, t, Idle).(pool := ReleasePin(w.pool, pc.k), holds := if pc.mapped then w.holds - {pc.record} else w.holds)
  }

  function Do(w: World, a: Action): World
    requires Enabled(w, a)
  {
    match a
    case Map(k) => w.(pool := MapFile(w.pool, k))
    case AdoptIt(k) => w.(pool := Adopt(w.pool, k))
    case Evict(k) => w.(pool := ReleaseFromCache(w.pool, k))
    case DiscardIt(k) => w.(pool := Discard(w.pool, k))
    case Take(t, k, len) => DoTake(w, t, k, len)
    case Borrowed(t, ok) => DoBorrowed(w, t, ok)
    case Commit(t) => DoCommit(w, t)
    case Enlist(t) => DoEnlist(w, t)
    case Construct(t, ok) => DoConstruct(w, t, ok)
    case Close(t, a) => DoClose(w, t, a)
    case FireIt(t) => DoFire(w, t)
    case Finish(t) => DoFinish(w, t)
    case EndBorrow(t) => DoEnd(w, t)
    case Unpin(t) => DoUnpin(w, t)
  }

  // ------------------------------------------------------------------- accounts

  ghost function Of(loans: map<nat, Loan>, k: Key): (s: set<nat>)
    ensures forall b :: b in s <==> b in loans && loans[b].key == k
  {
    set b | b in loans && loans[b].key == k
  }

  ghost function Count(loans: map<nat, Loan>, k: Key): nat { |Of(loans, k)| }

  lemma CountPut(loans: map<nat, Loan>, b: nat, l: Loan, k: Key)
    requires b in loans ==> loans[b].key == l.key
    ensures Count(loans[b := l], k) == Count(loans, k) + if b !in loans && l.key == k then 1 else 0
  {
    if l.key == k {
      assert Of(loans[b := l], k) == Of(loans, k) + {b};
    } else {
      assert Of(loans[b := l], k) == Of(loans, k);
    }
  }

  lemma CountTake(loans: map<nat, Loan>, b: nat, k: Key)
    requires b in loans
    ensures Count(loans - {b}, k) == Count(loans, k) - if loans[b].key == k then 1 else 0
  {
    assert Of(loans - {b}, k) == Of(loans, k) - {b};
  }

  datatype Measure = Handles | Blobs | Bytes

  function Weight(m: Measure, pin: Pin): nat {
    match m
    case Handles => pin.handles
    case Blobs => if pin.heap then 1 else 0
    case Bytes => if pin.heap then pin.bytes else 0
  }

  ghost function Sum(m: Measure, pins: map<Key, Pin>): nat
    decreases |pins|
  {
    if pins == map[] then 0
    else
      var k :| k in pins;
      Weight(m, pins[k]) + Sum(m, pins - {k})
  }

  lemma {:induction false} SumSplit(m: Measure, pins: map<Key, Pin>, k: Key)
    requires k in pins
    ensures Sum(m, pins) == Weight(m, pins[k]) + Sum(m, pins - {k})
    decreases |pins|
  {
    var j :| j in pins && Sum(m, pins) == Weight(m, pins[j]) + Sum(m, pins - {j});
    if j != k {
      SumSplit(m, pins - {j}, k);
      SumSplit(m, pins - {k}, j);
      assert pins - {j} - {k} == pins - {k} - {j};
    }
  }

  lemma SumPut(m: Measure, pins: map<Key, Pin>, k: Key, pin: Pin)
    ensures Sum(m, pins[k := pin]) == Sum(m, pins) + Weight(m, pin) - if k in pins then Weight(m, pins[k]) else 0
  {
    SumSplit(m, pins[k := pin], k);
    assert pins[k := pin] - {k} == pins - {k};
    if k in pins {
      SumSplit(m, pins, k);
    } else {
      assert pins - {k} == pins;
    }
  }

  // ------------------------------------------------------------------ invariant

  function BorrowOf(pc: Pc): Option<Borrow> {
    if pc.Acquired? || pc.Claimed? || pc.Ready? || pc.Releasing? then Some(pc.b) else None
  }

  function TokenOf(pc: Pc): Option<Token> {
    if pc.Registered? || pc.Firing? then Some(pc.token) else None
  }

  /** A finishing thread's claim on a mapping, with the address of the blob. */
  datatype Held = NotHeld | OnObject(k: Key) | OnMapping(record: nat, k: Key)

  function HeldOf(pc: Pc): Held {
    if pc.Ending? || pc.Unpinning? then (if pc.mapped then OnMapping(pc.record, pc.k) else OnObject(pc.k)) else NotHeld
  }

  /** What a thread has to do with the cache borrow of a record. */
  datatype Duty = NoDuty | ToDecide(b: Borrow) | ToCommit(b: Borrow, record: nat) | ToClose(record: nat)

  function DutyOf(pc: Pc): Duty {
    if pc.Acquired? && pc.first then ToDecide(pc.b)
    else if pc.Claimed? then ToCommit(pc.b, pc.record)
    else if pc.Ending? && pc.tracked then ToClose(pc.record)
    else NoDuty
  }

  // --- borrows: each is in one place, and a pin has one handle for each of its borrows

  ghost predicate LoanOk(w: World, b: Borrow)
    requires b in w.loans
  {
    && b < w.born && w.loans[b].key in w.pool.pins
    && match w.loans[b].place
       case With(t) => t < |w.threads| && BorrowOf(w.threads[t]) == Some(b)
       case Leased(token) => token in w.pool.leases && w.pool.leases[token] == b
       case InRecord => false
  }

  ghost predicate LoanThread(w: World, t: Tid)
    requires t < |w.threads|
  {
    var b := BorrowOf(w.threads[t]);
    b.Some? ==> b.value in w.loans && w.loans[b.value].place == With(t)
  }

  ghost predicate PinCount(w: World, k: Key)
    requires k in w.pool.pins
  {
    w.pool.pins[k].handles == Count(w.loans, k) && w.pool.pins[k].handles > 0
  }

  ghost predicate LoansInv(w: World) {
    && w.pool.totals.handles == |w.loans|
    && (forall b {:trigger LoanOk(w, b)} | b in w.loans :: LoanOk(w, b))
    && (forall t {:trigger LoanThread(w, t)} | 0 <= t < |w.threads| :: LoanThread(w, t))
    && (forall k {:trigger PinCount(w, k)} | k in w.pool.pins :: PinCount(w, k))
  }

  // --- tokens: each registered token has its borrow and one owner

  ghost predicate LeaseOk(w: World, token: Token)
    requires token in w.pool.leases
  {
    && token != 0 && w.pool.leases[token] in w.loans && w.loans[w.pool.leases[token]].place == Leased(token)
    && token in w.owner
    && match w.owner[token]
       case Thread(t) => t < |w.threads| && TokenOf(w.threads[t]) == Some(token)
       case Asset(a) => a < |w.assets| && w.assets[a] == Some(token)
  }

  ghost predicate TokenThread(w: World, t: Tid)
    requires t < |w.threads|
  {
    var x := TokenOf(w.threads[t]);
    x.Some? ==> x.value in w.owner && w.owner[x.value] == Thread(t)
  }

  ghost predicate AssetOk(w: World, a: nat)
    requires a < |w.assets|
  {
    w.assets[a].Some? ==> w.assets[a].value in w.owner && w.owner[w.assets[a].value] == Asset(a)
  }

  ghost predicate TokensInv(w: World) {
    && w.owner.Keys == w.pool.leases.Keys
    && (forall x {:trigger LeaseOk(w, x)} | x in w.pool.leases :: LeaseOk(w, x))
    && (forall t {:trigger TokenThread(w, t)} | 0 <= t < |w.threads| :: TokenThread(w, t))
    && (forall a {:trigger AssetOk(w, a)} | 0 <= a < |w.assets| :: AssetOk(w, a))
  }

  // --- claims on mappings: one for each pin record, until its last release is over

  ghost predicate HoldOk(w: World, r: nat)
    requires r in w.holds
  {
    var h := w.holds[r];
    && r < w.pool.records
    && match h.place
       case With(t) => t < |w.threads| && HeldOf(w.threads[t]) == OnMapping(r, h.key)
       case Leased(_) => false
       case InRecord => h.key in w.pool.pins && w.pool.pins[h.key].record == r
  }

  ghost predicate HoldThread(w: World, t: Tid)
    requires t < |w.threads|
  {
    match HeldOf(w.threads[t])
    case NotHeld => true
    case OnObject(k) => k in w.objects
    case OnMapping(r, k) => r in w.holds && w.holds[r].place == With(t)
  }

  ghost predicate PinHold(w: World, k: Key)
    requires k in w.pool.pins
  {
    var pin := w.pool.pins[k];
    && pin.record < w.pool.records
    && (if k in w.objects then pin.record !in w.holds && (pin.heap <==> pin.bytes != 0)
        else !pin.heap && pin.record in w.holds && w.holds[pin.record].key == k && w.holds[pin.record].place.InRecord?)
  }

  ghost predicate HoldsInv(w: World) {
    && (forall r {:trigger HoldOk(w, r)} | r in w.holds :: HoldOk(w, r))
    && (forall t {:trigger HoldThread(w, t)} | 0 <= t < |w.threads| :: HoldThread(w, t))
    && (forall k {:trigger PinHold(w, k)} | k in w.pool.pins :: PinHold(w, k))
  }

  // --- cache borrows: one for each pin record that the cache counts

  /** The pin record that borrow `b` is part of. */
  function RecordOf(w: World, b: Borrow): Option<nat> {
    if b in w.loans && w.loans[b].key in w.pool.pins then Some(w.pool.pins[w.loans[b].key].record) else None
  }

  ghost predicate ClaimOk(w: World, r: nat)
    requires r in w.claims
  {
    && r < w.pool.records
    && match w.claims[r]
       case Undecided(t) =>
         t < |w.threads| && DutyOf(w.threads[t]).ToDecide? && RecordOf(w, DutyOf(w.threads[t]).b) == Some(r)
       case Begun(t) =>
         && t < |w.threads| && DutyOf(w.threads[t]).ToCommit? && DutyOf(w.threads[t]).record == r
         && RecordOf(w, DutyOf(w.threads[t]).b) == Some(r)
       case Tracked(k) => k in w.pool.pins && w.pool.pins[k].record == r && w.pool.pins[k].tracked
       case Closing(t) => t < |w.threads| && DutyOf(w.threads[t]) == ToClose(r)
  }

  ghost predicate ClaimThread(w: World, t: Tid)
    requires t < |w.threads|
  {
    match DutyOf(w.threads[t])
    case NoDuty => true
    case ToDecide(b) =>
      RecordOf(w, b).Some? && RecordOf(w, b).value in w.claims && w.claims[RecordOf(w, b).value] == Undecided(t)
    case ToCommit(b, r) => RecordOf(w, b) == Some(r) && r in w.claims && w.claims[r] == Begun(t)
    case ToClose(r) => r in w.claims && w.claims[r] == Closing(t)
  }

  ghost predicate PinClaim(w: World, k: Key)
    requires k in w.pool.pins
  {
    var pin := w.pool.pins[k];
    pin.record < w.pool.records && (pin.tracked ==> pin.record in w.claims && w.claims[pin.record] == Tracked(k))
  }

  ghost predicate ClaimsInv(w: World) {
    && (forall r {:trigger ClaimOk(w, r)} | r in w.claims :: ClaimOk(w, r))
    && (forall t {:trigger ClaimThread(w, t)} | 0 <= t < |w.threads| :: ClaimThread(w, t))
    && (forall k {:trigger PinClaim(w, k)} | k in w.pool.pins :: PinClaim(w, k))
  }

  // --- mappings: one pin for each claim, and a borrow's mapping stays the one borrowed

  ghost predicate MappedOk(w: World, k: Key)
    requires k in w.pool.mapped
  {
    var m := w.pool.mapped[k];
    k != 0 && k !in w.objects && m.pins == Count(w.holds, k) && m.id < w.pool.made && m.id !in w.pool.unmapped
  }

  ghost predicate LoanMapped(w: World, b: Borrow)
    requires b in w.loans
  {
    var l := w.loans[b];
    if l.key in w.objects then l.mapping.None?
    else l.key in w.pool.mapped && l.mapping == Some(w.pool.mapped[l.key].id)
  }

  ghost predicate MapsInv(w: World) {
    && (forall k {:trigger MappedOk(w, k)} | k in w.pool.mapped :: MappedOk(w, k))
    && (forall b {:trigger LoanMapped(w, b)} | b in w.loans :: LoanMapped(w, b))
    && (forall r | r in w.holds :: w.holds[r].key in w.pool.mapped)
  }

  ghost predicate NoDup(s: seq<nat>) { forall i, j | 0 <= i < j < |s| :: s[i] != s[j] }

  ghost predicate PoolInv(p: Pool) {
    && p.next < WORD
    && NoDup(p.unmapped) && (forall id | id in p.unmapped :: id < p.made)
    && (forall j, k | j in p.mapped && k in p.mapped && p.mapped[j].id == p.mapped[k].id :: j == k)
    && p.totals == Totals(Sum(Handles, p.pins), Sum(Blobs, p.pins), Sum(Bytes, p.pins))
  }

  ghost predicate Inv(w: World) {
    LoansInv(w) && TokensInv(w) && HoldsInv(w) && ClaimsInv(w) && MapsInv(w) && PoolInv(w.pool)
  }

  lemma StartInv(threads: nat, objects: set<Key>)
    ensures Inv(Start(threads, objects))
  {
  }
}
