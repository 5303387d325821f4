/** The registry of guest window surfaces and its one-shot handoff: surfaces are created,
    swapped, replaced and destroyed by any number of threads, and the callbacks run with
    the registry unlocked. */
module GuestSurfaces {
  import opened Options

  type Tid = nat
  type Window = nat
  type Generation = nat

  datatype Handoff = Pending | Inflight | Complete

  datatype Entry = Entry(window: Window, display: nat, surface: nat, generation: Generation, handoff: Handoff)

  /** The list, newest first, and the atomic count of pending handoffs. */
  datatype Registry = Registry(list: seq<Entry>, pending: int)

  // ------------------------------------------------------------------ the sections

  ghost function PendingIn(list: seq<Entry>): nat {
    if list == [] then 0 else PendingIn(list[1..]) + if list[0].handoff.Pending? then 1 else 0
  }

  predicate Matches(e: Entry, display: nat, surface: nat) { e.display == display && e.surface == surface }

  /** What a walk over the list looks for: any entry of a surface, one whose handoff is
      pending, or the in-flight one of a generation. */
  datatype Want = Any | ToClaim | ToFinish(g: Generation)

  predicate Fits(e: Entry, display: nat, surface: nat, want: Want) {
    && Matches(e, display, surface)
    && match want
       case Any => true
       case ToClaim => e.handoff.Pending?
       case ToFinish(g) => e.generation == g && e.handoff.Inflight?
  }

  /** The position of the first entry that fits, |list| when there is none. */
  function First(list: seq<Entry>, display: nat, surface: nat, want: Want): (i: nat)
    ensures i <= |list| && (i < |list| ==> Fits(list[i], display, surface, want))
    ensures forall j | 0 <= j < i :: !Fits(list[j], display, surface, want)
  {
    if list == [] || Fits(list[0], display, surface, want) then 0
    else
      var i := First(list[1..], display, surface, want);
      assert forall j | 1 <= j < i + 1 :: list[j] == list[1..][j - 1];
      i + 1
  }

  function Less(e: Entry): int { if e.handoff.Pending? then 1 else 0 }

  /** tipsy_egl_guest_surface_take */
  function Take(r: Registry, display: nat, surface: nat): (Registry, Option<Entry>) {
    var i := First(r.list, display, surface, Any);
    if i == |r.list| then (r, None)
    else (Registry(r.list[..i] + r.list[i + 1..], r.pending - Less(r.list[i])), Some(r.list[i]))
  }

  function Elsewhere(list: seq<Entry>, w: Window): seq<Entry> {
    if list == [] then []
    else if list[0].window == w then Elsewhere(list[1..], w)
    else [list[0]] + Elsewhere(list[1..], w)
  }

  function Dropped(list: seq<Entry>, w: Window): nat {
    if list == [] then 0 else Dropped(list[1..], w) + if list[0].window == w && list[0].handoff.Pending? then 1 else 0
  }

  /** tipsy_egl_guest_surface_discard_window */
  function Discard(r: Registry, w: Window): Registry {
    Registry(Elsewhere(r.list, w), r.pending - Dropped(r.list, w))
  }

  /** tipsy_egl_guest_surface_store */
  function Store(r: Registry, e: Entry): Registry {
    var d := Discard(r, e.window);
    Registry([e] + d.list, d.pending + Less(e))
  }

  /** tipsy_egl_guest_surface_claim */
  function Claim(r: Registry, display: nat, surface: nat): (Registry, Option<Entry>) {
    var i := First(r.list, display, surface, ToClaim);
    if i == |r.list| then (r, None)
    else
      var e := r.list[i].(handoff := Inflight);
      (Registry(r.list[i := e], r.pending - 1), Some(e))
  }

  /** tipsy_egl_guest_surface_finish */
  function Finish(r: Registry, display: nat, surface: nat, g: Generation, accepted: bool): Registry {
    var i := First(r.list, display, surface, ToFinish(g));
    if i == |r.list| then r
    else if accepted then r.(list := r.list[i := r.list[i].(handoff := Complete)])
    else Registry(r.list[i := r.list[i].(handoff := Pending)], r.pending + 1)
  }

  // ------------------------------------------------------------------ the threads

  /** Where a thread is in a swap, a creation or a destruction. */
  datatype Pc =
    | Idle
    | Swapped(display: nat, surface: nat)   // the host swap succeeded and a handoff was pending
    | Calling(e: Entry)                     // claimed; in the swap callback
    | Answered(e: Entry, accepted: bool)    // the callback returned
    | Creating(window: Window, display: nat, surface: nat)   // older records of the window are gone
    | Created(e: Entry)                     // has its generation
    | Destroying(e: Entry)                  // taken; in the destroy callback

  /** `born` is the next generation the graphics side will give out, `accepted` the
      generations whose handoff it has accepted, in order. */
  datatype State = State(registry: Registry, threads: seq<Pc>, born: Generation, accepted: seq<Generation>)

  function Init(threads: nat): State { State(Registry([], 0), seq(threads, _ => Idle), 1, []) }

  datatype Action =
    | Swap(t: Tid, display: nat, surface: nat) | ClaimIt(t: Tid) | Answer(t: Tid, accepted: bool) | FinishIt(t: Tid)
    | Create(t: Tid, window: Window, display: nat, surface: nat) | Name(t: Tid, refused: bool) | StoreIt(t: Tid)
    | Destroy(t: Tid, display: nat, surface: nat) | Destroyed(t: Tid) | ClearAll

  predicate Enabled(s: State, a: Action) {
    match a
    case Swap(t, _, _) => t < |s.threads| && s.threads[t].Idle?
    case ClaimIt(t) => t < |s.threads| && s.threads[t].Swapped?
    case Answer(t, _) => t < |s.threads| && s.threads[t].Calling?
    case FinishIt(t) => t < |s.threads| && s.threads[t].Answered?
    case Create(t, _, _, _) => t < |s.threads| && s.threads[t].Idle?
    case Name(t, _) => t < |s.threads| && s.threads[t].Creating?
    case StoreIt(t) => t < |s.threads| && s.threads[t].Created?
    case Destroy(t, _, _) => t < |s.threads| && s.threads[t].Idle?
    case Destroyed(t) => t < |s.threads| && s.threads[t].Destroying?
    case ClearAll => true
  }

  function At(s: State, t: Tid, pc: Pc): State
    requires t < |s.threads|
  {
    s.(threads := s.threads[t := pc])
  }

  function Do(s: State, a: Action): State
    requires Enabled(s, a)
  {
    match a
    case Swap(t, display, surface) => if s.registry.pending == 0 then s else At(s, t, Swapped(display, surface))
    case ClaimIt(t) =>
      var (r, e) := Claim(s.registry, s.threads[t].display, s.threads[t].surface);
      At(s.(registry := r), t, if e.Some? then Calling(e.value) else Idle)
    case Answer(t, accepted) =>
      At(s, t, Answered(s.threads[t].e, accepted)).(
        accepted := if accepted then s.accepted + [s.threads[t].e.generation] else s.accepted)
    case FinishIt(t) =>
      var e := s.threads[t].e;
      At(s.(registry := Finish(s.registry, e.display, e.surface, e.generation, s.threads[t].accepted)), t, Idle)
    case Create(t, w, display, surface) =>
      At(s.(registry := Discard(s.registry, w)), t, Creating(w, display, surface))
    case Name(t, refused) =>
      if refused then At(s, t, Idle)
      else
        var pc := s.threads[t];
        At(s, t, Created(Entry(pc.window, pc.display, pc.surface, s.born, Pending))).(born := s.born + 1)
    case StoreIt(t) => At(s.(registry := Store(s.registry, s.threads[t].e)), t, Idle)
    case Destroy(t, display, surface) =>
      var (r, e) := Take(s.registry, display, surface);
      At(s.(registry := r), t, if e.Some? then Destroying(e.value) else Idle)
    case Destroyed(t) => At(s, t, Idle)
    case ClearAll => s.(registry := Registry([], 0))
  }

  // ------------------------------------------------------------------ invariant

  ghost predicate Distinct(list: seq<Entry>) {
    forall i, j | 0 <= i < j < |list| :: list[i].window != list[j].window && list[i].generation != list[j].generation
  }

  /** One entry per window and per generation, and the count is exact. */
  ghost predicate ListOk(r: Registry, born: Generation) {
    r.pending == PendingIn(r.list) && Distinct(r.list) && forall x | x in r.list :: x.generation < born
  }

  predicate Holds(pc: Pc) { pc.Calling? || pc.Answered? }

  /** A swap caller's copy is the entry itself, if that is still there; a generation that
      has not been stored is with its creator alone. */
  ghost predicate ThreadOk(s: State, t: Tid)
    requires t < |s.threads|
  {
    var pc := s.threads[t];
    && (Holds(pc) || pc.Created? ==> pc.e.generation < s.born)
    && (Holds(pc) ==> pc.e.handoff.Inflight? && forall x | x in s.registry.list && x.generation == pc.e.generation ::
         x == pc.e)
    && (pc.Created? ==> pc.e.handoff.Pending? && forall x | x in s.registry.list :: x.generation != pc.e.generation)
    && (pc.Calling? || pc.Created? ==> pc.e.generation !in s.accepted)
    && (pc.Answered? ==> (pc.accepted <==> pc.e.generation in s.accepted))
  }

  /** No two threads work with one generation. */
  ghost predicate Apart(s: State, t: Tid, u: Tid)
    requires t < |s.threads| && u < |s.threads|
  {
    var p, q := s.threads[t], s.threads[u];
    t != u && (Holds(p) || p.Created?) && (Holds(q) || q.Created?) ==> p.e.generation != q.e.generation
  }

  ghost predicate EntryOk(s: State, e: Entry) {
    && (e.handoff.Inflight? ==> exists t :: 0 <= t < |s.threads| && Holds(s.threads[t]) && s.threads[t].e == e)
    && (e.handoff.Pending? ==> e.generation !in s.accepted)
  }

  ghost predicate NoDup(g: seq<Generation>) { forall i, j | 0 <= i < j < |g| :: g[i] != g[j] }

  ghost predicate Inv(s: State) {
    && ListOk(s.registry, s.born)
    && (forall t {:trigger ThreadOk(s, t)} | 0 <= t < |s.threads| :: ThreadOk(s, t))
    && (forall t, u {:trigger Apart(s, t, u)} | 0 <= t < |s.threads| && 0 <= u < |s.threads| :: Apart(s, t, u))
    && (forall e {:trigger EntryOk(s, e)} | e in s.registry.list :: EntryOk(s, e))
    && NoDup(s.accepted) && (forall g | g in s.accepted :: g < s.born)
  }

  // ------------------------------------------------------ what each section does

  lemma {:induction false} PendingSplice(a: seq<Entry>, b: seq<Entry>)
    ensures PendingIn(a + b) == PendingIn(a) + PendingIn(b)
  {
    if a == [] {
      assert a + b == b;
    } else {
      assert (a + b)[1..] == a[1..] + b;
      PendingSplice(a[1..], b);
    }
  }

  lemma PendingRemoved(list: seq<Entry>, i: nat)
    requires i < |list|
    ensures PendingIn(list[..i] + list[i + 1..]) == PendingIn(list) - Less(list[i])
  {
    var front, e, back := list[..i], list[i], list[i + 1..];
    PendingHead(e, back);
    hide PendingIn, Less;
    PendingSplice(front, back);
    PendingSplice(front, [e] + back);
    assert list == front + ([e] + back);
  }

  lemma PendingHead(e: Entry, back: seq<Entry>)
    ensures PendingIn([e] + back) == Less(e) + PendingIn(back)
  {
    assert ([e] + back)[1..] == back;
  }

  lemma RestAt(list: seq<Entry>, i: nat, j: nat)
    requires i < |list| && j < |list| - 1
    ensures (list[..i] + list[i + 1..])[j] == list[if j < i then j else j + 1]
  {
  }

  lemma RestIsDistinct(list: seq<Entry>, i: nat)
    requires i < |list| && Distinct(list)
    ensures Distinct(list[..i] + list[i + 1..])
  {
    var rest := list[..i] + list[i + 1..];
    forall j, k | 0 <= j < k < |rest|
        ensures rest[j].window != rest[k].window && rest[j].generation != rest[k].generation {
      RestAt(list, i, j);
      RestAt(list, i, k);
    }
  }

  lemma RestHas(list: seq<Entry>, i: nat, x: Entry)
    requires i < |list| && Distinct(list)
    ensures x in list[..i] + list[i + 1..] <==> x in list && x != list[i]
  {
    var rest := list[..i] + list[i + 1..];
    if x in list && x != list[i] {
      var j :| 0 <= j < |list| && list[j] == x;
      RestAt(list, i, if j < i then j else j - 1);
      assert rest[if j < i then j else j - 1] == x;
    }
    if x in rest {
      var j :| 0 <= j < |rest| && rest[j] == x;
      RestAt(list, i, j);
    }
  }

  lemma RemoveAt(list: seq<Entry>, i: nat)
    requires i < |list| && Distinct(list)
    ensures var rest := list[..i] + list[i + 1..];
      && Distinct(rest) && PendingIn(rest) == PendingIn(list) - Less(list[i])
      && forall x :: x in rest <==> x in list && x != list[i]
  {
    PendingRemoved(list, i);
    RestIsDistinct(list, i);
    hide PendingIn, Distinct;
    forall x ensures x in list[..i] + list[i + 1..] <==> x in list && x != list[i] { RestHas(list, i, x); }
  }

  lemma SetHas(list: seq<Entry>, i: nat, e: Entry, x: Entry)
    requires i < |list| && Distinct(list) && e.generation == list[i].generation
    ensures x in list[i := e] <==> x == e || (x in list && x.generation != e.generation)
  {
    var now := list[i := e];
    assert now[i] == e;
    if x in list && x.generation != e.generation {
      var j :| 0 <= j < |list| && list[j] == x;
      assert now[j] == x;
    }
    if x in now && x != e {
      var j :| 0 <= j < |now| && now[j] == x;
      assert list[j] == x;
    }
  }

  lemma SetAt(list: seq<Entry>, i: nat, e: Entry)
    requires i < |list| && Distinct(list) && e.window == list[i].window && e.generation == list[i].generation
    ensures Distinct(list[i := e]) && PendingIn(list[i := e]) == PendingIn(list) - Less(list[i]) + Less(e)
    ensures forall x :: x in list[i := e] <==> x == e || (x in list && x.generation != e.generation)
  {
    PendingRemoved(list, i);
    PendingRemoved(list[i := e], i);
    assert list[i := e][..i] + list[i := e][i + 1..] == list[..i] + list[i + 1..];
    assert Distinct(list[i := e]);
    hide PendingIn, Distinct;
    forall x ensures x in list[i := e] <==> x == e || (x in list && x.generation != e.generation) {
      SetHas(list, i, e, x);
    }
  }

  /** Discarding keeps, in order, exactly the entries of other windows. */
  lemma {:induction false} ElsewhereIs(list: seq<Entry>, w: Window)
    ensures forall e :: e in Elsewhere(list, w) <==> e in list && e.window != w
    ensures PendingIn(Elsewhere(list, w)) == PendingIn(list) - Dropped(list, w)
  {
    if list == [] {
    } else {
      ElsewhereIs(list[1..], w);
      assert list == [list[0]] + list[1..];
      PendingSplice([list[0]], Elsewhere(list[1..], w));
    }
  }

  lemma DistinctCons(e: Entry, rest: seq<Entry>)
    requires Distinct(rest) && forall x | x in rest :: x.window != e.window && x.generation != e.generation
    ensures Distinct([e] + rest)
  {
  }

  lemma {:induction false} ElsewhereDistinct(list: seq<Entry>, w: Window)
    requires Distinct(list)
    ensures Distinct(Elsewhere(list, w))
  {
    if list == [] {
    } else {
      var rest := list[1..];
      ElsewhereDistinct(rest, w);
      ElsewhereIs(rest, w);
      forall e | e in rest ensures e.window != list[0].window && e.generation != list[0].generation {
        var j :| 0 <= j < |rest| && rest[j] == e;
        assert list[j + 1] == e;
      }
      DistinctCons(list[0], Elsewhere(rest, w));
      hide Distinct;
    }
  }

  lemma DiscardKeeps(r: Registry, w: Window, born: Generation)
    requires ListOk(r, born)
    ensures ListOk(Discard(r, w), born)
    ensures forall e :: e in Discard(r, w).list <==> e in r.list && e.window != w
  {
    ElsewhereIs(r.list, w);
    ElsewhereDistinct(r.list, w);
  }

  /** A stored entry is the only one of its window. */
  lemma StoreKeeps(r: Registry, e: Entry, born: Generation)
    requires ListOk(r, born) && e.generation < born && forall x | x in r.list :: x.generation != e.generation
    ensures ListOk(Store(r, e), born)
    ensures forall x :: x in Store(r, e).list <==> x == e || (x in r.list && x.window != e.window)
  {
    DiscardKeeps(r, e.window, born);
    var d := Discard(r, e.window);
    hide Discard;
    PendingSplice([e], d.list);
    forall i | 0 <= i < |d.list| ensures d.list[i].window != e.window && d.list[i].generation != e.generation {
      assert d.list[i] in r.list;
    }
  }

  /** Taking removes one entry of that surface, if there is any, and leaves all others. */
  lemma TakeKeeps(r: Registry, display: nat, surface: nat, born: Generation)
    requires ListOk(r, born)
    ensures var (q, e) := Take(r, display, surface);
      && ListOk(q, born)
      && (e.Some? ==> e.value in r.list && Matches(e.value, display, surface))
      && (e.None? ==> forall x | x in r.list :: !Matches(x, display, surface))
      && forall x :: x in q.list <==> x in r.list && Some(x) != e
  {
    hide Distinct, PendingIn;
    var i := First(r.list, display, surface, Any);
    if i < |r.list| { RemoveAt(r.list, i); }
  }

  predicate Takes(r: Registry, i: nat, q: (Registry, Option<Entry>)) {
    if i >= |r.list| then q == (r, None)
    else q.1 == Some(r.list[i]) && q.0.list == r.list[..i] + r.list[i + 1..]
  }

  predicate Claims(r: Registry, i: nat, q: (Registry, Option<Entry>)) {
    if i >= |r.list| then q == (r, None)
    else q.1 == Some(r.list[i].(handoff := Inflight)) && q.0 == Registry(r.list[i := q.1.value], r.pending - 1)
  }

  predicate Settles(r: Registry, i: nat, accepted: bool, q: Registry) {
    if i >= |r.list| then q == r
    else
      && q.list == r.list[i := r.list[i].(handoff := if accepted then Complete else Pending)]
      && q.pending == if accepted then r.pending else r.pending + 1
  }

  /** A walk acts on the newest entry it is looking for, and all others keep their places. */
  lemma ActsOnFirst(r: Registry, display: nat, surface: nat, want: Want) returns (i: nat)
    ensures i <= |r.list| && forall j | 0 <= j < i :: !Fits(r.list[j], display, surface, want)
    ensures i < |r.list| ==> Fits(r.list[i], display, surface, want)
    ensures want.Any? ==> Takes(r, i, Take(r, display, surface))
    ensures want.ToClaim? ==> Claims(r, i, Claim(r, display, surface))
    ensures want.ToFinish? ==> forall accepted {:trigger Finish(r, display, surface, want.g, accepted)} ::
      Settles(r, i, accepted, Finish(r, display, surface, want.g, accepted))
  {
    i := First(r.list, display, surface, want);
  }

  /** Claiming turns one pending entry of that surface into an in-flight one. */
  lemma ClaimKeeps(r: Registry, display: nat, surface: nat, born: Generation)
    requires ListOk(r, born)
    ensures var (q, e) := Claim(r, display, surface);
      && ListOk(q, born)
      && (e.Some? ==>
           e.value.handoff.Inflight? && e.value.(handoff := Pending) in r.list &&
           Matches(e.value, display, surface))
      && (e.None? ==> q == r && forall x | x in r.list :: !(Matches(x, display, surface) && x.handoff.Pending?))
      && forall x :: x in q.list <==>
           if e.Some? then x == e.value || (x in r.list && x.generation != e.value.generation) else x in r.list
  {
    hide Distinct, PendingIn;
    var i := First(r.list, display, surface, ToClaim);
    if i < |r.list| { SetAt(r.list, i, r.list[i].(handoff := Inflight)); }
  }

  /** Finishing settles the very entry that was claimed, or nothing if it is gone. */
  lemma FinishKeeps(r: Registry, c: Entry, accepted: bool, born: Generation)
    requires ListOk(r, born) && c.handoff.Inflight?
    requires forall x | x in r.list && x.generation == c.generation :: x == c
    ensures var q, done := Finish(r, c.display, c.surface, c.generation, accepted),
      c.(handoff := if accepted then Complete else Pending);
      && ListOk(q, born)
      && (c !in r.list ==> q == r)
      && forall x :: x in q.list <==>
           if c in r.list then x == done || (x in r.list && x.generation != c.generation) else x in r.list
  {
    hide Distinct, PendingIn;
    var i := First(r.list, c.display, c.surface, ToFinish(c.generation));
    if i < |r.list| {
      assert r.list[i] == c;
      SetAt(r.list, i, c.(handoff := if accepted then Complete else Pending));
    }
  }

  // ------------------------------------------------------------ every step keeps it

  lemma ListGenerations(r: Registry, born: Generation)
    requires ListOk(r, born)
    ensures forall x, y | x in r.list && y in r.list && x.generation == y.generation :: x == y
    ensures forall x | x in r.list :: x.generation < born
  {
  }

  /** Entries leave the list, and thread `t` goes on without one it worked with. */
  lemma Shrink(s: State, t: Tid, r: Registry, pc: Pc)
    requires Inv(s) && t < |s.threads| && ListOk(r, s.born) && forall x | x in r.list :: x in s.registry.list
    requires !Holds(s.threads[t]) && !Holds(pc) && !pc.Created?
    ensures Inv(At(s.(registry := r), t, pc))
  {
    var v := At(s.(registry := r), t, pc);
    hide ListOk;
    forall u {:trigger ThreadOk(v, u)} | 0 <= u < |v.threads| ensures ThreadOk(v, u) { assert ThreadOk(s, u); }
    forall u, w {:trigger Apart(v, u, w)} | 0 <= u < |v.threads| && 0 <= w < |v.threads| ensures Apart(v, u, w) {
      assert Apart(s, u, w);
    }
    forall e {:trigger EntryOk(v, e)} | e in v.registry.list ensures EntryOk(v, e) {
      assert EntryOk(s, e);
      if e.handoff.Inflight? {
        var u :| 0 <= u < |s.threads| && Holds(s.threads[u]) && s.threads[u].e == e;
        assert Holds(v.threads[u]) && v.threads[u].e == e;
      }
    }
  }

  lemma ClaimKeepsInv(s: State, t: Tid)
    requires Inv(s) && Enabled(s, ClaimIt(t))
    ensures Inv(Do(s, ClaimIt(t)))
  {
    var (r, e) := Claim(s.registry, s.threads[t].display, s.threads[t].surface);
    ClaimKeeps(s.registry, s.threads[t].display, s.threads[t].surface, s.born);
    hide Claim;
    if e.None? {
      Shrink(s, t, r, Idle);
    } else {
      ListGenerations(s.registry, s.born);
      assert EntryOk(s, e.value.(handoff := Pending));
      Claimed(s, t, r, e.value);
    }
  }

  lemma Claimed(s: State, t: Tid, r: Registry, e: Entry)
    requires Inv(s) && t < |s.threads| && s.threads[t].Swapped? && ListOk(r, s.born)
    requires e.handoff.Inflight? && e.(handoff := Pending) in s.registry.list && e.generation < s.born
    requires e.generation !in s.accepted
    requires forall x :: x in r.list <==> x == e || (x in s.registry.list && x.generation != e.generation)
    ensures Inv(At(s.(registry := r), t, Calling(e)))
  {
    var v := At(s.(registry := r), t, Calling(e));
    hide ListOk;
    forall u {:trigger ThreadOk(v, u)} | 0 <= u < |v.threads| ensures ThreadOk(v, u) { assert ThreadOk(s, u); }
    forall u, w {:trigger Apart(v, u, w)} | 0 <= u < |v.threads| && 0 <= w < |v.threads| ensures Apart(v, u, w) {
      assert Apart(s, u, w) && ThreadOk(s, u) && ThreadOk(s, w);
    }
    forall x {:trigger EntryOk(v, x)} | x in v.registry.list ensures EntryOk(v, x) {
      if x == e {
        assert Holds(v.threads[t]) && v.threads[t].e == e;
      } else {
        assert EntryOk(s, x);
        if x.handoff.Inflight? {
          var u :| 0 <= u < |s.threads| && Holds(s.threads[u]) && s.threads[u].e == x;
          assert Holds(v.threads[u]) && v.threads[u].e == x;
        }
      }
    }
  }

  lemma AnswerKeepsInv(s: State, t: Tid, accepted: bool)
    requires Inv(s) && Enabled(s, Answer(t, accepted))
    ensures Inv(Do(s, Answer(t, accepted)))
  {
    var v, g := Do(s, Answer(t, accepted)), s.threads[t].e.generation;
    assert ThreadOk(s, t);
    hide ListOk;
    forall u {:trigger ThreadOk(v, u)} | 0 <= u < |v.threads| ensures ThreadOk(v, u) {
      assert ThreadOk(s, u) && Apart(s, u, t);
    }
    forall u, w {:trigger Apart(v, u, w)} | 0 <= u < |v.threads| && 0 <= w < |v.threads| ensures Apart(v, u, w) {
      assert Apart(s, u, w);
    }
    forall e {:trigger EntryOk(v, e)} | e in v.registry.list ensures EntryOk(v, e) {
      assert EntryOk(s, e);
      if e.handoff.Inflight? {
        var u :| 0 <= u < |s.threads| && Holds(s.threads[u]) && s.threads[u].e == e;
        assert Holds(v.threads[u]) && v.threads[u].e == e;
      }
    }
  }

  lemma FinishKeepsInv(s: State, t: Tid)
    requires Inv(s) && Enabled(s, FinishIt(t))
    ensures Inv(Do(s, FinishIt(t)))
  {
    var pc := s.threads[t];
    assert ThreadOk(s, t);
    FinishKeeps(s.registry, pc.e, pc.accepted, s.born);
    hide Finish;
    Finished(s, t, Finish(s.registry, pc.e.display, pc.e.surface, pc.e.generation, pc.accepted));
  }

  lemma Finished(s: State, t: Tid, r: Registry)
    requires Inv(s) && t < |s.threads| && s.threads[t].Answered? && ListOk(r, s.born)
    requires var c := s.threads[t].e;
      var done := c.(handoff := if s.threads[t].accepted then Complete else Pending);
      forall x :: x in r.list <==>
        if c in s.registry.list then x == done || (x in s.registry.list && x.generation != c.generation)
        else x in s.registry.list
    ensures Inv(At(s.(registry := r), t, Idle))
  {
    var v, c := At(s.(registry := r), t, Idle), s.threads[t].e;
    assert ThreadOk(s, t);
    hide ListOk;
    forall u {:trigger ThreadOk(v, u)} | 0 <= u < |v.threads| ensures ThreadOk(v, u) {
      assert ThreadOk(s, u) && Apart(s, u, t);
    }
    forall u, w {:trigger Apart(v, u, w)} | 0 <= u < |v.threads| && 0 <= w < |v.threads| ensures Apart(v, u, w) {
      assert Apart(s, u, w);
    }
    forall x {:trigger EntryOk(v, x)} | x in v.registry.list ensures EntryOk(v, x) {
      if x in s.registry.list {
        assert EntryOk(s, x);
        if x.handoff.Inflight? {
          var u :| 0 <= u < |s.threads| && Holds(s.threads[u]) && s.threads[u].e == x;
          assert u != t;
          assert Holds(v.threads[u]) && v.threads[u].e == x;
        }
      }
    }
  }

  lemma NameKeepsInv(s: State, t: Tid, refused: bool)
    requires Inv(s) && Enabled(s, Name(t, refused))
    ensures Inv(Do(s, Name(t, refused)))
  {
    var v := Do(s, Name(t, refused));
    ListGenerations(s.registry, s.born);
    hide ListOk;
    forall u {:trigger ThreadOk(v, u)} | 0 <= u < |v.threads| ensures ThreadOk(v, u) { assert ThreadOk(s, u); }
    forall u, w {:trigger Apart(v, u, w)} | 0 <= u < |v.threads| && 0 <= w < |v.threads| ensures Apart(v, u, w) {
      assert Apart(s, u, w) && ThreadOk(s, u) && ThreadOk(s, w);
    }
    forall e {:trigger EntryOk(v, e)} | e in v.registry.list ensures EntryOk(v, e) {
      assert EntryOk(s, e);
      if e.handoff.Inflight? {
        var u :| 0 <= u < |s.threads| && Holds(s.threads[u]) && s.threads[u].e == e;
        assert Holds(v.threads[u]) && v.threads[u].e == e;
      }
    }
    NameKeepsList(s.registry, s.born);
  }

  lemma NameKeepsList(r: Registry, born: Generation)
    requires ListOk(r, born)
    ensures ListOk(r, born + 1)
  {
  }

  lemma StoreKeepsInv(s: State, t: Tid)
    requires Inv(s) && Enabled(s, StoreIt(t))
    ensures Inv(Do(s, StoreIt(t)))
  {
    assert ThreadOk(s, t);
    StoreKeeps(s.registry, s.threads[t].e, s.born);
    hide Store;
    Stored(s, t, Store(s.registry, s.threads[t].e));
  }

  lemma Stored(s: State, t: Tid, r: Registry)
    requires Inv(s) && t < |s.threads| && s.threads[t].Created? && ListOk(r, s.born)
    requires forall x :: x in r.list <==>
      x == s.threads[t].e || (x in s.registry.list && x.window != s.threads[t].e.window)
    ensures Inv(At(s.(registry := r), t, Idle))
  {
    var v := At(s.(registry := r), t, Idle);
    assert ThreadOk(s, t);
    hide ListOk;
    forall u {:trigger ThreadOk(v, u)} | 0 <= u < |v.threads| ensures ThreadOk(v, u) {
      assert ThreadOk(s, u) && Apart(s, u, t);
    }
    forall u, w {:trigger Apart(v, u, w)} | 0 <= u < |v.threads| && 0 <= w < |v.threads| ensures Apart(v, u, w) {
      assert Apart(s, u, w);
    }
    forall x {:trigger EntryOk(v, x)} | x in v.registry.list ensures EntryOk(v, x) {
      if x in s.registry.list {
        assert EntryOk(s, x);
        if x.handoff.Inflight? {
          var u :| 0 <= u < |s.threads| && Holds(s.threads[u]) && s.threads[u].e == x;
          assert Holds(v.threads[u]) && v.threads[u].e == x;
        }
      }
    }
  }

  lemma EmptyKeepsInv(s: State)
    requires Inv(s)
    ensures Inv(Do(s, ClearAll))
  {
    var v := s.(registry := Registry([], 0));
    forall u {:trigger ThreadOk(v, u)} | 0 <= u < |v.threads| ensures ThreadOk(v, u) { assert ThreadOk(s, u); }
    forall u, w {:trigger Apart(v, u, w)} | 0 <= u < |v.threads| && 0 <= w < |v.threads| ensures Apart(v, u, w) {
      assert Apart(s, u, w);
    }
  }

  lemma CreateKeepsInv(s: State, t: Tid, w: Window, display: nat, surface: nat)
    requires Inv(s) && Enabled(s, Create(t, w, display, surface))
    ensures Inv(Do(s, Create(t, w, display, surface)))
  {
    assert ListOk(s.registry, s.born);
    hide Inv, ListOk, Discard;
    DiscardKeeps(s.registry, w, s.born);
    Shrink(s, t, Discard(s.registry, w), Creating(w, display, surface));
  }

  lemma DestroyKeepsInv(s: State, t: Tid, display: nat, surface: nat)
    requires Inv(s) && Enabled(s, Destroy(t, display, surface))
    ensures Inv(Do(s, Destroy(t, display, surface)))
  {
    assert ListOk(s.registry, s.born);
    hide Inv, ListOk, Take;
    TakeKeeps(s.registry, display, surface, s.born);
    var (r, e) := Take(s.registry, display, surface);
    Shrink(s, t, r, if e.Some? then Destroying(e.value) else Idle);
  }

  /** The list stays as it is. */
  lemma MoveKeepsInv(s: State, t: Tid, pc: Pc)
    requires Inv(s) && t < |s.threads| && !Holds(s.threads[t]) && !Holds(pc) && !pc.Created?
    ensures Inv(At(s, t, pc))
  {
    assert ListOk(s.registry, s.born);
    hide Inv, ListOk;
    Shrink(s, t, s.registry, pc);
    assert s.(registry := s.registry) == s;
  }

  lemma StepKeepsInv(s: State, a: Action)
    requires Inv(s) && Enabled(s, a)
    ensures Inv(Do(s, a))
  {
    if a.Swap? && s.registry.pending != 0 { MoveKeepsInv(s, a.t, Swapped(a.display, a.surface)); }
    if a.Destroyed? { MoveKeepsInv(s, a.t, Idle); }
    if !a.Swap? && !a.Destroyed? { SectionKeepsInv(s, a); }
    hide Inv, Discard, Take, Claim, Finish, Store;
  }

  lemma SectionKeepsInv(s: State, a: Action)
    requires Inv(s) && Enabled(s, a) && !a.Swap? && !a.Destroyed?
    ensures Inv(Do(s, a))
  {
    hide Inv, Do;
    match a
    case ClaimIt(t) => ClaimKeepsInv(s, t);
    case Answer(t, accepted) => AnswerKeepsInv(s, t, accepted);
    case FinishIt(t) => FinishKeepsInv(s, t);
    case Create(t, w, display, surface) => CreateKeepsInv(s, t, w, display, surface);
    case Name(t, refused) => NameKeepsInv(s, t, refused);
    case StoreIt(t) => StoreKeepsInv(s, t);
    case Destroy(t, display, surface) => DestroyKeepsInv(s, t, display, surface);
    case ClearAll => EmptyKeepsInv(s);
  }

  lemma InitInv(threads: nat)
    ensures Inv(Init(threads))
  {
  }

  ghost predicate Run(s: State, trace: seq<Action>, t: State)
    decreases |trace|
  {
    if trace == [] then s == t else Enabled(s, trace[0]) && Run(Do(s, trace[0]), trace[1..], t)
  }

  lemma {:induction false} RunKeepsInv(s: State, trace: seq<Action>, t: State)
    requires Inv(s) && Run(s, trace, t)
    ensures Inv(t)
    decreases |trace|
  {
    hide Inv, Do, Enabled;
    if trace == [] {
    } else {
      StepKeepsInv(s, trace[0]);
      RunKeepsInv(Do(s, trace[0]), trace[1..], t);
    }
  }

  // ------------------------------------------------------------------- theorems

  /** In every run: the count a swap reads is the number of pending entries, each window
      has at most one entry, and no generation's handoff is accepted twice. */
  lemma HandoffOnce(threads: nat, trace: seq<Action>, s: State)
    requires Run(Init(threads), trace, s)
    ensures s.registry.pending == PendingIn(s.registry.list)
    ensures forall i, j | 0 <= i < j < |s.registry.list| :: s.registry.list[i].window != s.registry.list[j].window
    ensures NoDup(s.accepted)
  {
    hide Run;
    InitInv(threads);
    RunKeepsInv(Init(threads), trace, s);
  }

  /** The fast path is safe: a swap that reads 0 has nothing to claim, and one that reads
      anything else may. */
  lemma {:induction false} ZeroMeansNone(list: seq<Entry>)
    ensures PendingIn(list) == 0 <==> forall e | e in list :: !e.handoff.Pending?
  {
    if list == [] {
    } else {
      ZeroMeansNone(list[1..]);
      assert list == [list[0]] + list[1..];
    }
  }

  /** A swap of a surface with a pending handoff makes the callback, for an entry of that surface
      that was pending, and the answer settles it: accepted it is complete and on record, refused
      it is pending again. */
  lemma PendingIsHandedOff(s: State, t: Tid, e: Entry, accepted: bool)
    requires Inv(s) && t < |s.threads| && s.threads[t].Idle? && e in s.registry.list && e.handoff.Pending?
    ensures var u := Do(s, Swap(t, e.display, e.surface));
      && Enabled(u, ClaimIt(t))
      && var c := Do(u, ClaimIt(t));
         && Enabled(c, Answer(t, accepted))
         && var p := c.threads[t].e;
            && Matches(p, e.display, e.surface) && p.handoff.Inflight? && p.(handoff := Pending) in s.registry.list
            && var v := Do(Do(c, Answer(t, accepted)), FinishIt(t));
               && p.(handoff := if accepted then Complete else Pending) in v.registry.list && v.threads[t].Idle?
               && v.accepted == if accepted then s.accepted + [p.generation] else s.accepted
  {
    ZeroMeansNone(s.registry.list);
    ClaimKeeps(s.registry, e.display, e.surface, s.born);
    ListGenerations(s.registry, s.born);
    var (q, c) := Claim(s.registry, e.display, e.surface);
    hide Claim, PendingIn, Distinct, Finish;
    FinishKeeps(q, c.value, accepted, s.born);
  }

  /** An in-flight entry is held by exactly one swap caller. */
  lemma InflightHeldOnce(threads: nat, trace: seq<Action>, s: State, e: Entry) returns (t: Tid)
    requires Run(Init(threads), trace, s) && e in s.registry.list && e.handoff.Inflight?
    ensures t < |s.threads| && Holds(s.threads[t]) && s.threads[t].e == e
    ensures forall u | 0 <= u < |s.threads| && Holds(s.threads[u]) && s.threads[u].e.generation == e.generation ::
      u == t
  {
    hide Run, ListOk;
    InitInv(threads);
    RunKeepsInv(Init(threads), trace, s);
    assert EntryOk(s, e);
    t :| 0 <= t < |s.threads| && Holds(s.threads[t]) && s.threads[t].e == e;
    forall u | 0 <= u < |s.threads| && Holds(s.threads[u]) && s.threads[u].e.generation == e.generation ensures u == t {
      assert Apart(s, u, t);
    }
  }

  /** Generation `g` was destroyed or replaced. */
  ghost predicate Gone(s: State, g: Generation) {
    && g < s.born && (forall e | e in s.registry.list :: e.generation != g)
    && forall t | 0 <= t < |s.threads| && s.threads[t].Created? :: s.threads[t].e.generation != g
  }

  lemma GoneStep(s: State, a: Action, g: Generation)
    requires Inv(s) && Enabled(s, a) && Gone(s, g)
    ensures Gone(Do(s, a), g)
  {
    match a
    case ClaimIt(t) =>
      ClaimKeeps(s.registry, s.threads[t].display, s.threads[t].surface, s.born);
      hide Claim, Inv;
    case FinishIt(t) =>
      assert ThreadOk(s, t);
      FinishKeeps(s.registry, s.threads[t].e, s.threads[t].accepted, s.born);
      hide Finish, Inv;
    case Create(t, w, _, _) =>
      DiscardKeeps(s.registry, w, s.born);
      hide Discard, Inv;
    case StoreIt(t) =>
      assert ThreadOk(s, t);
      StoreKeeps(s.registry, s.threads[t].e, s.born);
      hide Store, Inv;
    case Destroy(t, display, surface) =>
      TakeKeeps(s.registry, display, surface, s.born);
      hide Take, Inv;
    case _ =>
  }

  /** What is destroyed or replaced is gone for good: it is never claimed again, even when
      its window, display and surface numbers are used again. */
  lemma {:induction false} NeverClaimedAgain(s: State, trace: seq<Action>, t: State, g: Generation, u: Tid)
    requires Inv(s) && Run(s, trace, t) && Gone(s, g)
    ensures Gone(t, g)
    ensures Enabled(t, ClaimIt(u)) ==>
      !Do(t, ClaimIt(u)).threads[u].Calling? || Do(t, ClaimIt(u)).threads[u].e.generation != g
    decreases |trace|
  {
    if trace != [] {
      hide Inv, Do, Gone;
      StepKeepsInv(s, trace[0]);
      GoneStep(s, trace[0], g);
      NeverClaimedAgain(Do(s, trace[0]), trace[1..], t, g, u);
    } else if Enabled(t, ClaimIt(u)) {
      ClaimKeeps(t.registry, t.threads[u].display, t.threads[u].surface, t.born);
      hide Claim;
    }
  }

  /** Destroying a surface retires the generation it takes, and replacing a window's
      surface retires the generation that was there. */
  lemma DestroyRetires(s: State, t: Tid, display: nat, surface: nat)
    requires Inv(s) && Enabled(s, Destroy(t, display, surface))
    ensures var v := Do(s, Destroy(t, display, surface));
      v.threads[t].Destroying? ==> Gone(v, v.threads[t].e.generation) && Matches(v.threads[t].e, display, surface)
  {
    TakeKeeps(s.registry, display, surface, s.born);
    ListGenerations(s.registry, s.born);
    hide Take, ListOk;
    forall u {:trigger s.threads[u]} | 0 <= u < |s.threads| && s.threads[u].Created? ensures ThreadOk(s, u) {}
  }

  lemma ReplaceRetires(s: State, t: Tid, w: Window, display: nat, surface: nat, e: Entry)
    requires Inv(s) && Enabled(s, Create(t, w, display, surface)) && e in s.registry.list && e.window == w
    ensures Gone(Do(s, Create(t, w, display, surface)), e.generation)
  {
    DiscardKeeps(s.registry, w, s.born);
    ListGenerations(s.registry, s.born);
    hide Discard, ListOk;
    forall u {:trigger s.threads[u]} | 0 <= u < |s.threads| && s.threads[u].Created? ensures ThreadOk(s, u) {}
  }

  /** A record that a racing creation stored for the window goes too. */
  lemma StoreRetires(s: State, t: Tid, e: Entry)
    requires Inv(s) && Enabled(s, StoreIt(t)) && e in s.registry.list && e.window == s.threads[t].e.window
    ensures Gone(Do(s, StoreIt(t)), e.generation)
  {
    assert ThreadOk(s, t);
    StoreKeeps(s.registry, s.threads[t].e, s.born);
    ListGenerations(s.registry, s.born);
    hide Store, ListOk;
    forall u {:trigger s.threads[u]} | 0 <= u < |s.threads| && s.threads[u].Created? ensures ThreadOk(s, u) {}
  }

  /** A rejected handoff is pending again, and an accepted one never is. */
  lemma RejectedIsPending(s: State, t: Tid)
    requires Inv(s) && Enabled(s, FinishIt(t)) && s.threads[t].e in s.registry.list
    ensures var e := s.threads[t].e.(handoff := if s.threads[t].accepted then Complete else Pending);
      e in Do(s, FinishIt(t)).registry.list
  {
    assert ThreadOk(s, t);
    FinishKeeps(s.registry, s.threads[t].e, s.threads[t].accepted, s.born);
  }
}
