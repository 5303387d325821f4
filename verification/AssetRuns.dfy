/** Any number of threads opening assets from one source generation while it may be
    retired: what holds over every interleaving of their locked sections. */
module AssetRuns {
  import opened Options
  import opened AssetModel
  import opened AssetSafety
  import opened AssetPolicy
  import opened AssetLoads

  type Tid = nat

  /** Where the leader of a load is with the archive. */
  datatype Reader = Unread | Opener(h: Handle) | Awaiting(h: Handle) | Reading(h: Handle) | Unreadable

  /** Where a thread is in openAssetBytes for the name it asked for; a leader has `named` its data once it has called
      cacheSuccessAliases, which it does at most once, as the last thing before finishLoad. */
  datatype Pc =
    | Idle
    | Waiting(name: string, id: LoadId)
    | Leading(name: string, id: LoadId, reader: Reader, named: bool)
    | Opened(name: string, id: LoadId, outcome: Outcome)
    | Served(name: string, entry: Entry)

  /** `leader` records who began each load, `asked` for which name, and `opener` who began each
      open. */
  datatype World = World(src: Source, threads: seq<Pc>, leader: seq<Tid>, asked: seq<string>, opener: seq<Tid>)

  datatype Action =
    | Look(t: Tid, name: string, now: nat)
    | Begin(t: Tid, name: string, now: nat)
    | Wake(t: Tid)
    | Peek(t: Tid, a: Alias)
    | Guard(t: Tid, d: Data)
    | Share(t: Tid, a: Alias, d: Data)
    | Names(t: Tid, used: string, d: Data)
    | Ensure(t: Tid)
    | Ensured(t: Tid, ok: bool)
    | Awaited(t: Tid)
    | Finish(t: Tid, outcome: Outcome, policy: Policy, now: nat)
    | RetireNow
    | Close
    | Borrowing(k: Key)
    | Returning(k: Key, policy: Policy, now: nat)

  function Start(threads: nat): World { World(AssetLoads.Start(), seq(threads, _ => Idle), [], [], []) }

  /** Leading and not inside ensureAPK. */
  predicate Busy(w: World, t: Tid) {
    && t < |w.threads| && w.threads[t].Leading? && w.threads[t].id < |w.src.records|
    && !w.threads[t].reader.Opener? && !w.threads[t].reader.Awaiting?
  }

  /** Still looking for the data. */
  predicate Looking(w: World, t: Tid) { Busy(w, t) && !w.threads[t].named }

  /** The data is what the load protects, if it protects any. */
  predicate Own(w: World, t: Tid, d: Data)
    requires Busy(w, t)
  {
    var k := w.src.records[w.threads[t].id].blob;
    k == 0 || k == KeyOf(d)
  }

  predicate Enabled(w: World, a: Action) {
    match a
    case Look(t, _, _) => t < |w.threads| && w.threads[t].Idle?
    case Begin(t, _, _) => t < |w.threads| && w.threads[t].Idle?
    case Wake(t) =>
      && t < |w.threads| && w.threads[t].Waiting? && w.threads[t].id < |w.src.records|
      && w.src.records[w.threads[t].id].result.Some?
    case Peek(t, _) => Looking(w, t)
    case Guard(t, _) => Looking(w, t)
    case Share(t, a, _) => Looking(w, t) && !a.Name?
    case Names(t, _, d) => Looking(w, t) && Own(w, t, d)
    case Ensure(t) => Looking(w, t)
    case Ensured(t, _) =>
      t < |w.threads| && w.threads[t].Leading? && w.threads[t].reader.Opener? && w.threads[t].reader.h < |w.src.opens|
    case Awaited(t) =>
      && t < |w.threads| && w.threads[t].Leading? && w.threads[t].reader.Awaiting? &&
           w.threads[t].reader.h < |w.src.opens|
      && w.src.opens[w.threads[t].reader.h].Some?
    case Finish(t, _, _, _) => Busy(w, t)
    case RetireNow => true
    case Close => true
    case Borrowing(_) => true
    case Returning(_, _, _) => true
  }

  function At(w: World, t: Tid, pc: Pc): World
    requires t < |w.threads|
  {
    w.(threads := w.threads[t := pc])
  }

  function DoLook(w: World, t: Tid, name: string, now: nat): World
    requires t < |w.threads|
  {
    var (c, entry) := CachedName(w.src.cache, name, now);
    var u := w.(src := w.src.(cache := c));
    if entry.Some? then At(u, t, Served(name, entry.value)) else u
  }

  function DoBegin(w: World, t: Tid, name: string, now: nat): World
    requires t < |w.threads|
  {
    var (s, lookup) := BeginLoad(w.src, name, now);
    var u := w.(src := s);
    match lookup
    case Retry => u
    case Hit(entry) => At(u, t, Served(name, entry))
    case Join(id) => At(u, t, Waiting(name, id))
    case Lead(id) =>
      At(u, t, Leading(name, id, Unread, false)).(leader := w.leader + [t], asked := w.asked + [name])
  }

  function DoNames(w: World, t: Tid, used: string, d: Data): World
    requires Busy(w, t)
  {
    var pc := w.threads[t];
    At(w.(src := PublishNames(w.src, pc.id, pc.name, used, d)), t, pc.(named := true))
  }

  function DoEnsure(w: World, t: Tid): World
    requires Busy(w, t)
  {
    var (s, r) := EnsureBegin(w.src);
    var pc := w.threads[t];
    var u := w.(src := s);
    match r
    case Ready(h) => At(u, t, pc.(reader := Reading(h)))
    case Await(h) => At(u, t, pc.(reader := Awaiting(h)))
    case Open(h) => At(u, t, pc.(reader := Opener(h))).(opener := w.opener + [t])
  }

  function DoEnsured(w: World, t: Tid, ok: bool): World
    requires Enabled(w, Ensured(t, ok))
  {
    var pc := w.threads[t];
    var h := pc.reader.h;
    At(w.(src := EnsureEnd(w.src, h, ok)), t, pc.(reader := if ok then Reading(h) else Unreadable))
  }

  function DoAwaited(w: World, t: Tid): World
    requires Enabled(w, Awaited(t))
  {
    var pc := w.threads[t];
    At(w, t, pc.(reader := if w.src.opens[pc.reader.h].value then Reading(pc.reader.h) else Unreadable))
  }

  function DoWake(w: World, t: Tid): World
    requires Enabled(w, Wake(t))
  {
    var pc := w.threads[t];
    At(w, t, Opened(pc.name, pc.id, w.src.records[pc.id].result.value))
  }

  ghost function Do(w: World, a: Action): World
    requires Enabled(w, a) && CacheInv(w.src.cache)
  {
    match a
    case Look(t, name, now) => DoLook(w, t, name, now)
    case Begin(t, name, now) => DoBegin(w, t, name, now)
    case Wake(t) => DoWake(w, t)
    case Peek(t, a) => w.(src := CachedSource(w.src, a))
    case Guard(t, d) => w.(src := ProtectLoad(w.src, w.threads[t].id, d))
    case Share(t, a, d) => w.(src := PublishSource(w.src, w.threads[t].id, a, d).0)
    case Names(t, used, d) => DoNames(w, t, used, d)
    case Ensure(t) => DoEnsure(w, t)
    case Ensured(t, ok) => DoEnsured(w, t, ok)
    case Awaited(t) => DoAwaited(w, t)
    case Finish(t, outcome, policy, now) =>
      var pc := w.threads[t];
      At(w.(src := FinishLoad(w.src, pc.name, pc.id, outcome, policy, now)), t, Opened(pc.name, pc.id, outcome))
    case RetireNow => w.(src := Retire(w.src))
    case Close => w.(src := CloseArchive(w.src))
    case Borrowing(k) => w.(src := BeginBorrow(w.src, k).0)
    case Returning(k, policy, now) => w.(src := Returned(w.src, k, policy, now))
  }

  // ------------------------------------------------------------------ invariant

  predicate AskedFor(w: World, id: LoadId, name: string) { id < |w.asked| && w.asked[id] == name }

  ghost predicate ThreadOk(w: World, t: Tid)
    requires t < |w.threads|
  {
    var s := w.src;
    match w.threads[t]
    case Idle => true
    case Served(_, _) => true
    case Waiting(name, id) => id < |s.records| && AskedFor(w, id, name)
    case Opened(name, id, o) => id < |s.records| && s.records[id].result == Some(o) && AskedFor(w, id, name)
    case Leading(name, id, reader, _) =>
      && Active(s, name, id) && id < |w.leader| && w.leader[id] == t && AskedFor(w, id, name)
      && match reader
         case Unread => true
         case Unreadable => true
         case Reading(h) => s.archive == Some(h)
         case Opener(h) => s.opening == Some(h) && h < |w.opener| && w.opener[h] == t
         case Awaiting(h) => h < |s.opens| && (s.opens[h] == Some(true) ==> s.archive == Some(h))
  }

  /** A load without a result has its leader, who is still on it. */
  ghost predicate LeaderOk(w: World, id: LoadId)
    requires id < |w.src.records| && |w.leader| == |w.src.records|
  {
    w.src.records[id].result.None? ==>
      w.leader[id] < |w.threads| && w.threads[w.leader[id]].Leading? && w.threads[w.leader[id]].id == id
  }

  ghost predicate OpenerOk(w: World) {
    w.src.opening.Some? ==>
      var h := w.src.opening.value;
      && h < |w.opener| && w.opener[h] < |w.threads|
      && w.threads[w.opener[h]].Leading? && w.threads[w.opener[h]].reader == Opener(h)
  }

  ghost predicate WorldInv(w: World) {
    && SourceInv(w.src)
    && |w.leader| == |w.asked| == |w.src.records| && |w.opener| == |w.src.opens|
    && (forall t {:trigger ThreadOk(w, t)} | 0 <= t < |w.threads| :: ThreadOk(w, t))
    && (forall id {:trigger LeaderOk(w, id)} | 0 <= id < |w.src.records| :: LeaderOk(w, id))
    && OpenerOk(w)
  }

  /** What a step of another thread, or of none, does to the rest. */
  ghost predicate Undisturbed(s: Source, u: Source) {
    && u.loads == s.loads && u.opening == s.opening && u.opens == s.opens
    && |u.records| == |s.records| && (forall i | 0 <= i < |s.records| :: u.records[i].result == s.records[i].result)
    && (s.active > 0 ==> u.archive == s.archive)
  }

  lemma QuietStep(w: World, s: Source)
    requires WorldInv(w) && SourceInv(s) && Undisturbed(w.src, s)
    ensures WorldInv(w.(src := s))
  {
    var v := w.(src := s);
    hide SourceInv;
    forall t {:trigger ThreadOk(v, t)} | 0 <= t < |v.threads| ensures ThreadOk(v, t) {
      assert ThreadOk(w, t);
      if w.threads[t].Leading? { LeaderKeepsActive(w, t); }
    }
    forall id {:trigger LeaderOk(v, id)} | 0 <= id < |s.records| ensures LeaderOk(v, id) {
      assert LeaderOk(w, id);
    }
  }

  lemma LeaderKeepsActive(w: World, t: Tid)
    requires WorldInv(w) && t < |w.threads| && w.threads[t].Leading?
    ensures w.src.active > 0 && Active(w.src, w.threads[t].name, w.threads[t].id)
  {
    assert ThreadOk(w, t);
    ActiveCounts(w.src, w.threads[t].name, w.threads[t].id);
  }

  /** Nobody opens the archive while no load runs. */
  lemma NoLoadsNoOpener(w: World)
    requires WorldInv(w) && w.src.active == 0
    ensures w.src.opening.None?
  {
    if w.src.opening.Some? {
      LeaderKeepsActive(w, w.opener[w.src.opening.value]);
    }
  }

  /** A thread that leads nothing moves on, the source staying as it is. */
  lemma MoveStep(w: World, t: Tid, pc: Pc)
    requires WorldInv(w) && t < |w.threads| && !w.threads[t].Leading? && !pc.Leading?
    requires pc.Waiting? || pc.Opened? ==> AskedFor(w, pc.id, pc.name)
    requires pc.Waiting? ==> pc.id < |w.src.records|
    requires pc.Opened? ==> pc.id < |w.src.records| && w.src.records[pc.id].result == Some(pc.outcome)
    ensures WorldInv(At(w, t, pc))
  {
    var v := At(w, t, pc);
    hide SourceInv;
    forall u {:trigger ThreadOk(v, u)} | 0 <= u < |v.threads| ensures ThreadOk(v, u) { assert ThreadOk(w, u); }
    forall id {:trigger LeaderOk(v, id)} | 0 <= id < |w.src.records| ensures LeaderOk(v, id) { assert LeaderOk(w, id); }
  }

  lemma LookKeepsInv(w: World, t: Tid, name: string, now: nat)
    requires WorldInv(w) && Enabled(w, Look(t, name, now))
    ensures WorldInv(DoLook(w, t, name, now))
  {
    hide LoadsInv, ArchiveInv, CacheInv, ThreadOk, LeaderOk, OpenerOk;
    var (c, entry) := CachedName(w.src.cache, name, now);
    CachedNameKeepsInv(w.src.cache, name, now);
    if w.src.retired && w.src.active == 0 { EmptyStays(w.src.cache, name, now, 0, Path("")); }
    CacheChange(w.src, w.src.(cache := c));
    QuietStep(w, w.src.(cache := c));
    if entry.Some? { MoveStep(w.(src := w.src.(cache := c)), t, Served(name, entry.value)); }
  }

  lemma BeginUndisturbed(s: Source, name: string, now: nat)
    requires SourceInv(s)
    ensures var (u, l) := BeginLoad(s, name, now);
      match l
      case Lead(id) =>
        && id == |s.records| && u == s.(cache := u.cache, loads := u.loads, records := u.records,
             active := s.active + 1)
        && name !in s.loads && u.loads == s.loads[name := id] && u.records == s.records + [Load(0, None)]
      case Join(id) => Undisturbed(s, u) && name in s.loads && id == s.loads[name] && id < |s.records|
      case _ => Undisturbed(s, u)
  {
    hide CacheInv, CachedName;
  }

  ghost predicate Leads(w: World, t: Tid, name: string, s: Source) {
    && t < |w.threads| && w.threads[t].Idle? && |w.leader| == |w.asked| == |w.src.records|
    && s == w.src.(cache := s.cache, loads := s.loads, records := s.records, active := w.src.active + 1)
    && name !in w.src.loads && s.loads == w.src.loads[name := |w.src.records|] &&
         s.records == w.src.records + [Load(0, None)]
  }

  function Lead(w: World, t: Tid, name: string, s: Source): World
    requires t < |w.threads|
  {
    At(w.(src := s), t, Leading(name, |w.src.records|, Unread, false))
      .(leader := w.leader + [t], asked := w.asked + [name])
  }

  lemma LeadThread(w: World, t: Tid, name: string, s: Source, u: Tid)
    requires Leads(w, t, name, s) && u < |w.threads| && ThreadOk(w, u)
    ensures ThreadOk(Lead(w, t, name, s), u)
  {
  }

  lemma LeadLeader(w: World, t: Tid, name: string, s: Source, id: LoadId)
    requires Leads(w, t, name, s) && id < |s.records| && (id < |w.src.records| ==> LeaderOk(w, id))
    ensures LeaderOk(Lead(w, t, name, s), id)
  {
  }

  lemma LeadKeepsInv(w: World, t: Tid, name: string, s: Source)
    requires WorldInv(w) && SourceInv(s) && Leads(w, t, name, s)
    ensures WorldInv(Lead(w, t, name, s))
  {
    var v := Lead(w, t, name, s);
    hide SourceInv, ThreadOk, LeaderOk;
    forall u {:trigger ThreadOk(v, u)} | 0 <= u < |v.threads| ensures ThreadOk(v, u) {
      assert ThreadOk(w, u);
      LeadThread(w, t, name, s, u);
    }
    forall id {:trigger LeaderOk(v, id)} | 0 <= id < |s.records| ensures LeaderOk(v, id) {
      if id < |w.src.records| { assert LeaderOk(w, id); }
      LeadLeader(w, t, name, s, id);
    }
  }

  /** A load in the table is the load of its name. */
  lemma LoadIsAskedFor(w: World, name: string)
    requires WorldInv(w) && name in w.src.loads
    ensures AskedFor(w, w.src.loads[name], name)
  {
    var id := w.src.loads[name];
    assert LeaderOk(w, id) && ThreadOk(w, w.leader[id]);
  }

  lemma BeginKeepsInv(w: World, t: Tid, name: string, now: nat)
    requires WorldInv(w) && Enabled(w, Begin(t, name, now))
    ensures WorldInv(DoBegin(w, t, name, now))
  {
    var (s, lookup) := BeginLoad(w.src, name, now);
    BeginLoadKeepsInv(w.src, name, now);
    BeginUndisturbed(w.src, name, now);
    hide SourceInv, ThreadOk, LeaderOk, OpenerOk, BeginLoad;
    match lookup
    case Lead(_) => LeadKeepsInv(w, t, name, s);
    case Retry => QuietStep(w, s);
    case Hit(entry) =>
      QuietStep(w, s);
      MoveStep(w.(src := s), t, Served(name, entry));
    case Join(id) =>
      LoadIsAskedFor(w, name);
      QuietStep(w, s);
      MoveStep(w.(src := s), t, Waiting(name, id));
  }

  /** The leader `t` changes what it does with the archive, and the source with it. */
  ghost predicate ReaderMoves(w: World, t: Tid, s: Source, reader: Reader, opener: seq<Tid>) {
    && t < |w.threads| && w.threads[t].Leading?
    && s == w.src.(archive := s.archive, opening := s.opening, opens := s.opens)
    && |opener| == |s.opens| && w.opener <= opener
    && (forall h | 0 <= h < |w.src.opens| && w.src.opens[h].Some? :: h < |s.opens| && s.opens[h] == w.src.opens[h])
    && |w.src.opens| <= |s.opens| && (w.src.archive.Some? ==> s.archive == w.src.archive)
    && (forall h | 0 <= h < |w.src.opens| && w.src.opens[h].None? && s.opens[h] == Some(true) :: s.archive == Some(h))
    && (s.opening == w.src.opening || w.src.opening.None? || w.threads[t].reader == Opener(w.src.opening.value))
    && (s.opening.Some? ==>
         reader == Opener(s.opening.value) ||
         (s.opening == w.src.opening && !w.threads[t].reader.Opener?))
    && match reader
       case Unread => true
       case Unreadable => true
       case Reading(h) => s.archive == Some(h)
       case Opener(h) => s.opening == Some(h) && h < |opener| && opener[h] == t
       case Awaiting(h) => h < |s.opens| && (s.opens[h] == Some(true) ==> s.archive == Some(h))
  }

  function Reads(w: World, t: Tid, s: Source, reader: Reader, opener: seq<Tid>): World
    requires t < |w.threads| && w.threads[t].Leading?
  {
    At(w.(src := s, opener := opener), t, w.threads[t].(reader := reader))
  }

  lemma ReaderThread(w: World, t: Tid, s: Source, reader: Reader, opener: seq<Tid>, u: Tid)
    requires ReaderMoves(w, t, s, reader, opener) && |w.opener| == |w.src.opens|
    requires u < |w.threads| && ThreadOk(w, u) && ThreadOk(w, t)
    ensures ThreadOk(Reads(w, t, s, reader, opener), u)
  {
  }

  lemma ReaderOpener(w: World, t: Tid, s: Source, reader: Reader, opener: seq<Tid>)
    requires ReaderMoves(w, t, s, reader, opener) && |w.opener| == |w.src.opens| && OpenerOk(w) && ThreadOk(w, t)
    ensures OpenerOk(Reads(w, t, s, reader, opener))
  {
    hide Active;
  }

  lemma ReaderStep(w: World, t: Tid, s: Source, reader: Reader, opener: seq<Tid>)
    requires WorldInv(w) && SourceInv(s) && ReaderMoves(w, t, s, reader, opener)
    ensures WorldInv(Reads(w, t, s, reader, opener))
  {
    var v := Reads(w, t, s, reader, opener);
    assert ThreadOk(w, t) && s.records == w.src.records && |opener| == |s.opens|;
    ReaderOpener(w, t, s, reader, opener);
    hide SourceInv, ThreadOk, OpenerOk, ReaderMoves;
    forall u {:trigger ThreadOk(v, u)} | 0 <= u < |v.threads| ensures ThreadOk(v, u) {
      assert ThreadOk(w, u);
      ReaderThread(w, t, s, reader, opener, u);
    }
    forall id {:trigger LeaderOk(v, id)} | 0 <= id < |s.records| ensures LeaderOk(v, id) { assert LeaderOk(w, id); }
  }

  lemma EnsureMoves(w: World, t: Tid)
    requires ArchiveInv(w.src) && Busy(w, t) && |w.opener| == |w.src.opens|
    ensures var (s, r) := EnsureBegin(w.src);
      ReaderMoves(w, t, s, if r.Ready? then Reading(r.h) else if r.Await? then Awaiting(r.h) else Opener(r.h),
                  if r.Open? then w.opener + [t] else w.opener)
  {
  }

  lemma EnsureStepKeepsInv(w: World, t: Tid)
    requires WorldInv(w) && Enabled(w, Ensure(t))
    ensures WorldInv(DoEnsure(w, t))
  {
    LeaderKeepsActive(w, t);
    EnsureKeepsInv(w.src, 0, false);
    EnsureMoves(w, t);
    var (s, r) := EnsureBegin(w.src);
    hide WorldInv, EnsureBegin, ReaderMoves, SourceInv;
    match r
    case Ready(h) => ReaderStep(w, t, s, Reading(h), w.opener);
    case Await(h) => ReaderStep(w, t, s, Awaiting(h), w.opener);
    case Open(h) => ReaderStep(w, t, s, Opener(h), w.opener + [t]);
  }

  lemma EnsuredMoves(w: World, t: Tid, ok: bool)
    requires Enabled(w, Ensured(t, ok)) && ThreadOk(w, t) && ArchiveInv(w.src) && |w.opener| == |w.src.opens|
    ensures var h := w.threads[t].reader.h;
      ReaderMoves(w, t, EnsureEnd(w.src, h, ok), if ok then Reading(h) else Unreadable, w.opener)
  {
  }

  lemma EnsuredKeepsInv(w: World, t: Tid, ok: bool)
    requires WorldInv(w) && Enabled(w, Ensured(t, ok))
    ensures WorldInv(DoEnsured(w, t, ok))
  {
    LeaderKeepsActive(w, t);
    assert ThreadOk(w, t);
    var h := w.threads[t].reader.h;
    EnsureKeepsInv(w.src, h, ok);
    EnsuredMoves(w, t, ok);
    hide WorldInv, EnsureEnd, ReaderMoves, SourceInv;
    ReaderStep(w, t, EnsureEnd(w.src, h, ok), if ok then Reading(h) else Unreadable, w.opener);
  }

  lemma AwaitedKeepsInv(w: World, t: Tid)
    requires WorldInv(w) && Enabled(w, Awaited(t))
    ensures WorldInv(DoAwaited(w, t))
  {
    assert ThreadOk(w, t);
    var h := w.threads[t].reader.h;
    hide LeaderOk, ThreadOk, SourceInv;
    ReaderStep(w, t, w.src, if w.src.opens[h].value then Reading(h) else Unreadable, w.opener);
  }

  /** A leader's section that touches the cache alone. */
  lemma LeaderSectionKeepsInv(w: World, t: Tid, s: Source)
    requires WorldInv(w) && Busy(w, t) && SourceInv(s) && SameLoads(w.src, s)
    ensures WorldInv(w.(src := s))
  {
    hide SourceInv, ThreadOk, LeaderOk, OpenerOk;
    QuietStep(w, s);
  }

  /** That a leader has named its data concerns nobody's load or archive. */
  lemma NamedKeepsInv(w: World, t: Tid)
    requires WorldInv(w) && t < |w.threads| && w.threads[t].Leading?
    ensures WorldInv(At(w, t, w.threads[t].(named := true)))
  {
    var v := At(w, t, w.threads[t].(named := true));
    hide SourceInv;
    forall u {:trigger ThreadOk(v, u)} | 0 <= u < |v.threads| ensures ThreadOk(v, u) { assert ThreadOk(w, u); }
    forall id {:trigger LeaderOk(v, id)} | 0 <= id < |w.src.records| ensures LeaderOk(v, id) { assert LeaderOk(w, id); }
  }

  lemma NamesKeepInv(w: World, t: Tid, used: string, d: Data)
    requires WorldInv(w) && Enabled(w, Names(t, used, d))
    ensures WorldInv(DoNames(w, t, used, d))
  {
    LeaderKeepsActive(w, t);
    var s := PublishNames(w.src, w.threads[t].id, w.threads[t].name, used, d);
    PublishNamesKeepsInv(w.src, w.threads[t].name, w.threads[t].id, used, d);
    hide WorldInv, PublishNames;
    LeaderSectionKeepsInv(w, t, s);
    NamedKeepsInv(w.(src := s), t);
  }

  /** While other loads run the archive stays, and an open in progress has its own leader. */
  lemma FinishArchiveStays(s: Source, name: string, id: LoadId, outcome: Outcome, policy: Policy, now: nat)
    requires SourceInv(s) && Active(s, name, id)
    ensures var u := FinishLoad(s, name, id, outcome, policy, now);
      && u.opening == s.opening && u.opens == s.opens && (|s.loads| > 1 ==> u.archive == s.archive)
  {
    PublishKeepsInv(s, name, id, outcome, policy, now);
    PublishKeepsCache(s, name, id, outcome, policy, now);
    var p := Publish(s, name, id, outcome, policy, now);
    SettleKeepsLoads(p, name, id, outcome);
    SettleKeepsCache(p, name, id, outcome);
    hide CacheInv, ArchiveInv, Publish, Settle, Enforce;
  }

  lemma OtherLoad(s: Source, name: string, other: string)
    requires LoadsInv(s) && name in s.loads && other in s.loads && name != other
    ensures |s.loads| > 1 && s.loads[other] != s.loads[name]
  {
    CountRemove(s.loads, name);
    assert other in s.loads - {name};
  }

  lemma OnlyLoadNoOpener(w: World, t: Tid)
    requires WorldInv(w) && Busy(w, t) && w.src.opening.Some?
    ensures |w.src.loads| > 1
  {
    var u := w.opener[w.src.opening.value];
    assert ThreadOk(w, t) && ThreadOk(w, u);
    OtherLoad(w.src, w.threads[t].name, w.threads[u].name);
  }

  lemma FinishKeepsInv(w: World, t: Tid, outcome: Outcome, policy: Policy, now: nat)
    requires WorldInv(w) && Busy(w, t)
    ensures var pc := w.threads[t];
      WorldInv(At(w.(src := FinishLoad(w.src, pc.name, pc.id, outcome, policy, now)), t,
          Opened(pc.name, pc.id, outcome)))
  {
    LeaderKeepsActive(w, t);
    var pc := w.threads[t];
    if w.src.opening.Some? { OnlyLoadNoOpener(w, t); }
    hide FinishLoad, CacheInv, ArchiveInv, LoadsInv, ThreadOk, LeaderOk, OpenerOk;
    FinishLoadKeepsInv(w.src, pc.name, pc.id, outcome, policy, now);
    FinishArchiveStays(w.src, pc.name, pc.id, outcome, policy, now);
    FinishMove(w, t, FinishLoad(w.src, pc.name, pc.id, outcome, policy, now), outcome);
  }

  /** `s` is the source after the load led by `t` has settled. */
  ghost predicate Settled(w: World, t: Tid, outcome: Outcome, s: Source)
    requires Busy(w, t)
  {
    var pc := w.threads[t];
    && |s.records| == |w.src.records| && s.records[pc.id] == Load(0, Some(outcome)) &&
         s.loads == w.src.loads - {pc.name}
    && (forall i | 0 <= i < |s.records| && i != pc.id :: s.records[i].result == w.src.records[i].result)
    && s.opening == w.src.opening && s.opens == w.src.opens && (|w.src.loads| > 1 ==> s.archive == w.src.archive)
  }

  lemma FinishLeader(w: World, t: Tid, s: Source, outcome: Outcome, u: Tid)
    requires LoadsInv(w.src) && Busy(w, t) && Settled(w, t, outcome, s) && ThreadOk(w, t)
    requires u < |w.threads| && u != t && w.threads[u].Leading? && ThreadOk(w, u)
    ensures ThreadOk(At(w.(src := s), t, Opened(w.threads[t].name, w.threads[t].id, outcome)), u)
  {
    OtherLoad(w.src, w.threads[t].name, w.threads[u].name);
    hide LoadsInv;
  }

  lemma FinishThread(w: World, t: Tid, s: Source, outcome: Outcome, u: Tid)
    requires LoadsInv(w.src) && Busy(w, t) && Settled(w, t, outcome, s) && ThreadOk(w, t) && u < |w.threads|
    requires ThreadOk(w, u)
    ensures ThreadOk(At(w.(src := s), t, Opened(w.threads[t].name, w.threads[t].id, outcome)), u)
  {
    if u != t && w.threads[u].Leading? {
      FinishLeader(w, t, s, outcome, u);
    }
    hide LoadsInv;
  }

  lemma FinishLeading(w: World, t: Tid, s: Source, outcome: Outcome, id: LoadId)
    requires Busy(w, t) && Settled(w, t, outcome, s) && |w.leader| == |w.src.records| && id < |s.records|
    requires LeaderOk(w, id)
    ensures LeaderOk(At(w.(src := s), t, Opened(w.threads[t].name, w.threads[t].id, outcome)), id)
  {
  }

  lemma FinishOpener(w: World, t: Tid, s: Source, outcome: Outcome)
    requires Busy(w, t) && Settled(w, t, outcome, s) && OpenerOk(w)
    ensures OpenerOk(At(w.(src := s), t, Opened(w.threads[t].name, w.threads[t].id, outcome)))
  {
  }

  lemma FinishMove(w: World, t: Tid, s: Source, outcome: Outcome)
    requires WorldInv(w) && Busy(w, t) && SourceInv(s) && Settled(w, t, outcome, s)
    ensures WorldInv(At(w.(src := s), t, Opened(w.threads[t].name, w.threads[t].id, outcome)))
  {
    assert LoadsInv(w.src) && ThreadOk(w, t) && |s.records| == |w.src.records| && |s.opens| == |w.src.opens|;
    FinishOpener(w, t, s, outcome);
    hide SourceInv, ThreadOk, LeaderOk, OpenerOk, Settled;
    var v := At(w.(src := s), t, Opened(w.threads[t].name, w.threads[t].id, outcome));
    forall u {:trigger ThreadOk(v, u)} | 0 <= u < |v.threads| ensures ThreadOk(v, u) {
      assert ThreadOk(w, u);
      FinishThread(w, t, s, outcome, u);
    }
    forall id {:trigger LeaderOk(v, id)} | 0 <= id < |s.records| ensures LeaderOk(v, id) {
      assert LeaderOk(w, id);
      FinishLeading(w, t, s, outcome, id);
    }
  }

  lemma RetireStepKeepsInv(w: World)
    requires WorldInv(w)
    ensures WorldInv(w.(src := Retire(w.src)))
  {
    if w.src.active == 0 { NoLoadsNoOpener(w); }
    RetireKeepsInv(w.src);
    hide SourceInv, ThreadOk, LeaderOk, OpenerOk;
    QuietStep(w, Retire(w.src));
  }

  lemma WakeKeepsInv(w: World, t: Tid)
    requires WorldInv(w) && Enabled(w, Wake(t))
    ensures WorldInv(DoWake(w, t))
  {
    assert ThreadOk(w, t);
    hide SourceInv, LeaderOk, OpenerOk;
    MoveStep(w, t, DoWake(w, t).threads[t]);
  }

  lemma StepKeepsInv(w: World, a: Action)
    requires WorldInv(w) && Enabled(w, a)
    ensures WorldInv(Do(w, a))
  {
    hide ThreadOk, LeaderOk, OpenerOk, CacheInv, LoadsInv, ArchiveInv;
    hide CachedSource, ProtectLoad, PublishSource, PublishNames, Retire, FinishLoad;
    if a.Peek? || a.Guard? || a.Share? { LeaderKeepsActive(w, a.t); }
    match a
    case Look(t, name, now) => LookKeepsInv(w, t, name, now);
    case Begin(t, name, now) => BeginKeepsInv(w, t, name, now);
    case Wake(t) => WakeKeepsInv(w, t);
    case Peek(t, a) =>
      CachedSourceKeepsInv(w.src, a);
      LeaderSectionKeepsInv(w, t, CachedSource(w.src, a));
    case Guard(t, d) =>
      ProtectLoadKeepsInv(w.src, w.threads[t].name, w.threads[t].id, d);
      LeaderSectionKeepsInv(w, t, ProtectLoad(w.src, w.threads[t].id, d));
    case Share(t, a, d) =>
      PublishSourceKeepsInv(w.src, w.threads[t].name, w.threads[t].id, a, d);
      LeaderSectionKeepsInv(w, t, PublishSource(w.src, w.threads[t].id, a, d).0);
    case Names(t, used, d) => NamesKeepInv(w, t, used, d);
    case Ensure(t) => EnsureStepKeepsInv(w, t);
    case Ensured(t, ok) => EnsuredKeepsInv(w, t, ok);
    case Awaited(t) => AwaitedKeepsInv(w, t);
    case Finish(t, outcome, policy, now) => FinishKeepsInv(w, t, outcome, policy, now);
    case RetireNow => RetireStepKeepsInv(w);
    case Close =>
      CloseArchiveKeepsInv(w.src);
      QuietStep(w, CloseArchive(w.src));
    case Borrowing(k) =>
      BeginBorrowKeepsInv(w.src, k);
      QuietStep(w, BeginBorrow(w.src, k).0);
    case Returning(k, policy, now) =>
      EndBorrowKeepsInv(w.src, k, policy, now);
      QuietStep(w, Returned(w.src, k, policy, now));
  }

  lemma StartInv(threads: nat)
    ensures WorldInv(Start(threads))
  {
    EmptyKeepsInv(0);
  }

  // --------------------------------------------------------------------- runs

  ghost predicate Run(w: World, trace: seq<Action>, v: World)
    decreases |trace|
  {
    if trace == [] then w == v
    else Enabled(w, trace[0]) && CacheInv(w.src.cache) && Run(Do(w, trace[0]), trace[1..], v)
  }

  lemma {:induction false} RunKeepsInv(w: World, trace: seq<Action>, v: World)
    requires WorldInv(w) && Run(w, trace, v)
    ensures WorldInv(v)
    decreases |trace|
  {
    hide WorldInv, Do, Enabled, CacheInv;
    if trace == [] {
    } else {
      StepKeepsInv(w, trace[0]);
      RunKeepsInv(Do(w, trace[0]), trace[1..], v);
    }
  }

  /** Whoever opened a name through the same load got the same outcome. */
  lemma OneResultPerLoad(threads: nat, trace: seq<Action>, w: World, t: Tid, u: Tid)
    requires Run(Start(threads), trace, w) && t < |w.threads| && u < |w.threads|
    requires w.threads[t].Opened? && w.threads[u].Opened? && w.threads[t].id == w.threads[u].id
    ensures w.threads[t].outcome == w.threads[u].outcome
  {
    hide Run, CacheInv, LoadsInv, ArchiveInv;
    StartInv(threads);
    RunKeepsInv(Start(threads), trace, w);
    assert ThreadOk(w, t) && ThreadOk(w, u);
  }

  /** A waiting thread can go on, or the one leader of its load is still at work. */
  lemma WaiterHasLeader(threads: nat, trace: seq<Action>, w: World, t: Tid) returns (leader: Tid)
    requires Run(Start(threads), trace, w) && t < |w.threads| && w.threads[t].Waiting?
    ensures !Enabled(w, Wake(t)) ==>
      && leader < |w.threads| && w.threads[leader].Leading? && w.threads[leader].id == w.threads[t].id
      && forall u: Tid | u < |w.threads| && w.threads[u].Leading? && w.threads[u].id == w.threads[t].id :: u == leader
  {
    hide Run, CacheInv, LoadsInv, ArchiveInv;
    StartInv(threads);
    RunKeepsInv(Start(threads), trace, w);
    assert ThreadOk(w, t);
    var id := w.threads[t].id;
    assert LeaderOk(w, id);
    leader := w.leader[id];
    forall u: Tid | u < |w.threads| && w.threads[u].Leading? && w.threads[u].id == id ensures u == leader {
      assert ThreadOk(w, u);
    }
  }

  /** At most one leader per name. */
  lemma OneLeaderPerName(threads: nat, trace: seq<Action>, w: World, t: Tid, u: Tid)
    requires Run(Start(threads), trace, w) && t < |w.threads| && u < |w.threads|
    requires w.threads[t].Leading? && w.threads[u].Leading? && w.threads[t].name == w.threads[u].name
    ensures t == u
  {
    hide Run, CacheInv, LoadsInv, ArchiveInv;
    StartInv(threads);
    RunKeepsInv(Start(threads), trace, w);
    assert ThreadOk(w, t) && ThreadOk(w, u);
  }

  /** The archive a thread reads from has not been handed out for closing. */
  lemma NeverClosedBeneathAReader(threads: nat, trace: seq<Action>, w: World, t: Tid)
    requires Run(Start(threads), trace, w) && t < |w.threads| && w.threads[t].Leading? && w.threads[t].reader.Reading?
    ensures w.src.archive == Some(w.threads[t].reader.h) && w.src.dropped == [] && w.src.closed == []
  {
    hide Run, CacheInv, LoadsInv;
    StartInv(threads);
    RunKeepsInv(Start(threads), trace, w);
    assert ThreadOk(w, t);
  }

  /** The attempt opened an archive. */
  predicate Succeeded(s: Source, h: Handle) { h < |s.opens| && s.opens[h] == Some(true) }

  lemma OneSuccess(s: Source)
    requires ArchiveInv(s)
    ensures forall h, g | Succeeded(s, h) && Succeeded(s, g) :: h == g
  {
    forall h, g | Succeeded(s, h) && Succeeded(s, g) ensures h == g {
      if s.archive.None? {
        assert h in s.dropped || h in s.closed;
        assert g in s.dropped || g in s.closed;
      }
    }
  }

  /** While a load runs some thread leads it. */
  lemma SomeLeader(w: World) returns (t: Tid)
    requires WorldInv(w) && w.src.active != 0
    ensures t < |w.threads| && w.threads[t].Leading?
  {
    assert w.src.loads != map[];
    var n :| n in w.src.loads;
    assert LeaderOk(w, w.src.loads[n]);
    t := w.leader[w.src.loads[n]];
  }

  ghost predicate NoLeader(w: World) { forall t | 0 <= t < |w.threads| :: !w.threads[t].Leading? }

  lemma NoLeaderNoLoad(w: World)
    requires WorldInv(w)
    ensures NoLeader(w) <==> w.src.active == 0
  {
    hide SourceInv;
    if w.src.active != 0 {
      var t := SomeLeader(w);
      assert w.threads[t].Leading?;
    } else {
      forall t | 0 <= t < |w.threads| ensures !w.threads[t].Leading? {
        if w.threads[t].Leading? { LeaderKeepsActive(w, t); }
      }
    }
  }

  /** The archive is with the generation, or it was handed out for closing, once, after
      the last load of the retired generation; a retired generation at rest has given up
      its archive and its whole cache. */
  ghost predicate ArchiveAccounted(w: World) {
    var s := w.src;
    && (forall h, g | Succeeded(s, h) && Succeeded(s, g) :: h == g)
    && |s.dropped| + |s.closed| <= 1
    && (s.dropped != [] || s.closed != [] ==> s.retired && NoLeader(w))
    && (s.retired && NoLeader(w) ==> s.cache == Empty().(nextOrder := s.cache.nextOrder))
    && (s.retired && NoLeader(w) ==> forall h | Succeeded(s, h) :: h in s.dropped || h in s.closed)
  }

  /** At most one archive is ever opened, and it is closed at most once and never while a
      load is active. */
  lemma OneArchive(threads: nat, trace: seq<Action>, w: World)
    requires Run(Start(threads), trace, w)
    ensures ArchiveAccounted(w)
  {
    hide Run, CacheInv, LoadsInv, NoLeader;
    StartInv(threads);
    RunKeepsInv(Start(threads), trace, w);
    OneSuccess(w.src);
    NoLeaderNoLoad(w);
  }

  lemma FinishStaysRetired(w: World, t: Tid, outcome: Outcome, policy: Policy, now: nat)
    requires WorldInv(w) && Busy(w, t) && w.src.retired
    ensures var s := FinishLoad(w.src, w.threads[t].name, w.threads[t].id, outcome, policy, now);
      s.retired && |s.records| == |w.src.records|
  {
    LeaderKeepsActive(w, t);
    PublishKeepsInv(w.src, w.threads[t].name, w.threads[t].id, outcome, policy, now);
    hide WorldInv, CacheInv, LoadsInv, ArchiveInv, Enforce, Release;
  }

  /** After retirement no load starts and the generation stays retired. */
  lemma RetiredStep(w: World, a: Action)
    requires WorldInv(w) && Enabled(w, a) && w.src.retired
    ensures Do(w, a).src.retired && |Do(w, a).src.records| == |w.src.records|
  {
    if a.Finish? { FinishStaysRetired(w, a.t, a.outcome, a.policy, a.now); }
    hide CacheInv, LoadsInv, ArchiveInv, ThreadOk, LeaderOk, OpenerOk, FinishLoad, Enforce;
    hide CachedName, Protect, SetName, SetSource, Touch, Borrow, Return;
  }

  lemma SameThreads(w: World, a: Action)
    requires CacheInv(w.src.cache) && Enabled(w, a)
    ensures |Do(w, a).threads| == |w.threads|
  {
    hide CacheInv, FinishLoad, CachedSource, ProtectLoad, PublishSource, PublishNames, Retire, CloseArchive;
    hide BeginBorrow, Returned, CachedName, EnsureBegin, EnsureEnd;
  }

  lemma NoNewLeader(w: World, a: Action, t: Tid)
    requires CacheInv(w.src.cache) && Enabled(w, a) && w.src.retired && t < |w.threads| && !w.threads[t].Leading?
    ensures t < |Do(w, a).threads| && !Do(w, a).threads[t].Leading?
  {
    hide CacheInv, FinishLoad, CachedSource, ProtectLoad, PublishSource, PublishNames, Retire, CloseArchive;
    hide BeginBorrow, Returned;
    hide CachedName, EnsureBegin, EnsureEnd;
  }

  lemma {:induction false} NoLoadAfterRetirement(w: World, trace: seq<Action>, v: World, t: Tid)
    requires WorldInv(w) && w.src.retired && Run(w, trace, v) && t < |w.threads| && !w.threads[t].Leading?
    ensures v.src.retired && |v.src.records| == |w.src.records| && t < |v.threads| && !v.threads[t].Leading?
    decreases |trace|
  {
    hide WorldInv, Do, Enabled, CacheInv;
    if trace == [] {
    } else {
      StepKeepsInv(w, trace[0]);
      RetiredStep(w, trace[0]);
      NoNewLeader(w, trace[0], t);
      NoLoadAfterRetirement(Do(w, trace[0]), trace[1..], v, t);
    }
  }
}
