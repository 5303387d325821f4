/** What the threads that open assets end with: a thread that asked for a name and ended through
    a load has the outcome with which the leader of that name finished, and a retirement takes
    hold for everyone. */
module AssetOutcomes {
  import opened Options
  import opened AssetModel
  import opened AssetSafety
  import opened AssetPolicy
  import opened AssetLoads
  import opened AssetEffects
  import opened AssetSections
  import opened AssetRuns

  // ------------------------------------------------------------- the name asked for

  /** A thread leaves Idle for one name, the one it looks up or begins to load, and stays with
      it. */
  lemma StepKeepsName(w: World, a: Action, t: Tid)
    requires Enabled(w, a) && CacheInv(w.src.cache) && t < |w.threads|
    ensures var u := Do(w, a);
      && t < |u.threads|
      && if w.threads[t].Idle?
         then u.threads[t].Idle? || ((a.Look? || a.Begin?) && a.t == t && u.threads[t].name == a.name)
         else !u.threads[t].Idle? && u.threads[t].name == w.threads[t].name
  {
    hide CacheInv, FinishLoad, CachedSource, ProtectLoad, PublishSource, PublishNames, Retire, CloseArchive;
    hide BeginBorrow, Returned, CachedName, EnsureBegin, EnsureEnd, BeginLoad;
  }

  /** A thread that is served from the cache got what was known under the name it asked for. */
  lemma ServedFromCache(w: World, a: Action, t: Tid)
    requires Enabled(w, a) && CacheInv(w.src.cache) && t < |w.threads| && w.threads[t].Idle?
    ensures |Do(w, a).threads| == |w.threads|
    ensures Do(w, a).threads[t].Served? ==>
      && (a.Look? || a.Begin?) && a.t == t && Do(w, a).threads[t].name == a.name
      && Known(w.src.cache, a.name, a.now) && Do(w, a).threads[t].entry == w.src.cache.names[a.name]
  {
    SameThreads(w, a);
    StepKeepsName(w, a, t);
    if (a.Look? || a.Begin?) && a.t == t {
      CachedNameIs(w.src.cache, a.name, a.now);
      BeginLoadIs(w.src, a.name, a.now);
    }
    hide CacheInv, FinishLoad, CachedSource, ProtectLoad, PublishSource, PublishNames, Retire, CloseArchive;
    hide BeginBorrow, Returned, CachedName, EnsureBegin, EnsureEnd, BeginLoad, Used, Forgotten;
  }

  // ------------------------------------------------------------------ one result

  /** The step is the finishLoad of the leader of `name`, whose load is `id`. */
  ghost predicate FinishesAs(w: World, a: Action, name: string, id: LoadId, outcome: Outcome) {
    a.Finish? && Enabled(w, a) && w.threads[a.t].name == name && w.threads[a.t].id == id && a.outcome == outcome
  }

  /** Somewhere in the run the leader of `name`, whose load is `id`, finishes with `outcome`. */
  ghost predicate Finishes(w: World, trace: seq<Action>, name: string, id: LoadId, outcome: Outcome)
    decreases |trace|
  {
    && trace != [] && Enabled(w, trace[0]) && CacheInv(w.src.cache)
    && (FinishesAs(w, trace[0], name, id, outcome) || Finishes(Do(w, trace[0]), trace[1..], name, id, outcome))
  }

  /** The results of the loads and the names they were begun for are never taken back; a load
      gets its result from its leader's finishLoad. */
  ghost predicate Results(w: World, a: Action, u: World)
    requires Enabled(w, a)
  {
    && |w.src.records| <= |u.src.records| && w.asked <= u.asked
    && (forall i | |w.src.records| <= i < |u.src.records| :: u.src.records[i].result.None?)
    && (forall i | 0 <= i < |w.src.records| ::
          u.src.records[i].result ==
          if a.Finish? && w.threads[a.t].id == i then Some(a.outcome) else w.src.records[i].result)
  }

  lemma FinishResults(w: World, a: Action)
    requires WorldInv(w) && Enabled(w, a) && a.Finish?
    ensures Results(w, a, Do(w, a))
  {
    hide SourceInv, ThreadOk, LeaderOk, OpenerOk, FinishLoad;
    FinishGives(w, a.t, a.outcome, a.policy, a.now);
  }

  lemma FinishGives(w: World, t: Tid, outcome: Outcome, policy: Policy, now: nat)
    requires WorldInv(w) && Busy(w, t)
    ensures CacheInv(w.src.cache)
    ensures var id := w.threads[t].id;
      var u := FinishLoad(w.src, w.threads[t].name, id, outcome, policy, now);
      && |u.records| == |w.src.records| && u.records[id].result == Some(outcome)
      && forall i | 0 <= i < |w.src.records| && i != id :: u.records[i].result == w.src.records[i].result
  {
    hide LoadsInv, ArchiveInv, CacheInv, ThreadOk, LeaderOk, OpenerOk, FinishLoad;
    LeaderKeepsActive(w, t);
    if w.src.opening.Some? { OnlyLoadNoOpener(w, t); }
    FinishLoadKeepsInv(w.src, w.threads[t].name, w.threads[t].id, outcome, policy, now);
  }

  lemma SameResults(w: World, a: Action, u: World)
    requires Enabled(w, a) && !a.Finish? && u.asked == w.asked
    requires SameLoads(w.src, u.src) || u.src.records == w.src.records
    ensures Results(w, a, u)
  {
  }

  lemma LeaderResults(w: World, a: Action)
    requires WorldInv(w) && Enabled(w, a) && (a.Peek? || a.Guard? || a.Share? || a.Names?)
    ensures Results(w, a, Do(w, a))
  {
    hide CacheInv, LoadsInv, ArchiveInv, ThreadOk, LeaderOk, OpenerOk, SameLoads, Results;
    hide CachedSource, ProtectLoad, PublishSource, PublishNames;
    LeaderKeepsActive(w, a.t);
    var n, id := w.threads[a.t].name, w.threads[a.t].id;
    match a
    case Peek(_, b) => CachedSourceKeepsInv(w.src, b); SameResults(w, a, Do(w, a));
    case Guard(_, d) => ProtectLoadKeepsInv(w.src, n, id, d); SameResults(w, a, Do(w, a));
    case Share(_, b, d) => PublishSourceKeepsInv(w.src, n, id, b, d); SameResults(w, a, Do(w, a));
    case Names(_, used, d) => PublishNamesKeepsInv(w.src, n, id, used, d); SameResults(w, a, Do(w, a));
  }

  lemma BeginResults(w: World, a: Action)
    requires WorldInv(w) && Enabled(w, a) && a.Begin?
    ensures Results(w, a, Do(w, a))
  {
    BeginUndisturbed(w.src, a.name, a.now);
    hide SourceInv, BeginLoad, ThreadOk, LeaderOk, OpenerOk;
  }

  lemma OtherResults(w: World, a: Action)
    requires WorldInv(w) && Enabled(w, a)
    requires !a.Begin? && !a.Finish? && !a.Peek? && !a.Guard? && !a.Share? && !a.Names?
    ensures Results(w, a, Do(w, a))
  {
    hide CacheInv, LoadsInv, ArchiveInv, ThreadOk, LeaderOk, OpenerOk, SameLoads, Results;
    hide Returned, BeginBorrow, CachedName;
    if a.Borrowing? { BeginBorrowKeepsInv(w.src, a.k); }
    if a.Returning? { EndBorrowKeepsInv(w.src, a.k, a.policy, a.now); }
    SameResults(w, a, Do(w, a));
  }

  lemma StepResults(w: World, a: Action)
    requires WorldInv(w) && Enabled(w, a)
    ensures Results(w, a, Do(w, a))
  {
    hide WorldInv, Do, Enabled, Results;
    if a.Finish? {
      FinishResults(w, a);
    } else if a.Begin? {
      BeginResults(w, a);
    } else if a.Peek? || a.Guard? || a.Share? || a.Names? {
      LeaderResults(w, a);
    } else {
      OtherResults(w, a);
    }
  }

  /** A load that has its result is finished by nobody. */
  lemma FinishedOnce(w: World, a: Action)
    requires WorldInv(w) && Enabled(w, a) && a.Finish?
    ensures var id := w.threads[a.t].id; id < |w.src.records| && w.src.records[id].result.None?
    ensures AskedFor(w, w.threads[a.t].id, w.threads[a.t].name)
  {
    assert ThreadOk(w, a.t);
  }

  /** A result once given stays, and so does the name of its load. */
  lemma {:induction false} ResultStays(w: World, trace: seq<Action>, v: World, id: LoadId)
    requires WorldInv(w) && Run(w, trace, v) && id < |w.src.records| && w.src.records[id].result.Some?
    ensures id < |v.src.records| && v.src.records[id].result == w.src.records[id].result && w.asked <= v.asked
    decreases |trace|
  {
    hide WorldInv, Do, Enabled, CacheInv;
    if trace == [] {
    } else {
      StepKeepsInv(w, trace[0]);
      StepResults(w, trace[0]);
      if trace[0].Finish? { FinishedOnce(w, trace[0]); }
      ResultStays(Do(w, trace[0]), trace[1..], v, id);
    }
  }

  /** A load that gets its result in the course of a run gets it from the leader of its name. */
  lemma {:induction false} ResultIsLeaders(w: World, trace: seq<Action>, v: World, id: LoadId)
    requires WorldInv(w) && Run(w, trace, v) && id < |v.src.records| && v.src.records[id].result.Some?
    requires id < |w.src.records| ==> w.src.records[id].result.None?
    ensures id < |v.asked| && Finishes(w, trace, v.asked[id], id, v.src.records[id].result.value)
    decreases |trace|
  {
    hide WorldInv, Do, Enabled, CacheInv;
    if trace == [] {
    } else {
      var u := Do(w, trace[0]);
      StepKeepsInv(w, trace[0]);
      StepResults(w, trace[0]);
      if id < |u.src.records| && u.src.records[id].result.Some? {
        FinishedOnce(w, trace[0]);
        ResultStays(u, trace[1..], v, id);
        assert FinishesAs(w, trace[0], v.asked[id], id, v.src.records[id].result.value);
      } else {
        ResultIsLeaders(u, trace[1..], v, id);
      }
    }
  }

  /** Whoever asked for a name and ended through a load has the outcome with which the leader of
      that very name finished that load. */
  lemma AskerGetsLeadersResult(threads: nat, trace: seq<Action>, w: World, t: Tid)
    requires Run(AssetRuns.Start(threads), trace, w) && t < |w.threads| && w.threads[t].Opened?
    ensures var pc := w.threads[t]; Finishes(AssetRuns.Start(threads), trace, pc.name, pc.id, pc.outcome)
  {
    hide Run, CacheInv, LoadsInv, ArchiveInv;
    StartInv(threads);
    RunKeepsInv(AssetRuns.Start(threads), trace, w);
    assert ThreadOk(w, t);
    hide ThreadOk;
    ResultIsLeaders(AssetRuns.Start(threads), trace, w, w.threads[t].id);
  }

  // -------------------------------------------------------------------- progress

  /** How far load `id` is from its result: its leader may be opening the archive, or wait for
      another leader to open it. */
  function Far(w: World, id: LoadId): nat {
    if id >= |w.src.records| || id >= |w.leader| || w.leader[id] >= |w.threads| || !w.threads[w.leader[id]].Leading?
    then 0
    else if w.src.records[id].result.Some? then 0
    else
      match w.threads[w.leader[id]].reader
      case Opener(_) => 2
      case Awaiting(h) => if h < |w.src.opens| && w.src.opens[h].Some? then 2 else 3
      case _ => 1
  }

  /** The archive's opener, or the leader that waits for it, goes on. */
  lemma ReaderGoesOn(w: World, t: Tid, id: LoadId) returns (a: Action)
    requires WorldInv(w) && t < |w.threads| && w.threads[t].Waiting? && w.threads[t].id == id
    requires id < |w.src.records| && w.src.records[id].result.None? && id < |w.leader| && !Busy(w, w.leader[id])
    ensures Enabled(w, a) && (a.Ensured? || a.Awaited?)
    ensures var u := Do(w, a); t < |u.threads| && u.threads[t] == w.threads[t] && Far(u, id) < Far(w, id)
  {
    hide WorldInv, SourceInv, CacheInv;
    LeaderAtWork(w, id);
    var l := w.leader[id];
    ReaderIs(w, l);
    match w.threads[l].reader
    case Opener(_) => a := Ensured(l, false);
    case Awaiting(h) =>
      if w.src.opens[h].Some? {
        a := Awaited(l);
      } else {
        a := Ensured(w.opener[h], false);
      }
    case _ =>
  }

  /** Where a leader that opens the archive, or waits for it, stands. */
  lemma ReaderIs(w: World, l: Tid)
    requires WorldInv(w) && l < |w.threads| && w.threads[l].Leading?
    ensures CacheInv(w.src.cache) && w.threads[l].id < |w.src.records|
    ensures w.threads[l].reader.Opener? ==> w.threads[l].reader.h < |w.src.opens|
    ensures w.threads[l].reader.Awaiting? ==>
      var h := w.threads[l].reader.h;
      && h < |w.src.opens|
      && (w.src.opens[h].None? ==>
           h < |w.opener| && w.opener[h] < |w.threads| && w.threads[w.opener[h]].Leading?
           && w.threads[w.opener[h]].reader == Opener(h))
  {
    assert ThreadOk(w, l);
    hide CacheInv, LoadsInv, LeaderOk;
  }

  lemma LeaderFinishes(w: World, t: Tid, id: LoadId) returns (a: Action)
    requires WorldInv(w) && t < |w.threads| && w.threads[t].Waiting? && w.threads[t].id == id
    requires id < |w.src.records| && w.src.records[id].result.None? && id < |w.leader| && Busy(w, w.leader[id])
    ensures Enabled(w, a) && a.Finish?
    ensures var u := Do(w, a); t < |u.threads| && u.threads[t] == w.threads[t] && Far(u, id) < Far(w, id)
  {
    hide WorldInv, SourceInv, FinishLoad, CacheInv;
    LeaderAtWork(w, id);
    var l := w.leader[id];
    a := Finish(l, Failed, Policy(0, 0, 0), 0);
    FinishGives(w, l, Failed, Policy(0, 0, 0), 0);
  }

  lemma LeaderAtWork(w: World, id: LoadId)
    requires WorldInv(w) && id < |w.src.records| && w.src.records[id].result.None?
    ensures id < |w.leader| && w.leader[id] < |w.threads|
    ensures w.threads[w.leader[id]].Leading? && w.threads[w.leader[id]].id == id
  {
    assert LeaderOk(w, id);
  }

  /** Nobody waits for ever: from any reachable world a thread that waits for a load can be led
      to its outcome, under the name it asked for, by finitely many steps of the load's leader
      and of the leader that opens the archive. */
  lemma {:induction false} WaiterGetsThrough(w: World, t: Tid) returns (trace: seq<Action>, v: World)
    requires WorldInv(w) && t < |w.threads| && w.threads[t].Waiting?
    ensures Run(w, trace, v) && t < |v.threads| && v.threads[t].Opened? && v.threads[t].name == w.threads[t].name
    ensures v.threads[t].id == w.threads[t].id && |trace| <= Far(w, w.threads[t].id) + 1
    ensures forall a | a in trace :: a.Finish? || a.Ensured? || a.Awaited? || a == Wake(t)
    decreases Far(w, w.threads[t].id)
  {
    var id := w.threads[t].id;
    assert ThreadOk(w, t);
    if w.src.records[id].result.Some? {
      trace, v := [Wake(t)], Do(w, Wake(t));
      assert Run(v, [], v);
    } else {
      var a;
      if Busy(w, w.leader[id]) { a := LeaderFinishes(w, t, id); } else { a := ReaderGoesOn(w, t, id); }
      StepKeepsInv(w, a);
      assert CacheInv(w.src.cache);
      hide WorldInv, Do, Enabled, CacheInv, Far, ThreadOk;
      var rest;
      rest, v := WaiterGetsThrough(Do(w, a), t);
      trace := [a] + rest;
    }
  }

  // ------------------------------------------------------------------ retirement

  lemma {:induction false} StaysRetired(w: World, trace: seq<Action>, v: World)
    requires WorldInv(w) && w.src.retired && Run(w, trace, v)
    ensures WorldInv(v) && v.src.retired && |v.src.records| == |w.src.records|
    decreases |trace|
  {
    hide WorldInv, Do, Enabled, CacheInv;
    if trace == [] {
    } else {
      StepKeepsInv(w, trace[0]);
      RetiredStep(w, trace[0]);
      StaysRetired(Do(w, trace[0]), trace[1..], v);
    }
  }

  /** From the moment of its retirement, and whatever runs after it, a generation is retired: no
      load is begun, a thread that tries is sent away with nothing changed, and once no leader is
      left the cache is empty and every archive that was opened has been handed out for
      closing. */
  lemma RetireTakesHold(w: World, trace: seq<Action>, v: World)
    requires WorldInv(w) && Run(Do(w, RetireNow), trace, v)
    ensures v.src.retired && |v.src.records| == |w.src.records|
    ensures forall t, name, now | Enabled(v, Begin(t, name, now)) :: DoBegin(v, t, name, now) == v
    ensures NoLeader(v) ==>
      && v.src.cache == Empty().(nextOrder := v.src.cache.nextOrder) && v.src.archive.None?
      && forall h | Succeeded(v.src, h) :: h in v.src.dropped || h in v.src.closed
  {
    hide Run, CacheInv, LoadsInv, ThreadOk, LeaderOk, OpenerOk, NoLeader;
    StepKeepsInv(w, RetireNow);
    RetireIs(w.src);
    StaysRetired(Do(w, RetireNow), trace, v);
    NoLeaderNoLoad(v);
  }

  /** A retired generation at rest needs one more close: then every archive that was ever opened
      has been closed. */
  lemma CloseCloses(w: World)
    requires WorldInv(w) && w.src.retired && NoLeader(w)
    ensures var v := Do(w, Close);
      v.src.dropped == [] && forall h | Succeeded(v.src, h) :: h in v.src.closed
  {
    hide CacheInv, LoadsInv, ThreadOk, LeaderOk, OpenerOk, NoLeader;
    NoLeaderNoLoad(w);
  }
}
