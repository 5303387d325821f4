/** Every step of the ring keeps its invariant, so it holds in every reachable state. */
module RingSafety {
  import opened RingCore
  import opened RingProtocol

  // ------------------------------------------------------------ counting presenters

  lemma RegisteredUpdate(pcs: seq<Pc>, p: nat, pc: Pc)
    requires p < |pcs|
    ensures RegisteredSet(pcs[p := pc]) ==
      if Registered(pc) then RegisteredSet(pcs) + {p} else RegisteredSet(pcs) - {p}
    ensures p in RegisteredSet(pcs) <==> Registered(pcs[p])
  {
  }

  lemma UndecidedUpdate(pcs: seq<Pc>, p: nat, pc: Pc)
    requires p < |pcs|
    ensures UndecidedSet(pcs[p := pc]) ==
      if pc.Attempted? then UndecidedSet(pcs) + {p} else UndecidedSet(pcs) - {p}
    ensures p in UndecidedSet(pcs) <==> pcs[p].Attempted?
  {
  }

  function Weight(b: bool): int { if b then 1 else 0 }

  lemma GateKept(g: Gate, control: Control, p: nat, pc: Pc, g': Gate)
    requires GateInv(g, control) && p < |g.pcs| && PcOk(g, control, pc)
    requires g' == g.(pcs := g.pcs[p := pc], inflight := g'.inflight)
    requires g'.inflight == g.inflight + Weight(Registered(pc)) - Weight(Registered(g.pcs[p]))
    ensures GateInv(g', control)
  {
    RegisteredUpdate(g.pcs, p, pc);
    var r := RegisteredSet(g.pcs);
    assert |r + {p}| == |r| + Weight(p !in r) && |r - {p}| == |r| - Weight(p in r);
    forall q {:trigger g'.pcs[q]} | 0 <= q < |g'.pcs| ensures PcOk(g', control, g'.pcs[q]) {
      assert PcOk(g, control, g.pcs[q]);
    }
  }

  lemma UndecidedKept(pcs: seq<Pc>, p: nat, pc: Pc)
    requires p < |pcs|
    ensures |UndecidedSet(pcs[p := pc])| == |UndecidedSet(pcs)| + Weight(pc.Attempted?) - Weight(pcs[p].Attempted?)
  {
    UndecidedUpdate(pcs, p, pc);
    var u := UndecidedSet(pcs);
    assert |u + {p}| == |u| + Weight(p !in u) && |u - {p}| == |u| - Weight(p in u);
  }

  lemma OwnersKept(pcs: seq<Pc>, fills: map<nat, Fill>, p: nat, pc: Pc)
    requires OwnersOk(pcs, fills) && p < |pcs| && !pcs[p].Filling? && !pc.Filling?
    ensures OwnersOk(pcs[p := pc], fills)
  {
  }

  // ---------------------------------------------------------------- presenters

  lemma EntryDoes(s: State, a: Action)
    requires Inv(s) && IsPresenter(a) && !a.Claim? && !a.FillStep? && Enabled(s, a)
    ensures var t := Do(s, a);
      var pc, pc' := s.gate.pcs[a.p], t.gate.pcs[a.p];
      && t == s.(gate := s.gate.(pcs := s.gate.pcs[a.p := pc'], inflight := t.gate.inflight),
                 attempts := t.attempts, contended := t.contended)
      && PcOk(s.gate, s.control, pc') && !pc.Filling? && !pc'.Filling?
      && t.gate.inflight == s.gate.inflight + Weight(Registered(pc')) - Weight(Registered(pc))
      && t.attempts - t.contended == s.attempts - s.contended + Weight(pc'.Attempted?) - Weight(pc.Attempted?)
  {
    assert PcOk(s.gate, s.control, s.gate.pcs[a.p]);
    hide LiveInv, ClearInv;
  }

  /** Entering, timing and leaving touch the gate and the attempt counters only. */
  lemma EntryKeepsInv(s: State, a: Action)
    requires Inv(s) && IsPresenter(a) && !a.Claim? && !a.FillStep? && Enabled(s, a)
    ensures Inv(Do(s, a))
  {
    EntryDoes(s, a);
    hide Do, Enabled, PcOk, GateInv;
    var t := Do(s, a);
    GateKept(s.gate, s.control, a.p, t.gate.pcs[a.p], t.gate);
    if !s.control.Clearing? {
      OwnersKept(s.gate.pcs, Fills(s.core), a.p, t.gate.pcs[a.p]);
      UndecidedKept(s.gate.pcs, a.p, t.gate.pcs[a.p]);
    }
  }

  lemma TallyGrows(t: Tally, n: nat, claims: nat, fills: map<nat, Fill>, claims': nat, fills': map<nat, Fill>)
    requires TallyInv(t, n, claims, fills) && claims <= claims'
    requires forall c | c in fills :: c in fills' && Follows(fills[c], fills'[c])
    ensures TallyInv(t, n, claims', fills')
  {
  }

  lemma ControlGrows(control: Control, t: Tally, claims: nat, fills: map<nat, Fill>, claims': nat,
      fills': map<nat, Fill>)
    requires ControlInv(control, t, claims, fills) && claims <= claims'
    requires forall c | c in fills :: c in fills' && Follows(fills[c], fills'[c])
    ensures ControlInv(control, t, claims', fills')
  {
  }

  lemma OwnersAfterClaim(pcs: seq<Pc>, fills: map<nat, Fill>, p: nat, pc: Pc, c: nat, f: Fill)
    requires OwnersOk(pcs, fills) && p < |pcs| && !pcs[p].Filling? && c !in fills
    requires pc.Filling? && pc.claim == c && f.owner == p && !Done(f.phase)
    ensures OwnersOk(pcs[p := pc], fills[c := f])
  {
  }

  /** What a presenter's step on the ring must show to keep the rest of the invariant. */
  lemma CoreStepKeepsInv(s: State, p: nat, pc: Pc, k: Core)
    requires Inv(s) && !s.control.Clearing? && p < |s.gate.pcs| && PcOk(s.gate, s.control, pc)
    requires Registered(pc) && Registered(s.gate.pcs[p])
    requires CoreInv(k) && HomesOk(k) && k.n == s.core.n && s.core.claims <= k.claims
    requires OwnersOk(s.gate.pcs[p := pc], Fills(k))
    requires forall c | c in Fills(s.core) :: c in Fills(k) && Follows(Fills(s.core)[c], Fills(k)[c])
    requires k.claims - s.core.claims == Weight(s.gate.pcs[p].Attempted?) - Weight(pc.Attempted?)
    ensures Inv(At(s, p, pc).(core := k))
  {
    var t := At(s, p, pc).(core := k);
    GateKept(s.gate, s.control, p, pc, t.gate);
    UndecidedKept(s.gate.pcs, p, pc);
    TallyGrows(s.tally, k.n, s.core.claims, Fills(s.core), k.claims, Fills(k));
    ControlGrows(s.control, s.tally, s.core.claims, Fills(s.core), k.claims, Fills(k));
  }

  lemma ClaimFacts(s: State, p: nat)
    requires Inv(s) && Enabled(s, Claim(p))
    ensures !s.control.Clearing? && CoreInv(s.core) && s.core.claims + 1 !in Fills(s.core)
    ensures var k := Take(s.core, p, s.gate.pcs[p].now);
      && CoreInv(k) && HomesOk(k) && k.n == s.core.n && k.claims == s.core.claims + 1
      && Fills(k) == Fills(s.core)[s.core.claims + 1 := RingCore.Fill.Fill(s.gate.pcs[p].now, p, Fresh)]
  {
    assert PcOk(s.gate, s.control, s.gate.pcs[p]);
    TakeKeepsCore(s.core, p, s.gate.pcs[p].now);
    TakeKeepsHomes(s.core, p, s.gate.pcs[p].now);
    hide LanesOk, HomesOk, DropsOk;
  }

  lemma ClaimDoes(s: State, p: nat)
    requires Enabled(s, Claim(p))
    ensures s.core.n > 0 && |s.core.lane| == s.core.n && p < |s.gate.pcs| && s.gate.pcs[p].Attempted?
    ensures var pc := s.gate.pcs[p];
      Do(s, Claim(p)) == At(s, p, Filling(pc.epoch, s.core.claims + 1)).(core := Take(s.core, p, pc.now))
  {
  }

  lemma FillDoes(s: State, p: nat)
    requires Enabled(s, FillStep(p))
    ensures p < |s.gate.pcs| && s.gate.pcs[p].Filling? && CanAdvance(s.core, s.gate.pcs[p].claim)
    ensures var t := Do(s, FillStep(p));
      && t == At(s, p, t.gate.pcs[p]).(core := Advance(s.core, s.gate.pcs[p].claim))
  {
  }

  lemma ClaimKeepsInv(s: State, p: nat)
    requires Inv(s) && Enabled(s, Claim(p))
    ensures Inv(Do(s, Claim(p)))
  {
    var pc := s.gate.pcs[p];
    ClaimFacts(s, p);
    ClaimDoes(s, p);
    hide Inv, CoreInv, HomesOk, Take, Shape, Do;
    ClaimedKeepsInv(s, p, s.core.claims + 1, Take(s.core, p, pc.now), RingCore.Fill.Fill(pc.now, p, Fresh));
  }

  lemma ClaimedKeepsInv(s: State, p: nat, c: nat, k: Core, f: Fill)
    requires Inv(s) && !s.control.Clearing? && p < |s.gate.pcs| && s.gate.pcs[p].Attempted?
    requires CoreInv(k) && HomesOk(k) && k.n == s.core.n && k.claims == s.core.claims + 1
    requires c !in Fills(s.core) && Fills(k) == Fills(s.core)[c := f] && f.owner == p && !Done(f.phase)
    ensures Inv(At(s, p, Filling(s.gate.pcs[p].epoch, c)).(core := k))
  {
    var pc := s.gate.pcs[p];
    var pc' := Filling(pc.epoch, c);
    assert PcOk(s.gate, s.control, pc);
    OwnersAfterClaim(s.gate.pcs, Fills(s.core), p, pc', c, f);
    CoreStepKeepsInv(s, p, pc', k);
  }

  lemma OwnersAfterFill(pcs: seq<Pc>, fills: map<nat, Fill>, p: nat, pc: Pc, f: Fill)
    requires OwnersOk(pcs, fills) && p < |pcs| && pcs[p].Filling?
    requires var c := pcs[p].claim; c in fills && f.owner == fills[c].owner
    requires if Done(f.phase) then !pc.Filling? else pc == pcs[p]
    ensures OwnersOk(pcs[p := pc], fills[pcs[p].claim := f])
  {
  }

  lemma FillFacts(s: State, p: nat)
    requires Inv(s) && Enabled(s, FillStep(p))
    ensures !s.control.Clearing? && CoreInv(s.core)
    ensures var t := Do(s, FillStep(p));
      var pc, pc' := s.gate.pcs[p], t.gate.pcs[p];
      && PcOk(s.gate, s.control, pc') && Registered(pc) && Registered(pc') && !pc.Attempted? && !pc'.Attempted?
      && CoreInv(t.core) && HomesOk(t.core) && t.core.n == s.core.n && t.core.claims == s.core.claims
      && OwnersOk(s.gate.pcs[p := pc'], Fills(t.core))
      && forall c | c in Fills(s.core) :: c in Fills(t.core) && Follows(Fills(s.core)[c], Fills(t.core)[c])
  {
    var t := Do(s, FillStep(p));
    assert PcOk(s.gate, s.control, s.gate.pcs[p]);
    var c := s.gate.pcs[p].claim;
    var fills := Fills(s.core);
    assert c in fills && !Done(fills[c].phase);
    AdvanceKeepsCore(s.core, c);
    AdvanceKeepsHomes(s.core, c);
    OwnersAfterFill(s.gate.pcs, fills, p, t.gate.pcs[p], Fills(t.core)[c]);
  }

  lemma FillKeepsInv(s: State, p: nat)
    requires Inv(s) && Enabled(s, FillStep(p))
    ensures Inv(Do(s, FillStep(p)))
  {
    FillDoes(s, p);
    FillFacts(s, p);
    var t := Do(s, FillStep(p));
    hide Inv, CoreInv, HomesOk, OwnersOk, Do, Advance, CanAdvance, Enabled;
    CoreStepKeepsInv(s, p, t.gate.pcs[p], t.core);
  }

  // ------------------------------------------------------- arming, reset and reader

  lemma ControlOnly(g: Gate, control: Control, control': Control)
    requires GateInv(g, control)
    requires control'.Draining? ==> control.Draining?
    requires control'.Clearing? ==> control.Clearing?
    requires control'.Arming? ==> control.Arming?
    requires control.Draining? ==> control'.Draining?
    ensures GateInv(g, control')
  {
    forall p {:trigger g.pcs[p]} | 0 <= p < |g.pcs| ensures PcOk(g, control', g.pcs[p]) {
      assert PcOk(g, control, g.pcs[p]);
    }
  }

  lemma DisarmKeepsInv(s: State, goal: Goal)
    requires Inv(s) && Enabled(s, Disarm(goal))
    ensures Inv(Do(s, Disarm(goal)))
  {
    var t := Do(s, Disarm(goal));
    forall p {:trigger t.gate.pcs[p]} | 0 <= p < |t.gate.pcs| ensures PcOk(t.gate, t.control, t.gate.pcs[p]) {
      assert PcOk(s.gate, s.control, s.gate.pcs[p]);
    }
  }

  /** Once the drain has seen no presenter in flight, none is inside the capture. */
  lemma NoneConfirmed(g: Gate, p: nat)
    requires g.inflight == |RegisteredSet(g.pcs)| == 0 && p < |g.pcs|
    ensures !Registered(g.pcs[p])
  {
    assert RegisteredSet(g.pcs) == {};
    assert p !in RegisteredSet(g.pcs);
  }

  lemma DrainedKeepsInv(s: State)
    requires Inv(s) && Enabled(s, Drained)
    ensures Inv(Do(s, Drained))
  {
    var t := Do(s, Drained);
    forall p {:trigger t.gate.pcs[p]} | 0 <= p < |t.gate.pcs| ensures PcOk(t.gate, t.control, t.gate.pcs[p]) {
      assert PcOk(s.gate, s.control, s.gate.pcs[p]);
      NoneConfirmed(s.gate, p);
    }
  }

  lemma ClearSlotKeepsInv(s: State)
    requires Inv(s) && Enabled(s, ClearSlot)
    ensures Inv(Do(s, ClearSlot))
  {
    var t := Do(s, ClearSlot);
    ControlOnly(s.gate, s.control, t.control);
  }

  function BlankLane(word: nat): Lane { Lane(Cell(word, 0), 0, map[], {}, map[]) }

  lemma EmptyCore(k: Core)
    requires k.n > 0 && |k.lane| == k.n && k.claims == 0 && k.dropped == 0 && k.home == map[] && k.gone == {}
    requires forall i | 0 <= i < k.n ::
      (k.lane[i].cell.word == 0 || k.lane[i].cell.word == INVALID) && k.lane[i] == BlankLane(k.lane[i].cell.word)
    ensures CoreInv(k) && HomesOk(k) && Fills(k) == map[]
  {
  }

  lemma ClearCountersKeepsInv(s: State)
    requires Inv(s) && Enabled(s, ClearCounters)
    ensures Inv(Do(s, ClearCounters))
  {
    var t := Do(s, ClearCounters);
    forall p {:trigger t.gate.pcs[p]} | 0 <= p < |t.gate.pcs|
      ensures PcOk(t.gate, t.control, t.gate.pcs[p]) && !t.gate.pcs[p].Filling? && !t.gate.pcs[p].Attempted?
    {
      assert PcOk(s.gate, s.control, s.gate.pcs[p]);
    }
    EmptyCore(t.core);
    assert UndecidedSet(t.gate.pcs) == {};
  }

  lemma ArmKeepsInv(s: State)
    requires Inv(s) && Enabled(s, ArmStore)
    ensures Inv(Do(s, ArmStore))
  {
    var t := Do(s, ArmStore);
    forall p {:trigger t.gate.pcs[p]} | 0 <= p < |t.gate.pcs| ensures PcOk(t.gate, t.control, t.gate.pcs[p]) {
      assert PcOk(s.gate, s.control, s.gate.pcs[p]);
    }
  }

  lemma RangeJoins(m: nat, hi: nat)
    requires m <= hi
    ensures Range(0, hi) == Range(0, m) + Range(m, hi) && Range(m, hi) !! Range(0, m)
  {
  }

  /** New elements may go to either part of a partition. */
  lemma PartGrows(a: set<nat>, b: set<nat>, whole: set<nat>, d: set<nat>)
    requires a + b == whole && a !! b && d !! whole
    ensures (a + d) + b == whole + d && a + (b + d) == whole + d
    ensures (a + d) !! b && a !! (b + d)
    ensures |a + d| == |a| + |d| && |b + d| == |b| + |d|
  {
    assert a !! d && b !! d;
  }

  lemma ChargeBalances(t: Tally, after: nat, through: nat)
    requires Balanced(t) && after == t.cursor < through
    ensures Balanced(Charge(t, after, through)) && Position(Charge(t, after, through)) == Max(Position(t), through)
  {
    hide Range;
    if Position(t) < through {
      RangeJoins(Position(t), through);
      RangeSize(Position(t), through);
      PartGrows(t.samples.Keys, t.charged, Range(0, Position(t)), Range(Position(t), through));
    }
  }

  lemma ChargeKeepsTally(t: Tally, n: nat, claims: nat, fills: map<nat, Fill>, after: nat)
    requires TallyInv(t, n, claims, fills) && after + n < claims && (t.threaded ==> after == t.cursor)
    ensures TallyInv(Charge(t, after, claims - n), n, claims, fills)
    ensures t.threaded ==> Position(Charge(t, after, claims - n)) == claims - n
  {
    hide Balanced, Range;
    if t.threaded { ChargeBalances(t, after, claims - n); }
  }

  predicate ReaderTurn(control: Control) { control.Free? || control.Scanning? || control.Reading? }

  /** A reader's step changes its own record only. */
  lemma ReaderFrame(s: State, t: State)
    requires Inv(s) && ReaderTurn(s.control) && ReaderTurn(t.control)
    requires t == s.(control := t.control, tally := t.tally)
    requires TallyInv(t.tally, s.core.n, s.core.claims, Fills(s.core))
    requires ControlInv(t.control, t.tally, s.core.claims, Fills(s.core))
    ensures Inv(t)
  {
    ControlOnly(s.gate, s.control, t.control);
  }

  lemma SnapBeginKeepsSnap(s: State, after: nat, cap: nat, fills: map<nat, Fill>)
    requires s.control.Free? && s.core.n > 0 && TallyInv(s.tally, s.core.n, s.core.claims, fills)
    ensures var t := DoSnapBegin(s, after, cap);
      && t == s.(control := t.control, tally := t.tally) && ReaderTurn(t.control)
      && TallyInv(t.tally, s.core.n, s.core.claims, fills) && ControlInv(t.control, t.tally, s.core.claims, fills)
  {
    hide Balanced;
    var u := s.tally.(threaded := s.tally.threaded && after == s.tally.cursor);
    if cap > 0 && after + s.core.n < s.core.claims {
      ChargeKeepsTally(u, s.core.n, s.core.claims, fills, after);
    }
  }

  lemma SnapBeginKeepsInv(s: State, after: nat, cap: nat)
    requires Inv(s) && Enabled(s, SnapBegin(after, cap))
    ensures Inv(Do(s, SnapBegin(after, cap)))
  {
    SnapBeginKeepsSnap(s, after, cap, Fills(s.core));
    ReaderFrame(s, Do(s, SnapBegin(after, cap)));
  }

  lemma AddedKeys(samples: map<nat, nat>, started: nat, out: seq<nat>)
    requires started > 0
    ensures AddSamples(samples, started, out).Keys == samples.Keys + Range(started - 1, started - 1 + |out|)
    ensures |AddSamples(samples, started, out)| == |samples.Keys + Range(started - 1, started - 1 + |out|)|
  {
  }

  lemma HandBackPosition(t: Tally, after: nat, started: nat, out: seq<nat>)
    requires after == t.cursor && started == Position(t) + 1
    ensures var u := HandBack(t, after, started, out);
      && Position(u) == Position(t) + |out| && u.charged == t.charged && u.overwritten == t.overwritten
      && u.samples.Keys == t.samples.Keys + Range(Position(t), Position(u)) && u.total == t.total + |out|
  {
    hide Range, AddSamples;
    AddedKeys(t.samples, started, out);
  }

  lemma HandBackBalances(t: Tally, after: nat, started: nat, out: seq<nat>)
    requires Balanced(t) && after == t.cursor && started == Position(t) + 1
    ensures Balanced(HandBack(t, after, started, out))
  {
    hide Range, HandBack, Position;
    HandBackPosition(t, after, started, out);
    var u := HandBack(t, after, started, out);
    var added := Range(Position(t), Position(u));
    RangeJoins(Position(t), Position(u));
    RangeSize(Position(t), Position(u));
    PartGrows(t.samples.Keys, t.charged, Range(0, Position(t)), added);
    assert |u.samples| == |u.samples.Keys|;
  }

  lemma HandBackSamples(t: Tally, n: nat, claims: nat, fills: map<nat, Fill>, sn: Snap)
    requires TallyInv(t, n, claims, fills) && SnapOk(sn, t, claims, fills)
    ensures var u := HandBack(t, sn.after, sn.started, sn.out);
      forall q | q in u.samples :: Sample(fills, q, u.samples[q])
  {
    hide Balanced;
    var u := HandBack(t, sn.after, sn.started, sn.out);
    forall q: nat | q in u.samples ensures Sample(fills, q, u.samples[q]) {
      if sn.started <= q < sn.started + |sn.out| {
        assert Sample(fills, sn.started + (q - sn.started), sn.out[q - sn.started]);
      }
    }
  }

  lemma HandBackKeepsTally(t: Tally, n: nat, claims: nat, fills: map<nat, Fill>, sn: Snap)
    requires TallyInv(t, n, claims, fills) && SnapOk(sn, t, claims, fills)
    ensures TallyInv(HandBack(t, sn.after, sn.started, sn.out), n, claims, fills)
  {
    HandBackSamples(t, n, claims, fills, sn);
    hide Balanced, AddSamples;
    if t.threaded { HandBackBalances(t, sn.after, sn.started, sn.out); }
  }

  lemma ScanKeepsSnap(s: State, fills: map<nat, Fill>)
    requires Enabled(s, ScanAhead)
    requires TallyInv(s.tally, s.core.n, s.core.claims, fills) && ControlInv(s.control, s.tally, s.core.claims, fills)
    ensures var t := DoScanAhead(s);
      && t == s.(control := t.control, tally := t.tally) && ReaderTurn(t.control)
      && TallyInv(t.tally, s.core.n, s.core.claims, fills) && ControlInv(t.control, t.tally, s.core.claims, fills)
  {
  }

  lemma AppendKeepsSnap(sn: Snap, stamp: nat, t: Tally, claims: nat, fills: map<nat, Fill>)
    requires ControlInv(Reading(sn), t, claims, fills) && |sn.out| < sn.count
    requires Sample(fills, sn.started + |sn.out|, stamp)
    ensures ControlInv(Reading(sn.(out := sn.out + [stamp])), t, claims, fills)
  {
  }

  lemma ReadKeepsSnap(s: State, fills: map<nat, Fill>)
    requires Enabled(s, ReadSlot) && s.core.claims < FLOOR
    requires TallyInv(s.tally, s.core.n, s.core.claims, fills) && ControlInv(s.control, s.tally, s.core.claims, fills)
    requires var cell := s.core.lane[SlotFor(s.core.n, s.control.snap.started + |s.control.snap.out|)].cell;
      0 < cell.word < FLOOR ==> Sample(fills, cell.word, cell.stamp)
    ensures var t := DoReadSlot(s);
      && t == s.(control := t.control, tally := t.tally) && ReaderTurn(t.control)
      && TallyInv(t.tally, s.core.n, s.core.claims, fills) && ControlInv(t.control, t.tally, s.core.claims, fills)
  {
    var t := DoReadSlot(s);
    if t.control.Free? {
      HandBackKeepsTally(s.tally, s.core.n, s.core.claims, fills, s.control.snap);
    } else {
      AppendKeepsSnap(s.control.snap, fills[s.control.snap.started + |s.control.snap.out|].stamp,
                      s.tally, s.core.claims, fills);
    }
  }

  lemma ScanKeepsInv(s: State)
    requires Inv(s) && Enabled(s, ScanAhead)
    ensures Inv(Do(s, ScanAhead))
  {
    ScanKeepsSnap(s, Fills(s.core));
    ReaderFrame(s, Do(s, ScanAhead));
  }

  /** A concurrent read returns the value of exactly the sequence it asked for. */
  lemma ReadKeepsInv(s: State)
    requires Inv(s) && Enabled(s, ReadSlot)
    ensures Inv(Do(s, ReadSlot))
  {
    var i := SlotFor(s.core.n, s.control.snap.started + |s.control.snap.out|);
    if 0 < s.core.lane[i].cell.word < FLOOR {
      CellIsExact(s.core, i);
    }
    ReadKeepsSnap(s, Fills(s.core));
    ReaderFrame(s, Do(s, ReadSlot));
  }
}
