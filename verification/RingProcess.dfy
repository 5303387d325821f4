/** The C functions of the frame-time ring, run by one thread while any number of other
    threads take their own steps between its atomic instructions. */
module RingProcess {
  import opened RingCore
  import opened RingProtocol
  import opened RingSafety
  import opened RingTheorems

  // ------------------------------------------------- what other threads can change

  ghost predicate ByOther(a: Action, p: nat) { IsPresenter(a) ==> a.p != p }

  /** Nothing a confirmed presenter or the reader relies on is taken back. */
  ghost predicate SameCapture(k: Core, t: Core) {
    && Shape(k) && Shape(t) && k.n == t.n && k.claims <= t.claims && k.dropped <= t.dropped
    && (forall c | c in k.home :: c in t.home && t.home[c] == k.home[c] && Fills(t)[c].stamp == Fills(k)[c].stamp)
    && (forall i | 0 <= i < k.n :: WordAdvances(k, t, i))
  }

  /** What presenter `p` keeps while the others move from `s` to `t`. */
  ghost predicate Rely(p: nat, s: State, t: State) {
    && t.core.n == s.core.n && |t.gate.pcs| == |s.gate.pcs| && s.gate.armed <= t.gate.armed
    && p < |s.gate.pcs| && t.gate.pcs[p] == s.gate.pcs[p]
    && (Confirmed(s.gate.pcs[p]) ==> !s.control.Clearing? && !t.control.Clearing? && SameCapture(s.core, t.core))
    && (s.gate.pcs[p].Filling? ==>
         var c := s.gate.pcs[p].claim;
         c in s.core.home && c in t.core.home && Fills(t.core)[c] == Fills(s.core)[c])
  }

  lemma SameCaptureTrans(k: Core, t: Core, u: Core)
    requires SameCapture(k, t) && SameCapture(t, u)
    ensures SameCapture(k, u)
  {
    forall i | 0 <= i < k.n ensures WordAdvances(k, u, i) {
      assert WordAdvances(k, t, i) && WordAdvances(t, u, i);
    }
  }

  lemma RelyTrans(p: nat, s: State, t: State, u: State)
    requires Rely(p, s, t) && Rely(p, t, u)
    ensures Rely(p, s, u)
  {
    if Confirmed(s.gate.pcs[p]) {
      SameCaptureTrans(s.core, t.core, u.core);
    }
  }

  lemma AdvanceKeepsStamps(k: Core, c: nat)
    requires CoreInv(k) && c in k.home && !Done(Fills(k)[c].phase)
    ensures CanAdvance(k, c) && CoreInv(Advance(k, c))
    ensures forall d | d in k.home :: d in Fills(Advance(k, c)) && Fills(Advance(k, c))[d].stamp == Fills(k)[d].stamp
  {
    AdvanceKeepsCore(k, c);
    hide LanesOk, DropsOk, Advance, Shape;
  }

  lemma FillSameCapture(k: Core, c: nat)
    requires CoreInv(k) && c in k.home && !Done(Fills(k)[c].phase)
    ensures CanAdvance(k, c) && SameCapture(k, Advance(k, c))
  {
    AdvanceKeepsStamps(k, c);
    AdvanceKeepsHome(k, c);
    assert Shape(k) && Shape(Advance(k, c)) && |k.lane| == k.n == |Advance(k, c).lane|;
    hide CoreInv, Shape, Fills, Advance, CanAdvance, WordAdvances;
    forall i | 0 <= i < k.n ensures WordAdvances(k, Advance(k, c), i) { SlotAdvances(k, c, i); }
  }

  lemma AdvanceKeepsHome(k: Core, c: nat)
    requires CanAdvance(k, c)
    ensures var t := Advance(k, c); t.n == k.n && t.claims == k.claims && t.home == k.home && k.dropped <= t.dropped
  {
  }

  /** Slot `i` is the same in `t` or newer. */
  ghost predicate WordAdvances(k: Core, t: Core, i: nat)
    requires i < |k.lane| && i < |t.lane|
  {
    && k.lane[i].cell.word <= INVALID && t.lane[i].cell.word <= INVALID
    && (t.lane[i].cell != k.lane[i].cell ==> Progress(k.lane[i].cell.word) < Progress(t.lane[i].cell.word))
  }

  lemma SlotAdvances(k: Core, c: nat, i: nat)
    requires CoreInv(k) && CanAdvance(k, c) && CoreInv(Advance(k, c)) && i < k.n == Advance(k, c).n
    ensures WordAdvances(k, Advance(k, c), i)
  {
    assert LaneInv(k.lane[i]) && LaneInv(Advance(k, c).lane[i]);
    ProgressPerSlot(k, c, i);
  }

  lemma TakeSameCapture(k: Core, owner: nat, stamp: nat)
    requires CoreInv(k) && stamp != 0 && k.claims + 1 < FLOOR
    ensures SameCapture(k, Take(k, owner, stamp))
  {
    TakeKeepsCore(k, owner, stamp);
    var t := Take(k, owner, stamp);
    forall i | 0 <= i < k.n ensures WordAdvances(k, t, i) { assert LaneInv(k.lane[i]); }
  }

  lemma SameCaptureRefl(k: Core)
    requires CoreInv(k)
    ensures SameCapture(k, k)
  {
    forall i | 0 <= i < k.n ensures WordAdvances(k, k, i) { assert LaneInv(k.lane[i]); }
  }

  lemma RelyWhenOthersWrite(s: State, t: State, p: nat, q: nat, c: nat)
    requires p < |s.gate.pcs| == |t.gate.pcs| && t.gate.pcs[p] == s.gate.pcs[p] && !s.control.Clearing?
    requires s.gate.armed <= t.gate.armed
    requires q != p && t.control == s.control && SameCapture(s.core, t.core)
    requires c in s.core.home ==> Fills(s.core)[c].owner == q
    requires c in t.core.home && Fills(t.core) == Fills(s.core)[c := Fills(t.core)[c]]
    requires s.gate.pcs[p].Filling? ==>
      s.gate.pcs[p].claim in s.core.home && Fills(s.core)[s.gate.pcs[p].claim].owner == p
    ensures Rely(p, s, t)
  {
    assert Shape(s.core) && Shape(t.core) && t.core.n == s.core.n;
    hide SameCapture, Shape, Fills;
  }

  lemma OwnClaim(s: State, p: nat)
    requires Inv(s) && !s.control.Clearing? && p < |s.gate.pcs| && s.gate.pcs[p].Filling?
    ensures CoreInv(s.core) && s.gate.pcs[p].claim in s.core.home
    ensures var f := Fills(s.core)[s.gate.pcs[p].claim]; f.owner == p && !Done(f.phase)
  {
  }

  lemma RelyClaim(s: State, q: nat, p: nat)
    requires Inv(s) && Enabled(s, Claim(q)) && q != p && p < |s.gate.pcs|
    ensures Rely(p, s, Do(s, Claim(q)))
  {
    ClaimDoes(s, q);
    ClaimFacts(s, q);
    assert PcOk(s.gate, s.control, s.gate.pcs[q]);
    TakeSameCapture(s.core, q, s.gate.pcs[q].now);
    if s.gate.pcs[p].Filling? { OwnClaim(s, p); }
    hide Inv, CoreInv, HomesOk, Do, Take, Rely, SameCapture;
    RelyWhenOthersWrite(s, Do(s, Claim(q)), p, q, s.core.claims + 1);
  }

  lemma RelyFill(s: State, q: nat, p: nat)
    requires Inv(s) && Enabled(s, FillStep(q)) && q != p && p < |s.gate.pcs|
    ensures Rely(p, s, Do(s, FillStep(q)))
  {
    FillDoes(s, q);
    assert PcOk(s.gate, s.control, s.gate.pcs[q]);
    var c := s.gate.pcs[q].claim;
    OwnClaim(s, q);
    FillSameCapture(s.core, c);
    AdvanceKeepsCore(s.core, c);
    if s.gate.pcs[p].Filling? { OwnClaim(s, p); }
    hide Inv, CoreInv, Do, Advance, Rely, SameCapture;
    RelyWhenOthersWrite(s, Do(s, FillStep(q)), p, q, c);
  }

  /** Whatever another thread does next, `p` keeps what it relies on. */
  lemma RelyStep(s: State, a: Action, p: nat)
    requires Inv(s) && Enabled(s, a) && ByOther(a, p) && p < |s.gate.pcs|
    ensures Rely(p, s, Do(s, a))
  {
    hide Inv, Do, Rely, Enabled;
    if a.Claim? {
      RelyClaim(s, a.p, p);
    } else if a.FillStep? {
      RelyFill(s, a.p, p);
    } else {
      RelyWhenOthersWait(s, a, p);
    }
  }

  /** A step that neither claims nor fills leaves the capture alone while `p` is in it. */
  lemma WaitStep(s: State, a: Action, p: nat)
    requires Enabled(s, a) && !a.Claim? && !a.FillStep? && ByOther(a, p) && p < |s.gate.pcs|
    requires !s.control.Clearing? && !a.Drained?
    ensures var t := Do(s, a);
      t.core == s.core && !t.control.Clearing? && p < |t.gate.pcs| && t.gate.pcs[p] == s.gate.pcs[p]
  {
    hide Shape, CanAdvance;
  }

  lemma ConfirmedFacts(s: State, p: nat)
    requires Inv(s) && p < |s.gate.pcs| && Confirmed(s.gate.pcs[p])
    ensures !s.control.Clearing? && SameCapture(s.core, s.core)
    ensures s.gate.pcs[p].Filling? ==> s.gate.pcs[p].claim in s.core.home
    ensures s.gate.inflight > 0
  {
    assert PcOk(s.gate, s.control, s.gate.pcs[p]);
    SameCaptureRefl(s.core);
    InflightCounts(s.gate, s.control, p);
  }

  lemma RelyWhenOthersWait(s: State, a: Action, p: nat)
    requires Inv(s) && Enabled(s, a) && ByOther(a, p) && p < |s.gate.pcs| && !a.Claim? && !a.FillStep?
    ensures Rely(p, s, Do(s, a))
  {
    hide Inv, SameCapture, Shape;
    if Confirmed(s.gate.pcs[p]) {
      ConfirmedFacts(s, p);
      WaitStep(s, a, p);
    }
    hide Do;
    OthersMoveOn(s, a, p);
  }

  lemma OthersMoveOn(s: State, a: Action, p: nat)
    requires Enabled(s, a) && ByOther(a, p) && p < |s.gate.pcs|
    ensures var t := Do(s, a);
      && t.core.n == s.core.n && |t.gate.pcs| == |s.gate.pcs| && t.gate.pcs[p] == s.gate.pcs[p]
      && s.gate.armed <= t.gate.armed
  {
  }

  /** For any number of steps of the other threads: `p` keeps what it relies on, and they
      take no more claims than they make steps. */
  lemma {:induction false} RelyRun(p: nat, s: State, trace: seq<Action>, t: State)
    requires Inv(s) && Run(s, trace, t) && p < |s.gate.pcs| && forall a | a in trace :: ByOther(a, p)
    ensures Inv(t) && Rely(p, s, t) && t.core.claims <= s.core.claims + |trace|
    decreases |trace|
  {
    hide Inv, Do, Enabled, ByOther, Rely;
    if trace == [] {
      RelyRefl(s, p);
    } else {
      var u := Do(s, trace[0]);
      assert forall a | a in trace[1..] :: a in trace;
      OthersMoveOn(s, trace[0], p);
      StepKeepsInv(s, trace[0]);
      RelyStep(s, trace[0], p);
      OneClaimPerStep(s, trace[0]);
      RelyRun(p, u, trace[1..], t);
      RelyTrans(p, s, u, t);
    }
  }

  lemma RelyRefl(s: State, p: nat)
    requires Inv(s) && p < |s.gate.pcs|
    ensures Rely(p, s, s)
  {
    if Confirmed(s.gate.pcs[p]) { ConfirmedFacts(s, p); }
  }

  /** A step takes at most one claim, so the claims of a run stay below a bound. */
  lemma OneClaimPerStep(s: State, a: Action)
    requires Enabled(s, a)
    ensures Do(s, a).core.claims <= s.core.claims + 1
  {
  }

  /** No presenter is inside the capture and none can enter it. */
  ghost predicate Shut(s: State) {
    s.gate.armed % 2 == 0 && forall q {:trigger s.gate.pcs[q]} | 0 <= q < |s.gate.pcs| :: !Confirmed(s.gate.pcs[q])
  }

  /** What the holder of the control mutex keeps while presenters move from `s` to `t`. */
  ghost predicate ControlRely(s: State, t: State) {
    && t.core.n == s.core.n && |t.gate.pcs| == |s.gate.pcs|
    && t.control == s.control && t.tally == s.tally
    && t.gate.armed == s.gate.armed && t.gate.capture == s.gate.capture
    && (!s.control.Clearing? ==> SameCapture(s.core, t.core))
    && (Shut(s) ==> Shut(t) && t.core == s.core)
  }

  lemma ControlRelyTrans(s: State, t: State, u: State)
    requires ControlRely(s, t) && ControlRely(t, u)
    ensures ControlRely(s, u)
  {
    if !s.control.Clearing? {
      SameCaptureTrans(s.core, t.core, u.core);
    }
  }

  lemma ControlRelyClaim(s: State, p: nat)
    requires Inv(s) && Enabled(s, Claim(p))
    ensures ControlRely(s, Do(s, Claim(p)))
  {
    assert PcOk(s.gate, s.control, s.gate.pcs[p]);
    ClaimDoes(s, p);
    TakeSameCapture(s.core, p, s.gate.pcs[p].now);
    assert Confirmed(s.gate.pcs[p]) && Take(s.core, p, s.gate.pcs[p].now).n == s.core.n;
    hide Inv, Do, Enabled, SameCapture, Take;
  }

  lemma ControlRelyFill(s: State, p: nat)
    requires Inv(s) && Enabled(s, FillStep(p))
    ensures ControlRely(s, Do(s, FillStep(p)))
  {
    assert PcOk(s.gate, s.control, s.gate.pcs[p]);
    FillDoes(s, p);
    OwnClaim(s, p);
    FillSameCapture(s.core, s.gate.pcs[p].claim);
    AdvanceKeepsHome(s.core, s.gate.pcs[p].claim);
    assert Confirmed(s.gate.pcs[p]);
    hide Inv, Do, Enabled, SameCapture, Advance;
  }

  lemma ControlRelyMove(s: State, a: Action)
    requires Inv(s) && Enabled(s, a) && IsPresenter(a) && !a.Claim? && !a.FillStep?
    ensures ControlRely(s, Do(s, a))
  {
    if !s.control.Clearing? { SameCaptureRefl(s.core); }
    MoveKeepsWords(s, a);
    if Shut(s) { MoveKeepsShut(s, a); }
    hide Inv, SameCapture, Shut, Do, Enabled;
  }

  lemma MoveKeepsWords(s: State, a: Action)
    requires Enabled(s, a) && IsPresenter(a) && !a.Claim? && !a.FillStep?
    ensures var t := Do(s, a);
      && t.core == s.core && t.control == s.control && t.tally == s.tally && |t.gate.pcs| == |s.gate.pcs|
      && t.gate.armed == s.gate.armed && t.gate.capture == s.gate.capture
      && t.gate.pcs == s.gate.pcs[a.p := t.gate.pcs[a.p]]
  {
  }

  lemma MoveKeepsShut(s: State, a: Action)
    requires Inv(s) && Enabled(s, a) && IsPresenter(a) && !a.Claim? && !a.FillStep? && Shut(s)
    ensures Shut(Do(s, a))
  {
    MoveKeepsWords(s, a);
    assert PcOk(s.gate, s.control, s.gate.pcs[a.p]);
    hide Inv;
    assert !Confirmed(Do(s, a).gate.pcs[a.p]);
    hide Do, Enabled;
  }

  lemma ControlRelyStep(s: State, a: Action)
    requires Inv(s) && Enabled(s, a) && IsPresenter(a)
    ensures ControlRely(s, Do(s, a))
  {
    hide Inv, Do, ControlRely;
    if a.Claim? {
      ControlRelyClaim(s, a.p);
    } else if a.FillStep? {
      ControlRelyFill(s, a.p);
    } else {
      ControlRelyMove(s, a);
    }
  }

  /** For any number of steps of the presenters: the holder of the control mutex keeps what
      it relies on. */
  lemma {:induction false} ControlRelyRun(s: State, trace: seq<Action>, t: State)
    requires Inv(s) && Run(s, trace, t) && forall a | a in trace :: IsPresenter(a)
    ensures Inv(t) && ControlRely(s, t) && t.core.claims <= s.core.claims + |trace|
    decreases |trace|
  {
    hide Inv, Do, Enabled, IsPresenter, ControlRely;
    if trace == [] {
      ControlRelyRefl(s);
    } else {
      var u := Do(s, trace[0]);
      assert forall a | a in trace[1..] :: a in trace;
      StepKeepsInv(s, trace[0]);
      ControlRelyStep(s, trace[0]);
      OneClaimPerStep(s, trace[0]);
      ControlRelyRun(u, trace[1..], t);
      ControlRelyTrans(s, u, t);
    }
  }

  lemma ControlRelyRefl(s: State)
    requires Inv(s)
    ensures ControlRely(s, s)
  {
    if !s.control.Clearing? { SameCaptureRefl(s.core); }
  }

  /** What a filling presenter finds on its slot. */
  lemma LaneFacts(s: State, p: nat, c: nat)
    requires Inv(s) && !s.control.Clearing? && p < |s.gate.pcs| && s.gate.pcs[p].Filling? && s.gate.pcs[p].claim == c
    ensures Shape(s.core) && c in s.core.home && c < FLOOR && s.core.claims > 0
    ensures var l := s.core.lane[s.core.home[c]];
      CellOk(l) && c in l.fill && ClaimOk(l, c) && l.fill[c] == Fills(s.core)[c] && !Done(l.fill[c].phase)
  {
    assert c in Fills(s.core) && !Done(Fills(s.core)[c].phase);
    assert LaneInv(s.core.lane[s.core.home[c]]);
  }

  /** In `s` presenter `p` is filling `claim` for slot `i` with `stamp`, and has reached `ph`. */
  ghost predicate FillingIn(s: State, p: nat, i: nat, claim: nat, stamp: nat, ph: Phase) {
    && Shape(s.core) && !s.control.Clearing?
    && p < |s.gate.pcs| && s.gate.pcs[p].Filling? && s.gate.pcs[p].claim == claim
    && claim in s.core.home && s.core.home[claim] == i && claim < FLOOR
    && Fills(s.core)[claim].phase == ph && Fills(s.core)[claim].stamp == stamp
  }

  /** In `s` presenter `p` has finished `claim` with outcome `ph` and is about to leave. */
  ghost predicate DecidedIn(s: State, p: nat, claim: nat, stamp: nat, ph: Phase) {
    && Shape(s.core) && !s.control.Clearing?
    && p < |s.gate.pcs| && s.gate.pcs[p].Leaving?
    && claim in s.core.home && Fills(s.core)[claim].phase == ph && Fills(s.core)[claim].stamp == stamp
  }

  /** The words of `t` outside the slots and the drop counter are those of `s`. */
  ghost predicate SameWords(s: State, t: State) {
    && t.gate.armed == s.gate.armed && t.gate.inflight == s.gate.inflight && |t.gate.pcs| == |s.gate.pcs|
    && t.attempts == s.attempts && t.contended == s.contended && t.tally == s.tally
  }

  lemma FillStepWords(s: State, p: nat, c: nat, l: Lane)
    requires Enabled(s, FillStep(p)) && s.gate.pcs[p].claim == c && l == s.core.lane[s.core.home[c]]
    ensures l.cell.word <= INVALID && c in l.fill && !Done(l.fill[c].phase) && c < FLOOR
    ensures var t := Do(s, FillStep(p));
      var u := Step(s.core.claims, l, c);
      && c in u.fill && SameWords(s, t) && t.control == s.control && p < |t.gate.pcs|
      && t.core == WithLane(s.core, s.core.home[c], u, c)
      && if Done(u.fill[c].phase) then t.gate.pcs[p].Leaving? else t.gate.pcs[p] == s.gate.pcs[p]
  {
    StepFrame(s.core.claims, l, c);
    hide Step;
  }

  lemma FillStepReady(s: State, p: nat, i: nat, claim: nat, stamp: nat, ph: Phase)
    requires Inv(s) && FillingIn(s, p, i, claim, stamp, ph)
    ensures Enabled(s, FillStep(p))
  {
    hide Inv, CoreInv, CanAdvance, Advance, Fills, Shape;
    OwnClaim(s, p);
    AdvanceKeepsCore(s.core, claim);
  }

  lemma AfterFill(s: State, t: State, p: nat, i: nat, claim: nat, stamp: nat, before: Lane, u: Lane)
    requires claim in before.fill && FillingIn(s, p, i, claim, stamp, before.fill[claim].phase)
    requires s.core.lane[i] == before && SameBut(before, u, claim)
    requires t.control == s.control && t.core == WithLane(s.core, i, u, claim) && p < |t.gate.pcs|
    requires if Done(u.fill[claim].phase) then t.gate.pcs[p].Leaving? else t.gate.pcs[p] == s.gate.pcs[p]
    ensures var ph := u.fill[claim].phase;
      if Done(ph) then DecidedIn(t, p, claim, stamp, ph) else FillingIn(t, p, i, claim, stamp, ph)
  {
    WithLaneFills(s.core, i, u, claim);
    hide Shape, Fills;
  }

  /** The phases whose next step is a change of the pending mark, what follows, and the
      change. */
  ghost predicate Bumps(ph: Phase, next: Phase, delta: int) {
    || (ph == Fresh && next == Marked && delta == 1)
    || (delta == -1 && ph == Late && next == LateUnmarked)
    || (delta == -1 && ph.TookOver? && next == Holding)
    || (delta == -1 && ph == Phase.Published && next == DonePublished)
  }

  lemma BumpIs(claims: nat, l: Lane, c: nat, next: Phase, delta: int)
    requires c in l.fill && c < FLOOR && l.cell.word <= INVALID && claims > 0 && Bumps(l.fill[c].phase, next, delta)
    ensures var t := Step(claims, l, c);
      && c in t.fill && t.fill[c].phase == next && t.cell == l.cell
      && t.ahead == if delta == -1 && l.ahead == 0 then 0 else l.ahead + delta
  {
  }

  /** The effect of one step of the presenter that fills `claim`. */
  lemma FillStepIs(s: State, p: nat, i: nat, claim: nat, stamp: nat, before: Lane)
    requires before.cell.word <= INVALID && claim in before.fill && !Done(before.fill[claim].phase) && claim < FLOOR
    requires Inv(s) && FillingIn(s, p, i, claim, stamp, before.fill[claim].phase) && s.core.lane[i] == before
    ensures Enabled(s, FillStep(p)) && SameBut(before, Step(s.core.claims, before, claim), claim)
    ensures var t := Do(s, FillStep(p));
      var ph := Step(s.core.claims, before, claim).fill[claim].phase;
      && t.core == WithLane(s.core, i, Step(s.core.claims, before, claim), claim) && SameWords(s, t)
      && if Done(ph) then DecidedIn(t, p, claim, stamp, ph) else FillingIn(t, p, i, claim, stamp, ph)
  {
    FillStepReady(s, p, i, claim, stamp, before.fill[claim].phase);
    StepFrame(s.core.claims, before, claim);
    FillStepWords(s, p, claim, before);
    hide Inv, Step, Do, Enabled, Shape, Fills, FillingIn, DecidedIn, WithLane, SameBut;
    AfterFill(s, Do(s, FillStep(p)), p, i, claim, stamp, before, Step(s.core.claims, before, claim));
  }

  lemma InflightCounts(g: Gate, control: Control, p: nat)
    requires GateInv(g, control) && p < |g.pcs| && Registered(g.pcs[p])
    ensures g.inflight > 0
  {
    assert p in RegisteredSet(g.pcs);
  }

  lemma ClaimReady(s: State, p: nat)
    requires Inv(s) && p < |s.gate.pcs| && s.gate.pcs[p].Attempted? && s.gate.pcs[p].now != 0
    requires s.core.claims + 1 < FLOOR
    ensures Enabled(s, Claim(p)) && !s.control.Clearing?
  {
    assert PcOk(s.gate, s.control, s.gate.pcs[p]);
  }

  /** No slot knows of a claim that has not been taken yet. */
  lemma ClaimIsNewest(s: State, i: nat)
    requires Inv(s) && !s.control.Clearing? && i < s.core.n && s.core.claims + 1 < FLOOR
    ensures |s.core.lane| == s.core.n && s.core.lane[i].cell.word <= INVALID
    ensures Older(s.core.lane[i].cell.word, s.core.claims + 1)
  {
    assert LaneInv(s.core.lane[i]);
    OlderIsRank(s.core.lane[i].cell.word, s.core.claims + 1);
  }

  lemma TakeWords(k: Core, owner: nat, stamp: nat)
    requires k.n > 0 && |k.lane| == k.n
    ensures var t := Take(k, owner, stamp);
      && t.n == k.n && |t.lane| == |k.lane| && t.claims == k.claims + 1 && t.dropped == k.dropped
      && forall j | 0 <= j < k.n :: t.lane[j].cell == k.lane[j].cell && t.lane[j].ahead == k.lane[j].ahead
  {
  }

  lemma ClaimedIs(s: State, p: nat)
    requires Inv(s) && Enabled(s, Claim(p))
    ensures s.core.n > 0
    ensures var c := s.core.claims + 1;
      FillingIn(Do(s, Claim(p)), p, SlotFor(s.core.n, c), c, s.gate.pcs[p].now, Fresh)
  {
    ClaimFacts(s, p);
    ClaimDoes(s, p);
    hide Inv, Do, CoreInv, HomesOk, Fills, Take, Enabled;
    TakenHome(s.core, p, s.gate.pcs[p].now);
  }

  lemma TakenHome(k: Core, owner: nat, stamp: nat)
    requires k.n > 0 && |k.lane| == k.n && CoreInv(Take(k, owner, stamp))
    ensures var t, c := Take(k, owner, stamp), k.claims + 1;
      Shape(t) && c < FLOOR && c in t.home && t.home[c] == SlotFor(k.n, c)
  {
  }

  // ------------------------------------------------------------------- the ring

  /** The words of the ring, without the history that goes with them. */
  datatype Image = Image(armed: nat, inflight: nat, claims: nat, contended: nat, dropped: nat, overwritten: nat,
                         attempts: nat, wrapThrough: nat, slot: seq<Cell>, ahead: seq<nat>)

  /** A pending count after a change by `delta`, an empty one being left alone by -1. */
  function Bumped(marks: seq<nat>, i: nat, delta: int): seq<nat>
    requires i < |marks|
  {
    if marks[i] + delta < 0 then marks else marks[i := marks[i] + delta]
  }

  predicate Sized(w: Image, i: nat) { i < |w.slot| == |w.ahead| }

  function WithMark(w: Image, i: nat, delta: int): Image
    requires Sized(w, i)
  {
    w.(ahead := Bumped(w.ahead, i, delta))
  }

  function WithCell(w: Image, i: nat, cell: Cell): Image
    requires Sized(w, i)
  {
    w.(slot := w.slot[i := cell])
  }

  /** What frm_try_slot answers for what it finds in the slot. */
  function Taking(word: nat, claim: nat): nat
    requires claim < FLOOR
  {
    if !Older(word, claim) then 0 else if Takeover(word, claim) then 2 else 1
  }

  /** An undisturbed fill of the newest claim: the claim is in its slot under its own number,
      and a stalled older presenter it displaced has lost its mark. */
  function Filled(w: Image, i: nat, c: nat, stamp: nat): Image
    requires Sized(w, i) && c < FLOOR
  {
    var u := WithCell(w, i, Cell(c, stamp));
    if Takeover(w.slot[i].word, c) then WithMark(u, i, -1) else u
  }

  lemma MarkLeavesSlots(w: Image, i: nat)
    requires Sized(w, i)
    ensures forall d {:trigger WithMark(w, i, d)} ::
      WithMark(w, i, d).slot == w.slot && |WithMark(w, i, d).ahead| == |w.ahead|
  {
  }

  /** In `s` claim `c` is over, published or dropped, and was given `stamp`. */
  ghost predicate SettledIn(s: State, c: nat, stamp: nat, published: bool) {
    && Inv(s) && Shape(s.core) && c in s.core.home && Fills(s.core)[c].stamp == stamp
    && Fills(s.core)[c].phase == if published then DonePublished else DoneDropped
  }

  /** How often a slot that holds `word` can still change before it is too new for `claim`. */
  function Left(word: nat, claim: nat): nat
    requires word <= INVALID
  {
    if Progress(word) < 2 * claim then 2 * claim - Progress(word) else 0
  }

  /** `word` is what the presenter saw in the slot, or has come after it. */
  predicate NotBefore(seen: Cell, cell: Cell) {
    && seen.word <= INVALID && cell.word <= INVALID
    && (cell == seen || Progress(seen.word) < Progress(cell.word))
  }

  lemma NewerWord(seen: Cell, cell: Cell, claim: nat)
    requires NotBefore(seen, cell) && claim < FLOOR
    ensures Older(seen.word, claim) && cell != seen ==> Left(cell.word, claim) < Left(seen.word, claim)
    ensures !Older(seen.word, claim) ==> cell.word <= INVALID && !Older(cell.word, claim)
  {
    OlderIsRank(seen.word, claim);
    OlderIsRank(cell.word, claim);
  }

  /** What an undisturbed frm_try_slot of the newest claim leaves once the mark of a displaced
      claim is withdrawn. */
  function Seized(w: Image, i: nat, c: nat): Image
    requires Sized(w, i) && c < FLOOR
  {
    var u := WithCell(w, i, Cell(Marker(c), 0));
    if Takeover(w.slot[i].word, c) then WithMark(u, i, -1) else u
  }

  lemma FillComposes(w: Image, i: nat, c: nat, stamp: nat)
    requires Sized(w, i) && c < FLOOR
    ensures var m := WithMark(w, i, 1);
      && Sized(m, i) && m.slot == w.slot
      && var u := Seized(m, i, c);
         && Sized(u, i) && u.slot[i].word == Marker(c)
         && WithMark(WithCell(u, i, Cell(c, stamp)), i, -1) == Filled(w, i, c, stamp)
  {
    var a := w.ahead;
    assert a[i := a[i] + 1][i := a[i]] == a;
  }

  /** The armed word of a capture that records is odd. */
  predicate Recording(armed: nat) { armed % 2 == 1 }

  predicate Roomy(w: Image) { |w.slot| == |w.ahead| > 0 && w.claims + 1 < FLOOR }

  /** An attempt counted, and a presenter without a stamp counted as contended. */
  function Stamped(w: Image, now: nat): Image {
    w.(attempts := w.attempts + 1, contended := w.contended + if now == 0 then 1 else 0)
  }

  /** What an undisturbed present does to the words of an armed ring; `now` is its stamp, 0 if
      neither the caller nor the clock had one. */
  function Presented(w: Image, now: nat): Image
    requires Roomy(w)
  {
    if now == 0 then Stamped(w, now) else Claimed(Stamped(w, now), now)
  }

  /** An undisturbed claim with its fill. */
  function Claimed(w: Image, now: nat): Image
    requires Roomy(w)
  {
    var c := w.claims + 1;
    Filled(w.(claims := c), SlotFor(|w.slot|, c), c, now)
  }

  function CountedIn(w: Image): Image { w.(inflight := w.inflight + 1) }

  function CountedOut(w: Image): Image
    requires w.inflight > 0
  {
    w.(inflight := w.inflight - 1)
  }

  /** Being counted in and out leaves no trace. */
  lemma InAndOut(w: Image, now: nat)
    requires Roomy(w)
    ensures Roomy(CountedIn(w)) && CountedIn(w).claims == w.claims
    ensures var u := Presented(CountedIn(w), now); u.inflight > 0 && CountedOut(u) == Presented(w, now)
  {
  }

  /** The armed word once it is even. */
  function Disarmed(w: Image): Image { w.(armed := w.armed + w.armed % 2) }

  /** The words of a ring that was reset: nothing is claimed, counted or pending, and no slot
      names a sequence. */
  function Cleared(w: Image): Image {
    Image(w.armed, w.inflight, 0, 0, 0, 0, 0, 0, seq(|w.slot|, _ => Cell(INVALID, 0)), seq(|w.ahead|, _ => 0))
  }

  /** A new capture: the epoch is odd again and the ring is empty. */
  function Rearmed(w: Image): Image {
    var u := Cleared(Disarmed(w));
    u.(armed := u.armed + 1)
  }

  // --------------------------------------------------------- what a snapshot reads

  /** The overflow charge of a snapshot from `after`: what the ring has wrapped past and was not
      charged before. */
  function Charged(w: Image, after: nat): Image {
    var n, accounted := |w.slot|, Max(after, w.wrapThrough);
    if w.claims <= accounted + n then w
    else w.(overwritten := w.overwritten + (w.claims - n - accounted), wrapThrough := w.claims - n)
  }

  /** The charge leaves what the reader looks at alone. */
  lemma ChargeKeepsSlots(w: Image, after: nat, first: nat, marks: seq<nat>, started: nat, count: nat, out: seq<nat>)
    ensures var u := Charged(w, after);
      && u.claims == w.claims && |u.slot| == |w.slot|
      && MarksFrom(u, first, marks) == MarksFrom(w, first, marks)
      && IsRun(u, started, count, out) == IsRun(w, started, count, out)
  {
  }

  /** `h` is the last sequence in front of every claim the loaded marks say is pending. */
  ghost predicate IsHorizon(h: nat, claimed: nat, marks: seq<nat>) {
    && h <= claimed && (forall k | 0 <= k < |marks| && marks[k] < claimed :: h <= claimed - marks[k])
    && (h == claimed || exists k :: 0 <= k < |marks| && marks[k] < claimed && h == claimed - marks[k])
  }

  /** `marks` are the pending counts of the slots of the sequences from `first` on. */
  ghost predicate MarksFrom(w: Image, first: nat, marks: seq<nat>) {
    && |w.slot| == |w.ahead| > 0 && first > 0
    && forall k | 0 <= k < |marks| :: marks[k] == w.ahead[SlotFor(|w.slot|, first + k)]
  }

  /** The stamp published under sequence `q`, or 0. */
  function Reads(w: Image, q: nat): nat
    requires |w.slot| > 0 && q > 0
  {
    var cell := w.slot[SlotFor(|w.slot|, q)];
    if cell.word == q then cell.stamp else 0
  }

  /** `out` are the stamps of as many sequences from `started` on as are published without a
      gap, `count` at most. */
  ghost predicate IsRun(w: Image, started: nat, count: nat, out: seq<nat>) {
    && RunsOn(w, started, out) && |out| <= count
    && (|out| < count ==> Reads(w, started + |out|) == 0)
  }

  ghost predicate RunsOn(w: Image, started: nat, out: seq<nat>) {
    && |w.slot| > 0 && started > 0
    && forall k | 0 <= k < |out| :: out[k] == Reads(w, started + k) != 0
  }

  lemma RunGrows(w: Image, started: nat, count: nat, out: seq<nat>, ns: nat)
    ensures |w.slot| > 0 && started > 0 ==> RunsOn(w, started, [])
    ensures RunsOn(w, started, out) && |out| == count ==> IsRun(w, started, count, out)
    ensures RunsOn(w, started, out) && |out| < count && ns == Reads(w, started + |out|) ==>
      if ns == 0 then IsRun(w, started, count, out) else RunsOn(w, started, out + [ns])
  {
  }

  /** `out` is what an undisturbed snapshot of `w` from `after` hands back, `horizon` being the
      bound its pending marks set: an in-flight claim hides what comes after it and no more. */
  ghost predicate Complete(w: Image, after: nat, capacity: nat, horizon: nat, marks: seq<nat>, out: seq<nat>) {
    var started := WindowStart(|w.slot|, w.claims, after) + 1;
    var first := FirstMarked(|w.slot|, w.claims, started);
    && |marks| == w.claims + 1 - first && MarksFrom(w, first, marks) && IsHorizon(horizon, w.claims, marks)
    && IsRun(w, started, Window(started, horizon, capacity), out)
  }

  /** How many sequences from `started` on a reader with room for `capacity` looks at. */
  function Window(started: nat, horizon: nat, capacity: nat): nat {
    if horizon < started then 0 else Min(horizon - started + 1, capacity)
  }

  /** The first sequence whose pending mark a snapshot looks at. */
  function FirstMarked(n: nat, claimed: nat, started: nat): nat {
    Max(if claimed >= n then claimed - n + 1 else 1, started)
  }

  lemma HorizonAdds(h: nat, claimed: nat, marks: seq<nat>, m: nat)
    requires IsHorizon(h, claimed, marks)
    ensures IsHorizon(if m < claimed then Min(h, claimed - m) else h, claimed, marks + [m])
  {
    var more := marks + [m];
    assert more[|marks|] == m;
    assert forall k | 0 <= k < |marks| :: more[k] == marks[k];
  }

  class FrameRing {
    var armed: nat
    var inflight: nat
    var claims: nat
    var contended: nat
    var dropped: nat
    var overwritten: nat
    var attempts: nat
    var wrapThrough: nat
    const slot: array<Cell>
    const ahead: array<nat>
    /** The state of the transition system these words are part of. */
    ghost var st: State
    /** How many steps the other threads have left in the run considered. */
    ghost var pace: nat

    ghost function Now(): Image
      reads `armed, `inflight, `claims, `contended, `dropped, `overwritten, `attempts, `wrapThrough, slot, ahead
    {
      Image(armed, inflight, claims, contended, dropped, overwritten, attempts, wrapThrough, slot[..], ahead[..])
    }

    ghost predicate Valid()
      reads this, slot, ahead
    {
      CoupledTo(st.core, st) && Inv(st)
    }

    /** The ring before anything is armed: zero-initialised words. */
    constructor (n: nat, ghost presenters: nat)
      requires n > 0
      ensures Valid() && st == Init(n, presenters) && fresh(slot) && fresh(ahead)
    {
      armed, inflight, claims, contended, dropped := 0, 0, 0, 0, 0;
      overwritten, attempts, wrapThrough := 0, 0, 0;
      slot := new Cell[n](_ => Cell(0, 0));
      ahead := new nat[n](_ => 0);
      st, pace := Init(n, presenters), 0;
      new;
      InitInv(n, presenters);
    }

    /** The other threads run for a while before `p` executes its next instruction.  The
        body lets them make no step; callers know only what RelyRun shows for any number
        of their steps. */
    method Others(p: nat)
      requires Valid() && p < |st.gate.pcs|
      modifies this, slot, ahead
      ensures Valid() && Rely(p, old(st), st)
      ensures pace <= old(pace) && (pace == old(pace) ==> st == old(st) && Now() == old(Now()))
      ensures claims + pace <= old(claims + pace)
    {
      if Confirmed(st.gate.pcs[p]) {
        assert PcOk(st.gate, st.control, st.gate.pcs[p]);
        SameCaptureRefl(st.core);
      }
    }

    /** The words agree with the ring `k` and otherwise with `s`. */
    ghost predicate CoupledTo(k: Core, s: State)
      reads this, slot, ahead
    {
      && armed == s.gate.armed && inflight == s.gate.inflight
      && claims == k.claims && dropped == k.dropped
      && attempts == s.attempts && contended == s.contended
      && overwritten == s.tally.overwritten && wrapThrough == s.tally.wrap
      && slot.Length == ahead.Length == |k.lane| == k.n
      && (forall i {:trigger k.lane[i]} | 0 <= i < k.n ::
            k.lane[i].cell == slot[i] && k.lane[i].ahead == ahead[i])
    }

    ghost predicate InPhase(p: nat, i: nat, claim: nat, stamp: nat, ph: Phase)
      reads `st
    {
      FillingIn(st, p, i, claim, stamp, ph)
    }

    ghost predicate Decided(p: nat, claim: nat, stamp: nat, ph: Phase)
      reads `st
    {
      DecidedIn(st, p, claim, stamp, ph)
    }

    ghost predicate At(p: nat, i: nat, claim: nat, stamp: nat, ph: Phase)
      reads `st
    {
      if Done(ph) then Decided(p, claim, stamp, ph) else InPhase(p, i, claim, stamp, ph)
    }

    /** The other threads run while `p` fills `claim`: it stays where it was, and its slot
        is unchanged or newer. */
    method OthersWhileFilling(p: nat, i: nat, claim: nat, ghost stamp: nat, ghost ph: Phase)
      requires Valid() && InPhase(p, i, claim, stamp, ph)
      modifies this, slot, ahead
      ensures Valid() && InPhase(p, i, claim, stamp, ph) && Sized(Now(), i) && Sized(old(Now()), i)
      ensures NotBefore(old(Now()).slot[i], Now().slot[i])
      ensures pace <= old(pace) && (pace == old(pace) ==> Now() == old(Now()))
    {
      hide Inv;
      PendingExists(p, i, claim, stamp, ph);
      ghost var k, cell := st.core, Now().slot[i];
      LaneIs(i);
      Others(p);
      LaneIs(i);
      hide CoupledTo, Now;
      assert WordAdvances(k, st.core, i);
    }

    lemma LaneIs(i: nat)
      requires CoupledTo(st.core, st) && i < slot.Length
      ensures slot.Length == |Now().slot| == |Now().ahead| == |st.core.lane| == st.core.n
      ensures st.core.lane[i].cell == Now().slot[i]
    {
    }

    /** The other threads run while `p` is at `pc`. */
    method OthersWhileAt(p: nat, ghost pc: Pc)
      requires Valid() && AtPc(p, pc)
      modifies this, slot, ahead
      ensures Valid() && AtPc(p, pc) && old(armed) <= armed
      ensures claims + pace <= old(claims + pace)
      ensures pace <= old(pace) && (pace == old(pace) ==> Now() == old(Now()))
    {
      hide Inv, SameCapture;
      Others(p);
    }

    /** Records that `p` has just executed its next step, which turned slot `i` from
        `before` into what its words are now and changed no other slot. */
    ghost method Record(p: nat, i: nat, claim: nat, stamp: nat, before: Lane)
      requires before.cell.word <= INVALID && claim in before.fill && !Done(before.fill[claim].phase) && claim < FLOOR
      requires InPhase(p, i, claim, stamp, before.fill[claim].phase) && st.core.lane[i] == before
      requires CoupledTo(WithLane(st.core, i, Step(st.core.claims, before, claim), claim), st) && Inv(st)
      modifies `st
      ensures Valid() && |st.gate.pcs| == |old(st.gate.pcs)|
      ensures At(p, i, claim, stamp, Step(old(st.core.claims), before, claim).fill[claim].phase)
      ensures Now() == old(Now())
    {
      hide Inv, Step, Enabled, Do, FillingIn, DecidedIn;
      FillStepIs(st, p, i, claim, stamp, before);
      StepKeepsInv(st, FillStep(p));
      st := Do(st, FillStep(p));
    }

    /** Adds `delta` to the pending count of slot `i`, which makes the slot `u`. */
    method StoreMark(i: nat, delta: int, ghost u: Lane, ghost claim: nat)
      requires CoupledTo(st.core, st) && i < ahead.Length && ahead[i] + delta >= 0
      requires claim in u.fill && !u.fill[claim].phase.DoneDropped?
      requires u.cell == st.core.lane[i].cell && u.ahead == st.core.lane[i].ahead + delta
      modifies ahead
      ensures CoupledTo(WithLane(st.core, i, u, claim), st)
      ensures Sized(old(Now()), i) && Now() == WithMark(old(Now()), i, delta)
    {
      ahead[i] := ahead[i] + delta;
    }

    /** Stores `cell` in slot `i`, which makes the slot `u`. */
    method StoreCell(i: nat, cell: Cell, ghost u: Lane, ghost claim: nat)
      requires CoupledTo(st.core, st) && i < slot.Length && claim in u.fill && !u.fill[claim].phase.DoneDropped?
      requires u.cell == cell && u.ahead == st.core.lane[i].ahead
      modifies slot
      ensures CoupledTo(WithLane(st.core, i, u, claim), st)
      ensures Sized(old(Now()), i) && Now() == WithCell(old(Now()), i, cell)
    {
      slot[i] := cell;
    }

    method LoadMark(i: nat) returns (n: nat)
      requires Sized(Now(), i)
      ensures n == Now().ahead[i]
    {
      n := ahead[i];
    }

    method LoadCell(i: nat) returns (cell: Cell)
      requires Sized(Now(), i)
      ensures cell == Now().slot[i]
    {
      cell := slot[i];
    }

    /** frm_cas64 on a pending mark. */
    method SwapAhead(p: nat, i: nat, claim: nat, ghost stamp: nat, ghost ph: Phase, ghost next: Phase, n: nat,
        delta: int)
        returns (ok: bool)
      requires Valid() && InPhase(p, i, claim, stamp, ph) && Bumps(ph, next, delta)
      requires Sized(Now(), i) && n + delta >= 0
      modifies `st, ahead
      ensures Valid()
      ensures ok <==> old(Now()).ahead[i] == n
      ensures if ok then At(p, i, claim, stamp, next) else InPhase(p, i, claim, stamp, ph)
      ensures Now() == if ok then WithMark(old(Now()), i, delta) else old(Now())
    {
      PendingExists(p, i, claim, stamp, ph);
      hide InPhase, Valid, Bumps;
      ok := ahead[i] == n;
      assert Now().ahead[i] == ahead[i];
      if ok {
        AddMark(p, i, claim, stamp, ph, next, delta);
      }
    }

    lemma PendingExists(p: nat, i: nat, claim: nat, stamp: nat, ph: Phase)
      requires Valid() && InPhase(p, i, claim, stamp, ph)
      ensures Sized(Now(), i) && i < slot.Length == ahead.Length && claim < FLOOR
    {
      LaneFacts(st, p, claim);
    }

    /** The swap once the count is as expected. */
    method AddMark(p: nat, i: nat, claim: nat, ghost stamp: nat, ghost ph: Phase, ghost next: Phase, delta: int)
      requires Valid() && InPhase(p, i, claim, stamp, ph) && Bumps(ph, next, delta)
      requires i < ahead.Length && ahead[i] + delta >= 0
      modifies `st, ahead
      ensures Valid() && At(p, i, claim, stamp, next)
      ensures Sized(old(Now()), i) && Now() == WithMark(old(Now()), i, delta)
    {
      hide Inv;
      LaneFacts(st, p, claim);
      ghost var before := st.core.lane[i];
      BumpIs(st.core.claims, before, claim, next, delta);
      ghost var u := Step(st.core.claims, before, claim);
      assert before.cell.word <= INVALID && before.fill[claim].phase == ph && !next.DoneDropped?;
      assert u.ahead == before.ahead + delta && Inv(st);
      hide Step, InPhase, Now, WithMark, At, Bumps, CellOk, ClaimOk, Shape, CoupledTo;
      StoreMark(i, delta, u, claim);
      Record(p, i, claim, stamp, before);
    }

    /** frm_bump_ahead.  Each lost race means that another thread made a step, so in a run
        with finitely many steps of others the retries end. */
    method BumpAhead(p: nat, i: nat, claim: nat, ghost stamp: nat, ghost ph: Phase, ghost next: Phase, delta: int)
      requires Valid() && InPhase(p, i, claim, stamp, ph) && Bumps(ph, next, delta)
      modifies this, slot, ahead
      ensures Valid() && At(p, i, claim, stamp, next) && pace <= old(pace) && Sized(old(Now()), i)
      ensures pace == old(pace) ==> Now() == WithMark(old(Now()), i, delta)
    {
      hide Inv;
      LaneFacts(st, p, claim);
      if claims != 0 {
        var done := false;
        while !done
          invariant Valid() && i < ahead.Length && pace <= old(pace) && Sized(old(Now()), i)
          invariant if done then At(p, i, claim, stamp, next) else InPhase(p, i, claim, stamp, ph)
          invariant pace == old(pace) ==> Now() == if done then WithMark(old(Now()), i, delta) else old(Now())
          decreases if done then 0 else 1, pace
        {
          done := TryBump(p, i, claim, stamp, ph, next, delta);
        }
      }
    }

    /** One round of the retry loop. */
    method TryBump(p: nat, i: nat, claim: nat, ghost stamp: nat, ghost ph: Phase, ghost next: Phase, delta: int)
        returns (done: bool)
      requires Valid() && InPhase(p, i, claim, stamp, ph) && Bumps(ph, next, delta)
      modifies this, slot, ahead
      ensures Valid() && if done then At(p, i, claim, stamp, next)
        else InPhase(p, i, claim, stamp, ph) && pace < old(pace)
      ensures pace <= old(pace) && Sized(old(Now()), i)
      ensures pace == old(pace) ==> Now() == WithMark(old(Now()), i, delta)
    {
      hide Valid, InPhase, At, Bumps, Now, NotBefore, WithMark;
      OthersWhileFilling(p, i, claim, stamp, ph);
      done := LoadAndBump(p, i, claim, stamp, ph, next, delta);
    }

    method LoadAndBump(p: nat, i: nat, claim: nat, ghost stamp: nat, ghost ph: Phase, ghost next: Phase, delta: int)
        returns (done: bool)
      requires Valid() && InPhase(p, i, claim, stamp, ph) && Bumps(ph, next, delta)
      modifies this, slot, ahead
      ensures Valid() && if done then At(p, i, claim, stamp, next)
        else InPhase(p, i, claim, stamp, ph) && pace < old(pace)
      ensures pace <= old(pace) && Sized(old(Now()), i)
      ensures pace == old(pace) ==> Now() == WithMark(old(Now()), i, delta)
    {
      hide Valid, InPhase, At, Now, NotBefore;
      PendingExists(p, i, claim, stamp, ph);
      var n := LoadMark(i);
      if delta == -1 && n == 0 {
        RecordGuard(p, i, claim, stamp, ph, next);
        done := true;
      } else {
        OthersWhileFilling(p, i, claim, stamp, ph);
        done := SwapAhead(p, i, claim, stamp, ph, next, n, delta);
      }
    }

    /** The guard of frm_bump_ahead: an empty count is left alone. */
    ghost method RecordGuard(p: nat, i: nat, claim: nat, stamp: nat, ph: Phase, next: Phase)
      requires Valid() && InPhase(p, i, claim, stamp, ph) && Bumps(ph, next, -1)
      requires Sized(Now(), i) && Now().ahead[i] == 0
      modifies `st
      ensures Valid() && At(p, i, claim, stamp, next) && Now() == old(Now())
    {
      hide Inv, Step;
      LaneFacts(st, p, claim);
      BumpIs(st.core.claims, st.core.lane[i], claim, next, -1);
      Record(p, i, claim, stamp, st.core.lane[i]);
    }

    /** frm_xadd64(&frm_dropped, 1) */
    method CountDropped(p: nat, i: nat, claim: nat, ghost stamp: nat, ghost ph: Phase)
      requires Valid() && InPhase(p, i, claim, stamp, ph) && (ph == LateUnmarked || ph == Lost)
      modifies `st, `dropped
      ensures Valid() && Decided(p, claim, stamp, DoneDropped)
      ensures Now() == old(Now()).(dropped := old(dropped) + 1)
    {
      hide Inv;
      LaneFacts(st, p, claim);
      dropped := dropped + 1;
      Record(p, i, claim, stamp, st.core.lane[i]);
    }

    ghost method RecordLate(p: nat, i: nat, claim: nat, stamp: nat)
      requires Valid() && InPhase(p, i, claim, stamp, Marked)
      requires Sized(Now(), i) && Now().slot[i].word <= INVALID && !Older(Now().slot[i].word, claim)
      modifies `st
      ensures Valid() && InPhase(p, i, claim, stamp, Late) && Now() == old(Now())
    {
      hide Inv;
      LaneFacts(st, p, claim);
      Record(p, i, claim, stamp, st.core.lane[i]);
    }

    /** The compare-and-swap of frm_try_slot: on failure it hands back the current cell. */
    method SwapIn(p: nat, i: nat, claim: nat, ghost stamp: nat, expected: Cell) returns (ok: bool, current: Cell)
      requires Valid() && InPhase(p, i, claim, stamp, Marked) && i < slot.Length
      requires expected.word <= INVALID && Older(expected.word, claim)
      modifies `st, slot
      ensures Valid()
      ensures ok <==> old(slot[i]) == expected
      ensures !ok ==> current == slot[i] && st == old(st)
      ensures ok && !Takeover(expected.word, claim) ==> InPhase(p, i, claim, stamp, Holding)
      ensures ok && Takeover(expected.word, claim) ==> InPhase(p, i, claim, stamp, TookOver(Rank(expected.word)))
      ensures Sized(old(Now()), i)
      ensures Now() == if ok then WithCell(old(Now()), i, Cell(Marker(claim), 0)) else old(Now())
    {
      hide Inv;
      LaneFacts(st, p, claim);
      ok, current := slot[i] == expected, slot[i];
      if ok {
        ghost var before := st.core.lane[i];
        ghost var u := Step(st.core.claims, before, claim);
        hide Now, WithCell, CoupledTo;
        StoreCell(i, Cell(Marker(claim), 0), u, claim);
        Record(p, i, claim, stamp, before);
      }
    }

    /** frm_try_slot: 0 when the slot is newer, 1 when it was taken, 2 when it was taken over
        from an older claim that had not published. */
    method TrySlot(p: nat, i: nat, claim: nat, ghost stamp: nat) returns (took: nat, ghost ph: Phase)
      requires Valid() && InPhase(p, i, claim, stamp, Marked)
      modifies this, slot, ahead
      ensures Valid() && InPhase(p, i, claim, stamp, ph)
      ensures (took == 0 && ph == Late) || (took == 1 && ph == Holding) || (took == 2 && ph.TookOver?)
      ensures pace <= old(pace) && Sized(old(Now()), i) && claim < FLOOR
      ensures pace == old(pace) ==>
        && took == Taking(old(Now()).slot[i].word, claim)
        && Now() == if took == 0 then old(Now()) else WithCell(old(Now()), i, Cell(Marker(claim), 0))
    {
      hide Valid, Now, InPhase, WithCell, Rank;
      var seen := TakeSlot(p, i, claim, stamp);
      took, ph := 0, Late;
      if !Older(seen.word, claim) {
        RecordLate(p, i, claim, stamp);
      } else if Takeover(seen.word, claim) {
        took, ph := 2, TookOver(Rank(seen.word));
      } else {
        took, ph := 1, Holding;
      }
    }

    /** The loop of frm_try_slot; `seen` is what its last compare-and-swap expected.  One that
        loses its race finds a newer word, so the retries end after at most
        2 * claim - (2 * rank + published) of them. */
    method TakeSlot(p: nat, i: nat, claim: nat, ghost stamp: nat) returns (seen: Cell)
      requires Valid() && InPhase(p, i, claim, stamp, Marked)
      modifies this, slot, ahead
      ensures Valid() && claim < FLOOR && seen.word <= INVALID && Sized(Now(), i) && Sized(old(Now()), i)
      ensures Older(seen.word, claim) ==>
        InPhase(p, i, claim, stamp, if Takeover(seen.word, claim) then TookOver(Rank(seen.word)) else Holding)
      ensures !Older(seen.word, claim) ==>
        InPhase(p, i, claim, stamp, Marked) && Now().slot[i].word <= INVALID && !Older(Now().slot[i].word, claim)
      ensures pace <= old(pace)
      ensures pace == old(pace) ==>
        && seen == old(Now()).slot[i]
        && Now() == if Older(seen.word, claim) then WithCell(old(Now()), i, Cell(Marker(claim), 0)) else old(Now())
    {
      PendingExists(p, i, claim, stamp, Marked);
      OthersWhileFilling(p, i, claim, stamp, Marked);
      PendingExists(p, i, claim, stamp, Marked);
      seen := slot[i];
      assert seen == Now().slot[i] && NotBefore(seen, seen);
      hide Valid, Now, InPhase, WithCell, NotBefore, Older, Takeover, Rank, Left;
      var ok := false;
      while !ok && Older(seen.word, claim)
        invariant Valid() && claim < FLOOR && Sized(Now(), i) && Sized(old(Now()), i)
        invariant seen.word <= INVALID && pace <= old(pace)
        invariant !ok ==> InPhase(p, i, claim, stamp, Marked) && NotBefore(seen, Now().slot[i])
        invariant ok ==> Older(seen.word, claim)
        invariant ok ==>
          InPhase(p, i, claim, stamp, if Takeover(seen.word, claim) then TookOver(Rank(seen.word)) else Holding)
        invariant pace == old(pace) ==> seen == old(Now()).slot[i]
        invariant pace == old(pace) ==>
          Now() == if ok then WithCell(old(Now()), i, Cell(Marker(claim), 0)) else old(Now())
        decreases if ok then 0 else 1, Left(seen.word, claim)
      {
        var current;
        ok, current := TryTake(p, i, claim, stamp, seen);
        if !ok {
          NewerWord(seen, current, claim);
          seen := current;
        }
      }
      if !ok { NewerWord(seen, Now().slot[i], claim); }
    }

    /** One round of the retry loop of frm_try_slot. */
    method TryTake(p: nat, i: nat, claim: nat, ghost stamp: nat, expected: Cell) returns (ok: bool, current: Cell)
      requires Valid() && InPhase(p, i, claim, stamp, Marked) && Sized(Now(), i)
      requires NotBefore(expected, Now().slot[i]) && claim < FLOOR && Older(expected.word, claim)
      modifies this, slot, ahead
      ensures Valid() && pace <= old(pace) && Sized(Now(), i)
      ensures ok ==>
        InPhase(p, i, claim, stamp, if Takeover(expected.word, claim) then TookOver(Rank(expected.word)) else Holding)
      ensures !ok ==> InPhase(p, i, claim, stamp, Marked) && current == Now().slot[i]
      ensures !ok ==> NotBefore(expected, current) && NotBefore(current, current) && current != expected
      ensures !ok ==> current.word <= INVALID
      ensures pace == old(pace) && old(Now()).slot[i] == expected ==>
        ok && Now() == WithCell(old(Now()), i, Cell(Marker(claim), 0))
    {
      hide Valid, InPhase, WithCell, Takeover;
      OthersWhileFilling(p, i, claim, stamp, Marked);
      ok, current := SwapIn(p, i, claim, stamp, expected);
    }

    /** The publication at the end of frm_fill: one load, then one compare-and-swap that
        succeeds only while the slot still holds this claim's marker. */
    method PublishCell(p: nat, i: nat, claim: nat, stamp: nat) returns (ok: bool)
      requires Valid() && InPhase(p, i, claim, stamp, Holding)
      modifies this, slot, ahead
      ensures Valid() && InPhase(p, i, claim, stamp, if ok then Phase.Published else Lost)
      ensures pace <= old(pace) && Sized(old(Now()), i) && claim < FLOOR
      ensures pace == old(pace) ==>
        && ok == (old(Now()).slot[i].word == Marker(claim))
        && Now() == if ok then WithCell(old(Now()), i, Cell(claim, stamp)) else old(Now())
    {
      hide Valid, InPhase, Now, NotBefore, WithCell;
      OthersWhileFilling(p, i, claim, stamp, Holding);
      ok := LoadAndPublish(p, i, claim, stamp);
    }

    method LoadAndPublish(p: nat, i: nat, claim: nat, stamp: nat) returns (ok: bool)
      requires Valid() && InPhase(p, i, claim, stamp, Holding)
      modifies this, slot, ahead
      ensures Valid() && InPhase(p, i, claim, stamp, if ok then Phase.Published else Lost)
      ensures pace <= old(pace) && Sized(old(Now()), i) && claim < FLOOR
      ensures pace == old(pace) ==>
        && ok == (old(Now()).slot[i].word == Marker(claim))
        && Now() == if ok then WithCell(old(Now()), i, Cell(claim, stamp)) else old(Now())
    {
      hide Valid, InPhase, Now, NotBefore, WithCell;
      PendingExists(p, i, claim, stamp, Holding);
      OwnMarker(p, i, claim, stamp);
      var expected := LoadCell(i);
      if expected.word != Marker(claim) {
        RecordLost(p, i, claim, stamp);
        ok := false;
      } else {
        ok := PublishOver(p, i, claim, stamp, expected);
      }
    }

    method PublishOver(p: nat, i: nat, claim: nat, stamp: nat, expected: Cell) returns (ok: bool)
      requires Valid() && InPhase(p, i, claim, stamp, Holding) && claim < FLOOR && expected == Cell(Marker(claim), 0)
      modifies this, slot, ahead
      ensures Valid() && InPhase(p, i, claim, stamp, if ok then Phase.Published else Lost)
      ensures pace <= old(pace) && Sized(old(Now()), i)
      ensures pace == old(pace) ==>
        && ok == (old(Now()).slot[i] == expected)
        && Now() == if ok then WithCell(old(Now()), i, Cell(claim, stamp)) else old(Now())
    {
      hide Valid, InPhase, Now, NotBefore, WithCell, Marker;
      OthersWhileFilling(p, i, claim, stamp, Holding);
      ok := SwapOut(p, i, claim, stamp, expected);
    }

    /** A taken slot has no stamp. */
    lemma OwnMarker(p: nat, i: nat, claim: nat, stamp: nat)
      requires Valid() && InPhase(p, i, claim, stamp, Holding) && Sized(Now(), i)
      ensures claim < FLOOR
      ensures Now().slot[i].word == Marker(claim) ==> Now().slot[i] == Cell(Marker(claim), 0)
    {
      LaneFacts(st, p, claim);
    }

    ghost method RecordLost(p: nat, i: nat, claim: nat, stamp: nat)
      requires Valid() && InPhase(p, i, claim, stamp, Holding)
      requires claim < FLOOR && Sized(Now(), i) && Now().slot[i].word != Marker(claim)
      modifies `st
      ensures Valid() && InPhase(p, i, claim, stamp, Lost) && Now() == old(Now())
    {
      hide Inv;
      LaneFacts(st, p, claim);
      Record(p, i, claim, stamp, st.core.lane[i]);
    }

    /** The compare-and-swap that publishes. */
    method SwapOut(p: nat, i: nat, claim: nat, stamp: nat, expected: Cell) returns (ok: bool)
      requires Valid() && InPhase(p, i, claim, stamp, Holding) && claim < FLOOR && expected == Cell(Marker(claim), 0)
      modifies `st, slot
      ensures Valid() && InPhase(p, i, claim, stamp, if ok then Phase.Published else Lost)
      ensures Sized(old(Now()), i) && (ok <==> old(Now()).slot[i] == expected)
      ensures Now() == if ok then WithCell(old(Now()), i, Cell(claim, stamp)) else old(Now())
    {
      hide Inv;
      LaneFacts(st, p, claim);
      ok := slot[i] == expected;
      ghost var before := st.core.lane[i];
      ghost var u := Step(st.core.claims, before, claim);
      hide Now, WithCell;
      if ok {
        StoreCell(i, Cell(claim, stamp), u, claim);
      }
      Record(p, i, claim, stamp, before);
    }

    /** frm_fill: the claim ends published or dropped, whatever the others do; undisturbed, and
        with an older claim or none in its slot, it ends published. */
    method Fill(p: nat, i: nat, claim: nat, stamp: nat) returns (published: bool)
      requires Valid() && InPhase(p, i, claim, stamp, Fresh)
      modifies this, slot, ahead
      ensures Valid() && Decided(p, claim, stamp, if published then DonePublished else DoneDropped)
      ensures pace <= old(pace) && Sized(old(Now()), i) && claim < FLOOR
      ensures pace == old(pace) && Older(old(Now()).slot[i].word, claim) ==>
        published && Now() == Filled(old(Now()), i, claim, stamp)
    {
      hide Valid, Now, InPhase, Decided, WithMark, WithCell, Filled, Seized;
      PendingExists(p, i, claim, stamp, Fresh);
      FillComposes(Now(), i, claim, stamp);
      BumpAhead(p, i, claim, stamp, Fresh, Marked, 1);
      var took := Seize(p, i, claim, stamp);
      if !took {
        GiveUp(p, i, claim, stamp);
        return false;
      }
      published := FinishFill(p, i, claim, stamp);
    }

    /** frm_try_slot, and the withdrawal of the mark of a claim it displaced. */
    method Seize(p: nat, i: nat, claim: nat, ghost stamp: nat) returns (took: bool)
      requires Valid() && InPhase(p, i, claim, stamp, Marked)
      modifies this, slot, ahead
      ensures Valid() && InPhase(p, i, claim, stamp, if took then Holding else Late)
      ensures pace <= old(pace) && Sized(old(Now()), i) && claim < FLOOR
      ensures pace == old(pace) && Older(old(Now()).slot[i].word, claim) ==>
        took && Now() == Seized(old(Now()), i, claim)
    {
      hide Valid, Now, InPhase, Decided, WithMark, WithCell;
      var n, ph := TrySlot(p, i, claim, stamp);
      took := n != 0;
      if n == 2 {
        BumpAhead(p, i, claim, stamp, ph, Holding, -1);
      }
    }

    /** A presenter that finds a newer claim in its slot withdraws its mark and counts a drop. */
    method GiveUp(p: nat, i: nat, claim: nat, ghost stamp: nat)
      requires Valid() && InPhase(p, i, claim, stamp, Late)
      modifies this, slot, ahead
      ensures Valid() && Decided(p, claim, stamp, DoneDropped) && pace <= old(pace) && Sized(old(Now()), i)
      ensures pace == old(pace) ==>
        Now() == WithMark(old(Now()), i, -1).(dropped := old(dropped) + 1)
    {
      hide Valid, InPhase, Decided;
      BumpAhead(p, i, claim, stamp, Late, LateUnmarked, -1);
      OthersWhileFilling(p, i, claim, stamp, LateUnmarked);
      CountDropped(p, i, claim, stamp, LateUnmarked);
    }

    /** The rest of frm_fill once the slot is taken. */
    method FinishFill(p: nat, i: nat, claim: nat, stamp: nat) returns (published: bool)
      requires Valid() && InPhase(p, i, claim, stamp, Holding)
      modifies this, slot, ahead
      ensures Valid() && Decided(p, claim, stamp, if published then DonePublished else DoneDropped)
      ensures pace <= old(pace) && Sized(old(Now()), i) && claim < FLOOR
      ensures pace == old(pace) && old(Now()).slot[i].word == Marker(claim) ==>
        published && Now() == WithMark(WithCell(old(Now()), i, Cell(claim, stamp)), i, -1)
    {
      hide Valid, Now, InPhase, Decided, WithMark;
      published := PublishCell(p, i, claim, stamp);
      if published {
        BumpAhead(p, i, claim, stamp, Phase.Published, DonePublished, -1);
      } else {
        OthersWhileFilling(p, i, claim, stamp, Lost);
        CountDropped(p, i, claim, stamp, Lost);
      }
    }

    /** Records a step of `p` that is not one of frm_fill's. */
    ghost method RecordEntry(a: Action)
      requires Inv(st) && IsPresenter(a) && !a.FillStep? && Enabled(st, a)
      requires CoupledTo(Do(st, a).core, Do(st, a))
      modifies `st
      ensures Valid() && st == Do(old(st), a)
    {
      StepKeepsInv(st, a);
      st := Do(st, a);
    }

    ghost predicate AtPc(p: nat, pc: Pc)
      reads `st
    {
      p < |st.gate.pcs| && st.gate.pcs[p] == pc
    }

    /** frm_enter: registers the presenter exactly if the epoch it read is odd and still current
        once it is counted: one that read an odd epoch is turned away only for a newer one. */
    method Enter(p: nat) returns (entered: bool, ghost epoch: nat)
      requires Valid() && AtPc(p, Idle)
      modifies this, slot, ahead
      ensures Valid() && AtPc(p, if entered then Entered(epoch) else Idle)
      ensures claims + pace <= old(claims + pace) && pace <= old(pace)
      ensures pace == old(pace) ==> entered == Recording(old(armed))
      ensures entered ==> epoch == old(armed) && Recording(epoch)
      ensures !entered ==> !Recording(old(armed)) || old(armed) < armed
      ensures pace == old(pace) ==>
        Now() == if entered then CountedIn(old(Now())) else old(Now())
    {
      hide Inv, CoupledTo;
      var e := LoadEpoch(p);
      epoch := e;
      if e % 2 == 0 {
        return false, e;
      }
      OthersWhileAt(p, Saw(e));
      CountIn(p, e);
      OthersWhileAt(p, Counted(e));
      entered := Recheck(p, e);
      if !entered {
        OthersWhileAt(p, Refused(e));
        GiveBack(p, Refused(e));
      }
    }

    /** The first load of the armed word; an even one means that nothing records. */
    method LoadEpoch(p: nat) returns (e: nat)
      requires Valid() && AtPc(p, Idle)
      modifies `st
      ensures Valid() && e == armed && AtPc(p, if e % 2 == 0 then Idle else Saw(e)) && Now() == old(Now())
    {
      hide Inv;
      e := armed;
      RecordEntry(SeeEpoch(p));
    }

    /** atomic_fetch_add(&frm_inflight, 1) */
    method CountIn(p: nat, ghost e: nat)
      requires Valid() && AtPc(p, Saw(e))
      modifies `st, `inflight
      ensures Valid() && AtPc(p, Counted(e)) && Now() == CountedIn(old(Now()))
    {
      hide Inv;
      inflight := inflight + 1;
      RecordEntry(Register(p));
    }

    /** The second load: only a presenter that still sees its epoch is inside. */
    method Recheck(p: nat, e: nat) returns (entered: bool)
      requires Valid() && AtPc(p, Counted(e))
      modifies `st
      ensures Valid() && entered == (armed == e) && AtPc(p, if entered then Entered(e) else Refused(e))
      ensures Now() == old(Now())
    {
      hide Inv;
      entered := armed == e;
      RecordEntry(Confirm(p));
    }

    /** atomic_fetch_sub(&frm_inflight, 1) */
    method GiveBack(p: nat, ghost pc: Pc)
      requires Valid() && AtPc(p, pc) && (pc.Refused? || pc.Leaving?)
      modifies `st, `inflight
      ensures Valid() && AtPc(p, Idle)
      ensures old(Now()).inflight > 0 && Now() == CountedOut(old(Now()))
    {
      InflightCounts(st.gate, st.control, p);
      hide Inv;
      inflight := inflight - 1;
      RecordEntry(if pc.Refused? then Retreat(p) else Leave(p));
    }

    /** frm_xadd64(&frm_claims, 1) + 1, and frm_slot_for of the result. */
    method TakeClaim(p: nat, ghost epoch: nat, now: nat) returns (claim: nat, i: nat)
      requires Valid() && AtPc(p, Attempted(epoch, now)) && now != 0 && claims + 1 < FLOOR
      modifies `st, `claims
      ensures Valid() && InPhase(p, i, claim, now, Fresh)
      ensures claim == old(claims) + 1 && Roomy(old(Now())) && i == SlotFor(|old(Now()).slot|, claim)
      ensures Now() == old(Now()).(claims := claim) && Older(Now().slot[i].word, claim)
    {
      hide Valid, Now, AtPc, Enabled, Do, Older, FillingIn;
      ghost var s := st;
      NextClaim(p, epoch, now);
      claim, i := claims + 1, SlotFor(slot.Length, claims + 1);
      CountClaim(p);
      ClaimedIs(s, p);
    }

    lemma NextClaim(p: nat, epoch: nat, now: nat)
      requires Valid() && AtPc(p, Attempted(epoch, now)) && now != 0 && claims + 1 < FLOOR
      ensures Inv(st) && Enabled(st, Claim(p)) && st.gate.pcs[p].now == now && Roomy(Now())
      ensures st.core.n == slot.Length == |Now().slot| && st.core.claims == claims == Now().claims
      ensures Older(Now().slot[SlotFor(slot.Length, claims + 1)].word, claims + 1)
    {
      hide Enabled;
      ClaimReady(st, p);
      PositiveSize(st);
      var i := SlotFor(st.core.n, claims + 1);
      ClaimIsNewest(st, i);
      hide Inv;
      assert slot[..][i] == st.core.lane[i].cell;
    }

    /** frm_xadd64(&frm_claims, 1) */
    method CountClaim(p: nat)
      requires Valid() && Enabled(st, Claim(p))
      modifies `st, `claims
      ensures Valid() && st == Do(old(st), Claim(p)) && Now() == old(Now()).(claims := old(Now()).claims + 1)
    {
      ClaimDoes(st, p);
      TakeWords(st.core, p, st.gate.pcs[p].now);
      hide Inv, Do, Take, Enabled;
      claims := claims + 1;
      RecordEntry(Claim(p));
    }

    /** The part of tipsy_frmstats_present that finds a time stamp. */
    method Stamp(p: nat, ghost epoch: nat, now_ns: nat, clock: nat) returns (now: nat)
      requires Valid() && AtPc(p, Entered(epoch))
      modifies this, slot, ahead
      ensures Valid() && now == (if now_ns != 0 then now_ns else clock)
      ensures AtPc(p, if now == 0 then Leaving(epoch) else Attempted(epoch, now))
      ensures claims + pace <= old(claims + pace) && pace <= old(pace)
      ensures pace == old(pace) ==>
        Now() == Stamped(old(Now()), now)
    {
      hide Inv, CoupledTo;
      CountAttempt(p, epoch, now_ns);
      now := now_ns;
      if now == 0 {
        OthersWhileAt(p, Attempted(epoch, 0));
        now := clock;
        TakeClock(p, epoch, clock);
      }
    }

    method CountAttempt(p: nat, ghost epoch: nat, now_ns: nat)
      requires Valid() && AtPc(p, Entered(epoch))
      modifies `st, `attempts
      ensures Valid() && AtPc(p, Attempted(epoch, now_ns))
      ensures Now() == old(Now()).(attempts := old(attempts) + 1)
    {
      hide Inv;
      attempts := attempts + 1;
      RecordEntry(Attempt(p, now_ns));
    }

    /** The clock's answer; a presenter left without a stamp counts as contended. */
    method TakeClock(p: nat, ghost epoch: nat, clock: nat)
      requires Valid() && AtPc(p, Attempted(epoch, 0))
      modifies `st, `contended
      ensures Valid() && AtPc(p, if clock == 0 then Leaving(epoch) else Attempted(epoch, clock))
      ensures Now() == old(Now()).(contended := if clock == 0 then old(contended) + 1 else old(contended))
    {
      hide Inv;
      if clock == 0 {
        contended := contended + 1;
      }
      RecordEntry(ReadClock(p, clock));
    }

    /** tipsy_frmstats_present, with the clock's answer as a parameter.  A presenter that
        takes a claim ends with it published or dropped (`decided` is the ring at that
        moment); one that takes none found recording off, was overtaken by a new epoch, or had
        neither a stamp nor a clock.  Undisturbed, a present on an armed ring with a stamp is
        published. */
    method Present(p: nat, now_ns: nat, clock: nat) returns (claim: nat, published: bool, ghost decided: State)
      requires Valid() && AtPc(p, Idle) && claims + pace + 1 < FLOOR
      modifies this, slot, ahead
      ensures Valid() && AtPc(p, Idle)
      ensures var now := if now_ns != 0 then now_ns else clock;
        if claim == 0 then !published && (!Recording(old(armed)) || old(armed) < armed || now == 0)
        else SettledIn(decided, claim, now, published)
      ensures pace <= old(pace) && Roomy(old(Now()))
      ensures pace == old(pace) && !Recording(old(armed)) ==> claim == 0 && Now() == old(Now())
      ensures pace == old(pace) && Recording(old(armed)) ==>
        var now := if now_ns != 0 then now_ns else clock;
        && Now() == Presented(old(Now()), now)
        && claim == (if now == 0 then 0 else old(Now()).claims + 1) && published == (now != 0)
    {
      hide Valid, Now, AtPc, Presented, Roomy, SettledIn, Recording, CountedIn, CountedOut;
      RingIsRoomy();
      InAndOut(Now(), if now_ns != 0 then now_ns else clock);
      claim, published, decided := 0, false, st;
      var entered, e := Enter(p);
      if entered {
        ghost var pc;
        claim, published, decided, pc := RecordPresent(p, e, now_ns, clock);
        GiveBack(p, pc);
      }
    }

    /** The part of tipsy_frmstats_present between frm_enter and frm_leave. */
    method RecordPresent(p: nat, ghost e: nat, now_ns: nat, clock: nat)
        returns (claim: nat, published: bool, ghost decided: State, ghost pc: Pc)
      requires Valid() && AtPc(p, Entered(e)) && claims + pace + 1 < FLOOR
      modifies this, slot, ahead
      ensures Valid() && AtPc(p, pc) && pc.Leaving?
      ensures var now := if now_ns != 0 then now_ns else clock;
        if claim == 0 then !published && now == 0 else SettledIn(decided, claim, now, published)
      ensures pace <= old(pace) && Roomy(old(Now()))
      ensures pace == old(pace) ==>
        var now := if now_ns != 0 then now_ns else clock;
        && Now() == Presented(old(Now()), now)
        && claim == (if now == 0 then 0 else old(Now()).claims + 1) && published == (now != 0)
    {
      hide Valid, Now, AtPc, SettledIn, Claimed;
      RingIsRoomy();
      claim, published, decided := 0, false, st;
      OthersWhileAt(p, Entered(e));
      var now := Stamp(p, e, now_ns, clock);
      if now == 0 {
        pc := Leaving(e);
        OthersWhileAt(p, pc);
      } else {
        claim, published, decided, pc := ClaimAndFill(p, e, now);
      }
    }

    lemma RingIsRoomy()
      requires Valid() && claims + 1 < FLOOR
      ensures Roomy(Now())
    {
      PositiveSize(st);
    }

    /** The part of tipsy_frmstats_present that takes a claim and fills it. */
    method ClaimAndFill(p: nat, ghost epoch: nat, now: nat)
        returns (claim: nat, published: bool, ghost decided: State, ghost pc: Pc)
      requires Valid() && AtPc(p, Attempted(epoch, now)) && now != 0 && claims + pace + 1 < FLOOR
      modifies this, slot, ahead
      ensures Valid() && AtPc(p, pc) && pc.Leaving? && claim != 0 && SettledIn(decided, claim, now, published)
      ensures pace <= old(pace) && Roomy(old(Now()))
      ensures pace == old(pace) ==>
        claim == old(Now()).claims + 1 && published && Now() == Claimed(old(Now()), now)
    {
      hide Valid, Now, SettledIn, InPhase, AtPc, Decided, Claimed;
      RingIsRoomy();
      OthersWhileAt(p, Attempted(epoch, now));
      claim, published := FillNewest(p, epoch, now);
      pc := IsSettled(p, claim, now, published);
      decided := st;
      OthersWhileAt(p, pc);
    }

    /** Takes a claim and fills it at once. */
    method FillNewest(p: nat, ghost epoch: nat, now: nat) returns (claim: nat, published: bool)
      requires Valid() && AtPc(p, Attempted(epoch, now)) && now != 0 && claims + 1 < FLOOR
      modifies this, slot, ahead
      ensures Valid() && claim != 0 && Decided(p, claim, now, if published then DonePublished else DoneDropped)
      ensures pace <= old(pace) && Roomy(old(Now()))
      ensures pace == old(pace) ==>
        claim == old(Now()).claims + 1 && published && Now() == Claimed(old(Now()), now)
    {
      hide Valid, InPhase, AtPc, Decided, Filled;
      var i;
      claim, i := TakeClaim(p, epoch, now);
      published := Fill(p, i, claim, now);
    }

    lemma IsSettled(p: nat, claim: nat, now: nat, published: bool) returns (pc: Pc)
      requires Valid() && Decided(p, claim, now, if published then DonePublished else DoneDropped)
      ensures SettledIn(st, claim, now, published) && AtPc(p, pc) && pc.Leaving?
    {
      pc := st.gate.pcs[p];
    }

    // ----------------------------------------------- under the control mutex

    /** Nothing changes the ring while the reader runs: no presenter is inside frm_fill,
        and either none can enter or none makes another step. */
    ghost predicate Quiet()
      reads `st, `pace
    {
      NoneFilling(st) && (Shut(st) || pace == 0)
    }

    /** The presenters run for a while before the holder of frm_control_mu goes on; callers
        know what ControlRelyRun shows. */
    method Presenters()
      requires Valid()
      modifies this, slot, ahead
      ensures Valid() && ControlRely(old(st), st)
      ensures pace <= old(pace) && (pace == old(pace) ==> st == old(st) && Now() == old(Now()))
      ensures slot.Length == ahead.Length == st.core.n
      ensures old(!st.control.Clearing?) ==> old(dropped) <= dropped
      ensures old(Quiet()) ==> Quiet() && st.core == old(st.core)
    {
      if !st.control.Clearing? {
        SameCaptureRefl(st.core);
      }
    }

    /** Records a step of the holder of frm_control_mu. */
    ghost method RecordControl(a: Action)
      requires Inv(st) && !IsPresenter(a) && Enabled(st, a)
      requires CoupledTo(Do(st, a).core, Do(st, a))
      modifies `st
      ensures Valid() && st == Do(old(st), a) && Now() == old(Now())
    {
      StepKeepsInv(st, a);
      st := Do(st, a);
    }

    /** Charges the sequences up to `through` that were not charged yet. */
    method ChargeWrap(after: nat, through: nat, ghost t: Tally)
      requires t.overwritten == overwritten && t.wrap == wrapThrough
      modifies `overwritten, `wrapThrough
      ensures overwritten == Charge(t, after, through).overwritten && wrapThrough == Charge(t, after, through).wrap
    {
      var accounted := if after > wrapThrough then after else wrapThrough;
      if through > accounted {
        overwritten := overwritten + (through - accounted);
        wrapThrough := through;
      }
    }

    /** Records a step of the reader, which changes no word of the ring. */
    ghost method RecordReader(a: Action)
      requires Valid() && (a.ScanAhead? || a.ReadSlot?) && Enabled(st, a)
      modifies `st
      ensures Valid() && st == (if a.ScanAhead? then DoScanAhead(old(st)) else DoReadSlot(old(st)))
      ensures Now() == old(Now())
    {
      hide Inv, Do, Enabled, DoScanAhead, DoReadSlot;
      StepKeepsInv(st, a);
      ReaderWords(st, a);
      st := if a.ScanAhead? then DoScanAhead(st) else DoReadSlot(st);
    }

    ghost method RecordBegin(after: nat, capacity: nat, t: Tally)
      requires Inv(st) && st.control.Free? && t == BeganTally(st, after, capacity)
      requires CoupledTo(st.core, st.(tally := t))
      modifies `st
      ensures Valid() && st == DoSnapBegin(old(st), after, capacity) && Now() == old(Now())
    {
      hide Inv, DoSnapBegin, BeganTally;
      StepKeepsInv(st, SnapBegin(after, capacity));
      SnapBeginIs(st, after, capacity);
      st := DoSnapBegin(st, after, capacity);
    }

    method FirstMark(claimed: nat, started: nat) returns (first: nat)
      ensures first == FirstMarked(slot.Length, claimed, started)
    {
      first := if claimed >= slot.Length then claimed - slot.Length + 1 else 1;
      if first < started {
        first := started;
      }
    }

    /** The window a snapshot reads, charging what the ring has wrapped past. */
    method OpenWindow(after: nat, claimed: nat, ghost t: Tally) returns (started: nat, first: nat)
      requires t.overwritten == overwritten && t.wrap == wrapThrough && after < claimed && slot.Length > 0
      modifies `overwritten, `wrapThrough
      ensures started == WindowStart(slot.Length, claimed, after) + 1
      ensures first == FirstMarked(slot.Length, claimed, started)
      ensures var u := if claimed > after + slot.Length then Charge(t, after, claimed - slot.Length) else t;
        overwritten == u.overwritten && wrapThrough == u.wrap && old(overwritten) <= overwritten
      ensures claimed == claims ==> Now() == Charged(old(Now()), after)
    {
      started := after + 1;
      if claimed > after + slot.Length {
        var oldest := claimed - slot.Length + 1;
        if after + 1 < oldest {
          ChargeWrap(after, oldest - 1, t);
          started := oldest;
        }
      }
      first := FirstMark(claimed, started);
    }

    /** frm_snapshot_locked up to the walk of the pending marks; `more` says whether
        there is a window to read. */
    method BeginSnapshot(after: nat, capacity: nat)
        returns (more: bool, claimed: nat, started: nat, first: nat, cursor: nat)
      requires Valid() && st.control.Free?
      modifies `st, `overwritten, `wrapThrough
      ensures Valid() && st == DoSnapBegin(old(st), after, capacity) && st.core == old(st.core)
      ensures claimed == claims && more == (capacity != 0 && after < claimed)
      ensures old(overwritten) <= overwritten && dropped == old(dropped) && Quiet() == old(Quiet())
      ensures Now() == if capacity == 0 then old(Now()) else Charged(old(Now()), after)
      ensures !more ==> cursor == if capacity == 0 then after else claimed
      ensures if more then st.control == Scanning(Snap(after, capacity, claimed, started, first, claimed, 0, []))
              else st.control.Free? && cursor == st.tally.cursor
      ensures more ==> started == WindowStart(slot.Length, claimed, after) + 1 && slot.Length == ahead.Length > 0
      ensures more ==> started <= first == FirstMarked(slot.Length, claimed, started) <= claimed
    {
      hide Inv, DoSnapBegin, Charge;
      PositiveSize(st);
      SnapBeginControl(st, after, capacity);
      claimed, started, first := claims, after + 1, 1;
      cursor := if capacity != 0 && claimed < after then claimed else after;
      more := capacity != 0 && after < claimed;
      ghost var t := BeganTally(st, after, capacity);
      if more {
        started, first := OpenWindow(after, claimed, st.tally);
      }
      RecordBegin(after, capacity, t);
    }

    /** One load of the walk over the pending marks. */
    method ScanOne(claimed: nat, q: nat, horizon: nat, ghost sn: Snap) returns (h: nat, mark: nat)
      requires Valid() && slot.Length > 0 && st.control == Scanning(sn) && sn.claims == claimed
      requires sn.next == q <= claimed
      requires sn.horizon == horizon && q > 0
      modifies `st
      ensures Valid() && st == old(st).(control := Scanning(sn.(next := q + 1, horizon := h)))
      ensures q <= claimed && slot.Length == ahead.Length && Now() == old(Now())
      ensures mark == ahead[SlotFor(slot.Length, q)]
      ensures h == if mark < claimed then Min(horizon, claimed - mark) else horizon
      ensures Quiet() == old(Quiet())
    {
      hide Inv;
      mark := ahead[SlotFor(slot.Length, q)];
      h := horizon;
      if mark < claimed {
        if claimed - mark < horizon {
          h := claimed - mark;
        }
      }
      RecordReader(ScanAhead);
    }

    /** The reader at rest finds no pending mark. */
    lemma QuietMarks()
      requires Valid() && Quiet() && !st.control.Clearing?
      ensures forall i | 0 <= i < ahead.Length :: ahead[i] == 0
    {
      QuietRing(st);
      assert forall i | 0 <= i < ahead.Length :: st.core.lane[i].ahead == ahead[i];
    }

    /** The walk of the pending marks: the last sequence the reader will look at. */
    method Horizon(claimed: nat, first: nat, ghost sn: Snap) returns (horizon: nat, ghost marks: seq<nat>)
      requires Valid() && st.control == Scanning(sn) && sn.claims == sn.horizon == claimed && sn.next == first > 0
      requires first <= claimed
      modifies this, slot, ahead
      ensures Valid() && st.tally == old(st.tally) && pace <= old(pace)
      ensures overwritten == old(overwritten) && wrapThrough == old(wrapThrough) && old(dropped) <= dropped
      ensures st.control == Scanning(sn.(next := claimed + 1, horizon := horizon))
      ensures IsHorizon(horizon, claimed, marks) && |marks| == claimed + 1 - first
      ensures pace == old(pace) ==> Now() == old(Now()) && MarksFrom(old(Now()), first, marks)
      ensures old(Quiet()) ==> Quiet() && st.core == old(st.core) && horizon == claimed
    {
      hide Inv, Quiet, SameCapture, IsHorizon;
      PositiveSize(st);
      horizon, marks := claimed, [];
      NoMarks(claimed);
      var q := first;
      while q <= claimed
        invariant Valid() && st.tally == old(st.tally) && q <= claimed + 1 && slot.Length > 0 && pace <= old(pace)
        invariant overwritten == old(overwritten) && wrapThrough == old(wrapThrough) && old(dropped) <= dropped
        invariant IsHorizon(horizon, claimed, marks) && |marks| == q - first
        invariant pace == old(pace) ==> Now() == old(Now()) && MarksFrom(old(Now()), first, marks)
        invariant st.control == Scanning(sn.(next := q, horizon := horizon))
        invariant old(Quiet()) ==> Quiet() && st.core == old(st.core) && horizon == claimed
      {
        var h, mark := NextMark(claimed, q, horizon, sn.(next := q, horizon := horizon));
        HorizonAdds(horizon, claimed, marks, mark);
        horizon, marks := h, marks + [mark];
        q := q + 1;
      }
    }

    /** One step of the walk, after the presenters have run. */
    method NextMark(claimed: nat, q: nat, horizon: nat, ghost sn: Snap) returns (h: nat, mark: nat)
      requires Valid() && slot.Length > 0 && st.control == Scanning(sn) && sn.claims == claimed
      requires sn.next == q <= claimed && sn.horizon == horizon && q > 0
      modifies this, slot, ahead
      ensures Valid() && st.tally == old(st.tally) && pace <= old(pace) && slot.Length == ahead.Length
      ensures overwritten == old(overwritten) && wrapThrough == old(wrapThrough) && old(dropped) <= dropped
      ensures st.control == Scanning(sn.(next := q + 1, horizon := h))
      ensures h == if mark < claimed then Min(horizon, claimed - mark) else horizon
      ensures pace == old(pace) ==> Now() == old(Now()) && mark == Now().ahead[SlotFor(slot.Length, q)]
      ensures old(Quiet()) ==> Quiet() && st.core == old(st.core) && mark == 0
    {
      hide Inv, Quiet, SameCapture;
      Presenters();
      if Quiet() {
        QuietMarks();
      }
      h, mark := ScanOne(claimed, q, horizon, sn);
    }

    lemma NoMarks(claimed: nat)
      ensures IsHorizon(claimed, claimed, [])
    {
    }

    /** One step of the copy: frmctl_read_slot of the next sequence. */
    method ReadOne(q: nat, ghost sn: Snap) returns (ns: nat)
      requires Valid() && slot.Length > 0 && st.control == Reading(sn) && q == sn.started + |sn.out|
      requires |sn.out| < sn.count
      requires sn.started > 0
      modifies `st
      ensures Valid()
      ensures st == if ns == 0 then Finish(old(st), sn) else old(st).(control := Reading(sn.(out := sn.out + [ns])))
      ensures Now() == old(Now()) && ns == Reads(Now(), q)
    {
      hide Inv, Finish;
      var cell := slot[SlotFor(slot.Length, q)];
      ns := if cell.word != q || cell.stamp == 0 then 0 else cell.stamp;
      RecordReader(ReadSlot);
    }

    /** One step of the copy, after the presenters have run. */
    method NextSample(q: nat, ghost sn: Snap) returns (ns: nat)
      requires Valid() && slot.Length > 0 && st.control == Reading(sn) && q == sn.started + |sn.out|
      requires |sn.out| < sn.count
      requires sn.started > 0
      modifies this, slot, ahead
      ensures Valid() && old(dropped) <= dropped && pace <= old(pace)
      ensures overwritten == old(overwritten) && wrapThrough == old(wrapThrough)
      ensures pace == old(pace) ==> Now() == old(Now()) && ns == Reads(old(Now()), q)
      ensures if ns == 0 then st.control.Free? && st.tally == HandBack(old(st.tally), sn.after, sn.started, sn.out)
              else st.control == Reading(sn.(out := sn.out + [ns])) && st.tally == old(st.tally)
      ensures old(Quiet()) && q <= old(claims) < q + slot.Length ==> Quiet() && st.core == old(st.core) && ns != 0
    {
      hide Inv, HandBack;
      ghost var full := Quiet() && q <= claims < q + slot.Length;
      Presenters();
      if full {
        QuietCells(q);
      }
      ns := ReadOne(q, sn);
    }

    /** The copy: stops at the first cell that does not hold exactly its sequence. */
    method Copy(started: nat, count: nat, out_ns: array<nat>, ghost sn: Snap, ghost full: bool) returns (written: nat)
      requires Valid() && st.control == Reading(sn) && sn.out == [] && sn.started == started > 0 && sn.count == count
      requires out_ns != ahead && count <= out_ns.Length && slot.Length > 0
      requires full ==> Quiet() && started + count <= claims + 1 && claims < started + slot.Length
      modifies this, slot, ahead, out_ns
      ensures Valid() && written <= count && old(dropped) <= dropped && pace <= old(pace)
      ensures overwritten == old(overwritten) && wrapThrough == old(wrapThrough)
      ensures pace == old(pace) ==> Now() == old(Now()) && IsRun(old(Now()), started, count, out_ns[..written])
      ensures st.control.Free? && st.tally == HandBack(old(st.tally), sn.after, started, out_ns[..written])
      ensures full ==> written == count && Quiet() && st.core == old(st.core)
    {
      hide Inv, HandBack, DoReadSlot, IsRun, RunsOn, Reads;
      ghost var w := Now();
      written := 0;
      assert out_ns[..0] == [];
      RunGrows(w, started, count, [], 0);
      while written < count
        invariant Valid() && written <= count && st.tally == old(st.tally) && pace <= old(pace)
        invariant overwritten == old(overwritten) && wrapThrough == old(wrapThrough) && old(dropped) <= dropped
        invariant pace == old(pace) ==> Now() == old(Now()) && RunsOn(old(Now()), started, out_ns[..written])
        invariant st.control == Reading(sn.(out := out_ns[..written]))
        invariant full ==> Quiet() && st.core == old(st.core)
      {
        ghost var out := out_ns[..written];
        var ns := NextSample(started + written, sn.(out := out));
        RunGrows(w, started, count, out, ns);
        if ns == 0 {
          return;
        }
        out_ns[written] := ns;
        written := written + 1;
        assert out_ns[..written] == out + [ns];
      }
      RunGrows(w, started, count, out_ns[..written], 0);
      FinishCopy();
    }

    ghost method FinishCopy()
      requires Valid() && st.control.Reading? && |st.control.snap.out| >= st.control.snap.count
      requires st.control.snap.started > 0 && slot.Length > 0
      modifies `st
      ensures Valid() && st == Finish(old(st), old(st.control.snap)) && Now() == old(Now())
    {
      FinishAtCount(st);
      hide Inv, Finish;
      RecordReader(ReadSlot);
    }

    /** The decision what to copy, once the horizon is known. */
    method DecideCount(started: nat, horizon: nat, capacity: nat, ghost sn: Snap) returns (count: nat)
      requires Valid() && slot.Length > 0 && st.control == Scanning(sn) && sn.claims < sn.next && sn.horizon == horizon
      requires sn.started == started > 0 && sn.cap == capacity
      modifies `st
      ensures Valid() && st.core == old(st.core) && Quiet() == old(Quiet())
      ensures count == Window(started, horizon, capacity) && Now() == old(Now())
      ensures if horizon < started then st.control.Free? && st.tally == old(st.tally).(cursor := sn.after)
              else st.control == Reading(sn.(count := count)) && st.tally == old(st.tally)
    {
      hide Inv;
      count := 0;
      if horizon >= started {
        count := horizon - started + 1;
        if count > capacity {
          count := capacity;
        }
      }
      RecordReader(ScanAhead);
    }

    /** What is left of a snapshot once the horizon is known. */
    method CopyWindow(after: nat, started: nat, horizon: nat, capacity: nat, out_ns: array<nat>, ghost sn: Snap,
        ghost full: bool)
        returns (written: nat, cursor: nat)
      requires Valid() && slot.Length > 0 && st.control == Scanning(sn) && sn.claims < sn.next && sn.horizon == horizon
      requires sn.after == after && sn.started == started > 0 && sn.cap == capacity && sn.out == []
      requires out_ns != ahead && capacity <= out_ns.Length
      requires full ==> Quiet() && started <= claims == horizon < started + slot.Length
      modifies this, slot, ahead, out_ns
      ensures Valid() && st.control.Free? && written <= Window(started, horizon, capacity) && pace <= old(pace)
      ensures overwritten == old(overwritten) && wrapThrough == old(wrapThrough) && old(dropped) <= dropped
      ensures pace == old(pace) ==>
        && Now() == old(Now())
        && IsRun(old(Now()), started, Window(started, horizon, capacity), out_ns[..written])
      ensures cursor == st.tally.cursor == (if written == 0 then after else started + written - 1)
      ensures written != 0 ==> Recorded(st.tally, cursor - written, out_ns[..written])
      ensures full ==> written == Min(capacity, old(claims) + 1 - started) && Quiet() && st.core == old(st.core)
    {
      hide Inv, Quiet, HandBack, Recorded;
      written, cursor := 0, after;
      var count := DecideCount(started, horizon, capacity, sn);
      if horizon >= started {
        ghost var t := st.tally;
        written := Copy(started, count, out_ns, st.control.snap, full);
        HandBackRecords(t, after, started, out_ns[..written]);
        if written != 0 {
          cursor := started + written - 1;
        }
      }
    }

    /** frm_overwritten_total, after the presenters have run: wrapped ranges and late claims. */
    method OverwrittenTotal() returns (lost: nat)
      requires Valid() && st.control.Free?
      modifies this, slot, ahead
      ensures Valid() && st.control.Free? && st.tally == old(st.tally)
      ensures lost == overwritten + dropped && old(dropped) <= dropped && pace <= old(pace)
      ensures overwritten == old(overwritten) && wrapThrough == old(wrapThrough)
      ensures pace == old(pace) ==> Now() == old(Now())
      ensures old(Quiet()) ==> st.core == old(st.core)
    {
      Presenters();
      lost := overwritten + dropped;
    }

    /** The window of a snapshot: the walk of the pending marks, then the copy. */
    method ReadWindow(after: nat, claimed: nat, started: nat, first: nat, capacity: nat, out_ns: array<nat>,
        ghost sn: Snap, ghost full: bool)
        returns (written: nat, cursor: nat, ghost horizon: nat, ghost marks: seq<nat>)
      requires Valid() && slot.Length > 0 && out_ns != ahead && capacity <= out_ns.Length
      requires st.control == Scanning(sn) && sn == Snap(after, capacity, claimed, started, first, claimed, 0, [])
      requires 0 < started <= first <= claimed
      requires full ==> Quiet() && claimed == claims < started + slot.Length
      modifies this, slot, ahead, out_ns
      ensures Valid() && st.control.Free? && written <= capacity && pace <= old(pace)
      ensures overwritten == old(overwritten) && wrapThrough == old(wrapThrough) && old(dropped) <= dropped
      ensures cursor == st.tally.cursor == (if written == 0 then after else started + written - 1)
      ensures written != 0 ==> Recorded(st.tally, cursor - written, out_ns[..written])
      ensures IsHorizon(horizon, claimed, marks) && |marks| == claimed + 1 - first
      ensures written != 0 ==> cursor <= horizon
      ensures pace == old(pace) ==>
        && Now() == old(Now()) && MarksFrom(old(Now()), first, marks)
        && IsRun(old(Now()), started, Window(started, horizon, capacity), out_ns[..written])
      ensures full ==> written == Min(capacity, old(claims) + 1 - started) && Quiet() && st.core == old(st.core)
    {
      hide Inv, Quiet, Recorded, IsHorizon, MarksFrom, IsRun;
      var h;
      h, marks := Horizon(claimed, first, sn);
      written, cursor := CopyWindow(after, started, h, capacity, out_ns, st.control.snap, full);
      horizon := h;
    }

    /** tipsy_frmstats_snapshot, with the presenters running between its loads.

        Every value handed back is the stamp of its own sequence, and the sequences are
        the `written` ones that end at the cursor.  For a reader that always passes back
        its cursor, samples returned and wrapped sequences charged add up to its
        position.  The loss reported is no less than at any earlier moment of the capture.
        When no presenter makes a step meanwhile, the snapshot is complete even with some of
        them inside frm_fill: it returns the published sequences after `after` without a gap,
        up to the horizon of the pending marks and up to capacity; and when no presenter is
        inside and none comes in, these are all the retained ones. */
    method Snapshot(after: nat, out_ns: array<nat>, capacity: nat)
        returns (written: nat, cursor: nat, lost: nat, ghost horizon: nat, ghost marks: seq<nat>)
      requires Valid() && st.control.Free? && out_ns != ahead && capacity <= out_ns.Length
      modifies this, slot, ahead, out_ns
      ensures Valid() && st.control.Free? && written <= capacity && cursor == st.tally.cursor
      ensures lost == overwritten + dropped && old(overwritten) <= overwritten && old(dropped) <= dropped
      ensures written != 0 ==> written <= cursor && Exact(st.core, cursor - written, out_ns[..written])
      ensures st.tally.threaded ==> st.tally.total + overwritten == Position(st.tally)
      ensures capacity == 0 || old(claims) <= after ==>
        written == 0 && cursor == if capacity == 0 then after else old(claims)
      ensures capacity != 0 && after < old(claims) ==>
        && cursor == (if written == 0 then after else WindowStart(slot.Length, old(claims), after) + written)
        && IsHorizon(horizon, old(claims), marks) && (written != 0 ==> cursor <= horizon)
      ensures var w := if capacity == 0 then old(Now()) else Charged(old(Now()), after);
        && overwritten == w.overwritten && wrapThrough == w.wrapThrough
        && (pace == old(pace) ==> Now() == w)
      ensures pace == old(pace) && capacity != 0 && after < old(claims) ==>
        Complete(old(Now()), after, capacity, horizon, marks, out_ns[..written])
      ensures old(Quiet()) && after <= old(claims) ==>
        && st.core == old(st.core)
        && written == Min(capacity, claims - WindowStart(slot.Length, claims, after))
        && cursor == if written == 0 then after else WindowStart(slot.Length, claims, after) + written
    {
      hide Inv, Quiet, Exact, Position, Recorded, IsHorizon, MarksFrom, IsRun, Charged;
      ghost var w := Now();
      ghost var full := Quiet() && after < claims;
      written, horizon, marks := 0, 0, [];
      var more, claimed, started, first;
      more, claimed, started, first, cursor := BeginSnapshot(after, capacity);
      if more {
        written, cursor, horizon, marks :=
          ReadWindow(after, claimed, started, first, capacity, out_ns, st.control.snap, full);
        ghost var count := Window(started, horizon, capacity);
        ChargeKeepsSlots(w, after, first, marks, started, count, out_ns[..written]);
      }
      lost := OverwrittenTotal();
      ReaderBalance(st);
      if written != 0 {
        RecordedIsExact(st, cursor - written, out_ns[..written]);
      }
    }

    /** At rest every sequence of the retained window is still in its slot. */
    lemma QuietCells(q: nat)
      requires Valid() && Quiet() && !st.control.Clearing? && 0 < q <= claims < q + slot.Length
      ensures slot[SlotFor(slot.Length, q)].word == q && slot[SlotFor(slot.Length, q)].stamp != 0
    {
      QuietRing(st);
      RetainedIsPublished(st.core, q);
      assert st.core.lane[SlotFor(slot.Length, q)].cell == slot[SlotFor(slot.Length, q)];
    }

    /** The store of frm_disarm: an odd epoch becomes even, so nobody else is admitted. */
    method Disarm(ghost goal: Goal)
      requires Valid() && st.control.Free?
      modifies `st, `armed
      ensures Valid() && st.control == Draining(goal) && !Recording(armed) && Now() == Disarmed(old(Now()))
      ensures armed == Disarmed(old(Now())).armed
    {
      hide Inv;
      if armed % 2 == 1 {
        armed := armed + 1;
      }
      RecordControl(Action.Disarm(goal));
    }

    /** `spins` rounds of the wait of frm_disarm for the presenters in flight. */
    method Drain(spins: nat, ghost goal: Goal) returns (done: bool)
      requires Valid() && st.control == Draining(goal) && !Recording(armed)
      modifies this, slot, ahead
      ensures Valid() && st.control == if !done then Draining(goal) else if goal.StopOnly? then Free
        else Clearing(goal, 0)
      ensures armed == old(armed) && done == (inflight == 0) && (done ==> Shut(st))
      ensures pace == old(pace) && old(inflight) == 0 ==> done
      ensures pace <= old(pace) && (pace == old(pace) ==> Now() == old(Now()))
    {
      hide Inv;
      Presenters();
      done := inflight == 0;
      var k := 0;
      while !done && k < spins
        invariant Valid() && armed == old(armed) && st.control == Draining(goal) && done == (inflight == 0)
        invariant pace <= old(pace) && (pace == old(pace) ==> Now() == old(Now()))
      {
        Presenters();
        done := inflight == 0;
        k := k + 1;
      }
      if done {
        DrainedAlone(st);
        RecordControl(Drained);
      }
    }

    /** The clearing loop and the counters of frm_reset_locked, with presenters still
        trying to enter meanwhile: the ring comes out as empty as a new one. */
    method ResetLocked(ghost goal: Goal)
      requires Valid() && st.control == Clearing(goal, 0) && !goal.StopOnly?
      modifies this, slot, ahead
      ensures Valid() && st.control == (if goal.Arm? then Arming else Free) && st.tally == FreshTally()
      ensures Now() == Cleared(Now()) && armed == old(armed)
      ensures pace <= old(pace) && (pace == old(pace) ==> Now() == Cleared(old(Now())))
    {
      hide Inv;
      var i := 0;
      while i < slot.Length
        invariant Valid() && armed == old(armed) && i <= slot.Length && st.control == Clearing(goal, i)
        invariant pace <= old(pace) && (pace == old(pace) ==> inflight == old(inflight))
      {
        Presenters();
        ClearSlotAt(i, goal);
        i := i + 1;
      }
      Presenters();
      ClearCountersNow(goal);
    }

    method ClearCountersNow(ghost goal: Goal)
      requires Valid() && st.control == Clearing(goal, slot.Length) && !goal.StopOnly?
      modifies `st, `contended, `dropped, `overwritten, `wrapThrough, `attempts, `claims
      ensures Valid() && st.control == (if goal.Arm? then Arming else Free) && st.tally == FreshTally()
      ensures Now() == Cleared(Now())
    {
      hide Inv;
      ClearedLanes(st);
      contended, dropped, overwritten, wrapThrough, attempts, claims := 0, 0, 0, 0, 0, 0;
      RecordControl(ClearCounters);
      forall j | 0 <= j < slot.Length ensures slot[j] == Cell(INVALID, 0) && ahead[j] == 0 {
        assert st.core.lane[j] == EmptyLane();
      }
      assert slot[..] == seq(|slot[..]|, _ => Cell(INVALID, 0)) && ahead[..] == seq(|ahead[..]|, _ => 0);
    }

    method ClearSlotAt(i: nat, ghost goal: Goal)
      requires Valid() && st.control == Clearing(goal, i) && i < slot.Length
      modifies `st, slot, ahead
      ensures Valid() && st.control == Clearing(goal, i + 1) && armed == old(armed)
    {
      hide Inv;
      slot[i] := Cell(INVALID, 0);
      ahead[i] := 0;
      RecordControl(ClearSlot);
    }

    /** tipsy_frmstats_set_armed, giving up after `spins` rounds of waiting: it gives up only
        while a presenter is in flight.  Disarmed, the epoch is even and no presenter is inside;
        armed, the epoch is odd and the reader starts afresh.  Undisturbed, arming leaves an
        empty ring, disarming one whose words are as before, and the cursor is the number of
        claims. */
    method SetArmed(arm: bool, spins: nat) returns (ok: bool, cursor: nat)
      requires Valid() && st.control.Free?
      modifies this, slot, ahead
      ensures Valid() && cursor == claims && pace <= old(pace)
      ensures if ok then st.control.Free? else inflight != 0 && st.control == Draining(if arm then Arm else StopOnly)
      ensures pace == old(pace) && old(inflight) == 0 ==> ok
      ensures var e := Disarmed(old(Now())).armed;
        armed == (if ok && arm then e + 1 else e) && Recording(armed) == (ok && arm)
      ensures ok && arm ==> st.gate.capture == armed && st.tally == FreshTally()
      ensures ok && !arm ==> Shut(st)
      ensures pace == old(pace) ==> Now() == if ok && arm then Rearmed(old(Now())) else Disarmed(old(Now()))
    {
      ghost var goal := if arm then Arm else StopOnly;
      hide Valid, Now, Disarmed, Cleared;
      Disarm(goal);
      ok := Drain(spins, goal);
      cursor := claims;
      if ok && arm {
        ResetLocked(goal);
        StoreArmed();
      }
      if ok {
        cursor := LoadClaims();
      }
    }

    /** The store that opens a new capture. */
    method StoreArmed()
      requires Valid() && st.control.Arming?
      modifies this, slot, ahead
      ensures Valid() && st.control.Free? && st.tally == old(st.tally) && st.gate.capture == armed
      ensures armed == old(armed) + 1 && !Recording(old(armed)) && Recording(armed)
      ensures pace <= old(pace) && (pace == old(pace) ==> Now() == old(Now()).(armed := old(Now()).armed + 1))
    {
      ArmingIsEven(st);
      hide Inv, SameCapture;
      Presenters();
      armed := armed + 1;
      RecordControl(ArmStore);
    }

    /** The load of frm_claims, after the presenters have run. */
    method LoadClaims() returns (cursor: nat)
      requires Valid()
      modifies this, slot, ahead
      ensures Valid() && cursor == claims && armed == old(armed) && st.gate.capture == old(st.gate.capture)
      ensures st.control == old(st.control) && st.tally == old(st.tally)
      ensures pace <= old(pace) && (pace == old(pace) ==> Now() == old(Now()))
      ensures old(Shut(st)) ==> Shut(st)
    {
      hide Inv, SameCapture;
      Presenters();
      cursor := claims;
    }
  }

  lemma DrainedAlone(s: State)
    requires Inv(s) && s.gate.inflight == 0
    ensures forall q {:trigger s.gate.pcs[q]} | 0 <= q < |s.gate.pcs| :: !Confirmed(s.gate.pcs[q])
  {
    forall q {:trigger s.gate.pcs[q]} | 0 <= q < |s.gate.pcs| ensures !Confirmed(s.gate.pcs[q]) {
      NoneConfirmed(s.gate, q);
    }
  }

  lemma ClearedLanes(s: State)
    requires Inv(s) && s.control.Clearing?
    ensures forall i | 0 <= i < s.control.next :: s.core.lane[i] == EmptyLane()
  {
  }

  lemma ArmingIsEven(s: State)
    requires Inv(s) && s.control.Arming?
    ensures s.gate.armed % 2 == 0
  {
  }

  lemma FinishAtCount(s: State)
    requires Enabled(s, ReadSlot) && |s.control.snap.out| >= s.control.snap.count
    ensures DoReadSlot(s) == Finish(s, s.control.snap)
  {
  }

  /** `out` is what the claims after `base` published, in order. */
  ghost predicate Exact(k: Core, base: nat, out: seq<nat>) {
    Shape(k) && Samples(Fills(k), base + 1, out)
  }

  /** `out` is recorded as returned for the sequences after `base`. */
  ghost predicate Recorded(t: Tally, base: nat, out: seq<nat>) {
    forall k | 0 <= k < |out| :: base + 1 + k in t.samples && t.samples[base + 1 + k] == out[k]
  }

  lemma HandBackRecords(t: Tally, after: nat, started: nat, out: seq<nat>)
    requires started > 0
    ensures var u := HandBack(t, after, started, out);
      Recorded(u, started - 1, out) && u.cursor == if out == [] then after else started + |out| - 1
  {
  }

  /** What the reader was given is what the claims of those numbers published. */
  lemma RecordedIsExact(s: State, base: nat, out: seq<nat>)
    requires Inv(s) && s.control.Free? && Recorded(s.tally, base, out)
    ensures Exact(s.core, base, out)
  {
  }

  /** The reader's balance in any state of the system. */
  lemma ReaderBalance(s: State)
    requires Inv(s) && s.control.Free?
    ensures s.tally.threaded ==> s.tally.total + s.tally.overwritten == Position(s.tally)
  {
    if s.tally.threaded { BalanceAdds(s.tally); }
  }

  lemma ReaderWords(s: State, a: Action)
    requires (a.ScanAhead? || a.ReadSlot?) && Enabled(s, a)
    ensures var t := Do(s, a);
      && t == (if a.ScanAhead? then DoScanAhead(s) else DoReadSlot(s))
      && t.core == s.core && t.gate == s.gate && t.attempts == s.attempts && t.contended == s.contended
      && t.tally.overwritten == s.tally.overwritten && t.tally.wrap == s.tally.wrap
  {
  }

  /** What a snapshot decides before its first load of a pending mark. */
  lemma SnapBeginControl(s: State, after: nat, cap: nat)
    ensures var t := DoSnapBegin(s, after, cap);
      var n, claims := s.core.n, s.core.claims;
      && t.core == s.core && t.gate == s.gate
      && if cap == 0 || claims <= after
           then t.control == s.control && t.tally.cursor == (if cap == 0 then after else claims)
         else var started := WindowStart(n, claims, after) + 1;
              t.control == Scanning(Snap(after, cap, claims, started,
                Max(if claims >= n then claims - n + 1 else 1, started), claims, 0, []))
  {
  }

  /** The words a snapshot starts by changing. */
  ghost function BeganTally(s: State, after: nat, cap: nat): Tally {
    if cap != 0 && s.core.claims > after + s.core.n then Charge(s.tally, after, s.core.claims - s.core.n) else s.tally
  }

  lemma SnapBeginIs(s: State, after: nat, cap: nat)
    ensures var t := DoSnapBegin(s, after, cap);
      && t == s.(tally := t.tally, control := t.control)
      && t.tally.overwritten == BeganTally(s, after, cap).overwritten
      && t.tally.wrap == BeganTally(s, after, cap).wrap
  {
  }

  /** The sequence before the oldest one a reader at `after` can still be given. */
  function WindowStart(n: nat, claims: nat, after: nat): nat {
    if claims > after + n then claims - n else after
  }

  lemma PositiveSize(s: State)
    requires Inv(s)
    ensures s.core.n > 0 && |s.core.lane| == s.core.n
  {
  }
}
