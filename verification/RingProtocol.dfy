/** The frame-time ring as a transition system: any number of presenters, the arming
    and reset code, and the reader, interleaved one atomic step at a time. */
module RingProtocol {
  import opened RingCore

  /** Where a presenter is in tipsy_frmstats_present; `epoch` is the armed word it read. */
  datatype Pc =
    | Idle
    | Saw(epoch: nat)                  // read an odd epoch
    | Counted(epoch: nat)              // frm_inflight incremented, epoch not re-read yet
    | Refused(epoch: nat)              // epoch changed; inflight to be given back
    | Entered(epoch: nat)
    | Attempted(epoch: nat, now: nat)  // frm_attempts incremented
    | Filling(epoch: nat, claim: nat)
    | Leaving(epoch: nat)

  /** frm_armed and frm_inflight, with the presenters' program counters and the epoch of
      the capture that was armed last. */
  datatype Gate = Gate(armed: nat, inflight: nat, pcs: seq<Pc>, capture: nat)

  datatype Goal = StopOnly | ResetOnly | Arm

  datatype Snap = Snap(after: nat, cap: nat, claims: nat, started: nat, next: nat, horizon: nat,
                       count: nat, out: seq<nat>)

  /** What the holder of frm_control_mu is doing. */
  datatype Control =
    | Free
    | Draining(goal: Goal)
    | Clearing(goal: Goal, next: nat)
    | Arming
    | Scanning(snap: Snap)
    | Reading(snap: Snap)

  /** frm_overwritten and frm_wrap_through, and the record of one reader: the cursor it
      was last given, the number of samples returned to it and their values, the wrapped
      sequences charged, and whether it has passed back every cursor it was given. */
  datatype Tally = Tally(overwritten: nat, wrap: nat, cursor: nat, total: nat,
                         samples: map<nat, nat>, charged: set<nat>, threaded: bool)

  datatype State = State(gate: Gate, core: Core, attempts: nat, contended: nat, control: Control, tally: Tally)

  datatype Action =
    | SeeEpoch(p: nat) | Register(p: nat) | Confirm(p: nat) | Retreat(p: nat)
    | Attempt(p: nat, now: nat) | ReadClock(p: nat, clock: nat)
    | Claim(p: nat) | FillStep(p: nat) | Leave(p: nat)
    | Disarm(goal: Goal) | Drained | ClearSlot | ClearCounters | ArmStore
    | SnapBegin(after: nat, cap: nat) | ScanAhead | ReadSlot

  // ------------------------------------------------------------------ transitions

  function At(s: State, p: nat, pc: Pc): State
    requires p < |s.gate.pcs|
  {
    s.(gate := s.gate.(pcs := s.gate.pcs[p := pc]))
  }

  predicate PresenterReady(s: State, a: Action)
    requires IsPresenter(a)
  {
    && a.p < |s.gate.pcs|
    && var pc := s.gate.pcs[a.p];
       match a
       case SeeEpoch(_) => pc.Idle?
       case Register(_) => pc.Saw?
       case Confirm(_) => pc.Counted?
       case Retreat(_) => pc.Refused? && s.gate.inflight > 0
       case Attempt(_, _) => pc.Entered?
       case ReadClock(_, _) => pc.Attempted? && pc.now == 0
       case Claim(_) => pc.Attempted? && pc.now != 0 && s.core.claims + 1 < FLOOR && s.core.n > 0 &&
           |s.core.lane| == s.core.n
       case FillStep(_) => pc.Filling? && CanAdvance(s.core, pc.claim)
       case Leave(_) => pc.Leaving? && s.gate.inflight > 0
  }

  predicate IsPresenter(a: Action) {
    a.SeeEpoch? || a.Register? || a.Confirm? || a.Retreat? || a.Attempt? || a.ReadClock? || a.Claim? || a.FillStep? ||
        a.Leave?
  }

  predicate Enabled(s: State, a: Action) {
    if IsPresenter(a) then PresenterReady(s, a)
    else match a
      case Disarm(_) => s.control.Free?
      case Drained => s.control.Draining? && s.gate.inflight == 0
      case ClearSlot => s.control.Clearing? && s.control.next < |s.core.lane|
      case ClearCounters => s.control.Clearing? && s.control.next == |s.core.lane|
      case ArmStore => s.control.Arming?
      case SnapBegin(_, _) => s.control.Free?
      case ScanAhead => s.control.Scanning? && s.core.n > 0 && |s.core.lane| == s.core.n && s.control.snap.next > 0
      case ReadSlot => s.control.Reading? && s.core.n > 0 && |s.core.lane| == s.core.n
                       && s.control.snap.started > 0
  }

  function DoConfirm(s: State, p: nat): State
    requires p < |s.gate.pcs| && s.gate.pcs[p].Counted?
  {
    var e := s.gate.pcs[p].epoch;
    At(s, p, if s.gate.armed != e then Refused(e) else Entered(e))
  }

  function DoReadClock(s: State, p: nat, clock: nat): State
    requires p < |s.gate.pcs| && s.gate.pcs[p].Attempted?
  {
    var e := s.gate.pcs[p].epoch;
    if clock == 0 then At(s, p, Leaving(e)).(contended := s.contended + 1)
    else At(s, p, Attempted(e, clock))
  }

  function DoClaim(s: State, p: nat): State
    requires p < |s.gate.pcs| && s.gate.pcs[p].Attempted? && s.core.n > 0 && |s.core.lane| == s.core.n
  {
    var pc := s.gate.pcs[p];
    At(s, p, Filling(pc.epoch, s.core.claims + 1)).(core := Take(s.core, p, pc.now))
  }

  function DoFill(s: State, p: nat): State
    requires p < |s.gate.pcs| && s.gate.pcs[p].Filling? && CanAdvance(s.core, s.gate.pcs[p].claim)
  {
    var pc := s.gate.pcs[p];
    var k := Advance(s.core, pc.claim);
    var i := s.core.home[pc.claim];
    var done := Done(k.lane[i].fill[pc.claim].phase);
    At(s, p, if done then Leaving(pc.epoch) else pc).(core := k)
  }

  function DoPresenter(s: State, a: Action): State
    requires IsPresenter(a) && PresenterReady(s, a)
  {
    var p := a.p;
    var g := s.gate;
    match a
    case SeeEpoch(_) => if g.armed % 2 == 0 then s else At(s, p, Saw(g.armed))
    case Register(_) => At(s.(gate := g.(inflight := g.inflight + 1)), p, Counted(g.pcs[p].epoch))
    case Confirm(_) => DoConfirm(s, p)
    case Retreat(_) => At(s.(gate := g.(inflight := g.inflight - 1)), p, Idle)
    case Attempt(_, now) => At(s, p, Attempted(g.pcs[p].epoch, now)).(attempts := s.attempts + 1)
    case ReadClock(_, clock) => DoReadClock(s, p, clock)
    case Claim(_) => DoClaim(s, p)
    case FillStep(_) => DoFill(s, p)
    case Leave(_) => At(s.(gate := g.(inflight := g.inflight - 1)), p, Idle)
  }

  function Max(a: nat, b: nat): nat { if a < b then b else a }
  function Min(a: nat, b: nat): nat { if a < b then a else b }

  function FreshTally(): Tally { Tally(0, 0, 0, 0, map[], {}, true) }

  /** frm_snapshot_locked up to its walk of the pending marks. */
  function DoSnapBegin(s: State, after: nat, cap: nat): State {
    var n, claims := s.core.n, s.core.claims;
    var t := s.tally.(threaded := s.tally.threaded && after == s.tally.cursor);
    if cap == 0 || claims == after then s.(tally := t.(cursor := after))
    else if claims < after then s.(tally := t.(cursor := claims))
    else
      var wrapped := claims > after + n;
      var started := if wrapped then claims - n + 1 else after + 1;
      var first := Max(if claims >= n then claims - n + 1 else 1, started);
      s.(tally := if wrapped then Charge(t, after, claims - n) else t,
         control := Scanning(Snap(after, cap, claims, started, first, claims, 0, [])))
  }

  /** The ring wrapped past the cursor up to `through`: charge what was not charged yet. */
  function Charge(t: Tally, after: nat, through: nat): Tally {
    var accounted := Max(after, t.wrap);
    if through <= accounted then t
    else t.(overwritten := t.overwritten + (through - accounted), wrap := through,
            charged := t.charged + Range(accounted, through))
  }

  /** The end of a snapshot: the cursor names only the samples handed back. */
  function Finish(s: State, snap: Snap): State
    requires snap.started > 0
  {
    s.(control := Free, tally := HandBack(s.tally, snap.after, snap.started, snap.out))
  }

  function HandBack(t: Tally, after: nat, started: nat, out: seq<nat>): Tally
    requires started > 0
  {
    var w := |out|;
    t.(cursor := if w != 0 then started + w - 1 else after,
       total := t.total + w,
       samples := AddSamples(t.samples, started, out))
  }

  /** Records `out` as the values returned for the sequences from `started` on. */
  function AddSamples(samples: map<nat, nat>, started: nat, out: seq<nat>): map<nat, nat>
    requires started > 0
  {
    var added := Range(started - 1, started - 1 + |out|);
    samples + map q | q in added :: out[q - started]
  }

  /** One pending mark of the window, or the decision what to read after the last. */
  function DoScanAhead(s: State): State
    requires Enabled(s, ScanAhead)
  {
    var sn := s.control.snap;
    if sn.next <= sn.claims then
      var ahead := s.core.lane[SlotFor(s.core.n, sn.next)].ahead;
      var h := if ahead < sn.claims then Min(sn.horizon, sn.claims - ahead) else sn.horizon;
      s.(control := Scanning(sn.(next := sn.next + 1, horizon := h)))
    else if sn.horizon < sn.started then
      s.(control := Free, tally := s.tally.(cursor := sn.after))
    else
      s.(control := Reading(sn.(count := Min(sn.horizon - sn.started + 1, sn.cap))))
  }

  /** One cell of the window; the walk stops at the first cell that does not hold
      exactly its sequence. */
  function DoReadSlot(s: State): State
    requires Enabled(s, ReadSlot)
  {
    var sn := s.control.snap;
    var q := sn.started + |sn.out|;
    if |sn.out| >= sn.count then Finish(s, sn)
    else
      var cell := s.core.lane[SlotFor(s.core.n, q)].cell;
      if cell.word != q || cell.stamp == 0 then Finish(s, sn)
      else s.(control := Reading(sn.(out := sn.out + [cell.stamp])))
  }

  function Do(s: State, a: Action): State
    requires Enabled(s, a)
  {
    if IsPresenter(a) then DoPresenter(s, a)
    else match a
      case Disarm(goal) =>
        var g := s.gate;
        s.(control := Draining(goal), gate := g.(armed := if g.armed % 2 == 1 then g.armed + 1 else g.armed))
      case Drained =>
        s.(control := if s.control.goal.StopOnly? then Free else Clearing(s.control.goal, 0))
      case ClearSlot =>
        var i := s.control.next;
        s.(core := s.core.(lane := s.core.lane[i := EmptyLane()]), control := s.control.(next := i + 1))
      case ClearCounters =>
        s.(core := Core(s.core.n, 0, 0, s.core.lane, map[], {}), attempts := 0, contended := 0,
           tally := FreshTally(), control := if s.control.goal.Arm? then Arming else Free)
      case ArmStore =>
        s.(gate := s.gate.(armed := s.gate.armed + 1, capture := s.gate.armed + 1), control := Free)
      case SnapBegin(after, cap) => DoSnapBegin(s, after, cap)
      case ScanAhead => DoScanAhead(s)
      case ReadSlot => DoReadSlot(s)
  }

  /** Zero-initialised memory: nothing armed and no slot ever cleared. */
  function Init(n: nat, presenters: nat): State
    requires n > 0
  {
    State(Gate(0, 0, seq(presenters, _ => Idle), 0),
          Core(n, 0, 0, seq(n, _ => Lane(Cell(0, 0), 0, map[], {}, map[])), map[], {}),
          0, 0, Free, FreshTally())
  }

  // -------------------------------------------------------------------- invariant

  predicate Confirmed(pc: Pc) { pc.Entered? || pc.Attempted? || pc.Filling? || pc.Leaving? }
  predicate Registered(pc: Pc) { Confirmed(pc) || pc.Counted? || pc.Refused? }

  function RegisteredSet(pcs: seq<Pc>): set<nat> { set p | 0 <= p < |pcs| && Registered(pcs[p]) }
  /** Presenters that have counted their attempt and neither claimed nor given up. */
  function UndecidedSet(pcs: seq<Pc>): set<nat> { set p | 0 <= p < |pcs| && pcs[p].Attempted? }

  ghost predicate PcOk(g: Gate, control: Control, pc: Pc) {
    && (!pc.Idle? ==> pc.epoch % 2 == 1 && pc.epoch <= g.armed)
    && (Confirmed(pc) ==>
         && pc.epoch == g.capture
         && !control.Clearing? && !control.Arming?
         && (g.armed == g.capture || (control.Draining? && g.armed == g.capture + 1)))
  }

  ghost predicate GateInv(g: Gate, control: Control) {
    && g.inflight == |RegisteredSet(g.pcs)|
    && (g.armed % 2 == 1 ==> g.armed == g.capture && !control.Draining? && !control.Clearing? && !control.Arming?)
    && (forall p {:trigger g.pcs[p]} | 0 <= p < |g.pcs| :: PcOk(g, control, g.pcs[p]))
  }

  /** Every unfinished claim is being filled by exactly the presenter that took it. */
  ghost predicate OwnersOk(pcs: seq<Pc>, fills: map<nat, Fill>) {
    && (forall c {:trigger fills[c]} | c in fills && !Done(fills[c].phase) ::
          fills[c].owner < |pcs| && pcs[fills[c].owner].Filling? && pcs[fills[c].owner].claim == c)
    && (forall p {:trigger pcs[p]} | 0 <= p < |pcs| && pcs[p].Filling? ::
          pcs[p].claim in fills && fills[pcs[p].claim].owner == p && !Done(fills[pcs[p].claim].phase))
  }

  /** `ns` is what claim `q` published. */
  ghost predicate Sample(fills: map<nat, Fill>, q: nat, ns: nat) {
    q in fills && fills[q].stamp == ns && Shown(fills[q].phase)
  }

  /** `out` is what the claims from `started` on published, in order. */
  ghost predicate Samples(fills: map<nat, Fill>, started: nat, out: seq<nat>) {
    forall k | 0 <= k < |out| :: Sample(fills, started + k, out[k])
  }

  /** The reader's position: it has accounted for every sequence up to here. */
  function Position(t: Tally): nat { Max(t.cursor, t.wrap) }

  /** Samples returned and sequences charged are together those up to the position. */
  ghost predicate Balanced(t: Tally) {
    && t.samples.Keys + t.charged == Range(0, Position(t))
    && t.samples.Keys !! t.charged
    && t.total == |t.samples|
    && t.overwritten == |t.charged|
  }

  ghost predicate TallyInv(t: Tally, n: nat, claims: nat, fills: map<nat, Fill>) {
    && t.wrap <= claims && (t.wrap == 0 || t.wrap + n <= claims)
    && (forall q | q in t.samples :: Sample(fills, q, t.samples[q]))
    && (t.threaded ==> t.cursor <= claims && Balanced(t))
  }

  ghost predicate SnapOk(sn: Snap, t: Tally, claims: nat, fills: map<nat, Fill>) {
    && sn.after < sn.started <= sn.claims <= claims
    && sn.next > 0 && sn.horizon <= sn.claims
    && (t.threaded ==> sn.after == t.cursor && sn.started == Position(t) + 1)
    && sn.started + |sn.out| <= sn.claims + 1
    && Samples(fills, sn.started, sn.out)
  }

  ghost predicate ControlInv(control: Control, t: Tally, claims: nat, fills: map<nat, Fill>) {
    match control
    case Scanning(sn) => SnapOk(sn, t, claims, fills) && sn.out == []
    case Reading(sn) => SnapOk(sn, t, claims, fills) && |sn.out| <= sn.count && sn.started + sn.count <= sn.claims + 1
    case _ => true
  }

  ghost predicate LiveInv(s: State) {
    && CoreInv(s.core)
    && HomesOk(s.core)
    && OwnersOk(s.gate.pcs, Fills(s.core))
    && s.attempts == s.core.claims + s.contended + |UndecidedSet(s.gate.pcs)|
    && TallyInv(s.tally, s.core.n, s.core.claims, Fills(s.core))
    && ControlInv(s.control, s.tally, s.core.claims, Fills(s.core))
  }

  ghost predicate ClearInv(s: State) {
    && s.core.n > 0 && |s.core.lane| == s.core.n
    && s.control.Clearing? && s.control.next <= s.core.n
    && (forall i | 0 <= i < s.control.next :: s.core.lane[i] == EmptyLane())
  }

  ghost predicate Inv(s: State) {
    && GateInv(s.gate, s.control)
    && if s.control.Clearing? then ClearInv(s) else LiveInv(s)
  }
}
