/** What holds over every run of the ring, for any number of presenters and any
    ring size. */
module RingTheorems {
  import opened RingCore
  import opened RingProtocol
  import opened RingSafety

  lemma StepKeepsInv(s: State, a: Action)
    requires Inv(s) && Enabled(s, a)
    ensures Inv(Do(s, a))
  {
    hide Inv, Do;
    match a
    case Claim(p) => ClaimKeepsInv(s, p);
    case FillStep(p) => FillKeepsInv(s, p);
    case Disarm(goal) => DisarmKeepsInv(s, goal);
    case Drained => DrainedKeepsInv(s);
    case ClearSlot => ClearSlotKeepsInv(s);
    case ClearCounters => ClearCountersKeepsInv(s);
    case ArmStore => ArmKeepsInv(s);
    case SnapBegin(after, cap) => SnapBeginKeepsInv(s, after, cap);
    case ScanAhead => ScanKeepsInv(s);
    case ReadSlot => ReadKeepsInv(s);
    case _ => EntryKeepsInv(s, a);
  }

  lemma InitInv(n: nat, presenters: nat)
    requires n > 0
    ensures Inv(Init(n, presenters))
  {
    var s := Init(n, presenters);
    EmptyCore(s.core);
    assert RegisteredSet(s.gate.pcs) == {} && UndecidedSet(s.gate.pcs) == {};
  }

  /** The actions `trace` lead from `s` to `t`. */
  ghost predicate Run(s: State, trace: seq<Action>, t: State)
    decreases |trace|
  {
    if trace == [] then s == t
    else Enabled(s, trace[0]) && Run(Do(s, trace[0]), trace[1..], t)
  }

  lemma {:induction false} RunKeepsInv(s: State, trace: seq<Action>, t: State)
    requires Inv(s) && Run(s, trace, t)
    ensures Inv(t)
    decreases |trace|
  {
    hide Inv, Do, Stale, Enabled;
    if trace == [] {
    } else {
      StepKeepsInv(s, trace[0]);
      RunKeepsInv(Do(s, trace[0]), trace[1..], t);
    }
  }

  // -------------------------------------------------------------- the reader

  /** Every snapshot of the run passes back the cursor the last one returned. */
  ghost predicate Threads(s: State, trace: seq<Action>)
    decreases |trace|
  {
    trace == [] ||
    (Enabled(s, trace[0]) && (trace[0].SnapBegin? ==> trace[0].after == s.tally.cursor)
     && Threads(Do(s, trace[0]), trace[1..]))
  }

  lemma {:induction false} ThreadsStays(s: State, trace: seq<Action>, t: State)
    requires Run(s, trace, t) && Threads(s, trace) && s.tally.threaded
    ensures t.tally.threaded
    decreases |trace|
  {
    if trace == [] {
    } else {
      ThreadsStays(Do(s, trace[0]), trace[1..], t);
    }
  }

  /** Reader conservation: whatever the presenters do, after every snapshot the samples
      returned and the wrapped sequences charged together are exactly the sequences up
      to the reader's position, each of them once, and every value returned is the stamp
      its own sequence published. */
  lemma ReaderConserves(n: nat, presenters: nat, trace: seq<Action>, t: State)
    requires n > 0 && Run(Init(n, presenters), trace, t) && Threads(Init(n, presenters), trace)
    requires t.control.Free?
    ensures t.tally.total + t.tally.overwritten == Max(t.tally.cursor, t.tally.wrap)
    ensures forall q: nat :: 0 < q <= Max(t.tally.cursor, t.tally.wrap) <==>
      q in t.tally.samples || q in t.tally.charged
    ensures forall q: nat :: !(q in t.tally.samples && q in t.tally.charged)
    ensures t.tally.total == |t.tally.samples| && t.tally.overwritten == |t.tally.charged|
    ensures Shape(t.core) && forall q | q in t.tally.samples ::
      q in Fills(t.core) && t.tally.samples[q] == Fills(t.core)[q].stamp
  {
    InitInv(n, presenters);
    RunKeepsInv(Init(n, presenters), trace, t);
    ThreadsStays(Init(n, presenters), trace, t);
    BalanceAdds(t.tally);
  }

  lemma BalanceAdds(t: Tally)
    requires Balanced(t)
    ensures t.total + t.overwritten == Position(t)
    ensures forall q: nat :: 0 < q <= Position(t) <==> q in t.samples || q in t.charged
    ensures forall q: nat :: !(q in t.samples && q in t.charged)
  {
    RangeSize(0, Position(t));
    assert forall q: nat :: q in t.samples.Keys + t.charged <==> q in Range(0, Position(t));
  }

  /** The value tipsy_frmstats_snapshot reports as lost. */
  function Loss(s: State): nat { s.tally.overwritten + s.core.dropped }

  lemma LossStep(s: State, a: Action)
    requires Enabled(s, a) && !a.ClearCounters?
    ensures s.tally.overwritten <= Do(s, a).tally.overwritten && s.core.dropped <= Do(s, a).core.dropped
  {
  }

  /** The reported loss never goes down within a capture, whichever threads run. */
  lemma {:induction false} LossNeverFalls(s: State, trace: seq<Action>, t: State)
    requires Run(s, trace, t) && ClearCounters !in trace
    ensures s.tally.overwritten <= t.tally.overwritten && s.core.dropped <= t.core.dropped && Loss(s) <= Loss(t)
    decreases |trace|
  {
    hide Do, Enabled;
    if trace == [] {
    } else {
      LossStep(s, trace[0]);
      LossNeverFalls(Do(s, trace[0]), trace[1..], t);
    }
  }

  /** Dropped claims that lie in a wrapped range as well. */
  function LostTwice(gone: set<nat>, t: Tally): set<nat> {
    set c | c in gone && c <= Position(t)
  }

  lemma GoneIsNoSample(s: State, c: nat)
    requires Inv(s) && !s.control.Clearing? && c in s.core.gone
    ensures c > 0 && c !in s.tally.samples
  {
    assert c in Fills(s.core);
    assert c in s.tally.samples ==> Sample(Fills(s.core), c, s.tally.samples[c]);
  }

  lemma ChargedAtPosition(gone: set<nat>, t: Tally)
    requires Balanced(t) && forall c | c in gone :: c > 0 && c !in t.samples
    ensures forall c | c in gone :: c in t.charged <==> c in LostTwice(gone, t)
  {
    BalanceAdds(t);
    hide Balanced, Position;
  }

  lemma OverlapIs(a: set<nat>, b: set<nat>, both: set<nat>)
    requires both <= a && forall c | c in a :: c in b <==> c in both
    ensures a * b == both && |a + b| + |both| == |a| + |b|
  {
    assert a * b == both;
  }

  /** What the reported loss counts: every sequence that was wrapped past or dropped, none of
      them ever a sample, and once more each dropped one at or below the reader's position. */
  lemma LossCounts(s: State)
    requires Inv(s) && !s.control.Clearing? && s.tally.threaded
    ensures s.tally.overwritten == |s.tally.charged| && s.core.dropped == |s.core.gone|
    ensures forall c | c in s.core.gone || c in s.tally.charged :: c !in s.tally.samples
    ensures s.core.gone * s.tally.charged == LostTwice(s.core.gone, s.tally)
    ensures Loss(s) == |s.core.gone + s.tally.charged| + |LostTwice(s.core.gone, s.tally)|
  {
    forall c | c in s.core.gone ensures c > 0 && c !in s.tally.samples { GoneIsNoSample(s, c); }
    BalanceAdds(s.tally);
    ChargedAtPosition(s.core.gone, s.tally);
    assert s.core.dropped == |s.core.gone|;
    hide Inv, Position, Balanced;
    OverlapIs(s.core.gone, s.tally.charged, LostTwice(s.core.gone, s.tally));
  }

  // ------------------------------------------------------------ capture isolation

  /** A presenter that claims or writes belongs to the capture armed last, and no
      confirmed presenter exists while the ring is being cleared. */
  lemma CaptureIsolated(s: State, a: Action)
    requires Inv(s) && Enabled(s, a)
    ensures a.Claim? || a.FillStep? ==>
      && s.gate.pcs[a.p].epoch == s.gate.capture
      && (s.gate.armed == s.gate.capture || s.gate.armed == s.gate.capture + 1)
      && !s.control.Clearing? && !s.control.Arming?
    ensures a.ClearSlot? || a.ClearCounters? ==>
      forall p {:trigger s.gate.pcs[p]} | 0 <= p < |s.gate.pcs| :: !Confirmed(s.gate.pcs[p])
  {
    if a.Claim? || a.FillStep? {
      assert PcOk(s.gate, s.control, s.gate.pcs[a.p]);
    }
    if a.ClearSlot? || a.ClearCounters? {
      forall p {:trigger s.gate.pcs[p]} | 0 <= p < |s.gate.pcs| ensures !Confirmed(s.gate.pcs[p]) {
        assert PcOk(s.gate, s.control, s.gate.pcs[p]);
      }
    }
  }

  /** The presenter read the epoch of a capture that is over, or is not presenting. */
  ghost predicate Stale(s: State, p: nat) {
    && p < |s.gate.pcs|
    && var pc := s.gate.pcs[p]; pc.Idle? || (!Confirmed(pc) && pc.epoch < s.gate.capture)
  }

  lemma StaleWhilePresenting(s: State, a: Action, p: nat)
    requires Inv(s) && Enabled(s, a) && Stale(s, p) && a != SeeEpoch(p) && IsPresenter(a)
    ensures a != Claim(p) && a != FillStep(p) && Stale(Do(s, a), p)
  {
    assert PcOk(s.gate, s.control, s.gate.pcs[p]);
    hide Inv, Take, Advance, Shape, CanAdvance;
    if a.p != p {
      assert Do(s, a).gate.pcs[p] == s.gate.pcs[p];
    }
  }

  lemma ControlKeepsPcs(s: State, a: Action)
    requires Enabled(s, a) && !IsPresenter(a)
    ensures Do(s, a).gate.pcs == s.gate.pcs
    ensures Do(s, a).gate.capture == if a.ArmStore? then s.gate.armed + 1 else s.gate.capture
  {
  }

  lemma StaleWhileControlled(s: State, a: Action, p: nat)
    requires Inv(s) && Enabled(s, a) && Stale(s, p) && !IsPresenter(a)
    ensures Stale(Do(s, a), p)
  {
    assert PcOk(s.gate, s.control, s.gate.pcs[p]);
    ControlKeepsPcs(s, a);
    hide Inv, Do, Enabled;
  }

  lemma StaleStep(s: State, a: Action, p: nat)
    requires Inv(s) && Enabled(s, a) && Stale(s, p) && a != SeeEpoch(p)
    ensures a != Claim(p) && a != FillStep(p) && Stale(Do(s, a), p)
  {
    hide Inv, Do, Stale, Enabled;
    if IsPresenter(a) { StaleWhilePresenting(s, a, p); } else { StaleWhileControlled(s, a, p); }
  }

  /** However long it was paused, a presenter that read an older capture's epoch never
      claims or writes in a later one. */
  lemma {:induction false} StaleNeverWrites(s: State, trace: seq<Action>, t: State, p: nat)
    requires Inv(s) && Run(s, trace, t) && Stale(s, p) && SeeEpoch(p) !in trace
    ensures Claim(p) !in trace && FillStep(p) !in trace
    decreases |trace|
  {
    hide Inv, Do, Stale, Enabled;
    if trace == [] {
    } else {
      StaleStep(s, trace[0], p);
      StepKeepsInv(s, trace[0]);
      StaleNeverWrites(Do(s, trace[0]), trace[1..], t, p);
      assert trace == [trace[0]] + trace[1..];
    }
  }

  // ------------------------------------------------------------------ conservation

  /** No attempt and no claim is ever lost from the counters. */
  lemma CountersConserved(s: State)
    requires Inv(s) && !s.control.Clearing?
    ensures s.attempts == s.core.claims + s.contended + |UndecidedSet(s.gate.pcs)|
    ensures s.core.claims == |PublishedClaims(Fills(s.core))| + s.core.dropped + |OpenClaims(Fills(s.core))|
    ensures forall c | c in s.core.gone :: c + s.core.n <= s.core.claims
  {
    ClaimsConserved(s.core);
    forall c | c in s.core.gone ensures c + s.core.n <= s.core.claims {
      DroppedIsWrapped(s.core, c);
    }
  }

  ghost predicate NoneFilling(s: State) {
    forall p {:trigger s.gate.pcs[p]} | 0 <= p < |s.gate.pcs| :: !s.gate.pcs[p].Filling?
  }

  /** With no presenter inside frm_fill every claim is decided and every pending mark
      is zero, so nothing holds the reader's window back. */
  lemma QuietRing(s: State)
    requires Inv(s) && !s.control.Clearing? && NoneFilling(s)
    ensures AllDone(s.core)
    ensures forall i | 0 <= i < s.core.n :: s.core.lane[i].ahead == 0
  {
    var fills := Fills(s.core);
    forall c | c in s.core.home ensures Done(fills[c].phase) {
      assert c in fills;
    }
    forall i | 0 <= i < s.core.n ensures s.core.lane[i].ahead == 0 {
      MarksAtRest(s.core, i);
    }
  }

  /** Quiescent completeness: with no presenter inside frm_fill each of the last N claims is
      in its slot under its own number and with its own stamp, and no mark holds the reader
      back, so a window that ends at the claim counter is read without a gap. */
  lemma QuietWindow(s: State, q: nat)
    requires Inv(s) && !s.control.Clearing? && NoneFilling(s) && 0 < q <= s.core.claims < q + s.core.n
    ensures Shape(s.core) && q in s.core.home
    ensures s.core.lane[SlotFor(s.core.n, q)].cell == Cell(q, Fills(s.core)[q].stamp) && Fills(s.core)[q].stamp != 0
    ensures s.core.lane[SlotFor(s.core.n, q)].ahead == 0
  {
    QuietRing(s);
    RetainedIsPublished(s.core, q);
  }
}
