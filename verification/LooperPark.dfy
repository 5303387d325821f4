/** Parking a thread that owns a looper on a condition variable, and waking it through the
    looper: the owner, any number of signalling threads and everybody else who uses the
    mutexes and condition variables, one step at a time. */
module LooperPark {
  import opened Options

  type Cond = nat
  type Mutex = nat

  const EINVAL := 22

  datatype Park = Park(cond: Cond, mutex: Mutex)

  /** The fields of ALooper under its own lock. */
  datatype Looper = Looper(pendingWake: bool, looperWoke: bool, parked: Option<Park>)

  predicate Flagged(l: Looper) { l.pendingWake || l.looperWoke }

  /** The locked part of looper_signal_parked: what the caller has to broadcast. */
  function Signal(l: Looper): (Looper, Option<Park>) {
    if l.parked.None? then (l.(pendingWake := true), None) else (l.(looperWoke := true), l.parked)
  }

  /** looper_arm_cond: true when a wake was waiting and has been taken. */
  function Arm(l: Looper, p: Park): (Looper, bool) {
    if Flagged(l) then (Looper(false, false, None), true) else (l.(parked := Some(p)), false)
  }

  /** looper_disarm_cond: true when a wake came while parked. */
  function Disarm(l: Looper): (Looper, bool) { (Looper(false, false, None), Flagged(l)) }

  /** The owner in tipsy_pthread_cond_wait. */
  datatype Owner =
    | Running(held: Option<Mutex>)
    | Entering(p: Park)      // holds the mutex, about to arm
    | Armed(p: Park)         // holds the mutex, about to block
    | Asleep(p: Park)        // blocked in pthread_cond_wait
    | Woken(p: Park)         // unblocked, about to take the mutex again
    | Back(p: Park)          // holds the mutex, about to disarm
    | Draining(p: Park)      // holds the mutex, about to poll without it
    | Polling(p: Park)       // about to begin the nested poll
    | Polled(p: Park)        // the poll has begun; about to take the mutex again

  /** A thread in looper_signal_parked. */
  datatype Signaller = Idle | Captured(p: Park) | Locked(p: Park) | Broadcasted(p: Park)

  datatype Holder = TheOwner | ASignaller(i: nat) | Other

  /** `unserved`: a wake was signalled and the owner has not begun a nested poll since. */
  datatype State = State(
    looper: Looper, owner: Owner, signallers: seq<Signaller>, holders: map<Mutex, Holder>, unserved: bool)

  function Init(signallers: nat): State {
    State(Looper(false, false, None), Running(None), seq(signallers, _ => Idle), map[], false)
  }

  datatype Action =
    | OwnerLocks(m: Mutex) | OwnerUnlocks | CallWait(c: Cond) | DoArm | Block | Spurious | Retake | DoDisarm
    | Unlock | Poll | Relock
    | DoSignal(i: nat) | SignalLocks(i: nat) | DoBroadcast(i: nat) | SignalUnlocks(i: nat)
    | OtherLocks(m: Mutex) | OtherUnlocks(m: Mutex) | OtherBroadcasts(c: Cond)

  predicate Enabled(s: State, a: Action) {
    match a
    case OwnerLocks(m) => s.owner == Running(None) && m !in s.holders
    case OwnerUnlocks => s.owner.Running? && s.owner.held.Some?
    case CallWait(_) => s.owner.Running? && s.owner.held.Some?
    case DoArm => s.owner.Entering?
    case Block => s.owner.Armed?
    case Spurious => s.owner.Asleep?
    case Retake => s.owner.Woken? && s.owner.p.mutex !in s.holders
    case DoDisarm => s.owner.Back?
    case Unlock => s.owner.Draining?
    case Poll => s.owner.Polling?
    case Relock => s.owner.Polled? && s.owner.p.mutex !in s.holders
    case DoSignal(i) => i < |s.signallers| && s.signallers[i].Idle?
    case SignalLocks(i) => i < |s.signallers| && s.signallers[i].Captured? && s.signallers[i].p.mutex !in s.holders
    case DoBroadcast(i) => i < |s.signallers| && s.signallers[i].Locked?
    case SignalUnlocks(i) => i < |s.signallers| && s.signallers[i].Broadcasted?
    case OtherLocks(m) => m !in s.holders
    case OtherUnlocks(m) => m in s.holders && s.holders[m] == Other
    case OtherBroadcasts(_) => true
  }

  /** Everybody asleep on `c` is unblocked. */
  function Broadcast(o: Owner, c: Cond): Owner {
    if o.Asleep? && o.p.cond == c then Woken(o.p) else o
  }

  function Take(s: State, m: Mutex, h: Holder): map<Mutex, Holder> { s.holders[m := h] }

  function Free(s: State, m: Mutex): map<Mutex, Holder> { s.holders - {m} }

  function Do(s: State, a: Action): State
    requires Enabled(s, a)
  {
    match a
    case OwnerLocks(m) => s.(owner := Running(Some(m)), holders := Take(s, m, TheOwner))
    case OwnerUnlocks => s.(owner := Running(None), holders := Free(s, s.owner.held.value))
    case CallWait(c) => s.(owner := Entering(Park(c, s.owner.held.value)))
    case DoArm =>
      var (l, pending) := Arm(s.looper, s.owner.p);
      s.(looper := l, owner := if pending then Draining(s.owner.p) else Armed(s.owner.p))
    case Block => s.(owner := Asleep(s.owner.p), holders := Free(s, s.owner.p.mutex))
    case Spurious => s.(owner := Woken(s.owner.p))
    case Retake => s.(owner := Back(s.owner.p), holders := Take(s, s.owner.p.mutex, TheOwner))
    case DoDisarm =>
      var (l, woke) := Disarm(s.looper);
      s.(looper := l, owner := if woke then Draining(s.owner.p) else Running(Some(s.owner.p.mutex)))
    case Unlock => s.(owner := Polling(s.owner.p), holders := Free(s, s.owner.p.mutex))
    case Poll => s.(owner := Polled(s.owner.p), unserved := false)
    case Relock => s.(owner := Running(Some(s.owner.p.mutex)), holders := Take(s, s.owner.p.mutex, TheOwner))
    case DoSignal(i) =>
      var (l, p) := Signal(s.looper);
      s.(looper := l, signallers := s.signallers[i := if p.Some? then Captured(p.value) else Idle], unserved := true)
    case SignalLocks(i) =>
      var p := s.signallers[i].p;
      s.(signallers := s.signallers[i := Locked(p)], holders := Take(s, p.mutex, ASignaller(i)))
    case DoBroadcast(i) =>
      var p := s.signallers[i].p;
      s.(signallers := s.signallers[i := Broadcasted(p)], owner := Broadcast(s.owner, p.cond))
    case SignalUnlocks(i) =>
      s.(signallers := s.signallers[i := Idle], holders := Free(s, s.signallers[i].p.mutex))
    case OtherLocks(m) => s.(holders := Take(s, m, Other))
    case OtherUnlocks(m) => s.(holders := Free(s, m))
    case OtherBroadcasts(c) => s.(owner := Broadcast(s.owner, c))
  }

  // ------------------------------------------------------------------ invariant

  /** The park the owner has published. */
  function ParkOf(o: Owner): Option<Park> {
    if o.Armed? || o.Asleep? || o.Woken? || o.Back? then Some(o.p) else None
  }

  /** The mutex a thread holds. */
  function OwnerHolds(o: Owner): Option<Mutex> {
    match o
    case Running(held) => held
    case Entering(p) => Some(p.mutex)
    case Armed(p) => Some(p.mutex)
    case Back(p) => Some(p.mutex)
    case Draining(p) => Some(p.mutex)
    case _ => None
  }

  function SignallerHolds(t: Signaller): Option<Mutex> { if t.Locked? || t.Broadcasted? then Some(t.p.mutex) else None }

  ghost predicate OwnerLock(s: State) {
    var m := OwnerHolds(s.owner);
    m.Some? ==> m.value in s.holders && s.holders[m.value] == TheOwner
  }

  ghost predicate SignallerLock(s: State, i: nat)
    requires i < |s.signallers|
  {
    var m := SignallerHolds(s.signallers[i]);
    m.Some? ==> m.value in s.holders && s.holders[m.value] == ASignaller(i)
  }

  ghost predicate HolderOk(s: State, m: Mutex)
    requires m in s.holders
  {
    match s.holders[m]
    case TheOwner => OwnerHolds(s.owner) == Some(m)
    case ASignaller(i) => i < |s.signallers| && SignallerHolds(s.signallers[i]) == Some(m)
    case Other => true
  }

  ghost predicate MutexesOk(s: State) {
    && OwnerLock(s)
    && (forall i {:trigger SignallerLock(s, i)} | 0 <= i < |s.signallers| :: SignallerLock(s, i))
    && (forall m {:trigger HolderOk(s, m)} | m in s.holders :: HolderOk(s, m))
  }

  ghost predicate FlagsOk(s: State) {
    && s.looper.parked == ParkOf(s.owner)
    && (s.looper.parked.Some? ==> !s.looper.pendingWake)
    && (s.looper.parked.None? ==> !s.looper.looperWoke)
    && (s.unserved ==> Flagged(s.looper) || s.owner.Draining? || s.owner.Polling?)
  }

  /** Signaller `i` captured `p` and has not broadcast it yet. */
  predicate StillToBroadcast(s: State, i: nat, p: Park) {
    i < |s.signallers| && (s.signallers[i] == Captured(p) || s.signallers[i] == Locked(p))
  }

  ghost predicate WakeOk(s: State) {
    (s.owner.Armed? || s.owner.Asleep?) && Flagged(s.looper) ==> exists i :: StillToBroadcast(s, i, s.owner.p)
  }

  ghost predicate Inv(s: State) { MutexesOk(s) && FlagsOk(s) && WakeOk(s) }

  predicate BySignaller(a: Action) { a.DoSignal? || a.SignalLocks? || a.DoBroadcast? || a.SignalUnlocks? }

  /** The lock a signaller's step takes or gives up is its own. */
  lemma SignallerMutexes(s: State, a: Action)
    requires MutexesOk(s) && Enabled(s, a) && BySignaller(a)
    ensures MutexesOk(Do(s, a))
  {
    var t := Do(s, a);
    assert SignallerLock(s, a.i);
    forall i {:trigger SignallerLock(t, i)} | 0 <= i < |t.signallers| ensures SignallerLock(t, i) {
      assert SignallerLock(s, i);
    }
    forall m {:trigger HolderOk(t, m)} | m in t.holders ensures HolderOk(t, m) {
      assert m in s.holders ==> HolderOk(s, m);
    }
    hide Signal;
  }

  lemma OwnerMutexes(s: State, a: Action)
    requires MutexesOk(s) && Enabled(s, a) && !BySignaller(a)
    ensures MutexesOk(Do(s, a))
  {
    var t := Do(s, a);
    assert t.signallers == s.signallers;
    hide Arm, Disarm;
    forall i {:trigger SignallerLock(t, i)} | 0 <= i < |t.signallers| ensures SignallerLock(t, i) {
      assert SignallerLock(s, i);
    }
    forall m {:trigger HolderOk(t, m)} | m in t.holders ensures HolderOk(t, m) {
      assert m in s.holders ==> HolderOk(s, m);
    }
  }

  lemma MutexesKept(s: State, a: Action)
    requires MutexesOk(s) && Enabled(s, a)
    ensures MutexesOk(Do(s, a))
  {
    hide MutexesOk, Do, Enabled;
    if BySignaller(a) { SignallerMutexes(s, a); } else { OwnerMutexes(s, a); }
  }

  lemma FlagsKept(s: State, a: Action)
    requires FlagsOk(s) && Enabled(s, a)
    ensures FlagsOk(Do(s, a))
  {
  }

  /** The step that matters: a signaller that took the park of an armed owner cannot
      broadcast before the owner sleeps, because the owner still holds the mutex. */
  lemma WakeKept(s: State, a: Action)
    requires Inv(s) && Enabled(s, a)
    ensures WakeOk(Do(s, a))
  {
    var t := Do(s, a);
    if (t.owner.Armed? || t.owner.Asleep?) && Flagged(t.looper) {
      var p := t.owner.p;
      if BySignaller(a) { assert SignallerLock(s, a.i); }
      if a.DoSignal? {
        assert StillToBroadcast(t, a.i, p);
      } else {
        var i :| StillToBroadcast(s, i, p);
        assert StillToBroadcast(t, i, p);
      }
    }
  }

  lemma StepKeepsInv(s: State, a: Action)
    requires Inv(s) && Enabled(s, a)
    ensures Inv(Do(s, a))
  {
    MutexesKept(s, a);
    FlagsKept(s, a);
    WakeKept(s, a);
  }

  lemma InitInv(signallers: nat)
    ensures Inv(Init(signallers))
  {
  }

  ghost predicate Run(s: State, trace: seq<Action>, t: State)
    decreases |trace|
  {
    if trace == [] then s == t else Enabled(s, trace[0]) && Run(Do(s, trace[0]), trace[1..], t)
  }

  lemma {:induction false} RunKeepsInv(s: State, trace: seq<Action>, t: State)
    requires Inv(s) && Run(s, trace, t)
    ensures Inv(t)
    decreases |trace|
  {
    if trace == [] {
    } else {
      hide Inv, Do;
      StepKeepsInv(s, trace[0]);
      RunKeepsInv(Do(s, trace[0]), trace[1..], t);
    }
  }

  // ------------------------------------------------------------------- theorems

  /** No lost wake: while the owner sleeps on its armed condition variable with a wake
      flagged, some signaller that captured that condition variable and mutex has still to
      broadcast. */
  lemma NoLostWake(signallers: nat, trace: seq<Action>, s: State) returns (i: nat)
    requires Run(Init(signallers), trace, s) && s.owner.Asleep? && Flagged(s.looper)
    ensures StillToBroadcast(s, i, s.owner.p)
  {
    InitInv(signallers);
    RunKeepsInv(Init(signallers), trace, s);
    i :| StillToBroadcast(s, i, s.owner.p);
  }

  /** Once all signallers are done a wake that the owner has not served yet keeps it from
      blocking: it is awake, and the next thing it does with its looper is to poll. */
  lemma QuietOwnerIsAwake(signallers: nat, trace: seq<Action>, s: State)
    requires Run(Init(signallers), trace, s) && forall i | 0 <= i < |s.signallers| :: s.signallers[i].Idle?
    ensures s.unserved || Flagged(s.looper) ==> !s.owner.Asleep? && !s.owner.Armed?
    ensures s.unserved && s.owner.Entering? ==> Do(s, DoArm).owner.Draining?
    ensures s.unserved && s.owner.Back? ==> Do(s, DoDisarm).owner.Draining?
  {
    InitInv(signallers);
    RunKeepsInv(Init(signallers), trace, s);
  }

  /** A wake is not dropped: it stays flagged until a nested poll that takes it up begins. */
  lemma WakeIsKeptUntilPoll(signallers: nat, trace: seq<Action>, s: State, a: Action)
    requires Run(Init(signallers), trace, s) && s.unserved && Enabled(s, a) && a != Poll
    ensures var t := Do(s, a); t.unserved && (Flagged(t.looper) || t.owner.Draining? || t.owner.Polling?)
  {
    InitInv(signallers);
    RunKeepsInv(Init(signallers), trace, s);
    FlagsKept(s, a);
  }

  /** Nobody holds a mutex that its holder would need the sleeping owner for: what keeps a
      signaller from broadcasting is another signaller about to finish, or an outsider.  A
      signaller is taken not to hold the parked mutex already when it signals. */
  lemma SignallersNeverWaitForSleeper(signallers: nat, trace: seq<Action>, s: State, i: nat)
    requires Run(Init(signallers), trace, s) && s.owner.Asleep? && StillToBroadcast(s, i, s.owner.p)
    ensures
      || Enabled(s, SignalLocks(i)) || Enabled(s, DoBroadcast(i))
      || (s.owner.p.mutex in s.holders &&
          match s.holders[s.owner.p.mutex]
          case TheOwner => false
          case ASignaller(j) => Enabled(s, DoBroadcast(j)) || Enabled(s, SignalUnlocks(j))
          case Other => Enabled(s, OtherUnlocks(s.owner.p.mutex)))
  {
    InitInv(signallers);
    RunKeepsInv(Init(signallers), trace, s);
    hide Run;
    if s.owner.p.mutex in s.holders { assert HolderOk(s, s.owner.p.mutex); }
  }

  // -------------------------------------------------------------------- progress

  /** The owner is in tipsy_pthread_cond_wait and has not begun its nested poll. */
  predicate Parking(o: Owner) { !o.Running? && !o.Polled? }

  /** How far the holder of `m` is from giving it up. */
  function HeldFor(s: State, m: Mutex): nat {
    if m !in s.holders then 0
    else if s.holders[m].ASignaller? && s.holders[m].i < |s.signallers| && s.signallers[s.holders[m].i].Locked? then 2
    else 1
  }

  ghost predicate Broadcasting(s: State, p: Park) {
    exists i: nat :: i < |s.signallers| && s.signallers[i] == Locked(p)
  }

  /** How far the owner is from polling: first by where it is, then by who keeps its mutex. */
  function Stage(o: Owner): nat {
    match o
    case Armed(_) => 7
    case Asleep(_) => 6
    case Woken(_) => 5
    case Back(_) => 4
    case Entering(_) => 3
    case Draining(_) => 2
    case Polling(_) => 1
    case _ => 0
  }

  ghost function Delay(s: State): nat {
    if s.owner.Asleep? then if Broadcasting(s, s.owner.p) then 0 else 1 + HeldFor(s, s.owner.p.mutex)
    else if s.owner.Woken? then HeldFor(s, s.owner.p.mutex)
    else 0
  }

  /** The steps of a run that wakes nobody spuriously, signals nothing new and takes no mutex
      from outside. */
  predicate Onward(a: Action) {
    !a.Spurious? && !a.DoSignal? && !a.OtherLocks? && !a.OtherBroadcasts? && !a.OwnerLocks? && !a.CallWait?
  }

  /** The step that lets go of a mutex that is held while its owner is not running with it. */
  lemma HolderLetsGo(s: State, m: Mutex) returns (a: Action)
    requires MutexesOk(s) && m in s.holders && s.holders[m] != TheOwner
    ensures Enabled(s, a) && Onward(a) && (a.DoBroadcast? || a.SignalUnlocks? || a.OtherUnlocks?)
    ensures var t := Do(s, a);
      && HeldFor(t, m) < HeldFor(s, m) && t.looper == s.looper && t.unserved == s.unserved
      && (t.owner == s.owner || (s.owner.Asleep? && t.owner == Woken(s.owner.p)))
  {
    assert HolderOk(s, m);
    match s.holders[m]
    case ASignaller(i) => a := if s.signallers[i].Locked? then DoBroadcast(i) else SignalUnlocks(i);
    case Other => a := OtherUnlocks(m);
  }

  /** `t` is nearer to the poll than `s`. */
  ghost predicate Nearer(s: State, t: State) {
    && t.unserved && Parking(t.owner)
    && (Stage(t.owner) < Stage(s.owner) || (Stage(t.owner) == Stage(s.owner) && Delay(t) < Delay(s)))
  }

  lemma AsleepGoesOn(s: State) returns (a: Action)
    requires Inv(s) && s.unserved && s.owner.Asleep?
    ensures Enabled(s, a) && Onward(a) && Nearer(s, Do(s, a))
  {
    var p := s.owner.p;
    if i: nat :| i < |s.signallers| && s.signallers[i] == Locked(p) {
      a := DoBroadcast(i);
    } else {
      var i: nat :| StillToBroadcast(s, i, p);
      if p.mutex in s.holders {
        assert HolderOk(s, p.mutex);
        a := HolderLetsGo(s, p.mutex);
      } else {
        a := SignalLocks(i);
        assert Do(s, a).signallers[i] == Locked(p);
      }
    }
  }

  lemma WokenGoesOn(s: State) returns (a: Action)
    requires Inv(s) && s.unserved && s.owner.Woken?
    ensures Enabled(s, a) && Onward(a) && Nearer(s, Do(s, a))
  {
    var m := s.owner.p.mutex;
    if m in s.holders {
      assert HolderOk(s, m);
      a := HolderLetsGo(s, m);
    } else {
      a := Retake;
    }
  }

  lemma OwnerGoesOn(s: State) returns (a: Action)
    requires Inv(s) && s.unserved && Parking(s.owner) && !s.owner.Polling?
    ensures Enabled(s, a) && Onward(a) && Nearer(s, Do(s, a))
  {
    match s.owner
    case Armed(_) => a := Block;
    case Asleep(_) => a := AsleepGoesOn(s);
    case Woken(_) => a := WokenGoesOn(s);
    case Back(_) => a := DoDisarm;
    case Entering(_) => a := DoArm;
    case Draining(_) => a := Unlock;
    case _ =>
  }

  /** A wake reaches the poll it is for: from any reachable state with an unserved wake and the
      owner anywhere in the wait, asleep or not, finitely many steps of the owner, of the
      signallers already under way and of whoever holds the mutex lead to the nested poll. */
  lemma {:induction false} WakeReachesPoll(s: State) returns (trace: seq<Action>, t: State)
    requires Inv(s) && s.unserved && Parking(s.owner)
    ensures Run(s, trace, t) && t.owner.Polled? && !t.unserved && forall a | a in trace :: Onward(a)
    decreases Stage(s.owner), Delay(s)
  {
    if s.owner.Polling? {
      trace, t := [Poll], Do(s, Poll);
      assert Run(t, [], t);
    } else {
      var a := OwnerGoesOn(s);
      StepKeepsInv(s, a);
      hide Inv, Do, Enabled, Onward, Parking, Stage, Delay;
      var rest;
      rest, t := WakeReachesPoll(Do(s, a));
      trace := [a] + rest;
    }
  }

  // ------------------------------------------------------------------- the object

  /** What any number of signallers can do to the looper of another thread. */
  predicate Raised(l: Looper, k: Looper) {
    && k.parked == l.parked && (l.pendingWake ==> k.pendingWake) && (l.looperWoke ==> k.looperWoke)
    && (if l.parked.Some? then k.pendingWake == l.pendingWake else k.looperWoke == l.looperWoke)
  }

  /** The looper after `n` signals. */
  function Signals(l: Looper, n: nat): Looper { if n == 0 then l else Signal(Signals(l, n - 1)).0 }

  lemma {:induction false} SignalsRaise(l: Looper, n: nat)
    ensures Raised(l, Signals(l, n))
  {
    if n == 0 {
    } else {
      SignalsRaise(l, n - 1);
    }
  }

  class ALooper {
    var pendingWake: bool
    var looperWoke: bool
    var parkedCond: Option<Cond>
    var parkedMutex: Option<Mutex>

    ghost predicate Valid()
      reads this
    {
      parkedCond.Some? <==> parkedMutex.Some?
    }

    function View(): Looper
      reads this
    {
      Looper(pendingWake, looperWoke,
             if parkedCond.Some? && parkedMutex.Some? then Some(Park(parkedCond.value, parkedMutex.value)) else None)
    }

    constructor ()
      ensures Valid() && View() == Looper(false, false, None)
    {
      pendingWake, looperWoke, parkedCond, parkedMutex := false, false, None, None;
    }

    /** looper_signal_parked up to the release of the looper lock. */
    method SignalParked() returns (c: Option<Cond>, m: Option<Mutex>)
      requires Valid()
      modifies this
      ensures Valid() && View() == Signal(old(View())).0
      ensures (c.Some? <==> m.Some?)
      ensures (if c.Some? && m.Some? then Some(Park(c.value, m.value)) else None) == Signal(old(View())).1
      ensures c == old(parkedCond) == parkedCond && m == old(parkedMutex) == parkedMutex
      ensures if c.Some? then looperWoke && pendingWake == old(pendingWake)
              else pendingWake && looperWoke == old(looperWoke)
    {
      c, m := parkedCond, parkedMutex;
      if c.None? {
        pendingWake := true;
        return;
      }
      looperWoke := true;
    }

    method ArmCond(c: Cond, m: Mutex) returns (pending: bool)
      requires Valid()
      modifies this
      ensures Valid() && (View(), pending) == Arm(old(View()), Park(c, m))
      ensures pending == (old(pendingWake) || old(looperWoke)) && !pendingWake && !looperWoke
      ensures parkedCond == (if pending then None else Some(c)) && parkedMutex == if pending then None else Some(m)
    {
      parkedCond, parkedMutex := Some(c), Some(m);
      pending := pendingWake || looperWoke;
      if pending {
        pendingWake, looperWoke, parkedCond, parkedMutex := false, false, None, None;
      }
    }

    method DisarmCond() returns (woke: bool)
      requires Valid()
      modifies this
      ensures Valid() && (View(), woke) == Disarm(old(View()))
      ensures woke == (old(pendingWake) || old(looperWoke)) && !pendingWake && !looperWoke
      ensures parkedCond.None? && parkedMutex.None?
    {
      parkedCond, parkedMutex := None, None;
      woke := looperWoke || pendingWake;
      looperWoke, pendingWake := false, false;
    }

    /** Other threads signal while this one has given up the mutex. */
    method Others()
      requires Valid()
      modifies this
      ensures Valid() && Raised(old(View()), View())
    {
    }

    /** tipsy_pthread_cond_wait of a thread whose looper is watched; `first` and `second` are
        what pthread_cond_wait returns.  It polls exactly when a wake was waiting, or came
        while it was parked and the wait itself was accepted, and leaves the looper unparked.
        A wake that came during a wait that ends in EINVAL is taken without a poll.  `left` is
        the looper as this thread leaves it: every wake it has seen is taken, so that none is
        served twice, and later ones are kept. */
    method CondWait(c: Cond, m: Mutex, first: int, second: int)
        returns (rc: int, polled: bool, ghost parked: Looper, ghost left: Looper)
      requires Valid() && parkedCond.None?
      modifies this
      ensures Valid() && parkedCond.None?
      ensures Raised(Looper(old(pendingWake), old(looperWoke), Some(Park(c, m))), parked)
      ensures polled <==> old(Flagged(View())) || (first != EINVAL && Flagged(parked))
      ensures rc == if polled then 0 else if first == EINVAL then second else first
      ensures !polled && first != EINVAL ==> !Flagged(View())
      ensures left == Looper(false, false, None) && Raised(left, View())
    {
      ghost var before := View();
      var pending := ArmCond(c, m);
      parked := before.(parked := Some(Park(c, m)));
      left := View();
      if pending {
        Others();
        return 0, true, parked, left;
      }
      Others();
      parked := View();
      polled := DisarmCond();
      rc, left := first, View();
      if first == EINVAL {
        Others();
        return second, false, parked, left;
      }
      if polled {
        Others();
        rc := 0;
      }
    }
  }
}
