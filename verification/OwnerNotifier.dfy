/** The notifier that turns state changes of any number of threads into dispatches on the
    owner's event loop: a coalescing flag under a mutex and a pipe read without it. */
module OwnerNotifier {
  import opened Options

  type Tid = nat

  /** Where a thread is in notify; all but `Out` hold the mutex. */
  datatype Notifier = Out | Writing | Wrote | Full

  /** Where the owner is in drain. */
  datatype Drain = Idle | Reading | Locking | Dispatching

  /** `unread` bytes are in the pipe, which has room for `room`.  `owed`: some notify has
      returned since the last dispatch began.  `failed`: a write failed for good. */
  datatype State = State(
    queued: bool, closed: bool, unread: nat, room: nat, notifiers: seq<Notifier>, drains: seq<Drain>,
    holder: Option<Tid>, owed: bool, failed: bool)

  function Init(notifiers: nat, drains: nat, room: nat): State {
    State(false, false, 0, room, seq(notifiers, _ => Out), seq(drains, _ => Idle), None, false, false)
  }

  datatype Action =
    | Begin(i: Tid) | WriteByte(i: Tid) | WriteAgain(i: Tid) | WriteFails(i: Tid) | Mark(i: Tid)
    | Activate(d: Tid) | Read(d: Tid, count: nat) | Empty(d: Tid) | Clear(d: Tid) | Dispatch(d: Tid)
    | Close

  predicate Enabled(s: State, a: Action) {
    match a
    case Begin(i) => i < |s.notifiers| && s.notifiers[i].Out? && s.holder.None?
    case WriteByte(i) => i < |s.notifiers| && s.notifiers[i].Writing? && s.unread < s.room
    case WriteAgain(i) => i < |s.notifiers| && s.notifiers[i].Writing? && s.unread == s.room
    case WriteFails(i) => i < |s.notifiers| && s.notifiers[i].Writing?
    case Mark(i) => i < |s.notifiers| && (s.notifiers[i].Wrote? || s.notifiers[i].Full?)
    case Activate(d) => d < |s.drains| && s.drains[d].Idle?
    case Read(d, count) => d < |s.drains| && s.drains[d].Reading? && 0 < count <= s.unread
    case Empty(d) => d < |s.drains| && s.drains[d].Reading? && s.unread == 0
    case Clear(d) => d < |s.drains| && s.drains[d].Locking? && s.holder.None?
    case Dispatch(d) => d < |s.drains| && s.drains[d].Dispatching?
    case Close => s.holder.None?
  }

  function Set(s: State, i: Tid, n: Notifier, holder: Option<Tid>): State
    requires i < |s.notifiers|
  {
    s.(notifiers := s.notifiers[i := n], holder := holder)
  }

  function Go(s: State, d: Tid, to: Drain): State
    requires d < |s.drains|
  {
    s.(drains := s.drains[d := to])
  }

  function Do(s: State, a: Action): State
    requires Enabled(s, a)
  {
    match a
    case Begin(i) =>
      if s.closed then s else if s.queued then s.(owed := true) else Set(s, i, Writing, Some(i))
    case WriteByte(i) => Set(s, i, Wrote, s.holder).(unread := s.unread + 1)
    case WriteAgain(i) => Set(s, i, Full, s.holder)
    case WriteFails(i) => Set(s, i, Out, None).(failed := true)
    case Mark(i) => Set(s, i, Out, None).(queued := true, owed := true)
    case Activate(d) => Go(s, d, Reading)
    case Read(d, count) => s.(unread := s.unread - count)
    case Empty(d) => Go(s, d, Locking)
    case Clear(d) => if s.closed then Go(s, d, Idle) else Go(s, d, Dispatching).(queued := false)
    case Dispatch(d) => Go(s, d, Idle).(owed := false)
    case Close => s.(closed := true)
  }

  // ------------------------------------------------------------------ invariant

  predicate IsHolder(n: Notifier) { !n.Out? }

  ghost predicate MutexOk(s: State) {
    && (forall i | 0 <= i < |s.notifiers| :: IsHolder(s.notifiers[i]) <==> s.holder == Some(i))
    && (s.holder.Some? ==> s.holder.value < |s.notifiers| && !s.queued)
  }

  /** A byte is unread, or a drain has read it and not cleared the flag yet. */
  ghost predicate Underway(s: State) {
    s.unread > 0 || exists d :: 0 <= d < |s.drains| && (s.drains[d].Reading? || s.drains[d].Locking?)
  }

  /** A byte is unread, or a drain has not called dispatch yet. */
  ghost predicate Coming(s: State) {
    s.unread > 0 || exists d :: 0 <= d < |s.drains| && !s.drains[d].Idle?
  }

  ghost predicate Inv(s: State) {
    && s.room > 0 && s.unread <= s.room && MutexOk(s)
    && (s.queued && !s.closed ==> Underway(s))
    && ((exists i :: 0 <= i < |s.notifiers| && (s.notifiers[i].Wrote? || s.notifiers[i].Full?)) && !s.closed ==>
         Underway(s))
    && (s.owed && !s.closed ==> Coming(s))
  }

  lemma UnderwayKept(s: State, a: Action)
    requires Inv(s) && Enabled(s, a) && Underway(s) && !a.Clear?
    ensures Underway(Do(s, a))
  {
    var t := Do(s, a);
    if a.Read? {
      assert t.drains[a.d].Reading?;
    } else if a.Empty? || a.Activate? {
      assert t.drains[a.d].Locking? || t.drains[a.d].Reading?;
    } else if s.unread == 0 {
      var d :| 0 <= d < |s.drains| && (s.drains[d].Reading? || s.drains[d].Locking?);
      assert t.drains[d].Reading? || t.drains[d].Locking?;
    }
  }

  lemma ComingKept(s: State, a: Action)
    requires Inv(s) && Enabled(s, a) && Coming(s) && !a.Dispatch? && !s.closed
    ensures Coming(Do(s, a))
  {
    var t := Do(s, a);
    if a.Read? || a.Empty? || a.Activate? || a.Clear? {
      assert !t.drains[a.d].Idle?;
    } else if s.unread == 0 {
      var d :| 0 <= d < |s.drains| && !s.drains[d].Idle?;
      assert !t.drains[d].Idle?;
    }
  }

  lemma UnderwayIsComing(s: State)
    requires Underway(s)
    ensures Coming(s)
  {
    if s.unread == 0 {
      var d :| 0 <= d < |s.drains| && (s.drains[d].Reading? || s.drains[d].Locking?);
      assert !s.drains[d].Idle?;
    }
  }

  lemma MutexKept(s: State, a: Action)
    requires MutexOk(s) && Enabled(s, a)
    ensures MutexOk(Do(s, a))
  {
  }

  lemma StepKeepsInv(s: State, a: Action)
    requires Inv(s) && Enabled(s, a)
    ensures Inv(Do(s, a))
  {
    var t := Do(s, a);
    MutexKept(s, a);
    if Underway(s) && !a.Clear? { UnderwayKept(s, a); }
    if Coming(s) && !a.Dispatch? && !s.closed { ComingKept(s, a); }
    if a.Mark? {
      assert s.notifiers[a.i].Wrote? || s.notifiers[a.i].Full?;
      if !s.closed { UnderwayIsComing(t); }
    }
    if a.Begin? && s.queued && !s.closed { UnderwayIsComing(t); }
    if !t.closed && exists i :: 0 <= i < |t.notifiers| && (t.notifiers[i].Wrote? || t.notifiers[i].Full?) {
      var i :| 0 <= i < |t.notifiers| && (t.notifiers[i].Wrote? || t.notifiers[i].Full?);
      if !a.WriteByte? && !a.WriteAgain? { assert s.notifiers[i].Wrote? || s.notifiers[i].Full?; }
    }
  }

  lemma InitInv(notifiers: nat, drains: nat, room: nat)
    requires room > 0
    ensures Inv(Init(notifiers, drains, room))
  {
  }

  ghost predicate Run(s: State, trace: seq<Action>, t: State)
    decreases |trace|
  {
    if trace == [] then s == t else Enabled(s, trace[0]) && Run(Do(s, trace[0]), trace[1..], t)
  }

  lemma {:induction false} RunKeepsInv(s: State, trace: seq<Action>, t: State)
    requires Inv(s) && Run(s, trace, t)
    ensures Inv(t)
    decreases |trace|
  {
    hide Inv, Do, Enabled;
    if trace == [] {
    } else {
      StepKeepsInv(s, trace[0]);
      RunKeepsInv(Do(s, trace[0]), trace[1..], t);
    }
  }

  // ------------------------------------------------------------------- theorems

  /** The event loop activates an idle drain when the pipe is readable; a drain under way
      waits for nothing but the mutex. */
  predicate CanGo(s: State, d: Tid) {
    && d < |s.drains|
    && match s.drains[d]
       case Idle => s.unread > 0 && Enabled(s, Activate(d))
       case Reading => if s.unread > 0 then Enabled(s, Read(d, s.unread)) else Enabled(s, Empty(d))
       case Locking => Enabled(s, Clear(d))
       case Dispatching => Enabled(s, Dispatch(d))
  }

  /** No lost notification: as long as the notifier is open, after any notify has returned
      there is an unread byte, a drain that has not called dispatch yet, or a dispatch that
      began after it; and while the dispatch is owed some drain can go on. */
  lemma NoLostNotification(notifiers: nat, drains: nat, room: nat, trace: seq<Action>, s: State)
    requires room > 0 && Run(Init(notifiers, drains, room), trace, s) && s.owed && !s.closed
    ensures Coming(s)
    ensures |s.drains| > 0 && s.holder.None? ==> exists d :: CanGo(s, d)
  {
    InitInv(notifiers, drains, room);
    RunKeepsInv(Init(notifiers, drains, room), trace, s);
    if |s.drains| > 0 && s.holder.None? {
      if s.unread > 0 {
        assert CanGo(s, 0);
      } else {
        var d :| 0 <= d < |s.drains| && !s.drains[d].Idle?;
        assert CanGo(s, d);
      }
    }
  }

  /** What a returning notify establishes, unless its write failed or the notifier was
      closed: it is owed a dispatch. */
  lemma NotifyIsOwed(s: State, a: Action)
    requires Enabled(s, a) && (a.Begin? || a.Mark?)
    ensures Do(s, a).notifiers[a.i].Out? && !(a.Begin? && s.closed) ==> Do(s, a).owed
  {
  }

  /** Whoever holds the mutex can go on. */
  lemma HolderGoesOn(notifiers: nat, drains: nat, room: nat, trace: seq<Action>, s: State)
    requires room > 0 && Run(Init(notifiers, drains, room), trace, s) && s.holder.Some?
    ensures var i := s.holder.value; Enabled(s, WriteByte(i)) || Enabled(s, WriteAgain(i)) || Enabled(s, Mark(i))
  {
    InitInv(notifiers, drains, room);
    RunKeepsInv(Init(notifiers, drains, room), trace, s);
  }

  // -------------------------------------------------------------------- progress

  function Stage(d: Drain): nat {
    match d
    case Idle => 4
    case Reading => 3
    case Locking => 2
    case Dispatching => 1
  }

  /** What keeps drain `d` from the next stage: bytes to read, or the holder of the mutex. */
  function Delay(s: State, d: Tid): nat
    requires d < |s.drains|
  {
    match s.drains[d]
    case Reading => if s.unread > 0 then 1 else 0
    case Locking =>
      if s.holder.None? || s.holder.value >= |s.notifiers| then 0
      else if s.notifiers[s.holder.value].Writing? then 2 else 1
    case _ => 0
  }

  /** The step of drain `d`, or of the holder of the mutex it waits for. */
  lemma DrainGoesOn(s: State, d: Tid) returns (a: Action)
    requires Inv(s) && !s.closed && d < |s.drains| && !s.drains[d].Dispatching? && (s.drains[d].Idle? ==> s.unread > 0)
    ensures Enabled(s, a) && !a.Begin? && !a.WriteFails? && !a.Close?
    ensures var t := Do(s, a);
      && !t.closed && d < |t.drains| && !t.drains[d].Idle?
      && (Stage(t.drains[d]) < Stage(s.drains[d]) || (t.drains[d] == s.drains[d] && Delay(t, d) < Delay(s, d)))
  {
    match s.drains[d]
    case Idle => a := Activate(d);
    case Reading => a := if s.unread > 0 then Read(d, s.unread) else Empty(d);
    case Locking =>
      if s.holder.None? {
        a := Clear(d);
      } else {
        var i := s.holder.value;
        assert IsHolder(s.notifiers[i]);
        a := if !s.notifiers[i].Writing? then Mark(i) else if s.unread < s.room then WriteByte(i) else WriteAgain(i);
      }
    case Dispatching =>
  }

  lemma {:induction false} DrainDispatches(s: State, d: Tid) returns (trace: seq<Action>, t: State)
    requires Inv(s) && !s.closed && d < |s.drains| && (s.drains[d].Idle? ==> s.unread > 0)
    ensures Run(s, trace, t) && !t.owed && forall a | a in trace :: !a.Begin? && !a.WriteFails? && !a.Close?
    decreases Stage(s.drains[d]), Delay(s, d)
  {
    if s.drains[d].Dispatching? {
      trace, t := [Dispatch(d)], Do(s, Dispatch(d));
      assert Run(t, [], t);
    } else {
      var a := DrainGoesOn(s, d);
      StepKeepsInv(s, a);
      hide Inv, Do, Enabled, Stage, Delay;
      var rest;
      rest, t := DrainDispatches(Do(s, a), d);
      trace := [a] + rest;
    }
  }

  /** A notification reaches its dispatch: from any reachable state in which one is owed, while
      the notifier is open and has a drain, finitely many steps of a drain and of the notifier
      that holds the mutex, and of nobody else, end with the dispatch. */
  lemma NotifyReachesDispatch(notifiers: nat, drains: nat, room: nat, trace: seq<Action>, s: State)
    returns (more: seq<Action>, t: State)
    requires room > 0 && Run(Init(notifiers, drains, room), trace, s)
    requires s.owed && !s.closed && |s.drains| > 0
    ensures Run(s, more, t) && !t.owed && forall a | a in more :: !a.Begin? && !a.WriteFails? && !a.Close?
  {
    InitInv(notifiers, drains, room);
    RunKeepsInv(Init(notifiers, drains, room), trace, s);
    var d := 0;
    if s.unread == 0 {
      d :| 0 <= d < |s.drains| && !s.drains[d].Idle?;
    }
    more, t := DrainDispatches(s, d);
  }

  // --------------------------------------------------------------- a single owner

  /** The flag, or a byte written for which it is about to be set. */
  ghost predicate Flagged(s: State) {
    s.queued || exists i :: 0 <= i < |s.notifiers| && (s.notifiers[i].Wrote? || s.notifiers[i].Full?)
  }

  /** With one drain at a time: one byte for the flag, and one more that was written
      between the last look at the pipe and the clearing of the flag. */
  ghost predicate FewUnread(s: State) {
    |s.drains| == 1 && s.unread <= (if s.drains[0].Locking? then 0 else 1) + (if Flagged(s) then 1 else 0)
  }

  lemma FewKept(s: State, a: Action)
    requires Inv(s) && FewUnread(s) && Enabled(s, a)
    ensures FewUnread(Do(s, a))
  {
    var t := Do(s, a);
    if a.WriteByte? || a.WriteAgain? {
      assert t.notifiers[a.i].Wrote? || t.notifiers[a.i].Full?;
      forall i | 0 <= i < |s.notifiers| ensures !(s.notifiers[i].Wrote? || s.notifiers[i].Full?) {
        assert IsHolder(s.notifiers[i]) ==> s.holder == Some(i);
      }
    } else if Flagged(s) && !s.queued && !a.Mark? {
      var i :| 0 <= i < |s.notifiers| && (s.notifiers[i].Wrote? || s.notifiers[i].Full?);
      assert IsHolder(s.notifiers[i]);
      assert t.notifiers[i] == s.notifiers[i];
    }
  }

  lemma {:induction false} RunKeepsFew(s: State, trace: seq<Action>, t: State)
    requires Inv(s) && FewUnread(s) && Run(s, trace, t)
    ensures FewUnread(t) && t.room == s.room
    decreases |trace|
  {
    hide Inv, FewUnread, Enabled;
    if trace == [] {
    } else {
      StepKeepsInv(s, trace[0]);
      FewKept(s, trace[0]);
      RunKeepsFew(Do(s, trace[0]), trace[1..], t);
    }
  }

  /** One owner never leaves more than two bytes unread, so the pipe does not fill up. */
  lemma PipeNeverFills(notifiers: nat, room: nat, trace: seq<Action>, s: State, i: Tid)
    requires room > 1 && Run(Init(notifiers, 1, room), trace, s)
    ensures s.unread <= 2 && !Enabled(s, WriteAgain(i))
  {
    InitInv(notifiers, 1, room);
    RunKeepsInv(Init(notifiers, 1, room), trace, s);
    RunKeepsFew(Init(notifiers, 1, room), trace, s);
    if i < |s.notifiers| && s.notifiers[i].Writing? {
      assert IsHolder(s.notifiers[i]);
      forall j | 0 <= j < |s.notifiers| ensures !(s.notifiers[j].Wrote? || s.notifiers[j].Full?) {
        assert IsHolder(s.notifiers[j]) ==> s.holder == Some(j);
      }
    }
  }

  // ------------------------------------------------------------------- the object

  datatype WriteResult = Written | Again | Interrupted | Failed

  /** The result of the first write that is not interrupted. */
  function Outcome(writes: seq<WriteResult>): WriteResult {
    if writes == [] then Failed else if writes[0].Interrupted? then Outcome(writes[1..]) else writes[0]
  }

  datatype ReadResult = WouldBlock | EndOfFile | ReadFailed

  class OwnerThreadNotifier {
    var queued: bool
    var closed: bool
    var unread: nat
    var ownerQueued: nat
    var ownerCoalesced: nat
    var ownerDispatched: nat

    constructor ()
      ensures !queued && !closed && unread == 0
    {
      queued, closed, unread, ownerQueued, ownerCoalesced, ownerDispatched := false, false, 0, 0, 0, 0;
    }

    /** notify; `writes` are the results of its successive writes, the last of which is not
        interrupted. */
    method Notify(writes: seq<WriteResult>)
      requires writes != [] && !writes[|writes| - 1].Interrupted?
      modifies this
      ensures closed == old(closed) && ownerDispatched == old(ownerDispatched)
      ensures queued <==> old(queued) || (!closed && !Outcome(writes).Failed?)
      ensures unread == old(unread) + if !closed && !old(queued) && Outcome(writes).Written? then 1 else 0
      ensures ownerQueued == old(ownerQueued) + if !closed && !old(queued) && Outcome(writes).Written? then 1 else 0
      ensures ownerCoalesced == old(ownerCoalesced) +
        if !closed && (old(queued) || Outcome(writes).Again?) then 1 else 0
    {
      if closed {
        return;
      }
      if queued {
        ownerCoalesced := ownerCoalesced + 1;
        return;
      }
      var i := 0;
      while writes[i].Interrupted?
        invariant i < |writes| && Outcome(writes[i..]) == Outcome(writes)
        decreases |writes| - i
      {
        assert writes[i..][1..] == writes[i + 1..];
        i := i + 1;
      }
      match writes[i] {
        case Written =>
          unread := unread + 1;
          queued := true;
          ownerQueued := ownerQueued + 1;
        case Again =>
          queued := true;
          ownerCoalesced := ownerCoalesced + 1;
        case Failed =>
      }
    }

    /** drain, which reads what there is, 32 bytes at a time, before the read that ends in
        `result`; true when it dispatches. */
    method Drain(result: ReadResult) returns (dispatch: bool)
      modifies this
      ensures unread == 0
      ensures dispatch <==> !old(closed) && result.WouldBlock?
      ensures queued == (old(closed) && old(queued))
      ensures closed <==> old(closed) || !result.WouldBlock?
      ensures ownerDispatched == old(ownerDispatched) + if dispatch then 1 else 0
      ensures ownerQueued == old(ownerQueued) && ownerCoalesced == old(ownerCoalesced)
    {
      while unread > 0
        modifies this`unread
      {
        unread := if unread > 32 then unread - 32 else 0;
      }
      if closed {
        return false;
      }
      queued := false;
      if !result.WouldBlock? {
        Close();
        return false;
      }
      ownerDispatched := ownerDispatched + 1;
      dispatch := true;
    }

    method Close()
      modifies this`closed
      ensures closed
    {
      closed := true;
    }
  }
}
