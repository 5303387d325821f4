/** The mailbox of the native main thread: any number of threads hand jobs to one worker
    and wait for the results; the worker waits for jobs in the poll of its looper or on a
    condition variable.  A step is one section under the mailbox mutex, or one step a
    thread takes outside it. */
module Mailbox {
  import opened Options

  type JobId = nat
  type Tid = nat

  /** tipsy_job; `owner` submitted it, `runs` counts its executions and `result` is the value
      of the last one. */
  datatype Job = Job(owner: Tid, done: bool, ret: nat, runs: nat, result: nat)

  /** What the mutex protects, and whether the worker's looper holds a wake token. */
  datatype Box = Box(pending: Option<JobId>, jobs: seq<Job>, looper: bool, token: bool)

  predicate Unfinished(b: Box) { b.pending.Some? && b.pending.value < |b.jobs| && !b.jobs[b.pending.value].done }

  /** submit from the lock to the first wait, when the slot is free. */
  function Post(b: Box, j: JobId): Box
    requires j < |b.jobs|
  {
    b.(pending := Some(j), jobs := b.jobs[j := b.jobs[j].(done := false, ret := 0)], token := b.token || b.looper)
  }

  /** The part of the worker's loop that hands back a result. */
  function Complete(b: Box, j: JobId, v: nat): Box
    requires j < |b.jobs|
  {
    b.(jobs := b.jobs[j := b.jobs[j].(ret := v, done := true)])
  }

  /** exec_job; the job may be the one that makes the worker's looper. */
  function Execute(b: Box, j: JobId, v: nat, prepares: bool): Box
    requires j < |b.jobs|
  {
    b.(jobs := b.jobs[j := b.jobs[j].(runs := b.jobs[j].runs + 1, result := v)], looper := b.looper || prepares)
  }

  /** Where a thread is in submit. */
  datatype Submitter =
    | Out
    | Contend(j: JobId)               // to take the mutex and look at the slot
    | OnIdle(j: JobId)                // asleep on g_idle
    | Waiting(j: JobId)               // posted, asleep on g_done
    | Woken(j: JobId)                 // to take the mutex and look at its job
    | Returned(j: JobId, value: nat)

  /** Where the worker is in native_main_thunk. */
  datatype Worker =
    | Check                           // to look at the slot
    | Unlocked                        // about to poll its looper
    | Polling                         // blocked in the poll
    | Polled(error: bool)             // to take the mutex and look at the slot
    | OnWork                          // asleep on g_work
    | Running(j: JobId)
    | Ran(j: JobId, v: nat)

  /** `linked`: the looper functions are linked in. */
  datatype State = State(linked: bool, box: Box, subs: seq<Submitter>, worker: Worker)

  function Init(submitters: nat, linked: bool): State {
    State(linked, Box(None, [], false, false), seq(submitters, _ => Out), Check)
  }

  datatype Action =
    | Call(i: Tid) | Enter(i: Tid) | WakeIdle(i: Tid) | WakeDone(i: Tid) | Collect(i: Tid, next: Option<Tid>)
    | Decide | StartPoll | PollReturns(error: bool) | TokenReturns | Nest | Recheck | WakeWork
    | Exec(v: nat, prepares: bool) | Deliver(next: Option<Tid>)

  /** The two condition variables that submitters sleep on. */
  datatype Cond = GIdle | GDone

  predicate AsleepOn(t: Submitter, c: Cond) { if c.GIdle? then t.OnIdle? else t.Waiting? }

  /** A signal wakes some thread that sleeps on the condition variable, if there is one. */
  predicate Signalled(subs: seq<Submitter>, next: Option<Tid>, c: Cond) {
    if next.Some? then next.value < |subs| && AsleepOn(subs[next.value], c)
    else forall k | 0 <= k < |subs| :: !AsleepOn(subs[k], c)
  }

  function JobOf(t: Submitter): Option<JobId> { if t.Out? then None else Some(t.j) }

  predicate Enabled(s: State, a: Action) {
    match a
    case Call(i) => i < |s.subs| && (s.subs[i].Out? || s.subs[i].Returned?)
    case Enter(i) => i < |s.subs| && s.subs[i].Contend? && s.subs[i].j < |s.box.jobs|
    case WakeIdle(i) => i < |s.subs| && s.subs[i].OnIdle?
    case WakeDone(i) => i < |s.subs| && s.subs[i].Waiting?
    case Collect(i, next) =>
      && i < |s.subs| && s.subs[i].Woken? && s.subs[i].j < |s.box.jobs|
      && Signalled(s.subs, next, GIdle)
    case Decide => s.worker.Check?
    case StartPoll => s.worker.Unlocked?
    case PollReturns(_) => s.worker.Polling?
    case TokenReturns => s.worker.Polling? && s.box.token
    case Nest => s.worker.Polled?
    case Recheck => s.worker.Polled?
    case WakeWork => s.worker.OnWork?
    case Exec(_, _) => s.worker.Running? && s.worker.j < |s.box.jobs|
    case Deliver(next) =>
      s.worker.Ran? && s.worker.j < |s.box.jobs| && Signalled(s.subs, next, GDone)
  }

  /** One pass of the wait for a free slot, and the post when there is one. */
  function DoEnter(s: State, i: Tid): State
    requires Enabled(s, Enter(i))
  {
    var j := s.subs[i].j;
    if s.box.pending.Some? then s.(subs := s.subs[i := OnIdle(j)])
    else
      s.(box := Post(s.box, j), subs := s.subs[i := Waiting(j)],
         worker := if s.worker.OnWork? then Check else s.worker)
  }

  /** One pass of the wait for the result, and the return when it is there. */
  function DoCollect(s: State, i: Tid, next: Option<Tid>): State
    requires Enabled(s, Collect(i, next))
  {
    var j := s.subs[i].j;
    if !s.box.jobs[j].done then s.(subs := s.subs[i := Waiting(j)])
    else
      var subs := s.subs[i := Returned(j, s.box.jobs[j].ret)];
      s.(box := s.box.(pending := None),
         subs := if next.Some? then subs[next.value := Contend(s.subs[next.value].j)] else subs)
  }

  function DoDeliver(s: State, next: Option<Tid>): State
    requires Enabled(s, Deliver(next))
  {
    s.(box := Complete(s.box, s.worker.j, s.worker.v), worker := Check,
       subs := if next.Some? then s.subs[next.value := Woken(s.subs[next.value].j)] else s.subs)
  }

  function Do(s: State, a: Action): State
    requires Enabled(s, a)
  {
    match a
    case Call(i) =>
      s.(box := s.box.(jobs := s.box.jobs + [Job(i, false, 0, 0, 0)]), subs := s.subs[i := Contend(|s.box.jobs|)])
    case Enter(i) => DoEnter(s, i)
    case WakeIdle(i) => s.(subs := s.subs[i := Contend(s.subs[i].j)])
    case WakeDone(i) => s.(subs := s.subs[i := Woken(s.subs[i].j)])
    case Collect(i, next) => DoCollect(s, i, next)
    case Decide =>
      s.(worker := if Unfinished(s.box) then Running(s.box.pending.value) else if s.linked then Unlocked else OnWork)
    case StartPoll => s.(worker := if s.box.looper then Polling else Polled(true))
    case PollReturns(error) => s.(worker := Polled(error))
    case TokenReturns => s.(box := s.box.(token := false), worker := Polled(false))
    case Nest => s.(box := s.box.(token := false))
    case Recheck =>
      s.(worker :=
        if Unfinished(s.box) then Running(s.box.pending.value) else if s.worker.error then OnWork else Check)
    case WakeWork => s.(worker := Check)
    case Exec(v, prepares) => s.(box := Execute(s.box, s.worker.j, v, prepares), worker := Ran(s.worker.j, v))
    case Deliver(next) => DoDeliver(s, next)
  }

  // ------------------------------------------------------------------ invariant

  /** What is true of a thread's job wherever the thread is. */
  ghost predicate SubOk(s: State, i: Tid)
    requires i < |s.subs|
  {
    JobOf(s.subs[i]).Some? ==>
      var j := s.subs[i].j;
      && j < |s.box.jobs| && s.box.jobs[j].owner == i
      && match s.subs[i]
         case Contend(_) => s.box.jobs[j].runs == 0 && s.box.pending != Some(j)
         case OnIdle(_) => s.box.jobs[j].runs == 0 && s.box.pending != Some(j)
         case Waiting(_) => s.box.pending == Some(j) && !s.box.jobs[j].done
         case Woken(_) => s.box.pending == Some(j)
         case Returned(_, value) => s.box.jobs[j].runs == 1 && value == s.box.jobs[j].result && s.box.pending != Some(j)
  }

  /** A job has run once by the time its submitter has left it behind. */
  ghost predicate JobOk(s: State, j: JobId)
    requires j < |s.box.jobs|
  {
    var b := s.box.jobs[j];
    && b.owner < |s.subs|
    && (JobOf(s.subs[b.owner]) != Some(j) ==> b.runs == 1 && s.box.pending != Some(j))
    && (JobOf(s.subs[b.owner]) == Some(j) ==> b.runs <= 1)
  }

  /** The pending job is the one the worker is on, has not begun, or has just finished. */
  ghost predicate PendingOk(s: State) {
    s.box.pending.Some? ==>
      var j := s.box.pending.value;
      && j < |s.box.jobs| && s.box.jobs[j].owner < |s.subs|
      && (s.subs[s.box.jobs[j].owner] == Waiting(j) || s.subs[s.box.jobs[j].owner] == Woken(j))
      && (if s.box.jobs[j].done then s.box.jobs[j].runs == 1 && s.box.jobs[j].ret == s.box.jobs[j].result
          else s.box.jobs[j].runs == if s.worker.Ran? then 1 else 0)
  }

  ghost predicate WorkerOk(s: State) {
    && (s.worker.Running? || s.worker.Ran? ==> s.box.pending == Some(s.worker.j) && Unfinished(s.box))
    && (s.worker.Ran? ==> s.box.jobs[s.worker.j].result == s.worker.v)
    && (s.worker.Unlocked? || s.worker.Polling? || s.worker.Polled? ==> s.linked)
    && (s.worker.Polling? ==> s.box.looper)
    && (Unfinished(s.box) ==> !s.worker.OnWork?)
    && (Unfinished(s.box) && (s.worker.Unlocked? || s.worker.Polling?) && s.box.looper ==> s.box.token)
  }

  /** When the slot is free and threads sleep on it, one of those woken has still to look. */
  ghost predicate IdleOk(s: State) {
    s.box.pending.None? && (exists i :: 0 <= i < |s.subs| && s.subs[i].OnIdle?) ==>
      exists i :: 0 <= i < |s.subs| && s.subs[i].Contend?
  }

  ghost predicate Inv(s: State) {
    && (forall i {:trigger SubOk(s, i)} | 0 <= i < |s.subs| :: SubOk(s, i))
    && (forall j {:trigger JobOk(s, j)} | 0 <= j < |s.box.jobs| :: JobOk(s, j))
    && PendingOk(s) && WorkerOk(s) && IdleOk(s)
  }

  predicate BySubmitter(a: Action) { a.Call? || a.Enter? || a.WakeIdle? || a.WakeDone? || a.Collect? }

  lemma SubKeptBySubmitter(s: State, a: Action, i: Tid)
    requires Inv(s) && Enabled(s, a) && BySubmitter(a) && i < |Do(s, a).subs|
    ensures SubOk(Do(s, a), i)
  {
    assert SubOk(s, i) && SubOk(s, a.i);
    assert PendingOk(s);
    hide Inv, Signalled;
  }

  lemma SubKeptByWorker(s: State, a: Action, i: Tid)
    requires Inv(s) && Enabled(s, a) && !BySubmitter(a) && i < |Do(s, a).subs|
    ensures SubOk(Do(s, a), i)
  {
    assert SubOk(s, i);
    if a.Deliver? && a.next.Some? { assert SubOk(s, a.next.value); }
    assert PendingOk(s) && WorkerOk(s);
    hide Inv, Signalled;
  }

  lemma SubsKept(s: State, a: Action, i: Tid)
    requires Inv(s) && Enabled(s, a) && i < |Do(s, a).subs|
    ensures SubOk(Do(s, a), i)
  {
    hide Inv, SubOk, Do, Enabled;
    if BySubmitter(a) { SubKeptBySubmitter(s, a, i); } else { SubKeptByWorker(s, a, i); }
  }

  lemma JobKeptBySubmitter(s: State, a: Action, j: JobId)
    requires Inv(s) && Enabled(s, a) && BySubmitter(a) && j < |Do(s, a).box.jobs|
    ensures JobOk(Do(s, a), j)
  {
    if j < |s.box.jobs| { assert JobOk(s, j); }
    assert SubOk(s, a.i);
    assert PendingOk(s);
    hide Inv, Signalled;
  }

  lemma JobKeptByWorker(s: State, a: Action, j: JobId)
    requires Inv(s) && Enabled(s, a) && !BySubmitter(a) && j < |Do(s, a).box.jobs|
    ensures JobOk(Do(s, a), j)
  {
    assert JobOk(s, j);
    if a.Deliver? && a.next.Some? { assert SubOk(s, a.next.value); }
    assert PendingOk(s) && WorkerOk(s);
    hide Inv, Signalled;
  }

  lemma JobsKept(s: State, a: Action, j: JobId)
    requires Inv(s) && Enabled(s, a) && j < |Do(s, a).box.jobs|
    ensures JobOk(Do(s, a), j)
  {
    hide Inv, JobOk, Do, Enabled;
    if BySubmitter(a) { JobKeptBySubmitter(s, a, j); } else { JobKeptByWorker(s, a, j); }
  }

  lemma PendingKeptBySubmitter(s: State, a: Action)
    requires Inv(s) && Enabled(s, a) && BySubmitter(a)
    ensures PendingOk(Do(s, a)) && WorkerOk(Do(s, a))
  {
    assert SubOk(s, a.i);
    assert PendingOk(s) && WorkerOk(s);
    hide Inv, Signalled;
  }

  lemma PendingKeptByWorker(s: State, a: Action)
    requires Inv(s) && Enabled(s, a) && !BySubmitter(a)
    ensures PendingOk(Do(s, a)) && WorkerOk(Do(s, a))
  {
    assert PendingOk(s) && WorkerOk(s);
    hide Inv, Signalled;
  }

  lemma PendingKept(s: State, a: Action)
    requires Inv(s) && Enabled(s, a)
    ensures PendingOk(Do(s, a)) && WorkerOk(Do(s, a))
  {
    hide Inv, PendingOk, WorkerOk, Do, Enabled;
    if BySubmitter(a) { PendingKeptBySubmitter(s, a); } else { PendingKeptByWorker(s, a); }
  }

  lemma IdleKept(s: State, a: Action)
    requires Inv(s) && Enabled(s, a)
    ensures IdleOk(Do(s, a))
  {
    var t := Do(s, a);
    if a.WakeDone? || a.Enter? || a.Collect? { assert SubOk(s, a.i); }
    if t.box.pending.None? && exists i :: 0 <= i < |t.subs| && t.subs[i].OnIdle? {
      if a.Collect? && s.box.jobs[s.subs[a.i].j].done && a.next.Some? {
        assert t.subs[a.next.value].Contend?;
      } else if a.Call? || a.WakeIdle? {
        assert t.subs[a.i].Contend?;
      }
    }
  }

  lemma StepKeepsInv(s: State, a: Action)
    requires Inv(s) && Enabled(s, a)
    ensures Inv(Do(s, a))
  {
    hide Inv, Do, SubOk, JobOk, PendingOk, WorkerOk, IdleOk;
    var t := Do(s, a);
    forall i {:trigger SubOk(t, i)} | 0 <= i < |t.subs| ensures SubOk(t, i) { SubsKept(s, a, i); }
    forall j {:trigger JobOk(t, j)} | 0 <= j < |t.box.jobs| ensures JobOk(t, j) { JobsKept(s, a, j); }
    PendingKept(s, a);
    IdleKept(s, a);
    InvIs(t);
  }

  lemma InvIs(s: State)
    requires forall i {:trigger SubOk(s, i)} | 0 <= i < |s.subs| :: SubOk(s, i)
    requires forall j {:trigger JobOk(s, j)} | 0 <= j < |s.box.jobs| :: JobOk(s, j)
    requires PendingOk(s) && WorkerOk(s) && IdleOk(s)
    ensures Inv(s)
  {
  }

  lemma InitInv(submitters: nat, linked: bool)
    ensures Inv(Init(submitters, linked))
  {
  }

  ghost predicate Run(s: State, trace: seq<Action>, t: State)
    decreases |trace|
  {
    if trace == [] then s == t else Enabled(s, trace[0]) && Run(Do(s, trace[0]), trace[1..], t)
  }

  lemma {:induction false} RunKeepsInv(s: State, trace: seq<Action>, t: State)
    requires Inv(s) && Run(s, trace, t)
    ensures Inv(t)
    decreases |trace|
  {
    hide Inv, Do, Enabled;
    if trace == [] {
    } else {
      StepKeepsInv(s, trace[0]);
      RunKeepsInv(Do(s, trace[0]), trace[1..], t);
    }
  }

  // ------------------------------------------------------------------- theorems

  /** No job runs twice; a job whose submit has returned has run exactly once, and submit
      returned the value of that run. */
  lemma ExactlyOnce(submitters: nat, linked: bool, trace: seq<Action>, s: State, i: Tid)
    requires Run(Init(submitters, linked), trace, s) && i < |s.subs|
    ensures forall j | 0 <= j < |s.box.jobs| :: s.box.jobs[j].runs <= 1
    ensures s.subs[i].Returned? ==> s.subs[i].j < |s.box.jobs| && s.box.jobs[s.subs[i].j].runs == 1
    ensures s.subs[i].Returned? ==> s.subs[i].value == s.box.jobs[s.subs[i].j].result
  {
    InitInv(submitters, linked);
    RunKeepsInv(Init(submitters, linked), trace, s);
    forall j | 0 <= j < |s.box.jobs| ensures s.box.jobs[j].runs <= 1 { assert JobOk(s, j); }
    assert SubOk(s, i);
  }

  /** The worker only touches a job whose submitter is still inside submit: the job lives
      on that thread's stack. */
  lemma NoDanglingJob(submitters: nat, linked: bool, trace: seq<Action>, s: State)
    requires Run(Init(submitters, linked), trace, s)
    ensures s.worker.Running? || s.worker.Ran? ==> s.box.pending == Some(s.worker.j)
    ensures s.box.pending.Some? ==>
      var j := s.box.pending.value;
      j < |s.box.jobs| && s.box.jobs[j].owner < |s.subs| &&
      (s.subs[s.box.jobs[j].owner] == Waiting(j) || s.subs[s.box.jobs[j].owner] == Woken(j))
  {
    InitInv(submitters, linked);
    RunKeepsInv(Init(submitters, linked), trace, s);
  }

  /** A job waiting to be done never meets a worker that blocks in the poll of its looper
      without a token, or on g_work; a finished one never meets a sleeping submitter. */
  lemma NoLostWake(submitters: nat, linked: bool, trace: seq<Action>, s: State)
    requires Run(Init(submitters, linked), trace, s)
    ensures Unfinished(s.box) ==> !s.worker.OnWork?
    ensures Unfinished(s.box) && s.worker.Polling? ==> s.box.token && Enabled(s, TokenReturns)
    ensures Unfinished(s.box) && s.worker.Unlocked? ==> s.box.token || !s.box.looper
    ensures s.box.pending.Some? && !Unfinished(s.box) ==>
      exists i :: 0 <= i < |s.subs| && s.subs[i] == Woken(s.box.pending.value)
  {
    InitInv(submitters, linked);
    RunKeepsInv(Init(submitters, linked), trace, s);
    if s.box.pending.Some? && !Unfinished(s.box) {
      var i := s.box.jobs[s.box.pending.value].owner;
      assert SubOk(s, i);
      assert s.subs[i] == Woken(s.box.pending.value);
    }
  }

  /** Some thread can get on without a spurious wake-up. */
  ghost predicate CanProgress(s: State) {
    || (s.box.pending.None? && exists i :: 0 <= i < |s.subs| && s.subs[i].Contend?)
    || (s.box.pending.Some? && !Unfinished(s.box) &&
        exists i :: 0 <= i < |s.subs| && s.subs[i] == Woken(s.box.pending.value))
    || (Unfinished(s.box) && !s.worker.OnWork? && (s.worker.Polling? ==> s.box.token))
  }

  /** No deadlock: while any thread is inside submit somebody can get on. */
  lemma NeverStuck(submitters: nat, linked: bool, trace: seq<Action>, s: State, i: Tid)
    requires Run(Init(submitters, linked), trace, s) && i < |s.subs|
    ensures s.subs[i].Out? || s.subs[i].Returned? || CanProgress(s)
  {
    InitInv(submitters, linked);
    RunKeepsInv(Init(submitters, linked), trace, s);
    NoLostWake(submitters, linked, trace, s);
    assert SubOk(s, i);
    if s.box.pending.None? && s.subs[i].Contend? { assert s.subs[i].Contend?; }
  }

  // -------------------------------------------------------------------- progress

  predicate Inside(t: Submitter) { t.Contend? || t.OnIdle? || t.Waiting? || t.Woken? }

  /** How far the next return of submit is away. */
  function Distance(s: State): nat {
    if s.box.pending.None? then 9
    else if !Unfinished(s.box) then 1
    else
      match s.worker
      case OnWork => 8
      case Unlocked => 7
      case Polling => 6
      case Polled(_) => 5
      case Check => 4
      case Running(_) => 3
      case Ran(_, _) => 2
  }

  /** What brings the next return closer, without a spurious wake-up. */
  ghost predicate Helps(s: State, a: Action) {
    Enabled(s, a) && match a
      case Enter(_) => s.box.pending.None?
      case Collect(i, _) => s.box.pending.Some? && !Unfinished(s.box) && s.subs[i] == Woken(s.box.pending.value)
      case Call(_) => false
      case WakeIdle(_) => false
      case WakeDone(_) => false
      case PollReturns(_) => false
      case Nest => false
      case WakeWork => false
      case _ => Unfinished(s.box)
  }

  lemma SomeoneSignalled(subs: seq<Submitter>, c: Cond) returns (next: Option<Tid>)
    ensures Signalled(subs, next, c)
  {
    if k :| 0 <= k < |subs| && AsleepOn(subs[k], c) { next := Some(k); } else { next := None; }
  }

  /** While a thread is inside submit some thread has a step that helps. */
  lemma SomethingHelps(s: State, i: Tid) returns (a: Action)
    requires Inv(s) && i < |s.subs| && Inside(s.subs[i])
    ensures Helps(s, a)
  {
    assert SubOk(s, i) && PendingOk(s) && WorkerOk(s);
    if s.box.pending.None? {
      var k: Tid :| k < |s.subs| && s.subs[k].Contend?;
      assert SubOk(s, k);
      a := Enter(k);
    } else if !Unfinished(s.box) {
      var k := s.box.jobs[s.box.pending.value].owner;
      assert SubOk(s, k);
      var next := SomeoneSignalled(s.subs, GIdle);
      a := Collect(k, next);
    } else {
      a := WorkerHelps(s);
    }
  }

  lemma WorkerHelps(s: State) returns (a: Action)
    requires PendingOk(s) && WorkerOk(s) && Unfinished(s.box)
    ensures Helps(s, a)
  {
    match s.worker
    case OnWork =>
    case Unlocked => a := StartPoll;
    case Polling => a := TokenReturns;
    case Polled(_) => a := Recheck;
    case Check => a := Decide;
    case Running(_) => a := Exec(0, false);
    case Ran(_, _) =>
      var next := SomeoneSignalled(s.subs, GDone);
      a := Deliver(next);
  }

  /** A step that helps brings the next return closer, or is that return. */
  lemma HelpIsCloser(s: State, a: Action)
    requires Inv(s) && Helps(s, a)
    ensures if a.Collect? then Do(s, a).subs[a.i].Returned? && s.subs[a.i].Woken? else Distance(Do(s, a)) < Distance(s)
    ensures |Do(s, a).subs| == |s.subs|
    ensures !a.Collect? ==> forall k | 0 <= k < |s.subs| && Inside(Do(s, a).subs[k]) :: Inside(s.subs[k])
    ensures !a.Collect? ==> forall k | 0 <= k < |s.subs| && Inside(s.subs[k]) :: Inside(Do(s, a).subs[k])
  {
    assert PendingOk(s) && WorkerOk(s);
    if a.Enter? { assert SubOk(s, a.i); }
    hide Inv;
  }

  /** No livelock either: from any reachable state in which a thread is inside submit, finitely
      many steps, none of them a spurious wake-up or a new call, let one of the threads inside
      return. */
  lemma {:induction false} SomebodyReturns(s: State, i: Tid) returns (trace: seq<Action>, t: State, k: Tid)
    requires Inv(s) && i < |s.subs| && Inside(s.subs[i])
    ensures Run(s, trace, t) && |trace| <= Distance(s)
    ensures k < |s.subs| == |t.subs| && Inside(s.subs[k]) && t.subs[k].Returned?
    decreases Distance(s)
  {
    var a := SomethingHelps(s, i);
    HelpIsCloser(s, a);
    StepKeepsInv(s, a);
    var u := Do(s, a);
    hide Inv, Do, Helps, Distance, Enabled;
    if a.Collect? {
      trace, t, k := [a], u, a.i;
      assert Run(u, [], u);
    } else {
      var rest;
      rest, t, k := SomebodyReturns(u, i);
      trace := [a] + rest;
    }
  }

  // --------------------------------------------- one submitter among the others

  /** Job `j` of a thread inside submit: not run before it is posted, and run once, with
      its value handed back, when it is done. */
  ghost predicate Mine(b: Box, j: JobId) {
    && j < |b.jobs|
    && (b.pending != Some(j) ==> b.jobs[j].runs == 0)
    && (b.pending == Some(j) && b.jobs[j].done ==> b.jobs[j].runs == 1 && b.jobs[j].ret == b.jobs[j].result)
  }

  /** What the other threads may do between two looks of the submitter of `j`. */
  ghost predicate Rely(j: JobId, b: Box, c: Box) {
    && |b.jobs| <= |c.jobs| && j < |b.jobs| && Mine(c, j)
    && (b.pending == Some(j) <==> c.pending == Some(j))
    && (b.pending == Some(j) && b.jobs[j].done ==> c.jobs[j].done)
  }

  predicate ByOther(a: Action, i: Tid) { !(a.Call? || a.Enter? || a.Collect?) || a.i != i }

  lemma MineHolds(s: State, i: Tid)
    requires i < |s.subs| && Inside(s.subs[i]) && SubOk(s, i) && PendingOk(s)
    ensures Mine(s.box, s.subs[i].j)
  {
  }

  /** The thread stays inside submit with its job, and what happens to the slot is its own. */
  lemma OthersLeaveSlot(s: State, a: Action, i: Tid)
    requires Inv(s) && Enabled(s, a) && i < |s.subs| && Inside(s.subs[i]) && ByOther(a, i)
    ensures var t, j := Do(s, a), s.subs[i].j;
      && i < |t.subs| && Inside(t.subs[i]) && t.subs[i].j == j
      && j < |s.box.jobs| <= |t.box.jobs| && (s.box.pending == Some(j) <==> t.box.pending == Some(j))
      && (s.box.pending == Some(j) && s.box.jobs[j].done ==> t.box.jobs[j].done)
  {
    assert SubOk(s, i);
    if BySubmitter(a) { assert SubOk(s, a.i); }
    assert PendingOk(s) && WorkerOk(s);
    hide Inv, Signalled;
  }

  lemma OthersKeepMine(s: State, a: Action, i: Tid)
    requires Inv(s) && Enabled(s, a) && i < |s.subs| && Inside(s.subs[i]) && ByOther(a, i)
    ensures Mine(s.box, s.subs[i].j) && Rely(s.subs[i].j, s.box, Do(s, a).box)
  {
    assert SubOk(s, i) && PendingOk(s);
    MineHolds(s, i);
    OthersLeaveSlot(s, a, i);
    StepKeepsInv(s, a);
    assert SubOk(Do(s, a), i) && PendingOk(Do(s, a));
    MineHolds(Do(s, a), i);
    hide Inv, Do, Enabled, Mine;
  }

  /** However many steps the others take. */
  lemma {:induction false} OthersRun(s: State, trace: seq<Action>, t: State, i: Tid)
    requires Inv(s) && Run(s, trace, t) && i < |s.subs| && Inside(s.subs[i]) && forall a | a in trace :: ByOther(a, i)
    ensures i < |t.subs| && Inside(t.subs[i]) && t.subs[i].j == s.subs[i].j
    ensures Mine(s.box, s.subs[i].j) && Rely(s.subs[i].j, s.box, t.box)
    decreases |trace|
  {
    assert SubOk(s, i) && PendingOk(s);
    MineHolds(s, i);
    hide Inv, Do, Enabled, Mine, ByOther, Inside;
    if trace == [] {
    } else {
      var u := Do(s, trace[0]);
      assert forall a | a in trace[1..] :: a in trace;
      StepKeepsInv(s, trace[0]);
      OthersLeaveSlot(s, trace[0], i);
      OthersKeepMine(s, trace[0], i);
      OthersRun(u, trace[1..], t, i);
      RelyTrans(s.subs[i].j, s.box, u.box, t.box);
    }
  }

  lemma RelyTrans(j: JobId, b: Box, c: Box, d: Box)
    requires Rely(j, b, c) && Rely(j, c, d)
    ensures Rely(j, b, d)
  {
  }

  // ------------------------------------------------------------------- the object

  /** The sections of submit and native_main_thunk under g_mu. */
  class NativeMain {
    var pending: Option<JobId>
    var jobs: seq<Job>
    var looper: bool
    var token: bool

    function View(): Box
      reads this
    {
      Box(pending, jobs, looper, token)
    }

    constructor ()
      ensures View() == Box(None, [], false, false)
    {
      pending, jobs, looper, token := None, [], false, false;
    }

    /** tipsy_native_main_wake */
    method Wake()
      modifies this`token
      ensures token == (old(token) || looper)
    {
      if looper {
        token := true;
      }
    }

    /** One pass of submit's wait for the slot; false sends the thread to sleep on g_idle. */
    method TryPost(j: JobId) returns (posted: bool)
      requires j < |jobs|
      modifies this
      ensures posted <==> old(pending).None?
      ensures View() == if posted then Post(old(View()), j) else old(View())
      ensures posted ==> pending == Some(j) && !jobs[j].done && (looper ==> token)
    {
      if pending.Some? {
        return false;
      }
      jobs := jobs[j := jobs[j].(done := false, ret := 0)];
      pending := Some(j);
      Wake();
      posted := true;
    }

    /** One pass of submit's wait for the result; none sends the thread to sleep on g_done. */
    method TryCollect(j: JobId) returns (value: Option<nat>)
      requires j < |jobs|
      modifies this`pending
      ensures value == if jobs[j].done then Some(jobs[j].ret) else None
      ensures pending == if value.Some? then None else old(pending)
    {
      if !jobs[j].done {
        return None;
      }
      pending := None;
      value := Some(jobs[j].ret);
    }

    /** The test of the worker's wait loop. */
    method NextJob() returns (j: Option<JobId>)
      requires pending.Some? ==> pending.value < |jobs|
      ensures j == if Unfinished(View()) then pending else None
    {
      if pending.None? || jobs[pending.value].done {
        return None;
      }
      j := pending;
    }

    method Deliver(j: JobId, v: nat)
      requires j < |jobs|
      modifies this`jobs
      ensures View() == Complete(old(View()), j, v)
      ensures |jobs| == |old(jobs)| && jobs[j].done && jobs[j].ret == v && jobs[j].runs == old(jobs)[j].runs
    {
      jobs := jobs[j := jobs[j].(ret := v)];
      jobs := jobs[j := jobs[j].(done := true)];
    }

    /** pthread_cond_wait on g_idle or g_done: any steps of the other threads, of which
        callers know what OthersRun shows. */
    method Sleep(j: JobId)
      requires Mine(View(), j)
      modifies this
      ensures Rely(j, old(View()), View())
    {
    }

    /** submit, for a thread that is woken at most `wakes` times: none means that it is still
        waiting, for the slot that another job is in, or for its own job, posted and not done.  A
        free slot is taken at once. */
    method Submit(j: JobId, wakes: nat) returns (value: Option<nat>)
      requires Mine(View(), j) && pending != Some(j)
      modifies this
      ensures j < |jobs|
      ensures value.Some? ==> jobs[j].runs == 1 && value.value == jobs[j].result && pending.None?
      ensures value.None? ==> pending.Some? && (pending == Some(j) ==> !jobs[j].done)
      ensures value.None? && old(pending).None? ==> pending == Some(j)
    {
      var left := wakes;
      while pending.Some? && left > 0
        invariant Mine(View(), j) && pending != Some(j) && (old(pending).None? ==> pending.None?)
      {
        Sleep(j);
        left := left - 1;
      }
      var posted := TryPost(j);
      if !posted {
        return None;
      }
      while !jobs[j].done && left > 0
        invariant Mine(View(), j) && pending == Some(j)
      {
        Sleep(j);
        left := left - 1;
      }
      value := TryCollect(j);
    }
  }
}
