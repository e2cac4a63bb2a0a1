// What calls get done: none comes back without having done what it is for, and there are whole runs in which
// it is done.
module EventProgress {
  import opened Options
  import opened EventProtocol
  import opened EventInvariant
  import opened EventTheorems

  // Thread t makes one call between states i and k, and is inside it in all states between them.
  ghost predicate IsCall(run: seq<State>, n: nat, i: nat, k: nat, t: nat) {
    && i < k < |run| && t < n
    && (forall j :: 0 <= j < |run| ==> |run[j].pcs| == |run[j].done| == n)
    && run[i].pcs[t] == Idle && run[k].pcs[t] == Idle
    && forall j :: i < j < k ==> run[j].pcs[t] != Idle
  }

  // --- libusb_handle_events_timeout_completed

  // The thread polls, sleeps until somebody else has handled an event, or has nothing to wait for any more.
  predicate Attends(s: State, t: nat) {
    && IsThread(s, t)
    && (s.pcs[t] == Handle(HandlePoll) || s.pcs[t] == Wait(Asleep) || s.done[t])
  }

  // Where a call has got that has not come to any of these yet
  predicate OnTheWay(pc: PC) {
    match pc
    case Try(_) => true
    case Handle(at) => at.HandleCheckDone?
    case Wait(at) =>
      at.WaitLockWaiters? || at.WaitCheckDone? || at.WaitReadModify? || at.WaitReadActive? || at.WaitSleep?
      || at.RetryUnlock?
    case _ => false
  }

  predicate IsAttention(pc: PC) {
    pc == Handle(HandlePoll) || pc == Wait(Asleep)
  }

  lemma GoesOnTheWay(pc: PC, o: Seen, e: Effect, next: PC)
    requires Program(pc, o, e, next) && OnTheWay(pc) && !o.done
    ensures OnTheWay(next) || IsAttention(next)
  {
  }

  lemma StaysOnTheWay(s: State, s': State, t: nat)
    requires Next(s, s') && IsThread(s, t) && OnTheWay(s.pcs[t]) && !Attends(s, t)
    ensures IsThread(s', t) && (OnTheWay(s'.pcs[t]) || IsAttention(s'.pcs[t]))
  {
    hide Program, Apply, OnTheWay;
    var u: nat, e, next :| CanStep(s, u, e, next) && s' == Apply(s, u, e, next);
    if u == t {
      GoesOnTheWay(s.pcs[t], Look(s, t), e, next);
      DoneChanges(s, t, e, next, t);
    } else {
      OthersMove(s, t, u, e, next);
    }
  }

  // The other threads move a thread only by waking it.
  lemma OthersMove(s: State, t: nat, u: nat, e: Effect, next: PC)
    requires CanStep(s, u, e, next) && IsThread(s, t) && u != t
    ensures var s' := Apply(s, u, e, next);
            && |s'.pcs| == |s.pcs| && |s'.done| == |s.done|
            && s'.pcs[t] == if e == Broadcast && s.pcs[t] == Wait(Asleep) then Wait(WaitReacquire) else s.pcs[t]
  {
    hide Program;
  }

  // A call that handles events comes back only after it has polled, or slept while another thread handled
  // them, unless the transfer that it waits for is complete.
  lemma EventsAreAttendedTo(run: seq<State>, n: nat, mayFail: bool, i: nat, k: nat, t: nat)
    requires IsRun(run, n, mayFail) && IsCall(run, n, i, k, t) && run[i + 1].pcs[t] == Try(TryReadModify)
    ensures exists j :: i < j < k && Attends(run[j], t)
  {
    hide Next, Attends;
    if forall j :: i < j < k ==> !Attends(run[j], t) {
      WholeWay(run, n, mayFail, i, k, t);
    }
  }

  lemma {:induction false} WholeWay(run: seq<State>, n: nat, mayFail: bool, i: nat, j: nat, t: nat)
    requires IsRun(run, n, mayFail) && i < j < |run| && t < n
    requires forall l :: 0 <= l < |run| ==> |run[l].pcs| == |run[l].done| == n
    requires run[i + 1].pcs[t] == Try(TryReadModify)
    requires forall l :: i < l < j ==> !Attends(run[l], t)
    ensures OnTheWay(run[j].pcs[t]) || IsAttention(run[j].pcs[t])
    decreases j
  {
    hide Next;
    if j > i + 1 {
      WholeWay(run, n, mayFail, i, j - 1, t);
      assert Next(run[j - 1], run[j - 1 + 1]);
      StaysOnTheWay(run[j - 1], run[j], t);
    }
  }

  // Transfers are completed only by the thread that holds the events lock and has polled.
  lemma OnlyHandlersComplete(run: seq<State>, n: nat, mayFail: bool, k: nat, x: nat) returns (t: nat)
    requires IsRun(run, n, mayFail) && k + 1 < |run| && x < n
    ensures |run[k].done| == |run[k + 1].done| == |run[k].pcs| == |run[k + 1].pcs| == n
    ensures !run[k].done[x] && run[k + 1].done[x] ==>
              && t < n && run[k].owner == Some(t) && run[k].pcs[t] == Handle(HandleEvents)
              && run[k + 1].pcs[t] == Handle(DoneLockWaiters)
    ensures run[k].done[x] && !run[k + 1].done[x] ==> run[k].pcs[x] == Idle
  {
    hide Program, Inv, Apply;
    InvOnRun(run, n, mayFail, k);
    InvOnRun(run, n, mayFail, k + 1);
    InvCounts(run[k]);
    InvCounts(run[k + 1]);
    var s, s' := run[k], run[k + 1];
    assert Next(s, s');
    var u: nat, e, next :| CanStep(s, u, e, next) && s' == Apply(s, u, e, next);
    t := u;
    ProgramCompletes(s.pcs[u], Look(s, u), e, next);
    DoneChanges(s, u, e, next, x);
  }

  lemma InvCounts(s: State)
    requires Inv(s)
    ensures |s.done| == |s.pcs|
    ensures forall t :: 0 <= t < |s.pcs| && s.pcs[t] == Handle(HandleEvents) ==> s.owner == Some(t)
  {
  }

  lemma DoneChanges(s: State, t: nat, e: Effect, next: PC, x: nat)
    requires IsThread(s, t) && Enabled(s, t, e) && x < |s.done|
    ensures var s' := Apply(s, t, e, next);
            && |s'.done| == |s.done| && |s'.pcs| == |s.pcs| && s'.pcs[t] == next
            && (s'.done[x] <==> e == MarkDone(x) || (s.done[x] && !(e == ClearDone && x == t)))
  {
  }

  lemma ProgramCompletes(pc: PC, o: Seen, e: Effect, next: PC)
    requires Program(pc, o, e, next)
    ensures e.MarkDone? ==> pc == Handle(HandleEvents) && next == Handle(DoneLockWaiters)
    ensures e == ClearDone ==> pc == Idle
  {
  }

  // --- libusb_open and libusb_close

  // The program leads on along `way`, unless it comes to `goal`.
  ghost predicate LeadsTo(way: PC -> bool, goal: PC -> bool, mayFail: bool) {
    && !way(Idle) && !way(Wait(Asleep))
    && forall pc, o, e, next ::
         Program(pc, o, e, next) && way(pc) && (o.mayFail ==> mayFail) ==> way(next) || goal(next)
  }

  lemma {:induction false} ReachesGoal(run: seq<State>, n: nat, mayFail: bool, i: nat, j: nat, t: nat,
                                       way: PC -> bool, goal: PC -> bool)
    requires IsRun(run, n, mayFail) && i < j < |run| && t < n && LeadsTo(way, goal, mayFail)
    requires forall l :: 0 <= l < |run| ==> |run[l].pcs| == |run[l].done| == n
    requires way(run[i + 1].pcs[t]) && forall l :: i < l < j ==> !goal(run[l].pcs[t])
    ensures way(run[j].pcs[t]) || goal(run[j].pcs[t])
    decreases j
  {
    hide Next, LeadsTo;
    if j > i + 1 {
      ReachesGoal(run, n, mayFail, i, j - 1, t, way, goal);
      assert Next(run[j - 1], run[j - 1 + 1]);
      InvOnRun(run, n, mayFail, j - 1);
      StepsTowardsGoal(run[j - 1], run[j], t, way, goal);
    }
  }

  lemma StepsTowardsGoal(s: State, s': State, t: nat, way: PC -> bool, goal: PC -> bool)
    requires Next(s, s') && IsThread(s, t) && way(s.pcs[t]) && LeadsTo(way, goal, s.pipeMayFail)
    ensures IsThread(s', t) && (way(s'.pcs[t]) || goal(s'.pcs[t]))
  {
    hide Program, Apply;
    var u: nat, e, next :| CanStep(s, u, e, next) && s' == Apply(s, u, e, next);
    if u == t {
      assert Program(s.pcs[t], Look(s, t), e, next);
      DoneChanges(s, t, e, next, t);
    } else {
      OthersMove(s, t, u, e, next);
    }
  }

  predicate BeforeLock(pc: PC) {
    pc.Note? && pc.kind == Opening && (pc.note.NoteIncrement? || pc.note.NoteWrite? || pc.note.NoteTakeLock?)
  }

  predicate LockOrRefusal(pc: PC) {
    pc == Note(Opening, NoteSetActive) || pc == Note(Opening, NoteAbort)
  }

  // Opening a device comes back only after it has held the events lock, so that the handler has seen the
  // interrupt, unless its control-pipe write was refused.
  lemma OpenTakesLock(run: seq<State>, n: nat, mayFail: bool, i: nat, k: nat, t: nat)
    requires IsRun(run, n, mayFail) && IsCall(run, n, i, k, t) && run[i + 1].pcs[t] == Note(Opening, NoteIncrement)
    ensures exists j :: i < j < k && (run[j].owner == Some(t) || (mayFail && run[j].pcs[t] == Note(Opening, NoteAbort)))
  {
    hide Next;
    OpenLeadsTo(mayFail);
    if forall j :: i < j < k ==> !LockOrRefusal(run[j].pcs[t]) {
      ReachesGoal(run, n, mayFail, i, k, t, BeforeLock, LockOrRefusal);
      assert false;
    }
    var j :| i < j < k && LockOrRefusal(run[j].pcs[t]);
    InvOnRun(run, n, mayFail, j);
    assert Aborts(run[j].pcs[t]) || HoldDepth(run[j].pcs[t]) > 0;
  }

  lemma OpenLeadsTo(mayFail: bool)
    ensures LeadsTo(BeforeLock, LockOrRefusal, mayFail)
  {
  }

  predicate BeforeDrop(pc: PC) {
    || (pc.Note? && pc.kind == Closing && !pc.note.NoteDecrement? && !pc.note.NoteAbort?)
    || (pc.Close? && (pc.close.CloseTakeLock? || pc.close.CloseSetActive?))
  }

  predicate DropsTransfers(pc: PC) {
    pc.Close? && pc.close.CloseDropTransfers?
  }

  predicate BeforeRemoval(pc: PC) {
    || (pc.Note? && pc.kind == Closing && !pc.note.NoteDecrement? && !pc.note.NoteAbort?)
    || (pc.Close? && !pc.close.CloseRemoveFd?)
  }

  predicate RemovesFd(pc: PC) {
    pc.Close? && pc.close.CloseRemoveFd?
  }

  // Closing a device comes back only after it has dropped its transfers under the events lock and removed the
  // device's poll fd.
  lemma CloseDropsAndRemoves(run: seq<State>, n: nat, mayFail: bool, i: nat, k: nat, t: nat)
    requires IsRun(run, n, mayFail) && IsCall(run, n, i, k, t) && run[i + 1].pcs[t] == Note(Closing, NoteIncrement)
    ensures exists j :: i < j < k && DropsTransfers(run[j].pcs[t]) && run[j].owner == Some(t) && run[j].active
    ensures exists j :: i < j < k && RemovesFd(run[j].pcs[t])
  {
    hide Next;
    CloseLeadsTo(mayFail);
    if forall j :: i < j < k ==> !DropsTransfers(run[j].pcs[t]) {
      ReachesGoal(run, n, mayFail, i, k, t, BeforeDrop, DropsTransfers);
      assert false;
    }
    if forall j :: i < j < k ==> !RemovesFd(run[j].pcs[t]) {
      ReachesGoal(run, n, mayFail, i, k, t, BeforeRemoval, RemovesFd);
      assert false;
    }
    var j :| i < j < k && DropsTransfers(run[j].pcs[t]);
    InvOnRun(run, n, mayFail, j);
    assert MustBeActive(run[j].pcs[t]) && HoldDepth(run[j].pcs[t]) > 0;
  }

  lemma CloseLeadsTo(mayFail: bool)
    ensures LeadsTo(BeforeDrop, DropsTransfers, mayFail)
    ensures LeadsTo(BeforeRemoval, RemovesFd, mayFail)
  {
  }

  // --- A run in which it happens

  // What threads 0 and 1 of n do, while all others are idle; whether the transfer of thread 1 is complete; and
  // the locks
  datatype Scene = Scene(a: PC, b: PC, done: bool, owner: Option<nat>, waiters: Option<nat>, active: bool)

  function At(n: nat, mayFail: bool, c: Scene): State {
    Started(n, mayFail).(
      pcs := seq(n, i => if i == 0 then c.a else if i == 1 then c.b else Idle), done := seq(n, i => i == 1 && c.done),
      owner := c.owner, depth := if c.owner.Some? then 1 else 0, waiters := c.waiters, active := c.active)
  }

  // What the two threads see of each other
  function Sees(c: Scene, t: nat, mayFail: bool): Seen {
    Seen(false, c.active, t == 1 && c.done, c.owner.None? || c.owner == Some(t), mayFail)
  }

  // The effects that occur in the run
  function Acts(c: Scene, t: nat, e: Effect, next: PC): Scene {
    var waking := e == Broadcast && c.b == Wait(Asleep);
    var d := c.(a := if t == 0 then next else c.a,
                b := if t == 1 then next else if waking then Wait(WaitReacquire) else c.b);
    match e
    case TakeEvents => d.(owner := Some(t))
    case ReleaseEvents => d.(owner := None)
    case RaiseActive => d.(active := true)
    case LowerActive => d.(active := false)
    case TakeWaiters => d.(waiters := Some(t))
    case ReleaseWaiters => d.(waiters := None)
    case MarkDone(_) => d.(done := true)
    case _ => d
  }

  predicate CanAct(c: Scene, t: nat, e: Effect) {
    match e
    case Silent => true
    case TakeEvents => c.owner.None?
    case ReleaseEvents => true
    case RaiseActive => true
    case LowerActive => true
    case TakeWaiters => c.waiters.None?
    case ReleaseWaiters => true
    case MarkDone(x) => x == 1
    case Broadcast => t == 0
    case _ => false
  }

  lemma PcsAct(n: nat, c: Scene, t: nat, e: Effect, next: PC)
    requires n >= 2 && t < 2 && c.a != Wait(Asleep)
    ensures var d := Acts(c, t, e, next);
            Move(seq(n, i => if i == 0 then c.a else if i == 1 then c.b else Idle), t, e, next) ==
            seq(n, i => if i == 0 then d.a else if i == 1 then d.b else Idle)
  {
  }

  lemma DoneActs(n: nat, b: bool)
    requires n >= 2
    ensures seq(n, i => i == 1 && b)[1 := true] == seq(n, i => i == 1)
  {
  }

  lemma LooksAlike(n: nat, mayFail: bool, c: Scene, t: nat, e: Effect)
    requires n >= 2 && t < 2 && CanAct(c, t, e)
    ensures Look(At(n, mayFail, c), t) == Sees(c, t, mayFail)
    ensures Enabled(At(n, mayFail, c), t, e) && IsThread(At(n, mayFail, c), t)
  {
  }

  lemma ActsAlike(n: nat, mayFail: bool, c: Scene, t: nat, e: Effect, next: PC)
    requires n >= 2 && t < 2 && CanAct(c, t, e) && c.a != Wait(Asleep)
    requires Enabled(At(n, mayFail, c), t, e) && IsThread(At(n, mayFail, c), t)
    ensures Apply(At(n, mayFail, c), t, e, next) == At(n, mayFail, Acts(c, t, e, next))
  {
    hide Move, Enabled, IsThread;
    PcsAct(n, c, t, e, next);
    if e.MarkDone? {
      DoneActs(n, c.done);
      assert seq(n, i => i == 1) == seq(n, i => i == 1 && true);
    }
  }

  // The run so far, with one more step
  lemma Act(run: seq<State>, n: nat, mayFail: bool, c: Scene, t: nat, e: Effect, next: PC)
    returns (run': seq<State>, c': Scene)
    requires n >= 2 && IsRun(run, n, mayFail) && run[|run| - 1] == At(n, mayFail, c) && c.a != Wait(Asleep)
    requires t < 2 && CanAct(c, t, e) && Program(if t == 0 then c.a else c.b, Sees(c, t, mayFail), e, next)
    ensures c' == Acts(c, t, e, next) && run' == run + [At(n, mayFail, c')] && IsRun(run', n, mayFail)
  {
    hide Program, Apply, Enabled, Look;
    c' := Acts(c, t, e, next);
    LooksAlike(n, mayFail, c, t, e);
    ActsAlike(n, mayFail, c, t, e, next);
    var s;
    s, run' := Extend(At(n, mayFail, c), run, n, mayFail, t, e, next);
  }

  // Thread 0 gets the events lock and polls.
  lemma OnePolls(n: nat, mayFail: bool) returns (run: seq<State>, c: Scene)
    requires n >= 2
    ensures c == Scene(Handle(HandlePoll), Idle, false, Some(0), None, true)
    ensures IsRun(run, n, mayFail) && run[|run| - 1] == At(n, mayFail, c)
  {
    hide IsRun, At;
    c := Scene(Idle, Idle, false, None, None, false);
    run := AtRest(n, mayFail);
    run, c := Act(run, n, mayFail, c, 0, Silent, Try(TryReadModify));
    run, c := Act(run, n, mayFail, c, 0, Silent, Try(TryTakeLock));
    run, c := Act(run, n, mayFail, c, 0, TakeEvents, Try(TrySetActive));
    run, c := Act(run, n, mayFail, c, 0, RaiseActive, Handle(HandleCheckDone));
    run, c := Act(run, n, mayFail, c, 0, Silent, Handle(HandlePoll));
  }

  // Thread 1 finds the lock taken and its transfer not complete.
  lemma OneWaits(before: seq<State>, n: nat, mayFail: bool) returns (run: seq<State>, c: Scene)
    requires n >= 2 && IsRun(before, n, mayFail)
    requires before[|before| - 1] == At(n, mayFail, Scene(Handle(HandlePoll), Idle, false, Some(0), None, true))
    ensures c == Scene(Handle(HandlePoll), Wait(WaitReadModify), false, Some(0), Some(1), true)
    ensures IsRun(run, n, mayFail) && before < run && run[|run| - 1] == At(n, mayFail, c)
  {
    hide IsRun, At;
    run, c := before, Scene(Handle(HandlePoll), Idle, false, Some(0), None, true);
    run, c := Act(run, n, mayFail, c, 1, Silent, Try(TryReadModify));
    run, c := Act(run, n, mayFail, c, 1, Silent, Try(TryTakeLock));
    run, c := Act(run, n, mayFail, c, 1, Silent, Wait(WaitLockWaiters));
    run, c := Act(run, n, mayFail, c, 1, TakeWaiters, Wait(WaitCheckDone));
    run, c := Act(run, n, mayFail, c, 1, Silent, Wait(WaitReadModify));
  }

  // It goes to sleep.
  lemma OneSleeps(before: seq<State>, n: nat, mayFail: bool) returns (run: seq<State>, c: Scene)
    requires n >= 2 && IsRun(before, n, mayFail)
    requires before[|before| - 1] == At(n, mayFail,
             Scene(Handle(HandlePoll), Wait(WaitReadModify), false, Some(0), Some(1), true))
    ensures c == Scene(Handle(HandlePoll), Wait(Asleep), false, Some(0), None, true)
    ensures IsRun(run, n, mayFail) && before < run && run[|run| - 1] == At(n, mayFail, c)
  {
    hide IsRun, At;
    run, c := before, Scene(Handle(HandlePoll), Wait(WaitReadModify), false, Some(0), Some(1), true);
    run, c := Act(run, n, mayFail, c, 1, Silent, Wait(WaitReadActive));
    run, c := Act(run, n, mayFail, c, 1, Silent, Wait(WaitSleep));
    run, c := Act(run, n, mayFail, c, 1, ReleaseWaiters, Wait(Asleep));
  }

  // Thread 0 completes the transfer of thread 1.
  lemma OneCompletes(before: seq<State>, n: nat, mayFail: bool) returns (run: seq<State>, c: Scene)
    requires n >= 2 && IsRun(before, n, mayFail)
    requires before[|before| - 1] == At(n, mayFail, Scene(Handle(HandlePoll), Wait(Asleep), false, Some(0), None, true))
    ensures c == Scene(Handle(DoneLockWaiters), Wait(Asleep), true, Some(0), None, true)
    ensures IsRun(run, n, mayFail) && before < run && run[|run| - 1] == At(n, mayFail, c)
  {
    hide IsRun, At;
    run, c := before, Scene(Handle(HandlePoll), Wait(Asleep), false, Some(0), None, true);
    run, c := Act(run, n, mayFail, c, 0, Silent, Handle(HandleEvents));
    run, c := Act(run, n, mayFail, c, 0, MarkDone(1), Handle(DoneLockWaiters));
  }

  // It wakes thread 1.
  lemma OneBroadcasts(before: seq<State>, n: nat, mayFail: bool) returns (run: seq<State>, c: Scene)
    requires n >= 2 && IsRun(before, n, mayFail)
    requires before[|before| - 1] == At(n, mayFail,
             Scene(Handle(DoneLockWaiters), Wait(Asleep), true, Some(0), None, true))
    ensures c == Scene(Handle(DoneUnlockWaiters), Wait(WaitReacquire), true, Some(0), Some(0), true)
    ensures IsRun(run, n, mayFail) && before < run && run[|run| - 1] == At(n, mayFail, c)
  {
    hide IsRun, At;
    run, c := before, Scene(Handle(DoneLockWaiters), Wait(Asleep), true, Some(0), None, true);
    run, c := Act(run, n, mayFail, c, 0, TakeWaiters, Handle(DoneBroadcast));
    run, c := Act(run, n, mayFail, c, 0, Broadcast, Handle(DoneUnlockWaiters));
  }

  // Thread 1 comes back.
  lemma OneReturns(before: seq<State>, n: nat, mayFail: bool) returns (run: seq<State>, c: Scene)
    requires n >= 2 && IsRun(before, n, mayFail)
    requires before[|before| - 1] == At(n, mayFail,
             Scene(Handle(DoneUnlockWaiters), Wait(WaitReacquire), true, Some(0), Some(0), true))
    ensures c == Scene(Handle(HandleEvents), Idle, true, Some(0), None, true)
    ensures IsRun(run, n, mayFail) && before < run && run[|run| - 1] == At(n, mayFail, c)
  {
    hide IsRun, At;
    run, c := before, Scene(Handle(DoneUnlockWaiters), Wait(WaitReacquire), true, Some(0), Some(0), true);
    run, c := Act(run, n, mayFail, c, 0, ReleaseWaiters, Handle(HandleEvents));
    run, c := Act(run, n, mayFail, c, 1, TakeWaiters, Wait(WaitUnlock));
    run, c := Act(run, n, mayFail, c, 1, ReleaseWaiters, Idle);
  }

  // Thread 0 gives up the events lock.
  lemma OneLetsGo(before: seq<State>, n: nat, mayFail: bool) returns (run: seq<State>, c: Scene)
    requires n >= 2 && IsRun(before, n, mayFail)
    requires before[|before| - 1] == At(n, mayFail, Scene(Handle(HandleEvents), Idle, true, Some(0), None, true))
    ensures c == Scene(Free(FreeLockWaiters), Idle, true, None, None, false)
    ensures IsRun(run, n, mayFail) && before < run && run[|run| - 1] == At(n, mayFail, c)
  {
    hide IsRun, At;
    run, c := before, Scene(Handle(HandleEvents), Idle, true, Some(0), None, true);
    run, c := Act(run, n, mayFail, c, 0, Silent, Free(FreeClearActive));
    run, c := Act(run, n, mayFail, c, 0, LowerActive, Free(FreeReleaseLock));
    run, c := Act(run, n, mayFail, c, 0, ReleaseEvents, Free(FreeLockWaiters));
  }

  // It wakes whoever might be asleep.
  lemma OneLeaves(before: seq<State>, n: nat, mayFail: bool) returns (run: seq<State>, c: Scene)
    requires n >= 2 && IsRun(before, n, mayFail)
    requires before[|before| - 1] == At(n, mayFail, Scene(Free(FreeLockWaiters), Idle, true, None, None, false))
    ensures c == Scene(Free(FreeUnlockWaiters), Idle, true, None, Some(0), false)
    ensures IsRun(run, n, mayFail) && before < run && run[|run| - 1] == At(n, mayFail, c)
  {
    hide IsRun, At;
    run, c := before, Scene(Free(FreeLockWaiters), Idle, true, None, None, false);
    run, c := Act(run, n, mayFail, c, 0, TakeWaiters, Free(FreeBroadcast));
    run, c := Act(run, n, mayFail, c, 0, Broadcast, Free(FreeUnlockWaiters));
  }

  // One thread polls while another sleeps; the event that the first one handles completes the transfer that the
  // other waits for, and both come back.
  lemma EventIsHandled(n: nat, mayFail: bool) returns (run: seq<State>, polls: nat, handled: nat)
    requires n >= 2
    ensures IsRun(run, n, mayFail) && polls < handled < |run|
    ensures forall j :: 0 <= j < |run| ==> |run[j].pcs| == |run[j].done| == n
    ensures run[polls].pcs[0] == Handle(HandlePoll) && run[polls].pcs[1] == Wait(Asleep) && !run[polls].done[1]
    ensures run[handled].pcs[0].Handle? && run[handled].pcs[1] == Wait(WaitReacquire) && run[handled].done[1]
    ensures var s := run[|run| - 1]; s.done[1] && s.owner == None && forall t :: 0 <= t < n ==> s.pcs[t] == Idle
  {
    hide IsRun;
    var c;
    run, c := OnePolls(n, mayFail);
    run, c := OneWaits(run, n, mayFail);
    run, c := OneSleeps(run, n, mayFail);
    polls := |run| - 1;
    run, c := OneCompletes(run, n, mayFail);
    run, c := OneBroadcasts(run, n, mayFail);
    handled := |run| - 1;
    run, c := OneReturns(run, n, mayFail);
    run, c := OneLetsGo(run, n, mayFail);
    run, c := OneLeaves(run, n, mayFail);
    run, c := Act(run, n, mayFail, c, 0, ReleaseWaiters, Idle);
    forall j | 0 <= j < |run|
      ensures |run[j].pcs| == |run[j].done| == n
    {
      InvOnRun(run, n, mayFail, j);
    }
  }

  lemma AtRest(n: nat, mayFail: bool) returns (run: seq<State>)
    requires n >= 2
    ensures run == [At(n, mayFail, Scene(Idle, Idle, false, None, None, false))] && IsRun(run, n, mayFail)
  {
    run := [At(n, mayFail, Scene(Idle, Idle, false, None, None, false))];
  }
}
