// Safety and progress of the event-handling protocol over every run, for any number of threads.
module EventTheorems {
  import opened Options
  import opened EventProtocol
  import opened EventInvariant

  // A thread asleep in libusb_wait_for_event and not yet signalled, or about to go to sleep there,
  // is matched by another thread that still has a broadcast to make.
  ghost predicate NoLostWakeup(s: State) {
    forall t :: 0 <= t < |s.pcs| && Committed(s.pcs[t]) ==>
      exists u :: 0 <= u < |s.pcs| && u != t && Owes(s.pcs[u])
  }

  lemma WakeupsAreOwed(run: seq<State>, n: nat, k: nat)
    requires IsRun(run, n, false) && k < |run|
    ensures NoLostWakeup(run[k])
  {
    InvOnRun(run, n, false, k);
    var s := run[k];
    forall t | 0 <= t < |s.pcs| && Committed(s.pcs[t])
      ensures exists u :: 0 <= u < |s.pcs| && u != t && Owes(s.pcs[u])
    {
      var u := CountWitness(Owes, s.pcs);
      assert u != t;
    }
  }

  // event_handler_active implies that the events lock is held, by a thread that is not closing;
  // the converse fails while do_close has lowered the flag under the outer lock.
  lemma ActiveImpliesLockHeld(run: seq<State>, n: nat, mayFail: bool, k: nat)
    requires IsRun(run, n, mayFail) && k < |run|
    ensures var s := run[k];
            s.active ==> s.owner.Some? && s.owner.value < |s.pcs| && HoldDepth(s.pcs[s.owner.value]) == s.depth > 0
    ensures var s := run[k];
            forall t :: 0 <= t < |s.pcs| && s.pcs[t] == Close(true, CloseLockWaiters) ==>
              !s.active && s.owner == Some(t) && s.depth == 1
  {
    InvOnRun(run, n, mayFail, k);
  }

  // At most one thread is handling events, and it is the one that holds the events lock.
  lemma OneHandler(run: seq<State>, n: nat, mayFail: bool, k: nat, t: nat, u: nat)
    requires IsRun(run, n, mayFail) && k < |run| && t < n && u < n && t != u
    requires |run[k].pcs| == n && HoldDepth(run[k].pcs[t]) > 0
    ensures HoldDepth(run[k].pcs[u]) == 0 && !run[k].pcs[u].Handle?
  {
    InvOnRun(run, n, mayFail, k);
  }

  // A thread never starts to poll for a transfer that has already completed, and one that sleeps
  // although its transfer has completed is still owed the broadcast of that completion.
  lemma CompletedTransfersAreNoticed(run: seq<State>, n: nat, mayFail: bool, k: nat, t: nat)
    requires IsRun(run, n, mayFail) && k < |run| && t < n
    ensures var s := run[k]; |s.pcs| == |s.done| == n
    ensures var s := run[k]; s.pcs[t] == Handle(HandlePoll) ==> !s.done[t]
    ensures var s := run[k];
            SawNotDone(s.pcs[t]) && s.done[t] ==>
              exists u :: 0 <= u < n && u != t && CompletionPending(s.pcs[u])
  {
    InvOnRun(run, n, mayFail, k);
    var s := run[k];
    if SawNotDone(s.pcs[t]) && s.done[t] {
      var u := CountWitness(CompletionPending, s.pcs);
      assert u != t;
    }
  }

  // pollfd_modify counts the threads inside a notification and the control pipe holds one byte for
  // each write not read back; so a read always finds a byte, and both are zero at rest.
  lemma InterruptAccounting(run: seq<State>, n: nat, mayFail: bool, k: nat)
    requires IsRun(run, n, mayFail) && k < |run|
    ensures var s := run[k]; s.pollfdModify == Count(Notifying, s.pcs) && s.pipe == Count(ByteOutstanding, s.pcs)
    ensures var s := run[k];
            forall t :: 0 <= t < |s.pcs| && s.pcs[t].Note? && s.pcs[t].note.NoteRead? ==> s.pipe > 0
    ensures var s := run[k];
            forall t :: 0 <= t < |s.pcs| && Notifying(s.pcs[t]) ==> s.pollfdModify > 0
    ensures var s := run[k];
            (forall t :: 0 <= t < |s.pcs| ==> !Notifying(s.pcs[t])) ==> s.pollfdModify == 0 && s.pipe == 0
  {
    InvOnRun(run, n, mayFail, k);
    var s := run[k];
    forall t | 0 <= t < |s.pcs| && s.pcs[t].Note? && s.pcs[t].note.NoteRead?
      ensures s.pipe > 0
    {
      CountUpdate(ByteOutstanding, s.pcs, t, Idle);
    }
    forall t | 0 <= t < |s.pcs| && Notifying(s.pcs[t])
      ensures s.pollfdModify > 0
    {
      CountUpdate(Notifying, s.pcs, t, Idle);
    }
    if forall t :: 0 <= t < |s.pcs| ==> !Notifying(s.pcs[t]) {
      CountZero(Notifying, s.pcs);
      CountZero(ByteOutstanding, s.pcs);
    }
  }

  // A close removes its poll fd under the events lock, with no other thread handling events,
  // exactly when its control-pipe write went through.
  lemma FdRemovedUnderLock(run: seq<State>, n: nat, mayFail: bool, k: nat, t: nat)
    requires IsRun(run, n, mayFail) && k < |run| && t < n
    ensures var s := run[k]; |s.pcs| == n
    ensures var s := run[k];
            s.pcs[t].Close? && s.pcs[t].close.CloseRemoveFd? ==>
              && (s.owner == Some(t) <==> s.pcs[t].nested)
              && (s.pcs[t].nested ==> forall u :: 0 <= u < n && u != t ==> !s.pcs[u].Handle?)
              && (!s.pcs[t].nested ==> mayFail)
  {
    InvOnRun(run, n, mayFail, k);
  }

  // ----- progress

  // The action a thread takes next, in a state that looks like o to it.
  lemma ProgramGoesOn(pc: PC, o: Seen) returns (e: Effect, next: PC)
    requires pc != Idle && pc != Wait(Asleep)
    ensures Program(pc, o, e, next)
    ensures e == TakeEvents ==> o.lockFree || WantsEvents(pc)
    ensures e == TakeWaiters ==> WantsWaiters(pc)
    ensures e == ReadPipe ==> pc.Note? && pc.note.NoteRead?
    ensures !e.MarkDone?
  {
    match pc
    case Try(at) => e, next := TryGoesOn(at, o);
    case Handle(at) => e, next := HandleGoesOn(at, o);
    case Wait(at) => e, next := WaitGoesOn(at, o);
    case Note(kind, at) => e, next := NoteGoesOn(kind, at, o);
    case Close(nested, at) => e, next := CloseGoesOn(nested, at, o);
    case Free(at) => e, next := FreeGoesOn(at, o);
  }

  predicate WantsEvents(pc: PC) {
    (pc.Note? && pc.note.NoteTakeLock?) || (pc.Close? && pc.close.CloseTakeLock?)
  }

  predicate WantsWaiters(pc: PC) {
    match pc
    case Handle(at) => at.DoneLockWaiters?
    case Wait(at) => at.WaitLockWaiters? || at.WaitReacquire?
    case Close(_, at) => at.CloseLockWaiters?
    case Free(at) => at.FreeLockWaiters?
    case _ => false
  }

  lemma TryGoesOn(at: TryAt, o: Seen) returns (e: Effect, next: PC)
    ensures TryProgram(at, o, e, next)
    ensures e == TakeEvents ==> o.lockFree
    ensures e in {Silent, TakeEvents, RaiseActive}
  {
    match at
    case TryReadModify => e, next := Silent, if o.modifying then Wait(WaitLockWaiters) else Try(TryTakeLock);
    case TryTakeLock =>
      if o.lockFree { e, next := TakeEvents, Try(TrySetActive); } else { e, next := Silent, Wait(WaitLockWaiters); }
    case TrySetActive => e, next := RaiseActive, Handle(HandleCheckDone);
  }

  lemma HandleGoesOn(at: HandleAt, o: Seen) returns (e: Effect, next: PC)
    ensures HandleProgram(at, o, e, next)
    ensures e == TakeWaiters ==> at.DoneLockWaiters?
    ensures e in {Silent, TakeWaiters, Broadcast, ReleaseWaiters}
  {
    match at
    case HandleCheckDone => e, next := Silent, if o.done then Free(FreeClearActive) else Handle(HandlePoll);
    case HandlePoll => e, next := Silent, Free(FreeClearActive);
    case HandleEvents => e, next := Silent, Free(FreeClearActive);
    case DoneLockWaiters => e, next := TakeWaiters, Handle(DoneBroadcast);
    case DoneBroadcast => e, next := Broadcast, Handle(DoneUnlockWaiters);
    case DoneUnlockWaiters => e, next := ReleaseWaiters, Handle(HandleEvents);
  }

  lemma WaitGoesOn(at: WaitAt, o: Seen) returns (e: Effect, next: PC)
    ensures WaitProgram(at, o, e, next)
    ensures e == TakeWaiters ==> at.WaitLockWaiters? || at.WaitReacquire?
    ensures e in {Silent, TakeWaiters, ReleaseWaiters}
  {
    match at
    case WaitLockWaiters => e, next := TakeWaiters, Wait(WaitCheckDone);
    case WaitCheckDone => e, next := Silent, Wait(if o.done then WaitUnlock else WaitReadModify);
    case WaitReadModify => e, next := Silent, Wait(if o.modifying then WaitSleep else WaitReadActive);
    case WaitReadActive => e, next := Silent, Wait(if o.active then WaitSleep else RetryUnlock);
    case WaitSleep => e, next := ReleaseWaiters, Wait(Asleep);
    case Asleep => e, next := Silent, Wait(WaitReacquire);
    case WaitReacquire => e, next := TakeWaiters, Wait(WaitUnlock);
    case WaitUnlock => e, next := ReleaseWaiters, Idle;
    case RetryUnlock => e, next := ReleaseWaiters, Try(TryReadModify);
  }

  lemma NoteGoesOn(kind: Notification, at: NoteAt, o: Seen) returns (e: Effect, next: PC)
    ensures NoteProgram(kind, at, o, e, next)
    ensures e == TakeEvents ==> at.NoteTakeLock?
    ensures e == ReadPipe ==> at.NoteRead?
    ensures e in {IncrementModify, DecrementModify, WritePipe, TakeEvents, RaiseActive, ReadPipe}
  {
    match at
    case NoteIncrement => e, next := IncrementModify, Note(kind, NoteWrite);
    case NoteWrite => e, next := WritePipe, Note(kind, NoteTakeLock);
    case NoteTakeLock => e, next := TakeEvents, Note(kind, NoteSetActive);
    case NoteSetActive => e, next := RaiseActive, Note(kind, NoteRead);
    case NoteRead =>
      e := ReadPipe;
      next := if kind == Opening then Note(kind, NoteDecrement) else Close(true, CloseTakeLock);
    case NoteDecrement => e, next := DecrementModify, Free(FreeClearActive);
    case NoteAbort => e, next := DecrementModify, Idle;
  }

  lemma CloseGoesOn(nested: bool, at: CloseAt, o: Seen) returns (e: Effect, next: PC)
    ensures CloseProgram(nested, at, o, e, next)
    ensures e == TakeEvents ==> at.CloseTakeLock?
    ensures e == TakeWaiters ==> at.CloseLockWaiters?
    ensures e in {Silent, TakeEvents, RaiseActive, LowerActive, ReleaseEvents, TakeWaiters, Broadcast, ReleaseWaiters}
  {
    match at
    case CloseTakeLock => e, next := TakeEvents, Close(nested, CloseSetActive);
    case CloseSetActive => e, next := RaiseActive, Close(nested, CloseDropTransfers);
    case CloseDropTransfers => e, next := Silent, Close(nested, CloseClearActive);
    case CloseClearActive => e, next := LowerActive, Close(nested, CloseReleaseLock);
    case CloseReleaseLock => e, next := ReleaseEvents, Close(nested, CloseLockWaiters);
    case CloseLockWaiters => e, next := TakeWaiters, Close(nested, CloseBroadcast);
    case CloseBroadcast => e, next := Broadcast, Close(nested, CloseUnlockWaiters);
    case CloseUnlockWaiters => e, next := ReleaseWaiters, Close(nested, CloseRemoveFd);
    case CloseRemoveFd => e, next := Silent, Note(Closing, if nested then NoteDecrement else NoteAbort);
  }

  lemma FreeGoesOn(at: FreeAt, o: Seen) returns (e: Effect, next: PC)
    ensures FreeProgram(at, o, e, next)
    ensures e == TakeWaiters ==> at.FreeLockWaiters?
    ensures e in {LowerActive, ReleaseEvents, TakeWaiters, Broadcast, ReleaseWaiters}
  {
    match at
    case FreeClearActive => e, next := LowerActive, Free(FreeReleaseLock);
    case FreeReleaseLock => e, next := ReleaseEvents, Free(FreeLockWaiters);
    case FreeLockWaiters => e, next := TakeWaiters, Free(FreeBroadcast);
    case FreeBroadcast => e, next := Broadcast, Free(FreeUnlockWaiters);
    case FreeUnlockWaiters => e, next := ReleaseWaiters, Idle;
  }

  // The thread can act now, without any device event, timeout or new call: poll() returns by
  // itself only when the control pipe is readable.
  ghost predicate Runnable(s: State, t: nat) {
    && t < |s.pcs| && s.pcs[t] != Idle && s.pcs[t] != Wait(Asleep)
    && (s.pcs[t] == Handle(HandlePoll) ==> s.pipe > 0)
    && exists e, next :: CanStep(s, t, e, next)
  }

  // The thread polls with nothing in the control pipe: it waits for the outside world.
  predicate PollsQuietly(s: State, t: nat) {
    t < |s.pcs| && s.pcs[t] == Handle(HandlePoll) && s.pipe == 0
  }

  // Unless it wants a lock that another thread has, a thread that is neither idle nor asleep can act.
  lemma RunnableUnlessBlocked(s: State, t: nat)
    requires Inv(s) && t < |s.pcs|
    requires s.pcs[t] != Idle && s.pcs[t] != Wait(Asleep) && !PollsQuietly(s, t)
    requires WantsEvents(s.pcs[t]) ==> CanTake(s, t)
    requires WantsWaiters(s.pcs[t]) ==> s.waiters.None?
    ensures Runnable(s, t)
  {
    hide Program, WantsEvents, WantsWaiters;
    var e, next := ProgramGoesOn(s.pcs[t], Look(s, t));
    if e == ReadPipe {
      assert ByteOutstanding(s.pcs[t]);
      CountUpdate(ByteOutstanding, s.pcs, t, Idle);
    }
    assert CanStep(s, t, e, next);
  }

  // The holder of the waiters lock is never blocked.
  lemma WaitersHolderRuns(s: State, t: nat) returns (u: nat)
    requires Inv(s) && t < |s.pcs|
    requires WantsWaiters(s.pcs[t]) && s.waiters.Some?
    ensures Runnable(s, u)
  {
    u := s.waiters.value;
    RunnableUnlessBlocked(s, u);
  }

  // Whoever holds the events lock runs, polls quietly, or leads to a thread that runs.
  lemma EventsHolderRuns(s: State, u: nat) returns (v: nat)
    requires Inv(s) && u < |s.pcs| && HoldDepth(s.pcs[u]) > 0
    ensures Runnable(s, v) || (v == u && PollsQuietly(s, v))
  {
    if PollsQuietly(s, u) {
      v := u;
    } else if WantsWaiters(s.pcs[u]) && s.waiters.Some? {
      v := WaitersHolderRuns(s, u);
    } else {
      RunnableUnlessBlocked(s, u);
      v := u;
    }
  }

  lemma AwakeLeadsOn(s: State, t: nat) returns (u: nat)
    requires Inv(s) && t < |s.pcs| && s.pcs[t] != Idle && s.pcs[t] != Wait(Asleep)
    ensures Runnable(s, u) || PollsQuietly(s, u)
  {
    if WantsWaiters(s.pcs[t]) && s.waiters.Some? {
      u := WaitersHolderRuns(s, t);
    } else if WantsEvents(s.pcs[t]) && !CanTake(s, t) {
      u := EventsHolderRuns(s, s.owner.value);
    } else if PollsQuietly(s, t) {
      u := t;
    } else {
      RunnableUnlessBlocked(s, t);
      u := t;
    }
  }

  // No deadlock: while any thread is inside libusb, asleep or not, some thread can act, or the
  // event handler is polling and only the outside world is missing.
  lemma NoDeadlock(run: seq<State>, n: nat, k: nat, t: nat) returns (u: nat)
    requires IsRun(run, n, false) && k < |run| && t < n
    ensures |run[k].pcs| == n
    ensures run[k].pcs[t] != Idle ==> Runnable(run[k], u) || PollsQuietly(run[k], u)
  {
    InvOnRun(run, n, false, k);
    var s := run[k];
    u := t;
    if s.pcs[t] == Wait(Asleep) {
      var v := CountWitness(Owes, s.pcs);
      u := AwakeLeadsOn(s, v);
    } else if s.pcs[t] != Idle {
      u := AwakeLeadsOn(s, t);
    }
  }

  // The control pipe does its work: a thread that waits for the events lock in order to open or
  // close a device never depends on the outside world, because its byte ends the handler's poll.
  lemma NotificationInterruptsPoll(run: seq<State>, n: nat, mayFail: bool, k: nat, t: nat) returns (u: nat)
    requires IsRun(run, n, mayFail) && k < |run| && t < n
    ensures |run[k].pcs| == n
    ensures ByteOutstanding(run[k].pcs[t]) ==> Runnable(run[k], u)
  {
    InvOnRun(run, n, mayFail, k);
    var s := run[k];
    u := t;
    if ByteOutstanding(s.pcs[t]) {
      CountUpdate(ByteOutstanding, s.pcs, t, Idle);
      u := AwakeLeadsOn(s, t);
    }
  }

  // ----- the condition is exact: with a refused control-pipe write a wakeup can be lost

  function Started(n: nat, mayFail: bool): State {
    State(seq(n, _ => Idle), seq(n, _ => false), None, 0, None, false, 0, 0, mayFail)
  }

  // Thread 0 opens a device and thread 1, which sees pollfd_modify raised, goes to wait.
  lemma WaiterSeesNotification(n: nat) returns (s: State, run: seq<State>)
    requires n >= 2
    ensures IsRun(run, n, true) && run[|run| - 1] == s
    ensures s == Started(n, true).(
                   pcs := Started(n, true).pcs[0 := Note(Opening, NoteWrite)][1 := Wait(WaitReadModify)],
                   waiters := Some(1), pollfdModify := 1)
  {
    s, run := Started(n, true), [Started(n, true)];
    s, run := Extend(s, run, n, true, 0, Silent, Note(Opening, NoteIncrement));
    s, run := Extend(s, run, n, true, 0, IncrementModify, Note(Opening, NoteWrite));
    s, run := Extend(s, run, n, true, 1, Silent, Try(TryReadModify));
    s, run := Extend(s, run, n, true, 1, Silent, Wait(WaitLockWaiters));
    s, run := Extend(s, run, n, true, 1, TakeWaiters, Wait(WaitCheckDone));
    s, run := Extend(s, run, n, true, 1, Silent, Wait(WaitReadModify));
    assert s.pcs == Started(n, true).pcs[0 := Note(Opening, NoteWrite)][1 := Wait(WaitReadModify)];
  }

  // Thread 1 sleeps; the write of thread 0 is refused and it leaves without a broadcast.
  lemma WakeupLostAfterRefusedWrite(n: nat) returns (run: seq<State>)
    requires n >= 2
    ensures IsRun(run, n, true)
    ensures !NoLostWakeup(run[|run| - 1])
  {
    var s;
    s, run := WaiterSeesNotification(n);
    s, run := Extend(s, run, n, true, 1, Silent, Wait(WaitSleep));
    s, run := Extend(s, run, n, true, 1, ReleaseWaiters, Wait(Asleep));
    s, run := Extend(s, run, n, true, 0, Silent, Note(Opening, NoteAbort));
    s, run := Extend(s, run, n, true, 0, DecrementModify, Idle);
    assert Committed(s.pcs[1]);
    assert forall u :: 0 <= u < n && u != 1 ==> s.pcs[u] == Idle;
  }

  lemma Extend(s: State, run: seq<State>, n: nat, mayFail: bool, t: nat, e: Effect, next: PC)
    returns (s': State, run': seq<State>)
    requires IsRun(run, n, mayFail) && run[|run| - 1] == s && CanStep(s, t, e, next)
    ensures s' == Apply(s, t, e, next)
    ensures run' == run + [s'] && IsRun(run', n, mayFail)
  {
    s' := Apply(s, t, e, next);
    assert Next(s, s');
    run' := run + [s'];
    hide Apply, CanStep, Next;
  }

  // No wakeup is ever lost exactly when the control pipe accepts every write.
  lemma SafeExactlyWhenWritesSucceed(n: nat, mayFail: bool)
    requires n >= 2
    ensures (forall run :: IsRun(run, n, mayFail) ==> NoLostWakeup(run[|run| - 1])) <==> !mayFail
  {
    if mayFail {
      var run := WakeupLostAfterRefusedWrite(n);
    } else {
      forall run | IsRun(run, n, mayFail)
        ensures NoLostWakeup(run[|run| - 1])
      {
        WakeupsAreOwed(run, n, |run| - 1);
      }
    }
  }
}
