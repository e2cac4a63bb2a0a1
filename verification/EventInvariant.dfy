// What every step of the event-handling protocol keeps.
module EventInvariant {
  import opened Options
  import opened EventProtocol

  // The events lock belongs to the one thread whose program counter says so, at that depth.
  ghost predicate LocksOk(s: State) {
    && |s.done| == |s.pcs|
    && (s.owner.None? ==> s.depth == 0)
    && (s.owner.Some? ==> s.owner.value < |s.pcs| && HoldDepth(s.pcs[s.owner.value]) > 0)
    && (forall i :: 0 <= i < |s.pcs| && HoldDepth(s.pcs[i]) > 0 ==>
          s.owner == Some(i) && s.depth == HoldDepth(s.pcs[i]))
  }

  ghost predicate WaitersOk(s: State) {
    && (s.waiters.Some? ==> s.waiters.value < |s.pcs| && HoldsWaiters(s.pcs[s.waiters.value]))
    && (forall i :: 0 <= i < |s.pcs| && HoldsWaiters(s.pcs[i]) ==> s.waiters == Some(i))
  }

  // event_handler_active is not "lock held": it is raised after taking the lock, lowered before
  // releasing it, and lowered early by the nested unlock of do_close.
  ghost predicate ActiveOk(s: State) {
    && (s.active ==> s.owner.Some? && s.owner.value < |s.pcs|)
    && (s.active ==> MustBeActive(s.pcs[s.owner.value]) || s.pcs[s.owner.value] == Free(FreeClearActive))
    && (forall i :: 0 <= i < |s.pcs| && MustBeActive(s.pcs[i]) ==> s.active)
  }

  ghost predicate CountersOk(s: State) {
    && s.pollfdModify == Count(Notifying, s.pcs)
    && s.pipe == Count(ByteOutstanding, s.pcs)
  }

  ghost predicate WritesOk(s: State) {
    !s.pipeMayFail ==> forall i :: 0 <= i < |s.pcs| ==> !AfterFailedWrite(s.pcs[i])
  }

  // Whoever has committed to sleep is owed a broadcast.
  ghost predicate WakeupOk(s: State) {
    !s.pipeMayFail ==> SleepersAreOwed(s)
  }

  ghost predicate SleepersAreOwed(s: State) {
    forall i :: 0 <= i < |s.pcs| && Committed(s.pcs[i]) ==> Count(Owes, s.pcs) > 0
  }

  // The completion flag is rechecked under the events lock, under which all callbacks run.
  ghost predicate PollOk(s: State) {
    && |s.done| == |s.pcs|
    && forall i :: 0 <= i < |s.pcs| && s.pcs[i] == Handle(HandlePoll) ==> !s.done[i]
  }

  // A thread that is about to sleep, or sleeps, on a flag that has been set is still owed the
  // broadcast of the completion that set it.
  ghost predicate DoneOk(s: State) {
    && |s.done| == |s.pcs|
    && forall i :: 0 <= i < |s.pcs| && SawNotDone(s.pcs[i]) && s.done[i] ==>
         Count(CompletionPending, s.pcs) > 0
  }

  ghost predicate Inv(s: State) {
    LocksOk(s) && WaitersOk(s) && ActiveOk(s) && CountersOk(s) && WritesOk(s) && WakeupOk(s) && PollOk(s) && DoneOk(s)
  }

  // ----- counting

  function Indicator(b: bool): nat {
    if b then 1 else 0
  }

  lemma {:induction false} CountUpdate(p: PC -> bool, pcs: seq<PC>, t: nat, pc: PC)
    requires t < |pcs|
    ensures Count(p, pcs[t := pc]) == Count(p, pcs) - Indicator(p(pcs[t])) + Indicator(p(pc))
    ensures Count(p, pcs) >= Indicator(p(pcs[t]))
  {
    if t == 0 {
      assert pcs[t := pc][1..] == pcs[1..];
    } else {
      assert pcs[t := pc][1..] == pcs[1..][t - 1 := pc];
      CountUpdate(p, pcs[1..], t - 1, pc);
    }
  }

  lemma {:induction false} CountAlike(p: PC -> bool, a: seq<PC>, b: seq<PC>)
    requires |a| == |b|
    requires forall i :: 0 <= i < |a| ==> p(a[i]) == p(b[i])
    ensures Count(p, a) == Count(p, b)
  {
    if a != [] {
      assert forall i :: 0 <= i < |a[1..]| ==> a[1..][i] == a[i + 1] && b[1..][i] == b[i + 1];
      CountAlike(p, a[1..], b[1..]);
    }
  }

  lemma {:induction false} CountWitness(p: PC -> bool, pcs: seq<PC>) returns (i: nat)
    requires Count(p, pcs) > 0
    ensures i < |pcs| && p(pcs[i])
  {
    if p(pcs[0]) {
      i := 0;
    } else {
      var j := CountWitness(p, pcs[1..]);
      i := j + 1;
    }
  }

  lemma {:induction false} CountZero(p: PC -> bool, pcs: seq<PC>)
    requires forall i :: 0 <= i < |pcs| ==> !p(pcs[i])
    ensures Count(p, pcs) == 0
  {
    if pcs != [] {
      assert forall i :: 0 <= i < |pcs[1..]| ==> pcs[1..][i] == pcs[i + 1];
      CountZero(p, pcs[1..]);
    }
  }

  // ----- what the program does to one thread's standing, whatever the other threads do

  predicate DepthFollows(pc: PC, e: Effect, next: PC) {
    HoldDepth(next) == HoldDepth(pc) + (if e == TakeEvents then 1 else 0) - (if e == ReleaseEvents then 1 else 0)
  }

  lemma ProgramDepth(pc: PC, o: Seen, e: Effect, next: PC)
    requires Program(pc, o, e, next)
    ensures DepthFollows(pc, e, next)
  {
    hide Program, DepthFollows;
    if pc.Note? || pc.Free? {
      NotificationDepth(pc, o, e, next);
    } else if pc.Close? {
      CloseDepth(pc, o, e, next);
    } else {
      EventDepth(pc, o, e, next);
    }
  }

  lemma EventDepth(pc: PC, o: Seen, e: Effect, next: PC)
    requires Program(pc, o, e, next) && (pc.Idle? || pc.Try? || pc.Handle? || pc.Wait?)
    ensures DepthFollows(pc, e, next)
  {
  }

  lemma NotificationDepth(pc: PC, o: Seen, e: Effect, next: PC)
    requires Program(pc, o, e, next) && (pc.Note? || pc.Free?)
    ensures DepthFollows(pc, e, next)
  {
  }

  lemma CloseDepth(pc: PC, o: Seen, e: Effect, next: PC)
    requires Program(pc, o, e, next) && pc.Close?
    ensures DepthFollows(pc, e, next)
  {
  }

  lemma ProgramHolds(pc: PC, o: Seen, e: Effect, next: PC)
    requires Program(pc, o, e, next)
    ensures e == RaiseActive || e == LowerActive || e.MarkDone? ==> HoldDepth(pc) > 0
  {
  }

  predicate HoldsFollows(pc: PC, e: Effect, next: PC) {
    && HoldsWaiters(next) == (e == TakeWaiters || (HoldsWaiters(pc) && e != ReleaseWaiters))
    && (e == ReleaseWaiters || e == Broadcast ==> HoldsWaiters(pc))
  }

  lemma ProgramWaiters(pc: PC, o: Seen, e: Effect, next: PC)
    requires Program(pc, o, e, next)
    ensures HoldsFollows(pc, e, next)
  {
    hide Program, HoldsFollows;
    if pc.Wait? {
      SleeperWaiters(pc, o, e, next);
    } else if pc.Note? || pc.Close? {
      NotificationWaiters(pc, o, e, next);
    } else {
      EventWaiters(pc, o, e, next);
    }
  }

  lemma SleeperWaiters(pc: PC, o: Seen, e: Effect, next: PC)
    requires Program(pc, o, e, next) && pc.Wait?
    ensures HoldsFollows(pc, e, next)
  {
  }

  lemma EventWaiters(pc: PC, o: Seen, e: Effect, next: PC)
    requires Program(pc, o, e, next) && (pc.Idle? || pc.Try? || pc.Handle? || pc.Free?)
    ensures HoldsFollows(pc, e, next)
  {
  }

  lemma NotificationWaiters(pc: PC, o: Seen, e: Effect, next: PC)
    requires Program(pc, o, e, next) && (pc.Note? || pc.Close?)
    ensures HoldsFollows(pc, e, next)
  {
  }

  predicate ActiveFollows(pc: PC, e: Effect, next: PC) {
    && (MustBeActive(next) ==> MustBeActive(pc) || e == RaiseActive)
    && (e == RaiseActive ==> MustBeActive(next))
    && (MustBeActive(pc) || pc == Free(FreeClearActive) ==>
          MustBeActive(next) || next == Free(FreeClearActive) || e == LowerActive)
    && (e == LowerActive ==> !MustBeActive(next))
  }

  lemma ProgramActive(pc: PC, o: Seen, e: Effect, next: PC)
    requires Program(pc, o, e, next)
    ensures ActiveFollows(pc, e, next)
  {
    hide Program, ActiveFollows;
    if pc.Note? || pc.Free? {
      NotificationActive(pc, o, e, next);
    } else if pc.Close? {
      CloseActive(pc, o, e, next);
    } else {
      EventActive(pc, o, e, next);
    }
  }

  lemma EventActive(pc: PC, o: Seen, e: Effect, next: PC)
    requires Program(pc, o, e, next) && (pc.Idle? || pc.Try? || pc.Handle? || pc.Wait?)
    ensures ActiveFollows(pc, e, next)
  {
  }

  lemma NotificationActive(pc: PC, o: Seen, e: Effect, next: PC)
    requires Program(pc, o, e, next) && (pc.Note? || pc.Free?)
    ensures ActiveFollows(pc, e, next)
  {
  }

  lemma CloseActive(pc: PC, o: Seen, e: Effect, next: PC)
    requires Program(pc, o, e, next) && pc.Close?
    ensures ActiveFollows(pc, e, next)
  {
  }

  lemma ProgramCounters(pc: PC, o: Seen, e: Effect, next: PC)
    requires Program(pc, o, e, next)
    ensures Indicator(Notifying(next)) ==
            Indicator(Notifying(pc)) + (if e == IncrementModify then 1 else 0) - (if e == DecrementModify then 1 else 0)
    ensures Indicator(ByteOutstanding(next)) ==
            Indicator(ByteOutstanding(pc)) + (if e == WritePipe then 1 else 0) - (if e == ReadPipe then 1 else 0)
  {
  }

  predicate OwesFollows(pc: PC, o: Seen, e: Effect, next: PC) {
    && (Owes(pc) && !Owes(next) ==> e == Broadcast || Aborts(pc))
    && (Aborts(pc) ==> Owes(pc) && !Owes(next) && !Committed(next) && e == DecrementModify)
    && (Committed(next) ==> (Committed(pc) || o.modifying || o.active) && !Owes(pc))
  }

  lemma ProgramOwes(pc: PC, o: Seen, e: Effect, next: PC)
    requires Program(pc, o, e, next)
    ensures OwesFollows(pc, o, e, next)
  {
    hide Program, OwesFollows;
    match pc
    case Note(_, _) => NoteOwes(pc, o, e, next);
    case Close(_, _) => CloseOwes(pc, o, e, next);
    case Free(_) => FreeOwes(pc, o, e, next);
    case Handle(_) => HandleOwes(pc, o, e, next);
    case Wait(_) => WaitOwes(pc, o, e, next);
    case _ => TryOwes(pc, o, e, next);
  }

  lemma TryOwes(pc: PC, o: Seen, e: Effect, next: PC)
    requires Program(pc, o, e, next) && (pc.Idle? || pc.Try?)
    ensures OwesFollows(pc, o, e, next)
  {
  }

  lemma WaitOwes(pc: PC, o: Seen, e: Effect, next: PC)
    requires Program(pc, o, e, next) && pc.Wait?
    ensures OwesFollows(pc, o, e, next)
  {
  }

  lemma HandleOwes(pc: PC, o: Seen, e: Effect, next: PC)
    requires Program(pc, o, e, next) && pc.Handle?
    ensures OwesFollows(pc, o, e, next)
  {
  }

  lemma NoteOwes(pc: PC, o: Seen, e: Effect, next: PC)
    requires Program(pc, o, e, next) && pc.Note?
    ensures OwesFollows(pc, o, e, next)
  {
  }

  lemma CloseOwes(pc: PC, o: Seen, e: Effect, next: PC)
    requires Program(pc, o, e, next) && pc.Close?
    ensures OwesFollows(pc, o, e, next)
  {
  }

  lemma FreeOwes(pc: PC, o: Seen, e: Effect, next: PC)
    requires Program(pc, o, e, next) && pc.Free?
    ensures OwesFollows(pc, o, e, next)
  {
  }

  lemma ProgramWrites(pc: PC, o: Seen, e: Effect, next: PC)
    requires Program(pc, o, e, next)
    ensures AfterFailedWrite(next) ==> AfterFailedWrite(pc) || o.mayFail
  {
  }

  lemma ProgramDone(pc: PC, o: Seen, e: Effect, next: PC)
    requires Program(pc, o, e, next)
    ensures next == Handle(HandlePoll) ==> !o.done && e == Silent
    ensures SawNotDone(next) ==> (SawNotDone(pc) || !o.done) && !CompletionPending(pc)
    ensures e.MarkDone? ==> CompletionPending(next)
    ensures CompletionPending(pc) && !CompletionPending(next) ==> e == Broadcast
    ensures e == Broadcast ==> !SawNotDone(next)
  {
  }

  // ----- a step moves one thread, after waking the sleepers when it broadcasts

  // A broadcast changes no count of a predicate that sleeping and waking threads agree on.
  lemma MoveCount(p: PC -> bool, pcs: seq<PC>, t: nat, e: Effect, next: PC)
    requires t < |pcs| && p(Wait(Asleep)) == p(Wait(WaitReacquire))
    ensures Count(p, Move(pcs, t, e, next)) == Count(p, pcs) - Indicator(p(pcs[t])) + Indicator(p(next))
    ensures Count(p, Move(pcs, t, e, next)) >= Indicator(p(next))
  {
    var base := if e == Broadcast then Wake(pcs) else pcs;
    CountUpdate(p, base, t, next);
    CountAlike(p, pcs, base);
  }

  // ----- each part of the invariant is kept

  lemma LocksKept(s: State, t: nat, e: Effect, next: PC)
    requires LocksOk(s) && CanStep(s, t, e, next)
    ensures LocksOk(Apply(s, t, e, next))
  {
    ProgramDepth(s.pcs[t], Look(s, t), e, next);
    ProgramHolds(s.pcs[t], Look(s, t), e, next);
    LocksFollow(s, t, e, next);
  }

  lemma LocksFollow(s: State, t: nat, e: Effect, next: PC)
    requires LocksOk(s) && IsThread(s, t) && Enabled(s, t, e)
    requires DepthFollows(s.pcs[t], e, next)
    ensures LocksOk(Apply(s, t, e, next))
  {
    hide HoldDepth;
    SleepersHoldNothing();
  }

  lemma WaitersKept(s: State, t: nat, e: Effect, next: PC)
    requires WaitersOk(s) && CanStep(s, t, e, next)
    ensures WaitersOk(Apply(s, t, e, next))
  {
    ProgramWaiters(s.pcs[t], Look(s, t), e, next);
    WaitersFollow(s, t, e, next);
  }

  lemma WaitersFollow(s: State, t: nat, e: Effect, next: PC)
    requires WaitersOk(s) && IsThread(s, t) && Enabled(s, t, e)
    requires HoldsFollows(s.pcs[t], e, next)
    ensures WaitersOk(Apply(s, t, e, next))
  {
  }

  lemma ActiveKept(s: State, t: nat, e: Effect, next: PC)
    requires LocksOk(s) && ActiveOk(s) && CanStep(s, t, e, next)
    ensures ActiveOk(Apply(s, t, e, next))
  {
    hide Program, ActiveOk, LocksOk, Apply, MustBeActive, HoldDepth, DepthFollows, ActiveFollows;
    ProgramDepth(s.pcs[t], Look(s, t), e, next);
    ProgramHolds(s.pcs[t], Look(s, t), e, next);
    ProgramActive(s.pcs[t], Look(s, t), e, next);
    forall i | 0 <= i < |s.pcs|
      ensures MustBeActive(s.pcs[i]) ==> HoldDepth(s.pcs[i]) > 0
    {
      ActiveHolds(s.pcs[i]);
    }
    ActiveFollow(s, t, e, next);
  }

  lemma ActiveFollow(s: State, t: nat, e: Effect, next: PC)
    requires LocksOk(s) && ActiveOk(s) && IsThread(s, t) && Enabled(s, t, e)
    requires DepthFollows(s.pcs[t], e, next)
    requires e == RaiseActive || e == LowerActive ==> HoldDepth(s.pcs[t]) > 0
    requires ActiveFollows(s.pcs[t], e, next)
    requires forall i :: 0 <= i < |s.pcs| && MustBeActive(s.pcs[i]) ==> HoldDepth(s.pcs[i]) > 0
    ensures ActiveOk(Apply(s, t, e, next))
  {
    hide MustBeActive, HoldDepth;
    SleepersHoldNothing();
    ActiveHolds(next);
  }

  lemma ActiveHolds(pc: PC)
    ensures MustBeActive(pc) ==> HoldDepth(pc) > 0
  {
  }

  lemma SleepersHoldNothing()
    ensures !MustBeActive(Wait(Asleep)) && !MustBeActive(Wait(WaitReacquire)) && HoldDepth(Free(FreeClearActive)) == 1
    ensures HoldDepth(Wait(Asleep)) == 0 && HoldDepth(Wait(WaitReacquire)) == 0
  {
  }

  lemma CountersKept(s: State, t: nat, e: Effect, next: PC)
    requires CountersOk(s) && CanStep(s, t, e, next)
    ensures CountersOk(Apply(s, t, e, next))
  {
    hide Program, Count, Move, Apply, CountersOk;
    ProgramCounters(s.pcs[t], Look(s, t), e, next);
    MoveCount(Notifying, s.pcs, t, e, next);
    MoveCount(ByteOutstanding, s.pcs, t, e, next);
    CountersFollow(s, t, e, next);
  }

  lemma CountersFollow(s: State, t: nat, e: Effect, next: PC)
    requires CountersOk(s) && IsThread(s, t) && Enabled(s, t, e)
    requires Count(Notifying, Move(s.pcs, t, e, next)) ==
             Count(Notifying, s.pcs) + (if e == IncrementModify then 1 else 0) - (if e == DecrementModify then 1 else 0)
    requires Count(ByteOutstanding, Move(s.pcs, t, e, next)) ==
             Count(ByteOutstanding, s.pcs) + (if e == WritePipe then 1 else 0) - (if e == ReadPipe then 1 else 0)
    ensures CountersOk(Apply(s, t, e, next))
  {
    hide Count, Move;
  }

  lemma WritesKept(s: State, t: nat, e: Effect, next: PC)
    requires WritesOk(s) && CanStep(s, t, e, next)
    ensures WritesOk(Apply(s, t, e, next))
  {
    ProgramWrites(s.pcs[t], Look(s, t), e, next);
    WritesFollow(s, t, e, next);
  }

  lemma WritesFollow(s: State, t: nat, e: Effect, next: PC)
    requires WritesOk(s) && IsThread(s, t) && Enabled(s, t, e)
    requires AfterFailedWrite(next) ==> AfterFailedWrite(s.pcs[t]) || s.pipeMayFail
    ensures WritesOk(Apply(s, t, e, next))
  {
  }

  // Whatever makes a thread decide to sleep is a thread that still owes a broadcast.
  lemma ReasonToSleep(s: State)
    requires LocksOk(s) && ActiveOk(s) && CountersOk(s)
    requires s.active || s.pollfdModify != 0
    ensures Count(Owes, s.pcs) > 0
  {
    if s.active {
      CountUpdate(Owes, s.pcs, s.owner.value, Idle);
    } else {
      var i := CountWitness(Notifying, s.pcs);
      CountUpdate(Owes, s.pcs, i, Idle);
    }
  }

  // The waiters lock is the point: a broadcaster cannot pass while a thread is between deciding to
  // sleep and sleeping, so every broadcast finds all committed threads asleep.  A step leaves a sleeper
  // unowed if and only if a thread leaves after a refused write, was the last to owe a broadcast, and
  // some thread is committed to sleep.
  lemma WakeupKept(s: State, t: nat, e: Effect, next: PC)
    requires Inv(s) && CanStep(s, t, e, next) && SleepersAreOwed(s)
    ensures !SleepersAreOwed(Apply(s, t, e, next)) <==>
            && Aborts(s.pcs[t]) && Count(Owes, s.pcs) == 1
            && exists i :: 0 <= i < |s.pcs| && Committed(s.pcs[i])
  {
    hide Program;
    ProgramOwes(s.pcs[t], Look(s, t), e, next);
    ProgramDone(s.pcs[t], Look(s, t), e, next);
    ProgramWaiters(s.pcs[t], Look(s, t), e, next);
    MoveCount(Owes, s.pcs, t, e, next);
    if s.active || s.pollfdModify != 0 {
      ReasonToSleep(s);
    }
    if Aborts(s.pcs[t]) {
      AbortFollow(s, t, next);
    } else {
      WakeupFollow(s, t, e, next);
    }
  }

  lemma AbortFollow(s: State, t: nat, next: PC)
    requires IsThread(s, t) && SleepersAreOwed(s) && Aborts(s.pcs[t]) && !Committed(next)
    requires Count(Owes, Move(s.pcs, t, DecrementModify, next)) == Count(Owes, s.pcs) - 1
    ensures !SleepersAreOwed(Apply(s, t, DecrementModify, next)) <==>
            Count(Owes, s.pcs) == 1 && exists i :: 0 <= i < |s.pcs| && Committed(s.pcs[i])
  {
    hide Count;
    var u := Apply(s, t, DecrementModify, next);
    forall i | 0 <= i < |s.pcs|
      ensures Committed(u.pcs[i]) <==> Committed(s.pcs[i])
    {
    }
  }

  lemma WakeupFollow(s: State, t: nat, e: Effect, next: PC)
    requires WaitersOk(s) && SleepersAreOwed(s) && IsThread(s, t) && Enabled(s, t, e)
    requires Owes(s.pcs[t]) && !Owes(next) ==> e == Broadcast
    requires Committed(next) ==> !Owes(s.pcs[t]) && (Committed(s.pcs[t]) || Count(Owes, s.pcs) > 0)
    requires e == Broadcast ==> HoldsWaiters(s.pcs[t]) && !SawNotDone(next)
    requires Count(Owes, Move(s.pcs, t, e, next)) ==
             Count(Owes, s.pcs) - Indicator(Owes(s.pcs[t])) + Indicator(Owes(next))
    ensures SleepersAreOwed(Apply(s, t, e, next))
  {
    hide Count, HoldsWaiters, Owes, WaitersOk;
    if e == Broadcast {
      BroadcastReachesAll(s, t, next);
    } else {
      hide Committed;
    }
  }

  lemma PollKept(s: State, t: nat, e: Effect, next: PC)
    requires LocksOk(s) && PollOk(s) && CanStep(s, t, e, next)
    ensures PollOk(Apply(s, t, e, next))
  {
    ProgramDone(s.pcs[t], Look(s, t), e, next);
    ProgramDepth(s.pcs[t], Look(s, t), e, next);
    ProgramHolds(s.pcs[t], Look(s, t), e, next);
    PollFollow(s, t, e, next);
  }

  lemma PollFollow(s: State, t: nat, e: Effect, next: PC)
    requires LocksOk(s) && PollOk(s) && IsThread(s, t) && Enabled(s, t, e)
    requires next == Handle(HandlePoll) ==> !s.done[t] && e == Silent
    requires e.MarkDone? ==> HoldDepth(s.pcs[t]) > 0
    ensures PollOk(Apply(s, t, e, next))
  {
  }

  lemma DoneKept(s: State, t: nat, e: Effect, next: PC)
    requires WaitersOk(s) && DoneOk(s) && CanStep(s, t, e, next)
    ensures DoneOk(Apply(s, t, e, next))
  {
    ProgramDone(s.pcs[t], Look(s, t), e, next);
    ProgramWaiters(s.pcs[t], Look(s, t), e, next);
    MoveCount(CompletionPending, s.pcs, t, e, next);
    DoneFollow(s, t, e, next);
  }

  lemma DoneFollow(s: State, t: nat, e: Effect, next: PC)
    requires WaitersOk(s) && DoneOk(s) && IsThread(s, t) && Enabled(s, t, e)
    requires e.MarkDone? ==> CompletionPending(next)
    requires SawNotDone(next) ==> (SawNotDone(s.pcs[t]) || !s.done[t]) && !CompletionPending(s.pcs[t])
    requires e == Broadcast ==> HoldsWaiters(s.pcs[t]) && !SawNotDone(next)
    requires e != Broadcast && Count(CompletionPending, s.pcs) > 0 ==>
               Count(CompletionPending, Move(s.pcs, t, e, next)) > 0
    requires CompletionPending(next) ==> Count(CompletionPending, Move(s.pcs, t, e, next)) > 0
    ensures DoneOk(Apply(s, t, e, next))
  {
    hide Count, HoldsWaiters, SawNotDone, CompletionPending, WaitersOk;
    var s' := Apply(s, t, e, next);
    if e == Broadcast {
      BroadcastReachesAll(s, t, next);
    } else if SawNotDone(next) && s'.done[t] {
      assert s.done[t] || e.MarkDone?;
    }
  }

  // Whoever broadcasts holds the waiters lock, so nobody is between its last look at the
  // completion flag and its sleep.
  lemma BroadcastReachesAll(s: State, t: nat, next: PC)
    requires WaitersOk(s) && IsThread(s, t) && HoldsWaiters(s.pcs[t]) && !SawNotDone(next)
    ensures forall i :: 0 <= i < |s.pcs| ==> !SawNotDone(Move(s.pcs, t, Broadcast, next)[i])
  {
  }

  lemma StepKeepsInv(s: State, t: nat, e: Effect, next: PC)
    requires Inv(s) && CanStep(s, t, e, next)
    ensures Inv(Apply(s, t, e, next))
  {
    hide Program, Apply, LocksOk, WaitersOk, ActiveOk, CountersOk, WritesOk, WakeupOk, PollOk, DoneOk;
    LocksKept(s, t, e, next);
    WaitersKept(s, t, e, next);
    ActiveKept(s, t, e, next);
    CountersKept(s, t, e, next);
    WritesKept(s, t, e, next);
    WakeupOkKept(s, t, e, next);
    PollKept(s, t, e, next);
    DoneKept(s, t, e, next);
  }

  lemma WakeupOkKept(s: State, t: nat, e: Effect, next: PC)
    requires Inv(s) && CanStep(s, t, e, next)
    ensures WakeupOk(Apply(s, t, e, next))
  {
    hide Program, SleepersAreOwed;
    if !s.pipeMayFail {
      WakeupKept(s, t, e, next);
    }
  }

  lemma InvKept(s: State, s': State)
    requires Inv(s) && Next(s, s')
    ensures Inv(s')
    ensures |s'.pcs| == |s.pcs| && s'.pipeMayFail == s.pipeMayFail
  {
    hide Inv, Program, Apply;
    var t: nat, e, next :| CanStep(s, t, e, next) && s' == Apply(s, t, e, next);
    StepKeepsInv(s, t, e, next);
    ThreadsStay(s, t, e, next);
  }

  lemma ThreadsStay(s: State, t: nat, e: Effect, next: PC)
    requires CanStep(s, t, e, next)
    ensures var s' := Apply(s, t, e, next); |s'.pcs| == |s.pcs| && s'.pipeMayFail == s.pipeMayFail
  {
    hide Program;
  }

  lemma InvInit(s: State, n: nat, mayFail: bool)
    requires Init(s, n, mayFail)
    ensures Inv(s)
  {
    CountZero(Notifying, s.pcs);
    CountZero(ByteOutstanding, s.pcs);
  }

  lemma {:induction false} InvOnRun(run: seq<State>, n: nat, mayFail: bool, k: nat)
    requires IsRun(run, n, mayFail) && k < |run|
    ensures Inv(run[k])
    ensures |run[k].pcs| == n && run[k].pipeMayFail == mayFail
  {
    hide Inv, Next;
    if k == 0 {
      InvInit(run[0], n, mayFail);
    } else {
      InvOnRun(run, n, mayFail, k - 1);
      var s, s' := run[k - 1], run[k];
      assert Next(s, s') by { assert Next(run[k - 1], run[k - 1 + 1]); }
      InvKept(s, s');
    }
  }
}
