// The event-handling protocol of a libusb context (io.c, core.c), as a step system with one
// program counter per thread.  Threads compete for the recursive events lock; the losers sleep on
// a condition variable; libusb_open and libusb_close interrupt whoever is polling through the
// counter pollfd_modify and one byte on the control pipe.
module EventProtocol {
  import opened Options

  datatype Notification = Opening | Closing

  // libusb_try_lock_events
  datatype TryAt = TryReadModify | TryTakeLock | TrySetActive

  // The events lock is held: recheck *completed, poll, run callbacks, and broadcast after each
  // (usbi_handle_transfer_completion).
  datatype HandleAt =
    | HandleCheckDone | HandlePoll | HandleEvents
    | DoneLockWaiters | DoneBroadcast | DoneUnlockWaiters

  // The events lock was not obtained.
  datatype WaitAt =
    | WaitLockWaiters | WaitCheckDone | WaitReadModify | WaitReadActive | WaitSleep
    | Asleep | WaitReacquire | WaitUnlock | RetryUnlock

  // usbi_fd_notification (Open) and libusb_close (Close); NoteAbort follows a refused write.
  datatype NoteAt =
    | NoteIncrement | NoteWrite | NoteTakeLock | NoteSetActive | NoteRead | NoteDecrement | NoteAbort

  // do_close, and the backend's close that removes the poll fd
  datatype CloseAt =
    | CloseTakeLock | CloseSetActive | CloseDropTransfers | CloseClearActive | CloseReleaseLock
    | CloseLockWaiters | CloseBroadcast | CloseUnlockWaiters | CloseRemoveFd

  // the final libusb_unlock_events
  datatype FreeAt = FreeClearActive | FreeReleaseLock | FreeLockWaiters | FreeBroadcast | FreeUnlockWaiters

  // Where a thread stands in libusb_handle_events_timeout_completed, libusb_open or libusb_close.
  // Each position names the action the thread performs next.
  datatype PC =
    | Idle
    | Try(try: TryAt)
    | Handle(handle: HandleAt)
    | Wait(wait: WaitAt)
    | Note(kind: Notification, note: NoteAt)
    | Close(nested: bool, close: CloseAt)  // nested: libusb_close already holds the events lock
    | Free(free: FreeAt)

  datatype State = State(
    pcs: seq<PC>,            // one per thread
    done: seq<bool>,         // done[t]: the *completed flag thread t passes in
    owner: Option<nat>,      // holder of events_lock
    depth: nat,              // recursion depth of events_lock
    waiters: Option<nat>,    // holder of event_waiters_lock
    active: bool,            // event_handler_active
    pollfdModify: int,       // pollfd_modify
    pipe: nat,               // bytes in the control pipe
    pipeMayFail: bool        // whether the environment may refuse a control-pipe write
  )

  predicate IsThread(s: State, t: nat) {
    t < |s.pcs| && |s.done| == |s.pcs|
  }

  // What one atomic action does to the shared state.
  datatype Effect =
    | Silent
    | TakeEvents
    | ReleaseEvents
    | RaiseActive
    | LowerActive
    | TakeWaiters
    | ReleaseWaiters
    | Broadcast
    | IncrementModify
    | DecrementModify
    | WritePipe
    | ReadPipe
    | MarkDone(who: nat)  // *completed = 1 for the transfer thread `who` waits for
    | ClearDone           // the thread starts to wait for a new transfer

  // What a thread can observe of the shared state when it acts.
  datatype Seen = Seen(modifying: bool, active: bool, done: bool, lockFree: bool, mayFail: bool)

  function Look(s: State, t: nat): Seen
    requires IsThread(s, t)
  {
    Seen(s.pollfdModify != 0, s.active, s.done[t], CanTake(s, t), s.pipeMayFail)
  }

  // A recursive mutex lets its owner in again.
  predicate CanTake(s: State, t: nat) {
    s.owner.None? || s.owner == Some(t)
  }

  // The program: from its position, seeing o, a thread may act with effect e and go on at next.
  predicate TryProgram(at: TryAt, o: Seen, e: Effect, next: PC) {
    match at
    case TryReadModify => e == Silent && next == if o.modifying then Wait(WaitLockWaiters) else Try(TryTakeLock)
    case TryTakeLock =>
      if o.lockFree then e == TakeEvents && next == Try(TrySetActive)
      else e == Silent && next == Wait(WaitLockWaiters)
    case TrySetActive => e == RaiseActive && next == Handle(HandleCheckDone)
  }

  predicate HandleProgram(at: HandleAt, o: Seen, e: Effect, next: PC) {
    match at
    case HandleCheckDone => e == Silent && next == if o.done then Free(FreeClearActive) else Handle(HandlePoll)
    case HandlePoll => e == Silent && (next == Handle(HandleEvents) || next == Free(FreeClearActive))
    case HandleEvents =>
      || ((e == Silent || e.MarkDone?) && next == Handle(DoneLockWaiters))
      || (e == Silent && next == Free(FreeClearActive))
    case DoneLockWaiters => e == TakeWaiters && next == Handle(DoneBroadcast)
    case DoneBroadcast => e == Broadcast && next == Handle(DoneUnlockWaiters)
    case DoneUnlockWaiters => e == ReleaseWaiters && next == Handle(HandleEvents)
  }

  predicate WaitProgram(at: WaitAt, o: Seen, e: Effect, next: PC) {
    match at
    case WaitLockWaiters => e == TakeWaiters && next == Wait(WaitCheckDone)
    case WaitCheckDone => e == Silent && next == Wait(if o.done then WaitUnlock else WaitReadModify)
    case WaitReadModify => e == Silent && next == Wait(if o.modifying then WaitSleep else WaitReadActive)
    case WaitReadActive => e == Silent && next == Wait(if o.active then WaitSleep else RetryUnlock)
    case WaitSleep => e == ReleaseWaiters && next == Wait(Asleep)
    case Asleep => e == Silent && next == Wait(WaitReacquire)  // the timeout expires
    case WaitReacquire => e == TakeWaiters && next == Wait(WaitUnlock)
    case WaitUnlock => e == ReleaseWaiters && next == Idle
    case RetryUnlock => e == ReleaseWaiters && next == Try(TryReadModify)
  }

  predicate NoteProgram(kind: Notification, at: NoteAt, o: Seen, e: Effect, next: PC) {
    match at
    case NoteIncrement => e == IncrementModify && next == Note(kind, NoteWrite)
    case NoteWrite =>
      || (e == WritePipe && next == Note(kind, NoteTakeLock))
      || (o.mayFail && e == Silent &&
          next == if kind == Opening then Note(kind, NoteAbort) else Close(false, CloseTakeLock))
    case NoteTakeLock => e == TakeEvents && next == Note(kind, NoteSetActive)
    case NoteSetActive => e == RaiseActive && next == Note(kind, NoteRead)
    case NoteRead =>
      e == ReadPipe && next == if kind == Opening then Note(kind, NoteDecrement) else Close(true, CloseTakeLock)
    case NoteDecrement => e == DecrementModify && next == Free(FreeClearActive)
    case NoteAbort => e == DecrementModify && next == Idle
  }

  predicate CloseProgram(nested: bool, at: CloseAt, o: Seen, e: Effect, next: PC) {
    match at
    case CloseTakeLock => e == TakeEvents && next == Close(nested, CloseSetActive)
    case CloseSetActive => e == RaiseActive && next == Close(nested, CloseDropTransfers)
    case CloseDropTransfers => e == Silent && next == Close(nested, CloseClearActive)
    case CloseClearActive => e == LowerActive && next == Close(nested, CloseReleaseLock)
    case CloseReleaseLock => e == ReleaseEvents && next == Close(nested, CloseLockWaiters)
    case CloseLockWaiters => e == TakeWaiters && next == Close(nested, CloseBroadcast)
    case CloseBroadcast => e == Broadcast && next == Close(nested, CloseUnlockWaiters)
    case CloseUnlockWaiters => e == ReleaseWaiters && next == Close(nested, CloseRemoveFd)
    case CloseRemoveFd => e == Silent && next == Note(Closing, if nested then NoteDecrement else NoteAbort)
  }

  predicate FreeProgram(at: FreeAt, o: Seen, e: Effect, next: PC) {
    match at
    case FreeClearActive => e == LowerActive && next == Free(FreeReleaseLock)
    case FreeReleaseLock => e == ReleaseEvents && next == Free(FreeLockWaiters)
    case FreeLockWaiters => e == TakeWaiters && next == Free(FreeBroadcast)
    case FreeBroadcast => e == Broadcast && next == Free(FreeUnlockWaiters)
    case FreeUnlockWaiters => e == ReleaseWaiters && next == Idle
  }

  predicate Program(pc: PC, o: Seen, e: Effect, next: PC) {
    match pc
    case Idle =>
      || (e == Silent && next in {Try(TryReadModify), Note(Opening, NoteIncrement), Note(Closing, NoteIncrement)})
      || (e == ClearDone && next == Idle)
    case Try(at) => TryProgram(at, o, e, next)
    case Handle(at) => HandleProgram(at, o, e, next)
    case Wait(at) => WaitProgram(at, o, e, next)
    case Note(kind, at) => NoteProgram(kind, at, o, e, next)
    case Close(nested, at) => CloseProgram(nested, at, o, e, next)
    case Free(at) => FreeProgram(at, o, e, next)
  }

  // Taking a mutex and reading an empty pipe block.
  predicate Enabled(s: State, t: nat, e: Effect) {
    match e
    case TakeEvents => CanTake(s, t)
    case TakeWaiters => s.waiters.None?
    case ReadPipe => s.pipe > 0
    case MarkDone(x) => x < |s.done|
    case _ => true
  }

  function Wake(pcs: seq<PC>): (r: seq<PC>)
    ensures |r| == |pcs|
    ensures forall i :: 0 <= i < |pcs| ==> r[i] == (if pcs[i] == Wait(Asleep) then Wait(WaitReacquire) else pcs[i])
  {
    seq(|pcs|, i requires 0 <= i < |pcs| => if pcs[i] == Wait(Asleep) then Wait(WaitReacquire) else pcs[i])
  }

  // The program counters after thread t goes on to next; a broadcast also wakes every sleeper,
  // which must then reacquire the waiters lock.
  function Move(pcs: seq<PC>, t: nat, e: Effect, next: PC): (r: seq<PC>)
    requires t < |pcs|
    ensures |r| == |pcs|
  {
    (if e == Broadcast then Wake(pcs) else pcs)[t := next]
  }

  function Apply(s: State, t: nat, e: Effect, next: PC): State
    requires IsThread(s, t) && Enabled(s, t, e)
  {
    var m := s.(pcs := Move(s.pcs, t, e, next));
    match e
    case Silent => m
    case TakeEvents => m.(owner := Some(t), depth := m.depth + 1)
    case ReleaseEvents => if m.depth <= 1 then m.(owner := None, depth := 0) else m.(depth := m.depth - 1)
    case RaiseActive => m.(active := true)
    case LowerActive => m.(active := false)
    case TakeWaiters => m.(waiters := Some(t))
    case ReleaseWaiters => m.(waiters := None)
    case Broadcast => m
    case IncrementModify => m.(pollfdModify := m.pollfdModify + 1)
    case DecrementModify => m.(pollfdModify := m.pollfdModify - 1)
    case WritePipe => m.(pipe := m.pipe + 1)
    case ReadPipe => m.(pipe := m.pipe - 1)
    case MarkDone(x) => m.(done := m.done[x := true])
    case ClearDone => m.(done := m.done[t := false])
  }

  // One atomic action of thread t.
  predicate CanStep(s: State, t: nat, e: Effect, next: PC) {
    IsThread(s, t) && Program(s.pcs[t], Look(s, t), e, next) && Enabled(s, t, e)
  }

  ghost predicate Next(s: State, s': State) {
    exists t: nat, e, next :: CanStep(s, t, e, next) && s' == Apply(s, t, e, next)
  }

  ghost predicate Init(s: State, n: nat, mayFail: bool) {
    && |s.pcs| == |s.done| == n
    && (forall i :: 0 <= i < n ==> s.pcs[i] == Idle)
    && s.owner == None && s.depth == 0 && s.waiters == None
    && !s.active && s.pollfdModify == 0 && s.pipe == 0
    && s.pipeMayFail == mayFail
  }

  // A run of n threads: an initial state and any interleaving of their steps.
  ghost predicate IsRun(run: seq<State>, n: nat, mayFail: bool) {
    && |run| > 0
    && Init(run[0], n, mayFail)
    && forall k :: 0 <= k < |run| - 1 ==> Next(run[k], run[k + 1])
  }

  // ----- what a thread holds or owes at each program counter

  // How many times the thread has taken the events lock.
  function HoldDepth(pc: PC): nat {
    match pc
    case Idle => 0
    case Try(at) => if at.TrySetActive? then 1 else 0
    case Handle(_) => 1
    case Wait(_) => 0
    case Note(_, at) => if at.NoteSetActive? || at.NoteRead? || at.NoteDecrement? then 1 else 0
    case Close(nested, at) =>
      (if nested then 1 else 0) +
      (if at.CloseSetActive? || at.CloseDropTransfers? || at.CloseClearActive? || at.CloseReleaseLock? then 1 else 0)
    case Free(at) => if at.FreeClearActive? || at.FreeReleaseLock? then 1 else 0
  }

  predicate HoldsWaiters(pc: PC) {
    match pc
    case Handle(at) => at.DoneBroadcast? || at.DoneUnlockWaiters?
    case Wait(at) => !at.WaitLockWaiters? && !at.Asleep? && !at.WaitReacquire?
    case Close(_, at) => at.CloseBroadcast? || at.CloseUnlockWaiters?
    case Free(at) => at.FreeBroadcast? || at.FreeUnlockWaiters?
    case _ => false
  }

  // The holder has raised event_handler_active and not lowered it again.
  predicate MustBeActive(pc: PC) {
    match pc
    case Handle(_) => true
    case Note(kind, at) => at.NoteRead? || (at.NoteDecrement? && kind == Opening)
    case Close(nested, at) =>
      || (nested && (at.CloseTakeLock? || at.CloseSetActive?))
      || at.CloseDropTransfers? || at.CloseClearActive?
    case _ => false
  }

  // Inside an open or close notification, so counted by pollfd_modify.
  predicate Notifying(pc: PC) {
    pc.Close? || (pc.Note? && !pc.note.NoteIncrement?)
  }

  // Has written its byte and not read one back yet.
  predicate ByteOutstanding(pc: PC) {
    pc.Note? && (pc.note.NoteTakeLock? || pc.note.NoteSetActive? || pc.note.NoteRead?)
  }

  // The thread is about to leave after a refused control-pipe write.
  predicate Aborts(pc: PC) {
    pc.Note? && pc.note.NoteAbort?
  }

  // Reached only after a refused control-pipe write.
  predicate AfterFailedWrite(pc: PC) {
    Aborts(pc) || (pc.Close? && !pc.nested)
  }

  // The thread will still broadcast on the waiters' condition variable before it is idle again:
  // it holds the events lock, is between lowering the flag and its broadcast, or is inside a
  // notification.
  predicate Owes(pc: PC) {
    HoldDepth(pc) > 0 || Notifying(pc) || (pc.Free? && (pc.free.FreeLockWaiters? || pc.free.FreeBroadcast?))
  }

  // A callback has run and its broadcast is still to come.
  predicate CompletionPending(pc: PC) {
    pc.Handle? && (pc.handle.DoneLockWaiters? || pc.handle.DoneBroadcast?)
  }

  // The thread has decided to sleep, or sleeps and has not been signalled.
  predicate Committed(pc: PC) {
    pc.Wait? && (pc.wait.WaitSleep? || pc.wait.Asleep?)
  }

  // The thread has seen its completion flag clear and will not look again before it is woken.
  predicate SawNotDone(pc: PC) {
    pc.Wait? && (pc.wait.WaitReadModify? || pc.wait.WaitReadActive? || pc.wait.WaitSleep? || pc.wait.Asleep?)
  }

  function Count(p: PC -> bool, pcs: seq<PC>): nat {
    if pcs == [] then 0 else (if p(pcs[0]) then 1 else 0) + Count(p, pcs[1..])
  }
}
