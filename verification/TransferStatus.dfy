// How the end of a transfer is reported: by the Darwin backend (darwin_usb.c), which turns a kernel
// result into a transfer status, and by the blocking calls (sync.c), which turn that status into
// their return value.
module TransferStatus {
  import opened TimevalArithmetic
  import opened FlyingTransfers

  // IOReturn values that darwin_transfer_status tells apart
  datatype KernelResult =
    | Success | Underrun | Aborted | PipeStalled | Overrun | TransactionTimeout | OtherResult(code: int)

  // darwin_transfer_status.  The flag of the timeout scan overrides the kernel result, and a timeout
  // reported by the kernel sets the flag.
  method DarwinStatus(x: Transfer, result: KernelResult) returns (status: Status)
    modifies x`timedOut
    ensures x.timedOut == (old(x.timedOut) || result == TransactionTimeout)
    ensures status == TimedOut <==> x.timedOut
    ensures status == Completed <==> !x.timedOut && (result == Success || result == Underrun)
    ensures status == Cancelled <==> !x.timedOut && result == Aborted
    ensures status == Stall <==> !x.timedOut && result == PipeStalled
    ensures status == FlyingTransfers.Overflow <==> !x.timedOut && result == Overrun
    ensures status != NoDevice
  {
    var kernel := if x.timedOut then TransactionTimeout else result;
    match kernel {
      case Underrun => status := Completed;
      case Success => status := Completed;
      case Aborted => status := Cancelled;
      case PipeStalled => status := Stall;
      case Overrun => status := FlyingTransfers.Overflow;
      case TransactionTimeout =>
        x.timedOut := true;
        status := TimedOut;
      case OtherResult(_) => status := Error;
    }
  }

  // The kernel has transferred something.
  predicate Succeeds(result: KernelResult) {
    result.Success? || result.Underrun?
  }

  // How many bytes the kernel's result adds to a transfer
  function Moved(result: KernelResult, kind: Kind, size: nat): nat {
    if Succeeds(result) && !kind.Isochronous? then size else 0
  }

  // All that was asked for has arrived; the length of a control transfer includes the 8 bytes of its setup.
  predicate IsWhole(kind: Kind, length: int, transferred: int) {
    length == transferred + if kind.Control? then 8 else 0
  }

  // darwin_handle_callback.  The callback reports TIMED_OUT exactly when the timeout scan marked the
  // transfer or the kernel reported a transaction timeout.  A transfer of unknown kind stays in
  // flight and is never called back.
  method DarwinCallback(c: Context, x: Transfer, result: KernelResult, size: nat, ghost k: nat)
    requires c.Valid() && k < |c.items| && c.items[k] == x
    modifies c`items, c`callbacks, c.head`prev, c.head`next, c.items`prev, c.items`next
    modifies x`timedOut, x`transferred, x`status, x`actualLength
    ensures c.Valid()
    ensures x.kind.UnknownKind? ==> c.items == old(c.items) && c.callbacks == old(c.callbacks)
    ensures !x.kind.UnknownKind? ==>
              && c.items == old(Remove(c.items, k)) && x !in c.items
              && c.callbacks == old(c.callbacks) + [Callback(x, x.status)]
              && x.actualLength == old(x.transferred) + Moved(result, x.kind, size)
              && var whole := !x.shortNotOk || IsWhole(x.kind, x.length, x.actualLength);
                 && (x.status == TimedOut <==> old(x.timedOut) || result == TransactionTimeout)
                 && (x.status == Cancelled <==> !old(x.timedOut) && result == Aborted)
                 && (x.status == Stall <==> !old(x.timedOut) && result == PipeStalled)
                 && (x.status == FlyingTransfers.Overflow <==> !old(x.timedOut) && result == Overrun)
                 && (x.status == Completed <==> !old(x.timedOut) && Succeeds(result) && whole)
                 && (x.status == Error <==>
                       !old(x.timedOut) && (result.OtherResult? || (Succeeds(result) && !whole)))
  {
    hide Context.Valid, Context.Linked, Remove;
    if x.kind.UnknownKind? {
      return;
    }
    if (result == Success || result == Underrun) && !x.kind.Isochronous? {
      x.transferred := x.transferred + size;
    }
    var status := DarwinStatus(x, result);
    c.Complete(x, status, k);
  }

  // A zero timeout promises to wait for ever.  A transfer object that was submitted with a timeout
  // before keeps its old deadline, and is timed out all the same.
  method ZeroTimeoutExpires() returns (c: Context, x: Transfer)
    ensures c.Valid() && c.items == [x] && x.timeout == 0 && x.timedOut
  {
    hide Context.Valid, Context.Linked, Context.Distinct, Sorted, Insert, Remove;
    c := new Context();
    x := new Transfer(1, Bulk, 1000);
    SingleItem(x);
    var r, k := c.Submit(x, Timespec(10, 0), 0, false);
    c.Complete(x, Completed, 0);
    x.timeout := 0;
    ghost var deadline := x.deadline;
    r, k := c.Submit(x, Timespec(20, 0), 0, false);
    assert x.deadline == deadline && x in c.items;
    LaterIsMicros(x.deadline, Truncate(Timespec(20, 0)));
    c.HandleTimeouts(Timespec(20, 0), {});
  }

  lemma SingleItem(x: Transfer)
    ensures forall k: nat :: k == 0 ==> Insert([], k, x) == [x]
    ensures Remove([x], 0) == []
  {
  }

  // enum libusb_error
  const ERROR_IO := -1
  const ERROR_TIMEOUT := -7
  const ERROR_OVERFLOW := -8
  const ERROR_PIPE := -9
  const ERROR_INTERRUPTED := -10

  // One call of libusb_handle_events_completed: its result, and whether the callback has run by then
  datatype Poll = Poll(result: int, completed: bool)

  // What a blocking call has come to once all polls so far have been made
  datatype Outcome =
    | Waiting
    | Returned(result: int, transferred: int, freedInFlight: bool)

  predicate Fails(p: Poll) {
    p.result < 0 && p.result != -10
  }

  predicate Negative(p: Poll) {
    p.result < 0
  }

  // The first poll at which `stop` holds or the callback has run
  ghost predicate IsFirst(polls: seq<Poll>, from: int, stop: Poll -> bool, i: int) {
    && 0 <= from <= i < |polls| && (polls[i].completed || stop(polls[i]))
    && forall j :: from <= j < i ==> !polls[j].completed && !stop(polls[j])
  }

  ghost predicate Finishes(polls: seq<Poll>, i: int) {
    IsFirst(polls, 0, Fails, i) && !Fails(polls[i])
  }

  // Poll i fails, and j is the poll at which the call then gives up
  ghost predicate GivesUp(polls: seq<Poll>, i: int, j: int) {
    && IsFirst(polls, 0, Fails, i) && Fails(polls[i])
    && if polls[i].completed then j == i else IsFirst(polls, i + 1, Negative, j)
  }

  // What the status of a transfer is to be reported as, in the numbers of enum libusb_error
  predicate Reports(isControl: bool, status: Status, actualLength: nat, r: int) {
    && (r >= 0 <==> status == Completed)
    && (status == Completed ==> r == if isControl then actualLength else 0)
    && (r == -7 <==> status == TimedOut)
    && (r == -9 <==> status == Stall)
    && (r == -4 <==> status == NoDevice)
    && (r == -8 <==> status == FlyingTransfers.Overflow)
    && (r == -1 <==> status == Error || status == Cancelled)
  }

  // The status switch at the end of libusb_control_transfer and do_sync_bulk_transfer
  method StatusResult(isControl: bool, status: Status, actualLength: nat) returns (r: int)
    ensures Reports(isControl, status, actualLength, r)
  {
    match status {
      case Completed => r := if isControl then actualLength else 0;
      case TimedOut => r := ERROR_TIMEOUT;
      case Stall => r := ERROR_PIPE;
      case Overflow => r := ERROR_OVERFLOW;
      case NoDevice => r := ERROR_NO_DEVICE;
      case Error => r := ERROR_IO;
      case Cancelled => r := ERROR_IO;
    }
  }

  // The second wait, after poll `first` has failed: until the callback has run or another poll fails.  When all
  // polls have been made, `next` lies beyond them.
  method WaitAgain(polls: seq<Poll>, first: nat, done: bool) returns (next: int, completed: bool)
    requires first < |polls| && IsFirst(polls, 0, Fails, first) && Fails(polls[first])
    requires done == polls[first].completed
    ensures next <= |polls| ==> 0 < next && GivesUp(polls, first, next - 1) && completed == polls[next - 1].completed
    ensures next > |polls| ==> forall j :: !GivesUp(polls, first, j)
  {
    hide Fails;
    next, completed := first + 1, done;
    while !completed
      invariant first < next <= |polls| && completed == polls[next - 1].completed && (done ==> next == first + 1)
      invariant completed ==> GivesUp(polls, first, next - 1)
      invariant !completed ==> forall j :: first < j < next ==> !polls[j].completed && !Negative(polls[j])
      decreases |polls| - next, !completed
    {
      if next == |polls| {
        return next + 1, false;
      }
      completed := polls[next].completed;
      next := next + 1;
      if polls[next - 1].result < 0 {
        break;
      }
    }
  }

  // The wait of libusb_control_transfer and do_sync_bulk_transfer after a successful submission, for
  // event-handling calls that end as `polls` says.  The call returns a timeout for a transfer that
  // timed out.  A failed poll cancels the transfer and is what the call returns once the callback has
  // run or another poll has failed; only in the latter case is the transfer freed while in flight.
  method BlockingTransfer(polls: seq<Poll>, isControl: bool, status: Status, actualLength: nat)
    returns (o: Outcome)
    ensures o == Waiting <==>
              !(exists i :: Finishes(polls, i)) && !(exists i, j :: GivesUp(polls, i, j))
    ensures (exists i :: Finishes(polls, i)) ==>
              && o.Returned? && !o.freedInFlight && o.transferred == actualLength
              && Reports(isControl, status, actualLength, o.result)
    ensures forall i, j :: GivesUp(polls, i, j) ==>
              o == Returned(polls[i].result, 0, !polls[j].completed)
  {
    hide Reports;
    var i, completed := 0, false;
    while !completed
      invariant 0 <= i <= |polls|
      invariant completed ==> i > 0 && Finishes(polls, i - 1)
      invariant !completed ==> forall j :: 0 <= j < i ==> !polls[j].completed && !Fails(polls[j])
      decreases |polls| - i, !completed
    {
      if i == |polls| {
        return Waiting;
      }
      var r := polls[i].result;
      completed := polls[i].completed;
      i := i + 1;
      if r < 0 && r != ERROR_INTERRUPTED {
        i, completed := WaitAgain(polls, i - 1, completed);
        if i > |polls| {
          return Waiting;
        }
        return Returned(r, 0, !completed);
      }
    }
    assert Finishes(polls, i - 1);
    var result := StatusResult(isControl, status, actualLength);
    o := Returned(result, actualLength, false);
  }

  // The transfer is due at a scan that runs at `scan`, given what its deadline was before it was submitted
  // at `start`.
  predicate DueAt(stale: Timeval, timeout: nat, start: Timespec, scan: Timespec) {
    if timeout != 0 then Nanos(scan) / 1000 >= Nanos(start) / 1000 + timeout * 1000
    else IsSet(stale) && Nanos(scan) / 1000 >= Micros(stale)
  }

  // Some of the first k scans finds the transfer due.
  predicate DueAtSome(stale: Timeval, timeout: nat, start: Timespec, scans: seq<Timespec>, k: int) {
    exists i :: 0 <= i < k && i < |scans| && DueAt(stale, timeout, start, scans[i])
  }

  // Timeout scans while a transfer is in flight.  Each marks what is due, so that in the end the transfer is
  // marked exactly if it was before or some scan found it due.
  method ScanAll(c: Context, x: Transfer, scans: seq<Timespec>, gone: set<nat>,
                 ghost stale: Timeval, ghost start: Timespec)
    requires c.Valid() && x in c.items && Normal(stale)
    requires forall i :: 0 <= i < |scans| ==> NormalSpec(scans[i])
    requires if x.timeout == 0 then x.deadline == stale
             else IsSet(x.deadline) && Micros(x.deadline) == Nanos(start) / 1000 + x.timeout * 1000
    modifies c.items`timedOut, c.items`cancelling, c.items`disappeared
    ensures c.Valid()
    ensures x.timedOut <==>
              old(x.timedOut) || (!x.osHandlesTimeout && DueAtSome(stale, x.timeout, start, scans, |scans|))
  {
    hide Context.Valid, Context.Linked, Micros, Nanos, IsSet, DueAt, Later, Truncate;
    IsNormal(c, x);
    for k := 0 to |scans|
      invariant c.Valid()
      invariant x.timedOut <==>
                  old(x.timedOut) || (!x.osHandlesTimeout && DueAtSome(stale, x.timeout, start, scans, k))
    {
      DueIsExpired(x, stale, start, scans[k]);
      c.HandleTimeouts(scans[k], gone);
    }
  }

  lemma IsNormal(c: Context, x: Transfer)
    requires c.Valid() && x in c.items
    ensures Normal(x.deadline)
  {
    c.SortedIsNormal();
  }

  // A whole blocking call: submission, any number of timeout scans while the transfer is in flight, its
  // completion by the backend, and the wait.  A transfer is timed out exactly if some scan ran no earlier than
  // the timeout after the submission, or the kernel reported a transaction timeout; every other result follows
  // from the kernel's, and from whether all that had to be transferred was.
  method BlockingCall(c: Context, x: Transfer, start: Timespec, backendResult: int, osHandles: bool,
                      scans: seq<Timespec>, gone: set<nat>, kernel: KernelResult, size: nat, polls: seq<Poll>)
    returns (o: Outcome)
    requires c.Valid() && x != c.head && x !in c.items && Normal(x.deadline)
    requires NormalSpec(start) && backendResult <= 0 && !x.kind.UnknownKind?
    requires forall i :: 0 <= i < |scans| ==> NormalSpec(scans[i])
    requires exists i :: Finishes(polls, i)
    modifies c`items, c`submissions, c`callbacks, x, c.head`prev, c.head`next
    modifies c.items`prev, c.items`next, c.items`timedOut, c.items`cancelling, c.items`disappeared
    ensures c.Valid() && c.items == old(c.items)
    ensures backendResult < 0 ==> o == Returned(backendResult, 0, false) && c.callbacks == old(c.callbacks)
    ensures backendResult == 0 ==>
              && c.callbacks == old(c.callbacks) + [Callback(x, x.status)]
              && o.Returned? && !o.freedInFlight && o.transferred == x.actualLength >= 0
              && o.transferred == Moved(kernel, x.kind, size)
              && var late := !osHandles && old(DueAtSome(x.deadline, x.timeout, start, scans, |scans|));
                 var whole := !x.shortNotOk || IsWhole(x.kind, x.length, o.transferred);
                 && (o.result >= 0 <==> !late && Succeeds(kernel) && whole)
                 && (o.result >= 0 ==> o.result == if x.kind.Control? then size else 0)
                 && (o.result == -7 <==> late || kernel == TransactionTimeout)
                 && (o.result == -9 <==> !late && kernel == PipeStalled)
                 && (o.result == -8 <==> !late && kernel == Overrun)
                 && (o.result == -1 <==>
                       !late && (kernel == Aborted || kernel.OtherResult? || (Succeeds(kernel) && !whole)))
  {
    hide Context.Valid, Context.Linked, Finishes, Insert, Remove, Micros, Nanos, IsSet, DueAtSome, Truncate;
    ghost var items, stale := c.items, x.deadline;
    var r, k := c.Submit(x, start, backendResult, osHandles);
    if r < 0 {
      return Returned(r, 0, false);
    }
    InsertThenRemove(items, k, x);
    InsertMembers(items, k, x);
    ScanAll(c, x, scans, gone, stale, start);
    DarwinCallback(c, x, kernel, size, k);
    o := BlockingTransfer(polls, x.kind.Control?, x.status, x.actualLength);
  }

  lemma InsertMembers(s: seq<Transfer>, k: nat, x: Transfer)
    requires k <= |s|
    ensures |Insert(s, k, x)| == |s| + 1 && x in Insert(s, k, x)
    ensures forall i :: 0 <= i < |Insert(s, k, x)| ==> Insert(s, k, x)[i] in s || Insert(s, k, x)[i] == x
  {
    assert Insert(s, k, x)[k] == x;
  }

  lemma DueIsExpired(x: Transfer, stale: Timeval, start: Timespec, scan: Timespec)
    requires NormalSpec(scan) && Normal(x.deadline) && Normal(stale)
    requires if x.timeout == 0 then x.deadline == stale
             else IsSet(x.deadline) && Micros(x.deadline) == Nanos(start) / 1000 + x.timeout * 1000
    ensures DueAt(stale, x.timeout, start, scan) <==> IsSet(x.deadline) && !Later(x.deadline, Truncate(scan))
  {
    hide Truncate, Later;
    TruncateIsMicros(scan);
    LaterIsMicros(x.deadline, Truncate(scan));
  }
}
