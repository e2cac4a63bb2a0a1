// The in-flight transfers of a libusb context (io.c, core.c, libusbi.h): an intrusive circular
// list of transfers, sorted by deadline, that submission, completion, timeout, close and disconnect
// edit in place.
module FlyingTransfers {
  import opened TimevalArithmetic

  datatype Status = Completed | Error | TimedOut | Cancelled | Stall | NoDevice | Overflow

  datatype Callback = Callback(transfer: Transfer, status: Status)

  // transfer->type
  datatype Kind = Control | Isochronous | Bulk | Interrupt | UnknownKind(code: nat)

  const NO_HANDLE: nat := 0
  const ERROR_NO_DEVICE := -4  // LIBUSB_ERROR_NO_DEVICE
  const CONTROL_SETUP_SIZE := 8  // LIBUSB_CONTROL_SETUP_SIZE

  // struct usbi_transfer with the fields of struct libusb_transfer that the engine uses.  The list
  // head of a context is a node of the same class whose other fields are not used.
  class Transfer {
    // struct list_head
    var prev: Transfer
    var next: Transfer

    // the stored deadline, and the flags of enum usbi_transfer_flags
    var deadline: Timeval
    var timedOut: bool
    var osHandlesTimeout: bool
    var cancelling: bool
    var disappeared: bool

    // set by the user
    var timeout: nat
    var handle: nat
    var length: int
    var kind: Kind
    var shortNotOk: bool

    var transferred: int
    var actualLength: int
    var status: Status

    // when the transfer was last submitted, counted in submissions
    ghost var order: nat

    // list_init on a zeroed transfer
    constructor (handle: nat, kind: Kind, timeout: nat)
      ensures prev == this && next == this && !IsSet(deadline)
      ensures this.handle == handle && this.kind == kind && this.timeout == timeout
      ensures !timedOut && !osHandlesTimeout && !cancelling && !disappeared
    {
      prev, next := this, this;
      deadline := ZERO;
      timedOut, osHandlesTimeout, cancelling, disappeared := false, false, false, false;
      this.handle, this.timeout := handle, timeout;
      length, shortNotOk, transferred, actualLength, status := 0, false, 0, 0, Completed;
      this.kind := kind;
      order := 0;
    }
  }

  // a expires no later than b; an unset deadline is later than all others
  predicate NotAfter(a: Timeval, b: Timeval) {
    !IsSet(b) || (IsSet(a) && !Later(a, b))
  }

  // The transfer has a deadline that neither the timeout scan has acted on nor the OS handles.
  predicate Eligible(t: Transfer)
    reads t`deadline, t`timedOut, t`osHandlesTimeout
  {
    IsSet(t.deadline) && !t.timedOut && !t.osHandlesTimeout
  }

  predicate Expired(t: Transfer, now: Timeval)
    reads t`deadline, t`timedOut, t`osHandlesTimeout
  {
    Eligible(t) && !Later(t.deadline, now)
  }

  // Sorted by deadline, infinite deadlines last, equal deadlines in submission order
  ghost predicate Sorted(s: seq<Transfer>, submissions: nat)
    reads s`deadline, s`order
  {
    && (forall i :: 0 <= i < |s| ==> Normal(s[i].deadline) && s[i].order < submissions)
    && forall i, j :: 0 <= i < j < |s| ==> InOrder(s[i], s[j])
  }

  ghost predicate InOrder(a: Transfer, b: Transfer)
    reads a`deadline, a`order, b`deadline, b`order
  {
    && NotAfter(a.deadline, b.deadline)
    && (NotAfter(b.deadline, a.deadline) ==> a.order < b.order)
  }

  ghost function Insert<T>(s: seq<T>, k: nat, x: T): seq<T>
    requires k <= |s|
  {
    s[..k] + [x] + s[k..]
  }

  lemma InsertKeepsSorted(s: seq<Transfer>, k: nat, x: Transfer, n: nat)
    requires k <= |s| && Sorted(s, n) && x.order == n && Normal(x.deadline)
    requires forall i :: 0 <= i < k ==> NotAfter(s[i].deadline, x.deadline)
    requires forall i :: k <= i < |s| ==> !NotAfter(s[i].deadline, x.deadline)
    ensures Sorted(Insert(s, k, x), n + 1)
  {
    var r := Insert(s, k, x);
    assert forall i {:trigger r[i]} :: 0 <= i < |r| ==> r[i] == if i < k then s[i] else if i == k then x else s[i - 1];
    hide NotAfter, Normal;
    forall i, j | 0 <= i < j < |r|
      ensures InOrder(r[i], r[j])
    {
      NotAfterIsTotal(r[i].deadline, r[j].deadline);
    }
  }

  // If poll runs for the whole wait that x supplied, the next scan finds x expired.
  lemma FullPollFindsExpired(x: Transfer, before: Timespec, after: Timespec)
    requires Normal(x.deadline) && Eligible(x) && NormalSpec(before) && NormalSpec(after)
    requires Nanos(after) >= Nanos(before) + PollMillis(Remaining(x.deadline, Truncate(before))) * 1_000_000
    ensures Expired(x, Truncate(after))
  {
    hide PollMillis;
    TruncateIsMicros(before);
    TruncateIsMicros(after);
    if Later(x.deadline, Truncate(before)) {
      FullPollReachesDeadline(x.deadline, before, Remaining(x.deadline, Truncate(before)), after);
    } else {
      LaterIsMicros(x.deadline, Truncate(before));
      LaterIsMicros(x.deadline, Truncate(after));
      NoWaitBelowZero(x.deadline, before);
    }
  }

  lemma NoWaitBelowZero(deadline: Timeval, now: Timespec)
    requires Normal(deadline) && NormalSpec(now)
    ensures PollMillis(Remaining(deadline, Truncate(now))) >= 0
  {
    hide PollMillis, Remaining, Truncate;
    TruncateIsMicros(now);
    RemainingIsMicros(deadline, Truncate(now));
    RoundsUp(Remaining(deadline, Truncate(now)));
  }

  lemma ReachedMeansZero(deadline: Timeval, now: Timespec)
    requires Normal(deadline) && NormalSpec(now)
    ensures var time := Truncate(now);
            && Remaining(deadline, time) == (if !Later(deadline, time) then ZERO else Subtract(deadline, time))
            && (IsSet(Remaining(deadline, time)) <==> Later(deadline, time))
  {
    TruncateIsMicros(now);
    RemainingIsMicros(deadline, Truncate(now));
  }

  lemma UnsetIsLast(a: Timeval)
    ensures !IsSet(a) ==> forall b :: NotAfter(b, a)
  {
  }

  lemma NotAfterIsTotal(a: Timeval, b: Timeval)
    ensures NotAfter(a, b) || NotAfter(b, a)
  {
  }

  lemma RemoveKeepsSorted(s: seq<Transfer>, k: nat, n: nat)
    requires k < |s| && Sorted(s, n)
    ensures Sorted(Remove(s, k), n)
  {
    var r := Remove(s, k);
    assert forall i {:trigger r[i]} :: 0 <= i < |r| ==> r[i] == s[if i < k then i else i + 1];
  }

  lemma InsertThenRemove<T>(s: seq<T>, k: nat, x: T)
    requires k <= |s|
    ensures Remove(Insert(s, k, x), k) == s && Insert(s, k, x)[k] == x
  {
  }

  lemma RemoveMembers(s: seq<Transfer>, k: nat)
    requires k < |s|
    ensures forall x :: x in Remove(s, k) ==> x in s
    ensures forall x :: x in s && x != s[k] ==> x in Remove(s, k)
  {
    var r := Remove(s, k);
    forall x | x in s && x != s[k]
      ensures x in r
    {
      var i :| 0 <= i < |s| && s[i] == x;
      assert r[if i < k then i else i - 1] == x;
    }
  }

  // s without the members of drop, in order
  ghost function Without(s: seq<Transfer>, drop: set<Transfer>): seq<Transfer> {
    if s == [] then []
    else
      var n := |s| - 1;
      if s[n] in drop then Without(s[..n], drop) else Without(s[..n], drop) + [s[n]]
  }

  // One callback with the given status for each member of `who` in s, in order
  ghost function Notices(s: seq<Transfer>, who: set<Transfer>, status: Status): seq<Callback> {
    if s == [] then []
    else
      var n := |s| - 1;
      if s[n] in who then Notices(s[..n], who, status) + [Callback(s[n], status)] else Notices(s[..n], who, status)
  }

  // Dropping one more member first changes nothing; if it comes before the others to drop, its
  // notice comes first.
  lemma {:induction false} DropOne(s: seq<Transfer>, k: nat, drop: set<Transfer>, status: Status)
    requires k < |s| && s[k] in drop
    ensures Without(Remove(s, k), drop) == Without(s, drop)
    ensures (forall i :: 0 <= i < k ==> s[i] !in drop) ==>
              Notices(s, drop, status) == [Callback(s[k], status)] + Notices(Remove(s, k), drop, status)
  {
    hide Remove;
    var n := |s| - 1;
    RemoveLength(s, k);
    if k < n {
      RemovePrefix(s, k);
      DropOne(s[..n], k, drop, status);
    } else {
      NothingToDrop(s[..n], drop, status);
    }
  }

  lemma RemoveLength<T>(s: seq<T>, k: nat)
    requires k < |s|
    ensures |Remove(s, k)| == |s| - 1
    ensures k == |s| - 1 ==> Remove(s, k) == s[..k]
  {
  }

  lemma RemovePrefix<T>(s: seq<T>, k: nat)
    requires k < |s| - 1
    ensures var r, n := Remove(s, k), |s| - 1; |r| == n && r[..n - 1] == Remove(s[..n], k) && r[n - 1] == s[n]
  {
  }

  lemma {:induction false} NothingToDrop(s: seq<Transfer>, drop: set<Transfer>, status: Status)
    ensures (forall i :: 0 <= i < |s| ==> s[i] !in drop) ==> Without(s, drop) == s && Notices(s, drop, status) == []
  {
    if s != [] {
      var n := |s| - 1;
      NothingToDrop(s[..n], drop, status);
      assert s == s[..n] + [s[n]];
    }
  }

  // Without keeps exactly the members that are not dropped, each as often as before.
  lemma {:induction false} WithoutCounts(s: seq<Transfer>, drop: set<Transfer>, x: Transfer)
    ensures multiset(Without(s, drop))[x] == if x in drop then 0 else multiset(s)[x]
  {
    if s != [] {
      var n := |s| - 1;
      WithoutCounts(s[..n], drop, x);
      assert s == s[..n] + [s[n]];
    }
  }

  // Without keeps the order: of any two members that stay, the one that came first still does.
  ghost predicate Precedes(s: seq<Transfer>, a: Transfer, b: Transfer) {
    exists i, j :: 0 <= i < j < |s| && s[i] == a && s[j] == b
  }

  lemma {:induction false} WithoutKeepsOrder(s: seq<Transfer>, drop: set<Transfer>, a: Transfer, b: Transfer)
    requires a !in drop && b !in drop
    ensures Precedes(Without(s, drop), a, b) <==> Precedes(s, a, b)
  {
    if s != [] {
      var n := |s| - 1;
      var w: seq<Transfer> := Without(s[..n], drop);
      WithoutKeepsOrder(s[..n], drop, a, b);
      WithoutCounts(s[..n], drop, a);
      PrecedesAtEnd(s[..n], s[n], a, b);
      PrecedesAtEnd(w, s[n], a, b);
      assert s == s[..n] + [s[n]];
      assert a in w <==> multiset(w)[a] > 0;
      assert a in s[..n] <==> multiset(s[..n])[a] > 0;
    }
  }

  lemma PrecedesAtEnd(s: seq<Transfer>, x: Transfer, a: Transfer, b: Transfer)
    ensures Precedes(s + [x], a, b) <==> Precedes(s, a, b) || (x == b && a in s)
  {
    var r := s + [x];
    if Precedes(s, a, b) {
      var i, j :| 0 <= i < j < |s| && s[i] == a && s[j] == b;
      assert r[i] == a && r[j] == b;
    }
    if x == b && a in s {
      var i :| 0 <= i < |s| && s[i] == a;
      assert r[i] == a && r[|s|] == b;
    }
  }

  ghost function Remove<T>(s: seq<T>, k: nat): seq<T>
    requires k < |s|
  {
    s[..k] + s[k + 1..]
  }

  // The nodes of a ring: the head and the items, all of them different
  ghost predicate AllDiffer(head: Transfer, s: seq<Transfer>) {
    head !in s && forall i, j :: 0 <= i < j < |s| ==> s[i] != s[j]
  }

  lemma OneDiffers(head: Transfer, s: seq<Transfer>, k: int)
    requires AllDiffer(head, s)
    ensures 0 <= k < |s| ==> s[k] != head && forall i :: 0 <= i < |s| && i != k ==> s[i] != s[k]
  {
  }

  lemma RemoveDiffers(head: Transfer, s: seq<Transfer>, k: nat)
    requires AllDiffer(head, s) && k < |s|
    ensures AllDiffer(head, Remove(s, k)) && s[k] !in Remove(s, k) && |Remove(s, k)| == |s| - 1
    ensures forall i {:trigger Remove(s, k)[i]} :: 0 <= i < |s| - 1 ==> Remove(s, k)[i] == s[if i < k then i else i + 1]
  {
  }

  lemma InsertDiffers(head: Transfer, s: seq<Transfer>, k: nat, x: Transfer)
    requires AllDiffer(head, s) && k <= |s| && x != head && x !in s
    ensures AllDiffer(head, Insert(s, k, x)) && |Insert(s, k, x)| == |s| + 1
    ensures forall i {:trigger Insert(s, k, x)[i]} :: 0 <= i <= |s| ==>
              Insert(s, k, x)[i] == if i < k then s[i] else if i == k then x else s[i - 1]
  {
  }

  class Context {
    const head: Transfer          // flying_transfers
    ghost var items: seq<Transfer>  // what the ring contains
    ghost var submissions: nat
    var callbacks: seq<Callback>  // the user callbacks made so far

    // The node before the k-th item of the ring, and the node after it; the head stands at both ends.
    ghost function Before(k: nat): Transfer
      requires k <= |items|
      reads this`items
    {
      if k == 0 then head else items[k - 1]
    }

    ghost function After(k: int): Transfer
      requires -1 <= k < |items|
      reads this`items
    {
      if k + 1 == |items| then head else items[k + 1]
    }

    ghost predicate Distinct()
      reads this`items
    {
      AllDiffer(head, items)
    }

    // A doubly linked ring through the head and the items, in that order
    ghost predicate Linked()
      reads this`items, head`prev, head`next, items`prev, items`next
    {
      && Distinct()
      && head.next == After(-1) && head.prev == Before(|items|)
      && (forall i {:trigger items[i].next} :: 0 <= i < |items| ==>
            items[i].next == if i + 1 == |items| then head else items[i + 1])
      && (forall i {:trigger items[i].prev} :: 0 <= i < |items| ==>
            items[i].prev == if i == 0 then head else items[i - 1])
    }

    // list_empty
    predicate IsEmpty()
      requires Linked()
      reads this`items, head`prev, head`next, items`prev, items`next
      ensures IsEmpty() <==> items == []
    {
      head.next == head
    }

    // One step of list_for_each_entry
    lemma NextItem(k: nat)
      requires Valid() && k < |items|
      ensures items[k] != head && items[k].next == After(k)
      ensures After(k) == head <==> k + 1 == |items|
      ensures forall i :: 0 <= i < |items| && i != k ==> items[i] != items[k]
    {
    }

    lemma FirstItem()
      requires Valid()
      ensures head.next == After(-1)
      ensures After(-1) == head <==> items == []
    {
    }

    lemma ExpireNoEarlier(k: nat)
      requires Valid() && k < |items|
      ensures forall i :: k < i < |items| ==> NotAfter(items[k].deadline, items[i].deadline)
    {
      assert forall i :: k < i < |items| ==> InOrder(items[k], items[i]);
    }

    lemma NoneExpiresFrom(k: nat, time: Timeval)
      requires Valid() && k < |items| && (!IsSet(items[k].deadline) || Later(items[k].deadline, time))
      ensures forall i :: k <= i < |items| ==> !Expired(items[i], time)
    {
      ExpireNoEarlier(k);
    }

    ghost predicate Valid()
      reads this`items, this`submissions
      reads head`prev, head`next, items`prev, items`next, items`deadline, items`order
    {
      Linked() && Sorted(items, submissions)
    }

    // list_init
    constructor ()
      ensures Valid() && fresh(head) && items == [] && callbacks == []
    {
      head := new Transfer(NO_HANDLE, Control, 0);
      items, submissions, callbacks := [], 0, [];
    }

    // list_add_tail: the entry goes immediately before `at`, the k-th item or the head
    method ListAddTail(entry: Transfer, at: Transfer, ghost k: nat)
      requires Linked() && k <= |items| && at == After(k - 1)
      requires entry != head && entry !in items
      modifies this`items, head`prev, head`next, items`prev, items`next, entry`prev, entry`next
      ensures Linked() && items == old(Insert(items, k, entry))
    {
      hide AllDiffer, Insert;
      ghost var was := items;
      OneDiffers(head, was, k - 1);
      OneDiffers(head, was, k);
      InsertDiffers(head, was, k, entry);
      assert at.prev == Before(k);
      entry.next := at;
      entry.prev := at.prev;
      at.prev.next := entry;
      at.prev := entry;
      items := Insert(was, k, entry);
    }

    // list_add: the entry goes immediately after the head
    method ListAdd(entry: Transfer)
      requires Linked() && entry != head && entry !in items
      modifies this`items, head`prev, head`next, items`prev, items`next, entry`prev, entry`next
      ensures Linked() && items == [entry] + old(items)
    {
      ghost var was := items;
      entry.next := head.next;
      entry.prev := head;
      head.next.prev := entry;
      head.next := entry;
      items := [entry] + was;
      assert forall i {:trigger items[i]} :: 0 < i < |items| ==> items[i] == was[i - 1];
    }

    // list_del: the links of the removed entry are left dangling
    method ListDel(entry: Transfer, ghost k: nat)
      requires Linked() && k < |items| && items[k] == entry
      modifies this`items, head`prev, head`next, items`prev, items`next
      ensures Linked() && items == old(Remove(items, k))
      ensures entry !in items && entry.next == old(entry.next) && entry.prev == old(entry.prev)
    {
      hide AllDiffer, Remove;
      ghost var was := items;
      OneDiffers(head, was, k - 1);
      OneDiffers(head, was, k);
      OneDiffers(head, was, k + 1);
      RemoveDiffers(head, was, k);
      entry.next.prev := entry.prev;
      entry.prev.next := entry.next;
      items := Remove(was, k);
    }

    // list_del of an item leaves the rest sorted.
    method TakeOut(entry: Transfer, ghost k: nat)
      requires Valid() && k < |items| && items[k] == entry
      modifies this`items, head`prev, head`next, items`prev, items`next
      ensures Valid() && items == old(Remove(items, k)) && entry !in items
      ensures forall x :: x in items ==> x in old(items)
      ensures forall x :: x in old(items) && x != entry ==> x in items
      ensures k < |items| ==> items[k] == old(items)[k + 1]
      ensures entry.next == old(entry.next)
    {
      hide Linked, Sorted, Distinct;
      ghost var was := items;
      RemoveKeepsSorted(items, k, submissions);
      ListDel(entry, k);
      RemoveMembers(was, k);
    }

    // add_to_flying_list: the transfer goes behind everything that expires no later.  The result is 1
    // exactly when it has a deadline and everything else is infinite or strictly later.
    method AddToFlyingList(x: Transfer) returns (r: int, ghost k: nat)
      requires Valid() && x != head && x !in items && Normal(x.deadline)
      modifies this`items, this`submissions, x`order
      modifies head`prev, head`next, items`prev, items`next, x`prev, x`next
      ensures Valid()
      ensures k <= |old(items)| && items == old(Insert(items, k, x))
      ensures forall i :: 0 <= i < k ==> NotAfter(old(items)[i].deadline, x.deadline)
      ensures forall i :: k <= i < |old(items)| ==> !NotAfter(old(items)[i].deadline, x.deadline)
      ensures r == 1 || r == 0
      ensures r == 1 <==> IsSet(x.deadline) && forall y :: y in old(items) ==> !NotAfter(y.deadline, x.deadline)
    {
      hide Linked, Sorted, Distinct, InOrder, NotAfter, Normal;
      x.order := submissions;
      ghost var was, n := items, submissions;
      submissions := submissions + 1;
      if IsEmpty() {
        r, k := if IsSet(x.deadline) then 1 else 0, 0;
        ListAdd(x);
        assert Insert(was, 0, x) == [x] + was;
      } else if !IsSet(x.deadline) {
        r, k := 0, |items|;
        UnsetIsLast(x.deadline);
        ListAddTail(x, head, k);
      } else {
        var at;
        at, r, k := FindPlace(x.deadline, n);
        ListAddTail(x, at, k);
        assert k > 0 ==> was[0] in was;
      }
      InsertKeepsSorted(was, k, x, n);
    }

    // The loop of add_to_flying_list: the first transfer that expires later, or the head
    method FindPlace(deadline: Timeval, ghost n: nat) returns (at: Transfer, r: int, ghost k: nat)
      requires Linked() && Sorted(items, n) && items != [] && IsSet(deadline)
      ensures k <= |items| && at == After(k - 1)
      ensures forall i :: 0 <= i < k ==> NotAfter(items[i].deadline, deadline)
      ensures forall i :: k <= i < |items| ==> !NotAfter(items[i].deadline, deadline)
      ensures r == if k == 0 then 1 else 0
    {
      var cur, first := head.next, 1;
      k := 0;
      while cur != head
        invariant k <= |items| && cur == After(k - 1)
        invariant forall i :: 0 <= i < k ==> NotAfter(items[i].deadline, deadline)
        invariant first == if k == 0 then 1 else 0
        decreases |items| - k
      {
        if !IsSet(cur.deadline) || Later(cur.deadline, deadline) {
          assert forall i :: k < i < |items| ==> InOrder(items[k], items[i]);
          return cur, first, k;
        }
        first := 0;
        cur := cur.next;
        k := k + 1;
      }
      at, r := head, 0;
    }

    // libusb_submit_transfer.  A rejected transfer leaves the list as it was.  With a zero timeout
    // the deadline of an earlier submission stays in force.
    method Submit(x: Transfer, now: Timespec, backendResult: int, osHandles: bool) returns (r: int, ghost k: nat)
      requires Valid() && x != head && x !in items && Normal(x.deadline) && NormalSpec(now)
      modifies this`items, this`submissions, head`prev, head`next, items`prev, items`next, x`prev, x`next
      modifies x`transferred, x`timedOut, x`osHandlesTimeout, x`cancelling, x`disappeared, x`deadline, x`order
      ensures Valid() && r == backendResult
      ensures backendResult != 0 ==> items == old(items)
      ensures k <= |old(items)|
      ensures backendResult == 0 ==> items == old(Insert(items, k, x))
      ensures !x.timedOut && !x.cancelling && !x.disappeared && x.osHandlesTimeout == osHandles && x.transferred == 0
      ensures x.timeout == 0 ==> x.deadline == old(x.deadline)
      ensures Normal(x.deadline)
      ensures IsSet(x.deadline) <==> x.timeout != 0 || old(IsSet(x.deadline))
      ensures x.timeout != 0 ==> IsSet(x.deadline) && Micros(x.deadline) == Nanos(now) / 1000 + x.timeout * 1000
    {
      hide Valid, Linked, NotAfter;
      x.transferred := 0;
      x.timedOut, x.osHandlesTimeout, x.cancelling, x.disappeared := false, false, false, false;
      x.deadline := CalculateTimeout(x.deadline, x.timeout, now);
      var first;
      first, k := AddToFlyingList(x);
      x.osHandlesTimeout := osHandles;
      if backendResult != 0 {
        InsertThenRemove(old(items), k, x);
        TakeOut(x, k);
      }
      r := backendResult;
    }

    // libusb_cancel_transfer: the transfer counts as cancelling even if the backend refuses.
    method Cancel(x: Transfer, backendResult: int) returns (r: int)
      modifies x`cancelling, x`disappeared
      ensures r == backendResult && x.cancelling
      ensures x.disappeared == (old(x.disappeared) || r == -4)
    {
      r := backendResult;
      if r < 0 {
        if r == ERROR_NO_DEVICE {
          x.disappeared := true;
        }
      }
      x.cancelling := true;
    }

    // handle_timeout; the backend has lost the devices of the handles in `gone`
    method HandleTimeout(x: Transfer, gone: set<nat>)
      modifies x`timedOut, x`cancelling, x`disappeared
      ensures x.timedOut && x.cancelling && x.disappeared == (old(x.disappeared) || x.handle in gone)
    {
      x.timedOut := true;
      var r := Cancel(x, if x.handle in gone then ERROR_NO_DEVICE else 0);
    }

    // What a scan does to one transfer: a transfer that is due is flagged and cancelled
    twostate predicate Marked(x: Transfer, due: bool, gone: set<nat>)
      reads x
    {
      && x.timedOut == (old(x.timedOut) || due)
      && x.cancelling == (old(x.cancelling) || due)
      && x.disappeared == (old(x.disappeared) || (due && x.handle in gone))
    }

    // handle_timeouts_locked: a scan that stops early marks and cancels exactly the transfers that a
    // full scan would.
    method HandleTimeouts(now: Timespec, gone: set<nat>)
      requires Valid()
      modifies items`timedOut, items`cancelling, items`disappeared
      ensures Valid()
      ensures forall x :: x in items ==> Marked(x, old(Expired(x, Truncate(now))), gone)
      ensures forall x :: x in items ==> !Expired(x, Truncate(now))
    {
      hide Linked, Sorted, Later, Truncate;
      if !IsEmpty() {
        ScanFlying(Truncate(now), gone, set x | x in items && Expired(x, Truncate(now)));
      }
    }

    // Its loop, where `due` are the transfers that a full scan would act on
    method ScanFlying(time: Timeval, gone: set<nat>, ghost due: set<Transfer>)
      requires Valid() && items != [] && due == set x | x in items && Expired(x, time)
      modifies items`timedOut, items`cancelling, items`disappeared
      ensures Valid()
      ensures forall i :: 0 <= i < |items| ==> Marked(items[i], items[i] in due, gone)
    {
      hide Linked, Sorted, Distinct, InOrder, Normal;
      FirstItem();
      var cur := head.next;
      ghost var k: nat := 0;
      while cur != head
        invariant k <= |items| && cur == After(k - 1) && (cur == head <==> k == |items|) && Valid()
        invariant forall i :: 0 <= i < k ==> Marked(items[i], items[i] in due, gone)
        invariant forall i :: k <= i < |items| ==> Marked(items[i], false, gone)
        decreases |items| - k
      {
        NextItem(k);
        if !IsSet(cur.deadline) {
          NoneExpiresFrom(k, time);
          break;
        }
        if !cur.timedOut && !cur.osHandlesTimeout {
          if Later(cur.deadline, time) {
            NoneExpiresFrom(k, time);
            break;
          }
          HandleTimeout(cur, gone);
        }
        cur := cur.next;
        k := k + 1;
      }
    }

    // libusb_get_next_timeout: how long until the earliest deadline that a scan would still act on
    method GetNextTimeout(now: Timespec) returns (r: int, tv: Timeval, ghost k: nat)
      requires Valid() && NormalSpec(now)
      ensures r == 0 || r == 1
      ensures r == 0 <==> forall x :: x in items ==> !Eligible(x)
      ensures r == 1 ==>
                && k < |items| && Eligible(items[k])
                && (forall x :: x in items && Eligible(x) ==> NotAfter(items[k].deadline, x.deadline))
                && tv == Remaining(items[k].deadline, Truncate(now))
      ensures r == 1 && !IsSet(tv) <==> exists x :: x in items && Expired(x, Truncate(now))
    {
      hide Linked, Distinct, Sorted, NotAfter, Later, Subtract;
      r, tv, k := 0, ZERO, 0;
      if IsEmpty() {
        return;
      }
      FirstItem();
      var cur, found := head.next, false;
      while cur != head
        invariant k <= |items| && cur == After(k - 1) && (cur == head <==> k == |items|) && !found
        invariant forall i :: 0 <= i < k ==> !Eligible(items[i])
        decreases |items| - k
      {
        NextItem(k);
        if !cur.timedOut && !cur.osHandlesTimeout && IsSet(cur.deadline) {
          found := true;
          break;
        }
        cur := cur.next;
        k := k + 1;
      }
      if !found {
        return;
      }
      var time := Truncate(now);
      EarliestDecides(k, time);
      tv := if !Later(cur.deadline, time) then ZERO else Subtract(cur.deadline, time);
      r := 1;
      ReachedMeansZero(cur.deadline, now);
    }

    lemma EarliestDecides(k: nat, time: Timeval)
      requires Valid() && k < |items| && Eligible(items[k]) && forall i :: 0 <= i < k ==> !Eligible(items[i])
      ensures forall x :: x in items && Eligible(x) ==> NotAfter(items[k].deadline, x.deadline)
      ensures !Later(items[k].deadline, time) <==> exists x :: x in items && Expired(x, time)
      ensures items[k] in items && Normal(items[k].deadline)
    {
      ExpireNoEarlier(k);
    }

    // get_next_timeout: either some transfer is already due, or the wait chosen reaches no further
    // than the caller's limit and the earliest eligible deadline.  Right after handle_timeouts_locked
    // at the same instant, nothing is due.
    method ChooseWait(now: Timespec, limit: Timeval) returns (expired: bool, wait: Timeval, ghost k: nat)
      requires Valid() && NormalSpec(now) && Normal(limit)
      ensures expired <==> exists x :: x in items && Expired(x, Truncate(now))
      ensures !expired ==> Normal(wait)
      ensures !expired ==> forall x :: x in items && Eligible(x) ==> Later(x.deadline, Truncate(now))
      ensures !expired ==>
                || wait == limit
                || (k < |items| && Eligible(items[k]) && wait == Remaining(items[k].deadline, Truncate(now)))
      ensures !expired ==> Micros(wait) <= Micros(limit)
      ensures !expired ==> forall x :: x in items && Eligible(x) ==>
                Micros(wait) <= Micros(Remaining(x.deadline, Truncate(now)))
    {
      hide Linked, Distinct;
      var r, timeout;
      r, timeout, k := GetNextTimeout(now);
      expired, wait := false, limit;
      TruncateIsMicros(now);
      if r != 0 {
        var first := items[k];
        assert first in items;
        SortedIsNormal();
        forall x | x in items && Eligible(x)
          ensures Normal(x.deadline)
          ensures Micros(Remaining(first.deadline, Truncate(now))) <= Micros(Remaining(x.deadline, Truncate(now)))
        {
          RemainingIsMicros(first.deadline, Truncate(now));
          RemainingIsMicros(x.deadline, Truncate(now));
          LaterIsMicros(first.deadline, x.deadline);
        }
        if !IsSet(timeout) {
          return true, ZERO, k;
        }
        RemainingIsMicros(first.deadline, Truncate(now));
        LaterIsMicros(limit, timeout);
        wait := Shorter(timeout, limit);
      }
    }

    // The start of libusb_handle_events_timeout_completed: what is due is timed out at once, and only
    // otherwise is there something to wait for.  Either way nothing is due any more at that instant.
    method ExpireOrWait(now: Timespec, limit: Timeval, gone: set<nat>) returns (expired: bool, wait: Timeval)
      requires Valid() && NormalSpec(now) && Normal(limit)
      modifies items`timedOut, items`cancelling, items`disappeared
      ensures Valid() && expired == old(exists x :: x in items && Expired(x, Truncate(now)))
      ensures forall x :: x in items ==> !Expired(x, Truncate(now))
      ensures forall x :: x in items ==> Marked(x, old(Expired(x, Truncate(now))), gone)
      ensures !expired ==> Normal(wait) && Micros(wait) <= Micros(limit)
      ensures !expired ==>
                || wait == limit
                || exists x :: x in items && Eligible(x) && wait == Remaining(x.deadline, Truncate(now))
      ensures !expired ==> forall x :: x in items && Eligible(x) ==>
                Micros(wait) <= Micros(Remaining(x.deadline, Truncate(now)))
    {
      hide Valid;
      ghost var k;
      expired, wait, k := ChooseWait(now, limit);
      assert wait == limit || expired || items[k] in items;
      if expired {
        HandleTimeouts(now, gone);
      }
    }

    lemma SortedIsNormal()
      requires Valid()
      ensures forall x :: x in items ==> Normal(x.deadline)
    {
    }

    // usbi_handle_transfer_completion: the transfer leaves the list and its callback runs.  A transfer
    // that asked for its full length is not reported as completed when it was short.
    method Complete(x: Transfer, status: Status, ghost k: nat)
      requires Valid() && k < |items| && items[k] == x
      modifies this`items, this`callbacks, head`prev, head`next, items`prev, items`next, x`status, x`actualLength
      ensures Valid() && items == old(Remove(items, k)) && x !in items
      ensures callbacks == old(callbacks) + [Callback(x, x.status)]
      ensures x.status == Completed <==>
                && status == Completed
                && (x.shortNotOk ==> x.length == x.transferred + (if x.kind.Control? then 8 else 0))
      ensures x.status != Completed ==> x.status == if status == Completed then Error else status
      ensures x.actualLength == x.transferred
    {
      hide Valid, Linked;
      TakeOut(x, k);
      var reported := status;
      if status == Completed && x.shortNotOk {
        var requested := x.length;
        if x.kind.Control? {
          requested := requested - CONTROL_SETUP_SIZE;
        }
        if requested != x.transferred {
          reported := Error;
        }
      }
      x.status := reported;
      x.actualLength := x.transferred;
      callbacks := callbacks + [Callback(x, reported)];
    }

    // usbi_handle_transfer_cancellation
    method CompleteCancelled(x: Transfer, ghost k: nat)
      requires Valid() && k < |items| && items[k] == x
      modifies this`items, this`callbacks, head`prev, head`next, items`prev, items`next, x`status, x`actualLength
      ensures Valid() && items == old(Remove(items, k)) && x !in items
      ensures callbacks == old(callbacks) + [Callback(x, x.status)]
      ensures x.status == if x.timedOut then TimedOut else Cancelled
    {
      if x.timedOut {
        Complete(x, TimedOut, k);
      } else {
        Complete(x, Cancelled, k);
      }
    }

    ghost function OfHandle(handle: nat): set<Transfer>
      reads this`items, items`handle
    {
      set x | x in items && x.handle == handle
    }

    // What do_close does to one transfer of the handle
    method DropItem(x: Transfer, ghost k: nat, ghost mine: set<Transfer>)
      requires Valid() && k < |items| && items[k] == x && x in mine
      modifies this`items, head`prev, head`next, items`prev, items`next, x`handle
      ensures Valid() && |items| == |old(items)| - 1 && x !in items && x.handle == NO_HANDLE
      ensures Without(items, mine) == old(Without(items, mine))
      ensures forall i :: 0 <= i < |items| ==> items[i] == old(items)[if i < k then i else i + 1]
      ensures forall y :: y in old(items) && y != x ==> y in items
      ensures x.next == old(x.next)
    {
      hide Valid, Linked, Without;
      DropOne(items, k, mine, NoDevice);
      TakeOut(x, k);
      x.handle := NO_HANDLE;
    }

    // do_close: one pass that deletes while it iterates drops exactly the handle's transfers, keeps
    // the others in order, and makes no callback.
    method DropTransfers(handle: nat)
      requires Valid()
      modifies this`items, head`prev, head`next, items`prev, items`next, items`handle
      ensures Valid() && items == Without(old(items), old(OfHandle(handle)))
      ensures forall x :: x in old(items) ==>
                x.handle == if x in old(OfHandle(handle)) then NO_HANDLE else old(x.handle)
    {
      hide Valid, Linked, Without, Remove;
      ghost var was, mine := items, OfHandle(handle);
      ghost var k: nat := 0;
      var cur := head.next;
      var tmp := cur.next;
      FirstItem();
      while cur != head
        invariant Valid() && k <= |items| && cur == After(k - 1) && (cur == head <==> k == |items|)
        invariant tmp == cur.next
        invariant forall i :: 0 <= i < |items| ==> items[i] in was
        invariant forall x :: x in items ==> x.handle == old(x.handle)
        invariant forall i :: 0 <= i < k ==> items[i] !in mine
        invariant Without(items, mine) == Without(was, mine)
        invariant forall x :: x in was && x !in items ==> x in mine && x.handle == NO_HANDLE
        decreases |items| - k
      {
        NextItem(k);
        if cur.handle == handle {
          DropItem(cur, k, mine);
        } else {
          k := k + 1;
        }
        cur := tmp;
        tmp := tmp.next;
      }
      NothingToDrop(items, mine, NoDevice);
    }

    // The scan of usbi_handle_disconnect: the first transfer of the handle
    method FindFirst(handle: nat) returns (found: bool, x: Transfer, ghost k: nat)
      requires Valid()
      ensures !found ==> forall y :: y in items ==> y.handle != handle
      ensures found ==> k < |items| && items[k] == x && x.handle == handle
      ensures found ==> forall i :: 0 <= i < k ==> items[i].handle != handle
    {
      x, k := head.next, 0;
      FirstItem();
      while x != head
        invariant k <= |items| && x == After(k - 1) && (x == head <==> k == |items|)
        invariant forall i :: 0 <= i < k ==> items[i].handle != handle
        decreases |items| - k
      {
        if x.handle == handle {
          return true, x, k;
        }
        x := x.next;
        k := k + 1;
      }
      found := false;
    }
  }
}
