// The disconnection of a device (usbi_handle_disconnect in io.c).  It restarts its scan after every
// callback, because the callback may have changed the list.
module Disconnect {
  import opened TimevalArithmetic
  import opened FlyingTransfers

  // What a callback may do to the list: submit and cancel transfers, fill in one that is not in flight
  // for another use, and close other handles
  datatype Edit =
    | SubmitTransfer(x: Transfer, now: Timespec, backendResult: int, osHandles: bool)
    | CancelTransfer(x: Transfer, backendResult: int)
    | FillTransfer(x: Transfer, handle: nat, kind: Kind, timeout: nat, length: nat)
    | CloseHandle(handle: nat)

  // The transfers that callbacks may submit, and the handles that they may close
  datatype Scope = Scope(transfers: set<Transfer>, submitted: set<Transfer>, closed: set<nat>)

  ghost predicate InScope(e: Edit, scope: Scope, gone: nat) {
    match e
    case SubmitTransfer(x, now, _, _) => x in scope.transfers && x in scope.submitted && NormalSpec(now)
    case CancelTransfer(x, _) => x in scope.transfers
    case FillTransfer(x, _, _, _, _) => x in scope.transfers
    case CloseHandle(handle) => handle != gone && handle in scope.closed
  }

  ghost predicate AllInScope(edits: seq<Edit>, scope: Scope, gone: nat) {
    forall i :: 0 <= i < |edits| ==> InScope(edits[i], scope, gone)
  }

  // Every transfer there is has a proper deadline, and the head of the list is none of them.
  ghost predicate InWorld(c: Context, transfers: set<Transfer>)
    reads c`items, transfers`deadline
  {
    && c.head !in transfers
    && (forall i :: 0 <= i < |c.items| ==> c.items[i] in transfers)
    && forall x :: x in transfers ==> Normal(x.deadline)
  }

  // The list when the disconnection began, and the handles that its members then had
  datatype Start = Start(was: seq<Transfer>, handles: map<Transfer, nat>)

  // How the list has come about: without what has been added it is the old list without what has left,
  // and only transfers of the handles in `left` have.
  ghost predicate Tracks(c: Context, start: Start, added: set<Transfer>, gone: set<Transfer>, left: set<nat>)
    reads c`items, c.items`handle
  {
    && Without(c.items, added) == Without(start.was, gone)
    && (forall x :: x in start.was ==> x in start.handles)
    && (forall x :: x in c.items && x !in added ==> x in start.handles && x.handle == start.handles[x])
    && (forall x :: x in gone && x in start.was && x in start.handles ==> start.handles[x] in left)
  }

  // --- Sequences of which some members are left out

  lemma {:induction false} WithoutTwice(s: seq<Transfer>, a: set<Transfer>, b: set<Transfer>)
    ensures Without(Without(s, a), b) == Without(s, a + b)
  {
    if s != [] {
      var n := |s| - 1;
      WithoutTwice(s[..n], a, b);
      var w: seq<Transfer> := Without(s[..n], a);
      assert (w + [s[n]])[..|w|] == w;
    }
  }

  lemma {:induction false} WithoutAbsent(s: seq<Transfer>, a: set<Transfer>, b: set<Transfer>)
    requires forall x :: x in s ==> (x in a <==> x in b)
    ensures Without(s, a) == Without(s, b)
    ensures forall status :: Notices(s, a, status) == Notices(s, b, status)
  {
    if s != [] {
      WithoutAbsent(s[..|s| - 1], a, b);
    }
  }

  // Members that get no notice can be left out first.
  lemma {:induction false} NoticesWithout(s: seq<Transfer>, drop: set<Transfer>, who: set<Transfer>, status: Status)
    requires drop !! who
    ensures Notices(Without(s, drop), who, status) == Notices(s, who, status)
  {
    if s != [] {
      var n := |s| - 1;
      NoticesWithout(s[..n], drop, who, status);
      var w: seq<Transfer> := Without(s[..n], drop);
      assert (w + [s[n]])[..|w|] == w;
    }
  }

  lemma WithoutMembers(s: seq<Transfer>, drop: set<Transfer>)
    ensures forall x :: x in Without(s, drop) <==> x in s && x !in drop
  {
    forall x: Transfer
      ensures x in Without(s, drop) <==> x in s && x !in drop
    {
      WithoutCounts(s, drop, x);
      var w: seq<Transfer> := Without(s, drop);
      assert x in w <==> multiset(w)[x] > 0;
      assert x in s <==> multiset(s)[x] > 0;
    }
  }

  // One member that occurs once leaves.
  lemma WithoutOne(s: seq<Transfer>, k: nat)
    requires k < |s| && s[k] !in Remove(s, k)
    ensures Without(s, {s[k]}) == Remove(s, k)
  {
    DropOne(s, k, {s[k]}, NoDevice);
    assert forall i :: 0 <= i < |Remove(s, k)| ==> Remove(s, k)[i] in Remove(s, k);
    NothingToDrop(Remove(s, k), {s[k]}, NoDevice);
  }

  // An inserted member leaves again.
  lemma WithoutInserted(s: seq<Transfer>, k: nat, x: Transfer)
    requires k <= |s| && x !in s
    ensures Without(Insert(s, k, x), {x}) == s
    ensures forall y :: y in Insert(s, k, x) <==> y in s || y == x
  {
    InsertThenRemove(s, k, x);
    WithoutOne(Insert(s, k, x), k);
  }

  lemma InsertTracks(s: seq<Transfer>, k: nat, x: Transfer, added: set<Transfer>,
                     was: seq<Transfer>, gone: set<Transfer>)
    requires k <= |s| && x !in s && Without(s, added) == Without(was, gone)
    ensures Without(Insert(s, k, x), added + {x}) == Without(was, gone)
  {
    WithoutInserted(s, k, x);
    WithoutTwice(Insert(s, k, x), {x}, added);
    assert {x} + added == added + {x};
  }

  lemma DropTracks(s: seq<Transfer>, drop: set<Transfer>, added: set<Transfer>, was: seq<Transfer>, gone: set<Transfer>)
    requires Without(s, added) == Without(was, gone)
    ensures Without(Without(s, drop), added) == Without(was, gone + drop)
  {
    WithoutTwice(s, drop, added);
    WithoutTwice(s, added, drop);
    WithoutTwice(was, gone, drop);
    assert drop + added == added + drop;
  }

  // A member that is dropped although it was added had left the list before.
  lemma ReaddedHadLeft(s: seq<Transfer>, added: set<Transfer>, was: seq<Transfer>, gone: set<Transfer>, x: Transfer)
    requires Without(s, added) == Without(was, gone) && x in was && x !in gone
    ensures x in s && x !in added
  {
    WithoutMembers(s, added);
    WithoutMembers(was, gone);
  }

  // --- What a callback does

  // Whether a transfer is in flight
  method IsFlying(c: Context, x: Transfer) returns (flying: bool)
    requires c.Valid()
    ensures flying <==> x in c.items
  {
    hide Context.Linked;
    var cur := c.head.next;
    ghost var k: nat := 0;
    c.FirstItem();
    while cur != c.head
      invariant k <= |c.items| && cur == c.After(k - 1) && (cur == c.head <==> k == |c.items|)
      invariant forall i :: 0 <= i < k ==> c.items[i] != x
      decreases |c.items| - k
    {
      c.NextItem(k);
      if cur == x {
        return true;
      }
      cur := cur.next;
      k := k + 1;
    }
    flying := false;
  }

  method MakeSubmission(c: Context, x: Transfer, now: Timespec, backendResult: int, osHandles: bool, handle: nat,
                        ghost transfers: set<Transfer>, ghost start: Start,
                        ghost added: set<Transfer>, ghost gone: set<Transfer>, ghost left: set<nat>)
    returns (ghost added': set<Transfer>)
    requires c.Valid() && InWorld(c, transfers) && x in transfers && NormalSpec(now)
    requires x !in c.items && x.handle != handle && Tracks(c, start, added, gone, left)
    modifies c`items, c`submissions, c.head`prev, c.head`next, transfers
    ensures c.Valid() && InWorld(c, transfers) && Tracks(c, start, added', gone, left) && added' <= added + {x}
    ensures c.OfHandle(handle) == old(c.OfHandle(handle))
    ensures Notices(c.items, c.OfHandle(handle), NoDevice) == old(Notices(c.items, c.OfHandle(handle), NoDevice))
  {
    hide Context.Valid, Context.Linked, Without, Notices, Insert, Micros, Nanos, IsSet;
    ghost var items, mine := c.items, c.OfHandle(handle);
    var r, k := c.Submit(x, now, backendResult, osHandles);
    if r == 0 {
      InsertTracks(items, k, x, added, start.was, gone);
      WithoutInserted(items, k, x);
      NoticesWithout(c.items, {x}, mine, NoDevice);
      added' := added + {x};
      assert forall y :: y in c.items <==> y in items || y == x;
      assert forall i :: 0 <= i < |c.items| ==> c.items[i] in c.items;
    } else {
      added' := added;
    }
  }

  method MakeClose(c: Context, closing: nat, handle: nat,
                   ghost transfers: set<Transfer>, ghost start: Start,
                   ghost added: set<Transfer>, ghost gone: set<Transfer>, ghost left: set<nat>)
    returns (ghost gone': set<Transfer>)
    requires c.Valid() && InWorld(c, transfers)
    requires closing != handle && closing in left && Tracks(c, start, added, gone, left)
    modifies c`items, c`submissions, c.head`prev, c.head`next, transfers
    ensures c.Valid() && InWorld(c, transfers) && Tracks(c, start, added, gone', left)
    ensures c.OfHandle(handle) == old(c.OfHandle(handle))
    ensures Notices(c.items, c.OfHandle(handle), NoDevice) == old(Notices(c.items, c.OfHandle(handle), NoDevice))
  {
    hide Context.Valid, Context.Linked, Without, Notices;
    ghost var items, mine, drop := c.items, c.OfHandle(handle), c.OfHandle(closing);
    c.DropTransfers(closing);
    DropTracks(items, drop, added, start.was, gone);
    WithoutMembers(items, drop);
    NoticesWithout(items, drop, mine, NoDevice);
    gone' := gone + drop;
    forall x | x in drop && x in start.was && x !in gone
      ensures start.handles[x] == closing
    {
      ReaddedHadLeft(items, added, start.was, gone, x);
    }
    assert forall i :: 0 <= i < |c.items| ==> c.items[i] in c.items;
  }

  // One edit.  A submission on the handle that has gone or of a transfer in flight is not made, nor is a
  // transfer in flight filled in.
  method MakeEdit(c: Context, e: Edit, handle: nat, ghost scope: Scope, ghost start: Start,
                  ghost added: set<Transfer>, ghost gone: set<Transfer>)
    returns (ghost added': set<Transfer>, ghost gone': set<Transfer>)
    requires c.Valid() && InWorld(c, scope.transfers) && InScope(e, scope, handle) && added <= scope.submitted
    requires Tracks(c, start, added, gone, scope.closed + {handle})
    modifies c`items, c`submissions, c.head`prev, c.head`next, scope.transfers
    ensures c.Valid() && InWorld(c, scope.transfers) && added' <= scope.submitted
    ensures Tracks(c, start, added', gone', scope.closed + {handle})
    ensures c.OfHandle(handle) == old(c.OfHandle(handle))
    ensures Notices(c.items, c.OfHandle(handle), NoDevice) == old(Notices(c.items, c.OfHandle(handle), NoDevice))
  {
    hide Context.Valid, Context.Linked, Without, Notices;
    added', gone' := added, gone;
    match e {
      case SubmitTransfer(x, now, backendResult, osHandles) =>
        var flying := IsFlying(c, x);
        if !flying && x.handle != handle {
          added' := MakeSubmission(c, x, now, backendResult, osHandles, handle, scope.transfers, start, added, gone,
                                   scope.closed + {handle});
        }
      case CancelTransfer(x, backendResult) =>
        var r := c.Cancel(x, backendResult);
      case FillTransfer(x, newHandle, kind, timeout, length) =>
        var flying := IsFlying(c, x);
        if !flying {
          x.handle, x.kind, x.timeout, x.length := newHandle, kind, timeout, length;
        }
      case CloseHandle(closing) =>
        gone' := MakeClose(c, closing, handle, scope.transfers, start, added, gone, scope.closed + {handle});
    }
  }

  // What the callback of one transfer does
  method RunCallback(c: Context, edits: seq<Edit>, handle: nat, ghost scope: Scope, ghost start: Start,
                     ghost added: set<Transfer>, ghost gone: set<Transfer>)
    returns (ghost added': set<Transfer>, ghost gone': set<Transfer>)
    requires c.Valid() && InWorld(c, scope.transfers) && AllInScope(edits, scope, handle) && added <= scope.submitted
    requires Tracks(c, start, added, gone, scope.closed + {handle})
    modifies c`items, c`submissions, c.head`prev, c.head`next, scope.transfers
    ensures c.Valid() && InWorld(c, scope.transfers) && added' <= scope.submitted
    ensures Tracks(c, start, added', gone', scope.closed + {handle})
    ensures c.OfHandle(handle) == old(c.OfHandle(handle))
    ensures Notices(c.items, c.OfHandle(handle), NoDevice) == old(Notices(c.items, c.OfHandle(handle), NoDevice))
  {
    hide Context.Valid, Context.Linked, Without, Notices, Tracks, InWorld, InScope;
    added', gone' := added, gone;
    for i := 0 to |edits|
      invariant c.Valid() && InWorld(c, scope.transfers) && added' <= scope.submitted
      invariant Tracks(c, start, added', gone', scope.closed + {handle})
      invariant c.OfHandle(handle) == old(c.OfHandle(handle))
      invariant Notices(c.items, c.OfHandle(handle), NoDevice) == old(Notices(c.items, c.OfHandle(handle), NoDevice))
    {
      added', gone' := MakeEdit(c, edits[i], handle, scope, start, added', gone');
    }
  }

  // One turn of usbi_handle_disconnect, up to the callback
  method CompleteFirst(c: Context, x: Transfer, handle: nat, ghost k: nat, ghost scope: Scope, ghost start: Start,
                       ghost added: set<Transfer>, ghost gone: set<Transfer>)
    requires c.Valid() && InWorld(c, scope.transfers) && k < |c.items| && c.items[k] == x && x.handle == handle
    requires forall i :: 0 <= i < k ==> c.items[i].handle != handle
    requires Tracks(c, start, added, gone, scope.closed + {handle})
    modifies c`items, c`callbacks, c.head`prev, c.head`next, scope.transfers
    ensures c.Valid() && InWorld(c, scope.transfers)
    ensures Tracks(c, start, added, gone + {x}, scope.closed + {handle})
    ensures c.OfHandle(handle) == old(c.OfHandle(handle)) - {x}
    ensures c.callbacks + Notices(c.items, c.OfHandle(handle), NoDevice) ==
            old(c.callbacks + Notices(c.items, c.OfHandle(handle), NoDevice))
  {
    hide Context.Valid, Context.Linked, Without, Notices;
    ghost var items, mine := c.items, c.OfHandle(handle);
    DropOne(items, k, mine, NoDevice);
    RemoveMembers(items, k);
    c.Complete(x, NoDevice, k);
    WithoutOne(items, k);
    DropTracks(items, {x}, added, start.was, gone);
    WithoutAbsent(c.items, mine, mine - {x});
    if x in start.was && x !in gone {
      ReaddedHadLeft(items, added, start.was, gone, x);
    }
    assert forall i :: 0 <= i < |c.items| ==> c.items[i] in c.items;
  }

  // One whole turn of its loop: the completion and the callback
  method CompleteOne(c: Context, x: Transfer, handle: nat, plan: map<Transfer, seq<Edit>>, ghost k: nat,
                     ghost scope: Scope, ghost start: Start, ghost added: set<Transfer>, ghost gone: set<Transfer>)
    returns (ghost added': set<Transfer>, ghost gone': set<Transfer>)
    requires c.Valid() && InWorld(c, scope.transfers) && added <= scope.submitted
    requires k < |c.items| && c.items[k] == x && x.handle == handle
    requires forall i :: 0 <= i < k ==> c.items[i].handle != handle
    requires forall x :: x in plan ==> AllInScope(plan[x], scope, handle)
    requires Tracks(c, start, added, gone, scope.closed + {handle})
    modifies c`items, c`callbacks, c`submissions, c.head`prev, c.head`next, scope.transfers
    ensures c.Valid() && InWorld(c, scope.transfers) && added' <= scope.submitted
    ensures Tracks(c, start, added', gone', scope.closed + {handle})
    ensures c.OfHandle(handle) == old(c.OfHandle(handle)) - {x}
    ensures c.callbacks + Notices(c.items, c.OfHandle(handle), NoDevice) ==
            old(c.callbacks + Notices(c.items, c.OfHandle(handle), NoDevice))
  {
    hide Context.Valid, Context.Linked, Without, Notices, InWorld, InScope, Tracks;
    CompleteFirst(c, x, handle, k, scope, start, added, gone);
    added', gone' := added, gone + {x};
    if x in plan {
      added', gone' := RunCallback(c, plan[x], handle, scope, start, added', gone');
    }
  }

  // The loop of usbi_handle_disconnect
  method CompleteAll(c: Context, handle: nat, plan: map<Transfer, seq<Edit>>, ghost scope: Scope, ghost start: Start)
    returns (ghost added: set<Transfer>, ghost gone: set<Transfer>)
    requires c.Valid() && InWorld(c, scope.transfers) && Tracks(c, start, {}, {}, scope.closed + {handle})
    requires forall x :: x in plan ==> AllInScope(plan[x], scope, handle)
    modifies c`items, c`callbacks, c`submissions, c.head`prev, c.head`next, scope.transfers
    ensures c.Valid() && InWorld(c, scope.transfers) && added <= scope.submitted
    ensures Tracks(c, start, added, gone, scope.closed + {handle})
    ensures c.callbacks == old(c.callbacks + Notices(c.items, c.OfHandle(handle), NoDevice))
    ensures c.OfHandle(handle) == {} && forall x :: x in c.items ==> x.handle != handle
  {
    hide Context.Valid, Context.Linked, Without, Notices, InWorld, InScope, Tracks;
    added, gone := {}, {};
    var found, x;
    ghost var k: nat;
    found, x, k := c.FindFirst(handle);
    while found
      invariant c.Valid() && InWorld(c, scope.transfers) && added <= scope.submitted
      invariant Tracks(c, start, added, gone, scope.closed + {handle})
      invariant found ==> k < |c.items| && c.items[k] == x && x.handle == handle
      invariant found ==> forall i :: 0 <= i < k ==> c.items[i].handle != handle
      invariant !found ==> forall y :: y in c.items ==> y.handle != handle
      invariant c.callbacks + Notices(c.items, c.OfHandle(handle), NoDevice) ==
                old(c.callbacks + Notices(c.items, c.OfHandle(handle), NoDevice))
      decreases |c.OfHandle(handle)|
    {
      assert x in c.OfHandle(handle);
      added, gone := CompleteOne(c, x, handle, plan, k, scope, start, added, gone);
      found, x, k := c.FindFirst(handle);
    }
    assert c.OfHandle(handle) == {};
    NoNotices(c.items);
  }

  // usbi_handle_disconnect, where the callback of x makes the edits plan[x].  The loop ends; each
  // transfer of the handle is called back exactly once with NO_DEVICE, in list order, and none is left.
  // A transfer stays unless its handle was closed, and those that stay keep their order among whatever
  // has been submitted meanwhile.
  method HandleDisconnect(c: Context, handle: nat, plan: map<Transfer, seq<Edit>>, ghost scope: Scope)
    requires c.Valid() && InWorld(c, scope.transfers)
    requires forall x :: x in plan ==> AllInScope(plan[x], scope, handle)
    modifies c`items, c`callbacks, c`submissions, c.head`prev, c.head`next, scope.transfers
    ensures c.Valid()
    ensures c.callbacks == old(c.callbacks) + Notices(old(c.items), old(c.OfHandle(handle)), NoDevice)
    ensures c.OfHandle(handle) == {}
    ensures forall x :: x in old(c.items) && old(x.handle) != handle && old(x.handle) !in scope.closed ==> x in c.items
    ensures forall x :: x in c.items && x !in scope.submitted ==>
              x in old(c.items) && x.handle == old(x.handle) && x.handle != handle
    ensures forall a, b :: a in c.items && b in c.items && a !in scope.submitted && b !in scope.submitted ==>
              (Precedes(c.items, a, b) <==> Precedes(old(c.items), a, b))
  {
    hide Context.Valid, Context.Linked, Without, Notices, InWorld, InScope, Tracks, Precedes;
    ghost var start := Start(c.items, map x | x in c.items :: x.handle);
    TracksAtStart(c, scope.closed + {handle});
    ghost var added, gone := CompleteAll(c, handle, plan, scope, start);
    Survivors(c, start, added, gone, scope.closed + {handle});
  }

  lemma TracksAtStart(c: Context, left: set<nat>)
    ensures Tracks(c, Start(c.items, map x | x in c.items :: x.handle), {}, {}, left)
  {
  }

  lemma {:induction false} NoNotices(s: seq<Transfer>)
    ensures Notices(s, {}, NoDevice) == []
  {
    NothingToDrop(s, {}, NoDevice);
  }

  // What Tracks says about single transfers and about pairs of them
  lemma Survivors(c: Context, start: Start, added: set<Transfer>, gone: set<Transfer>, left: set<nat>)
    requires Tracks(c, start, added, gone, left)
    ensures forall x :: x in start.was && start.handles[x] !in left ==> x in c.items
    ensures forall x :: x in c.items && x !in added ==> x in start.was && x.handle == start.handles[x]
    ensures forall a, b :: a in c.items && b in c.items && a !in added && b !in added ==>
              (Precedes(c.items, a, b) <==> Precedes(start.was, a, b))
  {
    WithoutMembers(c.items, added);
    WithoutMembers(start.was, gone);
    forall a, b | a in c.items && b in c.items && a !in added && b !in added
      ensures Precedes(c.items, a, b) <==> Precedes(start.was, a, b)
    {
      assert a in Without(c.items, added) && b in Without(c.items, added);
      WithoutKeepsOrder(c.items, added, a, b);
      WithoutKeepsOrder(start.was, gone, a, b);
    }
  }
}
