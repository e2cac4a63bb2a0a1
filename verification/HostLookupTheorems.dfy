// What holds of the table of shared lookups in every reachable state.
module HostLookupTheorems {
  import opened Options
  import opened Sequences
  import opened HostLookup

  // The master looks up the name, or is completing with a reply for it.
  ghost predicate Serves(s: State, m: nat, n: Name) {
    (m in s.running && s.running[m] == n) || (m in s.replied && s.replied[m].name == n)
  }

  // A list: a master that serves the name first, then at least one waiting host, none of them twice
  ghost predicate GoodList(s: State, n: Name, list: seq<Entry>) {
    && |list| >= 2 && NoDuplicates(list)
    && list[0].Master? && Serves(s, list[0].id, n)
    && forall x :: x in list && x != list[0] ==> GoodClient(s, n, x)
  }

  ghost predicate GoodClient(s: State, n: Name, x: Entry) {
    x.Client? && x.host in s.hosts && s.hosts[x.host].name == n && s.hosts[x.host].lookup == Waiting(x.source)
  }

  ghost predicate TableOk(s: State) {
    forall n :: n in s.table ==> GoodList(s, n, s.table[n])
  }

  // A master runs only for a name in the table, at the head of its list.
  ghost predicate RunningOk(s: State) {
    forall m :: m in s.running ==> s.running[m] in s.table && [Master(m)] <= s.table[s.running[m]]
  }

  // A master is running, completing or answering.
  ghost predicate MastersOk(s: State) {
    && (forall m :: m in s.running ==> m < s.next && m !in s.replied && m !in s.answering)
    && (forall m :: m in s.replied ==> m < s.next && m !in s.answering)
    && (forall m :: m in s.answering ==> m < s.next)
  }

  ghost predicate SourcesOk(s: State) {
    forall h :: h in s.hosts && s.hosts[h].lookup != NoLookup ==>
      && s.hosts[h].lookup.source < s.next && s.hosts[h].typed
      && (s.hosts[h].lookup.Waiting? ==> s.hosts[h].err == NoError)
  }

  ghost predicate InTable(s: State, x: Entry) {
    exists n :: n in s.table && x in s.table[n]
  }

  ghost predicate InBatch(s: State, x: Entry) {
    exists m :: m in s.answering && x in s.answering[m].left
  }

  // A host that waits stands in the list for its name, or is about to be answered.
  ghost predicate InOwnList(s: State, h: HostId)
    requires h in s.hosts && s.hosts[h].lookup.Waiting?
  {
    s.hosts[h].name in s.table && Client(h, s.hosts[h].lookup.source) in s.table[s.hosts[h].name]
  }

  ghost predicate WaitersOk(s: State) {
    forall h :: h in s.hosts && s.hosts[h].lookup.Waiting? ==>
      InOwnList(s, h) || InBatch(s, Client(h, s.hosts[h].lookup.source))
  }

  // The clients that a completion still has to answer are not in the table any more.
  ghost predicate GoodBatch(s: State, left: seq<Entry>) {
    && left != []
    && forall x :: x in left ==> x.Client? && x.host in s.hosts && x.source < s.next && !InTable(s, x)
  }

  // Every master answers the clients of its own list.
  ghost predicate BatchesOk(s: State) {
    forall m :: m in s.answering ==> s.answering[m].head == Master(m) && GoodBatch(s, s.answering[m].left)
  }

  ghost predicate Inv(s: State) {
    TableOk(s) && RunningOk(s) && MastersOk(s) && SourcesOk(s) && WaitersOk(s) && BatchesOk(s)
  }

  // --- What is untouched stays good

  // The lists of all names but n stay good when nobody that waits for such a name is touched.
  lemma OtherListsStay(s: State, t: State, n: Name)
    requires TableOk(s)
    requires forall n' :: n' in t.table && n' != n ==> n' in s.table && t.table[n'] == s.table[n']
    requires forall m, n' :: n' != n && Serves(s, m, n') ==> Serves(t, m, n')
    requires forall h :: h in s.hosts && s.hosts[h].lookup.Waiting? && s.hosts[h].name != n ==>
               h in t.hosts && t.hosts[h].name == s.hosts[h].name && t.hosts[h].lookup == s.hosts[h].lookup
    ensures forall n' :: n' in t.table && n' != n ==> GoodList(t, n', t.table[n'])
  {
    forall n' | n' in t.table && n' != n
      ensures GoodList(t, n', t.table[n'])
    {
      var list := s.table[n'];
      assert GoodList(s, n', list);
      forall x | x in list && x != list[0]
        ensures GoodClient(t, n', x)
      {
        assert GoodClient(s, n', x);
      }
    }
  }

  lemma BatchesStay(s: State, t: State)
    requires BatchesOk(s) && t.answering == s.answering && s.hosts.Keys <= t.hosts.Keys && s.next <= t.next
    requires forall n, x :: n in t.table && x in t.table[n] ==> InTable(s, x) || x.Master? || x.source >= s.next
    ensures BatchesOk(t)
  {
    forall m | m in t.answering
      ensures GoodBatch(t, t.answering[m].left)
    {
      assert GoodBatch(s, s.answering[m].left);
    }
  }

  lemma WaitersStay(s: State, t: State)
    requires WaitersOk(s) && t.answering == s.answering
    requires forall h :: h in t.hosts && t.hosts[h].lookup.Waiting? && !InOwnList(t, h) ==>
               h in s.hosts && s.hosts[h].lookup == t.hosts[h].lookup && !InOwnList(s, h)
    ensures WaitersOk(t)
  {
    forall h | h in t.hosts && t.hosts[h].lookup.Waiting? && !InOwnList(t, h)
      ensures InBatch(t, Client(h, t.hosts[h].lookup.source))
    {
      assert InBatch(s, Client(h, s.hosts[h].lookup.source));
    }
  }

  lemma SourcesStay(s: State, t: State, h: HostId)
    requires SourcesOk(s) && s.next <= t.next && h in t.hosts && t.hosts == s.hosts[h := t.hosts[h]]
    requires t.hosts[h].lookup != NoLookup ==> t.hosts[h].lookup.source < t.next && t.hosts[h].typed
    requires t.hosts[h].lookup.Waiting? ==> t.hosts[h].err == NoError
    ensures SourcesOk(t)
  {
  }

  // Running masters stay at the head of their lists as long as these do.
  lemma RunningStays(s: State, t: State)
    requires RunningOk(s) && t.table == s.table && t.running == s.running
    ensures RunningOk(t)
  {
  }

  lemma MastersStay(s: State, t: State)
    requires MastersOk(s) && t.running == s.running && t.replied == s.replied && t.answering == s.answering
    requires s.next <= t.next
    ensures MastersOk(t)
  {
  }

  // --- Starting

  lemma JoinedList(s: State, h: HostId)
    requires TableOk(s) && SourcesOk(s) && h in s.hosts && s.hosts[h].lookup == NoLookup && s.hosts[h].name in s.table
    ensures var n, t := s.hosts[h].name, Join(s, h, s.hosts[h]);
            && GoodList(t, n, t.table[n]) && s.table[n] <= t.table[n]
            && forall x :: x in t.table[n] <==> x in s.table[n] || x == Client(h, s.next)
  {
    var n, me := s.hosts[h].name, Client(h, s.next);
    var was := s.table[n];
    var t, list := Join(s, h, s.hosts[h]), was + [me];
    assert GoodList(s, n, was);
    assert me !in was;
    assert list[|was|] == me && forall i :: 0 <= i < |was| ==> list[i] == was[i] && was[i] in was;
    assert NoDuplicates(list);
    forall x | x in list && x != list[0]
      ensures GoodClient(t, n, x)
    {
      assert x == me || (x in was && GoodClient(s, n, x));
    }
  }

  lemma ServesAlike(s: State, t: State)
    requires s.running == t.running && s.replied == t.replied
    ensures forall m, n :: Serves(s, m, n) <==> Serves(t, m, n)
  {
  }

  lemma JoinKeepsTable(s: State, h: HostId)
    requires TableOk(s) && SourcesOk(s) && h in s.hosts && s.hosts[h].lookup == NoLookup && s.hosts[h].name in s.table
    ensures TableOk(Join(s, h, s.hosts[h])) && s.table[s.hosts[h].name] <= Join(s, h, s.hosts[h]).table[s.hosts[h].name]
  {
    hide GoodList, Serves;
    var t := Join(s, h, s.hosts[h]);
    ServesAlike(s, t);
    JoinedList(s, h);
    OtherListsStay(s, t, s.hosts[h].name);
  }

  lemma JoinKeepsMasters(s: State, h: HostId)
    requires RunningOk(s) && MastersOk(s) && h in s.hosts && s.hosts[h].name in s.table
    ensures RunningOk(Join(s, h, s.hosts[h])) && MastersOk(Join(s, h, s.hosts[h]))
  {
    assert s.table[s.hosts[h].name] <= Join(s, h, s.hosts[h]).table[s.hosts[h].name];
  }

  lemma JoinKeepsInv(s: State, h: HostId)
    requires Inv(s) && h in s.hosts && s.hosts[h].lookup == NoLookup && s.hosts[h].name in s.table
    ensures Inv(Join(s, h, s.hosts[h]))
  {
    hide TableOk, RunningOk, MastersOk, WaitersOk, BatchesOk;
    var t := Join(s, h, s.hosts[h]);
    JoinKeepsTable(s, h);
    JoinKeepsMasters(s, h);
    BatchesStay(s, t);
    WaitersStay(s, t);
  }

  // A new list with its first client; whether the master runs or has replied, it serves the name.
  lemma FirstJoinOutcome(s: State, h: HostId, early: Option<(Err, seq<string>)>)
    requires MastersOk(s) && h in s.hosts && s.hosts[h].name !in s.table
    ensures var n, t := s.hosts[h].name, Join(NewList(s, s.hosts[h].name, early), h, s.hosts[h]);
            && t.table == s.table[n := [Master(s.next), Client(h, s.next + 1)]]
            && t.hosts == s.hosts[h := t.hosts[h]] && t.hosts[h].lookup == Waiting(s.next + 1)
            && t.hosts[h].typed && t.hosts[h].err == NoError && t.hosts[h].name == n
            && t.answering == s.answering && t.next == s.next + 2
            && t.running == (if early.Some? then s.running else s.running[s.next := n])
            && Serves(t, s.next, n)
  {
    var t := NewList(s, s.hosts[h].name, early);
    assert t.running == if early.Some? then s.running else s.running[s.next := s.hosts[h].name];
    assert [Master(s.next)] + [Client(h, s.next + 1)] == [Master(s.next), Client(h, s.next + 1)];
  }

  lemma FirstJoinKeepsMasters(s: State, h: HostId, early: Option<(Err, seq<string>)>)
    requires MastersOk(s) && h in s.hosts && s.hosts[h].name !in s.table
    ensures var t := Join(NewList(s, s.hosts[h].name, early), h, s.hosts[h]);
            MastersOk(t) && forall m, n :: Serves(s, m, n) ==> Serves(t, m, n)
  {
  }

  lemma FirstJoinKeepsTable(s: State, h: HostId, early: Option<(Err, seq<string>)>)
    requires TableOk(s) && RunningOk(s) && MastersOk(s)
    requires h in s.hosts && s.hosts[h].lookup == NoLookup && s.hosts[h].name !in s.table
    ensures var t := Join(NewList(s, s.hosts[h].name, early), h, s.hosts[h]);
            TableOk(t) && RunningOk(t)
  {
    hide GoodList, MastersOk, NewList, Join, Serves;
    var n := s.hosts[h].name;
    var t := Join(NewList(s, n, early), h, s.hosts[h]);
    FirstJoinOutcome(s, h, early);
    FirstJoinKeepsMasters(s, h, early);
    ListOfTwo(t, n, s.next, h);
    OtherListsStay(s, t, n);
  }

  lemma FirstJoinKeepsInv(s: State, h: HostId, early: Option<(Err, seq<string>)>)
    requires Inv(s) && h in s.hosts && s.hosts[h].lookup == NoLookup && s.hosts[h].name !in s.table
    ensures Inv(Join(NewList(s, s.hosts[h].name, early), h, s.hosts[h]))
  {
    hide TableOk, RunningOk, MastersOk, SourcesOk, WaitersOk, BatchesOk, NewList, Join, Serves;
    var t := Join(NewList(s, s.hosts[h].name, early), h, s.hosts[h]);
    FirstJoinOutcome(s, h, early);
    FirstJoinKeepsMasters(s, h, early);
    FirstJoinKeepsTable(s, h, early);
    SourcesStay(s, t, h);
    BatchesStay(s, t);
    WaitersStay(s, t);
  }

  lemma ListOfTwo(t: State, n: Name, m: nat, h: HostId)
    requires Serves(t, m, n)
    requires h in t.hosts && t.hosts[h].name == n && t.hosts[h].lookup.Waiting?
    ensures GoodList(t, n, [Master(m), Client(h, t.hosts[h].lookup.source)])
  {
  }

  // A reply of the master with the next number
  ghost function WithReply(s: State, reply: Option<Reply>): State {
    if reply.Some? then s.(next := s.next + 1, replied := s.replied[s.next := reply.value])
    else s.(next := s.next + 1)
  }

  lemma WithReplyKeepsInv(s: State, reply: Option<Reply>)
    requires Inv(s)
    ensures Inv(WithReply(s, reply))
  {
    hide GoodList, GoodBatch, WaitersOk, BatchesOk;
    var t := WithReply(s, reply);
    TableStays(s, t);
    BatchesStay(s, t);
    WaitersStay(s, t);
  }

  lemma ErrorKeepsInv(s: State, h: HostId, err: Err)
    requires Inv(s) && h in s.hosts && s.hosts[h].lookup == NoLookup
    ensures Inv(SetHost(s, h, s.hosts[h].(err := err)))
  {
    hide TableOk, RunningOk, MastersOk, WaitersOk, BatchesOk, Serves;
    var t := SetHost(s, h, s.hosts[h].(err := err));
    ServesAlike(s, t);
    RunningStays(s, t);
    MastersStay(s, t);
    TableStays(s, t);
    BatchesStay(s, t);
    WaitersStay(s, t);
  }

  lemma TableStays(s: State, t: State)
    requires TableOk(s) && t.table == s.table && forall m, n :: Serves(s, m, n) ==> Serves(t, m, n)
    requires forall h :: h in s.hosts && s.hosts[h].lookup.Waiting? && InOwnList(s, h) ==>
               h in t.hosts && t.hosts[h].name == s.hosts[h].name && t.hosts[h].lookup == s.hosts[h].lookup
    ensures TableOk(t)
  {
    forall n | n in t.table
      ensures GoodList(t, n, t.table[n])
    {
      var list := s.table[n];
      assert GoodList(s, n, list);
      forall x | x in list && x != list[0]
        ensures GoodClient(t, n, x)
      {
        assert GoodClient(s, n, x) && InOwnList(s, x.host);
      }
    }
  }

  // A new list that finds no client goes away again; what stays is a reply of its master that came early.
  lemma RetiredList(s: State, n: Name, early: Option<(Err, seq<string>)>)
    requires MastersOk(s) && n !in s.table
    ensures Retire(NewList(s, n, early), n, Master(s.next)) ==
            WithReply(s, if early.Some? then Some(Reply(n, early.value.0, early.value.1)) else None)
  {
    var t := Retire(NewList(s, n, early), n, Master(s.next));
    assert t.table == s.table && t.running == s.running;
  }

  // A start that fails leaves nothing but the host's error, and perhaps such a reply.
  lemma FailureKeepsInv(s: State, h: HostId, listCreated: bool, startErr: Err,
                        early: Option<(Err, seq<string>)>, sourceCreated: bool)
    requires Inv(s) && h in s.hosts && s.hosts[h].lookup == NoLookup
    requires sourceCreated ==> s.hosts[h].name !in s.table && (!listCreated || startErr != NoError)
    ensures Inv(OnStart(s, h, listCreated, true, startErr, early, sourceCreated))
  {
    hide Inv, Retire, NewList, WithReply;
    var n := s.hosts[h].name;
    ErrorKeepsInv(s, h, NoMemory);
    if n in s.table {
      NoListOfOne(s, n);
    } else if listCreated && startErr != NoError {
      NextKeepsInv(s);
      ErrorKeepsInv(s.(next := s.next + 1), h, startErr);
    } else if listCreated {
      var reply := if early.Some? then Some(Reply(n, early.value.0, early.value.1)) else None;
      MastersAreOk(s);
      RetiredList(s, n, early);
      WithReplyKeepsInv(s, reply);
      WithReplyKeepsHosts(s, reply);
      ErrorKeepsInv(WithReply(s, reply), h, NoMemory);
    }
  }

  lemma NoListOfOne(s: State, n: Name)
    requires Inv(s) && n in s.table
    ensures |s.table[n]| >= 2
  {
    assert GoodList(s, n, s.table[n]);
  }

  lemma MastersAreOk(s: State)
    requires Inv(s)
    ensures MastersOk(s)
  {
  }

  lemma NextKeepsInv(s: State)
    requires Inv(s)
    ensures Inv(s.(next := s.next + 1))
  {
    hide Inv;
    WithReplyKeepsInv(s, None);
  }

  lemma WithReplyKeepsHosts(s: State, reply: Option<Reply>)
    ensures WithReply(s, reply).hosts == s.hosts
  {
  }

  // A resolution that starts keeps everything together unless the master of a new list cannot be
  // created: then, and only then, an empty list stays in the table.
  lemma StartKeepsInv(s: State, h: HostId, listCreated: bool, masterCreated: bool, startErr: Err,
                      early: Option<(Err, seq<string>)>, sourceCreated: bool)
    requires Inv(s) && h in s.hosts
    ensures var t := OnStart(s, h, listCreated, masterCreated, startErr, early, sourceCreated);
            var n := s.hosts[h].name;
            && (Inv(t) <==> !(s.hosts[h].lookup == NoLookup && n !in s.table && listCreated && !masterCreated))
            && (!Inv(t) ==> t.table == s.table[n := []])
  {
    hide Inv, NewList, Retire, Join;
    var host := s.hosts[h];
    if host.lookup == NoLookup {
      if host.name !in s.table && listCreated && !masterCreated {
        EmptyListBreaks(OnStart(s, h, true, false, startErr, early, sourceCreated), host.name);
      } else if host.name in s.table && sourceCreated {
        JoinKeepsInv(s, h);
      } else if host.name !in s.table && listCreated && startErr == NoError && sourceCreated {
        FirstJoinKeepsInv(s, h, early);
      } else {
        FailureKeepsInv(s, h, listCreated, startErr, early, sourceCreated);
      }
    }
  }

  lemma EmptyListBreaks(s: State, n: Name)
    requires n in s.table && s.table[n] == []
    ensures !Inv(s)
  {
    assert !GoodList(s, n, s.table[n]);
  }

  // --- Leaving

  lemma ListWithout(list: seq<Entry>, me: Entry)
    requires |list| >= 2 && NoDuplicates(list) && me in list && me != list[0]
    ensures var less := Drop(list, me);
            && |less| == |list| - 1 && [list[0]] <= less && NoDuplicates(less) && me !in less
            && forall x :: x in less <==> x in list && x != me
  {
    assert Drop(list, me) == [list[0]] + Drop(list[1..], me);
    DropKeepsOthers(list, me);
    DropKeepsDistinct(list, me);
    DropLength(list, me);
  }

  // A waiting host that leaves takes just its own source out of its list; if it was the last to wait for its
  // name, the master and the entry are gone with it.  Nothing else changes.
  lemma WaiterLeaves(s: State, h: HostId)
    requires TableOk(s) && h in s.hosts && s.hosts[h].lookup.Waiting? && InOwnList(s, h)
    ensures var n := s.hosts[h].name;
            var list, me := s.table[n], Client(h, s.hosts[h].lookup.source);
            && |list| >= 2 && list[0].Master? && me in list
            && Leave(s, h) == if |list| == 2
                 then s.(table := s.table - {n}, running := s.running - {list[0].id})
                 else s.(table := s.table[n := Drop(list, me)])
  {
    hide NoDuplicates, Drop;
    var n := s.hosts[h].name;
    var list, me := s.table[n], Client(h, s.hosts[h].lookup.source);
    assert GoodList(s, n, list);
    ListWithout(list, me);
  }

  lemma ShorterList(s: State, t: State, h: HostId)
    requires TableOk(s) && h in s.hosts && s.hosts[h].lookup.Waiting? && InOwnList(s, h)
    requires forall m, n :: Serves(s, m, n) ==> Serves(t, m, n)
    requires h in t.hosts && t.hosts - {h} == s.hosts - {h}
    ensures var n := s.hosts[h].name;
            var list, me := s.table[n], Client(h, s.hosts[h].lookup.source);
            && (|list| > 2 ==> GoodList(t, n, Drop(list, me)) && [list[0]] <= Drop(list, me))
            && (forall x :: x in Drop(list, me) <==> x in list && x != me)
            && (forall x :: x in list ==> x == list[0] || x == me || (x.Client? && x.host != h))
            && (|list| == 2 ==> forall x :: x in list ==> x == list[0] || x == me)
  {
    hide Drop;
    var n := s.hosts[h].name;
    var list, me := s.table[n], Client(h, s.hosts[h].lookup.source);
    assert GoodList(s, n, list);
    ListWithout(list, me);
    assert forall h' :: h' in s.hosts && h' != h ==> h' in (s.hosts - {h}) && s.hosts[h'] == (s.hosts - {h})[h'];
    assert forall h' :: h' in t.hosts && h' != h ==> h' in (t.hosts - {h}) && t.hosts[h'] == (t.hosts - {h})[h'];
    forall x | x in list && x != list[0] && x != me
      ensures GoodClient(t, n, x) && x.host != h
    {
      assert GoodClient(s, n, x);
    }
  }

  lemma OwnLeaveKeepsTable(s: State, h: HostId, host: Host, next: nat)
    requires TableOk(s) && RunningOk(s) && MastersOk(s) && h in s.hosts && host.name == s.hosts[h].name
    requires s.hosts[h].lookup.Waiting? && InOwnList(s, h)
    ensures var t := SetHost(Leave(s, h).(next := next), h, host);
            TableOk(t) && RunningOk(t)
  {
    hide GoodList, Leave, Drop, Serves, MastersOk;
    var n, t := host.name, SetHost(Leave(s, h).(next := next), h, host);
    var list, me := s.table[n], Client(h, s.hosts[h].lookup.source);
    WaiterLeaves(s, h);
    FirstIsMaster(s, n);
    LeaverServes(s, t, n);
    if |list| > 2 {
      ServesAlike(s, t);
      ShorterList(s, t, h);
    }
    OtherListsStay(s, t, n);
  }

  // Retiring the master of one name leaves those of the others.
  lemma LeaverServes(s: State, t: State, n: Name)
    requires TableOk(s) && MastersOk(s) && n in s.table && |s.table[n]| >= 2 && s.table[n][0].Master?
    requires t.replied == s.replied && (t.running == s.running || t.running == s.running - {s.table[n][0].id})
    ensures forall m, n' :: n' != n && Serves(s, m, n') ==> Serves(t, m, n')
  {
    assert GoodList(s, n, s.table[n]);
  }

  lemma OwnLeaveKeepsMasters(s: State, h: HostId, host: Host, next: nat)
    requires MastersOk(s) && h in s.hosts && next >= s.next
    ensures MastersOk(SetHost(Leave(s, h).(next := next), h, host))
  {
    hide MastersOk, Leave;
    LeaveKeepsOthers(s, h);
    FewerMasters(s, SetHost(Leave(s, h).(next := next), h, host));
  }

  lemma LeaveKeepsOthers(s: State, h: HostId)
    requires h in s.hosts
    ensures var t := Leave(s, h);
            && t == s.(table := t.table, running := t.running)
            && forall m :: m in t.running ==> m in s.running
  {
    hide Drop;
  }

  lemma FewerMasters(s: State, t: State)
    requires MastersOk(s) && t.replied == s.replied && t.answering == s.answering && t.next >= s.next
    requires forall m :: m in t.running ==> m in s.running
    ensures MastersOk(t)
  {
  }

  lemma OwnLeaveKeepsInv(s: State, h: HostId, host: Host, next: nat)
    requires Inv(s) && h in s.hosts && host.name == s.hosts[h].name && !host.lookup.Waiting?
    requires next >= s.next && (host.lookup != NoLookup ==> host.lookup.source < next && host.typed)
    requires s.hosts[h].lookup.Waiting? && InOwnList(s, h)
    ensures Inv(SetHost(Leave(s, h).(next := next), h, host))
  {
    hide TableOk, RunningOk, MastersOk, SourcesOk, WaitersOk, BatchesOk, Leave, Drop, Serves, GoodList;
    var t := SetHost(Leave(s, h).(next := next), h, host);
    OwnLeaveKeepsMasters(s, h, host, next);
    OwnLeaveKeepsTable(s, h, host, next);
    WaiterLeaves(s, h);
    ServesAlike(s, s.(hosts := t.hosts));
    ShorterList(s, s.(hosts := t.hosts), h);
    SourcesStay(s, t, h);
    BatchesStay(s, t);
    WaitersStay(s, t);
  }

  lemma FirstIsMaster(s: State, n: Name)
    requires TableOk(s) && RunningOk(s) && n in s.table
    ensures |s.table[n]| >= 2 && s.table[n][0].Master? && Serves(s, s.table[n][0].id, n)
    ensures forall m :: m in s.running && s.running[m] == n ==> s.table[n][0] == Master(m)
  {
    assert GoodList(s, n, s.table[n]);
  }

  lemma CancelKeepsInv(s: State, h: HostId, sourceCreated: bool)
    requires Inv(s) && h in s.hosts
    ensures Inv(OnCancel(s, h, sourceCreated))
  {
    hide TableOk, RunningOk, MastersOk, WaitersOk, BatchesOk, Leave;
    var host := s.hosts[h];
    if host.lookup != NoLookup {
      LeaveKeepsInv(s, h, host.(lookup := if sourceCreated then Cancelling(s.next) else NoLookup), s.next + 1);
    }
  }

  lemma RemovalKeepsInv(s: State, h: HostId)
    requires Inv(s) && h in s.hosts
    ensures Inv(OnRemoveClient(s, h))
  {
    LeaveKeepsInv(s, h, OnRemoveClient(s, h).hosts[h], s.next);
    assert Leave(s, h).next == s.next;
  }

  // Whoever is not in the list for its name changes nothing there.
  lemma OthersDoNotLeave(s: State, h: HostId)
    requires TableOk(s) && h in s.hosts && !(s.hosts[h].lookup.Waiting? && InOwnList(s, h))
    ensures Leave(s, h) == s
  {
    var host := s.hosts[h];
    if host.name in s.table && host.lookup != NoLookup {
      assert GoodList(s, host.name, s.table[host.name]);
    }
  }

  // A host outside the lists may change its lookup, unless to waiting.
  lemma HostKeepsInv(s: State, h: HostId, host: Host, next: nat)
    requires Inv(s) && h in s.hosts && host.name == s.hosts[h].name && !host.lookup.Waiting?
    requires next >= s.next && (host.lookup != NoLookup ==> host.lookup.source < next && host.typed)
    requires !(s.hosts[h].lookup.Waiting? && InOwnList(s, h))
    ensures Inv(SetHost(s.(next := next), h, host))
  {
    hide TableOk, RunningOk, MastersOk, SourcesOk, WaitersOk, BatchesOk, Serves;
    var t := SetHost(s.(next := next), h, host);
    ServesAlike(s, t);
    RunningStays(s, t);
    MastersStay(s, t);
    SourcesStay(s, t, h);
    TableStays(s, t);
    BatchesStay(s, t);
    WaitersStay(s, t);
  }

  lemma LeaveKeepsInv(s: State, h: HostId, host: Host, next: nat)
    requires Inv(s) && h in s.hosts && host.name == s.hosts[h].name && !host.lookup.Waiting?
    requires next >= s.next && (host.lookup != NoLookup ==> host.lookup.source < next && host.typed)
    ensures Inv(SetHost(Leave(s, h).(next := next), h, host))
  {
    hide Leave;
    if s.hosts[h].lookup.Waiting? && InOwnList(s, h) {
      OwnLeaveKeepsInv(s, h, host, next);
    } else {
      OthersDoNotLeave(s, h);
      HostKeepsInv(s, h, host, next);
    }
  }

  // --- Calls of sources

  // What is under way besides completions plays no part in the invariant.
  lemma CallsKeepInv(s: State, performing: set<(HostId, nat)>, cancelling: set<(HostId, nat)>, nulls: nat)
    requires Inv(s)
    ensures Inv(s.(performing := performing, cancelling := cancelling, nulls := nulls))
  {
    hide GoodList, GoodBatch, WaitersOk, BatchesOk;
    var t := s.(performing := performing, cancelling := cancelling, nulls := nulls);
    TableStays(s, t);
    BatchesStay(s, t);
    WaitersStay(s, t);
  }

  // The host stands in the list of a name: it waits for a master that has not taken the list yet.
  ghost predicate IsListed(s: State, h: HostId) {
    h in s.hosts && s.hosts[h].lookup.Waiting? && InOwnList(s, h)
  }

  // A host that loses its lookup to a call that came late, while it stands in a list, breaks the list.
  lemma LateCallBreaks(s: State, t: State, h: HostId)
    requires TableOk(s) && IsListed(s, h)
    requires t.table == s.table && h in t.hosts && !t.hosts[h].lookup.Waiting?
    ensures !Inv(t)
  {
    var n, me := s.hosts[h].name, Client(h, s.hosts[h].lookup.source);
    assert GoodList(s, n, s.table[n]);
    assert me in t.table[n] && me != t.table[n][0] && !GoodClient(t, n, me);
    assert !GoodList(t, n, t.table[n]);
  }

  lemma PerformKeepsInv(s: State, h: HostId, source: nat)
    requires Inv(s) && h in s.hosts
    ensures Inv(OnPerform(s, h, source)) <==> !IsListed(s, h)
  {
    var t := OnPerform(s, h, source);
    if IsListed(s, h) {
      LateCallBreaks(s, t, h);
    } else {
      hide Inv;
      HostKeepsInv(s, h, Tell(s.hosts[h]), s.next);
      CallsKeepInv(SetHost(s, h, Tell(s.hosts[h])), t.performing, t.cancelling, t.nulls);
    }
  }

  lemma PerformCancelKeepsInv(s: State, h: HostId, source: nat)
    requires Inv(s) && h in s.hosts
    ensures Inv(OnPerformCancel(s, h, source)) <==> !IsListed(s, h)
  {
    var t := OnPerformCancel(s, h, source);
    if IsListed(s, h) {
      LateCallBreaks(s, t, h);
    } else {
      hide Inv;
      HostKeepsInv(s, h, Tell(s.hosts[h]), s.next);
      CallsKeepInv(s, t.performing, t.cancelling, t.nulls);
      CallsKeepInv(SetHost(s, h, Tell(s.hosts[h])), t.performing, t.cancelling, t.nulls);
    }
  }

  // --- The master's completion

  // A client stands only in the list for its host's name.
  lemma ClientsOf(s: State, n: Name)
    requires TableOk(s) && n in s.table
    ensures var list := s.table[n];
            && |list| >= 2 && list == [list[0]] + list[1..]
            && forall x :: x in list[1..] ==>
                 GoodClient(s, n, x) && forall n' :: n' in s.table && n' != n ==> x !in s.table[n']
  {
    var list := s.table[n];
    assert GoodList(s, n, list);
    forall x | x in list[1..]
      ensures GoodClient(s, n, x) && forall n' :: n' in s.table && n' != n ==> x !in s.table[n']
    {
      var i :| 1 <= i < |list| && list[i] == x;
      assert list[i] != list[0] && list[i] in list;
      forall n' | n' in s.table && n' != n
        ensures x !in s.table[n']
      {
        assert GoodList(s, n', s.table[n']);
      }
    }
  }

  // A master that replies still serves its name.
  lemma MasterRepliesKeepsInv(s: State, m: nat, err: Err, addresses: seq<string>)
    requires Inv(s) && m in s.running
    ensures Inv(OnMasterReplies(s, m, err, addresses))
  {
    hide GoodList, GoodBatch, WaitersOk, BatchesOk;
    var t := OnMasterReplies(s, m, err, addresses);
    TableStays(s, t);
    BatchesStay(s, t);
    WaitersStay(s, t);
  }

  // The name of the completion stands in the table, with the list of another master: the one that completes
  // had been retired, and the name has been looked up anew.
  ghost predicate IsForeign(s: State, m: nat)
    requires m in s.replied
  {
    var n := s.replied[m].name;
    n in s.table && !([Master(m)] <= s.table[n])
  }

  // Taking a list keeps everything together if and only if it is the master's own, or there is none.
  lemma TakeListKeepsInv(s: State, m: nat)
    requires Inv(s) && m in s.replied
    ensures Inv(OnTakeList(s, m)) <==> !IsForeign(s, m)
  {
    hide Inv;
    var n := s.replied[m].name;
    if n !in s.table {
      NoListKeepsInv(s, m);
    } else if IsForeign(s, m) {
      ForeignListBreaks(s, m);
    } else {
      OwnListKeepsInv(s, m);
    }
  }

  lemma NoListKeepsInv(s: State, m: nat)
    requires Inv(s) && m in s.replied && s.replied[m].name !in s.table
    ensures Inv(OnTakeList(s, m))
  {
    hide GoodList, GoodBatch, WaitersOk, BatchesOk;
    var t := OnTakeList(s, m);
    forall n | n in s.table
      ensures GoodList(t, n, s.table[n])
    {
      StillServed(s, t, m, n);
    }
    BatchesStay(s, t);
    WaitersStay(s, t);
  }

  lemma StillServed(s: State, t: State, m: nat, n: Name)
    requires TableOk(s) && n in s.table && m in s.replied && s.replied[m].name != n
    requires t.running == s.running && t.replied == s.replied - {m} && t.hosts == s.hosts
    ensures GoodList(t, n, s.table[n])
  {
    assert GoodList(s, n, s.table[n]);
    forall x | x in s.table[n] && x != s.table[n][0]
      ensures GoodClient(t, n, x)
    {
      assert GoodClient(s, n, x);
    }
  }

  lemma ForeignListBreaks(s: State, m: nat)
    requires Inv(s) && m in s.replied && IsForeign(s, m)
    ensures !Inv(OnTakeList(s, m))
  {
    var n, t := s.replied[m].name, OnTakeList(s, m);
    assert GoodList(s, n, s.table[n]);
    assert t.answering[m].head == s.table[n][0] != Master(m);
  }

  lemma OwnListKeepsInv(s: State, m: nat)
    requires Inv(s) && m in s.replied && s.replied[m].name in s.table && !IsForeign(s, m)
    ensures Inv(OnTakeList(s, m))
  {
    hide GoodList, GoodBatch, RunningOk, MastersOk, WaitersOk, OnTakeList;
    var n, t := s.replied[m].name, OnTakeList(s, m);
    OwnListOutcome(s, m);
    OwnListKeepsMasters(s, m);
    forall n' | n' in t.table
      ensures GoodList(t, n', t.table[n'])
    {
      StillServed(s, t, m, n');
    }
    TakenBatchIsGood(s, t, n);
    OldBatchesStay(s, t, m);
    TakenClientsWait(s, t, m);
  }

  lemma OwnListOutcome(s: State, m: nat)
    requires Inv(s) && m in s.replied && s.replied[m].name in s.table && !IsForeign(s, m)
    ensures var n, reply := s.replied[m].name, s.replied[m];
            && |s.table[n]| >= 2 && m !in s.answering
            && OnTakeList(s, m) ==
               s.(table := s.table - {n}, replied := s.replied - {m},
                  answering := s.answering[m := Batch(Master(m), s.table[n][1..], reply.err, reply.addresses)])
  {
    hide GoodList, GoodBatch, WaitersOk;
    FirstIsMaster(s, s.replied[m].name);
  }

  lemma OwnListKeepsMasters(s: State, m: nat)
    requires Inv(s) && m in s.replied && s.replied[m].name in s.table && !IsForeign(s, m)
    ensures RunningOk(OnTakeList(s, m)) && MastersOk(OnTakeList(s, m))
  {
    hide TableOk, SourcesOk, WaitersOk, BatchesOk;
  }

  lemma TakenClientsWait(s: State, t: State, m: nat)
    requires TableOk(s) && WaitersOk(s) && m !in s.answering && m in s.replied && s.replied[m].name in s.table
    requires t.hosts == s.hosts && t.table == s.table - {s.replied[m].name}
    requires m in t.answering && t.answering[m].left == s.table[s.replied[m].name][1..]
    requires forall m' :: m' in s.answering ==> m' in t.answering && t.answering[m'] == s.answering[m']
    ensures WaitersOk(t)
  {
    var n := s.replied[m].name;
    ClientsOf(s, n);
    forall h | h in t.hosts && t.hosts[h].lookup.Waiting? && !InOwnList(t, h)
      ensures InBatch(t, Client(h, t.hosts[h].lookup.source))
    {
      var x := Client(h, t.hosts[h].lookup.source);
      if InOwnList(s, h) {
        assert GoodList(s, n, s.table[n]);
        assert x in s.table[n][1..] && x in t.answering[m].left;
      } else {
        var m' :| m' in s.answering && x in s.answering[m'].left;
        assert m' in t.answering && x in t.answering[m'].left;
      }
    }
  }

  lemma TakenBatchIsGood(s: State, t: State, n: Name)
    requires TableOk(s) && SourcesOk(s) && n in s.table
    requires t.table == s.table - {n} && t.hosts == s.hosts && t.next == s.next
    ensures GoodBatch(t, s.table[n][1..])
  {
    ClientsOf(s, n);
  }

  lemma OldBatchesStay(s: State, t: State, m: nat)
    requires BatchesOk(s) && t.hosts == s.hosts && t.next == s.next
    requires forall n :: n in t.table ==> n in s.table && t.table[n] == s.table[n]
    ensures forall m' :: m' in s.answering ==> GoodBatch(t, s.answering[m'].left)
  {
    forall m' | m' in s.answering
      ensures GoodBatch(t, s.answering[m'].left)
    {
      assert GoodBatch(s, s.answering[m'].left);
    }
  }

  // The client that comes next has given up the lookup that the master is answering and waits for another
  // master already.
  ghost predicate IsLate(s: State, m: nat)
    requires m in s.answering && s.answering[m].left != []
  {
    var x := s.answering[m].left[0];
    x.Client? && IsListed(s, x.host)
  }

  // What an answer changes
  lemma AnswerOutcome(s: State, m: nat, copied: bool)
    requires BatchesOk(s) && m in s.answering
    ensures var left, t := s.answering[m].left, OnAnswer(s, m, copied);
            && left != [] && left[0].Client? && left[0].host in s.hosts && left == [left[0]] + left[1..]
            && t == s.(hosts := t.hosts, answering := t.answering, nulls := t.nulls)
            && left[0].host in t.hosts && t.hosts == s.hosts[left[0].host := t.hosts[left[0].host]]
            && !t.hosts[left[0].host].lookup.Waiting? && t.hosts[left[0].host].name == s.hosts[left[0].host].name
            && (t.hosts[left[0].host].lookup == NoLookup <==> s.hosts[left[0].host].lookup == NoLookup)
            && t.hosts[left[0].host].typed == s.hosts[left[0].host].typed
            && (t.hosts[left[0].host].lookup != NoLookup ==>
                  t.hosts[left[0].host].lookup.source == s.hosts[left[0].host].lookup.source)
            && t.answering == if |left| == 1 then s.answering - {m}
                              else s.answering[m := s.answering[m].(left := left[1..])]
  {
    BatchMembers(s, m);
  }

  lemma AnswerKeepsBatches(s: State, t: State, m: nat)
    requires BatchesOk(s) && m in s.answering && t.table == s.table && t.hosts.Keys == s.hosts.Keys && t.next == s.next
    requires var left := s.answering[m].left;
             t.answering == if |left| == 1 then s.answering - {m}
                            else s.answering[m := s.answering[m].(left := left[1..])]
    ensures BatchesOk(t)
  {
    hide GoodBatch;
    LessLeftIsGood(s, t, m);
    forall m' | m' in t.answering && m' != m
      ensures GoodBatch(t, t.answering[m'].left)
    {
      BatchStays(s, t, m');
    }
  }

  // Whoever still waits and is not listed stands in what is left.
  lemma AnswerKeepsWaiters(s: State, t: State, m: nat)
    requires WaitersOk(s) && m in s.answering && s.answering[m].left != [] && t.table == s.table
    requires var left := s.answering[m].left;
             && left[0].Client? && left[0].host in s.hosts && left == [left[0]] + left[1..]
             && left[0].host in t.hosts
             && t.hosts == s.hosts[left[0].host := t.hosts[left[0].host]] && !t.hosts[left[0].host].lookup.Waiting?
             && t.answering == if |left| == 1 then s.answering - {m}
                               else s.answering[m := s.answering[m].(left := left[1..])]
    ensures WaitersOk(t)
  {
    var left := s.answering[m].left;
    forall h | h in t.hosts && t.hosts[h].lookup.Waiting? && !InOwnList(t, h)
      ensures InBatch(t, Client(h, t.hosts[h].lookup.source))
    {
      var y := Client(h, t.hosts[h].lookup.source);
      var m' :| m' in s.answering && y in s.answering[m'].left;
      assert m' in t.answering && y in t.answering[m'].left;
    }
  }

  // An answer keeps everything together if and only if it does not reach a host that waits anew.
  lemma AnswerKeepsInv(s: State, m: nat, copied: bool)
    requires Inv(s) && m in s.answering && s.answering[m].left != []
    ensures Inv(OnAnswer(s, m, copied)) <==> !IsLate(s, m)
  {
    hide TableOk, RunningOk, MastersOk, SourcesOk, WaitersOk, BatchesOk, OnAnswer, Serves;
    var t, x := OnAnswer(s, m, copied), s.answering[m].left[0];
    AnswerOutcome(s, m, copied);
    if IsLate(s, m) {
      LateCallBreaks(s, t, x.host);
    } else {
      ServesAlike(s, t);
      RunningStays(s, t);
      AnswerLeavesMasters(s, t, m);
      AnswerLeavesSources(s, t, x.host);
      TableStays(s, t);
      AnswerKeepsBatches(s, t, m);
      AnswerKeepsWaiters(s, t, m);
    }
  }

  lemma AnswerLeavesMasters(s: State, t: State, m: nat)
    requires MastersOk(s) && m in s.answering && t.running == s.running && t.replied == s.replied && t.next == s.next
    requires forall m' :: m' in t.answering ==> m' in s.answering
    ensures MastersOk(t)
  {
  }

  lemma AnswerLeavesSources(s: State, t: State, h: HostId)
    requires SourcesOk(s) && t.next == s.next && h in s.hosts && h in t.hosts && t.hosts == s.hosts[h := t.hosts[h]]
    requires !t.hosts[h].lookup.Waiting? && t.hosts[h].typed == s.hosts[h].typed
    requires t.hosts[h].lookup != NoLookup ==>
               s.hosts[h].lookup != NoLookup && t.hosts[h].lookup.source == s.hosts[h].lookup.source
    ensures SourcesOk(t)
  {
  }

  lemma BatchMembers(s: State, m: nat)
    requires BatchesOk(s) && m in s.answering
    ensures s.answering[m].left != []
    ensures forall x :: x in s.answering[m].left ==> x.Client? && x.host in s.hosts
  {
    assert GoodBatch(s, s.answering[m].left);
  }

  lemma BatchStays(s: State, t: State, m: nat)
    requires BatchesOk(s) && m in s.answering && t.table == s.table && t.hosts.Keys == s.hosts.Keys && t.next == s.next
    ensures GoodBatch(t, s.answering[m].left)
  {
    assert GoodBatch(s, s.answering[m].left);
  }

  lemma LessLeftIsGood(s: State, t: State, m: nat)
    requires BatchesOk(s) && m in s.answering && t.table == s.table && t.hosts.Keys == s.hosts.Keys && t.next == s.next
    ensures var left := s.answering[m].left;
            left != [] && (|left| > 1 ==> GoodBatch(t, left[1..]))
  {
    assert GoodBatch(s, s.answering[m].left);
  }

  // --- Whole runs from a start at which nothing is looked up

  // The event is the start of a resolution for which the master of a new list cannot be created.
  ghost predicate LosesMaster(s: State, e: Event)
    requires CanHappen(s, e)
  {
    && e.Start? && s.hosts[e.host].lookup == NoLookup && s.hosts[e.host].name !in s.table
    && e.listCreated && !e.masterCreated
  }

  // The event belongs to a lookup that has been given up, and meets the one that took its place: a completion
  // takes the list of another master, or an answer or a call reaches a host that stands in a list again.
  ghost predicate ComesLate(s: State, e: Event)
    requires CanHappen(s, e)
  {
    || (e.TakeList? && IsForeign(s, e.master))
    || (e.AnswerNext? && IsLate(s, e.master))
    || ((e.Perform? || e.PerformCancel?) && IsListed(s, e.host))
  }

  lemma StepKeepsInv(s: State, e: Event)
    requires Inv(s) && CanHappen(s, e)
    ensures Inv(Step(s, e)) <==> !LosesMaster(s, e) && !ComesLate(s, e)
  {
    hide Inv, IsForeign, IsListed, IsLate, OnStart, OnTakeList, OnAnswer, OnPerform, OnPerformCancel, Leave;
    match e
    case Start(h, listCreated, masterCreated, startErr, early, sourceCreated) =>
      StartKeepsInv(s, h, listCreated, masterCreated, startErr, early, sourceCreated);
    case Cancel(h, sourceCreated) => CancelKeepsInv(s, h, sourceCreated);
    case RemoveClient(h) => RemovalKeepsInv(s, h);
    case Enter(h) =>
      CallsKeepInv(s, OnEnter(s, h).performing, OnEnter(s, h).cancelling, s.nulls);
    case Perform(h, source) => PerformKeepsInv(s, h, source);
    case PerformCancel(h, source) => PerformCancelKeepsInv(s, h, source);
    case MasterReplies(m, err, addresses) => MasterRepliesKeepsInv(s, m, err, addresses);
    case TakeList(m) => TakeListKeepsInv(s, m);
    case AnswerNext(m, copied) => AnswerKeepsInv(s, m, copied);
  }

  ghost predicate Idle(s: State) {
    && s.table == map[] && s.running == map[] && s.replied == map[] && s.answering == map[]
    && s.performing == {} && s.cancelling == {}
    && forall h :: h in s.hosts ==> s.hosts[h].lookup == NoLookup
  }

  ghost predicate IsRun(s: State, es: seq<Event>)
    decreases |es|
  {
    es == [] || (CanHappen(s, es[0]) && IsRun(Step(s, es[0]), es[1..]))
  }

  ghost function After(s: State, es: seq<Event>): State
    requires IsRun(s, es)
    decreases |es|
  {
    if es == [] then s else After(Step(s, es[0]), es[1..])
  }

  // Along the run no master of a new list fails to be created, and nothing comes late.
  ghost predicate RunsWell(s: State, es: seq<Event>)
    requires IsRun(s, es)
    decreases |es|
  {
    es == [] || (!LosesMaster(s, es[0]) && !ComesLate(s, es[0]) && RunsWell(Step(s, es[0]), es[1..]))
  }

  lemma {:induction false} RunKeepsInv(s: State, es: seq<Event>)
    requires Inv(s) && IsRun(s, es) && RunsWell(s, es)
    ensures Inv(After(s, es))
    decreases |es|
  {
    hide Inv, Step, CanHappen, LosesMaster, ComesLate;
    if es != [] {
      StepKeepsInv(s, es[0]);
      RunKeepsInv(Step(s, es[0]), es[1..]);
    }
  }

  // The host waits for the master of the name, which has not taken its list yet.
  ghost predicate AwaitedBy(s: State, n: Name, h: HostId) {
    && h in s.hosts && s.hosts[h].name == n && s.hosts[h].lookup.Waiting?
    && !InBatch(s, Client(h, s.hosts[h].lookup.source))
  }

  // In every such state a name is in the table exactly while some host waits for its master.  That master
  // runs for it or is completing; no other runs for it, and none runs for a name that is not in the table.
  lemma OneMasterPerAwaitedName(s: State, es: seq<Event>, n: Name)
    requires Idle(s) && IsRun(s, es) && RunsWell(s, es)
    ensures var t := After(s, es);
            && (n in t.table <==> exists h :: AwaitedBy(t, n, h))
            && (n in t.table ==> exists m :: [Master(m)] <= t.table[n] && Serves(t, m, n))
            && (forall m :: m in t.running && t.running[m] == n ==> n in t.table && [Master(m)] <= t.table[n])
            && forall m, m' :: m in t.running && m' in t.running && t.running[m] == n && t.running[m'] == n ==> m == m'
  {
    IdleKeepsInv(s);
    RunKeepsInv(s, es);
    var t := After(s, es);
    if n in t.table {
      FirstIsMaster(t, n);
      ClientsOf(t, n);
      var x := t.table[n][1];
      assert x in t.table[n][1..];
      ListedIsAwaited(t, n, x);
      assert AwaitedBy(t, n, x.host);
      assert [Master(t.table[n][0].id)] <= t.table[n];
    }
  }

  lemma IdleKeepsInv(s: State)
    requires Idle(s)
    ensures Inv(s)
  {
  }

  lemma ListedIsAwaited(s: State, n: Name, x: Entry)
    requires Inv(s) && n in s.table && x in s.table[n][1..]
    ensures x.Client? && AwaitedBy(s, n, x.host) && x == Client(x.host, s.hosts[x.host].lookup.source)
  {
    ClientsOf(s, n);
    assert GoodClient(s, n, x);
    forall m | m in s.answering
      ensures x !in s.answering[m].left
    {
      assert GoodBatch(s, s.answering[m].left);
      assert x in s.table[n];
    }
  }
}
