// The table of shared lookups and the hosts, updated in place.
module HostRegistry {
  import opened Options
  import opened Sequences
  import opened HostLookup
  import opened HostLookupTheorems
  import opened HostAnswers

  class Registry {
    var lookups: map<Name, seq<Entry>>
    var hosts: map<HostId, Host>
    var running: map<nat, Name>
    var replied: map<nat, Reply>
    var answering: map<nat, Batch>
    var performing: set<(HostId, nat)>
    var cancelling: set<(HostId, nat)>
    var nulls: nat
    var next: nat

    function View(): State
      reads this
    {
      State(lookups, hosts, running, replied, answering, performing, cancelling, nulls, next)
    }

    // RSHostSetClient without a client and RSHostCancelInfoResolution, on a master
    method StopMaster(master: Entry)
      modifies this`running
      ensures running == if master.Master? then old(running) - {master.id} else old(running)
    {
      if master.Master? {
        running := running - {master.id};
      }
    }

    // _GetAddrInfoCallBack on a master, as far as it holds the host's lock
    method MasterReplies(m: nat, err: Err, addresses: seq<string>)
      requires m in running
      modifies this`running, this`replied
      ensures View() == OnMasterReplies(old(View()), m, err, addresses)
    {
      replied := replied[m := Reply(running[m], err, addresses)];
      running := running - {m};
    }

    // The first half of _CreateAddressLookup: the list for the name, with its master
    method FindOrMakeList(n: Name, listCreated: bool, masterCreated: bool, startErr: Err,
                          early: Option<(Err, seq<string>)>)
      returns (list: seq<Entry>, err: Err)
      requires next !in running
      modifies this`lookups, this`running, this`replied, this`next
      ensures var s := old(View());
              if n in s.table then err == NoError && View() == s && list == s.table[n]
              else if !listCreated then err == NoMemory && View() == s
              else if !masterCreated then err == NoMemory && View() == s.(table := s.table[n := []])
              else if startErr != NoError then err == startErr && View() == s.(next := s.next + 1)
              else err == NoError && View() == NewList(s, n, early) && list == [Master(s.next)]
    {
      if n in lookups {
        return lookups[n], NoError;
      }
      list := [];
      if !listCreated {
        return list, NoMemory;
      }
      lookups := lookups[n := list];
      if !masterCreated {
        return list, NoMemory;
      }
      ghost var table := lookups;
      list := StartMaster(n, startErr);
      err := startErr;
      assert table - {n} == old(lookups);
      assert table[n := list] == old(lookups)[n := list];
      if startErr == NoError && early.Some? {
        MasterReplies(list[0].id, early.value.0, early.value.1);
      }
    }

    // A new master enters the list, and its lookup starts; if it does not start, the list goes away.
    method StartMaster(n: Name, startErr: Err) returns (list: seq<Entry>)
      requires next !in running
      modifies this`lookups, this`running, this`next
      ensures list == [Master(old(next))] && next == old(next) + 1
      ensures startErr == NoError ==> lookups == old(lookups)[n := list] && running == old(running)[old(next) := n]
      ensures startErr != NoError ==> lookups == old(lookups) - {n} && running == old(running)
    {
      list := [Master(next)];
      lookups := lookups[n := list];
      running := running[next := n];
      if startErr != NoError {
        StopMaster(list[0]);
        lookups := lookups - {n};
      }
      next := next + 1;
    }

    // _CreateAddressLookup: the source that the master will signal, or an error
    method CreateAddressLookup(h: HostId, listCreated: bool, masterCreated: bool, startErr: Err,
                               early: Option<(Err, seq<string>)>, sourceCreated: bool)
      returns (lookup: Lookup, err: Err)
      requires h in hosts && hosts[h].lookup == NoLookup && next !in running
      modifies this`lookups, this`running, this`replied, this`next
      ensures lookup == NoLookup || (lookup.Waiting? && err == NoError)
      ensures var host := hosts[h].(lookup := lookup, err := err);
              var accepted := host.(typed := true, accepted := host.accepted + 1);
              SetHost(View(), h, if lookup == NoLookup then host else accepted)
              == OnStart(old(View()), h, listCreated, masterCreated, startErr, early, sourceCreated)
    {
      hide NewList, Retire, OnStart, WithSource;
      ghost var s, n := View(), hosts[h].name;
      NewListTable(s, n, early);
      var list;
      list, err := FindOrMakeList(hosts[h].name, listCreated, masterCreated, startErr, early);
      lookup := NoLookup;
      if err == NoError {
        lookup, err := AddSource(hosts[h].name, list, h, sourceCreated);
        StartWithSource(s, h, listCreated, masterCreated, startErr, early, sourceCreated);
      } else {
        StartWithoutSource(s, h, listCreated, masterCreated, startErr, early, sourceCreated);
      }
    }

    // Its second half: the source, which enters the list.  A list without any client goes away again.
    method AddSource(n: Name, list: seq<Entry>, h: HostId, sourceCreated: bool) returns (lookup: Lookup, err: Err)
      requires n in lookups && lookups[n] == list
      modifies this`lookups, this`running, this`next
      ensures err == if sourceCreated then NoError else NoMemory
      ensures lookup == if sourceCreated then Waiting(old(next)) else NoLookup
      ensures View() == WithSource(old(View()), n, h, sourceCreated)
    {
      if sourceCreated {
        lookups := lookups[n := list + [Client(h, next)]];
        next := next + 1;
        return Waiting(next - 1), NoError;
      }
      if |list| == 1 {
        StopMaster(list[0]);
        lookups := lookups - {n};
      }
      return NoLookup, NoMemory;
    }

    // RSHostStartInfoResolution for addresses
    method StartResolution(h: HostId, listCreated: bool, masterCreated: bool, startErr: Err,
                           early: Option<(Err, seq<string>)>, sourceCreated: bool)
      returns (started: bool)
      requires h in hosts && next !in running
      modifies this
      ensures h in hosts && (started <==> old(hosts[h].lookup) == NoLookup && hosts[h].lookup.Waiting?)
      ensures View() == OnStart(old(View()), h, listCreated, masterCreated, startErr, early, sourceCreated)
    {
      hide OnStart;
      var host := hosts[h];
      if host.lookup != NoLookup {
        OneLookupAtATime(View(), h, listCreated, masterCreated, startErr, early, sourceCreated);
        return false;
      }
      var lookup, err := CreateAddressLookup(h, listCreated, masterCreated, startErr, early, sourceCreated);
      started := lookup != NoLookup;
      host := host.(lookup := lookup, err := err);
      if started {
        host := host.(typed := true, accepted := host.accepted + 1);
      }
      hosts := hosts[h := host];
    }

    // The part of RSHostCancelInfoResolution and RSHostSetClient that takes a source out of the table
    method LeaveTable(h: HostId)
      requires h in hosts && hosts[h].lookup != NoLookup
      modifies this`lookups, this`running
      ensures View() == Leave(old(View()), h)
    {
      hide Drop, Retire;
      var n := hosts[h].name;
      if n in lookups {
        TakeOut(n, Client(h, hosts[h].lookup.source));
      }
    }

    // It takes the entry out of the list of the name.
    method TakeOut(n: Name, me: Entry)
      requires n in lookups
      modifies this`lookups, this`running
      ensures var s, list := old(View()), old(lookups[n]);
              View() == if me !in list then s
                        else if |list| == 2 && Drop(list, me) != [] then Retire(s, n, Drop(list, me)[0])
                        else s.(table := s.table[n := Drop(list, me)])
    {
      hide Drop;
      var list := lookups[n];
      var count, idx := |list|, IndexOf(list, me);
      DropIsRemoval(list, me, idx);
      if idx < |list| {
        list := list[..idx] + list[idx + 1..];
        lookups := lookups[n := list];
        if count == 2 {
          StopMaster(list[0]);
          lookups := lookups - {n};
          assert lookups == old(lookups) - {n};
        }
      }
    }

    // RSHostCancelInfoResolution
    method CancelResolution(h: HostId, sourceCreated: bool)
      requires h in hosts
      modifies this
      ensures View() == Step(old(View()), Cancel(h, sourceCreated))
    {
      if hosts[h].lookup != NoLookup {
        LeaveTable(h);
        hosts := hosts[h := hosts[h].(lookup := if sourceCreated then Cancelling(next) else NoLookup)];
        next := next + 1;
      }
    }

    // RSHostSetClient without a client
    method ForgetClient(h: HostId)
      requires h in hosts
      modifies this
      ensures View() == Step(old(View()), RemoveClient(h))
    {
      if hosts[h].lookup != NoLookup {
        LeaveTable(h);
        hosts := hosts[h := hosts[h].(lookup := NoLookup, typed := false)];
      }
      hosts := hosts[h := hosts[h].(hasClient := false)];
    }

    // The end of a lookup, and the client's callback
    method FinishLookup(h: HostId)
      requires h in hosts
      modifies this`hosts
      ensures hosts == old(hosts)[h := Tell(old(hosts[h]))]
    {
      var host := hosts[h];
      hosts := hosts[h := host.(lookup := NoLookup, typed := false)];
      if host.hasClient {
        hosts := hosts[h := hosts[h].(told := host.told + [(host.err, host.info)])];
      }
    }

    // _AddressLookupPerform, once it has the host's lock.  It invalidates and releases whatever it finds.
    method PerformLookup(h: HostId, source: nat)
      requires h in hosts && (h, source) in performing
      modifies this`hosts, this`performing, this`nulls
      ensures View() == Step(old(View()), Perform(h, source))
    {
      performing := performing - {(h, source)};
      if hosts[h].lookup == NoLookup {
        nulls := nulls + 1;
      }
      FinishLookup(h);
    }

    // _HostCancel, once it has the host's lock
    method PerformCancel(h: HostId, source: nat)
      requires h in hosts && (h, source) in cancelling
      modifies this`hosts, this`cancelling
      ensures View() == Step(old(View()), Event.PerformCancel(h, source))
    {
      cancelling := cancelling - {(h, source)};
      if hosts[h].lookup != NoLookup {
        FinishLookup(h);
      }
    }

    // The start of _MasterCallBack: under the table lock it takes the list that it finds.
    method TakeClients(m: nat)
      requires m in replied
      modifies this`lookups, this`replied, this`answering
      ensures View() == Step(old(View()), TakeList(m))
    {
      var reply := replied[m];
      replied := replied - {m};
      if reply.name in lookups {
        var list := lookups[reply.name];
        lookups := lookups - {reply.name};
        if |list| > 1 {
          answering := answering[m := Batch(list[0], list[1..], reply.err, reply.addresses)];
        }
      }
    }

    // One turn of its loop over them, under the lock of that client
    method AnswerClient(m: nat, copied: bool)
      requires m in answering && answering[m].left != []
      modifies this`hosts, this`answering, this`nulls
      ensures View() == Step(old(View()), AnswerNext(m, copied))
    {
      var batch := answering[m];
      var x := batch.left[0];
      answering := if |batch.left| == 1 then answering - {m} else answering[m := batch.(left := batch.left[1..])];
      if x.Client? && x.host in hosts {
        var host := hosts[x.host];
        if host.lookup == NoLookup {
          nulls := nulls + 1;
        }
        hosts := hosts[x.host := Answer(host, batch.err, batch.addresses, copied)];
      }
    }

    // _MasterCallBack, with nothing in between
    method MasterCallBack(m: nat, copied: set<HostId>)
      requires m in replied && m !in answering
      modifies this`hosts, this`lookups, this`replied, this`answering, this`nulls
      ensures View() == AnswerAll(old(OnTakeList(View(), m)), m, copied)
    {
      hide OnAnswer, OnTakeList;
      TakeClients(m);
      while m in answering && answering[m].left != []
        invariant AnswerAll(View(), m, copied) == AnswerAll(old(OnTakeList(View(), m)), m, copied)
        decreases if m in answering then |answering[m].left| else 0
      {
        var x := answering[m].left[0];
        OneLess(View(), m, x.Client? && x.host in copied);
        AnswerClient(m, x.Client? && x.host in copied);
      }
    }
  }

  lemma OneLookupAtATime(s: State, h: HostId, listCreated: bool, masterCreated: bool, startErr: Err,
                         early: Option<(Err, seq<string>)>, sourceCreated: bool)
    requires h in s.hosts && s.hosts[h].lookup != NoLookup
    ensures OnStart(s, h, listCreated, masterCreated, startErr, early, sourceCreated) == s
  {
  }

  // What a start comes to when it finds or makes no list
  lemma StartWithoutSource(s: State, h: HostId, listCreated: bool, masterCreated: bool, startErr: Err,
                           early: Option<(Err, seq<string>)>, sourceCreated: bool)
    requires h in s.hosts && s.hosts[h].lookup == NoLookup
    ensures var n, t := s.hosts[h].name, OnStart(s, h, listCreated, masterCreated, startErr, early, sourceCreated);
            var failed := s.hosts[h].(lookup := NoLookup, err := NoMemory);
            && (n !in s.table && !listCreated ==> t == SetHost(s, h, failed))
            && (n !in s.table && listCreated && !masterCreated ==>
                  t == SetHost(s.(table := s.table[n := []]), h, failed))
            && (n !in s.table && listCreated && masterCreated && startErr != NoError ==>
                  t == SetHost(s.(next := s.next + 1), h, failed.(err := startErr)))
  {
  }

  // The list with the new source, or without any client if it had none and gets none
  function WithSource(s: State, n: Name, h: HostId, sourceCreated: bool): State
    requires n in s.table
  {
    var list := s.table[n];
    if sourceCreated then s.(table := s.table[n := list + [Client(h, s.next)]], next := s.next + 1)
    else if |list| == 1 then Retire(s, n, list[0])
    else s
  }

  // What it comes to with a list: a source that joins it, or none
  lemma StartWithSource(s: State, h: HostId, listCreated: bool, masterCreated: bool, startErr: Err,
                        early: Option<(Err, seq<string>)>, sourceCreated: bool)
    requires h in s.hosts && s.hosts[h].lookup == NoLookup
    ensures var n, t := s.hosts[h].name, OnStart(s, h, listCreated, masterCreated, startErr, early, sourceCreated);
            var host := s.hosts[h];
            var u := if n in s.table then s else NewList(s, n, early);
            n in s.table || (listCreated && masterCreated && startErr == NoError) ==>
              && n in u.table
              && t == SetHost(WithSource(u, n, h, sourceCreated), h,
                              if sourceCreated then
                                host.(lookup := Waiting(u.next), typed := true, err := NoError,
                                      accepted := host.accepted + 1)
                              else host.(lookup := NoLookup, err := NoMemory))
  {
    NewListTable(s, s.hosts[h].name, early);
    hide NewList;
  }

  lemma NewListTable(s: State, n: Name, early: Option<(Err, seq<string>)>)
    ensures var t := NewList(s, n, early);
            t == s.(table := s.table[n := [Master(s.next)]], running := t.running, replied := t.replied,
                    next := s.next + 1)
  {
  }

  lemma OneLess(s: State, m: nat, copied: bool)
    requires m in s.answering && s.answering[m].left != []
    ensures var t := OnAnswer(s, m, copied);
            (if m in t.answering then |t.answering[m].left| else 0) < |s.answering[m].left|
  {
  }
}
