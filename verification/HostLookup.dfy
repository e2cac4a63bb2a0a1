// Shared address lookups (RSHost.c).  Hosts that resolve the same name wait for one master lookup; the
// table _HostLookups keeps, for every name, the master and the sources of the hosts that wait for it.
module HostLookup {
  import opened Options
  import opened Sequences

  type Name = string
  type HostId = nat

  datatype Err = NoError | NoMemory | Failed(code: int)

  // An element of a list of _HostLookups: the master host, or the run loop source of a waiting host
  datatype Entry = Master(id: nat) | Client(host: HostId, source: nat)

  // host->_lookup: nothing, a source that waits for the master, one that the master has signalled, or
  // the source of a cancel
  datatype Lookup =
    | NoLookup
    | Waiting(source: nat)
    | Answered(source: nat)
    | Cancelling(source: nat)

  // host->_info for addresses; Null marks a resolution that was performed without a result
  datatype Info = Unresolved | Null | Addresses(addresses: seq<string>)

  // A host that resolves addresses: whether host->_type says so, whether the host has a client, how many of its
  // resolutions have been accepted, and what the callbacks for them have reported
  datatype Host = Host(
    name: Name, lookup: Lookup, typed: bool, info: Info, err: Err, hasClient: bool,
    accepted: nat, told: seq<(Err, Info)>)

  // A master's completion, from the moment its own lookup has ended: what it will tell the clients of its
  // name.  Nothing stops it any more.
  datatype Reply = Reply(name: Name, err: Err, addresses: seq<string>)

  // A completion on its way through the clients of the list that it has taken from the table: the master at
  // the head of that list, the clients that are still to be answered, and the answer
  datatype Batch = Batch(head: Entry, left: seq<Entry>, err: Err, addresses: seq<string>)

  // _HostLookups, the hosts, and the masters whose lookup is running, each with the name it is for.  Then
  // what is under way on other threads: completions that have not taken a list yet, completions that are
  // answering, and calls of _AddressLookupPerform and of _HostCancel that have not got the host's lock yet,
  // each with the source that led to it.  `nulls` counts the uses of a source that is NULL.  Sources and
  // masters are numbered from one counter.
  datatype State = State(
    table: map<Name, seq<Entry>>, hosts: map<HostId, Host>, running: map<nat, Name>,
    replied: map<nat, Reply>, answering: map<nat, Batch>,
    performing: set<(HostId, nat)>, cancelling: set<(HostId, nat)>,
    nulls: nat, next: nat)

  datatype Event =
    // RSHostStartInfoResolution for addresses that are not cached; a new master may reply at once
    | Start(host: HostId, listCreated: bool, masterCreated: bool, startErr: Err,
            early: Option<(Err, seq<string>)>, sourceCreated: bool)
    | Cancel(host: HostId, sourceCreated: bool)                     // RSHostCancelInfoResolution
    | RemoveClient(host: HostId)                                    // RSHostSetClient without a client
    | Enter(host: HostId)                                           // the run loop calls a signalled source
    | Perform(host: HostId, source: nat)                            // _AddressLookupPerform
    | PerformCancel(host: HostId, source: nat)                      // _HostCancel
    | MasterReplies(master: nat, err: Err, addresses: seq<string>)  // _GetAddrInfoCallBack, under the host's lock
    | TakeList(master: nat)                                         // _MasterCallBack, under the table lock
    | AnswerNext(master: nat, copied: bool)                         // one turn of its loop over the clients

  function SetHost(s: State, h: HostId, host: Host): State {
    s.(hosts := s.hosts[h := host])
  }

  // A list that has just been made, with its master running
  function NewMaster(s: State, n: Name): State {
    s.(table := s.table[n := [Master(s.next)]], running := s.running[s.next := n], next := s.next + 1)
  }

  // Another client for a name that is in the table
  function Join(s: State, h: HostId, host: Host): State {
    var list := if host.name in s.table then s.table[host.name] else [];
    SetHost(
      s.(table := s.table[host.name := list + [Client(h, s.next)]], next := s.next + 1),
      h, host.(lookup := Waiting(s.next), typed := true, err := NoError, accepted := host.accepted + 1))
  }

  // Nobody waits for the name any more.
  function Retire(s: State, n: Name, master: Entry): State {
    s.(table := s.table - {n}, running := if master.Master? then s.running - {master.id} else s.running)
  }

  // The master's own lookup ends.  From here on it is too late to cancel it.
  function OnMasterReplies(s: State, m: nat, err: Err, addresses: seq<string>): State
    requires m in s.running
  {
    s.(running := s.running - {m}, replied := s.replied[m := Reply(s.running[m], err, addresses)])
  }

  // A new list with its master, which may have replied before there is a client
  function NewList(s: State, n: Name, early: Option<(Err, seq<string>)>): State {
    var t := NewMaster(s, n);
    if early.Some? then OnMasterReplies(t, s.next, early.value.0, early.value.1) else t
  }

  // _CreateLookup_NoLock and _CreateAddressLookup
  function OnStart(s: State, h: HostId, listCreated: bool, masterCreated: bool, startErr: Err,
                   early: Option<(Err, seq<string>)>, sourceCreated: bool): State
    requires h in s.hosts
  {
    var host := s.hosts[h];
    var n := host.name;
    if host.lookup != NoLookup then s
    else if n in s.table then
      if sourceCreated then Join(s, h, host)
      else
        var t := SetHost(s, h, host.(err := NoMemory));
        if |s.table[n]| == 1 then Retire(t, n, s.table[n][0]) else t
    else if !listCreated then SetHost(s, h, host.(err := NoMemory))
    else if !masterCreated then SetHost(s.(table := s.table[n := []]), h, host.(err := NoMemory))
    else if startErr != NoError then SetHost(s.(next := s.next + 1), h, host.(err := startErr))
    else if sourceCreated then Join(NewList(s, n, early), h, host)
    else SetHost(Retire(NewList(s, n, early), n, Master(s.next)), h, host.(err := NoMemory))
  }

  // What a host that gives up its lookup does to the table: its source leaves the list, and the last
  // one to leave takes the master and the entry with it.
  function Leave(s: State, h: HostId): State
    requires h in s.hosts
  {
    var host := s.hosts[h];
    if host.lookup == NoLookup || host.name !in s.table then s
    else
      var list := s.table[host.name];
      var me := Client(h, host.lookup.source);
      if me !in list then s
      else if |list| == 2 && Drop(list, me) != [] then Retire(s, host.name, Drop(list, me)[0])
      else s.(table := s.table[host.name := Drop(list, me)])
  }

  function OnCancel(s: State, h: HostId, sourceCreated: bool): State
    requires h in s.hosts
  {
    if s.hosts[h].lookup == NoLookup then s
    else
      var t := Leave(s, h);
      SetHost(t.(next := s.next + 1), h, s.hosts[h].(lookup := if sourceCreated then Cancelling(s.next) else NoLookup))
  }

  function OnRemoveClient(s: State, h: HostId): State
    requires h in s.hosts
  {
    var host := s.hosts[h];
    SetHost(Leave(s, h), h,
            host.(lookup := NoLookup, typed := host.typed && host.lookup == NoLookup, hasClient := false))
  }

  function Tell(host: Host): Host {
    host.(lookup := NoLookup, typed := false,
          told := if host.hasClient then host.told + [(host.err, host.info)] else host.told)
  }

  // The run loop calls the source that has been signalled.
  function OnEnter(s: State, h: HostId): State
    requires h in s.hosts
  {
    match s.hosts[h].lookup
    case Answered(source) => s.(performing := s.performing + {(h, source)})
    case Cancelling(source) => s.(cancelling := s.cancelling + {(h, source)})
    case _ => s
  }

  // _AddressLookupPerform does not look whether the host still has the lookup that it was called for, or
  // any.
  function OnPerform(s: State, h: HostId, source: nat): State
    requires h in s.hosts
  {
    var host := s.hosts[h];
    SetHost(s.(performing := s.performing - {(h, source)},
               nulls := if host.lookup == NoLookup then s.nulls + 1 else s.nulls),
            h, Tell(host))
  }

  // _HostCancel looks only whether it has any.
  function OnPerformCancel(s: State, h: HostId, source: nat): State
    requires h in s.hosts
  {
    var t := s.(cancelling := s.cancelling - {(h, source)});
    if s.hosts[h].lookup == NoLookup then t else SetHost(t, h, Tell(s.hosts[h]))
  }

  // What the master gives to a client: the answer, and a signal to whatever source the host has by then,
  // if it has one.  The result is stored under host->_type, which need not be that of addresses by then.
  function Answer(host: Host, err: Err, addresses: seq<string>, copied: bool): Host {
    var info := if err == NoError && copied then Addresses(addresses) else Null;
    host.(lookup := if host.lookup.Waiting? then Answered(host.lookup.source) else host.lookup,
          err := if err != NoError then err else if copied then host.err else NoMemory,
          info := if host.typed then info else host.info)
  }

  // The completion takes whatever list stands under its name out of the table.
  function OnTakeList(s: State, m: nat): State
    requires m in s.replied
  {
    var reply := s.replied[m];
    var t := s.(replied := s.replied - {m});
    if reply.name !in s.table then t
    else
      var list := s.table[reply.name];
      var u := t.(table := s.table - {reply.name});
      if |list| <= 1 then u
      else u.(answering := s.answering[m := Batch(list[0], list[1..], reply.err, reply.addresses)])
  }

  // It answers the next client.
  function OnAnswer(s: State, m: nat, copied: bool): State
    requires m in s.answering && s.answering[m].left != []
  {
    var batch := s.answering[m];
    var x := batch.left[0];
    var t := s.(answering := if |batch.left| == 1 then s.answering - {m}
                             else s.answering[m := batch.(left := batch.left[1..])]);
    if x.Client? && x.host in s.hosts then
      var host := s.hosts[x.host];
      SetHost(t.(nulls := if host.lookup == NoLookup then s.nulls + 1 else s.nulls),
              x.host, Answer(host, batch.err, batch.addresses, copied))
    else t
  }

  // A source is called once for each signal; calls and completions that are under way go on.
  ghost predicate CanHappen(s: State, e: Event) {
    match e
    case Start(h, _, _, _, _, _) => h in s.hosts
    case Cancel(h, _) => h in s.hosts
    case RemoveClient(h) => h in s.hosts
    case Enter(h) =>
      && h in s.hosts
      && (|| (s.hosts[h].lookup.Answered? && (h, s.hosts[h].lookup.source) !in s.performing)
          || (s.hosts[h].lookup.Cancelling? && (h, s.hosts[h].lookup.source) !in s.cancelling))
    case Perform(h, source) => h in s.hosts && (h, source) in s.performing
    case PerformCancel(h, source) => h in s.hosts && (h, source) in s.cancelling
    case MasterReplies(m, _, _) => m in s.running
    case TakeList(m) => m in s.replied
    case AnswerNext(m, _) => m in s.answering && s.answering[m].left != []
  }

  ghost function Step(s: State, e: Event): State
    requires CanHappen(s, e)
  {
    match e
    case Start(h, listCreated, masterCreated, startErr, early, sourceCreated) =>
      OnStart(s, h, listCreated, masterCreated, startErr, early, sourceCreated)
    case Cancel(h, sourceCreated) => OnCancel(s, h, sourceCreated)
    case RemoveClient(h) => OnRemoveClient(s, h)
    case Enter(h) => OnEnter(s, h)
    case Perform(h, source) => OnPerform(s, h, source)
    case PerformCancel(h, source) => OnPerformCancel(s, h, source)
    case MasterReplies(m, err, addresses) => OnMasterReplies(s, m, err, addresses)
    case TakeList(m) => OnTakeList(s, m)
    case AnswerNext(m, copied) => OnAnswer(s, m, copied)
  }
}
