// What the clients of shared lookups get: answers, signals and reports.
module HostAnswers {
  import opened Options
  import opened Sequences
  import opened HostLookup
  import opened HostLookupTheorems

  // Whatever else happens, a batch waits for its callback: only the callback takes clients from it, one at a
  // time and in order, and the answer stays the same for all of them.
  lemma BatchesWait(s: State, e: Event, m: nat)
    requires MastersOk(s) && CanHappen(s, e) && m in s.answering
    ensures var t, batch := Step(s, e), s.answering[m];
            if e.AnswerNext? && e.master == m then
              if |batch.left| == 1 then m !in t.answering
              else m in t.answering && t.answering[m] == batch.(left := batch.left[1..])
            else m in t.answering && t.answering[m] == batch
  {
    hide OnCancel, OnRemoveClient, OnStart, OnTakeList, OnAnswer;
    match e
    case TakeList(m') => TakingKeepsAnswering(s, m', m);
    case AnswerNext(m', copied) => AnsweringKeepsOthers(s, m', m, copied);
    case Start(h, listCreated, masterCreated, startErr, early, sourceCreated) =>
      StartKeepsAnswering(s, h, listCreated, masterCreated, startErr, early, sourceCreated);
    case Cancel(h, sourceCreated) => LeavingKeepsAnswering(s, h, sourceCreated);
    case RemoveClient(h) => LeavingKeepsAnswering(s, h, false);
    case _ =>
  }

  lemma TakingKeepsAnswering(s: State, m: nat, m': nat)
    requires MastersOk(s) && m in s.replied && m' in s.answering
    ensures var t := OnTakeList(s, m); m' in t.answering && t.answering[m'] == s.answering[m']
  {
  }

  lemma AnsweringKeepsOthers(s: State, m: nat, m': nat, copied: bool)
    requires m in s.answering && s.answering[m].left != [] && m' in s.answering
    ensures var t, batch := OnAnswer(s, m, copied), s.answering[m'];
            if m != m' then m' in t.answering && t.answering[m'] == batch
            else if |batch.left| == 1 then m' !in t.answering
            else m' in t.answering && t.answering[m'] == batch.(left := batch.left[1..])
  {
  }

  lemma StartKeepsAnswering(s: State, h: HostId, listCreated: bool, masterCreated: bool, startErr: Err,
                            early: Option<(Err, seq<string>)>, sourceCreated: bool)
    requires h in s.hosts
    ensures OnStart(s, h, listCreated, masterCreated, startErr, early, sourceCreated).answering == s.answering
  {
  }

  lemma LeavingKeepsAnswering(s: State, h: HostId, sourceCreated: bool)
    requires h in s.hosts
    ensures OnCancel(s, h, sourceCreated).answering == s.answering
    ensures OnRemoveClient(s, h).answering == s.answering
  {
  }

  // One answer: the client gets the error and, unless it has told its own callback already, the result; if it
  // still waits, the signal.  A client that has no lookup any more has no source, and NULL is signalled.
  lemma AnswerReaches(s: State, m: nat, copied: bool)
    requires BatchesOk(s) && m in s.answering && s.answering[m].left != []
    ensures var t, batch := OnAnswer(s, m, copied), s.answering[m];
            var h := batch.left[0].host;
            && batch.left[0].Client? && h in s.hosts && t.hosts == s.hosts[h := t.hosts[h]]
            && (s.hosts[h].lookup.Waiting? ==> t.hosts[h].lookup == Answered(s.hosts[h].lookup.source))
            && (!s.hosts[h].lookup.Waiting? ==> t.hosts[h].lookup == s.hosts[h].lookup)
            && t.nulls == s.nulls + (if s.hosts[h].lookup == NoLookup then 1 else 0)
            && (batch.err != NoError ==> t.hosts[h].err == batch.err)
            && (batch.err == NoError ==> t.hosts[h].err == if copied then s.hosts[h].err else NoMemory)
            && (!s.hosts[h].typed ==> t.hosts[h].info == s.hosts[h].info)
            && (s.hosts[h].typed ==>
                  t.hosts[h].info == if batch.err == NoError && copied then Addresses(batch.addresses) else Null)
  {
    BatchMembers(s, m);
  }

  // The callback's loop when nothing comes in between
  ghost function AnswerAll(s: State, m: nat, copied: set<HostId>): State
    decreases if m in s.answering then |s.answering[m].left| else 0
  {
    if m !in s.answering || s.answering[m].left == [] then s
    else
      var x := s.answering[m].left[0];
      AnswerAll(OnAnswer(s, m, x.Client? && x.host in copied), m, copied)
  }

  // The clients of a list have different hosts.
  ghost predicate HostsDiffer(left: seq<Entry>) {
    && (forall x :: x in left ==> x.Client?)
    && forall i, j :: 0 <= i < j < |left| ==> left[i].host != left[j].host
  }

  ghost predicate IsClient(left: seq<Entry>, h: HostId) {
    exists i :: 0 <= i < |left| && left[i].Client? && left[i].host == h
  }

  lemma {:induction false} AnswerAllMeans(s: State, m: nat, copied: set<HostId>)
    requires m in s.answering && s.answering[m].left != [] && HostsDiffer(s.answering[m].left)
    requires forall x :: x in s.answering[m].left ==> x.host in s.hosts
    ensures var t, batch := AnswerAll(s, m, copied), s.answering[m];
            && t == s.(hosts := t.hosts, answering := s.answering - {m}, nulls := t.nulls)
            && t.hosts.Keys == s.hosts.Keys
            && forall h :: h in s.hosts ==>
                 t.hosts[h] == if IsClient(batch.left, h)
                               then Answer(s.hosts[h], batch.err, batch.addresses, h in copied) else s.hosts[h]
    decreases |s.answering[m].left|
  {
    hide Answer, IsClient, HostsDiffer;
    var batch := s.answering[m];
    var left, x := batch.left, batch.left[0];
    FirstOrRest(left);
    var u := OnAnswer(s, m, x.host in copied);
    if |left| == 1 {
      assert AnswerAll(u, m, copied) == u;
    } else {
      assert u.answering[m] == batch.(left := left[1..]);
      AnswerAllMeans(u, m, copied);
      assert u.answering - {m} == s.answering - {m};
    }
  }

  lemma FirstOrRest(left: seq<Entry>)
    requires left != [] && HostsDiffer(left)
    ensures left[0].Client? && HostsDiffer(left[1..]) && forall x :: x in left[1..] ==> x in left
    ensures |left| == 1 ==> forall h :: !IsClient(left[1..], h)
    ensures forall h :: IsClient(left, h) <==> h == left[0].host || IsClient(left[1..], h)
    ensures !IsClient(left[1..], left[0].host)
  {
    forall h
      ensures IsClient(left, h) <==> h == left[0].host || IsClient(left[1..], h)
    {
      if IsClient(left[1..], h) {
        var i :| 0 <= i < |left[1..]| && left[1..][i].Client? && left[1..][i].host == h;
        assert left[i + 1].host == h;
      }
      if IsClient(left, h) {
        var i :| 0 <= i < |left| && left[i].Client? && left[i].host == h;
        assert i > 0 ==> left[1..][i - 1].host == h;
      }
    }
  }

  lemma ListsHostsDiffer(s: State, n: Name)
    requires TableOk(s) && n in s.table
    ensures HostsDiffer(s.table[n][1..])
    ensures forall x :: x in s.table[n][1..] ==> x.host in s.hosts
  {
    ClientsOf(s, n);
    var list := s.table[n];
    assert GoodList(s, n, list);
    assert forall i :: 0 <= i < |list[1..]| ==> list[1..][i] in list[1..];
    forall i, j | 0 <= i < j < |list[1..]|
      ensures list[1..][i].host != list[1..][j].host
    {
      assert list[i + 1] != list[j + 1];
      assert GoodClient(s, n, list[1..][i]) && GoodClient(s, n, list[1..][j]);
    }
  }

  // A master that takes its own list and is not interrupted answers exactly the hosts that wait for it, all
  // of them alike: with the same error or the same addresses, unless a host has no memory for its copy.
  lemma AnswersAllAlike(s: State, m: nat, copied: set<HostId>)
    requires Inv(s) && m in s.replied && s.replied[m].name in s.table && !IsForeign(s, m)
    ensures var n, t := s.replied[m].name, AnswerAll(OnTakeList(s, m), m, copied);
            && t.table == s.table - {n} && t.running == s.running && t.replied == s.replied - {m}
            && t.answering == s.answering && t.hosts.Keys == s.hosts.Keys
            && forall h :: h in s.hosts ==>
                 if AwaitedBy(s, n, h) then GetsReply(s.hosts[h], t.hosts[h], s.replied[m], h in copied)
                 else t.hosts[h] == s.hosts[h]
  {
    hide SourcesOk, GetsReply, Answer, AwaitedBy, IsClient, HostsDiffer, AnswerAll;
    hide TableOk, RunningOk, MastersOk, WaitersOk, BatchesOk;
    var n, u := s.replied[m].name, OnTakeList(s, m);
    var left := OwnListIsTaken(s, m);
    AnswerAllMeans(u, m, copied);
    assert u.answering - {m} == s.answering;
    forall h | h in s.hosts
      ensures AwaitedBy(s, n, h) <==> IsClient(left, h)
      ensures AwaitedBy(s, n, h) ==>
                GetsReply(s.hosts[h], Answer(s.hosts[h], s.replied[m].err, s.replied[m].addresses, h in copied),
                          s.replied[m], h in copied)
    {
      AwaitedIsClient(s, n, h);
      AwaitedGetsReply(s, m, h, h in copied);
    }
  }

  // What a waiting host gets from the master
  predicate GetsReply(before: Host, after: Host, reply: Reply, copied: bool) {
    && before.lookup.Waiting? && after.lookup == Answered(before.lookup.source)
    && (reply.err != NoError ==> after.err == reply.err && after.info == Null)
    && (reply.err == NoError && copied ==> after.err == before.err && after.info == Addresses(reply.addresses))
    && (reply.err == NoError && !copied ==> after.err == NoMemory && after.info == Null)
  }

  lemma AwaitedGetsReply(s: State, m: nat, h: HostId, copied: bool)
    requires SourcesOk(s) && m in s.replied && h in s.hosts
    ensures AwaitedBy(s, s.replied[m].name, h) ==>
              GetsReply(s.hosts[h], Answer(s.hosts[h], s.replied[m].err, s.replied[m].addresses, copied),
                        s.replied[m], copied)
  {
  }

  lemma OwnListIsTaken(s: State, m: nat) returns (left: seq<Entry>)
    requires Inv(s) && m in s.replied && s.replied[m].name in s.table && !IsForeign(s, m)
    ensures var n, reply := s.replied[m].name, s.replied[m];
            && left == s.table[n][1..] && left != [] && m !in s.answering
            && HostsDiffer(left) && (forall x :: x in left ==> x.host in s.hosts)
            && OnTakeList(s, m) ==
               s.(table := s.table - {n}, replied := s.replied - {m},
                  answering := s.answering[m := Batch(Master(m), left, reply.err, reply.addresses)])
  {
    var n := s.replied[m].name;
    hide OnTakeList;
    OwnListOutcome(s, m);
    ListsHostsDiffer(s, n);
    left := s.table[n][1..];
  }

  lemma AwaitedIsClient(s: State, n: Name, h: HostId)
    requires Inv(s) && n in s.table && h in s.hosts
    ensures AwaitedBy(s, n, h) <==> IsClient(s.table[n][1..], h)
  {
    ClientsOf(s, n);
    var left := s.table[n][1..];
    if AwaitedBy(s, n, h) {
      var x := Client(h, s.hosts[h].lookup.source);
      FirstIsMaster(s, n);
      assert InOwnList(s, h) && x in s.table[n];
      assert x in left;
      var i :| 0 <= i < |left| && left[i] == x;
    }
    if IsClient(left, h) {
      var i :| 0 <= i < |left| && left[i].Client? && left[i].host == h;
      ListedIsAwaited(s, n, left[i]);
    }
  }

  // --- What one event does to the hosts

  // The host that an event changes
  ghost function Acting(s: State, e: Event): Option<HostId>
    requires CanHappen(s, e)
  {
    match e
    case Start(h, _, _, _, _, _) => Some(h)
    case Cancel(h, _) => Some(h)
    case RemoveClient(h) => Some(h)
    case Perform(h, _) => Some(h)
    case PerformCancel(h, _) => Some(h)
    case AnswerNext(m, _) =>
      var x := s.answering[m].left[0];
      if x.Client? && x.host in s.hosts then Some(x.host) else None
    case _ => None
  }

  // How it changes that host
  predicate HostChange(e: Event, a: Host, b: Host) {
    match e
    case Start(_, _, _, _, _, _) =>
      && b.hasClient == a.hasClient && b.told == a.told
      && if b.accepted == a.accepted then b.lookup == a.lookup
         else a.lookup == NoLookup && b.lookup.Waiting? && b.accepted == a.accepted + 1
    case Cancel(_, sourceCreated) =>
      b == a.(lookup := b.lookup) && (b.lookup == NoLookup <==> a.lookup == NoLookup || !sourceCreated)
    case RemoveClient(_) => b == a.(lookup := NoLookup, typed := a.typed && a.lookup == NoLookup, hasClient := false)
    case Perform(_, _) => b == Tell(a)
    case PerformCancel(_, _) => b == if a.lookup == NoLookup then a else Tell(a)
    case AnswerNext(_, _) =>
      && b.hasClient == a.hasClient && b.told == a.told && b.accepted == a.accepted
      && (b.lookup == NoLookup <==> a.lookup == NoLookup)
    case _ => b == a
  }

  // The event changes just that host, and so.
  ghost predicate ChangesOnly(s: State, e: Event, t: State, h: HostId) {
    && h in s.hosts && h in t.hosts && t.hosts == s.hosts[h := t.hosts[h]]
    && HostChange(e, s.hosts[h], t.hosts[h])
  }

  lemma StepOnHosts(s: State, e: Event)
    requires CanHappen(s, e)
    ensures var t, acting := Step(s, e), Acting(s, e);
            if acting.None? then t.hosts == s.hosts else ChangesOnly(s, e, t, acting.value)
  {
    hide OnStart, OnCancel, OnRemoveClient, OnPerform, OnPerformCancel, OnAnswer, ChangesOnly;
    match e
    case Start(h, listCreated, masterCreated, startErr, early, sourceCreated) =>
      StartOnHosts(s, h, listCreated, masterCreated, startErr, early, sourceCreated);
    case Cancel(h, sourceCreated) => CancelOnHosts(s, h, sourceCreated);
    case RemoveClient(h) => RemovalOnHosts(s, h);
    case Perform(h, source) => CallsOnHosts(s, h, source);
    case PerformCancel(h, source) => CallsOnHosts(s, h, source);
    case AnswerNext(m, copied) => AnswerOnHosts(s, m, copied);
    case _ =>
  }

  lemma CallsOnHosts(s: State, h: HostId, source: nat)
    requires h in s.hosts
    ensures ChangesOnly(s, Perform(h, source), OnPerform(s, h, source), h)
    ensures ChangesOnly(s, PerformCancel(h, source), OnPerformCancel(s, h, source), h)
  {
  }

  lemma AnswerOnHosts(s: State, m: nat, copied: bool)
    requires m in s.answering && s.answering[m].left != []
    ensures var t, x := OnAnswer(s, m, copied), s.answering[m].left[0];
            if x.Client? && x.host in s.hosts then ChangesOnly(s, AnswerNext(m, copied), t, x.host)
            else t.hosts == s.hosts
  {
  }

  lemma StartOnHosts(s: State, h: HostId, listCreated: bool, masterCreated: bool, startErr: Err,
                     early: Option<(Err, seq<string>)>, sourceCreated: bool)
    requires h in s.hosts
    ensures ChangesOnly(s, Start(h, listCreated, masterCreated, startErr, early, sourceCreated),
                        OnStart(s, h, listCreated, masterCreated, startErr, early, sourceCreated), h)
  {
    hide OnStart, ChangesOnly;
    var host := s.hosts[h];
    if host.lookup == NoLookup && host.name in s.table {
      StartOnOldList(s, h, listCreated, masterCreated, startErr, early, sourceCreated);
    } else if host.lookup == NoLookup && listCreated && masterCreated && startErr == NoError {
      StartOnNewList(s, h, early, sourceCreated);
    } else {
      StartOnNoList(s, h, listCreated, masterCreated, startErr, early, sourceCreated);
    }
  }

  lemma StartOnNoList(s: State, h: HostId, listCreated: bool, masterCreated: bool, startErr: Err,
                      early: Option<(Err, seq<string>)>, sourceCreated: bool)
    requires h in s.hosts && (s.hosts[h].lookup == NoLookup ==> s.hosts[h].name !in s.table)
    requires s.hosts[h].lookup == NoLookup ==> !listCreated || !masterCreated || startErr != NoError
    ensures ChangesOnly(s, Start(h, listCreated, masterCreated, startErr, early, sourceCreated),
                        OnStart(s, h, listCreated, masterCreated, startErr, early, sourceCreated), h)
  {
    hide NewList, Join, Retire;
  }

  lemma StartOnOldList(s: State, h: HostId, listCreated: bool, masterCreated: bool, startErr: Err,
                       early: Option<(Err, seq<string>)>, sourceCreated: bool)
    requires h in s.hosts && s.hosts[h].lookup == NoLookup && s.hosts[h].name in s.table
    ensures ChangesOnly(s, Start(h, listCreated, masterCreated, startErr, early, sourceCreated),
                        OnStart(s, h, listCreated, masterCreated, startErr, early, sourceCreated), h)
  {
    hide NewList, Join, Retire;
    var host, n := s.hosts[h], s.hosts[h].name;
    if sourceCreated {
      JoinOnHosts(s, h, host);
    } else if |s.table[n]| == 1 {
      RetireKeepsHosts(SetHost(s, h, host.(err := NoMemory)), n, s.table[n][0]);
    }
  }

  lemma StartOnNewList(s: State, h: HostId, early: Option<(Err, seq<string>)>, sourceCreated: bool)
    requires h in s.hosts && s.hosts[h].lookup == NoLookup && s.hosts[h].name !in s.table
    ensures ChangesOnly(s, Start(h, true, true, NoError, early, sourceCreated),
                        OnStart(s, h, true, true, NoError, early, sourceCreated), h)
  {
    hide NewList, Join, Retire;
    var host, n := s.hosts[h], s.hosts[h].name;
    var u := NewList(s, n, early);
    NewListKeepsHosts(s, n, early);
    if sourceCreated {
      JoinOnHosts(u, h, host);
    } else {
      RetireKeepsHosts(u, n, Master(s.next));
    }
  }

  lemma JoinOnHosts(s: State, h: HostId, host: Host)
    ensures var t := Join(s, h, host);
            && t.hosts == s.hosts[h := t.hosts[h]] && t.hosts[h].lookup.Waiting?
            && t.hosts[h] == host.(lookup := t.hosts[h].lookup, typed := true, err := NoError,
                                   accepted := host.accepted + 1)
  {
  }

  lemma RetireKeepsHosts(s: State, n: Name, master: Entry)
    ensures Retire(s, n, master).hosts == s.hosts
  {
  }

  lemma NewListKeepsHosts(s: State, n: Name, early: Option<(Err, seq<string>)>)
    ensures NewList(s, n, early).hosts == s.hosts
  {
  }

  lemma CancelOnHosts(s: State, h: HostId, sourceCreated: bool)
    requires h in s.hosts
    ensures ChangesOnly(s, Cancel(h, sourceCreated), OnCancel(s, h, sourceCreated), h)
  {
    hide Leave;
    LeaveKeepsHosts(s, h);
  }

  lemma RemovalOnHosts(s: State, h: HostId)
    requires h in s.hosts
    ensures ChangesOnly(s, RemoveClient(h), OnRemoveClient(s, h), h)
  {
    hide Leave;
    LeaveKeepsHosts(s, h);
  }

  lemma LeaveKeepsHosts(s: State, h: HostId)
    requires h in s.hosts
    ensures Leave(s, h).hosts == s.hosts
  {
  }

  // --- Reports

  // Every accepted resolution of a host that has a client is under way or has been reported.
  ghost predicate Balanced(s: State) {
    forall h :: h in s.hosts ==> HostBalanced(s.hosts[h])
  }

  predicate HostBalanced(host: Host) {
    host.hasClient ==> host.accepted == |host.told| + if host.lookup == NoLookup then 0 else 1
  }

  // A cancel that cannot create its source drops a resolution without a report, and a call of
  // _AddressLookupPerform that finds no lookup any more reports one twice.
  ghost predicate Misreports(s: State, e: Event)
    requires CanHappen(s, e)
  {
    || (e.Cancel? && !e.sourceCreated && s.hosts[e.host].hasClient && s.hosts[e.host].lookup != NoLookup)
    || (e.Perform? && s.hosts[e.host].hasClient && s.hosts[e.host].lookup == NoLookup)
  }

  ghost predicate ReportsWell(s: State, es: seq<Event>)
    requires IsRun(s, es)
    decreases |es|
  {
    es == [] || (!Misreports(s, es[0]) && ReportsWell(Step(s, es[0]), es[1..]))
  }

  lemma StepKeepsBalance(s: State, e: Event)
    requires Balanced(s) && CanHappen(s, e)
    ensures Balanced(Step(s, e)) <==> !Misreports(s, e)
  {
    hide Step, HostBalanced, HostChange;
    var t, acting := Step(s, e), Acting(s, e);
    StepOnHosts(s, e);
    if acting.Some? {
      ChangeOnBalance(s, e, s.hosts[acting.value], t.hosts[acting.value]);
    }
  }

  lemma ChangeOnBalance(s: State, e: Event, a: Host, b: Host)
    requires CanHappen(s, e) && HostChange(e, a, b) && HostBalanced(a)
    requires Acting(s, e).Some? && Acting(s, e).value in s.hosts && s.hosts[Acting(s, e).value] == a
    ensures HostBalanced(b) <==> !Misreports(s, e)
  {
  }

  // Every accepted resolution is reported to its client exactly once, however it ends, as long as no event
  // misreports one.
  lemma {:induction false} ReportedOnce(s: State, es: seq<Event>)
    requires Balanced(s) && IsRun(s, es) && ReportsWell(s, es)
    ensures Balanced(After(s, es))
    decreases |es|
  {
    hide Balanced, Misreports, Step, CanHappen;
    if es != [] {
      StepKeepsBalance(s, es[0]);
      ReportedOnce(Step(s, es[0]), es[1..]);
    }
  }

  // --- When NULL is signalled

  // The event leaves the host without a lookup.
  predicate GivesUp(e: Event, h: HostId) {
    || e == RemoveClient(h) || e == Cancel(h, false)
    || ((e.Perform? || e.PerformCancel?) && e.host == h)
  }

  // What one event does to a host's lookup: it is gone if the host gives it up, or had none and is not
  // accepted.
  lemma StepOnLookup(s: State, e: Event, h: HostId)
    requires CanHappen(s, e) && h in s.hosts
    ensures var t := Step(s, e);
            && h in t.hosts && t.hosts[h].accepted >= s.hosts[h].accepted
            && (t.hosts[h].lookup == NoLookup <==>
                  GivesUp(e, h) || (s.hosts[h].lookup == NoLookup && t.hosts[h].accepted == s.hosts[h].accepted))
  {
    hide Step, CanHappen;
    StepOnHosts(s, e);
  }

  lemma {:induction false} HostStays(s: State, es: seq<Event>, h: HostId)
    requires IsRun(s, es) && h in s.hosts
    ensures h in After(s, es).hosts && After(s, es).hosts[h].accepted >= s.hosts[h].accepted
    decreases |es|
  {
    hide Step, CanHappen, GivesUp;
    if es != [] {
      StepOnLookup(s, es[0], h);
      HostStays(Step(s, es[0]), es[1..], h);
    }
  }

  ghost function AcceptedAfter(s: State, es: seq<Event>, h: HostId): nat
    requires IsRun(s, es) && h in s.hosts
  {
    HostStays(s, es, h);
    After(s, es).hosts[h].accepted
  }

  // In the course of the events the host gives up its lookup, and no resolution of it is accepted after that.
  ghost predicate GaveUp(s: State, es: seq<Event>, h: HostId)
    requires IsRun(s, es) && h in s.hosts
    decreases |es|
  {
    es != [] &&
    var t := Step(s, es[0]);
    StepOnLookup(s, es[0], h);
    || (GivesUp(es[0], h) && AcceptedAfter(t, es[1..], h) == t.hosts[h].accepted)
    || GaveUp(t, es[1..], h)
  }

  lemma {:induction false} LookupIsGoneExactly(s: State, es: seq<Event>, h: HostId)
    requires IsRun(s, es) && h in s.hosts
    ensures var t := After(s, es);
            && h in t.hosts && t.hosts[h].accepted >= s.hosts[h].accepted
            && (t.hosts[h].lookup == NoLookup <==>
                  || (s.hosts[h].lookup == NoLookup && t.hosts[h].accepted == s.hosts[h].accepted)
                  || GaveUp(s, es, h))
    decreases |es|
  {
    hide Step, CanHappen, GivesUp;
    if es != [] {
      StepOnLookup(s, es[0], h);
      LookupIsGoneExactly(Step(s, es[0]), es[1..], h);
    }
  }

  // A completion on its way keeps a rest of its list, whatever happens in between.
  lemma {:induction false} BatchOverRun(s: State, es: seq<Event>, m: nat)
    requires MastersOk(s) && IsRun(s, es) && m in s.answering
    ensures var t := After(s, es);
            m in t.answering ==> IsRest(t.answering[m].left, s.answering[m].left)
    decreases |es|
  {
    hide Step, CanHappen, MastersOk, IsRest;
    if es == [] {
      RestOfItself(s.answering[m].left);
    } else {
      var u := Step(s, es[0]);
      StepKeepsMasters(s, es[0]);
      if m in u.answering {
        BatchOverRun(u, es[1..], m);
        RestAfterStep(s, es[0], m);
        if m in After(s, es).answering {
          RestOfRest(After(s, es).answering[m].left, u.answering[m].left, s.answering[m].left);
        }
      } else {
        GoneStaysGone(u, es[1..], m);
      }
    }
  }

  lemma RestAfterStep(s: State, e: Event, m: nat)
    requires MastersOk(s) && CanHappen(s, e) && m in s.answering && m in Step(s, e).answering
    ensures var b, c := Step(s, e).answering[m].left, s.answering[m].left;
            b == c || (c != [] && b == c[1..])
  {
    hide Step, MastersOk;
    BatchesWait(s, e, m);
  }

  ghost predicate IsRest(rest: seq<Entry>, left: seq<Entry>) {
    exists k :: 0 <= k <= |left| && rest == left[k..]
  }

  lemma RestOfItself(left: seq<Entry>)
    ensures IsRest(left, left)
  {
    assert left == left[0..];
  }

  lemma RestOfRest(a: seq<Entry>, b: seq<Entry>, c: seq<Entry>)
    requires IsRest(a, b) && (b == c || (c != [] && b == c[1..]))
    ensures IsRest(a, c)
  {
    var k :| 0 <= k <= |b| && a == b[k..];
    if b != c {
      assert a == c[k + 1..];
    }
  }

  // A number that is no longer that of a master is never used again.
  ghost predicate IsSpent(s: State, m: nat) {
    m < s.next && m !in s.running && m !in s.replied && m !in s.answering
  }

  // No number comes back once it is spent, and one that has answered is spent.
  ghost predicate MastersFollow(s: State, t: State) {
    && MastersOk(t)
    && (forall m :: m in s.answering && m !in t.answering ==> IsSpent(t, m))
    && forall m :: IsSpent(s, m) ==> IsSpent(t, m)
  }

  lemma StepKeepsMasters(s: State, e: Event)
    requires MastersOk(s) && CanHappen(s, e)
    ensures MastersFollow(s, Step(s, e))
  {
    hide MastersOk, MastersFollow, OnStart, OnCancel, OnRemoveClient, OnTakeList, OnAnswer, OnMasterReplies;
    match e
    case Start(h, listCreated, masterCreated, startErr, early, sourceCreated) =>
      StartKeepsMasters(s, h, listCreated, masterCreated, startErr, early, sourceCreated);
    case Cancel(h, sourceCreated) => LeavingKeepsMasters(s, h, sourceCreated);
    case RemoveClient(h) => LeavingKeepsMasters(s, h, false);
    case MasterReplies(m, err, addresses) => ReplyKeepsMasters(s, m, err, addresses);
    case TakeList(m) => TakeListKeepsMasters(s, m);
    case AnswerNext(m, copied) => AnswerKeepsMasters(s, m, copied);
    case _ => SameMasters(s, Step(s, e));
  }

  lemma SameMasters(s: State, t: State)
    requires MastersOk(s) && t.running.Keys <= s.running.Keys && t.replied == s.replied && t.answering == s.answering
    requires s.next <= t.next
    ensures MastersFollow(s, t)
  {
  }

  lemma StartKeepsMasters(s: State, h: HostId, listCreated: bool, masterCreated: bool, startErr: Err,
                          early: Option<(Err, seq<string>)>, sourceCreated: bool)
    requires MastersOk(s) && h in s.hosts
    ensures MastersFollow(s, OnStart(s, h, listCreated, masterCreated, startErr, early, sourceCreated))
  {
    hide MastersOk, MastersFollow, NewList;
    var host, n := s.hosts[h], s.hosts[h].name;
    var t := OnStart(s, h, listCreated, masterCreated, startErr, early, sourceCreated);
    if host.lookup != NoLookup || n in s.table || !listCreated || !masterCreated || startErr != NoError {
      SameMasters(s, t);
    } else {
      NewListKeepsMasters(s, t, n, early);
    }
  }

  lemma NewListKeepsMasters(s: State, t: State, n: Name, early: Option<(Err, seq<string>)>)
    requires MastersOk(s)
    requires var u := NewList(s, n, early);
             && t.running.Keys <= u.running.Keys && t.replied == u.replied && t.answering == u.answering
             && t.next >= u.next
    ensures MastersFollow(s, t)
  {
  }

  lemma LeavingKeepsMasters(s: State, h: HostId, sourceCreated: bool)
    requires MastersOk(s) && h in s.hosts
    ensures MastersFollow(s, OnCancel(s, h, sourceCreated))
    ensures MastersFollow(s, OnRemoveClient(s, h))
  {
    hide MastersOk, MastersFollow;
    SameMasters(s, OnCancel(s, h, sourceCreated));
    SameMasters(s, OnRemoveClient(s, h));
  }

  lemma ReplyKeepsMasters(s: State, m: nat, err: Err, addresses: seq<string>)
    requires MastersOk(s) && m in s.running
    ensures MastersFollow(s, OnMasterReplies(s, m, err, addresses))
  {
  }

  lemma TakeListKeepsMasters(s: State, m: nat)
    requires MastersOk(s) && m in s.replied
    ensures MastersFollow(s, OnTakeList(s, m))
  {
  }

  lemma AnswerKeepsMasters(s: State, m: nat, copied: bool)
    requires MastersOk(s) && m in s.answering && s.answering[m].left != []
    ensures MastersFollow(s, OnAnswer(s, m, copied))
  {
  }

  lemma {:induction false} GoneStaysGone(s: State, es: seq<Event>, m: nat)
    requires MastersOk(s) && IsRun(s, es) && IsSpent(s, m)
    ensures m !in After(s, es).answering
    decreases |es|
  {
    hide Step, CanHappen, MastersOk;
    if es != [] {
      StepKeepsMasters(s, es[0]);
      GoneStaysGone(Step(s, es[0]), es[1..], m);
    }
  }

  // A completion that has taken its list signals NULL, whatever has happened since, if and only if the client
  // that comes next has given up its lookup since, with no resolution of it accepted after that.
  lemma NullSignalledExactly(s: State, m: nat, es: seq<Event>, copied: bool)
    requires Inv(s) && m in s.replied && s.replied[m].name in s.table && !IsForeign(s, m)
    requires IsRun(OnTakeList(s, m), es) && m in After(OnTakeList(s, m), es).answering
    requires After(OnTakeList(s, m), es).answering[m].left != []
    ensures var u := OnTakeList(s, m);
            var t := After(u, es);
            var x := t.answering[m].left[0];
            && x.Client? && x.host in u.hosts
            && (OnAnswer(t, m, copied).nulls == t.nulls + 1 <==> GaveUp(u, es, x.host))
            && (OnAnswer(t, m, copied).nulls == t.nulls <==> !GaveUp(u, es, x.host))
  {
    hide GaveUp, Inv, GoodClient, MastersOk;
    var u := OnTakeList(s, m);
    var left := TakenClientsAreWaiting(s, m);
    BatchOverRun(u, es, m);
    var t := After(u, es);
    var k :| 0 <= k <= |left| && t.answering[m].left == left[k..];
    var x := left[k];
    LookupIsGoneExactly(u, es, x.host);
  }

  lemma TakenClientsAreWaiting(s: State, m: nat) returns (left: seq<Entry>)
    requires Inv(s) && m in s.replied && s.replied[m].name in s.table && !IsForeign(s, m)
    ensures var u := OnTakeList(s, m);
            && MastersOk(u) && m in u.answering && u.answering[m].left == left
            && forall i :: 0 <= i < |left| ==>
                 left[i].Client? && left[i].host in u.hosts && u.hosts[left[i].host].lookup.Waiting?
  {
    var n := s.replied[m].name;
    left := OwnListIsTaken(s, m);
    ClientsOf(s, n);
    forall i | 0 <= i < |left|
      ensures GoodClient(s, n, left[i])
    {
      assert left[i] in s.table[n][1..];
    }
  }
}
