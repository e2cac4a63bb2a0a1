// What the client of a host is told in the end: over every run, what the master of its name has replied.
module HostReports {
  import opened Options
  import opened Sequences
  import opened HostLookup
  import opened HostLookupTheorems
  import opened HostAnswers

  // A host that waits: its source, its name, the master that has replied for the name, the reply, and what the
  // host's client had been told before
  datatype Query = Query(
    h: HostId, source: nat, name: Name, master: nat, err: Err, addresses: seq<string>, told: seq<(Err, Info)>)

  // What the client is to be told
  function Due(q: Query, copied: bool): (Err, Info) {
    if q.err != NoError then (q.err, Null)
    else if copied then (NoError, Addresses(q.addresses))
    else (NoMemory, Null)
  }

  predicate IsOf(x: Entry, h: HostId) {
    x.Client? && x.host == h
  }

  // No call for the host is under way.
  ghost predicate NoCalls(s: State, h: HostId) {
    forall y :: (h, y) !in s.performing && (h, y) !in s.cancelling
  }

  // No completion still has to answer the host.
  ghost predicate NoBatch(s: State, h: HostId) {
    forall m, x :: m in s.answering && x in s.answering[m].left ==> !IsOf(x, h)
  }

  predicate HostIs(s: State, q: Query, lookup: Lookup) {
    && q.h in s.hosts && s.hosts[q.h].name == q.name && s.hosts[q.h].lookup == lookup
    && s.hosts[q.h].hasClient && s.hosts[q.h].told == q.told
  }

  // The way of a reply: the host stands in the list of its master; the master has taken the list; it has
  // answered the host; the run loop has called the host's source; the client has been told.
  ghost predicate Listed(s: State, q: Query) {
    && HostIs(s, q, Waiting(q.source)) && NoCalls(s, q.h) && NoBatch(s, q.h)
    && q.master in s.replied && s.replied[q.master] == Reply(q.name, q.err, q.addresses)
    && q.name in s.table && [Master(q.master)] <= s.table[q.name]
  }

  ghost predicate Taken(s: State, q: Query) {
    && HostIs(s, q, Waiting(q.source)) && NoCalls(s, q.h)
    && q.master in s.answering && s.answering[q.master].err == q.err
    && s.answering[q.master].addresses == q.addresses
    && Client(q.h, q.source) in s.answering[q.master].left && NoDuplicates(s.answering[q.master].left)
    && forall m, x :: m in s.answering && x in s.answering[m].left && IsOf(x, q.h) ==>
         m == q.master && x == Client(q.h, q.source)
  }

  ghost predicate Signalled(s: State, q: Query, copied: bool) {
    && HostIs(s, q, Answered(q.source)) && NoCalls(s, q.h) && NoBatch(s, q.h)
    && (s.hosts[q.h].err, s.hosts[q.h].info) == Due(q, copied)
  }

  ghost predicate Called(s: State, q: Query, copied: bool) {
    && HostIs(s, q, Answered(q.source)) && NoBatch(s, q.h)
    && (s.hosts[q.h].err, s.hosts[q.h].info) == Due(q, copied)
    && (forall y :: (q.h, y) in s.performing <==> y == q.source) && forall y :: (q.h, y) !in s.cancelling
  }

  ghost predicate IsTold(s: State, q: Query, copied: bool) {
    && HostIs(s, q.(told := q.told + [Due(q, copied)]), NoLookup) && NoCalls(s, q.h) && NoBatch(s, q.h)
  }

  // --- What an event leaves as it is

  // The host itself starts or gives up a lookup.
  predicate OwnCall(e: Event, h: HostId) {
    (e.Start? || e.Cancel? || e.RemoveClient?) && e.host == h
  }

  lemma OtherHostStays(s: State, e: Event, h: HostId)
    requires CanHappen(s, e) && h in s.hosts && Acting(s, e) != Some(h)
    ensures h in Step(s, e).hosts && Step(s, e).hosts[h] == s.hosts[h]
  {
    hide Step, CanHappen, HostChange, Acting;
    StepOnHosts(s, e);
  }

  // Only entering a source brings a call under way.
  lemma CallsStay(s: State, e: Event, h: HostId)
    requires CanHappen(s, e) && e != Enter(h)
    ensures forall y :: (h, y) in Step(s, e).performing ==> (h, y) in s.performing
    ensures forall y :: (h, y) in Step(s, e).cancelling ==> (h, y) in s.cancelling
    ensures forall y :: (h, y) in s.performing && e != Perform(h, y) ==> (h, y) in Step(s, e).performing
  {
    hide OnStart, OnCancel, OnRemoveClient, OnTakeList, OnAnswer, OnMasterReplies;
    match e
    case Start(h', listCreated, masterCreated, startErr, early, sourceCreated) =>
      StartKeepsCalls(s, h', listCreated, masterCreated, startErr, early, sourceCreated);
    case Cancel(h', sourceCreated) => LeavingKeepsCalls(s, h', sourceCreated);
    case RemoveClient(h') => LeavingKeepsCalls(s, h', false);
    case MasterReplies(m, err, addresses) => CompletionKeepsCalls(s, m, err, addresses, false);
    case TakeList(m) => CompletionKeepsCalls(s, m, NoError, [], false);
    case AnswerNext(m, copied) => CompletionKeepsCalls(s, m, NoError, [], copied);
    case _ =>
  }

  lemma StartKeepsCalls(s: State, h: HostId, listCreated: bool, masterCreated: bool, startErr: Err,
                        early: Option<(Err, seq<string>)>, sourceCreated: bool)
    requires h in s.hosts
    ensures var t := OnStart(s, h, listCreated, masterCreated, startErr, early, sourceCreated);
            t.performing == s.performing && t.cancelling == s.cancelling
  {
    hide NewList;
    NewListKeepsCalls(s, s.hosts[h].name, early);
  }

  lemma NewListKeepsCalls(s: State, n: Name, early: Option<(Err, seq<string>)>)
    ensures var t := NewList(s, n, early); t.performing == s.performing && t.cancelling == s.cancelling
  {
  }

  lemma LeavingKeepsCalls(s: State, h: HostId, sourceCreated: bool)
    requires h in s.hosts
    ensures var t := OnCancel(s, h, sourceCreated); t.performing == s.performing && t.cancelling == s.cancelling
    ensures var t := OnRemoveClient(s, h); t.performing == s.performing && t.cancelling == s.cancelling
  {
  }

  lemma CompletionKeepsCalls(s: State, m: nat, err: Err, addresses: seq<string>, copied: bool)
    ensures m in s.running ==>
              var t := OnMasterReplies(s, m, err, addresses);
              t.performing == s.performing && t.cancelling == s.cancelling
    ensures m in s.replied ==>
              var t := OnTakeList(s, m); t.performing == s.performing && t.cancelling == s.cancelling
    ensures m in s.answering && s.answering[m].left != [] ==>
              var t := OnAnswer(s, m, copied); t.performing == s.performing && t.cancelling == s.cancelling
  {
  }

  // A new batch is the list that a completion has taken, and the completion is its own master's.
  lemma BatchesComeFromLists(s: State, e: Event, m: nat)
    requires Inv(s) && CanHappen(s, e) && !ComesLate(s, e) && m in Step(s, e).answering
    ensures m in s.answering
         || (e == TakeList(m) && m in s.replied && s.replied[m].name in s.table && !IsForeign(s, m)
             && Step(s, e).answering[m].left == s.table[s.replied[m].name][1..])
  {
    hide OnStart, OnCancel, OnRemoveClient, Inv, IsForeign, OnTakeList, OnAnswer;
    match e
    case TakeList(m') => TakenBatch(s, m', m);
    case AnswerNext(m', copied) => FewerBatches(s, m', copied);
    case Start(h, listCreated, masterCreated, startErr, early, sourceCreated) =>
      StartKeepsAnswering(s, h, listCreated, masterCreated, startErr, early, sourceCreated);
    case Cancel(h, sourceCreated) => LeavingKeepsAnswering(s, h, sourceCreated);
    case RemoveClient(h) => LeavingKeepsAnswering(s, h, false);
    case _ =>
  }

  lemma TakenBatch(s: State, m: nat, m': nat)
    requires Inv(s) && m in s.replied && !IsForeign(s, m) && m' in OnTakeList(s, m).answering
    ensures || m' in s.answering
            || (m' == m && s.replied[m].name in s.table
                && OnTakeList(s, m).answering[m].left == s.table[s.replied[m].name][1..])
  {
    hide Inv, IsForeign;
  }

  lemma FewerBatches(s: State, m: nat, copied: bool)
    requires m in s.answering && s.answering[m].left != []
    ensures forall m' :: m' in OnAnswer(s, m, copied).answering ==> m' in s.answering
  {
  }

  // The clients of a batch after the event were its clients before, or have just been taken from a list.
  lemma ClientsOfBatches(s: State, e: Event, m: nat, x: Entry)
    requires Inv(s) && CanHappen(s, e) && !ComesLate(s, e)
    requires m in Step(s, e).answering && x in Step(s, e).answering[m].left
    ensures || (m in s.answering && x in s.answering[m].left)
            || (e == TakeList(m) && m in s.replied && s.replied[m].name in s.table && !IsForeign(s, m)
                && x in s.table[s.replied[m].name]
                && GoodClient(s, s.replied[m].name, x))
  {
    hide Step, CanHappen, ComesLate, IsForeign;
    BatchesComeFromLists(s, e, m);
    if m in s.answering {
      BatchesWait(s, e, m);
    } else {
      ClientsOf(s, s.replied[m].name);
    }
  }

  // A list that stays keeps its master.
  lemma HeadStays(s: State, e: Event, n: Name, m: nat)
    requires CanHappen(s, e) && n in s.table && [Master(m)] <= s.table[n] && n in Step(s, e).table
    ensures [Master(m)] <= Step(s, e).table[n]
  {
    hide OnStart, OnCancel, OnRemoveClient, OnTakeList, OnAnswer;
    match e
    case Start(h, listCreated, masterCreated, startErr, early, sourceCreated) =>
      StartKeepsHead(s, h, listCreated, masterCreated, startErr, early, sourceCreated, n, m);
    case Cancel(h, sourceCreated) => LeavingKeepsHead(s, h, sourceCreated, n, m);
    case RemoveClient(h) => LeavingKeepsHead(s, h, false, n, m);
    case TakeList(m') => CompletionKeepsHead(s, m', false, n);
    case AnswerNext(m', copied) => CompletionKeepsHead(s, m', copied, n);
    case _ =>
  }

  lemma StartKeepsHead(s: State, h: HostId, listCreated: bool, masterCreated: bool, startErr: Err,
                       early: Option<(Err, seq<string>)>, sourceCreated: bool, n: Name, m: nat)
    requires h in s.hosts && n in s.table && [Master(m)] <= s.table[n]
    ensures var t := OnStart(s, h, listCreated, masterCreated, startErr, early, sourceCreated);
            n in t.table ==> [Master(m)] <= t.table[n]
  {
  }

  lemma LeavingKeepsHead(s: State, h: HostId, sourceCreated: bool, n: Name, m: nat)
    requires h in s.hosts && n in s.table && [Master(m)] <= s.table[n]
    ensures var t := OnCancel(s, h, sourceCreated); n in t.table ==> [Master(m)] <= t.table[n]
    ensures var t := OnRemoveClient(s, h); n in t.table ==> [Master(m)] <= t.table[n]
  {
    hide Leave;
    LeaveKeepsHead(s, h, n, m);
  }

  lemma LeaveKeepsHead(s: State, h: HostId, n: Name, m: nat)
    requires h in s.hosts && n in s.table && [Master(m)] <= s.table[n]
    ensures n in Leave(s, h).table ==> [Master(m)] <= Leave(s, h).table[n]
  {
    hide Drop;
    var host := s.hosts[h];
    if host.lookup != NoLookup && host.name == n {
      HeadIsNotDropped(s.table[n], m, Client(h, host.lookup.source));
    }
  }

  lemma HeadIsNotDropped(list: seq<Entry>, m: nat, me: Entry)
    requires [Master(m)] <= list && me.Client?
    ensures [Master(m)] <= Drop(list, me)
  {
  }

  lemma CompletionKeepsHead(s: State, m: nat, copied: bool, n: Name)
    ensures m in s.replied ==>
              var t := OnTakeList(s, m); n in t.table ==> n in s.table && t.table[n] == s.table[n]
    ensures m in s.answering && s.answering[m].left != [] ==> OnAnswer(s, m, copied).table == s.table
  {
  }

  // A reply waits for its completion.
  lemma RepliesStay(s: State, e: Event, m: nat)
    requires MastersOk(s) && CanHappen(s, e) && m in s.replied && e != TakeList(m)
    ensures m in Step(s, e).replied && Step(s, e).replied[m] == s.replied[m]
  {
    hide OnCancel, OnRemoveClient, OnStart, OnTakeList, OnAnswer;
    match e
    case Start(h, listCreated, masterCreated, startErr, early, sourceCreated) =>
      StartKeepsReplies(s, h, listCreated, masterCreated, startErr, early, sourceCreated, m);
    case Cancel(h, sourceCreated) => LeavingKeepsReplies(s, h, sourceCreated);
    case RemoveClient(h) => LeavingKeepsReplies(s, h, false);
    case TakeList(m') => CompletionKeepsReplies(s, m', false);
    case AnswerNext(m', copied) => CompletionKeepsReplies(s, m', copied);
    case _ =>
  }

  lemma StartKeepsReplies(s: State, h: HostId, listCreated: bool, masterCreated: bool, startErr: Err,
                          early: Option<(Err, seq<string>)>, sourceCreated: bool, m: nat)
    requires MastersOk(s) && h in s.hosts && m in s.replied
    ensures var t := OnStart(s, h, listCreated, masterCreated, startErr, early, sourceCreated);
            m in t.replied && t.replied[m] == s.replied[m]
  {
  }

  lemma LeavingKeepsReplies(s: State, h: HostId, sourceCreated: bool)
    requires h in s.hosts
    ensures OnCancel(s, h, sourceCreated).replied == s.replied && OnRemoveClient(s, h).replied == s.replied
  {
  }

  lemma CompletionKeepsReplies(s: State, m: nat, copied: bool)
    ensures m in s.replied ==> OnTakeList(s, m).replied == s.replied - {m}
    ensures m in s.answering && s.answering[m].left != [] ==> OnAnswer(s, m, copied).replied == s.replied
  {
  }

  // --- The way of a reply, event by event

  // Nobody but the host's own master gets to answer a listed host.
  lemma ListedHasNoBatch(s: State, e: Event, q: Query)
    requires Inv(s) && CanHappen(s, e) && !ComesLate(s, e) && Listed(s, q) && e != TakeList(q.master)
    ensures NoBatch(Step(s, e), q.h)
  {
    hide Step, CanHappen, ComesLate, Inv;
    var t := Step(s, e);
    assert s.table[q.name][0] == Master(q.master);
    forall m, x | m in t.answering && x in t.answering[m].left
      ensures !IsOf(x, q.h)
    {
      ClientsOfBatches(s, e, m, x);
    }
  }

  lemma NotActing(s: State, e: Event, h: HostId)
    requires CanHappen(s, e) && NoCalls(s, h) && NoBatch(s, h) && !OwnCall(e, h)
    ensures Acting(s, e) != Some(h)
  {
    match e
    case AnswerNext(m, _) =>
      var x := s.answering[m].left[0];
      assert x in s.answering[m].left;
      assert !IsOf(x, h);
    case Perform(h', source) => assert (h', source) in s.performing;
    case PerformCancel(h', source) => assert (h', source) in s.cancelling;
    case _ =>
  }

  lemma ListedGoesOn(s: State, e: Event, q: Query)
    requires Inv(s) && CanHappen(s, e) && Listed(s, q)
    requires !LosesMaster(s, e) && !ComesLate(s, e) && !OwnCall(e, q.h) && e != TakeList(q.master)
    ensures Listed(Step(s, e), q)
  {
    hide Step, CanHappen, ComesLate, LosesMaster, OwnCall, NoBatch, Acting, Inv;
    var t := Step(s, e);
    NotActing(s, e, q.h);
    OtherHostStays(s, e, q.h);
    NotEntered(s, e, q.h);
    CallsStay(s, e, q.h);
    ListedHasNoBatch(s, e, q);
    MastersAreOk(s);
    RepliesStay(s, e, q.master);
    StepKeepsInv(s, e);
    WaitsInOwnList(t, q);
    HeadStays(s, e, q.name, q.master);
  }

  lemma NotEntered(s: State, e: Event, h: HostId)
    requires CanHappen(s, e) && h in s.hosts && (s.hosts[h].lookup.Waiting? || s.hosts[h].lookup.NoLookup?)
    ensures e != Enter(h)
  {
  }

  lemma WaitsInOwnList(s: State, q: Query)
    requires Inv(s) && HostIs(s, q, Waiting(q.source)) && NoBatch(s, q.h)
    ensures q.name in s.table && Client(q.h, q.source) in s.table[q.name]
  {
    assert IsOf(Client(q.h, q.source), q.h);
  }

  // The master takes the list.
  lemma ListIsTaken(s: State, q: Query)
    requires Inv(s) && Listed(s, q)
    ensures Taken(OnTakeList(s, q.master), q)
  {
    hide Inv;
    WaitsInOwnList(s, q);
    var left := OwnListIsTaken(s, q.master);
    ListedIsGood(s, q.name);
  }

  lemma ListedIsGood(s: State, n: Name)
    requires Inv(s) && n in s.table
    ensures var list := s.table[n];
            && |list| >= 2 && list[0].Master? && NoDuplicates(list[1..])
            && (forall x :: x in list && x != list[0] ==> GoodClient(s, n, x) && x in list[1..])
            && forall x :: x in list[1..] ==> GoodClient(s, n, x)
  {
    var list := s.table[n];
    assert GoodList(s, n, list);
    assert forall i :: 0 <= i < |list[1..]| ==> list[1..][i] == list[i + 1];
    ClientsOf(s, n);
  }

  lemma TakenHasNoOtherBatch(s: State, e: Event, q: Query, m: nat, x: Entry)
    requires Inv(s) && CanHappen(s, e) && !ComesLate(s, e) && Taken(s, q)
    requires m in Step(s, e).answering && x in Step(s, e).answering[m].left && IsOf(x, q.h)
    ensures m == q.master && x == Client(q.h, q.source)
  {
    hide Step, CanHappen, ComesLate, Inv;
    ClientsOfBatches(s, e, m, x);
    TakenIsNotListed(s, q);
  }

  lemma TakenIsNotListed(s: State, q: Query)
    requires Inv(s) && Taken(s, q)
    ensures forall n :: n in s.table ==> Client(q.h, q.source) !in s.table[n]
  {
    assert GoodBatch(s, s.answering[q.master].left);
  }

  // The answer that comes next in the master's batch is not for the host.
  predicate AnswersOther(s: State, e: Event, q: Query) {
    e.AnswerNext? && e.master == q.master && q.master in s.answering && s.answering[q.master].left != []
    && s.answering[q.master].left[0] != Client(q.h, q.source)
  }

  lemma TakenGoesOn(s: State, e: Event, q: Query)
    requires Inv(s) && CanHappen(s, e) && Taken(s, q) && !ComesLate(s, e) && !OwnCall(e, q.h)
    requires !(e.AnswerNext? && e.master == q.master) || AnswersOther(s, e, q)
    ensures Taken(Step(s, e), q)
  {
    hide Step, ComesLate, OwnCall, Inv, Acting;
    var t := Step(s, e);
    TakenIsNotActing(s, e, q);
    OtherHostStays(s, e, q.h);
    NotEntered(s, e, q.h);
    CallsStay(s, e, q.h);
    MastersAreOk(s);
    BatchesWait(s, e, q.master);
    RestOfBatch(s.answering[q.master].left, Client(q.h, q.source));
    forall m, x | m in t.answering && x in t.answering[m].left && IsOf(x, q.h)
      ensures m == q.master && x == Client(q.h, q.source)
    {
      TakenHasNoOtherBatch(s, e, q, m, x);
    }
  }

  lemma RestOfBatch(left: seq<Entry>, x: Entry)
    requires NoDuplicates(left) && x in left
    ensures NoDuplicates(left[1..])
    ensures left[0] != x ==> |left| > 1 && x in left[1..]
    ensures left[0] == x ==> x !in left[1..]
  {
    assert forall i :: 0 <= i < |left[1..]| ==> left[1..][i] == left[i + 1];
  }

  lemma TakenIsNotActing(s: State, e: Event, q: Query)
    requires Inv(s) && CanHappen(s, e) && Taken(s, q) && !OwnCall(e, q.h)
    requires !(e.AnswerNext? && e.master == q.master) || AnswersOther(s, e, q)
    ensures Acting(s, e) != Some(q.h)
  {
    match e
    case AnswerNext(m, _) =>
      var x := s.answering[m].left[0];
      assert x in s.answering[m].left;
      assert IsOf(x, q.h) ==> m == q.master && x == Client(q.h, q.source);
    case Perform(h', source) => assert (h', source) in s.performing;
    case PerformCancel(h', source) => assert (h', source) in s.cancelling;
    case _ =>
  }

  // The master answers the host: with its error, with its addresses, or, without memory for them, with that.
  lemma HostIsAnswered(s: State, q: Query, copied: bool)
    requires Inv(s) && Taken(s, q) && s.answering[q.master].left[0] == Client(q.h, q.source)
    ensures Signalled(OnAnswer(s, q.master, copied), q, copied)
  {
    hide TableOk, RunningOk, WaitersOk, MastersOk;
    var t := OnAnswer(s, q.master, copied);
    AnswerReaches(s, q.master, copied);
    CompletionKeepsCalls(s, q.master, NoError, [], copied);
    RestOfBatch(s.answering[q.master].left, Client(q.h, q.source));
    forall m, x | m in t.answering && x in t.answering[m].left
      ensures !IsOf(x, q.h)
    {
      AnsweringKeepsOthers(s, q.master, m, copied);
    }
  }

  lemma SignalledHasNoBatch(s: State, e: Event, q: Query)
    requires Inv(s) && CanHappen(s, e) && !ComesLate(s, e) && NoBatch(s, q.h)
    requires q.h in s.hosts && !s.hosts[q.h].lookup.Waiting?
    ensures NoBatch(Step(s, e), q.h)
  {
    hide Step, CanHappen, ComesLate, Inv;
    var t := Step(s, e);
    forall m, x | m in t.answering && x in t.answering[m].left
      ensures !IsOf(x, q.h)
    {
      ClientsOfBatches(s, e, m, x);
    }
  }

  lemma SignalledGoesOn(s: State, e: Event, q: Query, copied: bool)
    requires Inv(s) && CanHappen(s, e) && Signalled(s, q, copied) && !ComesLate(s, e) && !OwnCall(e, q.h)
    requires e != Enter(q.h)
    ensures Signalled(Step(s, e), q, copied)
  {
    hide Step, CanHappen, ComesLate, OwnCall, NoBatch, Acting, Inv;
    NotActing(s, e, q.h);
    OtherHostStays(s, e, q.h);
    CallsStay(s, e, q.h);
    SignalledHasNoBatch(s, e, q);
  }

  // The run loop calls the source.
  lemma SourceIsCalled(s: State, q: Query, copied: bool)
    requires Signalled(s, q, copied)
    ensures Called(OnEnter(s, q.h), q, copied)
  {
  }

  lemma CalledGoesOn(s: State, e: Event, q: Query, copied: bool)
    requires Inv(s) && CanHappen(s, e) && Called(s, q, copied) && !ComesLate(s, e) && !OwnCall(e, q.h)
    requires e != Perform(q.h, q.source)
    ensures Called(Step(s, e), q, copied)
  {
    hide Step, ComesLate, OwnCall, NoBatch, Acting, Inv;
    CalledIsNotActing(s, e, q, copied);
    OtherHostStays(s, e, q.h);
    CallsStay(s, e, q.h);
    SignalledHasNoBatch(s, e, q);
  }

  lemma CalledIsNotActing(s: State, e: Event, q: Query, copied: bool)
    requires CanHappen(s, e) && Called(s, q, copied) && !OwnCall(e, q.h) && e != Perform(q.h, q.source)
    ensures Acting(s, e) != Some(q.h) && e != Enter(q.h)
  {
    assert (q.h, q.source) in s.performing;
    match e
    case AnswerNext(m, _) =>
      var x := s.answering[m].left[0];
      assert x in s.answering[m].left;
      assert !IsOf(x, q.h);
    case Perform(h', source) => assert (h', source) in s.performing;
    case PerformCancel(h', source) => assert (h', source) in s.cancelling;
    case _ =>
  }

  // The call ends the lookup and tells the client.
  lemma ClientIsTold(s: State, q: Query, copied: bool)
    requires Called(s, q, copied)
    ensures IsTold(OnPerform(s, q.h, q.source), q, copied)
  {
  }

  lemma ToldGoesOn(s: State, e: Event, q: Query, copied: bool)
    requires Inv(s) && CanHappen(s, e) && IsTold(s, q, copied) && !ComesLate(s, e) && !OwnCall(e, q.h)
    ensures IsTold(Step(s, e), q, copied)
  {
    hide Step, CanHappen, ComesLate, OwnCall, NoBatch, Acting, Inv;
    NotActing(s, e, q.h);
    OtherHostStays(s, e, q.h);
    NotEntered(s, e, q.h);
    CallsStay(s, e, q.h);
    SignalledHasNoBatch(s, e, q);
  }

  // --- Whole runs

  ghost predicate OnItsWay(s: State, q: Query, copied: bool) {
    Listed(s, q) || Taken(s, q) || Signalled(s, q, copied) || Called(s, q, copied) || IsTold(s, q, copied)
  }

  // The event is the answer to the host, with or without a copy of the addresses.
  ghost predicate IsAnswerTo(s: State, e: Event, m: nat, x: Entry) {
    e.AnswerNext? && e.master == m && m in s.answering && s.answering[m].left != [] && s.answering[m].left[0] == x
  }

  predicate IsCallFor(e: Event, h: HostId) {
    e.Perform? && e.host == h
  }

  lemma WaitingGoesOn(s: State, e: Event, q: Query, copied: bool)
    requires Inv(s) && CanHappen(s, e) && (Listed(s, q) || Taken(s, q))
    requires !LosesMaster(s, e) && !ComesLate(s, e) && !OwnCall(e, q.h)
    requires IsAnswerTo(s, e, q.master, Client(q.h, q.source)) ==> e.copied == copied
    ensures OnItsWay(Step(s, e), q, copied) && !IsCallFor(e, q.h) && !IsTold(Step(s, e), q, copied)
  {
    hide OnAnswer, OnTakeList, Inv, ComesLate, LosesMaster;
    NoCallFor(s, e, q.h);
    if Listed(s, q) {
      if e == TakeList(q.master) {
        ListIsTaken(s, q);
      } else {
        hide Step;
        ListedGoesOn(s, e, q);
      }
    } else if e.AnswerNext? && e.master == q.master && !AnswersOther(s, e, q) {
      HostIsAnswered(s, q, e.copied);
    } else {
      hide Step;
      TakenGoesOn(s, e, q);
    }
  }

  lemma NoCallFor(s: State, e: Event, h: HostId)
    requires CanHappen(s, e) && NoCalls(s, h)
    ensures !IsCallFor(e, h)
  {
    match e
    case Perform(h', source) => assert (h', source) in s.performing;
    case _ =>
  }

  lemma AnsweredGoesOn(s: State, e: Event, q: Query, copied: bool)
    requires Inv(s) && CanHappen(s, e)
    requires Signalled(s, q, copied) || Called(s, q, copied) || IsTold(s, q, copied)
    requires !LosesMaster(s, e) && !ComesLate(s, e) && !OwnCall(e, q.h)
    ensures OnItsWay(Step(s, e), q, copied)
    ensures IsTold(Step(s, e), q, copied) <==> IsTold(s, q, copied) || IsCallFor(e, q.h)
  {
    hide OnEnter, OnPerform, Inv, ComesLate, LosesMaster;
    if Signalled(s, q, copied) {
      NoCallFor(s, e, q.h);
      if e == Enter(q.h) {
        SourceIsCalled(s, q, copied);
      } else {
        hide Step;
        SignalledGoesOn(s, e, q, copied);
      }
    } else if Called(s, q, copied) {
      if e == Perform(q.h, q.source) {
        ClientIsTold(s, q, copied);
      } else {
        hide Step;
        CalledGoesOn(s, e, q, copied);
        CalledNoOther(s, e, q, copied);
      }
    } else {
      hide Step;
      NoCallFor(s, e, q.h);
      ToldGoesOn(s, e, q, copied);
    }
  }

  lemma CalledNoOther(s: State, e: Event, q: Query, copied: bool)
    requires CanHappen(s, e) && Called(s, q, copied) && e != Perform(q.h, q.source)
    ensures !IsCallFor(e, q.h)
  {
    match e
    case Perform(h', source) => assert (h', source) in s.performing;
    case _ =>
  }

  // `copied` tells whether the answer to the host, if the run has it, can copy the addresses.
  ghost predicate CopiedAs(s: State, es: seq<Event>, m: nat, x: Entry, copied: bool)
    requires IsRun(s, es)
    decreases |es|
  {
    es == [] ||
    ((IsAnswerTo(s, es[0], m, x) ==> es[0].copied == copied) && CopiedAs(Step(s, es[0]), es[1..], m, x, copied))
  }

  ghost predicate HasCallFor(es: seq<Event>, h: HostId) {
    exists i :: 0 <= i < |es| && IsCallFor(es[i], h)
  }

  lemma FirstOrLaterCall(es: seq<Event>, h: HostId)
    requires es != []
    ensures HasCallFor(es, h) <==> IsCallFor(es[0], h) || HasCallFor(es[1..], h)
  {
    hide IsCallFor;
    assert forall i :: 0 <= i < |es[1..]| ==> es[1..][i] == es[i + 1];
    if HasCallFor(es, h) && !IsCallFor(es[0], h) {
      var i :| 0 <= i < |es| && IsCallFor(es[i], h);
      assert IsCallFor(es[1..][i - 1], h);
    }
    if HasCallFor(es[1..], h) {
      var i :| 0 <= i < |es[1..]| && IsCallFor(es[1..][i], h);
      assert IsCallFor(es[i + 1], h);
    }
  }

  lemma {:induction false} GoesAllTheWay(s: State, es: seq<Event>, q: Query, copied: bool)
    requires Inv(s) && OnItsWay(s, q, copied) && IsRun(s, es) && RunsWell(s, es)
    requires forall i :: 0 <= i < |es| ==> !OwnCall(es[i], q.h)
    requires CopiedAs(s, es, q.master, Client(q.h, q.source), copied)
    ensures var t := After(s, es);
            OnItsWay(t, q, copied) && (IsTold(t, q, copied) <==> IsTold(s, q, copied) || HasCallFor(es, q.h))
    decreases |es|
  {
    hide Inv, OnItsWay, Step, CanHappen, LosesMaster, ComesLate, OwnCall, IsAnswerTo, IsCallFor, HasCallFor, IsTold;
    if es == [] {
      NoCallYet(q.h);
    } else {
      var u := Step(s, es[0]);
      OneEventFurther(s, es[0], q, copied);
      StepKeepsInv(s, es[0]);
      FirstOrLaterCall(es, q.h);
      GoesAllTheWay(u, es[1..], q, copied);
    }
  }

  lemma NoCallYet(h: HostId)
    ensures !HasCallFor([], h)
  {
  }

  lemma OneEventFurther(s: State, e: Event, q: Query, copied: bool)
    requires Inv(s) && CanHappen(s, e) && OnItsWay(s, q, copied)
    requires !LosesMaster(s, e) && !ComesLate(s, e) && !OwnCall(e, q.h)
    requires IsAnswerTo(s, e, q.master, Client(q.h, q.source)) ==> e.copied == copied
    ensures OnItsWay(Step(s, e), q, copied)
    ensures IsTold(Step(s, e), q, copied) <==> IsTold(s, q, copied) || IsCallFor(e, q.h)
  {
    hide Inv, Step, CanHappen, LosesMaster, ComesLate, OwnCall, IsAnswerTo, IsCallFor, OnItsWay;
    Stages(s, q, copied);
    if Listed(s, q) || Taken(s, q) {
      WaitingGoesOn(s, e, q, copied);
    } else {
      AnsweredGoesOn(s, e, q, copied);
    }
  }

  lemma Stages(s: State, q: Query, copied: bool)
    ensures OnItsWay(s, q, copied) <==>
            Listed(s, q) || Taken(s, q) || Signalled(s, q, copied) || Called(s, q, copied) || IsTold(s, q, copied)
    ensures Listed(s, q) || Taken(s, q) ==> !IsTold(s, q, copied)
  {
  }

  // Over every run that begins with the reply of a master, and in which nothing comes late and the host neither
  // starts nor gives up a lookup: its client is told nothing until its source is called, and then once, with the
  // error that the master replied, or with its addresses, or, if they could not be copied, with that.
  lemma ReplyIsTold(s: State, m: nat, err: Err, addresses: seq<string>, es: seq<Event>, h: HostId, copied: bool)
    requires Inv(s) && m in s.running && AwaitedBy(s, s.running[m], h)
    requires s.hosts[h].hasClient && NoCalls(s, h) && NoBatch(s, h)
    requires var all := [MasterReplies(m, err, addresses)] + es;
             && IsRun(s, all) && RunsWell(s, all)
             && CopiedAs(s, all, m, Client(h, s.hosts[h].lookup.source), copied)
    requires forall i :: 0 <= i < |es| ==> !OwnCall(es[i], h)
    ensures var t := After(s, [MasterReplies(m, err, addresses)] + es);
            && h in t.hosts
            && t.hosts[h].told == s.hosts[h].told +
                 if !HasCallFor(es, h) then []
                 else if err != NoError then [(err, Null)]
                 else if copied then [(NoError, Addresses(addresses))]
                 else [(NoMemory, Null)]
  {
    hide OnItsWay, HasCallFor, CopiedAs, OwnCall;
    var q := Query(h, s.hosts[h].lookup.source, s.running[m], m, err, addresses, s.hosts[h].told);
    var u := ReplyIsListed(s, q);
    FirstEvent(s, MasterReplies(m, err, addresses), es, m, Client(h, q.source), copied);
    MasterRepliesKeepsInv(s, m, err, addresses);
    Stages(u, q, copied);
    GoesAllTheWay(u, es, q, copied);
    WhatIsTold(After(u, es), q, copied);
  }

  lemma FirstEvent(s: State, e: Event, es: seq<Event>, m: nat, x: Entry, copied: bool)
    requires IsRun(s, [e] + es) && RunsWell(s, [e] + es) && CopiedAs(s, [e] + es, m, x, copied)
    ensures CanHappen(s, e) && IsRun(Step(s, e), es) && RunsWell(Step(s, e), es)
    ensures CopiedAs(Step(s, e), es, m, x, copied) && After(s, [e] + es) == After(Step(s, e), es)
  {
    hide CanHappen, Step, LosesMaster, ComesLate, IsAnswerTo;
    assert ([e] + es)[1..] == es;
  }

  lemma ReplyIsListed(s: State, q: Query) returns (t: State)
    requires Inv(s) && q.master in s.running && s.running[q.master] == q.name && AwaitedBy(s, q.name, q.h)
    requires HostIs(s, q, Waiting(q.source)) && NoCalls(s, q.h) && NoBatch(s, q.h)
    ensures t == OnMasterReplies(s, q.master, q.err, q.addresses) && Listed(t, q)
  {
    t := OnMasterReplies(s, q.master, q.err, q.addresses);
    WaitsInOwnList(s, q);
  }

  // The same for a reply that comes while the new list is still without a client: the first client is told it.
  lemma EarlyReplyIsTold(s: State, err: Err, addresses: seq<string>, es: seq<Event>, h: HostId, copied: bool)
    requires Inv(s) && h in s.hosts && s.hosts[h].lookup == NoLookup && s.hosts[h].name !in s.table
    requires s.hosts[h].hasClient && NoCalls(s, h) && NoBatch(s, h)
    requires var all := [Start(h, true, true, NoError, Some((err, addresses)), true)] + es;
             IsRun(s, all) && RunsWell(s, all) && CopiedAs(s, all, s.next, Client(h, s.next + 1), copied)
    requires forall i :: 0 <= i < |es| ==> !OwnCall(es[i], h)
    ensures var t := After(s, [Start(h, true, true, NoError, Some((err, addresses)), true)] + es);
            && h in t.hosts
            && t.hosts[h].told == s.hosts[h].told +
                 if !HasCallFor(es, h) then []
                 else if err != NoError then [(err, Null)]
                 else if copied then [(NoError, Addresses(addresses))]
                 else [(NoMemory, Null)]
  {
    hide OnItsWay, HasCallFor, CopiedAs, OwnCall, OnStart, Inv;
    var early := Some((err, addresses));
    var q := Query(h, s.next + 1, s.hosts[h].name, s.next, err, addresses, s.hosts[h].told);
    var u := EarlyReplyIsListed(s, q);
    FirstEvent(s, Start(h, true, true, NoError, early, true), es, s.next, Client(h, s.next + 1), copied);
    StartKeepsInv(s, h, true, true, NoError, early, true);
    Stages(u, q, copied);
    GoesAllTheWay(u, es, q, copied);
    WhatIsTold(After(u, es), q, copied);
  }

  lemma EarlyReplyIsListed(s: State, q: Query) returns (t: State)
    requires HostIs(s, q, NoLookup) && q.name !in s.table && NoCalls(s, q.h) && NoBatch(s, q.h)
    requires q.master == s.next && q.source == s.next + 1
    ensures t == OnStart(s, q.h, true, true, NoError, Some((q.err, q.addresses)), true) && Listed(t, q)
  {
    t := OnStart(s, q.h, true, true, NoError, Some((q.err, q.addresses)), true);
  }

  lemma WhatIsTold(s: State, q: Query, copied: bool)
    requires OnItsWay(s, q, copied)
    ensures q.h in s.hosts
    ensures s.hosts[q.h].told == if IsTold(s, q, copied) then q.told + [Due(q, copied)] else q.told
  {
  }

  // --- Such runs exist

  // A run in which nothing goes wrong and the host's client is told
  ghost predicate Tells(s: State, es: seq<Event>, q: Query, copied: bool) {
    && IsRun(s, es) && RunsWell(s, es) && CopiedAs(s, es, q.master, Client(q.h, q.source), copied)
    && (forall i :: 0 <= i < |es| ==> !OwnCall(es[i], q.h)) && HasCallFor(es, q.h)
  }

  lemma OneMoreBefore(s: State, e: Event, es: seq<Event>, q: Query, copied: bool)
    requires CanHappen(s, e) && !LosesMaster(s, e) && !ComesLate(s, e) && !OwnCall(e, q.h)
    requires IsAnswerTo(s, e, q.master, Client(q.h, q.source)) ==> e.copied == copied
    requires Tells(Step(s, e), es, q, copied)
    ensures Tells(s, [e] + es, q, copied)
  {
    hide CanHappen, Step, LosesMaster, ComesLate, IsAnswerTo, OwnCall, HasCallFor;
    assert ([e] + es)[1..] == es;
    FirstOrLaterCall([e] + es, q.h);
  }

  lemma CallEnds(s: State, q: Query, copied: bool) returns (es: seq<Event>)
    requires Called(s, q, copied)
    ensures Tells(s, es, q, copied)
  {
    var e := Perform(q.h, q.source);
    assert (q.h, q.source) in s.performing;
    assert !IsListed(s, q.h);
    es := [e];
    assert es[1..] == [] && IsCallFor(es[0], q.h);
  }

  lemma SourceEnds(s: State, q: Query, copied: bool) returns (es: seq<Event>)
    requires Signalled(s, q, copied)
    ensures Tells(s, es, q, copied)
  {
    hide Tells;
    SourceIsCalled(s, q, copied);
    es := CallEnds(OnEnter(s, q.h), q, copied);
    OneMoreBefore(s, Enter(q.h), es, q, copied);
    es := [Enter(q.h)] + es;
  }

  // The clients of the master's batch still wait for it.
  ghost predicate AllWait(s: State, left: seq<Entry>) {
    forall x :: x in left ==> x.Client? && x.host in s.hosts && s.hosts[x.host].lookup == Waiting(x.source)
  }

  lemma {:induction false} AnswersEnd(s: State, q: Query, copied: bool) returns (es: seq<Event>)
    requires Inv(s) && Taken(s, q) && AllWait(s, s.answering[q.master].left)
    ensures Tells(s, es, q, copied)
    decreases |s.answering[q.master].left|
  {
    hide Tells, Inv, OnAnswer, ComesLate;
    var e, u, left := AnswerNext(q.master, copied), OnAnswer(s, q.master, copied), s.answering[q.master].left;
    NextIsNotLate(s, q, copied);
    if left[0] == Client(q.h, q.source) {
      HostIsAnswered(s, q, copied);
      es := SourceEnds(u, q, copied);
    } else {
      TakenGoesOn(s, e, q);
      StepKeepsInv(s, e);
      OthersWaitOn(s, q, copied);
      es := AnswersEnd(u, q, copied);
    }
    OneMoreBefore(s, e, es, q, copied);
    es := [e] + es;
  }

  lemma NextIsNotLate(s: State, q: Query, copied: bool)
    requires Inv(s) && Taken(s, q) && AllWait(s, s.answering[q.master].left)
    ensures !ComesLate(s, AnswerNext(q.master, copied))
  {
    var left := s.answering[q.master].left;
    assert GoodBatch(s, left);
    assert left[0] in left;
  }

  lemma OthersWaitOn(s: State, q: Query, copied: bool)
    requires Inv(s) && Taken(s, q) && AllWait(s, s.answering[q.master].left)
    requires s.answering[q.master].left[0] != Client(q.h, q.source)
    ensures var u := OnAnswer(s, q.master, copied);
            && q.master in u.answering && AllWait(u, u.answering[q.master].left)
            && |u.answering[q.master].left| < |s.answering[q.master].left|
  {
    hide TableOk, RunningOk, WaitersOk, MastersOk, SourcesOk;
    var u, left := OnAnswer(s, q.master, copied), s.answering[q.master].left;
    AnswersOneHost(s, q.master, copied);
    AnsweringKeepsOthers(s, q.master, q.master, copied);
    RestOfBatch(left, Client(q.h, q.source));
    RestOfBatch(left, left[0]);
    forall x | x in left[1..]
      ensures x.Client? && x.host in u.hosts && u.hosts[x.host].lookup == Waiting(x.source)
    {
      assert x in left && x != left[0];
    }
  }

  lemma AnswersOneHost(s: State, m: nat, copied: bool)
    requires BatchesOk(s) && m in s.answering && s.answering[m].left != []
    ensures var u, x := OnAnswer(s, m, copied), s.answering[m].left[0];
            x.Client? && forall h :: h in s.hosts && h != x.host ==> h in u.hosts && u.hosts[h] == s.hosts[h]
  {
    AnswerReaches(s, m, copied);
  }

  // Whenever a host waits for a master, such a run leads to its client being told, whatever the master replies.
  lemma ReplyCanBeTold(s: State, m: nat, err: Err, addresses: seq<string>, h: HostId, copied: bool)
    returns (es: seq<Event>)
    requires Inv(s) && m in s.running && AwaitedBy(s, s.running[m], h)
    requires s.hosts[h].hasClient && NoCalls(s, h) && NoBatch(s, h)
    ensures var all := [MasterReplies(m, err, addresses)] + es;
            && IsRun(s, all) && RunsWell(s, all)
            && CopiedAs(s, all, m, Client(h, s.hosts[h].lookup.source), copied)
    ensures (forall i :: 0 <= i < |es| ==> !OwnCall(es[i], h)) && HasCallFor(es, h)
  {
    hide OnTakeList, Inv, ComesLate, IsForeign;
    var q := Query(h, s.hosts[h].lookup.source, s.running[m], m, err, addresses, s.hosts[h].told);
    var u := ReplyIsListed(s, q);
    MasterRepliesKeepsInv(s, m, err, addresses);
    ListIsTaken(u, q);
    TakesOwnList(u, q);
    StepKeepsInv(u, TakeList(m));
    es := AnswersEnd(OnTakeList(u, m), q, copied);
    OneMoreBefore(u, TakeList(m), es, q, copied);
    es := [TakeList(m)] + es;
    NeverLate(s, m, err, addresses);
    OneMoreBefore(s, MasterReplies(m, err, addresses), es, q, copied);
  }

  lemma NeverLate(s: State, m: nat, err: Err, addresses: seq<string>)
    requires m in s.running
    ensures !ComesLate(s, MasterReplies(m, err, addresses))
  {
  }

  lemma TakesOwnList(s: State, q: Query)
    requires Inv(s) && Listed(s, q)
    ensures !ComesLate(s, TakeList(q.master))
    ensures var u := OnTakeList(s, q.master);
            q.master in u.answering && AllWait(u, u.answering[q.master].left)
  {
    hide Inv;
    var left := OwnListIsTaken(s, q.master);
    ListedIsGood(s, q.name);
  }

  // --- Starts and cancels

  // What a start comes to for the host, in terms of what succeeds: it waits, or its error says why not.
  lemma StartIsAnswered(s: State, h: HostId, listCreated: bool, masterCreated: bool, startErr: Err,
                        early: Option<(Err, seq<string>)>, sourceCreated: bool)
    requires h in s.hosts
    ensures var t := OnStart(s, h, listCreated, masterCreated, startErr, early, sourceCreated);
            var shared := s.hosts[h].name in s.table;
            && h in t.hosts
            && var a, b := s.hosts[h], t.hosts[h];
               if a.lookup != NoLookup then b == a
               else if (shared || (listCreated && masterCreated && startErr == NoError)) && sourceCreated then
                 b.lookup.Waiting? && b.err == NoError && b.accepted == a.accepted + 1 && b.info == a.info
               else if !shared && listCreated && masterCreated && startErr != NoError then b == a.(err := startErr)
               else b == a.(err := NoMemory)
  {
    hide NewList, Retire;
    var host, n := s.hosts[h], s.hosts[h].name;
    NewListKeepsHosts(s, n, early);
    RetireKeepsHosts(NewList(s, n, early), n, Master(s.next));
    if n in s.table && |s.table[n]| == 1 {
      RetireKeepsHosts(SetHost(s, h, host.(err := NoMemory)), n, s.table[n][0]);
    }
  }

  // A waiting host that cancels is told so by a call of its cancel source: with no error, and with whatever it
  // knew before.
  lemma CancelIsTold(s: State, h: HostId)
    requires SourcesOk(s) && h in s.hosts && s.hosts[h].lookup.Waiting? && s.hosts[h].hasClient && NoCalls(s, h)
    ensures var es := [Cancel(h, true), Enter(h), PerformCancel(h, s.next)];
            && IsRun(s, es) && h in After(s, es).hosts
            && var b := After(s, es).hosts[h];
               && b.lookup == NoLookup && b.info == s.hosts[h].info
               && b.told == s.hosts[h].told + [(NoError, s.hosts[h].info)]
  {
    hide Leave;
    var es := [Cancel(h, true), Enter(h), PerformCancel(h, s.next)];
    LeaveKeepsHosts(s, h);
    LeaveCalls(s, h);
    var t := OnCancel(s, h, true);
    var u := OnEnter(t, h);
    assert es[1..] == [Enter(h), PerformCancel(h, s.next)] && es[1..][1..] == [PerformCancel(h, s.next)];
    assert es[1..][1..][1..] == [];
    assert CanHappen(t, Enter(h)) && CanHappen(u, PerformCancel(h, s.next));
    assert IsRun(u, es[1..][1..]) && After(u, es[1..][1..]) == OnPerformCancel(u, h, s.next);
    assert IsRun(t, es[1..]) && After(t, es[1..]) == OnPerformCancel(u, h, s.next);
  }

  lemma LeaveCalls(s: State, h: HostId)
    requires h in s.hosts
    ensures Leave(s, h).performing == s.performing && Leave(s, h).cancelling == s.cancelling
  {
  }
}
