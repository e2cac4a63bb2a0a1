// The one-shot resolve of a network service (RSNetServices.c): a resolve query, then an address
// query for A and one for AAAA records, bounded by a long timer for the whole resolve and a short
// timer that runs once the first address query is complete.
module NetServiceResolve {
  import opened Sequences
  import opened NetServiceErrors

  // What can stand in the list of sources that a service has on its run loops
  datatype Source = ResolveSocket | ASocket | AAAASocket | LongTimer | ShortTimer | CancelSource

  datatype RecordType = A | AAAA

  // A reply to an address query: more to come, an error, a usable address, and whether a timer can be
  // created
  datatype Answer = Answer(record: RecordType, more: bool, err: Err, usable: bool, timerCreated: bool)

  // The fields of __CFNetService that a resolve uses, and the errors told to the client so far
  datatype State = State(
    newService: bool, a: bool, aaaa: bool,               // the three DNS references
    aComplete: bool, aaaaComplete: bool,                 // _flags
    aReceived: bool, aaaaReceived: bool, cancelFlag: bool,
    sources: seq<Source>,
    err: Err,
    addresses: nat,
    hasClient: bool,
    told: seq<Err>)

  datatype Event =
    | Resolved(err: Err, aErr: Err, aaaaErr: Err)   // _ResolveReply
    | Address(answer: Answer)                       // _AddressQueryRecordReply
    | LongTimerFires
    | ShortTimerFires(polled: seq<Answer>)
    | CancelCalled(sourceCreated: bool)             // CFNetServiceCancel
    | CancelPerformed                               // _ServiceCancel
    | ClientRemoved                                 // CFNetServiceSetClient without a client

  function Socket(r: RecordType): Source {
    if r == A then ASocket else AAAASocket
  }

  function Tell(s: State): State {
    if s.hasClient then s.(told := s.told + [s.err]) else s
  }

  function DropQueries(s: State): State {
    s.(newService := false, a := false, aaaa := false)
  }

  function ShutDown(s: State): State {
    s.(sources := [], a := false, aaaa := false, aComplete := true, aaaaComplete := true)
  }

  // A created query becomes a live reference with a socket on the run loops.
  function Query(s: State, r: RecordType, err: Err): State {
    if err != NoError then s.(err := err)
    else s.(err := NoError, a := s.a || r == A, aaaa := s.aaaa || r == AAAA, sources := s.sources + [Socket(r)])
  }

  // Both address queries; only the outcome of the second one counts.
  function Ask(s: State, aErr: Err, aaaaErr: Err): State {
    var both := Query(Query(s, A, aErr), AAAA, aaaaErr);
    if both.err != NoError then ShutDown(both) else both
  }

  function OnResolved(s: State, err: Err, aErr: Err, aaaaErr: Err): State {
    if !s.newService then s
    else
      var asked := if err != NoError then ShutDown(s.(err := err)) else Ask(s, aErr, aaaaErr);
      var closed := asked.(sources := Drop(asked.sources, ResolveSocket), newService := false);
      if closed.aComplete && closed.aaaaComplete then Tell(closed) else closed
  }

  function OnAddress(s: State, x: Answer): State {
    if !s.a && !s.aaaa then s
    else
      var closed := Received(s, x);
      if closed.aComplete && closed.aaaaComplete && !closed.newService then Tell(closed.(sources := []))
      else if !s.aComplete && !s.aaaaComplete && (closed.aComplete || closed.aaaaComplete) && x.timerCreated then
        closed.(sources := closed.sources + [ShortTimer])
      else closed
  }

  function Received(s: State, x: Answer): State {
    if x.more && x.err == NoError then Take(s, x) else Close(Take(s, x), x.record)
  }

  function Take(s: State, x: Answer): State {
    s.(addresses := if x.usable then s.addresses + 1 else s.addresses,
       aReceived := s.aReceived || x.record == A,
       aaaaReceived := s.aaaaReceived || x.record == AAAA)
  }

  // One address query has nothing more to say.
  function Close(s: State, r: RecordType): State {
    s.(sources := Drop(s.sources, Socket(r)),
       a := s.a && r != A, aComplete := s.aComplete || r == A,
       aaaa := s.aaaa && r != AAAA, aaaaComplete := s.aaaaComplete || r == AAAA)
  }

  function OnAddresses(s: State, xs: seq<Answer>): State {
    if xs == [] then s else OnAddress(OnAddresses(s, xs[..|xs| - 1]), xs[|xs| - 1])
  }

  function OnLongTimer(s: State): State {
    if s.aReceived || s.aaaaReceived || s.sources == [] then s
    else
      var late := if s.newService || s.addresses == 0 then s.(err := TimedOut) else s;
      Tell(DropQueries(late.(sources := [])))
  }

  predicate Enough(s: State) {
    || (s.aComplete && s.aaaaComplete)
    || (s.aComplete && !s.aaaaReceived)
    || (s.aaaaComplete && !s.aReceived)
  }

  function OnShortTimer(s: State): State {
    if s.sources != [] && Enough(s) then Tell(DropQueries(s.(sources := []))) else s
  }

  // Before it looks at the state, the short timer polls the query that is still outstanding.
  function OnShortTimerAfterPoll(s: State, polled: seq<Answer>): State {
    OnShortTimer(if s.a || s.aaaa then OnAddresses(s, polled) else s)
  }

  function OnCancel(s: State, sourceCreated: bool): State {
    if s.sources == [] then s
    else
      DropQueries(s.(err := Cancelled, cancelFlag := sourceCreated,
                     sources := if sourceCreated then [CancelSource] else []))
  }

  function OnCancelPerformed(s: State): State {
    if s.sources == [] then s.(cancelFlag := false) else Tell(s.(sources := [], cancelFlag := false))
  }

  function OnClientRemoved(s: State): State {
    if s.sources == [] then s.(hasClient := false, cancelFlag := false)
    else s.(sources := [], newService := false, hasClient := false, cancelFlag := false)
  }

  function Step(s: State, e: Event): State {
    match e
    case Resolved(err, aErr, aaaaErr) => OnResolved(s, err, aErr, aaaaErr)
    case Address(x) => OnAddress(s, x)
    case LongTimerFires => OnLongTimer(s)
    case ShortTimerFires(polled) => OnShortTimerAfterPoll(s, polled)
    case CancelCalled(sourceCreated) => OnCancel(s, sourceCreated)
    case CancelPerformed => OnCancelPerformed(s)
    case ClientRemoved => OnClientRemoved(s)
  }

  // CFNetServiceResolveWithTimeout, once its query and its timer have been created.  Without a
  // timeout, the Received flags of an earlier resolve stay.
  function Start(before: State, withTimeout: bool): State {
    before.(
      newService := true,
      aComplete := false, aaaaComplete := false,
      aReceived := before.aReceived && !withTimeout, aaaaReceived := before.aaaaReceived && !withTimeout,
      sources := [ResolveSocket] + if withTimeout then [LongTimer] else [],
      err := NoError, addresses := 0, told := [])
  }

  // No reference and no source is left.
  predicate Quiet(s: State) {
    !s.newService && !s.a && !s.aaaa && s.sources == []
  }

  // A resolve can start when nothing is outstanding but a cancel that has not been performed yet.
  predicate Startable(s: State) {
    !s.newService && !s.a && !s.aaaa && (s.sources == [] || (s.sources == [CancelSource] && s.cancelFlag))
  }

  // Everything may happen at any time, except that the run loop performs the cancel source only while
  // it is in the list.
  predicate CanHappen(s: State, e: Event) {
    e == CancelPerformed ==> CancelSource in s.sources
  }

  predicate IsRun(s: State, es: seq<Event>) {
    es == [] || (IsRun(s, es[..|es| - 1]) && CanHappen(After(s, es[..|es| - 1]), es[|es| - 1]))
  }

  function After(s: State, es: seq<Event>): State {
    if es == [] then s else Step(After(s, es[..|es| - 1]), es[|es| - 1])
  }

  // --- What holds in every reachable state

  predicate Inv(s: State) {
    && (s.newService ==> !s.a && !s.aaaa && !s.aComplete && !s.aaaaComplete)
    && (s.aComplete ==> !s.a)
    && (s.aaaaComplete ==> !s.aaaa)
    && |s.told| <= 1
    && (s.told != [] ==> Quiet(s))
    && (s.aComplete && s.aaaaComplete ==> s.sources == [])
    && (CancelSource in s.sources ==> !s.newService && !s.a && !s.aaaa)
    && (s.addresses > 0 ==> s.aReceived || s.aaaaReceived)
    && (s.hasClient ==> Attached(s))
  }

  // Every live reference has its socket in the list.
  predicate Attached(s: State) {
    && (s.newService ==> ResolveSocket in s.sources)
    && (s.a ==> ASocket in s.sources)
    && (s.aaaa ==> AAAASocket in s.sources)
  }

  lemma AddressKeepsInv(s: State, x: Answer)
    requires Inv(s)
    ensures Inv(OnAddress(s, x))
  {
    hide Drop;
    DropKeepsOthers(s.sources, Socket(x.record));
    if s.a || s.aaaa {
      assert !s.newService && s.told == [] && CancelSource !in s.sources;
      assert CancelSource !in Drop(s.sources, Socket(x.record)) + [ShortTimer];
    }
  }

  lemma {:induction false} AddressesKeepInv(s: State, xs: seq<Answer>)
    requires Inv(s)
    ensures Inv(OnAddresses(s, xs))
  {
    if xs != [] {
      AddressesKeepInv(s, xs[..|xs| - 1]);
      AddressKeepsInv(OnAddresses(s, xs[..|xs| - 1]), xs[|xs| - 1]);
    }
  }

  // A resolve query that is answered: either everything is given up and the client is told, or the AAAA
  // query is live.
  lemma ResolvedOutcome(s: State, err: Err, aErr: Err, aaaaErr: Err)
    requires s.newService && !s.aComplete
    ensures var t := OnResolved(s, err, aErr, aaaaErr);
            if err != NoError || aaaaErr != NoError then
              t == Tell(ShutDown(s.(newService := false, err := if err != NoError then err else aaaaErr)))
            else
              && t == s.(newService := false, err := NoError, a := s.a || aErr == NoError, aaaa := true,
                         sources := t.sources)
              && forall x :: x != ResolveSocket ==>
                   (x in t.sources <==> x in s.sources || x == AAAASocket || (x == ASocket && aErr == NoError))
  {
    hide OnResolved, Drop, Ask, Tell, ShutDown;
    if err != NoError || aaaaErr != NoError {
      QueriesGivenUp(s, err, aErr, aaaaErr);
    } else {
      QueriesAsked(s, aErr);
      AskedSources(s, aErr, aaaaErr);
      DropKeepsOthers(Ask(s, aErr, aaaaErr).sources, ResolveSocket);
    }
  }

  lemma QueriesGivenUp(s: State, err: Err, aErr: Err, aaaaErr: Err)
    requires s.newService && (err != NoError || aaaaErr != NoError)
    ensures OnResolved(s, err, aErr, aaaaErr) ==
            Tell(ShutDown(s.(newService := false, err := if err != NoError then err else aaaaErr)))
  {
    hide Drop, Ask, Tell;
    AskOutcome(s, aErr, aaaaErr);
    NothingToDrop(ResolveSocket);
  }

  lemma QueriesAsked(s: State, aErr: Err)
    requires s.newService && !s.aComplete
    ensures OnResolved(s, NoError, aErr, NoError) ==
            s.(newService := false, err := NoError, a := s.a || aErr == NoError, aaaa := true,
               sources := Drop(Ask(s, aErr, NoError).sources, ResolveSocket))
  {
    hide Drop, Ask, Tell;
    AskOutcome(s, aErr, NoError);
  }

  lemma NotResolving(s: State, err: Err, aErr: Err, aaaaErr: Err)
    requires !s.newService
    ensures OnResolved(s, err, aErr, aaaaErr) == s
  {
  }

  lemma ResolvedKeepsInv(s: State, err: Err, aErr: Err, aaaaErr: Err)
    requires Inv(s)
    ensures Inv(OnResolved(s, err, aErr, aaaaErr))
  {
    hide OnResolved;
    if s.newService {
      ResolvedOutcome(s, err, aErr, aaaaErr);
    } else {
      NotResolving(s, err, aErr, aaaaErr);
    }
  }

  // Both queries together: the AAAA query decides, and the A query may have been lost.
  lemma AskOutcome(s: State, aErr: Err, aaaaErr: Err)
    ensures var asked := if aErr == NoError then s.(a := true, sources := s.sources + [ASocket]) else s;
            Ask(s, aErr, aaaaErr) ==
            if aaaaErr != NoError then ShutDown(s.(err := aaaaErr))
            else asked.(err := NoError, aaaa := true, sources := asked.sources + [AAAASocket])
  {
  }

  lemma AskedSources(s: State, aErr: Err, aaaaErr: Err)
    requires aaaaErr == NoError
    ensures forall x :: x in Ask(s, aErr, aaaaErr).sources <==>
              x in s.sources || x == AAAASocket || (x == ASocket && aErr == NoError)
  {
    hide Ask;
    AskOutcome(s, aErr, aaaaErr);
  }

  lemma NothingToDrop(x: Source)
    ensures Drop([], x) == []
  {
  }

  lemma TimersKeepInv(s: State)
    requires Inv(s)
    ensures Inv(OnLongTimer(s)) && Inv(OnShortTimer(s))
  {
  }

  lemma CancelKeepsInv(s: State, sourceCreated: bool)
    requires Inv(s)
    ensures Inv(OnCancel(s, sourceCreated))
  {
  }

  lemma CancelPerformedKeepsInv(s: State)
    requires Inv(s) && CancelSource in s.sources
    ensures Inv(OnCancelPerformed(s))
  {
  }

  lemma RemovalKeepsInv(s: State)
    requires Inv(s)
    ensures Inv(OnClientRemoved(s))
  {
  }

  lemma StepKeepsInv(s: State, e: Event)
    requires Inv(s) && CanHappen(s, e)
    ensures Inv(Step(s, e))
  {
    hide Inv, OnResolved, OnAddress, OnAddresses, OnLongTimer, OnShortTimer;
    hide OnCancel, OnCancelPerformed, OnClientRemoved;
    match e
    case Resolved(err, aErr, aaaaErr) => ResolvedKeepsInv(s, err, aErr, aaaaErr);
    case Address(x) => AddressKeepsInv(s, x);
    case LongTimerFires => TimersKeepInv(s);
    case ShortTimerFires(polled) =>
      AddressesKeepInv(s, polled);
      TimersKeepInv(s);
      TimersKeepInv(OnAddresses(s, polled));
    case CancelCalled(sourceCreated) => CancelKeepsInv(s, sourceCreated);
    case CancelPerformed => CancelPerformedKeepsInv(s);
    case ClientRemoved => RemovalKeepsInv(s);
  }

  lemma {:induction false} RunKeepsInv(before: State, withTimeout: bool, es: seq<Event>)
    requires Startable(before) && IsRun(Start(before, withTimeout), es)
    ensures Inv(After(Start(before, withTimeout), es))
  {
    if es != [] {
      RunKeepsInv(before, withTimeout, es[..|es| - 1]);
      StepKeepsInv(After(Start(before, withTimeout), es[..|es| - 1]), es[|es| - 1]);
    }
  }

  // --- Theorems about whole runs of a resolve that starts with nothing outstanding

  lemma QuietStays(s: State, e: Event)
    requires Quiet(s)
    ensures Step(s, e) == s.(hasClient := Step(s, e).hasClient, cancelFlag := Step(s, e).cancelFlag)
  {
    match e
    case ShortTimerFires(polled) =>
    case _ => hide OnAddresses;
  }

  // However the replies, timers and cancels fall, the client is told at most once, and from then on
  // nothing is outstanding and nothing that still happens changes anything.
  lemma {:induction false} OneShot(before: State, withTimeout: bool, es: seq<Event>, later: seq<Event>)
    requires Startable(before) && IsRun(Start(before, withTimeout), es + later)
    ensures var s := After(Start(before, withTimeout), es);
            var t := After(Start(before, withTimeout), es + later);
            && |t.told| <= 1
            && (s.told != [] ==> Quiet(s) && t == s.(hasClient := t.hasClient, cancelFlag := t.cancelFlag))
  {
    var start := Start(before, withTimeout);
    if later == [] {
      assert es + later == es;
      RunKeepsInv(before, withTimeout, es);
    } else {
      var n := |later| - 1;
      assert (es + later)[..|es| + n] == es + later[..n] && (es + later)[|es| + n] == later[n];
      OneShot(before, withTimeout, es, later[..n]);
      RunKeepsInv(before, withTimeout, es + later);
      if After(start, es).told != [] {
        QuietStays(After(start, es + later[..n]), later[n]);
      }
    }
  }

  // The long timer only ever reports a timeout, and only when no address has arrived.
  lemma LongTimerReportsTimeout(before: State, withTimeout: bool, es: seq<Event>)
    requires Startable(before) && IsRun(Start(before, withTimeout), es)
    ensures var s := After(Start(before, withTimeout), es);
            Step(s, LongTimerFires).told != s.told ==>
              Step(s, LongTimerFires).told == [TimedOut] && s.addresses == 0
  {
    RunKeepsInv(before, withTimeout, es);
  }

  // The environment spares the resolve: the client stays, the cancel source can be created, and it is
  // not the case that the A query alone cannot be created.
  predicate Benign(e: Event) {
    && e != ClientRemoved && e != CancelCalled(false)
    && (e.Resolved? && e.err == NoError && e.aErr != NoError ==> e.aaaaErr != NoError)
  }

  // The resolve is over exactly when the client has been told, and until then something is under way
  // that will lead on: a live query with its socket, or a pending cancel.
  predicate Alive(s: State) {
    && s.hasClient
    && (s.sources == [] <==> s.told != [])
    && (s.told == [] ==>
          || (s.newService && ResolveSocket in s.sources)
          || (s.a && ASocket in s.sources)
          || (s.aaaa && AAAASocket in s.sources)
          || CancelSource in s.sources)
    && (s.told == [] && CancelSource !in s.sources && !s.newService ==>
          (s.a || s.aComplete) && (s.aaaa || s.aaaaComplete))
  }

  lemma AddressKeepsAlive(s: State, x: Answer)
    requires Inv(s) && Alive(s)
    ensures Alive(OnAddress(s, x))
  {
    hide Drop;
    DropKeepsOthers(s.sources, Socket(x.record));
    if s.a || s.aaaa {
      assert !s.newService && s.told == [];
    }
  }

  lemma {:induction false} AddressesKeepAlive(s: State, xs: seq<Answer>)
    requires Inv(s) && Alive(s)
    ensures Alive(OnAddresses(s, xs))
  {
    if xs != [] {
      AddressesKeepInv(s, xs[..|xs| - 1]);
      AddressesKeepAlive(s, xs[..|xs| - 1]);
      AddressKeepsAlive(OnAddresses(s, xs[..|xs| - 1]), xs[|xs| - 1]);
    }
  }

  lemma ResolvedKeepsAlive(s: State, err: Err, aErr: Err, aaaaErr: Err)
    requires Inv(s) && Alive(s) && Benign(Resolved(err, aErr, aaaaErr))
    ensures Alive(OnResolved(s, err, aErr, aaaaErr))
  {
    hide OnResolved;
    if s.newService {
      ResolvedOutcome(s, err, aErr, aaaaErr);
      assert err == NoError && aaaaErr == NoError ==> AAAASocket in OnResolved(s, err, aErr, aaaaErr).sources;
    } else {
      NotResolving(s, err, aErr, aaaaErr);
    }
  }

  lemma StepKeepsAlive(s: State, e: Event)
    requires Inv(s) && Alive(s) && CanHappen(s, e) && Benign(e)
    ensures Alive(Step(s, e))
  {
    match e
    case Resolved(err, aErr, aaaaErr) => ResolvedKeepsAlive(s, err, aErr, aaaaErr);
    case Address(x) => AddressKeepsAlive(s, x);
    case ShortTimerFires(polled) =>
      AddressesKeepAlive(s, polled);
      AddressesKeepInv(s, polled);
    case _ =>
  }

  lemma {:induction false} NeverStuck(before: State, withTimeout: bool, es: seq<Event>)
    requires Startable(before) && before.hasClient && IsRun(Start(before, withTimeout), es)
    requires forall e :: e in es ==> Benign(e)
    ensures Alive(After(Start(before, withTimeout), es))
  {
    if es != [] {
      var n := |es| - 1;
      NeverStuck(before, withTimeout, es[..n]);
      RunKeepsInv(before, withTimeout, es[..n]);
      StepKeepsAlive(After(Start(before, withTimeout), es[..n]), es[n]);
    }
  }

  // --- The service object itself, updated in place

  class NetService {
    var newService: bool, a: bool, aaaa: bool
    var aComplete: bool, aaaaComplete: bool, aReceived: bool, aaaaReceived: bool, cancelFlag: bool
    var sources: seq<Source>
    var err: Err
    var addresses: nat
    var hasClient: bool
    var told: seq<Err>

    function View(): State
      reads this
    {
      State(newService, a, aaaa, aComplete, aaaaComplete, aReceived, aaaaReceived, cancelFlag, sources, err, addresses,
            hasClient, told)
    }

    // CFNetServiceResolveWithTimeout on a service with nothing outstanding but perhaps a cancel, which it
    // calls off.  If the query or the timer cannot be created, nothing is left outstanding.
    method Resolve(withTimeout: bool, queryErr: Err, timerErr: Err) returns (started: bool)
      requires Startable(View())
      modifies this
      ensures started <==> queryErr == NoError && (withTimeout ==> timerErr == NoError)
      ensures started ==> View() == Start(old(View()), withTimeout)
      ensures !started ==> Quiet(View()) && told == old(told)
      ensures !started ==> err == if queryErr != NoError then queryErr else timerErr
    {
      if |sources| > 0 && cancelFlag {
        sources := [];
      }
      CreateResolveQuery(queryErr);
      if err == NoError && withTimeout {
        CreateLongTimer(timerErr);
      }
      if err != NoError {
        sources := [];
        newService := false;
        return false;
      }
      assert sources == [ResolveSocket] + if withTimeout then [LongTimer] else [];
      Reset();
      started := true;
    }

    // What a resolve that has started forgets
    method Reset()
      modifies this`addresses, this`err, this`told, this`aComplete, this`aaaaComplete
      ensures View() == old(View()).(addresses := 0, err := NoError, told := [], aComplete := false,
                                     aaaaComplete := false)
    {
      addresses, err, told, aComplete, aaaaComplete := 0, NoError, [], false, false;
    }

    // _ServiceCreateQuery_NoLock for the resolve itself
    method CreateResolveQuery(queryErr: Err)
      modifies this`err, this`newService, this`sources
      ensures err == queryErr
      ensures newService == (old(newService) || err == NoError)
      ensures sources == if err == NoError then old(sources) + [ResolveSocket] else old(sources)
    {
      err := queryErr;
      if err == NoError {
        newService := true;
        sources := sources + [ResolveSocket];
      }
    }

    method CreateLongTimer(timerErr: Err)
      modifies this`err, this`aReceived, this`aaaaReceived, this`sources
      ensures err == if timerErr == NoError then old(err) else timerErr
      ensures !aReceived && !aaaaReceived
      ensures sources == if timerErr == NoError then old(sources) + [LongTimer] else old(sources)
    {
      aReceived, aaaaReceived := false, false;
      if timerErr == NoError {
        sources := sources + [LongTimer];
      } else {
        err := timerErr;
      }
    }

    // _ServiceCreateQuery_NoLock for an address query
    method CreateQuery(record: RecordType, queryErr: Err)
      modifies this
      ensures View() == old(Query(View(), record, queryErr))
    {
      err := queryErr;
      if err == NoError {
        match record {
          case A => a := true;
          case AAAA => aaaa := true;
        }
        sources := sources + [Socket(record)];
      }
    }

    // _ServiceCancelDNSService_NoLock
    method CancelDnsService(socket: Source)
      modifies this`sources
      ensures sources == old(Drop(sources, socket))
    {
      var i := 0;
      while i < |sources|
        invariant i <= |sources| && sources == old(sources)
        invariant forall j :: 0 <= j < i ==> sources[j] != socket
        decreases |sources| - i
      {
        if sources[i] == socket {
          DropIsRemoval(sources, socket, i);
          sources := sources[..i] + sources[i + 1..];
          return;
        }
        i := i + 1;
      }
      DropIsRemoval(sources, socket, i);
    }

    // What _ResolveReply does after any error
    method AbandonQueries()
      modifies this
      ensures View() == ShutDown(old(View()))
    {
      sources := [];
      a, aaaa := false, false;
      aComplete, aaaaComplete := true, true;
    }

    // A callback, to whatever client there is
    method Inform()
      modifies this`told
      ensures View() == Tell(old(View()))
    {
      if hasClient {
        told := told + [err];
      }
    }

    method AskForAddresses(aErr: Err, aaaaErr: Err)
      modifies this
      ensures View() == Ask(old(View()), aErr, aaaaErr)
    {
      hide Query, ShutDown;
      CreateQuery(A, aErr);
      CreateQuery(AAAA, aaaaErr);
      if err != NoError {
        AbandonQueries();
      }
    }

    // The resolve query itself is no longer needed.
    method EndResolve()
      modifies this`sources, this`newService
      ensures View() == old(View()).(sources := Drop(old(sources), ResolveSocket), newService := false)
    {
      CancelDnsService(ResolveSocket);
      newService := false;
    }

    // _ResolveReply
    method ResolveReply(replyErr: Err, aErr: Err, aaaaErr: Err)
      modifies this
      ensures View() == OnResolved(old(View()), replyErr, aErr, aaaaErr)
    {
      hide Ask, Drop, Tell;
      if newService {
        if replyErr != NoError {
          err := replyErr;
          AbandonQueries();
        } else {
          AskForAddresses(aErr, aaaaErr);
        }
        EndResolve();
        if aComplete && aaaaComplete {
          Inform();
        }
      }
    }

    // The first half of _AddressQueryRecordReply: an address, and the end of a query
    method TakeAnswer(x: Answer)
      modifies this
      ensures View() == old(Received(View(), x))
    {
      hide Close;
      if x.usable {
        addresses := addresses + 1;
      }
      match x.record {
        case A => aReceived := true;
        case AAAA => aaaaReceived := true;
      }
      if !x.more || x.err != NoError {
        CloseQuery(x.record);
      }
    }

    method CloseQuery(record: RecordType)
      modifies this
      ensures View() == Close(old(View()), record)
    {
      hide Drop;
      CancelDnsService(Socket(record));
      match record {
        case A => a, aComplete := false, true;
        case AAAA => aaaa, aaaaComplete := false, true;
      }
    }

    // _AddressQueryRecordReply
    method AddressReply(x: Answer)
      modifies this
      ensures View() == old(OnAddress(View(), x))
    {
      hide Drop, Received, Tell;
      if a || aaaa {
        var wasComplete := aComplete || aaaaComplete;
        TakeAnswer(x);
        if aComplete && aaaaComplete && !newService {
          sources := [];
          Inform();
        } else if !wasComplete && (aComplete || aaaaComplete) {
          if x.timerCreated {
            sources := sources + [ShortTimer];
          }
        }
      }
    }

    // The sources leave the run loops, and the queries are dropped.
    method DropEverything()
      modifies this`sources, this`newService, this`a, this`aaaa
      ensures View() == DropQueries(old(View()).(sources := []))
    {
      sources, newService, a, aaaa := [], false, false, false;
    }

    // _LongTimerCallBack
    method LongTimerCallBack()
      modifies this
      ensures View() == OnLongTimer(old(View()))
    {
      hide Tell, DropQueries;
      if !aReceived && !aaaaReceived && |sources| > 0 {
        if newService || addresses == 0 {
          err := TimedOut;
        }
        DropEverything();
        Inform();
      }
    }

    // The start of _ShortTimerCallBack: polling the outstanding query delivers the answers in `polled`.
    method PollOutstanding(polled: seq<Answer>)
      modifies this
      ensures View() == old(if a || aaaa then OnAddresses(View(), polled) else View())
    {
      hide OnAddress;
      ghost var before := View();
      if a || aaaa {
        var i := 0;
        while i < |polled|
          invariant 0 <= i <= |polled| && View() == OnAddresses(before, polled[..i])
        {
          AddressReply(polled[i]);
          i := i + 1;
          assert polled[..i][..i - 1] == polled[..i - 1];
        }
        assert polled[..i] == polled;
      }
    }

    // _ShortTimerCallBack
    method ShortTimerCallBack(polled: seq<Answer>)
      modifies this
      ensures View() == OnShortTimerAfterPoll(old(View()), polled)
    {
      hide OnAddresses, Tell, DropQueries;
      PollOutstanding(polled);
      if |sources| > 0
         && ((aComplete && aaaaComplete) || (aComplete && !aaaaReceived) || (aaaaComplete && !aReceived)) {
        DropEverything();
        Inform();
      }
    }

    // CFNetServiceCancel
    method Cancel(sourceCreated: bool)
      modifies this
      ensures View() == OnCancel(old(View()), sourceCreated)
    {
      if |sources| > 0 {
        DropEverything();
        err, cancelFlag := Cancelled, false;
        if sourceCreated {
          cancelFlag := true;
          sources := sources + [CancelSource];
          assert sources == [CancelSource];
        }
      }
    }

    // _ServiceCancel
    method PerformCancel()
      modifies this
      ensures View() == OnCancelPerformed(old(View()))
    {
      hide Tell;
      cancelFlag := false;
      if |sources| > 0 {
        sources := [];
        Inform();
      }
    }

    // CFNetServiceSetClient without a callback
    method RemoveClient()
      modifies this
      ensures View() == OnClientRemoved(old(View()))
    {
      if |sources| > 0 {
        sources := [];
        newService := false;
      }
      hasClient, cancelFlag := false, false;
    }
  }
}
