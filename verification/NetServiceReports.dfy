// What the client of a resolve is told, and what stands in the service then, over every run.
module NetServiceReports {
  import opened Sequences
  import opened NetServiceErrors
  import opened NetServiceResolve

  // --- What the stored error can be

  // As long as a query is live no error is stored; as long as a source is in the list, at most that of a cancel
  // that is pending.
  predicate ErrorsOk(s: State) {
    && (s.newService || s.a || s.aaaa ==> s.err == NoError)
    && (CancelSource in s.sources ==> s.err == Cancelled)
    && (s.sources != [] && CancelSource !in s.sources ==> s.err == NoError)
  }

  lemma AddressKeepsErrors(s: State, x: Answer)
    requires Inv(s) && ErrorsOk(s)
    ensures ErrorsOk(OnAddress(s, x))
  {
    hide Drop;
    DropKeepsOthers(s.sources, Socket(x.record));
    if s.a || s.aaaa {
      assert CancelSource !in s.sources;
      assert CancelSource !in Drop(s.sources, Socket(x.record)) + [ShortTimer];
    }
  }

  lemma {:induction false} AddressesKeepErrors(s: State, xs: seq<Answer>)
    requires Inv(s) && ErrorsOk(s)
    ensures ErrorsOk(OnAddresses(s, xs))
  {
    hide Inv, ErrorsOk, OnAddress;
    if xs != [] {
      AddressesKeepInv(s, xs[..|xs| - 1]);
      AddressesKeepErrors(s, xs[..|xs| - 1]);
      AddressKeepsErrors(OnAddresses(s, xs[..|xs| - 1]), xs[|xs| - 1]);
    }
  }

  lemma ResolvedKeepsErrors(s: State, err: Err, aErr: Err, aaaaErr: Err)
    requires Inv(s) && ErrorsOk(s)
    ensures ErrorsOk(OnResolved(s, err, aErr, aaaaErr))
  {
    hide OnResolved;
    if s.newService {
      ResolvedOutcome(s, err, aErr, aaaaErr);
    } else {
      NotResolving(s, err, aErr, aaaaErr);
    }
  }

  lemma TimersKeepErrors(s: State)
    requires Inv(s) && ErrorsOk(s)
    ensures ErrorsOk(OnLongTimer(s)) && ErrorsOk(OnShortTimer(s))
  {
  }

  lemma CancelKeepsErrors(s: State, sourceCreated: bool)
    requires ErrorsOk(s)
    ensures ErrorsOk(OnCancel(s, sourceCreated))
  {
  }

  lemma CancelPerformedKeepsErrors(s: State)
    requires Inv(s) && ErrorsOk(s)
    ensures ErrorsOk(OnCancelPerformed(s)) && ErrorsOk(OnClientRemoved(s))
  {
  }

  lemma StepKeepsErrors(s: State, e: Event)
    requires Inv(s) && ErrorsOk(s)
    ensures ErrorsOk(Step(s, e))
  {
    hide Inv, ErrorsOk, OnResolved, OnAddress, OnAddresses, OnLongTimer, OnShortTimer;
    hide OnCancel, OnCancelPerformed, OnClientRemoved;
    match e
    case Resolved(err, aErr, aaaaErr) => ResolvedKeepsErrors(s, err, aErr, aaaaErr);
    case Address(x) => AddressKeepsErrors(s, x);
    case LongTimerFires => TimersKeepErrors(s);
    case ShortTimerFires(polled) =>
      AddressesKeepErrors(s, polled);
      AddressesKeepInv(s, polled);
      TimersKeepErrors(s);
      TimersKeepErrors(OnAddresses(s, polled));
    case CancelCalled(sourceCreated) => CancelKeepsErrors(s, sourceCreated);
    case CancelPerformed => CancelPerformedKeepsErrors(s);
    case ClientRemoved => CancelPerformedKeepsErrors(s);
  }

  lemma {:induction false} RunKeepsErrors(before: State, withTimeout: bool, es: seq<Event>)
    requires Startable(before) && IsRun(Start(before, withTimeout), es)
    ensures ErrorsOk(After(Start(before, withTimeout), es))
  {
    if es == [] {
      StartIsClear(before, withTimeout);
    } else {
      hide ErrorsOk, Step, Start;
      RunKeepsErrors(before, withTimeout, es[..|es| - 1]);
      RunKeepsInv(before, withTimeout, es[..|es| - 1]);
      StepKeepsErrors(After(Start(before, withTimeout), es[..|es| - 1]), es[|es| - 1]);
    }
  }

  lemma StartIsClear(before: State, withTimeout: bool)
    ensures ErrorsOk(Start(before, withTimeout))
  {
  }

  // --- What each event tells

  // The reply says that the query has nothing more to say.
  predicate Ends(x: Answer) {
    !x.more || x.err != NoError
  }

  // Both address queries are over, or one is and nothing has been heard of the other.
  predicate HeardEnough(s: State) {
    || (s.aComplete && s.aaaaComplete)
    || (s.aComplete && !s.aaaaReceived)
    || (s.aaaaComplete && !s.aReceived)
  }

  // What the client is told by the event, if it has not been told anything before
  ghost function Report(s: State, e: Event): seq<Err> {
    if !s.hasClient then []
    else
      match e
      case Resolved(err, _, aaaaErr) =>
        if s.newService && err != NoError then [err]
        else if s.newService && aaaaErr != NoError then [aaaaErr]
        else []
      case Address(x) => if LastAnswerOf(s, x) then [NoError] else []
      case LongTimerFires => if s.sources != [] && !s.aReceived && !s.aaaaReceived then [TimedOut] else []
      case ShortTimerFires(polled) =>
        if PollEnds(s, polled) then [NoError]
        else if AfterPoll(s, polled).sources != [] && HeardEnough(AfterPoll(s, polled)) then
          [if CancelSource in s.sources then Cancelled else NoError]
        else []
      case CancelPerformed => [Cancelled]
      case _ => []
  }

  // The answer ends a query while the other one is over already.
  predicate LastAnswerOf(s: State, x: Answer) {
    (s.a || s.aaaa) && Ends(x) && if x.record == A then s.aaaaComplete else s.aComplete
  }

  // The poll at the start of the short timer, with the answers that it delivers
  function AfterPoll(s: State, polled: seq<Answer>): State {
    if s.a || s.aaaa then OnAddresses(s, polled) else s
  }

  // One of these answers is the last of both queries.
  ghost predicate PollEnds(s: State, polled: seq<Answer>) {
    (s.a || s.aaaa) && SomeEnds(s, polled)
  }

  lemma AddressTells(s: State, x: Answer)
    requires Inv(s) && ErrorsOk(s) && s.told == []
    ensures OnAddress(s, x).told == if s.hasClient && LastAnswerOf(s, x) then [NoError] else []
    ensures s.hasClient == OnAddress(s, x).hasClient
  {
    hide Received;
    if s.a || s.aaaa {
      ReceivedMeans(s, x);
    }
  }

  // What an answer leaves as it was, and which query it ends
  lemma ReceivedMeans(s: State, x: Answer)
    ensures var t := Received(s, x);
            && t.newService == s.newService && t.err == s.err && t.hasClient == s.hasClient && t.told == s.told
            && t.aComplete == (s.aComplete || (x.record == A && Ends(x)))
            && t.aaaaComplete == (s.aaaaComplete || (x.record == AAAA && Ends(x)))
            && t.sources == if Ends(x) then Drop(s.sources, Socket(x.record)) else s.sources
  {
    hide Drop, Take, Close;
    TakeMeans(s, x);
    CloseMeans(Take(s, x), x.record);
  }

  lemma TakeMeans(s: State, x: Answer)
    ensures var t := Take(s, x);
            t == s.(addresses := t.addresses, aReceived := t.aReceived, aaaaReceived := t.aaaaReceived)
  {
  }

  lemma CloseMeans(s: State, r: RecordType)
    ensures var t := Close(s, r);
            && t.newService == s.newService && t.err == s.err && t.hasClient == s.hasClient && t.told == s.told
            && t.aComplete == (s.aComplete || r == A) && t.aaaaComplete == (s.aaaaComplete || r == AAAA)
            && t.sources == Drop(s.sources, Socket(r))
  {
    hide Drop;
  }

  lemma NothingAfterReport(s: State, x: Answer)
    requires Inv(s) && s.told != []
    ensures OnAddress(s, x) == s && !LastAnswerOf(s, x)
  {
  }

  lemma {:induction false} AddressesTell(s: State, xs: seq<Answer>)
    requires Inv(s) && ErrorsOk(s) && s.told == []
    ensures var t := OnAddresses(s, xs);
            && t.hasClient == s.hasClient && (s.hasClient ==> (t.told != [] <==> SomeEnds(s, xs)))
            && (t.told == if s.hasClient && SomeEnds(s, xs) then [NoError] else [])
  {
    hide Inv, ErrorsOk, OnAddress, LastAnswerOf;
    if xs != [] {
      var n := |xs| - 1;
      var init, u := xs[..n], OnAddresses(s, xs[..n]);
      AddressesTell(s, init);
      AddressesKeepInv(s, init);
      AddressesKeepErrors(s, init);
      OneMoreEnds(s, xs);
      if u.told == [] {
        AddressTells(u, xs[n]);
      } else {
        NothingAfterReport(u, xs[n]);
      }
    }
  }

  ghost predicate SomeEnds(s: State, xs: seq<Answer>) {
    exists k :: 0 <= k < |xs| && LastAnswerOf(OnAddresses(s, xs[..k]), xs[k])
  }

  lemma OneMoreEnds(s: State, xs: seq<Answer>)
    requires xs != []
    ensures var n := |xs| - 1;
            SomeEnds(s, xs) <==> SomeEnds(s, xs[..n]) || LastAnswerOf(OnAddresses(s, xs[..n]), xs[n])
  {
    hide LastAnswerOf, OnAddresses;
    var n := |xs| - 1;
    assert forall k :: 0 <= k < n ==> xs[..n][..k] == xs[..k] && xs[..n][k] == xs[k];
    if SomeEnds(s, xs[..n]) {
      var k :| 0 <= k < n && LastAnswerOf(OnAddresses(s, xs[..n][..k]), xs[..n][k]);
      assert LastAnswerOf(OnAddresses(s, xs[..k]), xs[k]);
    }
    if SomeEnds(s, xs) {
      var k :| 0 <= k < |xs| && LastAnswerOf(OnAddresses(s, xs[..k]), xs[k]);
      assert k < n ==> LastAnswerOf(OnAddresses(s, xs[..n][..k]), xs[..n][k]);
    }
  }

  lemma ResolvedTells(s: State, err: Err, aErr: Err, aaaaErr: Err)
    requires Inv(s) && s.told == []
    ensures OnResolved(s, err, aErr, aaaaErr).told == Report(s, Resolved(err, aErr, aaaaErr))
  {
    hide OnResolved;
    if s.newService {
      ResolvedOutcome(s, err, aErr, aaaaErr);
    } else {
      NotResolving(s, err, aErr, aaaaErr);
    }
  }

  lemma LongTimerTells(s: State)
    requires Inv(s) && s.told == []
    ensures OnLongTimer(s).told == Report(s, LongTimerFires)
  {
  }

  lemma ShortTimerTells(s: State, polled: seq<Answer>)
    requires Inv(s) && ErrorsOk(s) && s.told == []
    ensures OnShortTimerAfterPoll(s, polled).told == Report(s, ShortTimerFires(polled))
  {
    hide OnAddresses, SomeEnds;
    var u := AfterPoll(s, polled);
    if s.a || s.aaaa {
      AddressesTell(s, polled);
      AddressesKeepInv(s, polled);
      AddressesKeepErrors(s, polled);
      AddressesKeepCancel(s, polled);
    }
  }

  // Polling brings no cancel.
  lemma {:induction false} AddressesKeepCancel(s: State, xs: seq<Answer>)
    ensures CancelSource in OnAddresses(s, xs).sources ==> CancelSource in s.sources
  {
    hide OnAddress;
    if xs != [] {
      AddressesKeepCancel(s, xs[..|xs| - 1]);
      AddressKeepsCancel(OnAddresses(s, xs[..|xs| - 1]), xs[|xs| - 1]);
    }
  }

  lemma AddressKeepsCancel(s: State, x: Answer)
    ensures CancelSource in OnAddress(s, x).sources ==> CancelSource in s.sources
  {
    hide Received;
    ReceivedMeans(s, x);
    DropKeepsOthers(s.sources, Socket(x.record));
  }

  lemma CancelPerformedTells(s: State)
    requires Inv(s) && ErrorsOk(s) && s.told == [] && CancelSource in s.sources
    ensures OnCancelPerformed(s).told == Report(s, CancelPerformed)
  {
  }

  lemma StepTells(s: State, e: Event)
    requires Inv(s) && ErrorsOk(s) && CanHappen(s, e) && s.told == []
    ensures Step(s, e).told == Report(s, e)
  {
    hide Inv, ErrorsOk, OnResolved, OnAddress, OnLongTimer, OnShortTimerAfterPoll, OnCancelPerformed;
    match e
    case Resolved(err, aErr, aaaaErr) => ResolvedTells(s, err, aErr, aaaaErr);
    case Address(x) => AddressTells(s, x);
    case LongTimerFires => LongTimerTells(s);
    case ShortTimerFires(polled) => ShortTimerTells(s, polled);
    case CancelPerformed => CancelPerformedTells(s);
    case _ =>
  }

  // Over every run, whatever the client is told it is told by one event, and exactly this: the reply to the
  // resolve query reports its own error or that of the AAAA query; the last answer to both address queries
  // reports success; the long timer reports a timeout if nothing has been heard; the short timer reports success
  // if enough has, unless a cancel is pending; and the cancel source reports the cancel.
  lemma TellsExactly(before: State, withTimeout: bool, es: seq<Event>, e: Event)
    requires Startable(before) && IsRun(Start(before, withTimeout), es + [e])
    ensures IsRun(Start(before, withTimeout), es) && CanHappen(After(Start(before, withTimeout), es), e)
    ensures var s, t := After(Start(before, withTimeout), es), After(Start(before, withTimeout), es + [e]);
            t.told == if s.told == [] then Report(s, e) else s.told
  {
    hide Inv, ErrorsOk, Step, Start, Report;
    var start := Start(before, withTimeout);
    assert (es + [e])[..|es|] == es;
    var s := After(start, es);
    RunKeepsInv(before, withTimeout, es);
    RunKeepsErrors(before, withTimeout, es);
    if s.told == [] {
      StepTells(s, e);
    } else {
      OneShot(before, withTimeout, es, [e]);
    }
  }

  // --- What has been heard

  // The answers that an event brings while a query is live
  function HeardFrom(s: State, e: Event): seq<Answer> {
    match e
    case Address(x) => if s.a || s.aaaa then [x] else []
    case ShortTimerFires(polled) => if s.a || s.aaaa then HeardOf(s, polled) else []
    case _ => []
  }

  function HeardOf(s: State, xs: seq<Answer>): seq<Answer> {
    if xs == [] then []
    else
      var u := OnAddresses(s, xs[..|xs| - 1]);
      HeardOf(s, xs[..|xs| - 1]) + if u.a || u.aaaa then [xs[|xs| - 1]] else []
  }

  function HeardIn(s: State, es: seq<Event>): seq<Answer> {
    if es == [] then []
    else HeardIn(s, es[..|es| - 1]) + HeardFrom(After(s, es[..|es| - 1]), es[|es| - 1])
  }

  function Usable(xs: seq<Answer>): nat {
    if xs == [] then 0 else Usable(xs[..|xs| - 1]) + if xs[|xs| - 1].usable then 1 else 0
  }

  predicate HasAnswerTo(xs: seq<Answer>, r: RecordType) {
    exists x :: x in xs && x.record == r
  }

  lemma {:induction false} UsableOfBoth(xs: seq<Answer>, ys: seq<Answer>)
    ensures Usable(xs + ys) == Usable(xs) + Usable(ys)
  {
    if ys == [] {
      assert xs + ys == xs;
    } else {
      UsableOfBoth(xs, ys[..|ys| - 1]);
      assert (xs + ys)[..|xs + ys| - 1] == xs + ys[..|ys| - 1];
    }
  }

  // What the service has counted and noted of these answers
  ghost predicate Notes(s: State, t: State, heard: seq<Answer>) {
    && t.addresses == s.addresses + Usable(heard)
    && t.aReceived == (s.aReceived || HasAnswerTo(heard, A))
    && t.aaaaReceived == (s.aaaaReceived || HasAnswerTo(heard, AAAA))
  }

  lemma NotesBoth(s: State, t: State, u: State, xs: seq<Answer>, ys: seq<Answer>)
    requires Notes(s, t, xs) && Notes(t, u, ys)
    ensures Notes(s, u, xs + ys)
  {
    UsableOfBoth(xs, ys);
  }

  lemma NotesNothing(s: State, t: State)
    requires t.addresses == s.addresses && t.aReceived == s.aReceived && t.aaaaReceived == s.aaaaReceived
    ensures Notes(s, t, [])
  {
  }

  lemma OneAnswer(x: Answer)
    ensures Usable([x]) == if x.usable then 1 else 0
    ensures forall r :: HasAnswerTo([x], r) <==> x.record == r
  {
    assert [x][..0] == [] && x in [x];
  }

  // Nothing after the counting changes it.
  lemma ReceivedNotes(s: State, x: Answer)
    ensures Notes(s, Received(s, x), [x])
  {
    hide Drop, Usable, HasAnswerTo;
    OneAnswer(x);
  }

  lemma AddressNotes(s: State, x: Answer)
    ensures Notes(s, OnAddress(s, x), if s.a || s.aaaa then [x] else [])
  {
    hide Received, Usable, HasAnswerTo;
    if s.a || s.aaaa {
      ReceivedNotes(s, x);
    } else {
      NotesNothing(s, s);
    }
  }

  lemma {:induction false} AddressesNote(s: State, xs: seq<Answer>)
    ensures Notes(s, OnAddresses(s, xs), HeardOf(s, xs))
  {
    hide Notes, OnAddress;
    if xs == [] {
      NotesNothing(s, s);
    } else {
      var n := |xs| - 1;
      var u := OnAddresses(s, xs[..n]);
      AddressesNote(s, xs[..n]);
      AddressNotes(u, xs[n]);
      NotesBoth(s, u, OnAddress(u, xs[n]), HeardOf(s, xs[..n]), if u.a || u.aaaa then [xs[n]] else []);
    }
  }

  lemma AskNotes(s: State, aErr: Err, aaaaErr: Err)
    ensures var t := Ask(s, aErr, aaaaErr);
            t.addresses == s.addresses && t.aReceived == s.aReceived && t.aaaaReceived == s.aaaaReceived
  {
    hide Query;
    QueryNotes(s, A, aErr);
    QueryNotes(Query(s, A, aErr), AAAA, aaaaErr);
  }

  lemma QueryNotes(s: State, r: RecordType, err: Err)
    ensures var t := Query(s, r, err);
            t.addresses == s.addresses && t.aReceived == s.aReceived && t.aaaaReceived == s.aaaaReceived
  {
    match err
    case NoError =>
    case _ =>
  }

  lemma ResolvedNotes(s: State, err: Err, aErr: Err, aaaaErr: Err)
    ensures Notes(s, OnResolved(s, err, aErr, aaaaErr), [])
  {
    hide Drop, Ask, Notes;
    AskNotes(s, aErr, aaaaErr);
    NotesNothing(s, OnResolved(s, err, aErr, aaaaErr));
  }

  lemma LongTimerNotes(s: State)
    ensures Notes(s, OnLongTimer(s), [])
  {
    hide Notes;
    if s.aReceived || s.aaaaReceived || s.sources == [] {
      NotesNothing(s, s);
    } else {
      NotesNothing(s, OnLongTimer(s));
    }
  }

  lemma ShortTimerNotes(s: State)
    ensures Notes(s, OnShortTimer(s), [])
  {
    hide Notes;
    if s.sources != [] && Enough(s) {
      NotesNothing(s, OnShortTimer(s));
    } else {
      NotesNothing(s, s);
    }
  }

  lemma CancelNotes(s: State, sourceCreated: bool)
    ensures Notes(s, OnCancel(s, sourceCreated), [])
  {
    hide Notes;
    if s.sources == [] {
      NotesNothing(s, s);
    } else {
      NotesNothing(s, OnCancel(s, sourceCreated));
    }
  }

  lemma CancelPerformedNotes(s: State)
    ensures Notes(s, OnCancelPerformed(s), [])
  {
    hide Notes;
    if s.sources == [] {
      NotesNothing(s, s.(cancelFlag := false));
    } else {
      NotesNothing(s, OnCancelPerformed(s));
    }
  }

  lemma RemovalNotes(s: State)
    ensures Notes(s, OnClientRemoved(s), [])
  {
    hide Notes;
    if s.sources == [] {
      NotesNothing(s, s.(hasClient := false, cancelFlag := false));
    } else {
      NotesNothing(s, OnClientRemoved(s));
    }
  }

  lemma PollNotes(s: State, polled: seq<Answer>)
    ensures Notes(s, OnShortTimerAfterPoll(s, polled), HeardFrom(s, ShortTimerFires(polled)))
  {
    hide Notes, OnAddresses, OnShortTimer, HeardOf;
    var heard, u := HeardFrom(s, ShortTimerFires(polled)), AfterPoll(s, polled);
    NotesNothing(s, s);
    AddressesNote(s, polled);
    ShortTimerNotes(u);
    NotesBoth(s, u, OnShortTimer(u), heard, []);
    assert heard + [] == heard;
  }

  lemma StepNotes(s: State, e: Event)
    ensures Notes(s, Step(s, e), HeardFrom(s, e))
  {
    hide Notes, OnResolved, OnAddress, OnLongTimer, OnShortTimerAfterPoll, HeardOf;
    hide OnCancel, OnCancelPerformed, OnClientRemoved;
    match e
    case Resolved(err, aErr, aaaaErr) => ResolvedNotes(s, err, aErr, aaaaErr);
    case Address(x) => AddressNotes(s, x);
    case LongTimerFires => LongTimerNotes(s);
    case ShortTimerFires(polled) => PollNotes(s, polled);
    case CancelCalled(sourceCreated) => CancelNotes(s, sourceCreated);
    case CancelPerformed => CancelPerformedNotes(s);
    case ClientRemoved => RemovalNotes(s);
  }

  // In every run the service counts exactly the usable answers that it has heard since the resolve began, and
  // knows of each record whether any answer has come.  Only a resolve without a timeout can inherit that.
  lemma {:induction false} AnswersCount(before: State, withTimeout: bool, es: seq<Event>)
    ensures var start := Start(before, withTimeout);
            var s, heard := After(start, es), HeardIn(start, es);
            && s.addresses == Usable(heard)
            && (s.aReceived <==> HasAnswerTo(heard, A) || (before.aReceived && !withTimeout))
            && (s.aaaaReceived <==> HasAnswerTo(heard, AAAA) || (before.aaaaReceived && !withTimeout))
  {
    RunNotes(Start(before, withTimeout), es);
  }

  lemma {:induction false} RunNotes(s: State, es: seq<Event>)
    ensures Notes(s, After(s, es), HeardIn(s, es))
  {
    hide Notes, Step;
    if es == [] {
      NotesNothing(s, s);
    } else {
      var n := |es| - 1;
      RunNotes(s, es[..n]);
      StepNotes(After(s, es[..n]), es[n]);
      NotesBoth(s, After(s, es[..n]), After(s, es), HeardIn(s, es[..n]), HeardFrom(After(s, es[..n]), es[n]));
    }
  }

  // --- The timeout

  // The long timer stays in the list with whatever else is there, unless that is a cancel.
  predicate TimerOk(s: State) {
    s.hasClient && s.sources != [] && CancelSource !in s.sources ==> LongTimer in s.sources
  }

  lemma AddressKeepsTimer(s: State, x: Answer)
    requires Inv(s) && TimerOk(s)
    ensures TimerOk(OnAddress(s, x))
  {
    hide Received;
    if s.a || s.aaaa {
      ReceivedMeans(s, x);
      DropKeepsOthers(s.sources, Socket(x.record));
      assert LongTimer in s.sources ==> LongTimer in Received(s, x).sources + [ShortTimer];
    }
  }

  lemma {:induction false} AddressesKeepTimer(s: State, xs: seq<Answer>)
    requires Inv(s) && TimerOk(s)
    ensures TimerOk(OnAddresses(s, xs))
  {
    hide Inv, TimerOk, OnAddress;
    if xs != [] {
      AddressesKeepInv(s, xs[..|xs| - 1]);
      AddressesKeepTimer(s, xs[..|xs| - 1]);
      AddressKeepsTimer(OnAddresses(s, xs[..|xs| - 1]), xs[|xs| - 1]);
    }
  }

  lemma ResolvedKeepsTimer(s: State, err: Err, aErr: Err, aaaaErr: Err)
    requires Inv(s) && TimerOk(s)
    ensures TimerOk(OnResolved(s, err, aErr, aaaaErr))
  {
    hide OnResolved;
    if s.newService {
      ResolvedOutcome(s, err, aErr, aaaaErr);
    } else {
      NotResolving(s, err, aErr, aaaaErr);
    }
  }

  lemma LongTimerKeepsTimer(s: State)
    requires TimerOk(s)
    ensures TimerOk(OnLongTimer(s))
  {
  }

  lemma CancelKeepsTimer(s: State, sourceCreated: bool)
    requires TimerOk(s)
    ensures TimerOk(OnCancel(s, sourceCreated))
  {
    assert CancelSource in [CancelSource];
  }

  lemma EndKeepsTimer(s: State)
    requires TimerOk(s)
    ensures TimerOk(OnCancelPerformed(s)) && TimerOk(OnClientRemoved(s))
  {
  }

  lemma StepKeepsTimer(s: State, e: Event)
    requires Inv(s) && TimerOk(s)
    ensures TimerOk(Step(s, e))
  {
    hide Inv, TimerOk, OnResolved, OnAddress, OnAddresses, OnLongTimer, OnCancel, OnCancelPerformed, OnClientRemoved;
    match e
    case Resolved(err, aErr, aaaaErr) => ResolvedKeepsTimer(s, err, aErr, aaaaErr);
    case Address(x) => AddressKeepsTimer(s, x);
    case ShortTimerFires(polled) =>
      AddressesKeepTimer(s, polled);
      ShortTimerKeepsTimer(s);
      ShortTimerKeepsTimer(OnAddresses(s, polled));
    case LongTimerFires => LongTimerKeepsTimer(s);
    case CancelCalled(sourceCreated) => CancelKeepsTimer(s, sourceCreated);
    case CancelPerformed => EndKeepsTimer(s);
    case ClientRemoved => EndKeepsTimer(s);
  }

  lemma ShortTimerKeepsTimer(s: State)
    requires TimerOk(s)
    ensures TimerOk(OnShortTimer(s))
  {
  }

  // A resolve with a timeout keeps its long timer for as long as anything is under way, unless the client cancels
  // or goes away.  If no answer has come when it fires, the client is told that the time is up.
  lemma {:induction false} TimesOut(before: State, es: seq<Event>)
    requires Startable(before) && IsRun(Start(before, true), es)
    ensures var s := After(Start(before, true), es);
            && TimerOk(s)
            && (s.told == [] && s.hasClient && s.sources != [] && HeardIn(Start(before, true), es) == [] ==>
                  Step(s, LongTimerFires).told == [TimedOut])
  {
    hide Inv, ErrorsOk, Start, OnLongTimer, TimerOk;
    var start := Start(before, true);
    RunKeepsTimer(before, es);
    RunKeepsInv(before, true, es);
    AnswersCount(before, true, es);
    if After(start, es).told == [] {
      LongTimerTells(After(start, es));
    }
  }

  lemma {:induction false} RunKeepsTimer(before: State, es: seq<Event>)
    requires Startable(before) && IsRun(Start(before, true), es)
    ensures TimerOk(After(Start(before, true), es))
  {
    if es != [] {
      hide Step, TimerOk;
      RunKeepsTimer(before, es[..|es| - 1]);
      RunKeepsInv(before, true, es[..|es| - 1]);
      StepKeepsTimer(After(Start(before, true), es[..|es| - 1]), es[|es| - 1]);
    }
  }

  // --- Without a client

  // A client that has gone is told nothing more.  If it goes before the reply to the resolve query, nothing is
  // left under way, and nothing that still happens changes that.
  lemma {:induction false} RemovalSilences(before: State, withTimeout: bool, es: seq<Event>, later: seq<Event>)
    requires Startable(before) && before.hasClient && IsRun(Start(before, withTimeout), es + [ClientRemoved] + later)
    ensures IsRun(Start(before, withTimeout), es)
    ensures var s := After(Start(before, withTimeout), es);
            var t := After(Start(before, withTimeout), es + [ClientRemoved] + later);
            && !t.hasClient && t.told == s.told && (s.hasClient && s.newService ==> Quiet(t))
    decreases |later|
  {
    hide Start, Step, Inv, Quiet;
    var start, removed := Start(before, withTimeout), es + [ClientRemoved];
    assert removed[..|es|] == es;
    if later == [] {
      assert removed + later == removed;
      RunKeepsInv(before, withTimeout, es);
      RemovalQuiets(After(start, es));
    } else {
      var n := |later| - 1;
      assert (removed + later)[..|removed| + n] == removed + later[..n] && (removed + later)[|removed| + n] == later[n];
      RemovalSilences(before, withTimeout, es, later[..n]);
      var u := After(start, removed + later[..n]);
      NobodyIsTold(u, later[n]);
      if Quiet(u) {
        StaysQuiet(u, later[n]);
      }
    }
  }

  lemma RemovalQuiets(s: State)
    requires Inv(s)
    ensures var t := Step(s, ClientRemoved);
            !t.hasClient && t.told == s.told && (s.hasClient && s.newService ==> Quiet(t))
  {
    if s.sources == [] {
      assert !(s.hasClient && s.newService);
    }
  }

  lemma StaysQuiet(s: State, e: Event)
    requires Quiet(s)
    ensures Quiet(Step(s, e))
  {
    hide Step;
    QuietStays(s, e);
  }

  lemma NobodyIsTold(s: State, e: Event)
    requires !s.hasClient
    ensures !Step(s, e).hasClient && Step(s, e).told == s.told
  {
    hide OnAddress, OnAddresses, OnResolved, OnLongTimer, OnShortTimer;
    hide OnCancel, OnCancelPerformed, OnClientRemoved;
    match e
    case Resolved(err, aErr, aaaaErr) => NobodyHearsReply(s, err, aErr, aaaaErr);
    case Address(x) => NobodyHearsAnswer(s, x);
    case LongTimerFires => NobodyHearsTimers(s);
    case ShortTimerFires(polled) =>
      NobodyHearsAnswers(s, polled);
      NobodyHearsTimers(s);
      NobodyHearsTimers(OnAddresses(s, polled));
    case CancelCalled(sourceCreated) => NobodyHearsCancel(s, sourceCreated);
    case CancelPerformed => NobodyHearsCancel(s, false);
    case ClientRemoved => NobodyHearsCancel(s, false);
  }

  lemma NobodyHearsTimers(s: State)
    requires !s.hasClient
    ensures !OnLongTimer(s).hasClient && OnLongTimer(s).told == s.told
    ensures !OnShortTimer(s).hasClient && OnShortTimer(s).told == s.told
  {
    if s.sources == [] {
      assert OnLongTimer(s) == s && OnShortTimer(s) == s;
    }
  }

  lemma NobodyHearsCancel(s: State, sourceCreated: bool)
    requires !s.hasClient
    ensures !OnCancel(s, sourceCreated).hasClient && OnCancel(s, sourceCreated).told == s.told
    ensures !OnCancelPerformed(s).hasClient && OnCancelPerformed(s).told == s.told
    ensures !OnClientRemoved(s).hasClient && OnClientRemoved(s).told == s.told
  {
    if s.sources == [] {
      assert OnCancel(s, sourceCreated) == s;
    }
  }

  lemma NobodyHearsReply(s: State, err: Err, aErr: Err, aaaaErr: Err)
    requires !s.hasClient
    ensures var t := OnResolved(s, err, aErr, aaaaErr); !t.hasClient && t.told == s.told
  {
    hide OnResolved;
    if s.newService {
      NobodyHearsAsking(s, err, aErr, aaaaErr);
    } else {
      NotResolving(s, err, aErr, aaaaErr);
    }
  }

  lemma NobodyHearsAsking(s: State, err: Err, aErr: Err, aaaaErr: Err)
    requires !s.hasClient && s.newService
    ensures var t := OnResolved(s, err, aErr, aaaaErr); !t.hasClient && t.told == s.told
  {
    hide Drop, Ask, ShutDown;
    AskIsSilent(s, aErr, aaaaErr);
    ShutDownIsSilent(s.(err := err));
    match err
    case NoError =>
    case _ =>
  }

  lemma AskIsSilent(s: State, aErr: Err, aaaaErr: Err)
    ensures var t := Ask(s, aErr, aaaaErr); t.hasClient == s.hasClient && t.told == s.told
  {
    hide Query, ShutDown;
    QueryIsSilent(s, A, aErr);
    QueryIsSilent(Query(s, A, aErr), AAAA, aaaaErr);
    ShutDownIsSilent(Query(Query(s, A, aErr), AAAA, aaaaErr));
  }

  lemma QueryIsSilent(s: State, r: RecordType, err: Err)
    ensures var t := Query(s, r, err); t.hasClient == s.hasClient && t.told == s.told
  {
    match err
    case NoError =>
    case _ =>
  }

  lemma ShutDownIsSilent(s: State)
    ensures ShutDown(s).hasClient == s.hasClient && ShutDown(s).told == s.told
  {
  }

  lemma NobodyHearsAnswer(s: State, x: Answer)
    requires !s.hasClient
    ensures !OnAddress(s, x).hasClient && OnAddress(s, x).told == s.told
  {
    hide Received;
    ReceivedMeans(s, x);
  }

  lemma {:induction false} NobodyHearsAnswers(s: State, xs: seq<Answer>)
    requires !s.hasClient
    ensures !OnAddresses(s, xs).hasClient && OnAddresses(s, xs).told == s.told
  {
    hide OnAddress;
    if xs != [] {
      NobodyHearsAnswers(s, xs[..|xs| - 1]);
      NobodyHearsAnswer(OnAddresses(s, xs[..|xs| - 1]), xs[|xs| - 1]);
    }
  }
}
