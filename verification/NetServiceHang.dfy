// When a resolve hangs: over every run in which the client neither cancels nor goes away, and the
// environment delivers only what has been asked for.
module NetServiceHang {
  import opened Sequences
  import opened NetServiceErrors
  import opened NetServiceResolve

  predicate Live(s: State, r: RecordType) {
    if r == A then s.a else s.aaaa
  }

  // Each answer that a poll delivers is one to a query that is live at that moment.
  predicate PolledLive(s: State, xs: seq<Answer>) {
    xs == [] ||
    var n := |xs| - 1;
    PolledLive(s, xs[..n]) && Live(OnAddresses(s, xs[..n]), xs[n].record)
  }

  // Replies come only to queries that are live, and timers fire only if they have been set.
  predicate Undisturbed(s: State, e: Event) {
    match e
    case Resolved(_, _, _) => s.newService
    case Address(x) => Live(s, x.record)
    case LongTimerFires => LongTimer in s.sources
    case ShortTimerFires(polled) => ShortTimer in s.sources && PolledLive(s, polled)
    case CancelCalled(_) => false
    case CancelPerformed => CancelSource in s.sources
    case ClientRemoved => false
  }

  predicate UndisturbedRun(s: State, es: seq<Event>) {
    es == [] ||
    var n := |es| - 1;
    UndisturbedRun(s, es[..n]) && Undisturbed(After(s, es[..n]), es[n])
  }

  // The A query alone cannot be created.
  predicate LosesA(e: Event) {
    e.Resolved? && e.err == NoError && e.aErr != NoError && e.aaaaErr == NoError
  }

  predicate LostA(es: seq<Event>) {
    exists e :: e in es && LosesA(e)
  }

  // Where a run can be.  `stale` tells whether an earlier resolve left its A-received flag, `lost` whether
  // the A query alone could not be created.
  ghost predicate Where(s: State, stale: bool, lost: bool) {
    && s.hasClient && CancelSource !in s.sources
    && (s.told != [] ==> Quiet(s))
    && (s.newService ==>
          && !lost && s.told == [] && s.aReceived == stale && ShortTimer !in s.sources
          && !s.a && !s.aaaa && !s.aComplete && !s.aaaaComplete)
    && (s.told == [] && !s.newService ==>
          && (s.aaaa || s.aaaaComplete) && !(s.aaaa && s.aaaaComplete) && (s.aaaaComplete ==> s.aaaaReceived)
          && (ShortTimer in s.sources ==> s.aComplete || s.aaaaComplete)
          && if lost then !s.a && !s.aComplete && s.aReceived == stale
             else (s.a || s.aComplete) && !(s.a && s.aComplete) && !(s.aComplete && s.aaaaComplete)
                  && (s.aComplete ==> s.aReceived))
  }

  lemma StartIsSomewhere(before: State, withTimeout: bool)
    requires Startable(before) && before.hasClient
    ensures Where(Start(before, withTimeout), before.aReceived && !withTimeout, false)
  {
  }

  lemma AddressStays(s: State, x: Answer, stale: bool, lost: bool)
    requires Where(s, stale, lost) && Live(s, x.record)
    ensures Where(OnAddress(s, x), stale, lost)
  {
    hide Drop;
    DropKeepsOthers(s.sources, Socket(x.record));
    assert s.told == [] && !s.newService;
    assert CancelSource !in Drop(s.sources, Socket(x.record)) + [ShortTimer];
    assert CancelSource !in s.sources + [ShortTimer];
    var t := OnAddress(s, x);
    assert t.aComplete && t.aaaaComplete ==> t.told == [t.err];
  }

  lemma {:induction false} AddressesStay(s: State, xs: seq<Answer>, stale: bool, lost: bool)
    requires Where(s, stale, lost) && PolledLive(s, xs)
    ensures Where(OnAddresses(s, xs), stale, lost)
  {
    if xs != [] {
      AddressesStay(s, xs[..|xs| - 1], stale, lost);
      AddressStays(OnAddresses(s, xs[..|xs| - 1]), xs[|xs| - 1], stale, lost);
    }
  }

  lemma ResolvedStays(s: State, err: Err, aErr: Err, aaaaErr: Err, stale: bool)
    requires Where(s, stale, false) && s.newService
    ensures Where(OnResolved(s, err, aErr, aaaaErr), stale, LosesA(Resolved(err, aErr, aaaaErr)))
  {
    hide Drop, Ask;
    AskOutcome(s, aErr, aaaaErr);
    DropKeepsOthers(Ask(s, aErr, aaaaErr).sources, ResolveSocket);
    assert Drop([], ResolveSocket) == [] by {
      NothingToDrop(ResolveSocket);
    }
  }

  lemma StepStays(s: State, e: Event, stale: bool, lost: bool)
    requires Where(s, stale, lost) && Undisturbed(s, e)
    ensures Where(Step(s, e), stale, lost || LosesA(e))
  {
    match e
    case Resolved(err, aErr, aaaaErr) => ResolvedStays(s, err, aErr, aaaaErr, stale);
    case Address(x) => AddressStays(s, x, stale, lost);
    case ShortTimerFires(polled) => AddressesStay(s, polled, stale, lost);
    case LongTimerFires =>
    case CancelPerformed =>
  }

  lemma {:induction false} RunStays(before: State, withTimeout: bool, es: seq<Event>)
    requires Startable(before) && before.hasClient && UndisturbedRun(Start(before, withTimeout), es)
    ensures Where(After(Start(before, withTimeout), es), before.aReceived && !withTimeout, LostA(es))
  {
    hide Where, Step, Undisturbed;
    if es == [] {
      StartIsSomewhere(before, withTimeout);
    } else {
      var n := |es| - 1;
      RunStays(before, withTimeout, es[..n]);
      StepStays(After(Start(before, withTimeout), es[..n]), es[n], before.aReceived && !withTimeout, LostA(es[..n]));
      assert es == es[..n] + [es[n]];
    }
  }

  // --- Hanging: the client has not been told, and nothing that can still happen changes anything

  ghost predicate Hangs(s: State) {
    s.told == [] && forall e :: Undisturbed(s, e) ==> Step(s, e) == s
  }

  lemma RunOfOne(s: State, e: Event)
    ensures After(s, [e]) == Step(s, e)
    ensures UndisturbedRun(s, [e]) <==> Undisturbed(s, e)
  {
    assert [e][..0] == [];
  }

  lemma RunOfTwo(s: State, e: Event, e': Event)
    ensures After(s, [e, e']) == Step(Step(s, e), e')
    ensures UndisturbedRun(s, [e, e']) <==> Undisturbed(s, e) && Undisturbed(Step(s, e), e')
  {
    RunOfOne(s, e);
    assert [e, e'][..1] == [e];
  }

  // The last answer to a query; whether the short timer can be created is left open.
  function LastAnswer(r: RecordType, timerCreated: bool): Event {
    Address(Answer(r, false, NoError, false, timerCreated))
  }

  lemma HangsIfDead(s: State, stale: bool, lost: bool)
    requires Where(s, stale, lost)
    ensures Hangs(s) <==> s.told == [] && lost && s.aaaaComplete && (ShortTimer !in s.sources || stale)
  {
    if s.told == [] {
      if s.newService {
        assert Undisturbed(s, Resolved(Failed(0), NoError, NoError));
      } else if s.aaaa {
        assert Undisturbed(s, LastAnswer(AAAA, false));
      } else if s.a {
        assert Undisturbed(s, LastAnswer(A, false));
      } else if ShortTimer in s.sources && !stale {
        assert Undisturbed(s, ShortTimerFires([]));
      }
    }
  }

  // A resolve hangs if and only if the A query alone could not be created, the AAAA query is complete, and
  // either no short timer was created or an earlier resolve has left its A-received flag, which a timeout
  // clears.  The error of the A query is lost, so that the resolve goes on without it.
  lemma HangsExactly(before: State, withTimeout: bool, es: seq<Event>)
    requires Startable(before) && before.hasClient && UndisturbedRun(Start(before, withTimeout), es)
    ensures var s := After(Start(before, withTimeout), es);
            var stale := before.aReceived && !withTimeout;
            Hangs(s) <==> s.told == [] && LostA(es) && s.aaaaComplete && (ShortTimer !in s.sources || stale)
  {
    RunStays(before, withTimeout, es);
    HangsIfDead(After(Start(before, withTimeout), es), before.aReceived && !withTimeout, LostA(es));
  }

  // --- Doom: the client has not been told, and whatever still happens, it will not be

  ghost predicate Doomed(s: State) {
    forall more :: UndisturbedRun(s, more) ==> After(s, more).told == []
  }

  predicate Hopeless(s: State, stale: bool, lost: bool) {
    s.told == [] && lost && (stale || (s.aaaaComplete && ShortTimer !in s.sources))
  }

  lemma AddressLeavesHopeless(s: State, x: Answer, stale: bool, lost: bool)
    requires Where(s, stale, lost) && Hopeless(s, stale, lost) && Live(s, x.record)
    ensures Hopeless(OnAddress(s, x), stale, lost)
  {
  }

  lemma {:induction false} AddressesLeaveHopeless(s: State, xs: seq<Answer>, stale: bool, lost: bool)
    requires Where(s, stale, lost) && Hopeless(s, stale, lost) && PolledLive(s, xs)
    ensures Hopeless(OnAddresses(s, xs), stale, lost)
  {
    if xs != [] {
      AddressesStay(s, xs[..|xs| - 1], stale, lost);
      AddressesLeaveHopeless(s, xs[..|xs| - 1], stale, lost);
      AddressLeavesHopeless(OnAddresses(s, xs[..|xs| - 1]), xs[|xs| - 1], stale, lost);
    }
  }

  lemma StepLeavesHopeless(s: State, e: Event, stale: bool, lost: bool)
    requires Where(s, stale, lost) && Hopeless(s, stale, lost) && Undisturbed(s, e)
    ensures Hopeless(Step(s, e), stale, lost)
  {
    match e
    case Address(x) => AddressLeavesHopeless(s, x, stale, lost);
    case ShortTimerFires(polled) =>
      AddressesStay(s, polled, stale, lost);
      AddressesLeaveHopeless(s, polled, stale, lost);
    case LongTimerFires =>
    case CancelPerformed =>
  }

  lemma {:induction false} HopelessStays(s: State, more: seq<Event>, stale: bool, lost: bool)
    requires Where(s, stale, lost) && Hopeless(s, stale, lost) && UndisturbedRun(s, more)
    ensures Where(After(s, more), stale, lost) && Hopeless(After(s, more), stale, lost)
  {
    if more != [] {
      var n := |more| - 1;
      HopelessStays(s, more[..n], stale, lost);
      StepStays(After(s, more[..n]), more[n], stale, lost);
      StepLeavesHopeless(After(s, more[..n]), more[n], stale, lost);
    }
  }

  // Otherwise the client can still be told.
  lemma Hope(s: State, stale: bool, lost: bool) returns (more: seq<Event>)
    requires Where(s, stale, lost) && !Hopeless(s, stale, lost)
    ensures UndisturbedRun(s, more) && After(s, more).told != []
  {
    if s.told != [] {
      more := [];
    } else if s.newService {
      var e := Resolved(Failed(0), NoError, NoError);
      more := [e];
      RunOfOne(s, e);
    } else if lost {
      more := HopeAfterLoss(s, stale);
    } else if s.a && s.aaaa {
      more := [LastAnswer(A, false), LastAnswer(AAAA, false)];
      RunOfTwo(s, LastAnswer(A, false), LastAnswer(AAAA, false));
    } else {
      var e := LastAnswer(if s.a then A else AAAA, false);
      more := [e];
      RunOfOne(s, e);
    }
  }

  lemma HopeAfterLoss(s: State, stale: bool) returns (more: seq<Event>)
    requires Where(s, stale, true) && !Hopeless(s, stale, true) && s.told == [] && !s.newService
    ensures UndisturbedRun(s, more) && After(s, more).told != []
  {
    var e := ShortTimerFires([]);
    if s.aaaa {
      more := HopeOfAAAA(s, stale);
    } else {
      more := [e];
      RunOfOne(s, e);
    }
  }

  lemma HopeOfAAAA(s: State, stale: bool) returns (more: seq<Event>)
    requires Where(s, stale, true) && !Hopeless(s, stale, true) && s.told == [] && !s.newService && s.aaaa
    ensures UndisturbedRun(s, more) && After(s, more).told != []
  {
    hide Drop;
    var e := ShortTimerFires([]);
    more := [LastAnswer(AAAA, true), e];
    RunOfTwo(s, LastAnswer(AAAA, true), e);
    assert Step(s, LastAnswer(AAAA, true)).sources == Drop(s.sources, AAAASocket) + [ShortTimer];
  }

  // The resolve can no longer end if and only if the A query alone could not be created, and the
  // A-received flag was left or the AAAA query is complete without a short timer.
  lemma DoomedExactly(before: State, withTimeout: bool, es: seq<Event>)
    requires Startable(before) && before.hasClient && UndisturbedRun(Start(before, withTimeout), es)
    ensures var s := After(Start(before, withTimeout), es);
            var stale := before.aReceived && !withTimeout;
            Doomed(s) <==> s.told == [] && LostA(es) && (stale || (s.aaaaComplete && ShortTimer !in s.sources))
  {
    var s, stale := After(Start(before, withTimeout), es), before.aReceived && !withTimeout;
    RunStays(before, withTimeout, es);
    if Hopeless(s, stale, LostA(es)) {
      forall more | UndisturbedRun(s, more)
        ensures After(s, more).told == []
      {
        HopelessStays(s, more, stale, LostA(es));
      }
    } else {
      var more := Hope(s, stale, LostA(es));
    }
  }
}
