// What the events of a browser come to: when a search runs, how it ends, and what the callbacks have told the
// client by then.
module NetServiceBrowserRuns {
  import opened Sequences
  import opened NetServiceErrors
  import opened NetServiceBrowser
  import opened NetServiceBrowserSession

  // --- When a search runs

  // What the client does in the last callback that the event makes
  function LastResponse(es: seq<Event>): Response
    requires es != []
  {
    var init, e := es[..|es| - 1], es[|es| - 1];
    var k := Announced(After(init), e);
    if k == 0 then Nothing else ResponseAt(e.plan, k - 1)
  }

  // The client has a callback: it has not been invalidated.
  predicate Listening(es: seq<Event>) {
    es == [] ||
    (Listening(es[..|es| - 1]) && !es[|es| - 1].Invalidated? && !LastResponse(es).Invalidate?)
  }

  // A search has begun with a callback, none running, and both creations successful; since then no reply has had
  // an error, and the client has not ended it, by a call of its own or in a callback.
  predicate Searching(es: seq<Event>) {
    es != [] &&
    var init, e := es[..|es| - 1], es[|es| - 1];
    match e
    case Search(dnsErr, socketErr) => Searching(init) || (Listening(init) && dnsErr == NoError && socketErr == NoError)
    case Replied(err, _, _, _) => Searching(init) && err == NoError && !Interrupts(LastResponse(es))
    case _ => false
  }

  // Whether a search runs, and whether there is a callback, follows from the events.
  lemma {:induction false} SearchingExactly(es: seq<Event>)
    requires IsRun(es)
    ensures After(es).browse <==> Searching(es)
    ensures After(es).hasCallback <==> Listening(es)
  {
    hide Step;
    if es != [] {
      var init, e := es[..|es| - 1], es[|es| - 1];
      SearchingExactly(init);
      RunIsWellFormed(init);
      if e.Replied? {
        AfterReply(After(init), e);
      } else {
        AfterCall(After(init), e);
      }
    }
  }

  lemma AfterCall(s: Session, e: Event)
    requires WellFormed(s) && CanHappen(s, e) && !e.Replied?
    ensures var t := Step(s, e);
            && (t.browse <==>
                  e.Search? && (s.browse || (s.hasCallback && e.dnsErr == NoError && e.socketErr == NoError)))
            && (t.hasCallback <==> s.hasCallback && !e.Invalidated?)
    ensures Announced(s, e) == 0
  {
  }

  lemma AfterReply(s: Session, e: Event)
    requires WellFormed(s) && e.Replied?
    ensures var t, k := Step(s, e), Announced(s, e);
            && (t.browse <==> s.browse && e.err == NoError && (k > 0 ==> !Interrupts(ResponseAt(e.plan, k - 1))))
            && (t.hasCallback <==> s.hasCallback && (k > 0 ==> !ResponseAt(e.plan, k - 1).Invalidate?))
  {
    hide OnFlush;
    if s.browse {
      var noted := Note(s, e.valid, e.reply);
      FlushMeans(noted, e.plan);
      OnlyTheLastIsFinal(noted.known.adds, noted.known.removes);
    }
  }

  // --- How a search begins and ends

  // A call to search tells its client what has come of it: the search runs, with nothing found yet, or the error
  // is stored.
  lemma SearchOutcome(es: seq<Event>, dnsErr: Err, socketErr: Err)
    requires IsRun(es)
    ensures var s, t := After(es), After(es + [Search(dnsErr, socketErr)]);
            if !Listening(es) then t == s.(err := Invalid)
            else if Searching(es) then t == s.(err := InProgress)
            else if dnsErr != NoError then t == s.(trigger := 0, err := dnsErr)
            else if socketErr != NoError then t == s.(trigger := 0, err := socketErr)
            else t.browse && t.err == NoError && t.known == State(map[], [], [], {}) && t.log == s.log && t.trigger != 0
  {
    hide Listening, Searching;
    SearchingExactly(es);
    RunIsWellFormed(es);
    SearchStep(After(es), dnsErr, socketErr);
    assert (es + [Search(dnsErr, socketErr)])[..|es|] == es;
  }

  lemma SearchStep(s: Session, dnsErr: Err, socketErr: Err)
    requires WellFormed(s)
    ensures var t := OnSearch(s, dnsErr, socketErr);
            if !s.hasCallback then t == s.(err := Invalid)
            else if s.browse then t == s.(err := InProgress)
            else if dnsErr != NoError then t == s.(trigger := 0, err := dnsErr)
            else if socketErr != NoError then t == s.(trigger := 0, err := socketErr)
            else t.browse && t.err == NoError && t.known == State(map[], [], [], {}) && t.log == s.log && t.trigger != 0
  {
  }

  // A reply with an error ends the search: the client is told the error, once, and of what was found nothing is
  // left.  Replies that still come tell it nothing.
  lemma ErrorEndsSearch(es: seq<Event>, error: Err, valid: bool, r: Reply, plan: seq<Response>, late: Event)
    requires IsRun(es) && Searching(es) && error != NoError && late.Replied?
    ensures var s, ended := After(es), es + [Replied(error, valid, r, plan)];
            var t := After(ended);
            && !Searching(ended) && IsRun(ended)
            && t == s.(browse := false, known := State(map[], [], [], {}), trigger := 0, err := error,
                       log := s.log + [Problem(error)])
            && After(ended + [late]) == t
  {
    SearchingExactly(es);
    var ended := es + [Replied(error, valid, r, plan)];
    assert ended[..|es|] == es && (ended + [late])[..|ended|] == ended;
  }

  // A client that stops its search is told its own error when the cancel source is performed, if there is one;
  // in between it is told nothing.
  lemma StopIsReported(es: seq<Event>, error: Err, sourceCreated: bool)
    requires IsRun(es) && Searching(es)
    ensures var s, stopped := After(es), es + [Stopped(error, sourceCreated)];
            var t, u := After(stopped), After(stopped + [CancelPerformed]);
            && IsRun(stopped + [CancelPerformed]) && !Searching(stopped)
            && t.log == s.log && t.known == State(map[], [], [], {})
            && u == t.(trigger := 0, log := s.log + if sourceCreated then [Problem(error)] else [])
  {
    SearchingExactly(es);
    RunIsWellFormed(es);
    StopThenCancel(After(es), error, sourceCreated);
    var stopped := es + [Stopped(error, sourceCreated)];
    assert stopped[..|es|] == es && (stopped + [CancelPerformed])[..|stopped|] == stopped;
    assert IsRun(stopped);
  }

  lemma StopThenCancel(s: Session, error: Err, sourceCreated: bool)
    requires WellFormed(s) && s.browse
    ensures var t := OnStop(s, error, sourceCreated);
            var u := OnCancelPerformed(t);
            && !t.browse && t.log == s.log && t.known == State(map[], [], [], {})
            && u == t.(trigger := 0, log := s.log + if sourceCreated then [Problem(error)] else [])
  {
    if !sourceCreated {
      assert s.log + [] == s.log;
    }
  }

  // --- What the callbacks have told

  // How many callbacks had been made when the running search began
  function Begun(es: seq<Event>): nat {
    if es == [] then 0
    else
      var init, e := es[..|es| - 1], es[|es| - 1];
      if e.Search? && !After(init).browse then |After(init).log| else Begun(init)
  }

  lemma {:induction false} HeardBoth(client: set<Service>, a: seq<Notice>, b: seq<Notice>)
    ensures Heard(client, a + b) == Heard(Heard(client, a), b)
  {
    if b == [] {
      assert a + b == a;
    } else {
      HeardBoth(client, a, b[..|b| - 1]);
      assert (a + b)[..|a + b| - 1] == a + b[..|b| - 1];
    }
  }

  lemma HeardProblem(client: set<Service>, err: Err)
    ensures Heard(client, [Problem(err)]) == client && Heard(client, []) == client
  {
    assert [Problem(err)][..0] == [];
  }

  // A reply that leaves the search running adds to the log just what the client then knows.
  lemma ReplyIsHeard(s: Session, e: Event)
    requires WellFormed(s) && s.browse && e.Replied? && Step(s, e).browse
    ensures var t := Step(s, e);
            s.log <= t.log && t.known.client == Heard(s.known.client, t.log[|s.log|..])
  {
    hide OnFlush, Heard, Announcements, Noted;
    HeardProblem(s.known.client, s.err);
    var noted := Note(s, e.valid, e.reply);
    NotedKeepsClient(s, e);
    FlushMeans(noted, e.plan);
    var all := Announcements(noted.known.adds, noted.known.removes);
    assert all[..|all|] == all;
    var t := Step(s, e);
    assert t.log[|s.log|..] == (s.log + t.log[|s.log|..])[|s.log|..];
  }

  lemma NotedKeepsClient(s: Session, e: Event)
    requires e.Replied?
    ensures var noted := Note(s, e.valid, e.reply);
            noted == s.(known := noted.known) && noted.known.client == s.known.client
  {
  }

  // What the client of a running search knows is what the callbacks since it began have told.
  lemma {:induction false} ClientHears(es: seq<Event>)
    requires IsRun(es) && After(es).browse
    ensures var log := After(es).log;
            Begun(es) <= |log| && After(es).known.client == Heard({}, log[Begun(es)..])
  {
    hide Step, Heard;
    if es != [] {
      var init, e := es[..|es| - 1], es[|es| - 1];
      var s, t := After(init), After(es);
      RunIsWellFormed(init);
      if s.browse {
        ClientHears(init);
        if e.Replied? {
          ReplyIsHeard(s, e);
          var told := t.log[|s.log|..];
          assert t.log == s.log + told && t.log[Begun(es)..] == s.log[Begun(es)..] + told;
          HeardBoth({}, s.log[Begun(es)..], told);
        } else {
          RunningGoesOn(s, e);
        }
      } else {
        SearchBegins(s, e);
        HeardProblem({}, NoError);
      }
    }
  }

  lemma RunningGoesOn(s: Session, e: Event)
    requires WellFormed(s) && s.browse && !e.Replied? && CanHappen(s, e) && Step(s, e).browse
    ensures Step(s, e).log == s.log && Step(s, e).known == s.known
  {
  }

  lemma SearchBegins(s: Session, e: Event)
    requires WellFormed(s) && !s.browse && CanHappen(s, e) && Step(s, e).browse
    ensures e.Search? && Step(s, e).log == s.log && Step(s, e).known == State(map[], [], [], {})
  {
  }

  // The callbacks of a search that has not been silenced, taken together, tell exactly what is there, whenever a
  // reply announces no more.
  lemma CallbacksTellWhatIsThere(es: seq<Event>)
    requires IsRun(es) && Searching(es) && !Refused(es) && AllValid(es)
    requires Fits(Replies(es)) && Replies(es) != [] && !Replies(es)[|Replies(es)| - 1].more
    ensures Begun(es) <= |After(es).log|
    ensures forall x :: x in Heard({}, After(es).log[Begun(es)..]) <==> Tally(Replies(es), x) > 0
  {
    hide Heard, Fits, Refused, Searching;
    SearchingExactly(es);
    ClientHears(es);
    ClientOfRunningSearch(es);
  }
}
