// A browser over its whole life (RSNetServiceBrowser.c): searches that begin, are refused or are stopped,
// the replies of the running search, and what the client does in its callbacks.
module NetServiceBrowserSession {
  import opened Sequences
  import opened NetServiceErrors
  import opened NetServiceBrowser

  // The fields of __CFNetServiceBrowser, and the callbacks made so far.  A trigger is a number; 0 is NULL,
  // and no two triggers are the same.
  datatype Session = Session(
    known: State, browse: bool, trigger: nat, lastTrigger: nat, hasCallback: bool, err: Err, log: seq<Notice>)

  // What a client does in a callback of a flush: nothing, CFNetServiceBrowserStopSearch,
  // CFNetServiceBrowserInvalidate, or CFNetServiceBrowserSearchForServices, which is refused
  datatype Response = Nothing | Stop(error: Err, sourceCreated: bool) | Invalidate | SearchAgain

  datatype Event =
    | Search(dnsErr: Err, socketErr: Err)                                   // CFNetServiceBrowserSearchForServices
    | Stopped(error: Err, sourceCreated: bool)                              // CFNetServiceBrowserStopSearch
    | Invalidated                                                           // CFNetServiceBrowserInvalidate
    | CancelPerformed                                                       // _BrowserCancel
    | Replied(err: Err, valid: bool, reply: Reply, plan: seq<Response>)     // _BrowseReply

  const NOTHING := State(map[], [], [], {})

  const NEW := Session(NOTHING, false, 0, 0, true, NoError, [])

  function OnSearch(s: Session, dnsErr: Err, socketErr: Err): Session {
    if !s.hasCallback then s.(err := Invalid)
    else if s.browse then s.(err := InProgress)
    else if dnsErr != NoError then s.(trigger := 0, err := dnsErr)
    else if socketErr != NoError then s.(trigger := 0, err := socketErr)
    else s.(browse := true, trigger := s.lastTrigger + 1, lastTrigger := s.lastTrigger + 1, err := NoError)
  }

  // A client that ends its search forgets what it has been told.
  function Forget(s: Session): Session {
    if s.browse then s.(browse := false, known := NOTHING) else s
  }

  function OnStop(s: Session, error: Err, sourceCreated: bool): Session {
    if s.trigger == 0 then s
    else
      Forget(s).(err := error, lastTrigger := s.lastTrigger + 1,
                 trigger := if sourceCreated then s.lastTrigger + 1 else 0)
  }

  function OnInvalidate(s: Session): Session {
    Forget(s).(trigger := 0, hasCallback := false)
  }

  function OnCancelPerformed(s: Session): Session {
    if s.trigger == 0 then s
    else s.(trigger := 0, log := s.log + if s.hasCallback then [Problem(s.err)] else [])
  }

  function ResponseAt(plan: seq<Response>, i: nat): Response {
    if i < |plan| then plan[i] else Nothing
  }

  predicate Interrupts(r: Response) {
    r.Stop? || r.Invalidate?
  }

  function Respond(s: Session, r: Response): Session {
    match r
    case Nothing => s
    case Stop(error, sourceCreated) => OnStop(s, error, sourceCreated)
    case Invalidate => OnInvalidate(s)
    case SearchAgain => OnSearch(s, NoError, NoError)
  }

  // One callback of a flush
  function Hear(s: Session, n: Notice): Session
    requires n.Found?
  {
    var client := if n.isRemove then s.known.client - {n.service} else s.known.client + {n.service};
    s.(log := s.log + [n], known := s.known.(client := client))
  }

  // How many of n callbacks are made when one that interrupts is the last
  function Callbacks(plan: seq<Response>, n: nat): (k: nat)
    ensures k <= n
    ensures forall i: nat :: i + 1 < k ==> !Interrupts(ResponseAt(plan, i))
    ensures k < n ==> k > 0 && Interrupts(ResponseAt(plan, k - 1))
  {
    if n == 0 then 0
    else
      var k := Callbacks(plan, n - 1);
      if k < n - 1 || (k > 0 && Interrupts(ResponseAt(plan, k - 1))) then k else n
  }

  lemma ThatManyCallbacks(plan: seq<Response>, n: nat, k: nat)
    requires k <= n && forall i: nat :: i + 1 < k ==> !Interrupts(ResponseAt(plan, i))
    requires k < n ==> k > 0 && Interrupts(ResponseAt(plan, k - 1))
    ensures k == Callbacks(plan, n)
  {
  }

  function AfterCallbacks(s: Session, all: seq<Notice>, plan: seq<Response>, k: nat): Session
    requires k <= |all| && forall i :: 0 <= i < |all| ==> all[i].Found?
  {
    if k == 0 then s
    else Respond(Hear(AfterCallbacks(s, all, plan, k - 1), all[k - 1]), ResponseAt(plan, k - 1))
  }

  function OnFlush(s: Session, plan: seq<Response>): Session {
    var all := Announcements(s.known.adds, s.known.removes);
    OnlyTheLastIsFinal(s.known.adds, s.known.removes);
    var t := AfterCallbacks(s, all, plan, Callbacks(plan, |all|));
    t.(known := t.known.(adds := [], removes := []))
  }

  function Note(s: Session, valid: bool, r: Reply): Session {
    if valid then s.(known := Noted(s.known, r)) else s
  }

  // A reply that cannot be made into a service is not valid.
  function OnReply(s: Session, err: Err, valid: bool, r: Reply, plan: seq<Response>): Session {
    if !s.browse then s
    else if err != NoError then Forget(s).(trigger := 0, err := err, log := s.log + [Problem(err)])
    else
      var noted := Note(s, valid, r);
      if s.err != NoError then noted.(log := s.log + [Problem(s.err)])
      else if r.more then noted
      else OnFlush(noted, plan)
  }

  function Step(s: Session, e: Event): Session {
    match e
    case Search(dnsErr, socketErr) => OnSearch(s, dnsErr, socketErr)
    case Stopped(error, sourceCreated) => OnStop(s, error, sourceCreated)
    case Invalidated => OnInvalidate(s)
    case CancelPerformed => OnCancelPerformed(s)
    case Replied(err, valid, r, plan) => OnReply(s, err, valid, r, plan)
  }

  // The run loop performs a cancel only as long as no search has begun.
  predicate CanHappen(s: Session, e: Event) {
    e.CancelPerformed? ==> !s.browse
  }

  function After(es: seq<Event>): Session {
    if es == [] then NEW else Step(After(es[..|es| - 1]), es[|es| - 1])
  }

  predicate IsRun(es: seq<Event>) {
    es == [] || (IsRun(es[..|es| - 1]) && CanHappen(After(es[..|es| - 1]), es[|es| - 1]))
  }

  // Without a running search nothing is known.
  predicate WellFormed(s: Session) {
    && s.trigger <= s.lastTrigger
    && (s.browse ==> s.trigger != 0 && s.hasCallback)
    && (!s.browse ==> s.known == NOTHING)
  }

  // --- Flushing

  // Some of the first k callbacks starts a search again.
  predicate Again(plan: seq<Response>, k: nat) {
    exists i :: 0 <= i < k && i < |plan| && plan[i].SearchAgain?
  }

  // Until a callback interrupts, callbacks add to the log and to what the client knows; a search that is
  // started again leaves its error.
  lemma {:induction false} CallbacksUpTo(s: Session, all: seq<Notice>, plan: seq<Response>, k: nat)
    requires WellFormed(s) && s.browse && k <= |all| && forall i :: 0 <= i < |all| ==> all[i].Found?
    requires forall i: nat :: i < k ==> !Interrupts(ResponseAt(plan, i))
    ensures AfterCallbacks(s, all, plan, k) ==
            s.(log := s.log + all[..k], known := s.known.(client := Heard(s.known.client, all[..k])),
               err := if Again(plan, k) then InProgress else s.err)
  {
    hide Heard, Respond, Again, Interrupts;
    NotAgainYet(plan);
    assert all[..0] == [];
    if k == 0 {
      NothingHeard(s.known.client);
    } else {
      CallbacksUpTo(s, all, plan, k - 1);
      HeardOneMore(s.known.client, all, k - 1);
      OneMoreAgain(plan, k);
      RespondMildly(Hear(AfterCallbacks(s, all, plan, k - 1), all[k - 1]), ResponseAt(plan, k - 1));
    }
  }

  lemma NothingHeard(client: set<Service>)
    ensures Heard(client, []) == client
  {
  }

  lemma RespondMildly(s: Session, r: Response)
    requires s.browse && s.hasCallback && !Interrupts(r)
    ensures Respond(s, r) == if r.SearchAgain? then s.(err := InProgress) else s
  {
  }

  lemma NotAgainYet(plan: seq<Response>)
    ensures !Again(plan, 0)
  {
  }

  lemma OneMoreAgain(plan: seq<Response>, k: nat)
    requires k > 0
    ensures Again(plan, k) <==> Again(plan, k - 1) || ResponseAt(plan, k - 1).SearchAgain?
  {
    if Again(plan, k) {
      var i :| 0 <= i < k && i < |plan| && plan[i].SearchAgain?;
      assert i < k - 1 ==> Again(plan, k - 1);
    }
  }

  // A flush makes the announcements up to the one that interrupts, if any does.  Either the search has then
  // ended, or the client has heard them all.
  lemma FlushMeans(s: Session, plan: seq<Response>)
    requires WellFormed(s) && s.browse
    ensures var all := Announcements(s.known.adds, s.known.removes);
            var k := Callbacks(plan, |all|);
            var t := OnFlush(s, plan);
            && WellFormed(t) && t.log == s.log + all[..k]
            && (t.browse <==> k == 0 || !Interrupts(ResponseAt(plan, k - 1)))
            && (t.browse ==> k == |all| && t.known == Flush(s.known))
            && (t.browse ==> t.err == if Again(plan, k) then InProgress else s.err)
            && (t.browse ==> t.hasCallback)
            && (!t.browse ==> k > 0 && AfterInterruption(t, ResponseAt(plan, k - 1)))
  {
    hide AfterInterruption;
    hide Announcements, AfterCallbacks, Heard, Again, Respond;
    var all := Announcements(s.known.adds, s.known.removes);
    var k := Callbacks(plan, |all|);
    OnlyTheLastIsFinal(s.known.adds, s.known.removes);
    assert all[..|all|] == all;
    if k == 0 || !Interrupts(ResponseAt(plan, k - 1)) {
      CallbacksUpTo(s, all, plan, k);
    } else {
      CallbacksUpTo(s, all, plan, k - 1);
      LastCallback(s, all, plan, k);
      assert all[..k] == all[..k - 1] + [all[k - 1]];
    }
  }

  lemma LastCallback(s: Session, all: seq<Notice>, plan: seq<Response>, k: nat)
    requires 0 < k <= |all| && forall i :: 0 <= i < |all| ==> all[i].Found?
    requires Interrupts(ResponseAt(plan, k - 1))
    ensures var t := AfterCallbacks(s, all, plan, k - 1);
            var u := AfterCallbacks(s, all, plan, k);
            WellFormed(t) && t.browse ==>
              && WellFormed(u) && !u.browse && u.known == NOTHING && u.log == t.log + [all[k - 1]]
              && AfterInterruption(u, ResponseAt(plan, k - 1))
  {
  }

  // A client that has stopped its search waits for the cancel, if there is a source for it; one that has
  // invalidated the browser gets no more callbacks.
  predicate AfterInterruption(s: Session, r: Response) {
    match r
    case Stop(error, sourceCreated) => s.hasCallback && s.err == error && (s.trigger != 0 <==> sourceCreated)
    case Invalidate => !s.hasCallback && s.trigger == 0
    case _ => false
  }

  lemma StepIsWellFormed(s: Session, e: Event)
    requires WellFormed(s) && CanHappen(s, e)
    ensures WellFormed(Step(s, e))
  {
    hide OnFlush;
    if e.Replied? && s.browse {
      FlushMeans(Note(s, e.valid, e.reply), e.plan);
    }
  }

  lemma {:induction false} RunIsWellFormed(es: seq<Event>)
    requires IsRun(es)
    ensures WellFormed(After(es))
  {
    if es != [] {
      RunIsWellFormed(es[..|es| - 1]);
      StepIsWellFormed(After(es[..|es| - 1]), es[|es| - 1]);
    }
  }

  // --- Refused searches

  // The callbacks that a reply makes to announce services
  function Announced(s: Session, e: Event): nat {
    if e.Replied? && s.browse && e.err == NoError && s.err == NoError && !e.reply.more then
      var known := Note(s, e.valid, e.reply).known;
      Callbacks(e.plan, |known.adds| + |known.removes|)
    else 0
  }

  // A search has been refused since the running one began, by a call of its own or in a callback.
  predicate Refused(es: seq<Event>) {
    es != [] &&
    var init, e := es[..|es| - 1], es[|es| - 1];
    if e.Search? then After(init).browse
    else Refused(init) || (e.Replied? && Again(e.plan, Announced(After(init), e)))
  }

  // The error of a running search tells whether another one has been refused since it began.
  lemma {:induction false} ErrorTellsRefusal(es: seq<Event>)
    requires IsRun(es) && After(es).browse
    ensures After(es).err == if Refused(es) then InProgress else NoError
  {
    hide OnFlush;
    if es != [] {
      var init, e := es[..|es| - 1], es[|es| - 1];
      var s := After(init);
      RunIsWellFormed(init);
      if s.browse {
        ErrorTellsRefusal(init);
        if e.Replied? {
          var noted := Note(s, e.valid, e.reply);
          FlushMeans(noted, e.plan);
          OnlyTheLastIsFinal(noted.known.adds, noted.known.removes);
        }
      }
    }
  }

  // A running search announces services if and only if no other has been refused since it began: then a
  // reply that announces no more makes all announcements, up to one that ends the search.  Otherwise every
  // reply reports the refusal instead.
  lemma AnnouncesUnlessRefused(es: seq<Event>, valid: bool, r: Reply, plan: seq<Response>)
    requires IsRun(es) && After(es).browse
    ensures var s := After(es);
            var noted := Note(s, valid, r).known;
            var t := Step(s, Replied(NoError, valid, r, plan));
            var all := Announcements(noted.adds, noted.removes);
            if Refused(es) then t.log == s.log + [Problem(InProgress)] && t.known == noted
            else if r.more then t.log == s.log && t.known == noted
            else t.log == s.log + all[..Callbacks(plan, |all|)]
  {
    hide Step, Refused, Announcements, Note, Callbacks, Interrupts;
    RunIsWellFormed(es);
    ErrorTellsRefusal(es);
    AnnouncesUnlessSilenced(After(es), valid, r, plan);
  }

  lemma AnnouncesUnlessSilenced(s: Session, valid: bool, r: Reply, plan: seq<Response>)
    requires WellFormed(s) && s.browse
    ensures var noted := Note(s, valid, r).known;
            var t := Step(s, Replied(NoError, valid, r, plan));
            var all := Announcements(noted.adds, noted.removes);
            if s.err != NoError then t.log == s.log + [Problem(s.err)] && t.known == noted
            else if r.more then t.log == s.log && t.known == noted
            else t.log == s.log + all[..Callbacks(plan, |all|)]
  {
    hide OnFlush, Announcements, Noted, Callbacks;
    FlushMeans(Note(s, valid, r), plan);
  }

  // Whatever has happened before, a second search silences the one that is running.
  lemma SecondSearchSilences(es: seq<Event>, dnsErr: Err, socketErr: Err)
    requires IsRun(es) && After(es).browse
    ensures var more := es + [Search(dnsErr, socketErr)];
            IsRun(more) && After(more).browse && Refused(more) && After(more).known == After(es).known
  {
    RunIsWellFormed(es);
    assert (es + [Search(dnsErr, socketErr)])[..|es|] == es;
  }

  // --- What the client of a running search knows

  // The replies to the running search
  function Replies(es: seq<Event>): seq<Reply> {
    if es == [] then []
    else
      var init, e := es[..|es| - 1], es[|es| - 1];
      if e.Search? && !After(init).browse then []
      else if e.Replied? then Replies(init) + [e.reply]
      else Replies(init)
  }

  predicate AllValid(es: seq<Event>) {
    forall e :: e in es && e.Replied? ==> e.valid
  }

  lemma ReplyIsStep(s: Session, e: Event)
    requires WellFormed(s) && s.browse && s.err == NoError && e.Replied? && e.valid
    ensures var t := Step(s, e);
            t.browse && t.err == NoError ==> t.known == ReplyStep(s.known, e.reply)
  {
    hide OnFlush, Announcements, Heard, Noted, Flush, Again;
    FlushMeans(Note(s, e.valid, e.reply), e.plan);
  }

  lemma RepliesStep(es: seq<Event>)
    requires es != [] && es[|es| - 1].Replied?
    ensures var init, e := es[..|es| - 1], es[|es| - 1];
            AfterReplies(Replies(es)) ==
            ReplyStep(AfterReplies(Replies(init)), e.reply)
  {
    var init, e := es[..|es| - 1], es[|es| - 1];
    assert (Replies(init) + [e.reply])[..|Replies(init)|] == Replies(init);
  }

  // As long as no search has been refused, what is known follows the replies to the running search.
  lemma {:induction false} FollowsReplies(es: seq<Event>)
    requires IsRun(es) && After(es).browse && !Refused(es) && AllValid(es)
    ensures After(es).known == AfterReplies(Replies(es))
  {
    hide OnReply, AfterReplies, ReplyStep, Again, Announced;
    var init, e := es[..|es| - 1], es[|es| - 1];
    var s := After(init);
    RunIsWellFormed(init);
    ErrorTellsRefusal(es);
    assert e in es && forall x :: x in init ==> x in es;
    if e.Replied? {
      EndedStaysEnded(s, e);
      FollowsReplies(init);
      ErrorTellsRefusal(init);
      ReplyIsStep(s, e);
      RepliesStep(es);
    } else {
      NothingFoundYet();
    }
  }

  lemma EndedStaysEnded(s: Session, e: Event)
    requires WellFormed(s)
    ensures !s.browse && !e.Search? ==> !Step(s, e).browse
  {
  }

  lemma NothingFoundYet()
    ensures AfterReplies([]) == NOTHING
  {
  }

  // After every reply that announces no more, the client of a running search knows exactly the services
  // that are there.
  lemma ClientOfRunningSearch(es: seq<Event>)
    requires IsRun(es) && After(es).browse && !Refused(es) && AllValid(es)
    requires Fits(Replies(es)) && Replies(es) != [] && !Replies(es)[|Replies(es)| - 1].more
    ensures forall x :: x in After(es).known.client <==> Tally(Replies(es), x) > 0
  {
    FollowsReplies(es);
    ClientKnowsWhatIsThere(Replies(es));
  }

  // --- The browser object itself

  class Browser {
    var found: map<Service, nat>
    var adds: seq<Service>
    var removes: seq<Service>
    var browse: bool         // whether _browse is set
    var trigger: nat
    var lastTrigger: nat
    var hasCallback: bool
    var err: Err
    var log: seq<Notice>
    ghost var client: set<Service>

    ghost function View(): Session
      reads this
    {
      Session(State(found, adds, removes, client), browse, trigger, lastTrigger, hasCallback, err, log)
    }

    ghost predicate Valid()
      reads this
    {
      WellFormed(View())
    }

    // CFNetServiceBrowserCreate
    constructor ()
      ensures Valid() && View() == NEW
    {
      found, adds, removes, client := map[], [], [], {};
      browse, trigger, lastTrigger, hasCallback, err, log := false, 0, 0, true, NoError, [];
    }

    // The lists are emptied when a browse ends.
    method EndBrowse()
      modifies this`browse, this`found, this`adds, this`removes, this`client
      ensures View() == Forget(old(View()))
    {
      if browse {
        browse := false;
        found, adds, removes, client := map[], [], [], {};
      }
    }

    // CFNetServiceBrowserSearchForServices
    method SearchForServices(dnsErr: Err, socketErr: Err) returns (ok: bool)
      requires Valid()
      modifies this`err, this`browse, this`trigger, this`lastTrigger
      ensures Valid() && View() == OnSearch(old(View()), dnsErr, socketErr)
      ensures ok <==> old(hasCallback && !browse) && dnsErr == NoError && socketErr == NoError
    {
      if !hasCallback {
        err := Invalid;
        return false;
      }
      if trigger != 0 {
        if browse {
          err := InProgress;
          return false;
        }
        trigger := 0;
      }
      err := dnsErr;
      if err != NoError {
        return false;
      }
      browse := true;
      if socketErr != NoError {
        err := socketErr;
        browse := false;
        return false;
      }
      trigger, lastTrigger := lastTrigger + 1, lastTrigger + 1;
      ok := true;
    }

    // CFNetServiceBrowserStopSearch
    method StopSearch(error: Err, sourceCreated: bool)
      requires Valid()
      modifies this`found, this`adds, this`removes, this`client, this`browse, this`trigger, this`lastTrigger, this`err
      ensures Valid() && View() == OnStop(old(View()), error, sourceCreated)
    {
      if trigger != 0 {
        EndBrowse();
        err := error;
        lastTrigger := lastTrigger + 1;
        trigger := if sourceCreated then lastTrigger else 0;
      }
    }

    // CFNetServiceBrowserInvalidate
    method InvalidateBrowser()
      requires Valid()
      modifies this`found, this`adds, this`removes, this`client, this`browse, this`trigger, this`hasCallback
      ensures Valid() && View() == OnInvalidate(old(View()))
    {
      trigger := 0;
      EndBrowse();
      hasCallback := false;
    }

    // _BrowserCancel
    method BrowserCancel()
      requires Valid()
      modifies this`trigger, this`log
      ensures View() == OnCancelPerformed(old(View())) && (!browse ==> Valid())
    {
      if trigger != 0 {
        if hasCallback {
          log := log + [Problem(err)];
        }
        trigger := 0;
      }
    }

    // One callback during a flush, and what the client does in it
    method Announce(n: Notice, response: Response)
      requires Valid() && browse && n.Found?
      modifies this
      ensures Valid() && View() == Respond(Hear(old(View()), n), response)
      ensures Interrupts(response) <==> trigger != old(trigger)
      ensures browse <==> !Interrupts(response)
    {
      log := log + [n];
      client := if n.isRemove then client - {n.service} else client + {n.service};
      match response {
        case Nothing =>
        case Stop(error, sourceCreated) => StopSearch(error, sourceCreated);
        case Invalidate => InvalidateBrowser();
        case SearchAgain =>
          var ok := SearchForServices(NoError, NoError);
      }
    }

    // One pass of the flush, over the additions or over the removals.  It makes the announcements from
    // number `made` on, and stops after the one in which the client ends the search.
    method AnnounceAll(services: seq<Service>, isRemove: bool, total: nat, plan: seq<Response>, first: nat,
                       ghost s: Session, ghost all: seq<Notice>)
      returns (cb: bool, ghost made: nat)
      requires Valid() && browse && |all| == total && forall i :: 0 <= i < |all| ==> all[i].Found?
      requires first + |services| <= total
      requires forall i :: 0 <= i < |services| ==>
                 all[first + i] == Found(services[i], isRemove, first + i != total - 1)
      requires View() == AfterCallbacks(s, all, plan, first)
      requires forall j: nat :: j < first ==> !Interrupts(ResponseAt(plan, j))
      modifies this
      ensures Valid() && first <= made <= first + |services|
      ensures View() == AfterCallbacks(s, all, plan, made)
      ensures if cb then browse && made == first + |services|
              else !browse && first < made && Interrupts(ResponseAt(plan, made - 1))
      ensures forall j: nat :: j < made && (cb || j + 1 < made) ==> !Interrupts(ResponseAt(plan, j))
    {
      hide Valid, Respond, Hear, Interrupts, ResponseAt;
      var i := 0;
      cb, made := true, first;
      while i < |services|
        invariant i <= |services| && made == first + i && Valid() && browse
        invariant View() == AfterCallbacks(s, all, plan, made)
        invariant forall j: nat :: j < made ==> !Interrupts(ResponseAt(plan, j))
      {
        var saved := trigger;
        Announce(Found(services[i], isRemove, first + i != total - 1), ResponseAt(plan, first + i));
        i := i + 1;
        made := made + 1;
        if saved != trigger {
          cb := false;
          break;
        }
      }
    }

    // The end of _BrowseReply: additions, removals, and the lists are dumped.
    method FlushBuffers(plan: seq<Response>)
      requires Valid() && browse
      modifies this
      ensures Valid() && View() == OnFlush(old(View()), plan)
    {
      hide AfterCallbacks, Announcements, WellFormed, Interrupts, Callbacks, ResponseAt;
      ghost var s, all := View(), Announcements(adds, removes);
      FlushMeans(s, plan);
      OnlyTheLastIsFinal(adds, removes);
      ListsOfAnnouncements(adds, removes);
      NoCallbacksYet(s, all, plan);
      var removals := removes;
      var additions, total := |adds|, |adds| + |removes|;
      var cb, made := AnnounceAll(adds, false, total, plan, 0, s, all);
      if cb {
        cb, made := AnnounceAll(removals, true, total, plan, additions, s, all);
      }
      ThatManyCallbacks(plan, total, made);
      adds, removes := [], [];
    }

    // _BrowseReply
    method BrowseReply(replyErr: Err, valid: bool, r: Reply, plan: seq<Response>)
      requires Valid()
      modifies this
      ensures Valid() && View() == Step(old(View()), Replied(replyErr, valid, r, plan))
    {
      hide OnFlush, Increment, Decrement;
      if !browse {
        return;
      }
      if replyErr != NoError {
        err := replyErr;
        trigger := 0;
        EndBrowse();
      } else if valid {
        if r.isAdd {
          NoteAdd(r.service);
        } else {
          NoteRemove(r.service);
        }
      }
      if err != NoError {
        log := log + [Problem(err)];
      } else if !r.more {
        FlushBuffers(plan);
      }
    }

    // The counting part of _BrowseReply, for an addition and for a removal
    method NoteAdd(x: Service)
      requires Valid() && browse
      modifies this`found, this`adds, this`removes
      ensures Valid() && View() == old(View()).(known := Increment(old(View()).known, x))
    {
      hide Drop, Replace, AddValue;
      var count := (Count(found, x) + 1) % (MAX + 1);
      if count != 1 {
        found := Replace(found, x, count);
      } else {
        found := AddValue(found, x, count);
        adds := adds + [x];
        removes := RemoveFirst(removes, x);
      }
    }

    method NoteRemove(x: Service)
      requires Valid() && browse
      modifies this`found, this`adds, this`removes
      ensures Valid() && View() == old(View()).(known := Decrement(old(View()).known, x))
    {
      hide Drop, Replace;
      var count := (Count(found, x) - 1) % (MAX + 1);
      if count > 0 {
        found := Replace(found, x, count);
      } else {
        found := found - {x};
        removes := removes + [x];
        adds := RemoveFirst(adds, x);
      }
    }
  }

  lemma NoCallbacksYet(s: Session, all: seq<Notice>, plan: seq<Response>)
    requires forall i :: 0 <= i < |all| ==> all[i].Found?
    ensures AfterCallbacks(s, all, plan, 0) == s
  {
  }

  lemma ListsOfAnnouncements(adds: seq<Service>, removes: seq<Service>)
    ensures var all, total := Announcements(adds, removes), |adds| + |removes|;
            && |all| == total
            && (forall i :: 0 <= i < |adds| ==> all[i] == Found(adds[i], false, i != total - 1))
            && (forall i :: 0 <= i < |removes| ==> all[|adds| + i] == Found(removes[i], true, |adds| + i != total - 1))
  {
  }
}
