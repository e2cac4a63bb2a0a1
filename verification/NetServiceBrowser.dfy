// The browser of network services (RSNetServiceBrowser.c).  Replies of the browse are counted per
// service, and buffered as additions and removals until one arrives that announces no more.
module NetServiceBrowser {
  import opened Sequences
  import opened NetServiceErrors

  datatype Service = Service(domain: string, kind: string, name: string)

  // The counts are UInt32 values.
  const MAX: nat := 0xFFFF_FFFF

  // A callback: kCFNetServiceFlagRemove and kCFNetServiceFlagMoreComing with a service, or an error
  datatype Notice =
    | Found(service: Service, isRemove: bool, moreComing: bool)
    | Problem(err: Err)

  // _found, _adds and _removes, and the services that the client has been told are there
  datatype State = State(
    found: map<Service, nat>, adds: seq<Service>, removes: seq<Service>, client: set<Service>)

  function Count(found: map<Service, nat>, x: Service): nat {
    if x in found then found[x] else 0
  }

  // CFDictionaryReplaceValue and CFDictionaryAddValue
  function Replace(found: map<Service, nat>, x: Service, count: nat): map<Service, nat> {
    if x in found then found[x := count] else found
  }

  function AddValue(found: map<Service, nat>, x: Service, count: nat): map<Service, nat> {
    if x in found then found else found[x := count]
  }

  // _BrowseReply with kDNSServiceFlagsAdd
  function Increment(s: State, x: Service): State {
    var count := (Count(s.found, x) + 1) % (MAX + 1);
    if count != 1 then s.(found := Replace(s.found, x, count))
    else s.(found := AddValue(s.found, x, count), adds := s.adds + [x], removes := Drop(s.removes, x))
  }

  // _BrowseReply without it
  function Decrement(s: State, x: Service): State {
    var count := (Count(s.found, x) - 1) % (MAX + 1);
    if count > 0 then s.(found := Replace(s.found, x, count))
    else s.(found := s.found - {x}, removes := s.removes + [x], adds := Drop(s.adds, x))
  }

  ghost function Elements(s: seq<Service>): set<Service> {
    set x | x in s
  }

  // What the client would know if the buffers were flushed now
  ghost function Told(s: State): set<Service> {
    (s.client + Elements(s.adds)) - Elements(s.removes)
  }

  ghost predicate Agrees(s: State) {
    && (forall x :: x in s.found ==> 1 <= s.found[x] <= 0xFFFF_FFFF)
    && NoDuplicates(s.adds) && NoDuplicates(s.removes) && Elements(s.adds) !! Elements(s.removes)
    && Told(s) == s.found.Keys
  }

  // Counting a service once more keeps the agreement exactly unless the count overflows.
  lemma IncrementAgrees(s: State, x: Service)
    requires Agrees(s)
    ensures Agrees(Increment(s, x)) <==> Count(s.found, x) < 0xFFFF_FFFF
    ensures Count(s.found, x) < 0xFFFF_FFFF ==> Count(Increment(s, x).found, x) == Count(s.found, x) + 1
    ensures Count(s.found, x) == 0xFFFF_FFFF ==> x in Increment(s, x).found && Count(Increment(s, x).found, x) == 0
    ensures forall y :: y != x ==> Count(Increment(s, x).found, y) == Count(s.found, y)
  {
    hide Drop;
    var t := Increment(s, x);
    if Count(s.found, x) == 0 {
      assert x !in Told(s);
      DropKeepsOthers(s.removes, x);
      DropKeepsDistinct(s.removes, x);
      assert t.adds[|s.adds|] == x;
      assert Elements(t.adds) == Elements(s.adds) + {x};
      assert Elements(t.removes) == Elements(s.removes) - {x};
    }
  }

  // A removal takes the count back by one; for a service that is not known it changes nothing, although
  // the count it computes wraps around.
  lemma DecrementAgrees(s: State, x: Service)
    requires Agrees(s)
    ensures Agrees(Decrement(s, x))
    ensures Count(s.found, x) == 0 ==> Decrement(s, x) == s
    ensures Count(s.found, x) > 0 ==> Count(Decrement(s, x).found, x) == Count(s.found, x) - 1
    ensures forall y :: y != x ==> Count(Decrement(s, x).found, y) == Count(s.found, y)
  {
    hide Drop;
    var t := Decrement(s, x);
    if Count(s.found, x) == 1 {
      assert x in Told(s);
      DropKeepsOthers(s.adds, x);
      DropKeepsDistinct(s.adds, x);
      assert t.removes[|s.removes|] == x;
      assert Elements(t.removes) == Elements(s.removes) + {x};
      assert Elements(t.adds) == Elements(s.adds) - {x};
    }
  }

  // The callbacks of one flush: additions first, and MoreComing on all but one of them
  function Announcements(adds: seq<Service>, removes: seq<Service>): seq<Notice> {
    var total := |adds| + |removes|;
    seq(|adds|, i requires 0 <= i < |adds| => Found(adds[i], false, i != total - 1))
    + seq(|removes|, i requires 0 <= i < |removes| => Found(removes[i], true, i != |removes| - 1))
  }

  // Exactly the last callback of a flush lacks MoreComing.
  lemma OnlyTheLastIsFinal(adds: seq<Service>, removes: seq<Service>)
    ensures var ns := Announcements(adds, removes);
            && |ns| == |adds| + |removes|
            && forall i :: 0 <= i < |ns| ==> ns[i].Found? && (ns[i].moreComing <==> i < |ns| - 1)
  {
  }

  // What a client makes of the callbacks it gets
  ghost function Heard(client: set<Service>, ns: seq<Notice>): set<Service> {
    if ns == [] then client
    else
      var before := Heard(client, ns[..|ns| - 1]);
      match ns[|ns| - 1]
      case Found(x, isRemove, _) => if isRemove then before - {x} else before + {x}
      case Problem(_) => before
  }

  lemma {:induction false} HeardAll(client: set<Service>, adds: seq<Service>, removes: seq<Service>, ns: seq<Notice>)
    requires |ns| == |adds| + |removes|
    requires forall i :: 0 <= i < |adds| ==> ns[i].Found? && ns[i].service == adds[i] && !ns[i].isRemove
    requires forall i :: |adds| <= i < |ns| ==> ns[i].Found? && ns[i].service == removes[i - |adds|] && ns[i].isRemove
    ensures Heard(client, ns) == (client + Elements(adds)) - Elements(removes)
  {
    if removes != [] {
      var n := |removes| - 1;
      HeardAll(client, adds, removes[..n], ns[..|ns| - 1]);
      assert removes == removes[..n] + [removes[n]];
      assert Elements(removes) == Elements(removes[..n]) + {removes[n]};
    } else if adds != [] {
      var n := |adds| - 1;
      HeardAll(client, adds[..n], removes, ns[..|ns| - 1]);
      assert adds == adds[..n] + [adds[n]];
      assert Elements(adds) == Elements(adds[..n]) + {adds[n]};
    }
  }

  lemma HeardOneMore(client: set<Service>, ns: seq<Notice>, k: nat)
    requires k < |ns| && ns[k].Found?
    ensures var before := Heard(client, ns[..k]);
            Heard(client, ns[..k + 1]) == if ns[k].isRemove then before - {ns[k].service} else before + {ns[k].service}
    ensures ns[..k + 1] == ns[..k] + [ns[k]]
  {
    assert ns[..k + 1][..k] == ns[..k];
  }

  ghost function Flush(s: State): State {
    s.(client := Heard(s.client, Announcements(s.adds, s.removes)), adds := [], removes := [])
  }

  // After a flush the client knows exactly what has been found.
  lemma FlushAgrees(s: State)
    requires Agrees(s)
    ensures Agrees(Flush(s)) && Flush(s).client == s.found.Keys
  {
    HeardAll(s.client, s.adds, s.removes, Announcements(s.adds, s.removes));
  }

  // Each callback of a flush keeps the agreement.
  lemma HearingAgrees(s: State, n: Notice)
    requires Agrees(s) && n.Found?
    requires n.service in if n.isRemove then s.removes else s.adds
    ensures Agrees(s.(client := if n.isRemove then s.client - {n.service} else s.client + {n.service}))
  {
  }

  // --- Whole runs, against a plain count of the replies

  datatype Reply = Reply(service: Service, isAdd: bool, more: bool)

  // How often x is there: additions less removals, where a removal of something absent is ignored
  function Tally(rs: seq<Reply>, x: Service): nat {
    if rs == [] then 0
    else
      var before, r := Tally(rs[..|rs| - 1], x), rs[|rs| - 1];
      if r.service != x then before
      else if r.isAdd then before + 1
      else if before > 0 then before - 1
      else 0
  }

  function Noted(s: State, r: Reply): State {
    if r.isAdd then Increment(s, r.service) else Decrement(s, r.service)
  }

  ghost function ReplyStep(s: State, r: Reply): State {
    if r.more then Noted(s, r) else Flush(Noted(s, r))
  }

  ghost function AfterReplies(rs: seq<Reply>): State {
    if rs == [] then State(map[], [], [], {}) else ReplyStep(AfterReplies(rs[..|rs| - 1]), rs[|rs| - 1])
  }

  lemma AgreesAtStart()
    ensures Agrees(State(map[], [], [], {}))
  {
  }

  lemma ZeroDisagrees(s: State, x: Service)
    requires x in s.found && Count(s.found, x) == 0
    ensures !Agrees(s)
  {
  }

  lemma StepAgrees(s: State, r: Reply)
    requires Agrees(s)
    ensures var fits, c := r.isAdd ==> Count(s.found, r.service) < 0xFFFF_FFFF, Count(s.found, r.service);
            && (Agrees(ReplyStep(s, r)) <==> fits)
            && (fits && !r.more ==> ReplyStep(s, r).client == ReplyStep(s, r).found.Keys)
            && (fits ==> Count(ReplyStep(s, r).found, r.service) ==
                         if r.isAdd then c + 1 else if c > 0 then c - 1 else 0)
    ensures forall y :: y != r.service ==> Count(ReplyStep(s, r).found, y) == Count(s.found, y)
  {
    hide Agrees;
    var noted := Noted(s, r);
    IncrementAgrees(s, r.service);
    DecrementAgrees(s, r.service);
    if r.isAdd && Count(s.found, r.service) >= 0xFFFF_FFFF {
      MaxIsMost(s, r.service);
      ZeroDisagrees(Flush(noted), r.service);
    } else {
      FlushAgrees(noted);
    }
  }

  lemma MaxIsMost(s: State, x: Service)
    requires Agrees(s)
    ensures Count(s.found, x) <= 0xFFFF_FFFF
  {
  }

  // Every tally can be counted in 32 bits, after the replies and at any time.
  ghost predicate TallyFits(rs: seq<Reply>) {
    forall x :: Tally(rs, x) <= 0xFFFF_FFFF
  }

  ghost predicate Fits(rs: seq<Reply>) {
    forall k :: 0 <= k <= |rs| ==> TallyFits(rs[..k])
  }

  ghost predicate AgreesThroughout(rs: seq<Reply>) {
    forall k :: 0 <= k <= |rs| ==> Agrees(AfterReplies(rs[..k]))
  }

  lemma OneMore(rs: seq<Reply>)
    requires rs != []
    ensures var init := rs[..|rs| - 1];
            && (Fits(rs) <==> Fits(init) && TallyFits(rs))
            && (AgreesThroughout(rs) <==> AgreesThroughout(init) && Agrees(AfterReplies(rs)))
  {
    hide Agrees, TallyFits, AfterReplies;
    var init := rs[..|rs| - 1];
    assert rs[..|rs|] == rs;
    forall k | 0 <= k <= |init|
      ensures init[..k] == rs[..k]
    {
    }
  }

  // The agreement holds throughout a run if and only if no count ever overflows; each count is then the
  // tally of the replies.
  lemma {:induction false} RunAgrees(rs: seq<Reply>)
    ensures AgreesThroughout(rs) <==> Fits(rs)
    ensures Fits(rs) ==> Agrees(AfterReplies(rs)) && forall x :: Count(AfterReplies(rs).found, x) == Tally(rs, x)
  {
    hide Agrees, Fits, AgreesThroughout;
    if rs == [] {
      NothingYet();
    } else {
      var init, r := rs[..|rs| - 1], rs[|rs| - 1];
      OneMore(rs);
      RunAgrees(init);
      if Fits(init) {
        assert Count(AfterReplies(init).found, r.service) == Tally(init, r.service);
        StepAgrees(AfterReplies(init), r);
        MaxIsMost(AfterReplies(init), r.service);
        TallyStep(rs);
        assert forall x :: Count(AfterReplies(init).found, x) == Tally(init, x);
        forall x
          ensures Tally(init, x) <= 0xFFFF_FFFF
        {
          MaxIsMost(AfterReplies(init), x);
        }
      }
    }
  }

  lemma NothingYet()
    ensures Fits([]) && AgreesThroughout([]) && Agrees(AfterReplies([]))
  {
    AgreesAtStart();
  }

  lemma TallyStep(rs: seq<Reply>)
    requires rs != []
    ensures var init, r := rs[..|rs| - 1], rs[|rs| - 1];
            && (forall x :: x != r.service ==> Tally(rs, x) == Tally(init, x))
            && var c := Tally(init, r.service);
               Tally(rs, r.service) == if r.isAdd then c + 1 else if c > 0 then c - 1 else 0
  {
  }

  // Whenever a reply announces no more, the client then knows exactly the services whose tally is positive.
  lemma ClientKnowsWhatIsThere(rs: seq<Reply>)
    requires Fits(rs) && rs != [] && !rs[|rs| - 1].more
    ensures forall x :: x in AfterReplies(rs).client <==> Tally(rs, x) > 0
  {
    hide Fits;
    var init, r := rs[..|rs| - 1], rs[|rs| - 1];
    OneMore(rs);
    RunAgrees(rs);
    RunAgrees(init);
    StepAgrees(AfterReplies(init), r);
    forall x
      ensures x in AfterReplies(rs).client <==> Tally(rs, x) > 0
    {
      assert Count(AfterReplies(rs).found, x) == Tally(rs, x);
    }
  }

  // --- What stands in the buffers

  // After the first k replies, x was there, or was not;
  ghost predicate IsThere(rs: seq<Reply>, k: nat, x: Service, there: bool)
    requires k <= |rs|
  {
    (Tally(rs[..k], x) > 0) == there
  }

  // and so at some time from reply `since` on.
  ghost predicate Was(rs: seq<Reply>, since: nat, x: Service, there: bool) {
    exists k :: since <= k <= |rs| && IsThere(rs, k, x, there)
  }

  lemma ThereBefore(rs: seq<Reply>, k: nat, x: Service, there: bool)
    requires k < |rs|
    ensures IsThere(rs[..|rs| - 1], k, x, there) <==> IsThere(rs, k, x, there)
  {
    assert rs[..|rs| - 1][..k] == rs[..k];
  }

  lemma ThereNow(rs: seq<Reply>, x: Service, there: bool)
    ensures IsThere(rs, |rs|, x, there) <==> (Tally(rs, x) > 0) == there
  {
    assert rs[..|rs|] == rs;
  }

  lemma WasStep(rs: seq<Reply>, since: nat, x: Service, there: bool)
    requires since < |rs|
    ensures Was(rs, since, x, there) <==> Was(rs[..|rs| - 1], since, x, there) || (Tally(rs, x) > 0) == there
  {
    hide Tally, IsThere;
    var init := rs[..|rs| - 1];
    ThereNow(rs, x, there);
    forall k: nat | k < |rs|
      ensures IsThere(init, k, x, there) <==> IsThere(rs, k, x, there)
    {
      ThereBefore(rs, k, x, there);
    }
  }

  // The last flush was after the first `since` replies.
  predicate FlushedAt(rs: seq<Reply>, since: nat) {
    && since <= |rs|
    && (since > 0 ==> !rs[since - 1].more)
    && forall i :: since <= i < |rs| ==> rs[i].more
  }

  lemma NotedBuffers(s: State, r: Reply, y: Service)
    requires Agrees(s)
    ensures Noted(s, r).client == s.client
    ensures y != r.service ==> (y in Noted(s, r).adds <==> y in s.adds)
    ensures y != r.service ==> (y in Noted(s, r).removes <==> y in s.removes)
    ensures var c := Count(s.found, r.service);
            && (r.isAdd && c == 0 ==> r.service in Noted(s, r).adds && r.service !in Noted(s, r).removes)
            && (!r.isAdd && c == 1 ==> r.service in Noted(s, r).removes && r.service !in Noted(s, r).adds)
            && ((r.isAdd && 0 < c < 0xFFFF_FFFF) || (!r.isAdd && c != 1) ==>
                  Noted(s, r).adds == s.adds && Noted(s, r).removes == s.removes)
  {
    hide Drop;
    DropKeepsOthers(s.adds, r.service);
    DropKeepsOthers(s.removes, r.service);
    DropKeepsDistinct(s.adds, r.service);
    DropKeepsDistinct(s.removes, r.service);
    if !r.isAdd && Count(s.found, r.service) == 0 {
      DecrementAgrees(s, r.service);
    }
  }

  // Between two flushes, the additions are the services that are there now and were not at some time since
  // the last flush, and the removals those that are not there now and were at some time since; the client
  // still knows what was there at the last flush.
  lemma {:induction false} BuffersTellChanges(rs: seq<Reply>, since: nat, x: Service)
    requires Fits(rs) && FlushedAt(rs, since)
    ensures x in AfterReplies(rs).adds <==> Tally(rs, x) > 0 && Was(rs, since, x, false)
    ensures x in AfterReplies(rs).removes <==> Tally(rs, x) == 0 && Was(rs, since, x, true)
    ensures x in AfterReplies(rs).client <==> Tally(rs[..since], x) > 0
    decreases |rs|
  {
    hide Agrees, Fits, Was;
    assert rs[..|rs|] == rs;
    if since == |rs| {
      NothingSince(rs, x);
      if rs != [] {
        ClientKnowsWhatIsThere(rs);
      }
    } else {
      var init, r := rs[..|rs| - 1], rs[|rs| - 1];
      OneMore(rs);
      assert init[..since] == rs[..since];
      BuffersTellChanges(init, since, x);
      RunAgrees(init);
      assert Count(AfterReplies(init).found, r.service) == Tally(init, r.service);
      NotedBuffers(AfterReplies(init), r, x);
      WasStep(rs, since, x, true);
      WasStep(rs, since, x, false);
      TallyStep(rs);
      WasJustNow(init, since, x);
      assert Tally(rs, r.service) <= 0xFFFF_FFFF;
    }
  }

  lemma NothingSince(rs: seq<Reply>, x: Service)
    ensures Was(rs, |rs|, x, true) <==> Tally(rs, x) > 0
    ensures Was(rs, |rs|, x, false) <==> Tally(rs, x) == 0
  {
    hide Tally, IsThere;
    ThereNow(rs, x, true);
    ThereNow(rs, x, false);
  }

  lemma WasJustNow(rs: seq<Reply>, since: nat, x: Service)
    requires since <= |rs|
    ensures Was(rs, since, x, Tally(rs, x) > 0)
  {
    hide Tally, IsThere;
    ThereNow(rs, x, Tally(rs, x) > 0);
  }

  // The flush is about to announce a service that the client already knows if and only if the service was
  // there at the last flush, has been gone since, and is there again.
  lemma AnnouncedTwice(rs: seq<Reply>, since: nat, x: Service)
    requires Fits(rs) && FlushedAt(rs, since)
    ensures x in AfterReplies(rs).adds && x in AfterReplies(rs).client <==>
            Tally(rs[..since], x) > 0 && Was(rs, since, x, false) && Tally(rs, x) > 0
    ensures x in AfterReplies(rs).removes && x !in AfterReplies(rs).client <==>
            Tally(rs[..since], x) == 0 && Was(rs, since, x, true) && Tally(rs, x) == 0
  {
    BuffersTellChanges(rs, since, x);
  }
}
