// What comes of the events that the invariant of the shared lookups does not survive.
module HostFailures {
  import opened Options
  import opened Sequences
  import opened HostLookup
  import opened HostLookupTheorems

  // When the master of a new list cannot be created, the next host with the name is accepted, but it stands
  // in a list for which no master runs.
  lemma StrandedAfterFailure(s: State, h: HostId, h': HostId)
    requires Inv(s) && h in s.hosts && h' in s.hosts && h != h'
    requires s.hosts[h].name == s.hosts[h'].name && s.hosts[h].name !in s.table
    requires s.hosts[h].lookup == NoLookup && s.hosts[h'].lookup == NoLookup
    ensures var t := OnStart(OnStart(s, h, true, false, NoError, None, true), h', true, true, NoError, None, true);
            && t.hosts[h'].lookup.Waiting? && t.hosts[h'].accepted == s.hosts[h'].accepted + 1
            && t.table[s.hosts[h'].name] == [Client(h', t.hosts[h'].lookup.source)]
            && !InBatch(t, Client(h', t.hosts[h'].lookup.source))
            && forall m :: m in t.running ==> t.running[m] != s.hosts[h'].name
  {
    var u := OnStart(s, h, true, false, NoError, None, true);
    var t := OnStart(u, h', true, true, NoError, None, true);
    forall m | m in t.answering
      ensures Client(h', t.hosts[h'].lookup.source) !in t.answering[m].left
    {
      assert GoodBatch(s, s.answering[m].left);
    }
  }

  // When a completion takes the list of another master that still runs, that master is lost: it runs on with
  // no list, and the next host with the name gets a second one.
  lemma TwoMastersAfterForeignTake(s: State, m: nat, h: HostId)
    requires Inv(s) && m in s.replied && IsForeign(s, m)
    requires s.table[s.replied[m].name][0].id in s.running
    requires h in s.hosts && s.hosts[h].name == s.replied[m].name && s.hosts[h].lookup == NoLookup
    ensures var n, other, t := s.replied[m].name, s.table[s.replied[m].name][0].id, OnTakeList(s, m);
            var u := OnStart(t, h, true, true, NoError, None, true);
            && n !in t.table && other in t.running && t.running[other] == n
            && other != s.next && other in u.running && s.next in u.running
            && u.running[other] == n && u.running[s.next] == n
  {
    FirstIsMaster(s, s.replied[m].name);
    var n, t := s.replied[m].name, OnTakeList(s, m);
    assert NewList(t, n, None).running == t.running[s.next := n];
  }

  // One host with a client, and nothing looked up
  function OneHost(n: Name): State {
    State(map[], map[0 := Host(n, NoLookup, false, Unresolved, NoError, true, 0, [])], map[],
          map[], map[], {}, {}, 0, 0)
  }

  // The same host after a lookup that it has cancelled, while the master's completion is under way
  function OneHostLater(n: Name, addresses: seq<string>): State {
    State(map[], map[0 := Host(n, NoLookup, false, Unresolved, NoError, true, 1, [(NoError, Unresolved)])], map[],
          map[0 := Reply(n, NoError, addresses)], map[], {}, {}, 0, 3)
  }

  // Such a completion is reached without any other fault: the only client gives up the name after the master
  // has replied, and looks it up anew before the master takes the list.
  lemma ForeignTakeHappens(n: Name, addresses: seq<string>)
    ensures var start := Start(0, true, true, NoError, None, true);
            var es := [start, MasterReplies(0, NoError, addresses), Cancel(0, true), Enter(0), PerformCancel(0, 2),
                       start];
            && Idle(OneHost(n)) && IsRun(OneHost(n), es) && RunsWell(OneHost(n), es)
            && var t := After(OneHost(n), es);
            && 0 in t.replied && IsForeign(t, 0) && t.table == map[n := [Master(3), Client(0, 4)]]
            && t.running == map[3 := n]
  {
    hide IsRun, RunsWell, After;
    var start := Start(0, true, true, NoError, None, true);
    var s5 := OneHostLater(n, addresses);
    LooksUpAnew(n, addresses);
    ghost var s6 := Step(s5, start);
    EmptyRun(s6);
    var es := Before(s5, start, []);
    es := GivesUpAfterReply(n, addresses, es);
    assert es == [start, MasterReplies(0, NoError, addresses), Cancel(0, true), Enter(0), PerformCancel(0, 2), start];
  }

  lemma LooksUpAnew(n: Name, addresses: seq<string>)
    ensures var s, start := OneHostLater(n, addresses), Start(0, true, true, NoError, None, true);
            && CanHappen(s, start) && !LosesMaster(s, start) && !ComesLate(s, start)
            && var t := Step(s, start);
            && t.table == map[n := [Master(3), Client(0, 4)]] && t.running == map[3 := n]
            && t.replied == s.replied && IsForeign(t, 0)
  {
    var t := Step(OneHostLater(n, addresses), Start(0, true, true, NoError, None, true));
    assert t.table[n] == [Master(3), Client(0, 4)] && t.table[n][0] != Master(0);
  }

  // The host waits for a master that has replied.
  function OneHostReplied(n: Name, addresses: seq<string>): State {
    State(map[n := [Master(0), Client(0, 1)]], map[0 := Host(n, Waiting(1), true, Unresolved, NoError, true, 1, [])],
          map[], map[0 := Reply(n, NoError, addresses)], map[], {}, {}, 0, 2)
  }

  lemma GivesUpAfterReply(n: Name, addresses: seq<string>, es: seq<Event>) returns (all: seq<Event>)
    requires IsRun(OneHostLater(n, addresses), es) && RunsWell(OneHostLater(n, addresses), es)
    ensures all == [Start(0, true, true, NoError, None, true), MasterReplies(0, NoError, addresses),
                    Cancel(0, true), Enter(0), PerformCancel(0, 2)] + es
    ensures IsRun(OneHost(n), all) && RunsWell(OneHost(n), all)
    ensures After(OneHost(n), all) == After(OneHostLater(n, addresses), es)
  {
    hide IsRun, RunsWell, After;
    all := CancelsAfterReply(n, addresses, es);
    var start, s := Start(0, true, true, NoError, None, true), OneHost(n);
    var t := s.(table := map[n := [Master(0), Client(0, 1)]], running := map[0 := n], next := 2,
                hosts := map[0 := s.hosts[0].(lookup := Waiting(1), typed := true, accepted := 1)]);
    assert Step(s, start) == t by { assert [Master(0)] + [Client(0, 1)] == [Master(0), Client(0, 1)]; }
    assert Step(t, MasterReplies(0, NoError, addresses)) == OneHostReplied(n, addresses);
    all := Before(t, MasterReplies(0, NoError, addresses), all);
    all := Before(s, start, all);
  }

  lemma CancelsAfterReply(n: Name, addresses: seq<string>, es: seq<Event>) returns (all: seq<Event>)
    requires IsRun(OneHostLater(n, addresses), es) && RunsWell(OneHostLater(n, addresses), es)
    ensures all == [Cancel(0, true), Enter(0), PerformCancel(0, 2)] + es
    ensures IsRun(OneHostReplied(n, addresses), all) && RunsWell(OneHostReplied(n, addresses), all)
    ensures After(OneHostReplied(n, addresses), all) == After(OneHostLater(n, addresses), es)
  {
    hide IsRun, RunsWell, After;
    var s := OneHostReplied(n, addresses);
    var t := s.(table := map[], hosts := map[0 := s.hosts[0].(lookup := Cancelling(2))], next := 3);
    assert Step(s, Cancel(0, true)) == t by {
      assert Drop(s.table[n], Client(0, 1)) == [Master(0)];
      assert s.table - {n} == map[] && s.running - {0} == map[];
    }
    var u := t.(cancelling := {(0, 2)});
    assert Step(t, Enter(0)) == u;
    assert Step(u, PerformCancel(0, 2)) == OneHostLater(n, addresses) by {
      assert u.cancelling - {(0, 2)} == {} && u.hosts[0].told + [(NoError, Unresolved)] == [(NoError, Unresolved)];
    }
    all := Before(u, PerformCancel(0, 2), es);
    all := Before(t, Enter(0), all);
    all := Before(s, Cancel(0, true), all);
  }

  lemma EmptyRun(s: State)
    ensures IsRun(s, []) && RunsWell(s, []) && After(s, []) == s
  {
  }

  // A run with one event before it
  lemma Before(s: State, e: Event, es: seq<Event>) returns (all: seq<Event>)
    requires CanHappen(s, e) && !LosesMaster(s, e) && !ComesLate(s, e)
    requires IsRun(Step(s, e), es) && RunsWell(Step(s, e), es)
    ensures all == [e] + es && IsRun(s, all) && RunsWell(s, all) && After(s, all) == After(Step(s, e), es)
  {
    hide CanHappen, Step, LosesMaster, ComesLate;
    all := [e] + es;
    assert all[1..] == es;
  }
}
