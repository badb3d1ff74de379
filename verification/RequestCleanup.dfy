/** The clean-up of a client comes to an end: it can always go on without any handler finishing by itself, and it has a
    bounded number of steps in any run. */
module RequestCleanup {
  import opened RequestProtocol
  import opened RequestLife
  import opened RequestRuns
  import opened Runs
  import opened Sequences
  import opened Wrappers

  predicate InCleanup(phase: Phase) {
    phase == Cleaning || phase == Killing
  }

  /** The worker of the first request on the list, if its thread id makes sense. */
  predicate HeadDead(s: State, list: seq<nat>) {
    && list != [] && list[0] < |s.requests| && s.requests[list[0]].tid < |s.threads|
    && s.threads[s.requests[list[0]].tid].at == Dead
  }

  /** What happens next: the cleaning thread goes on, or the worker that it has cancelled dies. */
  function CleanNext(s: State, c: nat): Event
    requires c < |s.clients|
  {
    var k := s.clients[c];
    if k.list == [] then CleanEnd(c)
    else if k.phase == Killing then
      if HeadDead(s, k.list) || k.list[0] >= |s.requests| then CleanReap(c) else Die(s.requests[k.list[0]].tid)
    else if Started(s.requests, k.list[0]) then CleanKill(c) else CleanFlush(c)
  }

  lemma CleanNextEnabled(s: State, c: nat)
    requires Inv(s) && c < |s.clients| && InCleanup(s.clients[c].phase)
    ensures Enabled(s, CleanNext(s, c))
  {
    hide Distinct;
    assert ClientAt(s, c);
    var list := s.clients[c].list;
    if list != [] {
      assert list[0] in list;
      assert RequestAt(s, list[0]);
      if s.requests[list[0]].started && s.clients[c].phase == Cleaning { StartedIsRunning(s, c, list[0]); }
    }
  }

  /** How many steps are left at most. */
  function Rank(s: State, c: nat): (n: int)
    requires c < |s.clients|
  {
    var k := s.clients[c];
    if k.phase == Cleaning then 3 * |k.list| + 1
    else if k.phase == Killing then 3 * |k.list| - if HeadDead(s, k.list) then 1 else 0
    else 0
  }

  /** The steps of the clean-up of c. */
  predicate CleansUp(e: Event, c: nat) {
    e == CleanFlush(c) || e == CleanKill(c) || e == CleanReap(c) || e == CleanEnd(c)
  }

  predicate Over(phase: Phase) {
    InCleanup(phase) || phase == Gone
  }

  lemma RankWork(s: State, e: Event, c: nat)
    requires Inv(s) && Enabled(s, e) && IsWorker(e) && c < |s.clients| && Over(s.clients[c].phase)
    ensures c < |Apply(s, e).clients| && Apply(s, e).clients[c].phase == s.clients[c].phase
    ensures Rank(Apply(s, e), c) <= Rank(s, c)
  {
    hide CanServe, DoServe, Drop, RequestAt, OwnList;
    assert ClientAt(s, c) && ThreadAt(s, e.w);
  }

  lemma RankServe(s: State, e: Event, c: nat)
    requires Inv(s) && Enabled(s, e) && !IsWorker(e) && c < |s.clients| && Over(s.clients[c].phase)
    ensures c < |Apply(s, e).clients| && Over(Apply(s, e).clients[c].phase)
    ensures Rank(Apply(s, e), c) <= Rank(s, c) - if CleansUp(e, c) then 1 else 0
  {
    hide CanWork, DoWork, ThreadAt, RequestAt, OwnList;
    assert ClientAt(s, c);
    if !e.NewClient? { assert ClientAt(s, e.c); }
  }

  lemma RankStep(s: State, e: Event, c: nat)
    requires Inv(s) && Enabled(s, e) && c < |s.clients| && Over(s.clients[c].phase)
    ensures c < |Apply(s, e).clients| && Over(Apply(s, e).clients[c].phase)
    ensures Rank(Apply(s, e), c) <= Rank(s, c) - if CleansUp(e, c) then 1 else 0
  {
    hide Inv, Enabled, Apply, Rank;
    if IsWorker(e) { RankWork(s, e, c); } else { RankServe(s, e, c); }
  }

  /** The worker that was cancelled dies. */
  lemma RankDie(s: State, c: nat)
    requires Inv(s) && c < |s.clients| && InCleanup(s.clients[c].phase) && CleanNext(s, c).Die?
    requires Enabled(s, CleanNext(s, c))
    ensures c < |Apply(s, CleanNext(s, c)).clients| && Rank(Apply(s, CleanNext(s, c)), c) < Rank(s, c)
  {
    hide CanServe, DoServe, Drop, RequestAt, OwnList;
    assert ClientAt(s, c);
  }

  function CleanSteps(events: seq<Event>, c: nat): nat {
    if events == [] then 0 else (if CleansUp(events[0], c) then 1 else 0) + CleanSteps(events[1..], c)
  }

  lemma {:induction false} RankRun(s: State, events: seq<Event>, t: State, c: nat)
    requires Inv(s) && Leads(Step, s, events, t) && c < |s.clients| && Over(s.clients[c].phase)
    ensures c < |t.clients| && Over(t.clients[c].phase) && CleanSteps(events, c) <= Rank(s, c) - Rank(t, c)
    decreases |events|
  {
    hide Inv, Enabled, Apply, Rank, Over;
    if events != [] {
      InvStep(s, events[0]);
      RankStep(s, events[0], c);
      RankRun(Apply(s, events[0]), events[1..], t, c);
    }
  }

  lemma RankStays(s: State, c: nat)
    requires c < |s.clients| && InCleanup(s.clients[c].phase)
    ensures 0 <= Rank(s, c) <= 3 * |s.clients[c].list| + 1
  {
  }

  /** Whatever the others do meanwhile, the clean-up takes at most three steps for each request on the list, and one. */
  lemma CleanUpIsBounded(s: State, events: seq<Event>, t: State, c: nat)
    requires Possible(s) && Leads(Step, s, events, t) && c < |s.clients| && s.clients[c].phase == Cleaning
    ensures CleanSteps(events, c) <= 3 * |s.clients[c].list| + 1
  {
    hide Possible, Inv, CountInv, Leads;
    PossibleInv(s);
    RankRun(s, events, t, c);
  }

  /** The clean-up needs nobody else: its own steps and the deaths of the workers that it cancels lead to the end, so it
      never waits for a handler to return. */
  lemma {:induction false} CleanUpEnds(s: State, c: nat) returns (events: seq<Event>, t: State)
    requires Inv(s) && c < |s.clients| && InCleanup(s.clients[c].phase)
    ensures Leads(Step, s, events, t) && c < |t.clients| && t.clients[c].phase == Gone
    ensures |events| <= Rank(s, c) && forall e <- events :: CleansUp(e, c) || e.Die?
    decreases Rank(s, c)
  {
    hide Inv, Enabled, Apply, Rank;
    var e := CleanNext(s, c);
    CleanNextEnabled(s, c);
    InvStep(s, e);
    RankStep(s, e, c);
    RankStays(s, c);
    if e.Die? { RankDie(s, c); }
    var u := Apply(s, e);
    if u.clients[c].phase == Gone {
      RankGone(u, c);
      events, t := [e], u;
      assert Leads(Step, u, [], u);
    } else {
      var rest;
      RankStays(u, c);
      rest, t := CleanUpEnds(u, c);
      events := [e] + rest;
    }
  }

  lemma RankGone(s: State, c: nat)
    requires c < |s.clients| && s.clients[c].phase == Gone
    ensures Rank(s, c) == 0
  {
  }

  /** In any reachable state. */
  lemma CleanUpReturns(s: State, c: nat) returns (events: seq<Event>, t: State)
    requires Possible(s) && c < |s.clients| && InCleanup(s.clients[c].phase)
    ensures Leads(Step, s, events, t) && c < |t.clients| && t.clients[c].phase == Gone
    ensures |events| <= 3 * |s.clients[c].list| + 1 && forall e <- events :: CleansUp(e, c) || e.Die?
  {
    hide Possible, CountInv, Inv, Leads, CleansUp;
    PossibleInv(s);
    RankStays(s, c);
    events, t := CleanUpEnds(s, c);
  }
}
