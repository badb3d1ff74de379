/** What the requests of a run are: those its clients asked for, in that order, each on its own client's list newest
    first. */
module RequestHistory {
  import opened RequestProtocol
  import opened RequestLife
  import opened RequestRuns
  import opened Runs
  import opened Sequences
  import opened Wrappers

  datatype Origin = Origin(client: nat, pool: Pool)

  function OriginsOf(requests: seq<Request>): (os: seq<Origin>)
    ensures |os| == |requests|
  {
    seq(|requests|, r requires 0 <= r < |requests| => Origin(requests[r].client, requests[r].pool))
  }

  /** The requests that a run asks for. */
  function Asked(events: seq<Event>): seq<Origin> {
    if events == [] then []
    else (if events[0].List? then [Origin(events[0].c, events[0].pool)] else []) + Asked(events[1..])
  }

  lemma OriginsStep(s: State, e: Event)
    requires Enabled(s, e)
    ensures OriginsOf(Apply(s, e).requests) ==
            OriginsOf(s.requests) + if e.List? then [Origin(e.c, e.pool)] else []
  {
    if IsWorker(e) { OriginsWork(s, e); } else { OriginsServe(s, e); }
  }

  lemma OriginsWork(s: State, e: Event)
    requires Enabled(s, e) && IsWorker(e)
    ensures OriginsOf(Apply(s, e).requests) == OriginsOf(s.requests)
  {
    hide CanServe, DoServe, Drop;
  }

  lemma OriginsServe(s: State, e: Event)
    requires Enabled(s, e) && !IsWorker(e)
    ensures OriginsOf(Apply(s, e).requests) ==
            OriginsOf(s.requests) + if e.List? then [Origin(e.c, e.pool)] else []
  {
    hide CanWork, DoWork;
  }

  lemma {:induction false} OriginsRun(s: State, events: seq<Event>, t: State)
    requires Leads(Step, s, events, t)
    ensures OriginsOf(t.requests) == OriginsOf(s.requests) + Asked(events)
    decreases |events|
  {
    hide Enabled, Apply, OriginsOf;
    if events != [] {
      var own := if events[0].List? then [Origin(events[0].c, events[0].pool)] else [];
      OriginsStep(s, events[0]);
      OriginsRun(Apply(s, events[0]), events[1..], t);
      assert (OriginsOf(s.requests) + own) + Asked(events[1..]) == OriginsOf(s.requests) + (own + Asked(events[1..]));
    }
  }

  /** Request r of a run is the one that its r-th listing asked for: of that client, for that pool, for ever. */
  lemma RequestsAreAsked(slow: nat, fast: nat, max: int, events: seq<Event>, t: State, r: nat)
    requires Leads(Step, Init(slow, fast, max), events, t)
    ensures |t.requests| == |Asked(events)|
    ensures r < |t.requests| ==> Asked(events)[r] == Origin(t.requests[r].client, t.requests[r].pool)
  {
    hide Leads, Asked;
    OriginsRun(Init(slow, fast, max), events, t);
    assert OriginsOf([]) + Asked(events) == Asked(events);
    if r < |t.requests| { assert OriginsOf(t.requests)[r] == Origin(t.requests[r].client, t.requests[r].pool); }
  }

  // ----- the order of a list

  ghost predicate Descending(list: seq<nat>) {
    forall a, b :: 0 <= a < b < |list| ==> list[a] > list[b]
  }

  ghost predicate ListsDescend(s: State) {
    forall c: nat :: c < |s.clients| ==> Descending(s.clients[c].list)
  }

  lemma {:induction false} DropDescends(list: seq<nat>, r: nat)
    requires Descending(list)
    ensures Descending(Drop(list, r)) && forall x <- Drop(list, r) :: x in list
  {
    if list != [] && list[0] != r {
      var rest := Drop(list[1..], r);
      DropDescends(list[1..], r);
      forall x | x in rest
        ensures list[0] > x && x in list
      {
        var k :| 0 <= k < |list[1..]| && list[1..][k] == x;
        assert list[k + 1] == x;
      }
      var all := [list[0]] + rest;
      forall a, b | 0 <= a < b < |all|
        ensures all[a] > all[b]
      {
        if a == 0 { assert all[b] == rest[b - 1] && rest[b - 1] in rest; }
      }
    } else if list != [] {
      assert list == [list[0]] + list[1..];
    }
  }

  lemma DescendWork(s: State, e: Event, c: nat)
    requires ListsDescend(s) && Enabled(s, e) && IsWorker(e) && c < |s.clients|
    ensures c < |Apply(s, e).clients| && Descending(Apply(s, e).clients[c].list)
  {
    hide CanServe, DoServe, Drop, Descending;
    assert Descending(s.clients[c].list);
    if Safe(s, e.w) { DropDescends(s.clients[c].list, s.threads[e.w].at.r); }
  }

  lemma DescendServe(s: State, e: Event, c: nat)
    requires Inv(s) && ListsDescend(s) && Enabled(s, e) && !IsWorker(e) && c < |Apply(s, e).clients|
    ensures Descending(Apply(s, e).clients[c].list)
  {
    hide CanWork, DoWork, ThreadAt, RequestAt, Distinct, Descending;
    if c < |s.clients| {
      var list := s.clients[c].list;
      assert Descending(list) && ClientAt(s, c);
      DescendHead(list, |s.requests|);
    } else {
      DescendHead([], 0);
    }
  }

  lemma DescendHead(list: seq<nat>, n: nat)
    requires Descending(list) && forall r <- list :: r < n
    ensures Descending([]) && Descending([n] + list) && (list != [] ==> Descending(list[1..]))
  {
    assert forall k :: 0 <= k < |list| ==> list[k] in list;
  }

  lemma DescendStep(s: State, e: Event)
    requires Inv(s) && ListsDescend(s) && Enabled(s, e)
    ensures ListsDescend(Apply(s, e))
  {
    hide Inv, Enabled, Apply, Descending;
    forall c: nat | c < |Apply(s, e).clients|
      ensures Descending(Apply(s, e).clients[c].list)
    {
      if IsWorker(e) {
        WorkGrows(s, e);
        DescendWork(s, e, c);
      } else {
        DescendServe(s, e, c);
      }
    }
  }

  /** In every reachable state each list holds requests of its own client only, the newest first. */
  lemma ListsNewestFirst(slow: nat, fast: nat, max: int, s: State, c: nat)
    requires Reachable(slow, fast, max, s) && c < |s.clients|
    ensures Descending(s.clients[c].list)
    ensures forall r <- s.clients[c].list :: r < |s.requests| && s.requests[r].client == c
  {
    hide Enabled, Apply, Reaches, ThreadAt, RequestAt, Descending;
    var inv := u => Inv(u) && ListsDescend(u);
    InvInit(slow, fast, max);
    assert EveryStepKeeps(Step, inv) by {
      forall u, e | inv(u) && Step(u, e).Some? ensures inv(Step(u, e).value) {
        InvStep(u, e);
        DescendStep(u, e);
      }
    }
    ReachesKeeps(Step, inv, Init(slow, fast, max), s);
    assert ClientAt(s, c);
  }
}
