/** How many requests can run at once: the threads alive and the workers being replaced are as many as the pools began
    with, and every started request has a thread of its own. */
module RequestBounds {
  import opened RequestProtocol
  import opened RequestLife
  import opened RequestRuns
  import opened Runs
  import opened Sequences
  import opened Wrappers

  ghost function AliveIn(threads: seq<Thread>, p: Pool): (ws: set<nat>) {
    set w: nat | w < |threads| && threads[w].pool == p && threads[w].at != Dead
  }

  /** The threads of a pool that have not died. */
  ghost function Alive(s: State, p: Pool): (ws: set<nat>) {
    AliveIn(s.threads, p)
  }

  ghost function AwaitingIn(requests: seq<Request>, p: Pool): (rs: set<nat>) {
    set r: nat | r < |requests| && requests[r].pool == p && requests[r].stage == Dropped
  }

  /** The requests of a pool whose worker has been killed and not yet replaced. */
  ghost function Awaiting(s: State, p: Pool): (rs: set<nat>) {
    AwaitingIn(s.requests, p)
  }

  ghost function Size(s: State, p: Pool): nat {
    |Alive(s, p)| + |Awaiting(s, p)|
  }

  lemma ThreadDies(threads: seq<Thread>, w: nat, p: Pool)
    requires w < |threads| && threads[w].at != Dead
    ensures |AliveIn(threads[w := threads[w].(at := Dead)], p)| ==
            |AliveIn(threads, p)| - if threads[w].pool == p then 1 else 0
  {
    var later := threads[w := threads[w].(at := Dead)];
    assert AliveIn(later, p) == AliveIn(threads, p) - {w};
    assert w in AliveIn(threads, p) <==> threads[w].pool == p;
  }

  lemma ThreadAdded(threads: seq<Thread>, t: Thread, p: Pool)
    requires t.at != Dead
    ensures |AliveIn(threads + [t], p)| == |AliveIn(threads, p)| + if t.pool == p then 1 else 0
  {
    assert AliveIn(threads + [t], p) == AliveIn(threads, p) + if t.pool == p then {|threads|} else {};
  }

  lemma RequestStaged(requests: seq<Request>, r: nat, stage: Stage, p: Pool)
    requires r < |requests| && (stage == Dropped <==> requests[r].stage != Dropped)
    ensures |AwaitingIn(requests[r := requests[r].(stage := stage)], p)| ==
            |AwaitingIn(requests, p)| + if requests[r].pool != p then 0 else if stage == Dropped then 1 else -1
  {
    var later := AwaitingIn(requests[r := requests[r].(stage := stage)], p);
    if requests[r].pool != p {
      assert later == AwaitingIn(requests, p);
    } else if stage == Dropped {
      assert later == AwaitingIn(requests, p) + {r} && r !in AwaitingIn(requests, p);
    } else {
      assert later == AwaitingIn(requests, p) - {r} && r in AwaitingIn(requests, p);
    }
  }

  /** A worker dies: its request, of the same pool, waits for a replacement. */
  lemma SizeDie(s: State, w: nat, p: Pool)
    requires Inv(s) && Enabled(s, Die(w))
    ensures Size(Apply(s, Die(w)), p) == Size(s, p)
  {
    hide CanServe, DoServe, DoAdvance, RequestAt, ClientAt, HeadOfKill, Critical, AliveIn, AwaitingIn;
    assert ThreadAt(s, w);
    ThreadDies(s.threads, w, p);
    RequestStaged(s.requests, s.threads[w].at.r, Dropped, p);
  }

  lemma ReapsDropped(s: State, c: nat)
    requires Inv(s) && Enabled(s, CleanReap(c))
    ensures c < |s.clients| && s.clients[c].list != [] && s.clients[c].list[0] < |s.requests|
    ensures
      var q := s.requests[s.clients[c].list[0]];
      q.stage == Dropped && q.tid < |s.threads| && s.threads[q.tid].pool == q.pool
  {
    hide CanWork, DoWork, ThreadAt, Distinct;
    assert ClientAt(s, c) && RequestAt(s, s.clients[c].list[0]);
  }

  /** pool_kill replaces it in the same pool. */
  lemma SizeReap(s: State, c: nat, p: Pool)
    requires Inv(s) && Enabled(s, CleanReap(c))
    ensures Size(Apply(s, CleanReap(c)), p) == Size(s, p)
  {
    hide CanWork, DoWork, Inv, AliveIn, AwaitingIn;
    ReapsDropped(s, c);
    var r := s.clients[c].list[0];
    ThreadAdded(s.threads, Thread(s.requests[r].pool, Idle, false), p);
    RequestStaged(s.requests, r, Freed, p);
  }

  lemma SizeWork(s: State, e: Event, p: Pool)
    requires Inv(s) && Enabled(s, e) && IsWorker(e) && !e.Die?
    ensures Size(Apply(s, e), p) == Size(s, p)
  {
    hide CanServe, DoServe, RequestAt, ClientAt, Drop;
    assert ThreadAt(s, e.w);
    var t := Apply(s, e);
    assert Alive(t, p) == Alive(s, p);
    assert Awaiting(t, p) == Awaiting(s, p);
  }

  lemma SizeServe(s: State, e: Event, p: Pool)
    requires Inv(s) && Enabled(s, e) && !IsWorker(e) && !e.CleanReap?
    ensures Size(Apply(s, e), p) == Size(s, p)
  {
    hide CanWork, DoWork, ThreadAt, OwnList;
    var t := Apply(s, e);
    if !e.NewClient? {
      assert ClientAt(s, e.c);
      if e.CleanFlush? { assert RequestAt(s, s.clients[e.c].list[0]); }
    }
    assert Alive(t, p) == Alive(s, p);
    assert Awaiting(t, p) == Awaiting(s, p);
  }

  /** No step changes the size of a pool. */
  lemma SizeStep(s: State, e: Event, p: Pool)
    requires Inv(s) && Enabled(s, e)
    ensures Size(Apply(s, e), p) == Size(s, p)
  {
    hide Inv, Size;
    if e.Die? { SizeDie(s, e.w, p); }
    else if e.CleanReap? { SizeReap(s, e.c, p); }
    else if IsWorker(e) { SizeWork(s, e, p); }
    else { SizeServe(s, e, p); }
  }

  lemma MaxStep(s: State, e: Event)
    requires Enabled(s, e)
    ensures Apply(s, e).max == s.max
  {
    hide Drop;
  }

  ghost function Between(from: nat, to: nat): set<nat> {
    if from >= to then {} else Between(from, to - 1) + {to - 1}
  }

  lemma {:induction false} BetweenHolds(from: nat, to: nat)
    requires from <= to
    ensures |Between(from, to)| == to - from && forall k: nat :: k in Between(from, to) <==> from <= k < to
  {
    if from < to { BetweenHolds(from, to - 1); }
  }

  function PoolSize(slow: nat, fast: nat, p: Pool): nat {
    if p == Slow then slow else fast
  }

  lemma SizeInit(slow: nat, fast: nat, max: int, p: Pool)
    ensures Size(Init(slow, fast, max), p) == PoolSize(slow, fast, p)
  {
    var s := Init(slow, fast, max);
    var from, to := if p == Slow then 0 else slow, if p == Slow then slow else slow + fast;
    BetweenHolds(from, to);
    assert Alive(s, p) == Between(from, to);
    assert Awaiting(s, p) == {};
  }

  /** In every reachable state the threads alive in a pool and its killed ones not yet replaced are as many as the pool
      was given: pool_kill puts the replacement into the pool of the worker it killed. */
  lemma PoolsKeepTheirSize(slow: nat, fast: nat, max: int, s: State, p: Pool)
    requires Reachable(slow, fast, max, s)
    ensures |Alive(s, p)| + |Awaiting(s, p)| == PoolSize(slow, fast, p) && s.max == max
  {
    hide Inv, Enabled, Apply, Alive, Awaiting, Reaches, PoolSize;
    var inv := u => Inv(u) && Size(u, p) == PoolSize(slow, fast, p) && u.max == max;
    InvInit(slow, fast, max);
    SizeInit(slow, fast, max, p);
    assert EveryStepKeeps(Step, inv) by {
      forall u, e | inv(u) && Step(u, e).Some? ensures inv(Step(u, e).value) {
        InvStep(u, e);
        SizeStep(u, e, p);
        MaxStep(u, e);
      }
    }
    ReachesKeeps(Step, inv, Init(slow, fast, max), s);
  }

  /** The threads, and the requests without one, of both pools. */
  ghost function AllAlive(s: State): set<nat> {
    Alive(s, Slow) + Alive(s, Fast)
  }

  ghost function AllAwaiting(s: State): set<nat> {
    Awaiting(s, Slow) + Awaiting(s, Fast)
  }

  lemma BothPools(slow: nat, fast: nat, max: int, s: State)
    requires Reachable(slow, fast, max, s)
    ensures |AllAlive(s)| + |AllAwaiting(s)| == slow + fast
  {
    hide Reachable;
    PoolsKeepTheirSize(slow, fast, max, s, Slow);
    PoolsKeepTheirSize(slow, fast, max, s, Fast);
  }

  /** The threads that the started requests of a list name. */
  ghost function ThreadsOf(list: seq<nat>, requests: seq<Request>): (ws: set<nat>) {
    set r: nat | r in list && Started(requests, r) :: requests[r].tid
  }

  /** Started requests with a thread of their own are as many as their threads. */
  lemma {:induction false} OneThreadEach(list: seq<nat>, requests: seq<Request>)
    requires Distinct(list)
    requires forall q, r | q in list && r in list && Started(requests, q) && Started(requests, r) ::
               requests[q].tid == requests[r].tid ==> q == r
    ensures StartedIn(list, requests) == |ThreadsOf(list, requests)|
  {
    if list == [] {
      assert ThreadsOf(list, requests) == {};
    } else {
      HeadOnce(list);
      OneThreadEach(list[1..], requests);
      if Started(requests, list[0]) {
        assert ThreadsOf(list, requests) == ThreadsOf(list[1..], requests) + {requests[list[0]].tid};
        assert requests[list[0]].tid !in ThreadsOf(list[1..], requests);
      } else {
        assert ThreadsOf(list, requests) == ThreadsOf(list[1..], requests);
      }
    }
  }

  /** A started request on a list is in the hands of its own live worker, or it is the first one and its worker has been
      killed. */
  lemma StartedHasThread(s: State, c: nat, r: nat)
    requires Inv(s) && c < |s.clients| && r in s.clients[c].list && Started(s.requests, r)
    ensures r in AllAwaiting(s) ==> r == s.clients[c].list[0]
    ensures r !in AllAwaiting(s) ==>
              && s.requests[r].tid < |s.threads| && s.requests[r].tid in AllAlive(s)
              && s.threads[s.requests[r].tid].at.On? && s.threads[s.requests[r].tid].at.r == r
  {
    hide Distinct;
    assert ClientAt(s, c) && RequestAt(s, r);
    if s.requests[r].stage.Held? { assert ThreadAt(s, s.requests[r].stage.w); }
  }

  lemma Fewer(a: set<nat>, b: set<nat>)
    requires a <= b
    ensures |a| <= |b|
  {
    assert b == a + (b - a);
  }

  /** Started requests of a list, none of which waits for a worker to be replaced, have a live thread each. */
  lemma StartedWithinAlive(s: State, c: nat, list: seq<nat>)
    requires Inv(s) && c < |s.clients| && Distinct(list) &&
        (forall r <- list :: r in s.clients[c].list && r !in AllAwaiting(s))
    ensures StartedIn(list, s.requests) <= |AllAlive(s)|
  {
    hide Inv, StartedIn, AllAlive, AllAwaiting, Distinct;
    forall r | r in list && Started(s.requests, r)
      ensures s.requests[r].tid < |s.threads| && s.requests[r].tid in AllAlive(s)
      ensures s.threads[s.requests[r].tid].at.On? && s.threads[s.requests[r].tid].at.r == r
    {
      StartedHasThread(s, c, r);
    }
    OneThreadEach(list, s.requests);
    Fewer(ThreadsOf(list, s.requests), AllAlive(s));
  }

  /** At most as many requests of one client have started as the two pools have workers, at any time. */
  lemma StartedWithinPools(slow: nat, fast: nat, max: int, s: State, c: nat)
    requires Reachable(slow, fast, max, s) && c < |s.clients|
    ensures StartedIn(s.clients[c].list, s.requests) <= slow + fast
  {
    hide Reachable, CountInv, RequestAt, ThreadAt, AllAlive, AllAwaiting, Distinct;
    ReachableInv(slow, fast, max, s);
    BothPools(slow, fast, max, s);
    var list := s.clients[c].list;
    assert ClientAt(s, c);
    if list != [] && list[0] in AllAwaiting(s) {
      HeadOnce(list);
      OneAwaiting(s, list[0]);
      forall r | r in list[1..]
        ensures r !in AllAwaiting(s)
      {
        if r in AllAwaiting(s) { AwaitingIsHead(s, c, r); }
      }
      StartedWithinAlive(s, c, list[1..]);
    } else {
      forall r | r in list
        ensures r !in AllAwaiting(s)
      {
        if r in AllAwaiting(s) { AwaitingIsHead(s, c, r); }
      }
      StartedWithinAlive(s, c, list);
    }
  }

  lemma OneAwaiting(s: State, r: nat)
    requires r in AllAwaiting(s)
    ensures |AllAwaiting(s)| >= 1
  {
  }

  lemma AwaitingIsHead(s: State, c: nat, r: nat)
    requires Inv(s) && c < |s.clients| && r in s.clients[c].list && r in AllAwaiting(s)
    ensures r == s.clients[c].list[0]
  {
    hide Distinct;
    assert ClientAt(s, c) && RequestAt(s, r);
  }

  /** With a maximum of zero nothing is ever admitted. */
  ghost predicate NothingListed(s: State) {
    s.max == 0 && s.requests == [] &&
    forall k <- s.clients :: k.list == [] && k.nb == 0 &&
        (k.phase.Reading? || k.phase.Leaving? || k.phase.Cleaning? || k.phase.Gone?)
  }

  lemma NothingListedStep(s: State, e: Event)
    requires NothingListed(s) && Enabled(s, e)
    ensures NothingListed(Apply(s, e))
  {
    hide DoAdvance;
    if !IsWorker(e) && !e.NewClient? { assert s.clients[e.c] in s.clients; }
  }

  lemma ZeroAdmitsNothing(slow: nat, fast: nat, s: State, c: nat)
    requires Reachable(slow, fast, 0, s)
    ensures s.requests == []
    ensures c < |s.clients| ==> s.clients[c].list == []
  {
    hide Enabled, Apply, Reaches;
    var inv := u => NothingListed(u);
    assert EveryStepKeeps(Step, inv) by {
      forall u, e | inv(u) && Step(u, e).Some? ensures inv(Step(u, e).value) { NothingListedStep(u, e); }
    }
    ReachesKeeps(Step, inv, Init(slow, fast, 0), s);
    if c < |s.clients| { assert s.clients[c] in s.clients; }
  }
}
