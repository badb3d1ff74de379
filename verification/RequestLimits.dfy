/** What max_requests_per_client bounds, over every run of a configuration, and how a request is freed while a worker
    has it. */
module RequestLimits {
  import opened RequestBounds
  import opened RequestProtocol
  import opened RequestRuns
  import opened Runs

  /** The pool of thread i, and of the request that it is to run below. */
  function PoolOf(slow: nat, i: int): Pool {
    if i < slow then Slow else Fast
  }

  /** Pools of the given sizes and one client that has queued k requests, of which the first m run. */
  function Busy(slow: nat, fast: nat, max: int, k: nat, m: nat): State
    requires m <= k
  {
    State(
      seq(slow + fast, i => Thread(PoolOf(slow, i), if 0 <= i < m then On(Running, i) else Idle, false)),
      seq(k, i => if 0 <= i < m then Request(0, PoolOf(slow, i), true, i, Held(i))
                  else Request(0, PoolOf(slow, i), false, 0, Queued)),
      [Client(Reading, seq(k, i => if 0 <= i < k then k - 1 - i else 0), m, Nobody)], max)
  }

  lemma StepTo(slow: nat, fast: nat, max: int, s: State, e: Event, t: State)
    requires Reachable(slow, fast, max, s) && Enabled(s, e)
    requires var u := Apply(s, e);
             u.threads == t.threads && u.requests == t.requests && u.clients == t.clients && u.max == t.max
    ensures Reachable(slow, fast, max, t)
  {
    hide Apply, Enabled, Reaches;
    ReachesNext(Step, Init(slow, fast, max), s, e, t);
  }

  lemma OneClient(slow: nat, fast: nat, max: int)
    ensures Reachable(slow, fast, max, Busy(slow, fast, max, 0, 0))
  {
    hide Reaches;
    var s, t := Init(slow, fast, max), Busy(slow, fast, max, 0, 0);
    ReachesItself(Step, s);
    assert s.threads == t.threads;
    assert t.clients[0].list == [];
    StepTo(slow, fast, max, s, NewClient, t);
  }

  /** Any number of requests can be queued, whatever the maximum, as long as none has started. */
  lemma {:induction false} QueuesPastMax(slow: nat, fast: nat, max: int, k: nat)
    requires max != 0
    ensures Reachable(slow, fast, max, Busy(slow, fast, max, k, 0))
  {
    hide Reachable;
    if k == 0 {
      OneClient(slow, fast, max);
    } else {
      QueuesPastMax(slow, fast, max, k - 1);
      var s, t := Busy(slow, fast, max, k - 1, 0), Busy(slow, fast, max, k, 0);
      var pool := PoolOf(slow, k - 1);
      var a := s.(clients := [s.clients[0].(phase := Admitted)]);
      StepTo(slow, fast, max, s, Check(0), a);
      var b := a.(requests := s.requests + [Request(0, pool, false, 0, Made)],
                  clients := [Client(Queueing(k - 1), [k - 1] + s.clients[0].list, 0, Nobody)]);
      StepTo(slow, fast, max, a, List(0, pool), b);
      assert b.clients[0].list == t.clients[0].list;
      assert b.requests[k - 1 := Request(0, pool, false, 0, Queued)] == t.requests;
      StepTo(slow, fast, max, b, Queue(0), t);
    }
  }

  /** Worker m takes and starts the next request. */
  lemma StartNext(slow: nat, fast: nat, max: int, k: nat, m: nat)
    requires m < slow + fast && m < k && Reachable(slow, fast, max, Busy(slow, fast, max, k, m))
    ensures Reachable(slow, fast, max, Busy(slow, fast, max, k, m + 1))
  {
    hide Reachable;
    var s, t := Busy(slow, fast, max, k, m), Busy(slow, fast, max, k, m + 1);
    var pool := PoolOf(slow, m);
    var held := s.requests[m := Request(0, pool, false, 0, Held(m))];
    var list := s.clients[0].list;
    var a := State(s.threads[m := Thread(pool, On(Popped, m), false)], held, s.clients, max);
    StepTo(slow, fast, max, s, Pop(m, m), a);
    var b := State(s.threads[m := Thread(pool, On(Locked, m), false)], held, [Client(Reading, list, m, Worker(m))],
        max);
    StepTo(slow, fast, max, a, Advance(m), b);
    var c := State(s.threads[m := Thread(pool, On(CountedIn, m), false)], held,
                   [Client(Reading, list, m + 1, Worker(m))], max);
    StepTo(slow, fast, max, b, Advance(m), c);
    var d := State(s.threads[m := Thread(pool, On(Marked, m), false)], t.requests,
                   [Client(Reading, list, m + 1, Worker(m))], max);
    assert held[m := Request(0, pool, true, m, Held(m))] == t.requests;
    StepTo(slow, fast, max, c, Advance(m), d);
    assert s.threads[m := Thread(pool, On(Running, m), false)] == t.threads;
    StepTo(slow, fast, max, d, Advance(m), t);
  }

  /** Any number of requests, up to the number of workers, can run for one client at once, whatever the maximum. */
  lemma {:induction false} RunsPastMax(slow: nat, fast: nat, max: int, k: nat, m: nat)
    requires max != 0 && m <= slow + fast && m <= k
    ensures Reachable(slow, fast, max, Busy(slow, fast, max, k, m))
    ensures Busy(slow, fast, max, k, m).clients[0].nb == m
  {
    hide Reachable;
    if m == 0 {
      QueuesPastMax(slow, fast, max, k);
    } else {
      RunsPastMax(slow, fast, max, k, m - 1);
      StartNext(slow, fast, max, k, m - 1);
    }
  }

  // ----- the two limits

  /** In every reachable state every client has at most max started requests. */
  ghost predicate StartedWithinMax(slow: nat, fast: nat, max: int) {
    forall s, c: nat :: Reachable(slow, fast, max, s) && c < |s.clients| ==>
      StartedIn(s.clients[c].list, s.requests) <= max
  }

  /** In every reachable state every client has at most max requests on its list. */
  ghost predicate ListedWithinMax(slow: nat, fast: nat, max: int) {
    forall s, c: nat :: Reachable(slow, fast, max, s) && c < |s.clients| ==>
      |s.clients[c].list| <= max
  }

  /** The started requests of a client stay within max_requests_per_client in every run if and only if the maximum is
      zero or the two pools have no more workers than that. */
  lemma StartedWithinMaxExactly(slow: nat, fast: nat, max: int)
    ensures StartedWithinMax(slow, fast, max) <==> max == 0 || max >= slow + fast
  {
    hide Reachable, StartedIn;
    if max == 0 || max >= slow + fast {
      forall s, c: nat | Reachable(slow, fast, max, s) && c < |s.clients|
        ensures StartedIn(s.clients[c].list, s.requests) <= max
      {
        StartedWithinPools(slow, fast, max, s, c);
        if max == 0 {
          ZeroAdmitsNothing(slow, fast, s, c);
          NoneStarted(s.requests);
        }
      }
    } else {
      var k := slow + fast;
      var s := Busy(slow, fast, max, k, k);
      RunsPastMax(slow, fast, max, k, k);
      assert Possible(s);
      CounterCountsStarted(s, 0);
      assert StartedIn(s.clients[0].list, s.requests) == k > max;
    }
  }

  /** The requests of a client, started or not, stay within the maximum in every run if and only if it is zero. */
  lemma ListedWithinMaxExactly(slow: nat, fast: nat, max: int)
    ensures ListedWithinMax(slow, fast, max) <==> max == 0
  {
    hide Reachable;
    if max == 0 {
      forall s, c: nat | Reachable(slow, fast, max, s) && c < |s.clients|
        ensures |s.clients[c].list| <= max
      {
        ZeroAdmitsNothing(slow, fast, s, c);
      }
    } else {
      var k := if max < 0 then 0 else max + 1;
      QueuesPastMax(slow, fast, max, k);
      assert |Busy(slow, fast, max, k, 0).clients[0].list| > max;
    }
  }

  // ----- the request freed under a worker

  /** A worker has popped the only request of the only client. */
  function PopRace(slow: nat, fast: nat, max: int, phase: Phase, stage: Stage): State
    requires slow + fast > 0
  {
    var s := Busy(slow, fast, max, 1, 0);
    State(s.threads[0 := Thread(PoolOf(slow, 0), On(Popped, 0), false)],
          [Request(0, PoolOf(slow, 0), false, 0, stage)],
          [Client(phase, if stage == Freed then [] else [0], 0, if phase == Cleaning then Owner else Nobody)], max)
  }

  lemma PopRaceStarts(slow: nat, fast: nat, max: int)
    requires max != 0 && slow + fast > 0
    ensures Reachable(slow, fast, max, PopRace(slow, fast, max, Reading, Held(0)))
  {
    hide Reachable;
    QueuesPastMax(slow, fast, max, 1);
    var s := Busy(slow, fast, max, 1, 0);
    assert s.clients[0].list == [0];
    StepTo(slow, fast, max, s, Pop(0, 0), PopRace(slow, fast, max, Reading, Held(0)));
  }

  /** One client that leaves at the wrong moment: the worker has popped the request when the clean-up frees it. */
  lemma PoppedIsFreed(slow: nat, fast: nat, max: int)
    requires max != 0 && slow + fast > 0
    ensures Reachable(slow, fast, max, PopRace(slow, fast, max, Cleaning, Freed))
    ensures UsesFreed(PopRace(slow, fast, max, Cleaning, Freed), 0)
  {
    hide Reachable;
    PopRaceStarts(slow, fast, max);
    var s, t := PopRace(slow, fast, max, Reading, Held(0)), PopRace(slow, fast, max, Leaving, Held(0));
    StepTo(slow, fast, max, s, Quit(0), t);
    var u, v := PopRace(slow, fast, max, Cleaning, Held(0)), PopRace(slow, fast, max, Cleaning, Freed);
    StepTo(slow, fast, max, t, CleanLock(0), u);
    assert u.clients[0].list[1..] == [];
    StepTo(slow, fast, max, u, CleanFlush(0), v);
  }

  /** Worker w has a request that has been freed. */
  predicate UsesFreed(s: State, w: nat) {
    && w < |s.threads| && s.threads[w].at.On?
    && s.threads[w].at.r < |s.requests| && s.requests[s.threads[w].at.r].stage == Freed
  }

  ghost predicate NeverUsesFreed(slow: nat, fast: nat, max: int) {
    forall s, w: nat :: Reachable(slow, fast, max, s) ==> !UsesFreed(s, w)
  }

  /** No run leaves a worker with a freed request if and only if nothing is ever admitted or there is no worker. */
  lemma NeverUsesFreedExactly(slow: nat, fast: nat, max: int)
    ensures NeverUsesFreed(slow, fast, max) <==> max == 0 || slow + fast == 0
  {
    hide Reachable, PopRace, Alive, Awaiting;
    if max == 0 || slow + fast == 0 {
      forall s, w: nat | Reachable(slow, fast, max, s)
        ensures !UsesFreed(s, w)
      {
        BothPools(slow, fast, max, s);
        if max == 0 { ZeroAdmitsNothing(slow, fast, s, 0); } else if UsesFreed(s, w) { SomeoneAlive(s, w); }
      }
    } else {
      PoppedIsFreed(slow, fast, max);
    }
  }

  lemma SomeoneAlive(s: State, w: nat)
    requires w < |s.threads| && s.threads[w].at.On?
    ensures |AllAlive(s)| > 0
  {
    assert w in AllAlive(s);
  }
}
