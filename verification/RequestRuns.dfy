/** Every run of clients and their requests: the counter nb_requests, what the clean-up kills and frees, and the two
    places where the code falls short. */
module RequestRuns {
  import opened RequestProtocol
  import opened RequestLife
  import opened Runs
  import opened Sequences
  import opened Wrappers

  lemma WorkGrows(s: State, e: Event)
    requires Enabled(s, e) && IsWorker(e)
    ensures |Apply(s, e).threads| == |s.threads| && |Apply(s, e).requests| == |s.requests| &&
        |Apply(s, e).clients| == |s.clients|
    ensures Apply(s, e).max == s.max
  {
    hide CanServe, DoServe;
  }

  lemma InvStep(s: State, e: Event)
    requires Inv(s) && Enabled(s, e)
    ensures Inv(Apply(s, e))
  {
    hide Apply, Enabled, ThreadAt, RequestAt, ClientAt, Unlists, Locks, Turns, Cleans;
    var t := Apply(s, e);
    if IsWorker(e) { WorkGrows(s, e); }
    forall w: nat | w < |t.threads|
      ensures ThreadAt(t, w)
    {
      if !IsWorker(e) { ThreadServe(s, e, w); }
      else if Locks(s, e) { ThreadLocks(s, e, w); }
      else if Turns(e) || Unlists(s, e) { ThreadTurns(s, e, w); }
      else { ThreadGoesOn(s, e, w); }
    }
    forall r: nat | r < |t.requests|
      ensures RequestAt(t, r)
    {
      if !IsWorker(e) {
        if Cleans(e) { RequestCleaned(s, e, r); } else { RequestServed(s, e, r); }
      }
      else if Locks(s, e) { RequestLocks(s, e, r); }
      else if Unlists(s, e) { RequestUnlist(s, e, r); }
      else if Turns(e) { RequestTurns(s, e, r); }
      else { RequestGoesOn(s, e, r); }
    }
    forall c: nat | c < |t.clients|
      ensures ClientAt(t, c)
    {
      if !IsWorker(e) {
        if e.NewClient? || e.c != c { ClientServeOther(s, e, c); }
        else if Cleans(e) { ClientCleans(s, e); }
        else { ClientListens(s, e); }
      }
      else if Locks(s, e) { ClientLocks(s, e, c); }
      else if Turns(e) || Unlists(s, e) { ClientTurns(s, e, c); }
      else { ClientGoesOn(s, e, c); }
    }
  }

  // ----- nb_requests

  predicate Started(requests: seq<Request>, r: nat) {
    r < |requests| && requests[r].started
  }

  /** How many requests of the list have been assigned. */
  function StartedIn(list: seq<nat>, requests: seq<Request>): (n: nat)
    ensures n <= |list|
  {
    if list == [] then 0 else (if Started(requests, list[0]) then 1 else 0) + StartedIn(list[1..], requests)
  }

  lemma {:induction false} StartedSame(list: seq<nat>, requests: seq<Request>, later: seq<Request>)
    requires forall r <- list :: Started(requests, r) == Started(later, r)
    ensures StartedIn(list, requests) == StartedIn(list, later)
  {
    if list != [] {
      assert list[0] in list;
      StartedSame(list[1..], requests, later);
    }
  }

  lemma {:induction false} StartedMark(list: seq<nat>, requests: seq<Request>, later: seq<Request>, r: nat)
    requires Distinct(list) && r in list && !Started(requests, r) && Started(later, r)
    requires forall x <- list :: x != r ==> Started(requests, x) == Started(later, x)
    ensures StartedIn(list, later) == StartedIn(list, requests) + 1
  {
    HeadOnce(list);
    if list[0] == r { StartedSame(list[1..], requests, later); } else { StartedMark(list[1..], requests, later, r); }
  }

  lemma {:induction false} StartedDrop(list: seq<nat>, requests: seq<Request>, r: nat)
    requires r in list && Started(requests, r)
    ensures StartedIn(Drop(list, r), requests) == StartedIn(list, requests) - 1
  {
    if list[0] != r {
      assert r in list[1..];
      StartedDrop(list[1..], requests, r);
      assert Drop(list, r) == [list[0]] + Drop(list[1..], r);
    }
  }

  /** Before the clean-up. */
  predicate Serving(phase: Phase) {
    phase.Reading? || phase.Admitted? || phase.Queueing? || phase.Leaving?
  }

  /** The holder of req_lock has incremented nb_requests and not yet set assigned, or has removed its request from the
      list and not yet decremented nb_requests. */
  predicate Ahead(s: State, c: nat)
    requires c < |s.clients|
  {
    && s.clients[c].lock.Worker? && s.clients[c].lock.w < |s.threads|
    && s.threads[s.clients[c].lock.w].at.On?
    && (s.threads[s.clients[c].lock.w].at.point == CountedIn || s.threads[s.clients[c].lock.w].at.point == Unlisted)
  }

  ghost predicate CountAt(s: State, c: nat)
    requires c < |s.clients|
  {
    Serving(s.clients[c].phase) ==>
      s.clients[c].nb == StartedIn(s.clients[c].list, s.requests) + if Ahead(s, c) then 1 else 0
  }

  ghost predicate CountInv(s: State) {
    forall c: nat :: c < |s.clients| ==> CountAt(s, c)
  }

  lemma CountCleaned(s: State, e: Event, c: nat)
    requires Inv(s) && CountInv(s) && Enabled(s, e) && !IsWorker(e) && c < |Apply(s, e).clients| && Cleans(e)
    ensures CountAt(Apply(s, e), c)
  {
    hide CanWork, DoWork, Distinct, StartedIn;
    assert CountAt(s, c) && ClientAt(s, c) && ClientAt(s, e.c);
    var t := Apply(s, e);
    if s.clients[c].lock.Worker? { assert ThreadAt(s, s.clients[c].lock.w); }
    assert forall r <- s.clients[c].list :: Started(s.requests, r) == Started(t.requests, r);
    StartedSame(s.clients[c].list, s.requests, t.requests);
  }

  lemma CountServed(s: State, e: Event, c: nat)
    requires Inv(s) && CountInv(s) && Enabled(s, e) && !IsWorker(e) && c < |Apply(s, e).clients| && !Cleans(e)
    ensures CountAt(Apply(s, e), c)
  {
    hide CanWork, DoWork, Distinct, StartedIn;
    if c < |s.clients| {
      assert CountAt(s, c) && ClientAt(s, c);
      var t := Apply(s, e);
      if !e.NewClient? { assert ClientAt(s, e.c); }
      if s.clients[c].lock.Worker? { assert ThreadAt(s, s.clients[c].lock.w); }
      assert forall r <- s.clients[c].list :: Started(s.requests, r) == Started(t.requests, r);
      StartedSame(s.clients[c].list, s.requests, t.requests);
      if e.List? && e.c == c { ListAddsNone(s.clients[c].list, t.requests, |s.requests|); }
    } else {
      NoneStarted(Apply(s, e).requests);
    }
  }

  lemma NoneStarted(requests: seq<Request>)
    ensures StartedIn([], requests) == 0
  {
  }

  lemma ListAddsNone(list: seq<nat>, requests: seq<Request>, r: nat)
    requires !Started(requests, r)
    ensures StartedIn([r] + list, requests) == StartedIn(list, requests)
  {
    assert ([r] + list)[1..] == list;
  }

  /** A worker marks its request as assigned. */
  predicate Marks(s: State, e: Event) {
    e.Advance? && Safe(s, e.w) && PointOf(s, e.w) == CountedIn
  }

  lemma CountUnlist(s: State, e: Event, c: nat)
    requires Inv(s) && CountInv(s) && Enabled(s, e) && Unlists(s, e) && c < |s.clients|
    ensures c < |Apply(s, e).clients| && CountAt(Apply(s, e), c)
  {
    hide CanServe, DoServe, Distinct, StartedIn, Drop;
    var r := s.threads[e.w].at.r;
    assert CountAt(s, c) && ClientAt(s, c) && ThreadAt(s, e.w) && RequestAt(s, r);
    var d := s.requests[r].client;
    if c == d { StartedDrop(s.clients[c].list, s.requests, r); }
  }

  lemma CountMark(s: State, e: Event, c: nat)
    requires Inv(s) && CountInv(s) && Enabled(s, e) && Marks(s, e) && c < |s.clients|
    ensures c < |Apply(s, e).clients| && CountAt(Apply(s, e), c)
  {
    hide CanServe, DoServe, Distinct, StartedIn;
    var r := s.threads[e.w].at.r;
    assert CountAt(s, c) && ClientAt(s, c) && ThreadAt(s, e.w) && RequestAt(s, r);
    var t := Apply(s, e);
    if c == s.requests[r].client {
      StartedMark(s.clients[c].list, s.requests, t.requests, r);
    } else {
      StartedSame(s.clients[c].list, s.requests, t.requests);
    }
  }

  lemma CountTurns(s: State, e: Event, c: nat)
    requires Inv(s) && CountInv(s) && Enabled(s, e) && IsWorker(e) && Turns(e) && c < |s.clients|
    ensures c < |Apply(s, e).clients| && CountAt(Apply(s, e), c)
  {
    hide CanServe, DoServe, OwnList, StartedIn, RequestAt, Drop, StillListed, HeadOfKill;
    assert CountAt(s, c) && ClientAt(s, c) && ThreadAt(s, e.w);
    if s.clients[c].lock.Worker? { assert ThreadAt(s, s.clients[c].lock.w); }
    var t := Apply(s, e);
    StartedSame(s.clients[c].list, s.requests, t.requests);
  }

  lemma CountLocks(s: State, e: Event, c: nat)
    requires Inv(s) && CountInv(s) && Enabled(s, e) && IsWorker(e) && Locks(s, e) && c < |s.clients|
    ensures c < |Apply(s, e).clients| && CountAt(Apply(s, e), c)
  {
    hide Enabled, Apply, Locks, OwnList, StartedIn, RequestAt, HeadOfKill;
    var q := LocksMove(s, e);
    assert CountAt(s, c) && ClientAt(s, c) && ThreadAt(s, e.w);
    if s.clients[c].lock.Worker? { assert ThreadAt(s, s.clients[c].lock.w); }
  }

  lemma CountGoesOn(s: State, e: Event, c: nat)
    requires Inv(s) && CountInv(s) && Enabled(s, e) && IsWorker(e) && !Turns(e) && !Locks(s, e) && !Unlists(s, e) &&
        !Marks(s, e) && c < |s.clients|
    ensures c < |Apply(s, e).clients| && CountAt(Apply(s, e), c)
  {
    hide CanServe, DoServe, OwnList, StartedIn, RequestAt, Drop, StillListed, HeadOfKill;
    assert CountAt(s, c) && ClientAt(s, c) && ThreadAt(s, e.w);
    if s.clients[c].lock.Worker? { assert ThreadAt(s, s.clients[c].lock.w); }
    var t := Apply(s, e);
    StartedSame(s.clients[c].list, s.requests, t.requests);
  }

  lemma CountStep(s: State, e: Event)
    requires Inv(s) && CountInv(s) && Enabled(s, e)
    ensures CountInv(Apply(s, e))
  {
    hide Apply, Enabled, Inv, CountAt, Unlists, Marks, Locks, Turns, Cleans;
    var t := Apply(s, e);
    if IsWorker(e) { WorkGrows(s, e); }
    forall c: nat | c < |t.clients| ensures CountAt(t, c) {
      if !IsWorker(e) {
        if Cleans(e) { CountCleaned(s, e, c); } else { CountServed(s, e, c); }
      }
      else if Unlists(s, e) { CountUnlist(s, e, c); }
      else if Marks(s, e) { CountMark(s, e, c); }
      else if Turns(e) { CountTurns(s, e, c); }
      else if Locks(s, e) { CountLocks(s, e, c); }
      else { CountGoesOn(s, e, c); }
    }
  }

  // ----- runs

  /** The states reachable with the given pool sizes and maximum of requests. */
  ghost predicate Reachable(slow: nat, fast: nat, max: int, s: State) {
    Reaches(Step, Init(slow, fast, max), s)
  }

  /** In some configuration. */
  ghost predicate Possible(s: State) {
    exists slow: nat, fast: nat, max: int :: Reachable(slow, fast, max, s)
  }

  lemma InvInit(slow: nat, fast: nat, max: int)
    ensures Inv(Init(slow, fast, max)) && CountInv(Init(slow, fast, max))
  {
  }

  lemma ReachableInv(slow: nat, fast: nat, max: int, s: State)
    requires Reachable(slow, fast, max, s)
    ensures Inv(s) && CountInv(s)
  {
    hide Inv, CountInv, Apply, Enabled, Reaches;
    var inv := u => Inv(u) && CountInv(u);
    InvInit(slow, fast, max);
    assert EveryStepKeeps(Step, inv) by {
      forall u, e | inv(u) && Step(u, e).Some? ensures inv(Step(u, e).value) {
        InvStep(u, e);
        CountStep(u, e);
      }
    }
    ReachesKeeps(Step, inv, Init(slow, fast, max), s);
  }

  lemma PossibleInv(s: State)
    requires Possible(s)
    ensures Inv(s) && CountInv(s)
  {
    hide Inv, CountInv, Reachable;
    var slow: nat, fast: nat, max: int :| Reachable(slow, fast, max, s);
    ReachableInv(slow, fast, max, s);
  }

  // ----- the counter

  /** Before the clean-up, whenever req_lock is free, nb_requests is the number of assigned requests on the list. */
  lemma CounterCountsStarted(s: State, c: nat)
    requires Possible(s) && c < |s.clients| && Serving(s.clients[c].phase) && s.clients[c].lock == Nobody
    ensures s.clients[c].nb == StartedIn(s.clients[c].list, s.requests)
  {
    hide Possible, StartedIn, Inv;
    PossibleInv(s);
    assert CountAt(s, c);
  }

  /** So the limit is on started requests only, and refuses only when there are exactly as many as the maximum; the
      client then reads on. */
  lemma LimitIsOnStarted(s: State, c: nat)
    requires Possible(s) && Enabled(s, Check(c))
    ensures c < |s.clients| && c < |Apply(s, Check(c)).clients|
    ensures Apply(s, Check(c)).clients[c].phase ==
            if StartedIn(s.clients[c].list, s.requests) != s.max then Admitted else Reading
  {
    hide Possible, StartedIn;
    CounterCountsStarted(s, c);
  }

  // ----- the clean-up

  predicate Refers(s: State, w: nat, r: nat)
    requires w < |s.threads|
  {
    s.threads[w].at.On? && s.threads[w].at.r == r
  }

  /** While a client's thread holds req_lock to clean up, every assigned request on its list is being executed by the
      worker tid, of the pool the request names, and by no other: pool_kill cancels exactly that request's worker. */
  lemma KillHitsItsWorker(s: State, c: nat, r: nat)
    requires Possible(s) && c < |s.clients| && s.clients[c].phase == Cleaning
    requires r in s.clients[c].list && r < |s.requests| && s.requests[r].started
    ensures s.clients[c].lock == Owner
    ensures
      var tid := s.requests[r].tid;
      && tid < |s.threads| && s.threads[tid].at == On(Running, r) && s.threads[tid].pool == s.requests[r].pool
      && forall w: nat :: w < |s.threads| && w != tid ==> !Refers(s, w, r)
  {
    hide Possible, CountInv, Distinct;
    PossibleInv(s);
    assert ClientAt(s, c);
    StartedIsRunning(s, c, r);
    forall w: nat | w < |s.threads| && w != s.requests[r].tid ensures !Refers(s, w, r) { assert ThreadAt(s, w); }
  }

  /** A cancelled worker is at, or has died at, the request that its killer is waiting for. */
  lemma OnlyTheHeadIsCancelled(s: State, w: nat)
    requires Possible(s) && w < |s.threads| && s.threads[w].cancelled && s.threads[w].at != Dead
    ensures s.threads[w].at.On? && s.threads[w].at.point == Running
    ensures
      var r := s.threads[w].at.r;
      r < |s.requests| && s.requests[r].tid == w && s.requests[r].client < |s.clients| &&
      var k := s.clients[s.requests[r].client];
      k.phase == Killing && k.list != [] && k.list[0] == r
  {
    hide Possible, CountInv, RequestAt, ClientAt;
    PossibleInv(s);
    assert ThreadAt(s, w);
  }

  /** The request that an event frees. */
  function Frees(s: State, e: Event): (r: int)
    requires Enabled(s, e)
  {
    match e
    case CleanFlush(c) => s.clients[c].list[0]
    case CleanReap(c) => s.clients[c].list[0]
    case Advance(w) => if PointOf(s, w) == Freeing then s.threads[w].at.r else -1
    case _ => -1
  }

  /** No request is freed twice. */
  lemma FreedOnce(s: State, e: Event)
    requires Possible(s) && Enabled(s, e) && Frees(s, e) >= 0
    ensures Frees(s, e) < |s.requests| && s.requests[Frees(s, e)].stage != Freed
    ensures Frees(s, e) < |Apply(s, e).requests| && Apply(s, e).requests[Frees(s, e)].stage == Freed
  {
    hide Possible, CountInv, Distinct, ThreadAt;
    PossibleInv(s);
    if !IsWorker(e) {
      assert ClientAt(s, e.c);
      assert Frees(s, e) in s.clients[e.c].list;
      assert RequestAt(s, Frees(s, e));
    }
  }

  /** A request that has been freed stays so. */
  lemma FreedStep(s: State, e: Event, r: nat)
    requires Inv(s) && Enabled(s, e) && r < |s.requests| && s.requests[r].stage == Freed
    ensures r < |Apply(s, e).requests| && Apply(s, e).requests[r].stage == Freed
  {
    hide Distinct;
    if IsWorker(e) { FreedWork(s, e, r); } else { FreedServe(s, e, r); }
  }

  lemma FreedWork(s: State, e: Event, r: nat)
    requires Enabled(s, e) && IsWorker(e) && r < |s.requests| && s.requests[r].stage == Freed
    ensures r < |Apply(s, e).requests| && Apply(s, e).requests[r].stage == Freed
  {
    hide CanServe, DoServe, Drop;
  }

  lemma FreedServe(s: State, e: Event, r: nat)
    requires Inv(s) && Enabled(s, e) && !IsWorker(e) && r < |s.requests| && s.requests[r].stage == Freed
    ensures r < |Apply(s, e).requests| && Apply(s, e).requests[r].stage == Freed
  {
    hide CanWork, DoWork, Distinct, ThreadAt, RequestAt;
    if !e.NewClient? { assert ClientAt(s, e.c); }
  }

  /** Once freed, a request is never freed again in the rest of the run. */
  lemma FreedForGood(s: State, events: seq<Event>, t: State, r: nat, e: Event)
    requires Possible(s) && Leads(Step, s, events, t) && r < |s.requests| && s.requests[r].stage == Freed
    ensures r < |t.requests| && t.requests[r].stage == Freed
    ensures Enabled(t, e) ==> Frees(t, e) != r
  {
    hide Leads, Inv, CountInv, Apply, Enabled, Frees, Reachable;
    PossibleInv(s);
    var inv := u => Inv(u) && r < |u.requests| && u.requests[r].stage == Freed;
    assert EveryStepKeeps(Step, inv) by {
      forall u, f | inv(u) && Step(u, f).Some? ensures inv(Step(u, f).value) {
        InvStep(u, f);
        FreedStep(u, f, r);
      }
    }
    RunKeeps(Step, inv, s, events, t);
    if Enabled(t, e) && Frees(t, e) >= 0 {
      LaterPossible(s, events, t);
      FreedOnce(t, e);
    }
  }

  lemma LaterPossible(s: State, events: seq<Event>, t: State)
    requires Possible(s) && Leads(Step, s, events, t)
    ensures Possible(t)
  {
    hide Leads, Reaches;
    var slow: nat, fast: nat, max: int :| Reachable(slow, fast, max, s);
    ReachesOn(Step, Init(slow, fast, max), s, events, t);
    assert Reachable(slow, fast, max, t);
  }

  /** A worker that calls client_request_remove finds its request on the list. */
  lemma EndingIsListed(s: State, w: nat)
    requires Possible(s) && Safe(s, w) && PointOf(s, w) == Ending
    ensures s.threads[w].at.r in s.clients[ClientOf(s, w)].list
  {
    hide Possible, CountInv, ClientAt;
    PossibleInv(s);
    assert ThreadAt(s, w) && RequestAt(s, s.threads[w].at.r);
  }

  /** A request freed by a worker at its end, or after its worker was killed, is in no worker's hands. */
  lemma FreesNothingInUse(s: State, e: Event, w: nat)
    requires Possible(s) && Enabled(s, e) && Frees(s, e) >= 0 && !e.CleanFlush? && w < |Apply(s, e).threads|
    ensures !Refers(Apply(s, e), w, Frees(s, e))
  {
    hide Possible, CountInv, Distinct;
    PossibleInv(s);
    if w < |s.threads| {
      assert ThreadAt(s, w);
      if e.Advance? {
        assert ThreadAt(s, e.w);
      } else {
        assert ClientAt(s, e.c);
        var r := s.clients[e.c].list[0];
        assert r in s.clients[e.c].list && RequestAt(s, r);
      }
    }
  }

  /** A request that was not assigned and that the clean-up frees is still in a worker's hands exactly if
      pool_flush_by_arg did not find it in the queue: it had been popped and not yet assigned. */
  lemma FlushMissesPopped(s: State, c: nat)
    requires Possible(s) && Enabled(s, CleanFlush(c))
    ensures c < |s.clients| && s.clients[c].list != [] && s.clients[c].list[0] < |s.requests|
    ensures
      var r := s.clients[c].list[0];
      (exists w: nat :: w < |Apply(s, CleanFlush(c)).threads| && Refers(Apply(s, CleanFlush(c)), w, r)) <==>
      s.requests[r].stage != Queued
  {
    hide Possible, CountInv, Distinct;
    PossibleInv(s);
    var r, t := s.clients[c].list[0], Apply(s, CleanFlush(c));
    assert ClientAt(s, c) && r in s.clients[c].list && RequestAt(s, r);
    if s.requests[r].stage == Queued {
      forall w: nat | w < |t.threads| ensures !Refers(t, w, r) { assert ThreadAt(s, w); }
    } else {
      assert Refers(t, s.requests[r].stage.w, r);
    }
  }

  /** A worker that refers to a freed request, or to a client that is gone, has popped the request and not locked yet,
      or has nothing left to do but to free it. */
  lemma OnlyPoppedDangles(s: State, w: nat)
    requires Possible(s) && w < |s.threads| && s.threads[w].at.On?
    ensures
      var r, p := s.threads[w].at.r, s.threads[w].at.point;
      && r < |s.requests| && s.requests[r].client < |s.clients|
      && (s.requests[r].stage == Freed ==> p == Popped && !s.requests[r].started)
      && (s.clients[s.requests[r].client].phase == Gone ==>
            (p == Popped && s.requests[r].stage == Freed) || p == Freeing)
  {
    hide Possible, CountInv, Distinct;
    PossibleInv(s);
    assert ThreadAt(s, w);
    assert RequestAt(s, s.threads[w].at.r);
    assert ClientAt(s, s.requests[s.threads[w].at.r].client);
  }

  /** Once a client is gone nothing of its requests is left behind: each has been freed, or its worker is about to. */
  lemma GoneLeavesNothing(s: State, r: nat)
    requires Possible(s) && r < |s.requests|
    ensures s.requests[r].client < |s.clients|
    ensures s.clients[s.requests[r].client].phase == Gone ==>
              s.requests[r].stage == Freed || exists w: nat :: w < |s.threads| && s.threads[w].at == On(Freeing, r)
  {
    hide Possible, CountInv, Distinct;
    PossibleInv(s);
    assert RequestAt(s, r) && ClientAt(s, s.requests[r].client);
    if s.requests[r].stage.Held? {
      var w := s.requests[r].stage.w;
      assert ThreadAt(s, w);
      if s.clients[s.requests[r].client].phase == Gone { assert s.threads[w].at == On(Freeing, r); }
    }
  }
}
