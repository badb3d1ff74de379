/** What every step keeps about the requests: who holds each of them, who is on which list, who has which req_lock. */
module RequestLife {
  import opened RequestProtocol
  import opened Sequences

  /** Between sem_wait and sem_post on req_lock. */
  predicate Critical(p: Point) {
    p.Locked? || p.CountedIn? || p.Marked? || p.Looking? || p.Ending? || p.Unlisted? || p.CountedOut?
  }

  /** The request is still on its client's list. */
  predicate StillListed(p: Point) {
    !p.Unlisted? && !p.CountedOut? && !p.Freeing?
  }

  /** assigned has been set. */
  predicate HasStarted(p: Point) {
    !p.Popped? && !p.Locked? && !p.CountedIn?
  }

  /** A worker with a request is the one that holds it and has its req_lock exactly in its critical sections; only a
      request that was popped and not yet assigned can have been freed under a worker's feet. */
  ghost predicate ThreadAt(s: State, w: nat)
    requires w < |s.threads|
  {
    var t := s.threads[w];
    && (t.at.On? ==>
          && t.at.r < |s.requests| && s.requests[t.at.r].pool == t.pool && s.requests[t.at.r].client < |s.clients|
          && (s.requests[t.at.r].stage == Held(w) || (t.at.point == Popped && s.requests[t.at.r].stage == Freed))
          && (s.requests[t.at.r].started <==> HasStarted(t.at.point))
          && (s.requests[t.at.r].started ==> s.requests[t.at.r].tid == w)
          && (Critical(t.at.point) <==> s.clients[s.requests[t.at.r].client].lock == Worker(w)))
    && (t.cancelled && !t.at.Dead? ==> t.at.On? && t.at.point == Running && HeadOfKill(s, t.at.r))
  }

  /** r is the request whose worker its client's thread has cancelled and is joining. */
  ghost predicate HeadOfKill(s: State, r: nat) {
    && r < |s.requests| && s.requests[r].client < |s.clients|
    && s.clients[s.requests[r].client].phase == Killing
    && s.clients[s.requests[r].client].list != [] && s.clients[s.requests[r].client].list[0] == r
  }

  ghost predicate Listed(s: State, r: nat)
    requires r < |s.requests|
  {
    match s.requests[r].stage
    case Held(w) => w < |s.threads| && s.threads[w].at.On? && StillListed(s.threads[w].at.point)
    case Freed => false
    case _ => true
  }

  /** A request is on its client's list until its worker takes it off or the clean-up frees it, and whoever its stage
      names is in charge of it. */
  ghost predicate RequestAt(s: State, r: nat)
    requires r < |s.requests|
  {
    var q := s.requests[r];
    && q.client < |s.clients|
    && (r in s.clients[q.client].list <==> Listed(s, r))
    && (q.stage.Held? ==> q.stage.w < |s.threads| && s.threads[q.stage.w].at.On? && s.threads[q.stage.w].at.r == r)
    && (q.stage.Made? || q.stage.Queued? ==> !q.started)
    && (q.stage.Made? ==> s.clients[q.client].phase == Queueing(r))
    && (q.stage.Dropped? ==>
          && q.started && q.tid < |s.threads| && s.threads[q.tid].at == Dead && s.threads[q.tid].pool == q.pool
          && HeadOfKill(s, r))
  }

  ghost predicate OwnList(s: State, c: nat)
    requires c < |s.clients|
  {
    && Distinct(s.clients[c].list)
    && forall r <- s.clients[c].list :: r < |s.requests| && s.requests[r].client == c
  }

  ghost predicate ClientAt(s: State, c: nat)
    requires c < |s.clients|
  {
    var k := s.clients[c];
    && OwnList(s, c)
    && (k.lock == Owner <==> k.phase == Cleaning || k.phase == Killing)
    && (k.lock.Worker? ==>
          && k.lock.w < |s.threads| && s.threads[k.lock.w].at.On? && Critical(s.threads[k.lock.w].at.point)
          && s.threads[k.lock.w].at.r < |s.requests| && s.requests[s.threads[k.lock.w].at.r].client == c)
    && (k.phase.Queueing? ==>
          && k.phase.r < |s.requests| && s.requests[k.phase.r].client == c && s.requests[k.phase.r].stage == Made)
    && (k.phase == Gone ==> k.list == [] && k.lock == Nobody)
    && (k.phase == Killing ==>
          && k.list != [] && k.list[0] < |s.requests| && s.requests[k.list[0]].started
          && s.requests[k.list[0]].tid < |s.threads|
          && (s.requests[k.list[0]].stage == Dropped ||
              (s.requests[k.list[0]].stage == Held(s.requests[k.list[0]].tid) &&
               s.threads[s.requests[k.list[0]].tid].at == On(Running, k.list[0]) &&
               s.threads[s.requests[k.list[0]].tid].cancelled)))
  }

  ghost predicate Inv(s: State) {
    && (forall w: nat :: w < |s.threads| ==> ThreadAt(s, w))
    && (forall r: nat :: r < |s.requests| ==> RequestAt(s, r))
    && (forall c: nat :: c < |s.clients| ==> ClientAt(s, c))
  }

  lemma {:induction false} DropMembers(list: seq<nat>, r: nat)
    requires Distinct(list)
    ensures Distinct(Drop(list, r))
    ensures forall x :: x in Drop(list, r) <==> x in list && x != r
  {
    if list != [] {
      assert forall a :: 0 <= a < |list| - 1 ==> list[1..][a] == list[a + 1];
      DropMembers(list[1..], r);
      if list[0] != r { assert list[0] !in list[1..]; }
    }
  }

  /** Drop is the removal of one position, as the list surgery does it. */
  lemma {:induction false} DropIsWithout(list: seq<nat>, m: nat)
    requires Distinct(list) && m < |list|
    ensures Drop(list, list[m]) == Without(list, m)
  {
    if m > 0 {
      var rest := list[1..];
      HeadOnce(list);
      assert rest[m - 1] == list[m] && list[0] != list[m];
      calc {
        Drop(list, list[m]);
        [list[0]] + Drop(rest, list[m]);
        { DropIsWithout(rest, m - 1); }
        [list[0]] + (rest[..m - 1] + rest[m..]);
        list[..m] + list[m + 1..];
      }
    }
  }

  lemma HeadOnce(list: seq<nat>)
    requires Distinct(list) && list != []
    ensures Distinct(list[1..]) && list[0] !in list[1..]
    ensures forall x :: x in list <==> x == list[0] || x in list[1..]
  {
    assert list == [list[0]] + list[1..];
    assert forall a :: 0 <= a < |list| - 1 ==> list[1..][a] == list[a + 1];
  }

  /** A worker takes its request off the list. */
  predicate Unlists(s: State, e: Event) {
    e.Advance? && Safe(s, e.w) && PointOf(s, e.w) == Ending
  }

  /** A worker takes or releases its client's req_lock and nothing else changes. */
  predicate Locks(s: State, e: Event) {
    e.Look? ||
    (e.Advance? && Safe(s, e.w) && !PointOf(s, e.w).Locked? && !PointOf(s, e.w).CountedIn? &&
     !PointOf(s, e.w).Ending? && !PointOf(s, e.w).Unlisted? && !PointOf(s, e.w).Freeing?)
  }

  lemma EmptyIsDistinct()
    ensures Distinct<nat>([])
  {
  }

  /** A worker takes a request from the queue or dies with one. */
  predicate Turns(e: Event) {
    e.Pop? || e.Die?
  }

  /** The clean-up of a client. */
  predicate Cleans(e: Event) {
    e.CleanLock? || e.CleanFlush? || e.CleanKill? || e.CleanReap? || e.CleanEnd?
  }

  lemma NewIsDistinct(list: seq<nat>, n: nat)
    requires Distinct(list) && forall r <- list :: r < n
    ensures Distinct([n] + list)
  {
    assert forall a :: 0 <= a < |list| ==> list[a] in list;
  }

  /** Worker w enters or leaves a critical section of its client, moving to point q. */
  ghost predicate LockMove(s: State, t: State, w: nat, q: Point) {
    Safe(s, w) &&
    var c, p := ClientOf(s, w), PointOf(s, w);
    && t == s.(threads := Move(s, w, q), clients := WithLock(s, c, if Critical(q) then Worker(w) else Nobody))
    && Critical(p) != Critical(q) && StillListed(p) == StillListed(q) && HasStarted(p) == HasStarted(q)
    && (Critical(q) ==> s.clients[c].lock == Nobody && StillListed(p))
    && p != CountedIn && p != Unlisted && q != CountedIn && q != Unlisted
  }

  lemma LocksMove(s: State, e: Event) returns (q: Point)
    requires Enabled(s, e) && Locks(s, e)
    ensures LockMove(s, Apply(s, e), e.w, q)
  {
    hide CanServe, DoServe;
    q := if e.Look? then Looking
      else match PointOf(s, e.w)
        case Popped => Locked
        case Running => Ending
        case CountedOut => Freeing
        case _ => Running;
  }

  lemma ThreadLocks(s: State, e: Event, w: nat)
    requires Inv(s) && Enabled(s, e) && IsWorker(e) && Locks(s, e) && w < |s.threads|
    ensures w < |Apply(s, e).threads| && ThreadAt(Apply(s, e), w)
  {
    hide Enabled, Apply, Locks, OwnList, Drop;
    var q := LocksMove(s, e);
    assert ThreadAt(s, w) && ThreadAt(s, e.w);
    assert ClientAt(s, ClientOf(s, e.w));
    if s.threads[w].at.On? { assert ClientAt(s, s.requests[s.threads[w].at.r].client); }
  }

  lemma ListWithout(s: State, w: nat)
    requires Inv(s) && Safe(s, w)
    ensures var list, r := s.clients[ClientOf(s, w)].list, s.threads[w].at.r;
            Distinct(Drop(list, r)) && forall x :: x in Drop(list, r) <==> x in list && x != r
  {
    hide Distinct, Drop, ThreadAt, RequestAt;
    assert ClientAt(s, ClientOf(s, w));
    DropMembers(s.clients[ClientOf(s, w)].list, s.threads[w].at.r);
  }

  lemma ThreadTurns(s: State, e: Event, w: nat)
    requires Inv(s) && Enabled(s, e) && IsWorker(e) && (Turns(e) || Unlists(s, e)) && w < |s.threads|
    ensures w < |Apply(s, e).threads| && ThreadAt(Apply(s, e), w)
  {
    hide CanServe, DoServe, OwnList, Drop;
    assert ThreadAt(s, w) && ThreadAt(s, e.w);
    if s.threads[e.w].at.On? {
      assert RequestAt(s, s.threads[e.w].at.r);
      assert ClientAt(s, s.requests[s.threads[e.w].at.r].client);
    }
    if s.threads[w].at.On? { assert ClientAt(s, s.requests[s.threads[w].at.r].client); }
    if e.Pop? { assert RequestAt(s, e.r) && ClientAt(s, s.requests[e.r].client); }
  }

  lemma ThreadGoesOn(s: State, e: Event, w: nat)
    requires Inv(s) && Enabled(s, e) && IsWorker(e) && !Locks(s, e) && !Unlists(s, e) && w < |s.threads| && !Turns(e)
    ensures w < |Apply(s, e).threads| && ThreadAt(Apply(s, e), w)
  {
    hide CanServe, DoServe, OwnList, Drop;
    assert ThreadAt(s, w) && ThreadAt(s, e.w);
    if s.threads[e.w].at.On? {
      assert RequestAt(s, s.threads[e.w].at.r);
      assert ClientAt(s, s.requests[s.threads[e.w].at.r].client);
    }
    if s.threads[w].at.On? { assert ClientAt(s, s.requests[s.threads[w].at.r].client); }
  }

  lemma RequestLocks(s: State, e: Event, r: nat)
    requires Inv(s) && Enabled(s, e) && IsWorker(e) && Locks(s, e) && r < |s.requests|
    ensures r < |Apply(s, e).requests| && RequestAt(Apply(s, e), r)
  {
    hide Enabled, Apply, Locks, OwnList, ThreadAt, ClientAt;
    var q := LocksMove(s, e);
    assert RequestAt(s, r) && ThreadAt(s, e.w) && ClientAt(s, s.requests[r].client);
  }

  lemma RequestUnlist(s: State, e: Event, r: nat)
    requires Inv(s) && Enabled(s, e) && Unlists(s, e) && r < |s.requests|
    ensures r < |Apply(s, e).requests| && RequestAt(Apply(s, e), r)
  {
    hide CanServe, DoServe, Drop, Distinct;
    var r0 := s.threads[e.w].at.r;
    var c := s.requests[r0].client;
    assert RequestAt(s, r) && ThreadAt(s, e.w) && RequestAt(s, r0) && ClientAt(s, c);
    if s.requests[r].stage.Held? { assert ThreadAt(s, s.requests[r].stage.w); }
    DropMembers(s.clients[c].list, r0);
    assert Apply(s, e).clients[s.requests[r].client].list ==
           if s.requests[r].client == c then Drop(s.clients[c].list, r0) else s.clients[s.requests[r].client].list;
  }

  lemma RequestTurns(s: State, e: Event, r: nat)
    requires Inv(s) && Enabled(s, e) && IsWorker(e) && Turns(e) && r < |s.requests|
    ensures r < |Apply(s, e).requests| && RequestAt(Apply(s, e), r)
  {
    hide CanServe, DoServe, Drop, ClientAt, Critical;
    assert RequestAt(s, r) && ThreadAt(s, e.w);
    if s.requests[r].stage.Held? { assert ThreadAt(s, s.requests[r].stage.w); }
    if s.threads[e.w].at.On? { assert RequestAt(s, s.threads[e.w].at.r); }
  }

  lemma RequestGoesOn(s: State, e: Event, r: nat)
    requires Inv(s) && Enabled(s, e) && IsWorker(e) && !Locks(s, e) && !Unlists(s, e) && r < |s.requests| && !Turns(e)
    ensures r < |Apply(s, e).requests| && RequestAt(Apply(s, e), r)
  {
    hide CanServe, DoServe, Drop, ClientAt, Critical;
    assert RequestAt(s, r) && ThreadAt(s, e.w);
    if s.requests[r].stage.Held? { assert ThreadAt(s, s.requests[r].stage.w); }
    if s.threads[e.w].at.On? { assert RequestAt(s, s.threads[e.w].at.r); }
  }

  lemma ClientLocks(s: State, e: Event, c: nat)
    requires Inv(s) && Enabled(s, e) && IsWorker(e) && Locks(s, e) && c < |s.clients|
    ensures c < |Apply(s, e).clients| && ClientAt(Apply(s, e), c)
  {
    hide Enabled, Apply, Locks, Distinct, Drop;
    var q := LocksMove(s, e);
    assert ClientAt(s, c) && ThreadAt(s, e.w) && RequestAt(s, s.threads[e.w].at.r);
    if s.clients[c].lock.Worker? { assert ThreadAt(s, s.clients[c].lock.w); }
    if s.clients[c].phase == Killing { assert s.clients[c].list[0] in s.clients[c].list; }
  }

  lemma ClientTurns(s: State, e: Event, c: nat)
    requires Inv(s) && Enabled(s, e) && IsWorker(e) && (Turns(e) || Unlists(s, e)) && c < |s.clients|
    ensures c < |Apply(s, e).clients| && ClientAt(Apply(s, e), c)
  {
    hide CanServe, DoServe, Drop, Distinct;
    assert ClientAt(s, c) && ThreadAt(s, e.w);
    if s.threads[e.w].at.On? {
      assert RequestAt(s, s.threads[e.w].at.r);
      assert ClientAt(s, s.requests[s.threads[e.w].at.r].client);
    }
    if e.Advance? { ListWithout(s, e.w); }
    if s.clients[c].lock.Worker? { assert ThreadAt(s, s.clients[c].lock.w); }
  }

  lemma ClientGoesOn(s: State, e: Event, c: nat)
    requires Inv(s) && Enabled(s, e) && IsWorker(e) && !Locks(s, e) && !Unlists(s, e) && c < |s.clients| && !Turns(e)
    ensures c < |Apply(s, e).clients| && ClientAt(Apply(s, e), c)
  {
    hide CanServe, DoServe, Drop, Distinct;
    assert ClientAt(s, c) && ThreadAt(s, e.w);
    if s.threads[e.w].at.On? {
      assert RequestAt(s, s.threads[e.w].at.r);
      assert ClientAt(s, s.requests[s.threads[e.w].at.r].client);
    }
    if s.clients[c].lock.Worker? { assert ThreadAt(s, s.clients[c].lock.w); }
  }

  /** While a client's thread cleans up under req_lock, a request on the list that has been assigned is being executed,
      right now, by the worker it names, in the pool it names. */
  lemma StartedIsRunning(s: State, c: nat, r: nat)
    requires Inv(s) && c < |s.clients| && s.clients[c].phase == Cleaning
    requires r in s.clients[c].list && r < |s.requests| && s.requests[r].started
    ensures s.requests[r].tid < |s.threads| && s.requests[r].stage == Held(s.requests[r].tid)
    ensures var t := s.threads[s.requests[r].tid];
            t.at == On(Running, r) && t.pool == s.requests[r].pool && !t.cancelled
  {
    hide Distinct;
    assert ClientAt(s, c) && RequestAt(s, r);
    if s.requests[r].stage.Held? { assert ThreadAt(s, s.requests[r].stage.w); }
  }

  lemma ThreadServe(s: State, e: Event, w: nat)
    requires Inv(s) && Enabled(s, e) && !IsWorker(e) && w < |Apply(s, e).threads|
    ensures ThreadAt(Apply(s, e), w)
  {
    hide CanWork, DoWork, Distinct;
    if !e.NewClient? { assert ClientAt(s, e.c); }
    if w < |s.threads| {
      assert ThreadAt(s, w);
      if s.threads[w].at.On? {
        assert RequestAt(s, s.threads[w].at.r);
        assert ClientAt(s, s.requests[s.threads[w].at.r].client);
      }
    }
    if !e.NewClient? && s.clients[e.c].list != [] {
      assert s.clients[e.c].list[0] in s.clients[e.c].list;
      assert RequestAt(s, s.clients[e.c].list[0]);
      if e.CleanKill? { StartedIsRunning(s, e.c, s.clients[e.c].list[0]); }
    }
  }

  lemma RequestCleaned(s: State, e: Event, r: nat)
    requires Inv(s) && Enabled(s, e) && !IsWorker(e) && r < |Apply(s, e).requests| && Cleans(e)
    ensures RequestAt(Apply(s, e), r)
  {
    hide CanWork, DoWork, Distinct;
    if r < |s.requests| {
      assert RequestAt(s, r);
      assert ClientAt(s, s.requests[r].client);
      if s.requests[r].stage.Held? { assert ThreadAt(s, s.requests[r].stage.w); }
    }
    if !e.NewClient? {
      assert ClientAt(s, e.c);
      if s.clients[e.c].list != [] {
        HeadOnce(s.clients[e.c].list);
        assert RequestAt(s, s.clients[e.c].list[0]);
      }
    }
  }

  lemma RequestServed(s: State, e: Event, r: nat)
    requires Inv(s) && Enabled(s, e) && !IsWorker(e) && r < |Apply(s, e).requests| && !Cleans(e)
    ensures RequestAt(Apply(s, e), r)
  {
    hide CanWork, DoWork, Distinct;
    if r < |s.requests| {
      assert RequestAt(s, r);
      assert ClientAt(s, s.requests[r].client);
      if s.requests[r].stage.Held? { assert ThreadAt(s, s.requests[r].stage.w); }
    }
    if !e.NewClient? {
      assert ClientAt(s, e.c);
      if s.clients[e.c].list != [] {
        HeadOnce(s.clients[e.c].list);
        assert RequestAt(s, s.clients[e.c].list[0]);
      }
    }
  }

  /** What a client's thread does to the other clients, or what creating one does: nothing. */
  lemma ClientServeOther(s: State, e: Event, c: nat)
    requires Inv(s) && Enabled(s, e) && !IsWorker(e) && c < |Apply(s, e).clients| && (e.NewClient? || e.c != c)
    ensures ClientAt(Apply(s, e), c)
  {
    hide CanWork, DoWork, RequestAt, Distinct;
    EmptyIsDistinct();
    if c < |s.clients| {
      assert ClientAt(s, c);
      if s.clients[c].phase == Killing { assert s.clients[c].list[0] in s.clients[c].list; }
      if !e.NewClient? {
        assert ClientAt(s, e.c);
        if s.clients[e.c].list != [] { assert s.clients[e.c].list[0] in s.clients[e.c].list; }
      }
      if e.CleanKill? { StartedIsRunning(s, e.c, s.clients[e.c].list[0]); }
    }
  }

  lemma ClientCleans(s: State, e: Event)
    requires Inv(s) && Enabled(s, e) && !IsWorker(e) && !e.NewClient? && Cleans(e)
    ensures e.c < |Apply(s, e).clients| && ClientAt(Apply(s, e), e.c)
  {
    hide CanWork, DoWork, Distinct, RequestAt, ThreadAt;
    assert ClientAt(s, e.c);
    if s.clients[e.c].list != [] {
      assert s.clients[e.c].list[0] in s.clients[e.c].list;
      HeadOnce(s.clients[e.c].list);
      if e.CleanKill? { StartedIsRunning(s, e.c, s.clients[e.c].list[0]); }
    }
  }

  lemma ClientListens(s: State, e: Event)
    requires Inv(s) && Enabled(s, e) && !IsWorker(e) && !e.NewClient? && !Cleans(e)
    ensures e.c < |Apply(s, e).clients| && ClientAt(Apply(s, e), e.c)
  {
    hide CanWork, DoWork, Distinct, RequestAt, ThreadAt;
    assert ClientAt(s, e.c);
    if e.List? { NewIsDistinct(s.clients[e.c].list, |s.requests|); }
    if s.clients[e.c].list != [] {
      assert s.clients[e.c].list[0] in s.clients[e.c].list;
      HeadOnce(s.clients[e.c].list);
    }
  }

}
