/** Admission of clients: the accept loop reserves a slot in nb_clients under its lock and queues the client on a pool
    of max_clients workers, each of which releases the slot when it is done with its client, in any interleaving. */
module Admission {
  import opened Runs
  import opened Wrappers

  /** Where start_server is with a connection. */
  datatype ServerPc =
    | Accepting
    | Accepted                // wants nb_clients.lock to reserve
    | Testing                 // has the lock
    | Reserving(loaded: int)  // has the lock, has loaded the count to increment
    | Counted                 // has the lock, has stored the incremented count
    | Full                    // has the lock, found no room
    | Reserved                // has released the lock, about to call inet_ntop and client_new
    | Failed                  // inet_ntop failed, wants the lock to give the slot back
    | Undoing                 // has the lock
    | Restoring(loaded: int)  // has the lock, has loaded the count to decrement
    | Restored                // has the lock, has stored the decremented count

  /** Where a worker of clients_pool is. */
  datatype WorkerPc =
    | NotStarted
    | Idle
    | Serving(hasClient: bool)  // in handle_client, from its start to the label out
    | Ending                    // at the label out, wants the lock
    | Locked                    // has the lock
    | Releasing(loaded: int)    // has the lock, has loaded the count to decrement
    | Released                  // has the lock, has stored the decremented count
    | Returning                 // has released the lock

  datatype Holder = Nobody | Server | Worker(i: nat)

  /** queue holds, for each job of clients_pool, whether client_new had given it a client. */
  datatype State = State(count: int, lock: Holder, server: ServerPc, queue: seq<bool>, workers: seq<WorkerPc>, max: nat)

  datatype Event =
    | Accept | ServerLock | Test | Reserve | Post | NtopFails | QueueClient(hasClient: bool) | UndoLock | Load | Undo
    | Start(i: nat) | Take(i: nat) | Finish(i: nat) | EndLock(i: nat) | EndLoad(i: nat) | Release(i: nat)
    | EndPost(i: nat) | Return(i: nat)

  function Init(max: nat): State {
    State(0, Nobody, Accepting, [], seq(max, _ => NotStarted), max)
  }

  predicate IsWorker(e: Event) {
    e.Start? || e.Take? || e.Finish? || e.EndLock? || e.EndLoad? || e.Release? || e.EndPost? || e.Return?
  }

  predicate Enabled(s: State, e: Event) {
    if IsWorker(e) then
      e.i < |s.workers| &&
      match e
      case Start(i) => s.workers[i] == NotStarted
      case Take(i) => s.workers[i] == Idle && s.queue != []
      case Finish(i) => s.workers[i].Serving?
      case EndLock(i) => s.workers[i] == Ending && s.lock == Nobody
      case EndLoad(i) => s.workers[i] == Locked
      case Release(i) => s.workers[i].Releasing?
      case EndPost(i) => s.workers[i] == Released
      case Return(i) => s.workers[i] == Returning
    else
      match e
      case Accept => s.server == Accepting
      case ServerLock => s.server == Accepted && s.lock == Nobody
      case Test => s.server == Testing
      case Reserve => s.server.Reserving?
      case Post => s.server == Counted || s.server == Full || s.server == Restored
      case NtopFails => s.server == Reserved
      case QueueClient(_) => s.server == Reserved
      case UndoLock => s.server == Failed && s.lock == Nobody
      case Load => s.server == Undoing
      case Undo => s.server.Restoring?
  }

  function Work(s: State, e: Event): State
    requires IsWorker(e) && Enabled(s, e)
  {
    var to := p => s.workers[e.i := p];
    match e
    case Start(i) => s.(workers := to(Idle))
    case Take(i) => s.(workers := to(Serving(s.queue[0])), queue := s.queue[1..])
    case Finish(i) => s.(workers := to(Ending))
    case EndLock(i) => s.(workers := to(Locked), lock := Worker(i))
    case EndLoad(i) => s.(workers := to(Releasing(s.count)))
    case Release(i) => s.(workers := to(Released), count := s.workers[i].loaded - 1)
    case EndPost(i) => s.(workers := to(Returning), lock := Nobody)
    case Return(i) => s.(workers := to(Idle))
  }

  function Serve(s: State, e: Event): State
    requires !IsWorker(e) && Enabled(s, e)
  {
    match e
    case Accept => s.(server := Accepted)
    case ServerLock => s.(server := Testing, lock := Server)
    case Test => s.(server := if s.count < s.max then Reserving(s.count) else Full)
    case Reserve => s.(server := Counted, count := s.server.loaded + 1)
    case Post => s.(server := if s.server == Counted then Reserved else Accepting, lock := Nobody)
    case NtopFails => s.(server := Failed)
    case QueueClient(hasClient) => s.(server := Accepting, queue := s.queue + [hasClient])
    case UndoLock => s.(server := Undoing, lock := Server)
    case Load => s.(server := Restoring(s.count))
    case Undo => s.(server := Restored, count := s.server.loaded - 1)
  }

  function Apply(s: State, e: Event): State
    requires Enabled(s, e)
  {
    if IsWorker(e) then Work(s, e) else Serve(s, e)
  }

  // ----- the slots

  /** The worker has a client whose slot it has not given back. */
  predicate Busy(p: WorkerPc) {
    p.Serving? || p.Ending? || p.Locked? || p.Releasing?
  }

  /** start_server has reserved a slot and neither queued its client nor given the slot back. */
  predicate Keeps(p: ServerPc) {
    p.Counted? || p.Reserved? || p.Failed? || p.Undoing? || p.Restoring?
  }

  function BusyCount(workers: seq<WorkerPc>): (n: nat)
    ensures n <= |workers|
  {
    if workers == [] then 0
    else BusyCount(workers[..|workers| - 1]) + if Busy(workers[|workers| - 1]) then 1 else 0
  }

  /** The slots reserved and not yet released. */
  function Outstanding(s: State): nat {
    (if Keeps(s.server) then 1 else 0) + |s.queue| + BusyCount(s.workers)
  }

  lemma {:induction false} BusyUpdate(workers: seq<WorkerPc>, i: nat, p: WorkerPc)
    requires i < |workers|
    ensures BusyCount(workers[i := p]) + (if Busy(workers[i]) then 1 else 0) == BusyCount(workers) +
        if Busy(p) then 1 else 0
  {
    hide Busy;
    var n := |workers| - 1;
    if i == n {
      assert workers[i := p][..n] == workers[..n];
    } else {
      assert workers[i := p][..n] == workers[..n][i := p];
      BusyUpdate(workers[..n], i, p);
    }
  }

  lemma {:induction false} BusyAll(workers: seq<WorkerPc>)
    ensures BusyCount(workers) == |workers| <==> forall i :: 0 <= i < |workers| ==> Busy(workers[i])
    ensures BusyCount(workers) == 0 <==> forall i :: 0 <= i < |workers| ==> !Busy(workers[i])
  {
    if workers != [] {
      var n := |workers| - 1;
      BusyAll(workers[..n]);
      assert forall i :: 0 <= i < n ==> workers[..n][i] == workers[i];
    }
  }

  // ----- what every step keeps

  predicate ServerHolds(p: ServerPc) {
    p.Testing? || p.Reserving? || p.Counted? || p.Full? || p.Undoing? || p.Restoring? || p.Restored?
  }

  predicate WorkerHolds(p: WorkerPc) {
    p.Locked? || p.Releasing? || p.Released?
  }

  /** A worker holds the lock exactly in its critical section, and what it has loaded there is the count. */
  ghost predicate WorkerAt(s: State, i: nat)
    requires i < |s.workers|
  {
    && (WorkerHolds(s.workers[i]) <==> s.lock == Worker(i))
    && (s.workers[i].Releasing? ==> s.workers[i].loaded == s.count)
  }

  ghost predicate Inv(s: State) {
    && (forall i: nat :: i < |s.workers| ==> WorkerAt(s, i))
    && (ServerHolds(s.server) <==> s.lock == Server)
    && (s.server.Reserving? ==> s.server.loaded == s.count < s.max)
    && (s.server.Restoring? ==> s.server.loaded == s.count)
    && |s.workers| == s.max
    && s.count == Outstanding(s) && s.count <= s.max
  }

  lemma InvStep(s: State, e: Event)
    requires Inv(s) && Enabled(s, e)
    ensures Inv(Apply(s, e)) && Apply(s, e).max == s.max
  {
    hide BusyCount;
    var t := Apply(s, e);
    if IsWorker(e) {
      assert WorkerAt(s, e.i);
      BusyUpdate(s.workers, e.i, t.workers[e.i]);
    }
    forall i: nat | i < |t.workers| ensures WorkerAt(t, i) { assert WorkerAt(s, i); }
  }

  // ----- runs

  function Step(s: State, e: Event): Option<State> {
    if Enabled(s, e) then Some(Apply(s, e)) else None
  }

  /** The states reachable with the given max_clients. */
  ghost predicate Reachable(max: nat, s: State) {
    Reaches(Step, Init(max), s)
  }

  lemma InvInit(max: nat)
    ensures Inv(Init(max))
  {
    BusyAll(Init(max).workers);
  }

  lemma ReachableInv(max: nat, s: State)
    requires Reachable(max, s)
    ensures Inv(s) && s.max == max
  {
    hide Inv, Enabled, Apply, Reaches;
    var inv := u => Inv(u) && u.max == max;
    InvInit(max);
    assert EveryStepKeeps(Step, inv) by {
      forall u, e | inv(u) && Step(u, e).Some? ensures inv(Step(u, e).value) { InvStep(u, e); }
    }
    ReachesKeeps(Step, inv, Init(max), s);
  }

  /** nb_clients.count is the number of slots reserved and not yet released, never negative or above max_clients. */
  lemma CountIsOutstanding(max: nat, s: State)
    requires Reachable(max, s)
    ensures s.count == Outstanding(s) && 0 <= s.count <= max
  {
    hide Reachable, BusyCount;
    ReachableInv(max, s);
  }

  /** A connection is refused exactly when max_clients slots are outstanding. */
  lemma RefusesExactlyWhenFull(max: nat, s: State)
    requires Reachable(max, s) && s.server == Testing
    ensures Apply(s, Test).server == Full <==> Outstanding(s) == max
  {
    hide Reachable, BusyCount;
    ReachableInv(max, s);
  }

  /** Whenever an admitted client waits in the queue, some worker is idle, not yet started or past its release. */
  lemma PendingHasWorker(max: nat, s: State) returns (i: nat)
    requires Reachable(max, s) && s.queue != []
    ensures i < |s.workers| == max && !Busy(s.workers[i])
  {
    hide Reachable, BusyCount, Busy;
    ReachableInv(max, s);
    BusyAll(s.workers);
    i :| i < |s.workers| && !Busy(s.workers[i]);
  }

  /** That worker gets to the client without waiting for anybody. */
  lemma PendingIsTaken(max: nat, s: State) returns (i: nat, events: seq<Event>, t: State)
    requires Reachable(max, s) && s.queue != []
    ensures Leads(Step, s, events, t) && i < |t.workers| && t.queue == s.queue && Enabled(t, Take(i))
    ensures |events| <= 2 && forall e <- events :: IsWorker(e) && e.i == i
  {
    hide Reachable;
    i := PendingHasWorker(max, s);
    match s.workers[i] {
      case NotStarted => events, t := OneStep(s, Start(i));
      case Released => events, t := TwoSteps(s, EndPost(i), Return(i));
      case Returning => events, t := OneStep(s, Return(i));
      case Idle => events, t := [], s;
    }
  }

  lemma OneStep(s: State, e: Event) returns (events: seq<Event>, t: State)
    requires Enabled(s, e)
    ensures events == [e] && Leads(Step, s, events, t) && t == Apply(s, e)
  {
    hide Enabled, Apply;
    events, t := [e], Apply(s, e);
    assert Leads(Step, t, [], t);
  }

  lemma TwoSteps(s: State, e: Event, f: Event) returns (events: seq<Event>, t: State)
    requires Enabled(s, e) && Enabled(Apply(s, e), f)
    ensures events == [e, f] && Leads(Step, s, events, t) && t == Apply(Apply(s, e), f)
  {
    hide Enabled, Apply;
    var rest;
    rest, t := OneStep(Apply(s, e), f);
    events := [e] + rest;
  }

  // ----- the order of service

  /** For each client queued by a run, whether client_new had made it. */
  function Queued(events: seq<Event>): seq<bool> {
    if events == [] then []
    else (if events[0].QueueClient? then [events[0].hasClient] else []) + Queued(events[1..])
  }

  function Takes(events: seq<Event>): nat {
    if events == [] then 0 else (if events[0].Take? then 1 else 0) + Takes(events[1..])
  }

  lemma {:induction false} QueueRun(s: State, events: seq<Event>, t: State)
    requires Leads(Step, s, events, t)
    ensures Takes(events) <= |s.queue + Queued(events)| && t.queue == (s.queue + Queued(events))[Takes(events)..]
    decreases |events|
  {
    hide Apply, Enabled;
    if events != [] {
      var e, u := events[0], Apply(s, events[0]);
      QueueStep(s, e);
      QueueRun(u, events[1..], t);
      var all := s.queue + Queued(events);
      if e.Take? {
        assert all[1..] == u.queue + Queued(events[1..]);
      } else {
        assert all == u.queue + Queued(events[1..]);
      }
    }
  }

  lemma QueueStep(s: State, e: Event)
    requires Enabled(s, e)
    ensures e.Take? ==> s.queue != [] && Apply(s, e).queue == s.queue[1..]
    ensures !e.Take? ==> Apply(s, e).queue == s.queue + if e.QueueClient? then [e.hasClient] else []
  {
  }

  /** Clients are served in the order in which they were admitted: a worker that takes one after k others gets the k-th
      of those queued. */
  lemma FirstComeFirstServed(max: nat, events: seq<Event>, s: State, i: nat)
    requires Leads(Step, Init(max), events, s) && Enabled(s, Take(i))
    ensures Takes(events) < |Queued(events)| && i < |Apply(s, Take(i)).workers|
    ensures Apply(s, Take(i)).workers[i] == Serving(Queued(events)[Takes(events)])
  {
    hide Leads, Queued, Takes;
    QueueRun(Init(max), events, s);
    assert Init(max).queue + Queued(events) == Queued(events);
  }

  // ----- one decision for each connection

  /** The connections accepted by a run, and those tested against the maximum. */
  function Accepts(events: seq<Event>): nat {
    if events == [] then 0 else (if events[0].Accept? then 1 else 0) + Accepts(events[1..])
  }

  function Tests(events: seq<Event>): nat {
    if events == [] then 0 else (if events[0].Test? then 1 else 0) + Tests(events[1..])
  }

  predicate Undecided(p: ServerPc) {
    p == Accepted || p == Testing
  }

  lemma {:induction false} DecisionsRun(s: State, events: seq<Event>, t: State)
    requires Leads(Step, s, events, t)
    ensures Tests(events) + (if Undecided(t.server) then 1 else 0) ==
            Accepts(events) + if Undecided(s.server) then 1 else 0
    decreases |events|
  {
    hide Apply, Enabled, Undecided;
    if events != [] {
      DecisionStep(s, events[0]);
      DecisionsRun(Apply(s, events[0]), events[1..], t);
    }
  }

  lemma DecisionStep(s: State, e: Event)
    requires Enabled(s, e)
    ensures (if e.Test? then 1 else 0) + (if Undecided(Apply(s, e).server) then 1 else 0) ==
            (if e.Accept? then 1 else 0) + if Undecided(s.server) then 1 else 0
  {
  }

  /** Every connection is tested once: a refused one is not tried again. */
  lemma TestedOnce(max: nat, events: seq<Event>, t: State)
    requires Leads(Step, Init(max), events, t)
    ensures Accepts(events) == Tests(events) + if Undecided(t.server) then 1 else 0
  {
    hide Leads, Tests, Accepts;
    DecisionsRun(Init(max), events, t);
  }

  /** No slot leaks: the count is back at zero exactly when nobody is being admitted, queued or served. */
  lemma NoSlotLeaks(max: nat, s: State)
    requires Reachable(max, s)
    ensures s.count == 0 <==>
              !Keeps(s.server) && s.queue == [] && forall i: nat :: i < |s.workers| ==> !Busy(s.workers[i])
  {
    hide Reachable, BusyCount, Busy, Keeps;
    ReachableInv(max, s);
    BusyAll(s.workers);
  }

  /** The lock is exclusive: nobody else is in a critical section beside its holder. */
  lemma LockExcludes(max: nat, s: State, i: nat, j: nat)
    requires Reachable(max, s) && i < |s.workers| && j < |s.workers| && WorkerHolds(s.workers[i])
    ensures !ServerHolds(s.server) && (WorkerHolds(s.workers[j]) ==> j == i)
  {
    hide Reachable, BusyCount;
    ReachableInv(max, s);
    assert WorkerAt(s, i) && WorkerAt(s, j);
  }
}
