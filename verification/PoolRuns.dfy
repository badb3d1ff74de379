/** Every run of the pool: what holds in each state it can reach, and after pool_destroy has returned. */
module PoolRuns {
  import opened PoolCancel
  import opened PoolProtocol
  import opened PoolSlots
  import opened PoolJobs
  import opened Runs
  import opened Wrappers

  ghost predicate Inv(s: State) {
    SlotInv(s) && AliveInv(s) && DestroyerWakeInv(s) && JobInv(s)
  }

  lemma InvInit(n: nat)
    ensures Inv(Init(n))
  {
    CountNone(Init(n).pcs);
  }

  lemma InvParts(s: State)
    requires Inv(s)
    ensures Shape(s) && Frame(s) && SlotInv(s) && AliveInv(s) && DestroyerWakeInv(s) && JobInv(s)
  {
    hide SlotAt, AliveInv, DestroyerWakeInv, JobInv, Frame, Shape;
  }

  /** Every step keeps the invariant. */
  lemma InvStep(s: State, e: Event)
    requires Inv(s) && Shape(s) && Enabled(s, e)
    ensures Inv(Apply(s, e)) && |Apply(s, e).pcs| == |s.pcs|
  {
    hide SlotInv, AliveInv, DestroyerWakeInv, JobInv, Enabled, Apply, Shape;
    SlotKept(s, e);
    AliveKept(s, e);
    DestroyerWakeKept(s, e);
    JobsKept(s, e);
  }

  /** The states that a pool of n workers can reach. */
  ghost predicate Reachable(n: nat, s: State) {
    Reaches(Step, Init(n), s)
  }

  lemma NoStartRun(s: State, e: Event)
    requires Shape(s) && Enabled(s, e) && Destroying(s) && IsRun(e)
    ensures Destroying(Apply(s, e)) && Apply(s, e).started == s.started
  {
    hide CanExit, DoExit, CanCall, DoCall, CanDestroy, DoDestroy;
  }

  lemma NoStartExit(s: State, e: Event)
    requires Shape(s) && Enabled(s, e) && Destroying(s) && IsExit(e)
    ensures Destroying(Apply(s, e)) && Apply(s, e).started == s.started
  {
    hide CanRun, DoRun, CanCall, DoCall, CanDestroy, DoDestroy;
  }

  lemma NoStartCall(s: State, e: Event)
    requires Shape(s) && Enabled(s, e) && Destroying(s) && IsCall(e)
    ensures Destroying(Apply(s, e)) && Apply(s, e).started == s.started
  {
    hide CanRun, DoRun, CanExit, DoExit, CanDestroy, DoDestroy, Select, Awake, Created;
  }

  lemma NoStartDestroy(s: State, e: Event)
    requires Shape(s) && Enabled(s, e) && Destroying(s) && IsDestroy(e)
    ensures Destroying(Apply(s, e)) && Apply(s, e).started == s.started
  {
    hide CanRun, DoRun, CanExit, DoExit, CanCall, DoCall, Awake, Created;
  }

  lemma NoStartAfterDestroy(s: State, e: Event)
    requires Shape(s) && Enabled(s, e) && Destroying(s)
    ensures Destroying(Apply(s, e)) && Apply(s, e).started == s.started
  {
    hide Apply, Enabled, Destroying;
    if IsRun(e) { NoStartRun(s, e); }
    else if IsExit(e) { NoStartExit(s, e); }
    else if IsCall(e) { NoStartCall(s, e); }
    else { NoStartDestroy(s, e); }
  }

  /** What the rest of a run can rely on. */
  lemma InvLeads(s: State, events: seq<Event>, t: State)
    requires Inv(s) && Leads(Step, s, events, t)
    ensures Inv(t) && |t.pcs| == |s.pcs|
    ensures Destroying(s) ==> Destroying(t) && t.started == s.started
  {
    hide Inv, Apply, Enabled, Destroying, Shape, Leads;
    var inv := u =>
      Inv(u) && |u.pcs| == |s.pcs| && (Destroying(s) ==> Destroying(u) && u.started == s.started);
    assert EveryStepKeeps(Step, inv) by {
      forall u, e | inv(u) && Step(u, e).Some? ensures inv(Step(u, e).value) {
        InvStep(u, e);
        if Destroying(s) { NoStartAfterDestroy(u, e); }
      }
    }
    RunKeeps(Step, inv, s, events, t);
  }

  lemma ReachableInv(n: nat, s: State)
    requires Reachable(n, s)
    ensures Inv(s) && |s.pcs| == n && Shape(s) && Frame(s)
  {
    hide Inv, Apply, Enabled, Leads, Shape, Frame, Destroying;
    var events :| Leads(Step, Init(n), events, s);
    InvInit(n);
    assert |Init(n).pcs| == n;
    InvLeads(Init(n), events, s);
    InvParts(s);
  }

  lemma SlotHolds(n: nat, s: State, i: nat)
    requires Reachable(n, s) && i < n
    ensures |s.pcs| == n && Shape(s) && SlotAt(s, i)
  {
    hide Reachable, SlotAt, Frame, AliveInv, DestroyerWakeInv, JobInv;
    ReachableInv(n, s);
  }

  // ----- the mutex

  /** A worker that enters worker_cleanup, by the destroy break, cancelled in the wait or cancelled in the job, holds
      the mutex and is the only one inside a critical section; the handler then runs to its end and leaves the mutex
      free. */
  lemma CleanupHoldsMutex(n: nat, s: State, i: nat)
    requires Reachable(n, s) && i < n && |s.pcs| == n && s.pcs[i].Cleanup?
    ensures s.owner == Worker(i) && !DestroyerHolds(s.destroyer)
    ensures forall j: nat :: j < n && j != i ==> !Holds(s.pcs[j])
  {
    hide Reachable, AliveInv, DestroyerWakeInv, JobInv, KillAt, WakeAt, JoinedAt;
    ReachableInv(n, s);
    SlotHolds(n, s, i);
    forall j: nat | j < n && j != i ensures !Holds(s.pcs[j]) { SlotHolds(n, s, j); }
  }

  lemma CleanupRuns(n: nat, s: State, i: nat)
    requires Reachable(n, s) && i < n && |s.pcs| == n && s.pcs[i].Cleanup?
    ensures exists a, b :: Leads(Step, s, [CountOut(i), Broadcast(i)], a) && Leads(Step, a, [Leave(i)], b) &&
                           a.owner == Worker(i) && b.owner == Nobody && b.alive == s.alive - 1 && |b.pcs| == n &&
                               b.pcs[i] == Dead
  {
    hide Reachable, CanRun, DoRun, CanCall, DoCall, CanDestroy, DoDestroy, Frame, AliveInv, DestroyerWakeInv, JobInv;
    CleanupHoldsMutex(n, s, i);
    ReachableInv(n, s);
    var c := Apply(s, CountOut(i));
    var a := Apply(c, Broadcast(i));
    var b := Apply(a, Leave(i));
    assert Leads(Step, a, [], a) && Leads(Step, c, [Broadcast(i)], a);
    assert [CountOut(i), Broadcast(i)][1..] == [Broadcast(i)];
    assert Leads(Step, s, [CountOut(i), Broadcast(i)], a);
    assert Leads(Step, b, [], b) && Leads(Step, a, [Leave(i)], b);
  }

  /** nb_alive_threads is the number of workers between their increment and their decrement, so it stays between 0 and
      nb_threads, across kills and respawns. */
  lemma AliveBounds(n: nat, s: State)
    requires Reachable(n, s)
    ensures s.alive == Count(s.pcs) && 0 <= s.alive <= n
  {
    hide Reachable, SlotInv, DestroyerWakeInv, JobInv, Count;
    ReachableInv(n, s);
  }

  /** A killed worker's slot is refilled only after that worker has terminated, so after it has left worker_cleanup. */
  lemma RespawnReplacesDead(n: nat, s: State, i: nat)
    requires Reachable(n, s) && i < n && |s.kills| == n && s.kills[i] == Spawning
    ensures |s.pcs| == |s.cancelled| == n && s.pcs[i] == Dead && s.owner == Killer(i)
    ensures Count(s.pcs[i := Born]) == Count(s.pcs)
  {
    hide Reachable, SlotInv, AliveInv, DestroyerWakeInv, JobInv, WakeAt, JoinedAt, Count;
    SlotHolds(n, s, i);
    CountUpdate(s.pcs, i, Born);
  }

  // ----- wake-ups

  /** No lost wake-up: with the mutex free, a sleeping worker that was not signalled has no job and no destruction to
      see, and a sleeping destroyer that was not signalled still has workers to wait for. */
  lemma NoLostWakeUp(n: nat, s: State)
    requires Reachable(n, s) && s.owner == Nobody
    ensures forall i: nat :: i < |s.pcs| && s.pcs[i] == Asleep(false) ==> s.queue == [] && !Destroying(s)
    ensures s.destroyer == DestroyAsleep(false) ==> s.alive > 0
  {
    hide Reachable, SlotInv, AliveInv, JobInv, MutexAt, KillAt, JoinedAt;
    ReachableInv(n, s);
    forall i: nat | i < |s.pcs| && s.pcs[i] == Asleep(false)
      ensures s.queue == [] && !Destroying(s)
    {
      SlotHolds(n, s, i);
    }
  }

  /** What worker i does next if nobody holds the mutex. */
  function Next(pc: Pc, i: nat): (e: Event)
    ensures !e.Spurious? && !e.DestroySpurious? && (e.Finish? ==> pc.Running?)
  {
    match pc
    case Born => Lock(i)
    case Asleep(_) => WakeUp(i)
    case Popped(_) => FreeNode(i)
    case Running(_) => Finish(i)
    case Relocking => LockAgain(i)
    case _ => CancelLock(i)
  }

  lemma FreeWorkerMoves(n: nat, s: State, i: nat)
    requires Reachable(n, s) && s.owner == Nobody && i < n && |s.pcs| == n
    requires s.pcs[i] != NotCreated && s.pcs[i] != Dead && s.pcs[i] != Asleep(false)
    ensures Shape(s) && Enabled(s, Next(s.pcs[i], i))
  {
    hide Reachable, SlotInv, AliveInv, DestroyerWakeInv, CanCall, CanDestroy, KillAt, WakeAt, JoinedAt, OrderInv, JobAt;
    ReachableInv(n, s);
    SlotHolds(n, s, i);
    assert WorkerAt(s, i);
  }

  /** What the thread inside the critical section does next. */
  function OwnersNext(s: State): (e: Event)
    ensures Unaided(e)
  {
    match s.owner
    case Worker(i) =>
      if i < |s.pcs| && s.pcs[i].Started? then CountIn(i)
      else if i < |s.pcs| && s.pcs[i].Testing? then Test(i)
      else if i < |s.pcs| && s.pcs[i].Cleanup? then CountOut(i)
      else if i < |s.pcs| && s.pcs[i].Decremented? then Broadcast(i)
      else Leave(i)
    case Queuer(_, appended) => if appended then QueueUnlock else Append
    case Killer(i) => KillSpawn(i)
    case _ =>
      if s.destroyer == DestroySet then DestroyBroadcast
      else if s.destroyer.Cancelling? then DestroyCancel
      else DestroyTest
  }

  lemma OwnerMoves(n: nat, s: State)
    requires Reachable(n, s) && s.owner != Nobody
    ensures Shape(s) && Enabled(s, OwnersNext(s))
  {
    hide Reachable, SlotInv, AliveInv, DestroyerWakeInv, KillAt, WakeAt, JoinedAt, JobInv;
    ReachableInv(n, s);
    if s.owner.Worker? || s.owner.Killer? { SlotHolds(n, s, s.owner.i); }
  }

  /** Neither a job that ends by itself nor a spurious wake-up. */
  predicate Unaided(e: Event) {
    !e.Finish? && !e.Spurious? && !e.DestroySpurious?
  }

  /** While pool_destroy has not returned somebody can always move without a further signal and without any job ending
      by itself: its wait and its joins cannot hang on a worker that sleeps or on one whose job goes on for ever. */
  lemma DestroyNeverStuck(n: nat, s: State)
    requires Reachable(n, s) && Destroying(s) && s.destroyer != Done
    ensures Shape(s) && exists e :: Enabled(s, e) && Unaided(e)
  {
    hide Reachable, SlotInv, AliveInv, DestroyerWakeInv, CanRun, CanExit, CanCall, Count, Next, OwnersNext, OrderInv,
        JobAt, WorkerAt;
    ReachableInv(n, s);
    if s.owner != Nobody {
      OwnerMoves(n, s);
      return;
    }
    NoLostWakeUp(n, s);
    if s.destroyer == DestroyAsleep(true) {
      assert Enabled(s, DestroyWake);
    } else if s.destroyer.DestroyAsleep? {
      var i := AWorkerToWaitFor(n, s);
      WorkerLeaves(n, s, i);
    } else if s.destroyer.DestroyJoining? {
      var k := s.destroyer.k;
      if k < n && s.pcs[k] != Dead { WorkerLeaves(n, s, k); } else { assert Enabled(s, DestroyJoin); }
    } else {
      if s.queue != [] { FirstIsPending(s); }
      assert Enabled(s, DestroyFree);
    }
  }

  /** A worker in a job can be cancelled there; any other that is awake moves on. */
  lemma WorkerLeaves(n: nat, s: State, i: nat)
    requires Reachable(n, s) && s.owner == Nobody && i < n && |s.pcs| == n && DestroyPassed(s.destroyer, i)
    requires s.pcs[i] != NotCreated && s.pcs[i] != Dead && s.pcs[i] != Asleep(false)
    ensures Shape(s) && exists e :: Enabled(s, e) && Unaided(e)
  {
    hide Reachable, Enabled, Next, DestroyPassed;
    FreeWorkerMoves(n, s, i);
    CancelledExactly(n, s, i);
    if s.pcs[i].Running? { CancelReachesJob(n, s, i); }
  }

  lemma ReachableCancels(n: nat, s: State)
    requires Reachable(n, s)
    ensures CancelInv(s)
  {
    hide Reaches, Inv, Apply, Enabled, CancelInv;
    var inv := u => Inv(u) && CancelInv(u);
    InvInit(n);
    CancelInit(n);
    assert EveryStepKeeps(Step, inv) by {
      forall u, e | inv(u) && Step(u, e).Some? ensures inv(Step(u, e).value) {
        InvParts(u);
        InvStep(u, e);
        CancelKept(u, e);
      }
    }
    ReachesKeeps(Step, inv, Init(n), s);
  }

  /** A worker is cancelled if and only if a pool_kill in progress or the loop of pool_destroy has got to it. */
  lemma CancelledExactly(n: nat, s: State, i: nat)
    requires Reachable(n, s) && i < n
    ensures |s.cancelled| == |s.kills| == n
    ensures s.cancelled[i] <==> KillUnderway(s.kills[i]) || DestroyPassed(s.destroyer, i)
  {
    hide Reachable, Inv;
    ReachableInv(n, s);
    ReachableCancels(n, s);
    assert CancelAt(s, i);
  }

  lemma CancelInit(n: nat)
    ensures CancelInv(Init(n))
  {
  }

  /** So pool_kill and pool_destroy can end the job of every worker that they have got to. */
  lemma CancelReachesJob(n: nat, s: State, i: nat)
    requires Reachable(n, s) && i < n && |s.pcs| == |s.kills| == n && s.pcs[i].Running?
    requires KillUnderway(s.kills[i]) || DestroyPassed(s.destroyer, i)
    ensures Shape(s) && Enabled(s, CancelInJob(i))
  {
    hide Reachable, SlotInv, AliveInv, DestroyerWakeInv, OrderInv, JobAt, KillUnderway, DestroyPassed;
    ReachableInv(n, s);
    CancelledExactly(n, s, i);
    assert WorkerAt(s, i);
  }

  lemma AWorkerToWaitFor(n: nat, s: State) returns (i: nat)
    requires Reachable(n, s) && s.owner == Nobody && s.destroyer == DestroyAsleep(false)
    ensures i < n == |s.pcs| && s.pcs[i] != Dead
  {
    hide Reachable, SlotInv, DestroyerWakeInv, JobInv, Count;
    ReachableInv(n, s);
    NoLostWakeUp(n, s);
    CountNone(s.pcs);
    i :| i < |s.pcs| && Counted(s.pcs[i]);
  }

  // ----- the jobs

  /** Jobs start in the order in which they were queued, and those pending come after all those started. */
  lemma StartsInOrder(n: nat, s: State, a: nat, b: nat)
    requires Reachable(n, s) && a < b < |s.started + s.queue|
    ensures (s.started + s.queue)[a] < (s.started + s.queue)[b] < |s.args|
  {
    hide Reachable, SlotInv, AliveInv, DestroyerWakeInv, JobAt, WorkerAt;
    ReachableInv(n, s);
    assert (s.started + s.queue)[b] in s.started + s.queue;
  }

  /** Every job ever queued is pending, held by exactly one worker, finished, cancelled, flushed or discarded, as its
      status says; its node is freed at most once, and exactly once when nobody has it any more. */
  lemma EveryJobAccountedFor(n: nat, s: State, j: nat)
    requires Reachable(n, s) && j < |s.args|
    ensures |s.status| == |s.freeCount| == |s.args|
    ensures s.status[j].Pending? <==> j in s.queue
    ensures forall i: nat :: i < |s.pcs| ==> (Carries(s.pcs[i], j) <==> s.status[j] == Taken(i))
    ensures s.freeCount[j] <= 1
    ensures !s.status[j].Pending? && !s.status[j].Taken? ==> s.freeCount[j] == 1
    ensures j in s.started <==> s.status[j].Taken? || s.status[j].Finished? || s.status[j].Cancelled?
  {
    hide Reachable, SlotInv, AliveInv, DestroyerWakeInv, Ascending;
    ReachableInv(n, s);
    assert JobAt(s, j);
    forall i: nat | i < |s.pcs| ensures Carries(s.pcs[i], j) <==> s.status[j] == Taken(i) { assert WorkerAt(s, i); }
  }

  predicate Final(status: Status) {
    status.Finished? || status.Cancelled? || status.Flushed? || status.Discarded?
  }

  /** One step leaves the jobs that are done with alone and never takes back a start. */
  lemma FinalStep(s: State, e: Event, j: nat)
    requires SlotInv(s) && JobInv(s) && Shape(s) && Enabled(s, e) && j < |s.status| && Final(s.status[j])
    ensures j < |Apply(s, e).status| && Apply(s, e).status[j] == s.status[j]
  {
    hide Apply, Enabled, SlotInv, OrderInv, JobAt, WorkerAt;
    match e {
      case Test(i) => FinalMove(s, e, i, j);
      case FreeNode(i) => FinalMove(s, e, i, j);
      case Finish(i) => FinalMove(s, e, i, j);
      case CancelInJob(i) => FinalMove(s, e, i, j);
      case Append => FinalQueue(s, e, j);
      case Flush(arg) => FinalQueue(s, e, j);
      case DestroyFree => FinalQueue(s, e, j);
      case _ => JobsUntouched(s, e);
    }
  }

  lemma FinalMove(s: State, e: Event, i: nat, j: nat)
    requires JobInv(s) && Enabled(s, e) && j < |s.status| && Final(s.status[j])
    requires e == Test(i) || e == FreeNode(i) || e == Finish(i) || e == CancelInJob(i)
    ensures j < |Apply(s, e).status| && Apply(s, e).status[j] == s.status[j]
  {
    hide Ascending, JobAt;
    assert WorkerAt(s, i);
    if s.queue != [] { FirstIsPending(s); }
  }

  lemma FinalQueue(s: State, e: Event, j: nat)
    requires JobInv(s) && Enabled(s, e) && j < |s.status| && Final(s.status[j])
    requires e.Append? || e.Flush? || e.DestroyFree?
    ensures j < |Apply(s, e).status| && Apply(s, e).status[j] == s.status[j]
  {
    hide Ascending, Select, WorkerAt;
    assert JobAt(s, j);
    if s.queue != [] { FirstIsPending(s); }
    if e.Flush? { SelectMembers(s.queue, s.args, e.arg, true, j); }
  }

  /** A job that is finished, cancelled, flushed or discarded stays so for the rest of the run. */
  lemma FinalForGood(n: nat, s: State, events: seq<Event>, t: State, j: nat)
    requires Reachable(n, s) && Leads(Step, s, events, t) && j < |s.status| && Final(s.status[j])
    ensures j < |t.status| && t.status[j] == s.status[j]
  {
    hide Reachable, Leads, Inv, Apply, Enabled, Shape;
    ReachableInv(n, s);
    var inv := u => Inv(u) && j < |u.status| && u.status[j] == s.status[j];
    assert EveryStepKeeps(Step, inv) by {
      forall u, e | inv(u) && Step(u, e).Some? ensures inv(Step(u, e).value) {
        InvParts(u);
        InvStep(u, e);
        FinalStep(u, e, j);
      }
    }
    RunKeeps(Step, inv, s, events, t);
  }

  // ----- destruction

  /** Once destroy is set no worker takes a job, in any continuation. */
  lemma DestroyStopsStarts(n: nat, s: State, events: seq<Event>, t: State)
    requires Reachable(n, s) && Destroying(s) && Leads(Step, s, events, t)
    ensures t.started == s.started
  {
    hide Reachable, Leads, Inv;
    ReachableInv(n, s);
    InvLeads(s, events, t);
  }

  /** When pool_destroy returns every worker has terminated and none is counted. */
  lemma DestroyLeavesNobody(n: nat, s: State)
    requires Reachable(n, s) && s.destroyer == Done
    ensures |s.pcs| == n && (forall i: nat :: i < n ==> s.pcs[i] == Dead) && s.alive == 0 && s.owner == Nobody
  {
    hide Reachable, SlotInv, DestroyerWakeInv, JobInv, Count, KillAt, WakeAt;
    ReachableInv(n, s);
    forall i: nat | i < n ensures s.pcs[i] == Dead { SlotHolds(n, s, i); }
    DestroyedIsUnowned(n, s);
    CountNone(s.pcs);
  }

  lemma DestroyedIsUnowned(n: nat, s: State)
    requires Reachable(n, s) && s.destroyer == Done
    ensures s.owner == Nobody
  {
    hide Reachable, SlotInv, DestroyerWakeInv, JobInv, AliveInv, WakeAt;
    ReachableInv(n, s);
    if s.owner.Worker? || s.owner.Killer? { SlotHolds(n, s, s.owner.i); }
  }

  /** When pool_destroy returns the queue is empty and every job is finished, cancelled, flushed or discarded, its node
      freed exactly once. */
  lemma DestroySettlesEveryJob(n: nat, s: State, j: nat)
    requires Reachable(n, s) && s.destroyer == Done
    ensures s.queue == []
    ensures j < |s.args| ==> |s.status| == |s.freeCount| == |s.args| && Final(s.status[j]) && s.freeCount[j] == 1
  {
    hide Reachable, SlotInv, AliveInv, DestroyerWakeInv, JobInv;
    ReachableInv(n, s);
    DestroyLeavesNobody(n, s);
    if j < |s.args| {
      EveryJobAccountedFor(n, s, j);
      if s.status[j].Taken? { TakenIsHeld(n, s, j); }
    }
  }

  ghost predicate JobHeld(s: State, j: nat) {
    exists i: nat :: i < |s.pcs| && Carries(s.pcs[i], j)
  }

  lemma TakenIsHeld(n: nat, s: State, j: nat)
    requires Reachable(n, s) && j < |s.args| && |s.status| == |s.args| && s.status[j].Taken?
    ensures JobHeld(s, j)
  {
    hide Reachable, SlotInv, AliveInv, DestroyerWakeInv, Ascending, WorkerAt;
    ReachableInv(n, s);
    assert JobAt(s, j);
  }

  // ----- the joins are needed

  lemma ReachOneMore(n: nat, s: State, e: Event, t: State)
    requires Reachable(n, s) && Shape(s) && Enabled(s, e) && Apply(s, e) == t
    ensures Reachable(n, t)
  {
    hide Apply, Enabled, Reaches, Shape;
    ReachesNext(Step, Init(n), s, e, t);
  }

  /** A pool of one worker that has been born and has not run, with pool_destroy at the given point. */
  function BornPool(owner: Owner, cancelled: bool, destroyer: DestroyPc): State {
    State([Born], [cancelled], [NoKill], owner, [], 0, destroyer, [], [], [], [])
  }

  lemma BornIsReachable()
    ensures Reachable(1, BornPool(Nobody, false, NoDestroy))
  {
    var s, t := Init(1), BornPool(Nobody, false, NoDestroy);
    ReachesItself(Step, s);
    assert Apply(s, Create(0)) == t;
    ReachOneMore(1, s, Create(0), t);
  }

  lemma BornDestroyStarts()
    ensures Reachable(1, BornPool(Destroyer, false, Cancelling(0)))
  {
    hide Reachable;
    BornIsReachable();
    var s, t, u := BornPool(Nobody, false, NoDestroy), BornPool(Destroyer, false, DestroySet),
        BornPool(Destroyer, false, Cancelling(0));
    ReachOneMore(1, s, DestroyLock, t);
    assert Apply(t, DestroyBroadcast).pcs == u.pcs;
    ReachOneMore(1, t, DestroyBroadcast, u);
  }

  /** pool_destroy's wait on nb_alive_threads alone would not do: it can end while a worker has not counted itself yet.
      The joins are what makes every worker terminate. */
  lemma WaitCanMissAWorker()
    ensures Reachable(1, BornPool(Nobody, true, DestroyJoining(0)))
  {
    hide Reachable;
    BornDestroyStarts();
    var s, t := BornPool(Destroyer, false, Cancelling(0)), BornPool(Destroyer, true, Cancelling(1));
    assert Apply(s, DestroyCancel) == t;
    ReachOneMore(1, s, DestroyCancel, t);
    var u, v := BornPool(Destroyer, true, DestroyTesting), BornPool(Nobody, true, DestroyJoining(0));
    ReachOneMore(1, t, DestroyCancel, u);
    ReachOneMore(1, u, DestroyTest, v);
  }
}
