/** The thread pool as a step system: any number of workers, callers of pool_queue, pool_flush_by_arg and pool_kill,
    and one caller of pool_destroy, in any interleaving. */
module PoolProtocol {
  import opened Wrappers

  /** Where a worker is in worker_thread. */
  datatype Pc =
    | NotCreated
    | Born                        // before the first lock
    | Started                     // has the mutex, not yet counted
    | Testing                     // has the mutex, about to test the queue and destroy
    | Asleep(signalled: bool)     // in pthread_cond_wait (jobq_empty)
    | Popped(job: nat)            // has unlinked a job and released the mutex
    | Running(job: nat)           // has freed the node, is in func
    | Relocking                   // func returned, job_cleanup wants the mutex
    | CancelRelocking             // cancelled in func, job_cleanup wants the mutex
    | CancelWaking                // cancelled in pthread_cond_wait, which wants the mutex
    | Cleanup                     // has the mutex, enters worker_cleanup
    | Decremented                 // has the mutex, has decremented nb_alive_threads
    | Leaving                     // has the mutex, has broadcast if it had to
    | Dead

  /** A call of pool_kill on one slot. */
  datatype KillPc = NoKill | Found | Joining | Joined | Spawning

  datatype DestroyPc =
    | NoDestroy
    | DestroySet                  // has the mutex, has set destroy
    | Cancelling(k: nat)          // has the mutex, has cancelled slots below k
    | DestroyTesting              // has the mutex, about to test nb_alive_threads
    | DestroyAsleep(signalled: bool)
    | DestroyJoining(k: nat)      // has joined slots below k
    | Freeing
    | Done

  /** Who has the mutex. */
  datatype Owner = Nobody | Worker(i: nat) | Queuer(arg: nat, appended: bool) | Killer(i: nat) | Destroyer

  datatype Status = Pending | Taken(i: nat) | Finished | Cancelled | Flushed | Discarded

  /** A job is its position in the order of pool_queue calls.  status, freeCount and started are history: what became
      of each job, how often its node was freed, and the jobs in the order in which workers took them. */
  datatype State = State(
    pcs: seq<Pc>, cancelled: seq<bool>, kills: seq<KillPc>,
    owner: Owner, queue: seq<nat>, alive: int, destroyer: DestroyPc,
    args: seq<nat>, status: seq<Status>, freeCount: seq<nat>, started: seq<nat>)

  predicate Destroying(s: State) {
    s.destroyer != NoDestroy
  }

  datatype Event =
    | Create(i: nat)
    | Lock(i: nat) | CountIn(i: nat) | Test(i: nat)
    | WakeUp(i: nat) | Spurious(i: nat) | CancelInWait(i: nat)
    | FreeNode(i: nat) | Finish(i: nat) | CancelInJob(i: nat) | LockAgain(i: nat) | CancelLock(i: nat)
    | CountOut(i: nat) | Broadcast(i: nat) | Leave(i: nat)
    | QueueLock(arg: nat) | Append | QueueUnlock
    | Flush(arg: nat)
    | KillFind(i: nat) | KillCancel(i: nat) | KillJoin(i: nat) | KillLock(i: nat) | KillSpawn(i: nat)
    | DestroyLock | DestroyBroadcast | DestroyCancel | DestroyTest | DestroyWake | DestroySpurious
    | DestroyJoin | DestroyFree

  function Init(n: nat): State {
    State(seq(n, _ => NotCreated), seq(n, _ => false), seq(n, _ => NoKill), Nobody, [], 0, NoDestroy, [], [], [], [])
  }

  /** pool_create has returned: every slot has been given a thread. */
  predicate Created(s: State) {
    forall i :: 0 <= i < |s.pcs| ==> s.pcs[i] != NotCreated
  }

  /** The caller may use the pool: no destruction has begun. */
  predicate Usable(s: State) {
    Created(s) && !Destroying(s)
  }

  predicate Shape(s: State) {
    |s.pcs| == |s.cancelled| == |s.kills| && |s.args| == |s.status| == |s.freeCount|
  }

  /** A worker going about its loop. */
  predicate IsRun(e: Event) {
    e.Create? || e.Lock? || e.CountIn? || e.Test? || e.WakeUp? || e.Spurious? || e.FreeNode? || e.Finish? ||
        e.LockAgain?
  }

  /** A worker on its way out. */
  predicate IsExit(e: Event) {
    e.CancelInWait? || e.CancelInJob? || e.CancelLock? || e.CountOut? || e.Broadcast? || e.Leave?
  }

  /** Callers of pool_queue, pool_flush_by_arg and pool_kill. */
  predicate IsCall(e: Event) {
    e.QueueLock? || e.Append? || e.QueueUnlock? || e.Flush? || e.KillFind? || e.KillCancel? || e.KillJoin? ||
        e.KillLock? || e.KillSpawn?
  }

  predicate IsKill(e: Event) {
    e.KillFind? || e.KillCancel? || e.KillJoin? || e.KillLock? || e.KillSpawn?
  }

  /** The caller of pool_destroy. */
  predicate IsDestroy(e: Event) {
    e.DestroyLock? || e.DestroyBroadcast? || e.DestroyCancel? || e.DestroyTest? || e.DestroyWake? ||
        e.DestroySpurious? || e.DestroyJoin? || e.DestroyFree?
  }

  predicate CanRun(s: State, e: Event)
    requires Shape(s) && IsRun(e)
  {
    match e
    case Create(i) => i < |s.pcs| && s.pcs[i] == NotCreated
    case Lock(i) => i < |s.pcs| && s.pcs[i] == Born && s.owner == Nobody
    case CountIn(i) => i < |s.pcs| && s.pcs[i] == Started
    case Test(i) => i < |s.pcs| && s.pcs[i] == Testing
    case WakeUp(i) => i < |s.pcs| && s.pcs[i] == Asleep(true) && s.owner == Nobody
    case Spurious(i) => i < |s.pcs| && s.pcs[i] == Asleep(false)
    case FreeNode(i) => i < |s.pcs| && s.pcs[i].Popped? && s.pcs[i].job < |s.status|
    case Finish(i) => i < |s.pcs| && s.pcs[i].Running? && s.pcs[i].job < |s.status|
    case LockAgain(i) => i < |s.pcs| && s.pcs[i] == Relocking && s.owner == Nobody
  }

  predicate CanExit(s: State, e: Event)
    requires Shape(s) && IsExit(e)
  {
    match e
    case CancelInWait(i) => i < |s.pcs| && s.pcs[i].Asleep? && s.cancelled[i]
    case CancelInJob(i) => i < |s.pcs| && s.pcs[i].Running? && s.pcs[i].job < |s.status| && s.cancelled[i]
    case CancelLock(i) => i < |s.pcs| && (s.pcs[i] == CancelRelocking || s.pcs[i] == CancelWaking) && s.owner == Nobody
    case CountOut(i) => i < |s.pcs| && s.pcs[i] == Cleanup
    case Broadcast(i) => i < |s.pcs| && s.pcs[i] == Decremented
    case Leave(i) => i < |s.pcs| && s.pcs[i] == Leaving
  }

  predicate CanKill(s: State, e: Event)
    requires Shape(s) && IsKill(e)
  {
    match e
    case KillFind(i) => Usable(s) && s.owner == Nobody && i < |s.kills| && s.kills[i] == NoKill
    case KillCancel(i) => i < |s.kills| && s.kills[i] == Found
    case KillJoin(i) => i < |s.kills| && s.kills[i] == Joining && s.pcs[i] == Dead
    case KillLock(i) => i < |s.kills| && s.kills[i] == Joined && s.owner == Nobody
    case KillSpawn(i) => i < |s.kills| && s.kills[i] == Spawning
  }

  predicate CanCall(s: State, e: Event)
    requires Shape(s) && IsCall(e)
  {
    match e
    case QueueLock(_) => Usable(s) && s.owner == Nobody
    case Append => s.owner.Queuer? && !s.owner.appended
    case QueueUnlock => s.owner.Queuer? && s.owner.appended
    case Flush(_) => Usable(s) && s.owner == Nobody
    case _ => CanKill(s, e)
  }

  predicate CanDestroy(s: State, e: Event)
    requires Shape(s) && IsDestroy(e)
  {
    match e
    case DestroyLock => Usable(s) && s.owner == Nobody && forall i :: 0 <= i < |s.kills| ==> s.kills[i] == NoKill
    case DestroyBroadcast => s.destroyer == DestroySet
    case DestroyCancel => s.destroyer.Cancelling?
    case DestroyTest => s.destroyer == DestroyTesting
    case DestroyWake => s.destroyer == DestroyAsleep(true) && s.owner == Nobody
    case DestroySpurious => s.destroyer == DestroyAsleep(false)
    case DestroyJoin => s.destroyer.DestroyJoining? && (s.destroyer.k < |s.pcs| ==> s.pcs[s.destroyer.k] == Dead)
    case DestroyFree => s.destroyer == Freeing && (s.queue != [] ==> s.queue[0] < |s.status|)
  }

  predicate Enabled(s: State, e: Event)
    requires Shape(s)
  {
    if IsRun(e) then CanRun(s, e)
    else if IsExit(e) then CanExit(s, e)
    else if IsCall(e) then CanCall(s, e)
    else CanDestroy(s, e)
  }

  /** pthread_cond_broadcast (jobq_empty): every sleeper is signalled. */
  function Awake(pcs: seq<Pc>): (r: seq<Pc>)
    ensures |r| == |pcs|
    ensures forall i :: 0 <= i < |pcs| ==> r[i] == if pcs[i].Asleep? then Asleep(true) else pcs[i]
  {
    seq(|pcs|, i requires 0 <= i < |pcs| => if pcs[i].Asleep? then Asleep(true) else pcs[i])
  }

  /** The jobs in the queue that are, or are not, for arg. */
  function Select(queue: seq<nat>, args: seq<nat>, arg: nat, wanted: bool): seq<nat> {
    if queue == [] then []
    else
      var rest := Select(queue[1..], args, arg, wanted);
      if (queue[0] < |args| && args[queue[0]] == arg) == wanted then [queue[0]] + rest else rest
  }

  function DoRun(s: State, e: Event): State
    requires Shape(s) && IsRun(e) && CanRun(s, e)
  {
    match e
    case Create(i) => s.(pcs := s.pcs[i := Born])
    case Lock(i) => s.(pcs := s.pcs[i := Started], owner := Worker(i))
    case CountIn(i) => s.(pcs := s.pcs[i := Testing], alive := s.alive + 1)
    case Test(i) =>
      if s.queue == [] && !Destroying(s) then s.(pcs := s.pcs[i := Asleep(false)], owner := Nobody)
      else if Destroying(s) then s.(pcs := s.pcs[i := Cleanup])
      else
        var job := s.queue[0];
        s.(pcs := s.pcs[i := Popped(job)], owner := Nobody, queue := s.queue[1..],
           status := if job < |s.status| then s.status[job := Taken(i)] else s.status, started := s.started + [job])
    case WakeUp(i) => s.(pcs := s.pcs[i := Testing], owner := Worker(i))
    case Spurious(i) => s.(pcs := s.pcs[i := Asleep(true)])
    case FreeNode(i) =>
      var job := s.pcs[i].job;
      s.(pcs := s.pcs[i := Running(job)], freeCount := s.freeCount[job := s.freeCount[job] + 1])
    case Finish(i) => s.(pcs := s.pcs[i := Relocking], status := s.status[s.pcs[i].job := Finished])
    case LockAgain(i) => s.(pcs := s.pcs[i := Testing], owner := Worker(i))
  }

  function DoExit(s: State, e: Event): State
    requires Shape(s) && IsExit(e) && CanExit(s, e)
  {
    match e
    case CancelInWait(i) => s.(pcs := s.pcs[i := CancelWaking])
    case CancelInJob(i) => s.(pcs := s.pcs[i := CancelRelocking], status := s.status[s.pcs[i].job := Cancelled])
    case CancelLock(i) => s.(pcs := s.pcs[i := Cleanup], owner := Worker(i))
    case CountOut(i) => s.(pcs := s.pcs[i := Decremented], alive := s.alive - 1)
    case Broadcast(i) =>
      s.(pcs := s.pcs[i := Leaving],
         destroyer := if s.alive == 0 && s.destroyer.DestroyAsleep? then DestroyAsleep(true) else s.destroyer)
    case Leave(i) => s.(pcs := s.pcs[i := Dead], owner := Nobody)
  }

  function DoKill(s: State, e: Event): State
    requires Shape(s) && IsKill(e) && CanKill(s, e)
  {
    match e
    case KillFind(i) => s.(kills := s.kills[i := Found])
    case KillCancel(i) => s.(kills := s.kills[i := Joining], cancelled := s.cancelled[i := true])
    case KillJoin(i) => s.(kills := s.kills[i := Joined])
    case KillLock(i) => s.(kills := s.kills[i := Spawning], owner := Killer(i))
    case KillSpawn(i) =>
      s.(kills := s.kills[i := NoKill], pcs := s.pcs[i := Born], cancelled := s.cancelled[i := false], owner := Nobody)
  }

  function DoCall(s: State, e: Event): State
    requires Shape(s) && IsCall(e) && CanCall(s, e)
  {
    match e
    case QueueLock(arg) => s.(owner := Queuer(arg, false))
    case Append =>
      s.(owner := Queuer(s.owner.arg, true), queue := s.queue + [|s.args|],
         args := s.args + [s.owner.arg], status := s.status + [Pending], freeCount := s.freeCount + [0])
    case QueueUnlock => s.(pcs := Awake(s.pcs), owner := Nobody)
    case Flush(arg) =>
      var gone := Select(s.queue, s.args, arg, true);
      s.(queue := Select(s.queue, s.args, arg, false),
         status := seq(|s.status|, j requires 0 <= j < |s.status| => if j in gone then Flushed else s.status[j]),
         freeCount := seq(|s.status|, j requires 0 <= j < |s.status| => s.freeCount[j] + if j in gone then 1 else 0))
    case _ => DoKill(s, e)
  }

  function DoDestroy(s: State, e: Event): State
    requires Shape(s) && IsDestroy(e) && CanDestroy(s, e)
  {
    match e
    case DestroyLock => s.(destroyer := DestroySet, owner := Destroyer)
    case DestroyBroadcast => s.(destroyer := Cancelling(0), pcs := Awake(s.pcs))
    case DestroyCancel =>
      var k := s.destroyer.k;
      if k < |s.cancelled| then s.(destroyer := Cancelling(k + 1), cancelled := s.cancelled[k := true])
      else s.(destroyer := DestroyTesting)
    case DestroyTest =>
      if s.alive != 0 then s.(destroyer := DestroyAsleep(false), owner := Nobody)
      else s.(destroyer := DestroyJoining(0), owner := Nobody)
    case DestroyWake => s.(destroyer := DestroyTesting, owner := Destroyer)
    case DestroySpurious => s.(destroyer := DestroyAsleep(true))
    case DestroyJoin =>
      if s.destroyer.k < |s.pcs| then s.(destroyer := DestroyJoining(s.destroyer.k + 1)) else s.(destroyer := Freeing)
    case DestroyFree =>
      if s.queue == [] then s.(destroyer := Done)
      else
        var job := s.queue[0];
        s.(queue := s.queue[1..], status := s.status[job := Discarded],
            freeCount := s.freeCount[job := s.freeCount[job] + 1])
  }

  function Apply(s: State, e: Event): State
    requires Shape(s) && Enabled(s, e)
  {
    if IsRun(e) then DoRun(s, e)
    else if IsExit(e) then DoExit(s, e)
    else if IsCall(e) then DoCall(s, e)
    else DoDestroy(s, e)
  }

  /** What an event does, if it can happen. */
  function Step(s: State, e: Event): Option<State> {
    if Shape(s) && Enabled(s, e) then Some(Apply(s, e)) else None
  }
}
