/** The daemon queues each request once: then no flush of any run loses the tail of the queue. */
module PoolOnce {
  import opened PoolJobs
  import opened PoolProtocol
  import opened PoolQueue
  import opened PoolRuns
  import opened PoolSlots
  import opened Runs
  import opened Sequences
  import opened Wrappers
  import JobQueue

  /** The arguments of the calls of pool_queue, in the order in which they take the mutex. */
  function QueuedArgs(events: seq<Event>): seq<nat> {
    if events == [] then []
    else (if events[0].QueueLock? then [events[0].arg] else []) + QueuedArgs(events[1..])
  }

  /** The arguments of the jobs queued so far, and of the call that is about to append one. */
  function Coming(s: State): seq<nat> {
    s.args + if s.owner.Queuer? && !s.owner.appended then [s.owner.arg] else []
  }

  lemma ComingRun(s: State, e: Event)
    requires Ready(s, e) && IsRun(e)
    ensures Coming(Apply(s, e)) == Coming(s)
  {
    hide CanExit, DoExit, CanCall, DoCall, CanDestroy, DoDestroy, KillAt, WakeAt, JoinedAt, Frame;
  }

  lemma ComingExit(s: State, e: Event)
    requires Ready(s, e) && IsExit(e)
    ensures Coming(Apply(s, e)) == Coming(s)
  {
    hide CanRun, DoRun, CanCall, DoCall, CanDestroy, DoDestroy, KillAt, WakeAt, JoinedAt, Frame;
  }

  lemma ComingKill(s: State, e: Event)
    requires Ready(s, e) && IsKill(e)
    ensures Coming(Apply(s, e)) == Coming(s)
  {
    hide CanRun, DoRun, CanExit, DoExit, CanDestroy, DoDestroy, KillAt, WakeAt, JoinedAt, Frame, Created;
  }

  lemma ComingCall(s: State, e: Event)
    requires Ready(s, e) && IsCall(e) && !IsKill(e)
    ensures Coming(Apply(s, e)) == Coming(s) + if e.QueueLock? then [e.arg] else []
  {
    hide CanRun, DoRun, CanExit, DoExit, CanDestroy, DoDestroy, CanKill, DoKill, SlotAt, Frame, Created, Select, Awake;
  }

  lemma ComingDestroy(s: State, e: Event)
    requires Ready(s, e) && IsDestroy(e)
    ensures Coming(Apply(s, e)) == Coming(s)
  {
    hide CanRun, DoRun, CanExit, DoExit, CanCall, DoCall, SlotAt, Created, Awake;
  }

  lemma ComingStep(s: State, e: Event)
    requires SlotInv(s) && Shape(s) && Enabled(s, e)
    ensures Coming(Apply(s, e)) == Coming(s) + if e.QueueLock? then [e.arg] else []
  {
    hide SlotInv, Shape, Enabled, Apply, Coming, Ready;
    IsReady(s, e);
    if IsRun(e) { ComingRun(s, e); }
    else if IsExit(e) { ComingExit(s, e); }
    else if IsKill(e) { ComingKill(s, e); }
    else if IsCall(e) { ComingCall(s, e); }
    else { ComingDestroy(s, e); }
  }

  /** With different arguments for different jobs a flush keeps the tail. */
  lemma DifferentArgsKeepTail(s: State, arg: nat)
    requires JobInv(s) && Distinct(s.args)
    ensures !LosesTail(s.queue, s.args, arg)
  {
    hide JobAt, WorkerAt, LosesTail;
    forall i, j | 0 <= i < j < |s.queue| && s.queue[i] < |s.args| && s.queue[j] < |s.args|
      ensures s.args[s.queue[i]] != arg || s.args[s.queue[j]] != arg
    {
      var all, n := s.started + s.queue, |s.started|;
      assert all[n + i] == s.queue[i] && all[n + j] == s.queue[j];
    }
    OneJobKeepsTail(s.queue, s.args, arg);
  }

  lemma DistinctFront(front: seq<nat>, back: seq<nat>)
    requires Distinct(front + back)
    ensures Distinct(front)
  {
    forall i, j | 0 <= i < j < |front|
      ensures front[i] != front[j]
    {
      assert (front + back)[i] == front[i] && (front + back)[j] == front[j];
    }
  }

  lemma Regrouped(a: seq<nat>, b: seq<nat>, c: seq<nat>)
    ensures (a + b) + c == a + (b + c)
  {
  }

  lemma {:induction false} SafeFrom(s: State, events: seq<Event>, t: State)
    requires Inv(s) && Leads(Step, s, events, t) && Distinct(Coming(s) + QueuedArgs(events))
    ensures SafeFlushes(s, events)
    decreases |events|
  {
    hide Inv, Apply, Enabled, Shape, Distinct, LosesTail;
    if events != [] {
      var e, rest := events[0], events[1..];
      var own := if e.QueueLock? then [e.arg] else [];
      InvParts(s);
      InvStep(s, e);
      ComingStep(s, e);
      Regrouped(Coming(s), own, QueuedArgs(rest));
      SafeFrom(Apply(s, e), rest, t);
      if e.Flush? {
        ArgsDistinct(s, events);
        DifferentArgsKeepTail(s, e.arg);
      }
    }
  }

  lemma ArgsDistinct(s: State, events: seq<Event>)
    requires Distinct(Coming(s) + QueuedArgs(events))
    ensures Distinct(s.args)
  {
    hide Distinct;
    DistinctFront(Coming(s), QueuedArgs(events));
    DistinctFront(s.args, if s.owner.Queuer? && !s.owner.appended then [s.owner.arg] else []);
  }

  /** If the arguments given to pool_queue are pairwise different, no flush of the run loses the tail, so the linked
      list follows the whole run. */
  lemma QueuedOnceIsSafe(n: nat, events: seq<Event>, t: State)
    requires Leads(Step, Init(n), events, t) && Distinct(QueuedArgs(events))
    ensures SafeFlushes(Init(n), events)
  {
    hide Inv, Leads, SafeFlushes, Distinct;
    InvInit(n);
    assert Coming(Init(n)) + QueuedArgs(events) == QueuedArgs(events);
    SafeFrom(Init(n), events, t);
  }

  method FollowQueuedOnce(n: nat, events: seq<Event>, ghost t: State)
    returns (queue: JobQueue.Queue, ghost node: map<nat, Job>)
    requires Leads(Step, Init(n), events, t) && Distinct(QueuedArgs(events))
    ensures queue.Valid() && Tracks(t, node, queue.jobs, queue.freed)
  {
    hide Leads, SafeFlushes, Tracks, Distinct;
    QueuedOnceIsSafe(n, events, t);
    queue, node := Follow(n, events, t);
  }
}
