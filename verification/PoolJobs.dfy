/** What becomes of the jobs of a pool: order, ownership, and the single free of every node. */
module PoolJobs {
  import opened PoolProtocol
  import opened PoolSlots

  ghost predicate Ascending(q: seq<nat>) {
    forall a, b :: 0 <= a < b < |q| ==> q[a] < q[b]
  }

  /** Jobs were taken in the order in which they were queued, and the queue goes on in that order. */
  ghost predicate OrderInv(s: State) {
    && Ascending(s.started + s.queue)
    && |s.args| == |s.status| == |s.freeCount|
    && forall j <- s.started + s.queue :: j < |s.status|
  }

  predicate Carries(pc: Pc, j: nat) {
    pc == Popped(j) || pc == Running(j)
  }

  /** The one state a job is in agrees with the queue and the workers, and its node has been freed once, unless it is
      pending or the worker that took it has yet to free it. */
  ghost predicate JobAt(s: State, j: nat)
    requires |s.status| == |s.freeCount| && j < |s.status|
  {
    && (s.status[j] == Pending <==> j in s.queue)
    && (s.status[j].Taken? ==> s.status[j].i < |s.pcs| && Carries(s.pcs[s.status[j].i], j))
    && (j in s.started <==> s.status[j].Taken? || s.status[j].Finished? || s.status[j].Cancelled?)
    && (s.freeCount[j] ==
        if s.status[j].Pending? || (s.status[j].Taken? && s.pcs[s.status[j].i].Popped?) then 0 else 1)
  }

  /** A worker holding a job is the one that took it. */
  ghost predicate WorkerAt(s: State, i: nat)
    requires i < |s.pcs|
  {
    s.pcs[i].Popped? || s.pcs[i].Running? ==> s.pcs[i].job < |s.status| && s.status[s.pcs[i].job] == Taken(i)
  }

  ghost predicate JobInv(s: State) {
    && Shape(s) && OrderInv(s)
    && (forall j: nat :: j < |s.status| ==> JobAt(s, j))
    && (forall i: nat :: i < |s.pcs| ==> WorkerAt(s, i))
  }

  lemma {:induction false} SelectMembers(queue: seq<nat>, args: seq<nat>, arg: nat, wanted: bool, j: nat)
    ensures j in Select(queue, args, arg, wanted) <==> j in queue && (j < |args| && args[j] == arg) == wanted
  {
    if queue != [] {
      SelectMembers(queue[1..], args, arg, wanted, j);
    }
  }

  lemma {:induction false} SelectAscending(front: seq<nat>, queue: seq<nat>, args: seq<nat>, arg: nat, wanted: bool)
    requires Ascending(front + queue)
    ensures Ascending(front + Select(queue, args, arg, wanted))
    decreases |queue|
  {
    if queue != [] {
      var kept := (queue[0] < |args| && args[queue[0]] == arg) == wanted;
      assert (front + [queue[0]]) + queue[1..] == front + queue;
      if kept {
        SelectAscending(front + [queue[0]], queue[1..], args, arg, wanted);
        assert (front + [queue[0]]) + Select(queue[1..], args, arg, wanted) == front + Select(queue, args, arg, wanted);
      } else {
        AscendingWithout(front, queue);
        SelectAscending(front, queue[1..], args, arg, wanted);
      }
    }
  }

  lemma AscendingWithout(front: seq<nat>, queue: seq<nat>)
    requires queue != [] && Ascending(front + queue)
    ensures Ascending(front + queue[1..])
  {
    var all, fewer := front + queue, front + queue[1..];
    forall a, b | 0 <= a < b < |fewer|
      ensures fewer[a] < fewer[b]
    {
      assert fewer[a] == all[if a < |front| then a else a + 1];
      assert fewer[b] == all[if b < |front| then b else b + 1];
    }
  }

  lemma TakeKeepsOrder(started: seq<nat>, queue: seq<nat>)
    requires queue != []
    ensures (started + [queue[0]]) + queue[1..] == started + queue
  {
  }

  lemma AppendKeepsOrder(q: seq<nat>, n: nat)
    requires Ascending(q) && forall j <- q :: j < n
    ensures Ascending(q + [n])
  {
    assert forall a :: 0 <= a < |q| ==> q[a] in q;
  }

  predicate TouchesJobs(e: Event) {
    e.Test? || e.FreeNode? || e.Finish? || e.CancelInJob? || e.Append? || e.Flush? || e.DestroyFree?
  }

  /** The other events leave the jobs and the workers that carry them alone. */
  ghost predicate JobsAlone(s: State, t: State) {
    && t.status == s.status && t.queue == s.queue && t.started == s.started && t.freeCount == s.freeCount &&
        t.args == s.args
    && |t.pcs| == |s.pcs|
    && forall i :: 0 <= i < |s.pcs| ==>
                     s.pcs[i].Popped? || s.pcs[i].Running? || t.pcs[i].Popped? || t.pcs[i].Running? ==>
                       t.pcs[i] == s.pcs[i]
  }

  lemma AloneRun(s: State, e: Event)
    requires SlotInv(s) && Enabled(s, e) && IsRun(e) && !TouchesJobs(e)
    ensures JobsAlone(s, Apply(s, e))
  {
    hide CanExit, DoExit, CanCall, DoCall, CanDestroy, DoDestroy, SlotInv;
    IsReady(s, e);
  }

  lemma AloneExit(s: State, e: Event)
    requires SlotInv(s) && Enabled(s, e) && IsExit(e) && !TouchesJobs(e)
    ensures JobsAlone(s, Apply(s, e))
  {
    hide CanRun, DoRun, CanCall, DoCall, CanDestroy, DoDestroy, SlotInv;
    IsReady(s, e);
  }

  lemma AloneCall(s: State, e: Event)
    requires SlotInv(s) && Enabled(s, e) && IsCall(e) && !TouchesJobs(e)
    ensures JobsAlone(s, Apply(s, e))
  {
    hide CanRun, DoRun, CanExit, DoExit, CanDestroy, DoDestroy, SlotInv, Select, Created;
    IsReady(s, e);
  }

  lemma AloneDestroy(s: State, e: Event)
    requires SlotInv(s) && Enabled(s, e) && IsDestroy(e) && !TouchesJobs(e)
    ensures JobsAlone(s, Apply(s, e))
  {
    hide CanRun, DoRun, CanExit, DoExit, CanCall, DoCall, SlotInv, Created;
  }

  lemma JobsUntouched(s: State, e: Event)
    requires SlotInv(s) && Enabled(s, e) && !TouchesJobs(e)
    ensures JobsAlone(s, Apply(s, e))
  {
    hide Apply, Enabled, SlotInv, JobsAlone;
    if IsRun(e) { AloneRun(s, e); }
    else if IsExit(e) { AloneExit(s, e); }
    else if IsCall(e) { AloneCall(s, e); }
    else { AloneDestroy(s, e); }
  }

  lemma SlotHasShape(s: State)
    requires SlotInv(s)
    ensures Shape(s)
  {
  }

  lemma WorkersAddNothing(s: State, e: Event)
    requires Shape(s) && Enabled(s, e) && TouchesJobs(e) && (IsRun(e) || IsExit(e))
    ensures |Apply(s, e).status| == |s.status| == |Apply(s, e).freeCount| == |Apply(s, e).args|
  {
    hide CanCall, DoCall, CanDestroy, DoDestroy;
  }

  lemma OthersAdd(s: State, e: Event)
    requires Shape(s) && Enabled(s, e) && TouchesJobs(e) && !IsRun(e) && !IsExit(e)
    ensures |Apply(s, e).status| == |s.status| + (if e.Append? then 1 else 0)
    ensures |Apply(s, e).status| == |Apply(s, e).freeCount| == |Apply(s, e).args|
  {
    hide CanRun, DoRun, CanExit, DoExit, Select, Created, Awake;
  }

  /** The history grows by one entry per queued job. */
  lemma HistoryGrows(s: State, e: Event)
    requires SlotInv(s) && Enabled(s, e)
    ensures |Apply(s, e).status| == |s.status| + (if e.Append? then 1 else 0)
    ensures |Apply(s, e).status| == |Apply(s, e).freeCount| == |Apply(s, e).args|
  {
    hide SlotInv, Enabled, Apply;
    SlotHasShape(s);
    if !TouchesJobs(e) { JobsUntouched(s, e); }
    else if IsRun(e) || IsExit(e) { WorkersAddNothing(s, e); }
    else { OthersAdd(s, e); }
  }

  lemma OrderKept(s: State, e: Event)
    requires SlotInv(s) && JobInv(s) && Enabled(s, e)
    ensures OrderInv(Apply(s, e))
  {
    hide SlotInv, JobAt, WorkerAt, Apply, Enabled;
    match e {
      case Test(i) => OrderKeptTest(s, i);
      case Append => OrderKeptAppend(s);
      case Flush(arg) => OrderKeptFlush(s, arg);
      case DestroyFree => OrderKeptFree(s);
      case FreeNode(i) => OrderKeptRun(s, e, i);
      case Finish(i) => OrderKeptRun(s, e, i);
      case CancelInJob(i) => OrderKeptRun(s, e, i);
      case _ => JobsUntouched(s, e);
    }
  }

  lemma OrderKeptTest(s: State, i: nat)
    requires JobInv(s) && Enabled(s, Test(i))
    ensures OrderInv(Apply(s, Test(i)))
  {
    hide Ascending, JobAt, WorkerAt;
    if s.queue != [] { TakeKeepsOrder(s.started, s.queue); }
  }

  lemma OrderKeptRun(s: State, e: Event, i: nat)
    requires JobInv(s) && Enabled(s, e) && (e == FreeNode(i) || e == Finish(i) || e == CancelInJob(i))
    ensures OrderInv(Apply(s, e))
  {
    hide Ascending, JobAt, WorkerAt;
  }

  lemma OrderKeptAppend(s: State)
    requires JobInv(s) && Enabled(s, Append)
    ensures OrderInv(Apply(s, Append))
  {
    hide Ascending, JobAt, WorkerAt;
    AppendKeepsOrder(s.started + s.queue, |s.args|);
    assert s.started + (s.queue + [|s.args|]) == (s.started + s.queue) + [|s.args|];
  }

  lemma OrderKeptFree(s: State)
    requires JobInv(s) && Enabled(s, DestroyFree)
    ensures OrderInv(Apply(s, DestroyFree))
  {
    hide Ascending, JobAt, WorkerAt;
    if s.queue != [] {
      AscendingWithout(s.started, s.queue);
      forall j | j in s.started + s.queue[1..] ensures j < |s.status| { assert j in s.started + s.queue; }
    }
  }

  lemma OrderKeptFlush(s: State, arg: nat)
    requires JobInv(s) && Enabled(s, Flush(arg))
    ensures OrderInv(Apply(s, Flush(arg)))
  {
    hide Ascending, Select, JobAt, WorkerAt;
    SelectAscending(s.started, s.queue, s.args, arg, false);
    var kept := Select(s.queue, s.args, arg, false);
    forall j | j in s.started + kept
      ensures j < |s.status|
    {
      SelectMembers(s.queue, s.args, arg, false, j);
      assert j in s.started + s.queue;
    }
  }

  /** The first job in the queue is nowhere else. */
  lemma FirstOnce(started: seq<nat>, queue: seq<nat>, j: nat)
    requires queue != [] && Ascending(started + queue)
    ensures queue[0] !in queue[1..]
    ensures j in queue <==> j == queue[0] || j in queue[1..]
  {
    var all := started + queue;
    assert all[|started|] == queue[0];
    forall k | 1 <= k < |queue| ensures queue[0] < queue[k] { assert all[|started| + k] == queue[k]; }
    if j in queue && j != queue[0] {
      var k :| 0 <= k < |queue| && queue[k] == j;
      assert queue[1..][k - 1] == j;
    }
  }

  lemma NewJobIsNew(s: State)
    requires JobInv(s)
    ensures |s.args| !in s.queue && |s.args| !in s.started
  {
    forall k | k in s.queue || k in s.started ensures k < |s.args| { assert k in s.started + s.queue; }
  }

  lemma FirstIsPending(s: State)
    requires JobInv(s) && s.queue != []
    ensures s.queue[0] < |s.status| && s.status[s.queue[0]] == Pending && JobAt(s, s.queue[0])
  {
    assert s.queue[0] in s.started + s.queue;
    assert JobAt(s, s.queue[0]);
  }

  /** What becomes of job j in one step. */
  lemma JobKept(s: State, e: Event, j: nat)
    requires SlotInv(s) && JobInv(s) && Enabled(s, e)
    requires j < |s.status| || (e.Append? && j == |s.status|)
    ensures j < |Apply(s, e).status| == |Apply(s, e).freeCount| && JobAt(Apply(s, e), j)
  {
    hide Apply, Enabled, SlotInv, JobAt, WorkerAt;
    HistoryGrows(s, e);
    match e {
      case Test(i) => JobKeptTest(s, i, j);
      case FreeNode(i) => JobKeptRun(s, e, i, j);
      case Finish(i) => JobKeptRun(s, e, i, j);
      case CancelInJob(i) => JobKeptRun(s, e, i, j);
      case Append => JobKeptQueue(s, e, j);
      case Flush(arg) => JobKeptQueue(s, e, j);
      case DestroyFree => JobKeptQueue(s, e, j);
      case _ => JobKeptUntouched(s, e, j);
    }
  }

  lemma JobKeptUntouched(s: State, e: Event, j: nat)
    requires SlotInv(s) && JobInv(s) && Enabled(s, e) && !TouchesJobs(e) && j < |s.status|
    ensures |Apply(s, e).status| == |Apply(s, e).freeCount| && j < |Apply(s, e).status| && JobAt(Apply(s, e), j)
  {
    hide Ascending, Apply, Enabled;
    JobsUntouched(s, e);
    assert JobAt(s, j);
  }

  lemma JobKeptRun(s: State, e: Event, i: nat, j: nat)
    requires JobInv(s) && Enabled(s, e) && j < |s.status|
    requires e == FreeNode(i) || e == Finish(i) || e == CancelInJob(i)
    ensures JobAt(Apply(s, e), j)
  {
    hide Ascending;
    assert JobAt(s, j) && WorkerAt(s, i);
  }

  lemma JobKeptQueue(s: State, e: Event, j: nat)
    requires JobInv(s) && Enabled(s, e) && (j < |s.status| || (e.Append? && j == |s.status|))
    requires e.Append? || e.Flush? || e.DestroyFree?
    ensures JobAt(Apply(s, e), j)
  {
    hide Ascending, Select;
    if j < |s.status| { assert JobAt(s, j); }
    if e.Append? {
      NewJobIsNew(s);
    } else if e.Flush? {
      SelectMembers(s.queue, s.args, e.arg, true, j);
      SelectMembers(s.queue, s.args, e.arg, false, j);
    } else if s.queue != [] {
      FirstOnce(s.started, s.queue, j);
      FirstIsPending(s);
    }
  }

  lemma JobKeptTest(s: State, i: nat, j: nat)
    requires JobInv(s) && Enabled(s, Test(i)) && j < |s.status|
    ensures JobAt(Apply(s, Test(i)), j)
  {
    hide Ascending;
    assert JobAt(s, j) && WorkerAt(s, i);
    if s.queue != [] && !Destroying(s) {
      FirstOnce(s.started, s.queue, j);
      FirstIsPending(s);
    }
  }

  lemma WorkerKept(s: State, e: Event, i: nat)
    requires SlotInv(s) && JobInv(s) && Enabled(s, e) && i < |s.pcs| == |Apply(s, e).pcs|
    ensures WorkerAt(Apply(s, e), i)
  {
    hide Apply, Enabled, SlotInv, JobAt, WorkerAt;
    match e {
      case Test(k) => WorkerKeptMove(s, e, k, i);
      case FreeNode(k) => WorkerKeptMove(s, e, k, i);
      case Finish(k) => WorkerKeptMove(s, e, k, i);
      case CancelInJob(k) => WorkerKeptMove(s, e, k, i);
      case Append => WorkerKeptQueue(s, e, i);
      case Flush(arg) => WorkerKeptQueue(s, e, i);
      case DestroyFree => WorkerKeptQueue(s, e, i);
      case _ => WorkerKeptUntouched(s, e, i);
    }
  }

  lemma WorkerKeptUntouched(s: State, e: Event, i: nat)
    requires SlotInv(s) && JobInv(s) && Enabled(s, e) && !TouchesJobs(e) && i < |s.pcs|
    ensures i < |Apply(s, e).pcs| && WorkerAt(Apply(s, e), i)
  {
    hide Ascending, Apply, Enabled;
    JobsUntouched(s, e);
    assert WorkerAt(s, i);
  }

  lemma WorkerKeptMove(s: State, e: Event, k: nat, i: nat)
    requires JobInv(s) && Enabled(s, e) && i < |s.pcs|
    requires e == Test(k) || e == FreeNode(k) || e == Finish(k) || e == CancelInJob(k)
    ensures WorkerAt(Apply(s, e), i)
  {
    hide Ascending;
    assert WorkerAt(s, i) && WorkerAt(s, k);
    if s.queue != [] { FirstIsPending(s); }
  }

  /** Only pending jobs leave the queue without a worker. */
  lemma WorkerKeptQueue(s: State, e: Event, i: nat)
    requires JobInv(s) && Enabled(s, e) && i < |s.pcs|
    requires e.Append? || e.Flush? || e.DestroyFree?
    ensures WorkerAt(Apply(s, e), i)
  {
    hide Ascending, Select;
    assert WorkerAt(s, i);
    if s.queue != [] { FirstIsPending(s); }
    if s.pcs[i].Popped? || s.pcs[i].Running? {
      assert JobAt(s, s.pcs[i].job);
      if e.Flush? { SelectMembers(s.queue, s.args, e.arg, true, s.pcs[i].job); }
    }
  }

  lemma JobsKept(s: State, e: Event)
    requires SlotInv(s) && JobInv(s) && Enabled(s, e)
    ensures JobInv(Apply(s, e))
  {
    hide Apply, Enabled, SlotInv, JobAt, WorkerAt, OrderInv;
    OrderKept(s, e);
    HistoryGrows(s, e);
    SlotKept(s, e);
    var t := Apply(s, e);
    SlotHasShape(t);
    forall j: nat | j < |t.status| ensures JobAt(t, j) { JobKept(s, e, j); }
    forall i: nat | i < |t.pcs| ensures WorkerAt(t, i) { WorkerKept(s, e, i); }
  }
}
