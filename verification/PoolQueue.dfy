/** The linked job queue does what the step system says about job numbers. */
module PoolQueue {
  import opened PoolJobs
  import opened PoolProtocol
  import opened PoolRuns
  import opened PoolSlots
  import opened Runs
  import opened Wrappers
  import JobQueue

  type Job = JobQueue.Job

  /** The nodes of the list, in order, are those of the queued job numbers, each with its argument. */
  ghost predicate Stands(node: map<nat, Job>, args: seq<nat>, queue: seq<nat>, jobs: seq<Job>) {
    && |queue| == |jobs|
    && forall i :: 0 <= i < |queue| ==>
         queue[i] in node && node[queue[i]] == jobs[i] && queue[i] < |args| && args[queue[i]] == jobs[i].arg
  }

  lemma FlushLast(jobs: seq<Job>, arg: nat)
    requires jobs != []
    ensures var n := |jobs| - 1;
            && JobQueue.Keep(jobs, arg) ==
               JobQueue.Keep(jobs[..n], arg) + (if jobs[n].arg == arg then [] else [jobs[n]])
            && JobQueue.Matching(jobs, arg) ==
               JobQueue.Matching(jobs[..n], arg) + (if jobs[n].arg == arg then [jobs[n]] else [])
  {
  }

  lemma FlushNone(arg: nat)
    ensures JobQueue.Keep([], arg) == [] && JobQueue.Matching([], arg) == []
  {
  }

  lemma Regroup(a: seq<Job>, b: seq<Job>, c: seq<Job>)
    ensures (a + b) + c == a + (b + c)
  {
  }

  /** What the flush does with the first job does not depend on the others. */
  lemma {:induction false} FlushFirst(jobs: seq<Job>, arg: nat)
    requires jobs != []
    ensures JobQueue.Keep(jobs, arg) == (if jobs[0].arg == arg then [] else [jobs[0]]) + JobQueue.Keep(jobs[1..], arg)
    ensures JobQueue.Matching(jobs, arg) ==
            (if jobs[0].arg == arg then [jobs[0]] else []) + JobQueue.Matching(jobs[1..], arg)
    decreases |jobs|
  {
    hide JobQueue.Keep, JobQueue.Matching;
    var n := |jobs| - 1;
    var kept, gone := if jobs[0].arg == arg then [] else [jobs[0]], if jobs[0].arg == arg then [jobs[0]] else [];
    FlushLast(jobs, arg);
    if n == 0 {
      FlushNone(arg);
      assert jobs[..n] == jobs[1..] == [];
    } else {
      var last, lost := if jobs[n].arg == arg then [] else [jobs[n]], if jobs[n].arg == arg then [jobs[n]] else [];
      FlushFirst(jobs[..n], arg);
      assert jobs[..n][1..] == jobs[1..][..n - 1];
      FlushLast(jobs[1..], arg);
      Regroup(kept, JobQueue.Keep(jobs[1..][..n - 1], arg), last);
      Regroup(gone, JobQueue.Matching(jobs[1..][..n - 1], arg), lost);
    }
  }

  lemma StandsFirst(node: map<nat, Job>, args: seq<nat>, queue: seq<nat>, jobs: seq<Job>)
    requires Stands(node, args, queue, jobs) && queue != []
    ensures jobs != [] && Stands(node, args, queue[1..], jobs[1..]) && Stands(node, args, [queue[0]], [jobs[0]])
    ensures queue[0] < |args| && args[queue[0]] == jobs[0].arg
  {
  }

  lemma StandsJoined(node: map<nat, Job>, args: seq<nat>, queue: seq<nat>, jobs: seq<Job>, more: seq<nat>,
      nodes: seq<Job>)
    requires Stands(node, args, queue, jobs) && Stands(node, args, more, nodes)
    ensures Stands(node, args, queue + more, jobs + nodes)
  {
  }

  lemma {:induction false} SelectStands(node: map<nat, Job>, args: seq<nat>, queue: seq<nat>, jobs: seq<Job>,
      arg: nat, wanted: bool)
    requires Stands(node, args, queue, jobs)
    ensures Stands(node, args, Select(queue, args, arg, wanted),
        if wanted then JobQueue.Matching(jobs, arg) else JobQueue.Keep(jobs, arg))
    decreases |queue|
  {
    if queue != [] {
      SelectFirst(node, args, queue, jobs, arg, wanted);
    }
  }

  lemma {:induction false} SelectFirst(node: map<nat, Job>, args: seq<nat>, queue: seq<nat>, jobs: seq<Job>, arg: nat,
      wanted: bool)
    requires Stands(node, args, queue, jobs) && queue != []
    ensures Stands(node, args, Select(queue, args, arg, wanted),
        if wanted then JobQueue.Matching(jobs, arg) else JobQueue.Keep(jobs, arg))
    decreases |queue|, 0
  {
    hide Stands, JobQueue.Keep, JobQueue.Matching;
    StandsFirst(node, args, queue, jobs);
    SelectStands(node, args, queue[1..], jobs[1..], arg, wanted);
    FlushFirst(jobs, arg);
    var rest := if wanted then JobQueue.Matching(jobs[1..], arg) else JobQueue.Keep(jobs[1..], arg);
    if (jobs[0].arg == arg) == wanted {
      StandsJoined(node, args, [queue[0]], [jobs[0]], Select(queue[1..], args, arg, wanted), rest);
    } else {
      assert [] + rest == rest;
    }
  }

  /** What the list, the nodes freed out of it and the step system have to do with each other: every job ever queued has
      a node of its own, the list holds those of the queue in order, and the nodes freed are those of the jobs flushed
      or discarded. */
  ghost predicate Tracks(s: State, node: map<nat, Job>, jobs: seq<Job>, freed: seq<Job>) {
    && Stands(node, s.args, s.queue, jobs) && |s.status| == |s.args|
    && (forall j: nat :: j in node <==> j < |s.args|)
    && (forall i, j :: i in node && j in node && node[i] == node[j] ==> i == j)
    && (forall j: nat :: j < |s.args| ==> (node[j] in freed <==> s.status[j].Flushed? || s.status[j].Discarded?))
  }

  /** The events that do something to the list. */
  predicate OnList(s: State, e: Event) {
    e.Append? || e.Flush? || (e.DestroyFree? && s.queue != []) || (e.Test? && s.queue != [] && !Destroying(s))
  }

  lemma TracksAppend(s: State, node: map<nat, Job>, jobs: seq<Job>, freed: seq<Job>, job: Job)
    requires Shape(s) && Enabled(s, Append) && Tracks(s, node, jobs, freed)
    requires job !in node.Values && job !in freed && job.arg == s.owner.arg
    ensures Tracks(Apply(s, Append), node[|s.args| := job], jobs + [job], freed)
  {
    forall j | j in node ensures node[j] != job { assert node[j] in node.Values; }
  }

  /** The worker takes the job of the first node. */
  lemma TracksPop(s: State, node: map<nat, Job>, jobs: seq<Job>, freed: seq<Job>, i: nat)
    requires JobInv(s) && Enabled(s, Test(i)) && OnList(s, Test(i)) && Tracks(s, node, jobs, freed)
    ensures var t := Apply(s, Test(i));
            && jobs != [] && Tracks(t, node, jobs[1..], freed)
            && t.pcs[i].Popped? && t.pcs[i].job in node && node[t.pcs[i].job] == jobs[0]
  {
    hide OrderInv, JobAt, WorkerAt;
    FirstIsPending(s);
  }

  lemma TracksFree(s: State, node: map<nat, Job>, jobs: seq<Job>, freed: seq<Job>)
    requires JobInv(s) && Enabled(s, DestroyFree) && OnList(s, DestroyFree) && Tracks(s, node, jobs, freed)
    ensures jobs != [] && Tracks(Apply(s, DestroyFree), node, jobs[1..], freed + [jobs[0]])
  {
    hide OrderInv, JobAt, WorkerAt;
    FirstIsPending(s);
  }

  /** The nodes in a list that stands for job numbers are those of these numbers. */
  lemma StandsMembers(node: map<nat, Job>, args: seq<nat>, queue: seq<nat>, jobs: seq<Job>, j: nat)
    requires Stands(node, args, queue, jobs) && j in node
    requires forall i, k :: i in node && k in node && node[i] == node[k] ==> i == k
    ensures node[j] in jobs <==> j in queue
  {
    if node[j] in jobs {
      var i :| 0 <= i < |jobs| && jobs[i] == node[j];
      assert queue[i] == j;
    }
    if j in queue {
      var i :| 0 <= i < |queue| && queue[i] == j;
      assert jobs[i] == node[j];
    }
  }

  /** pool_flush_by_arg: the list surgery keeps the nodes of the jobs that the step keeps in the queue, in order, and
      frees those of the jobs that the step marks as flushed, in order. */
  lemma FlushStands(s: State, node: map<nat, Job>, jobs: seq<Job>, arg: nat)
    requires Shape(s) && Enabled(s, Flush(arg)) && Stands(node, s.args, s.queue, jobs)
    ensures var t, gone := Apply(s, Flush(arg)), Select(s.queue, s.args, arg, true);
            && Stands(node, t.args, t.queue, JobQueue.Keep(jobs, arg))
            && Stands(node, t.args, gone, JobQueue.Matching(jobs, arg))
            && |t.status| == |s.status|
            && forall j: nat :: j < |s.status| ==> t.status[j] == if j in gone then Flushed else s.status[j]
  {
    hide Stands;
    SelectStands(node, s.args, s.queue, jobs, arg, false);
    SelectStands(node, s.args, s.queue, jobs, arg, true);
  }

  lemma TracksFlush(s: State, node: map<nat, Job>, jobs: seq<Job>, freed: seq<Job>, arg: nat)
    requires JobInv(s) && Enabled(s, Flush(arg)) && Tracks(s, node, jobs, freed)
    ensures Tracks(Apply(s, Flush(arg)), node, JobQueue.Keep(jobs, arg), freed + JobQueue.Matching(jobs, arg))
  {
    hide OrderInv, JobAt, WorkerAt, Select, Stands;
    FlushStands(s, node, jobs, arg);
    var gone := Select(s.queue, s.args, arg, true);
    var t := Apply(s, Flush(arg));
    forall j: nat | j < |s.args|
      ensures node[j] in freed + JobQueue.Matching(jobs, arg) <==> t.status[j].Flushed? || t.status[j].Discarded?
    {
      StandsMembers(node, s.args, gone, JobQueue.Matching(jobs, arg), j);
    }
  }

  /** The other events leave the queue alone, and mark no job as flushed or discarded. */
  lemma TracksOther(s: State, e: Event, node: map<nat, Job>, jobs: seq<Job>, freed: seq<Job>)
    requires SlotInv(s) && JobInv(s) && Shape(s) && Enabled(s, e) && !OnList(s, e) && Tracks(s, node, jobs, freed)
    ensures Tracks(Apply(s, e), node, jobs, freed)
  {
    hide SlotInv, OrderInv, JobAt, WorkerAt, Apply, Enabled, Stands;
    match e {
      case Test(i) => TracksMove(s, e, i, node, jobs, freed);
      case FreeNode(i) => TracksMove(s, e, i, node, jobs, freed);
      case Finish(i) => TracksMove(s, e, i, node, jobs, freed);
      case CancelInJob(i) => TracksMove(s, e, i, node, jobs, freed);
      case DestroyFree => TracksDone(s, node, jobs, freed);
      case Append =>
      case Flush(_) =>
      case _ => JobsUntouched(s, e);
    }
  }

  lemma TracksDone(s: State, node: map<nat, Job>, jobs: seq<Job>, freed: seq<Job>)
    requires Shape(s) && Enabled(s, DestroyFree) && s.queue == [] && Tracks(s, node, jobs, freed)
    ensures Tracks(Apply(s, DestroyFree), node, jobs, freed)
  {
    hide Stands;
  }

  lemma TracksMove(s: State, e: Event, i: nat, node: map<nat, Job>, jobs: seq<Job>, freed: seq<Job>)
    requires JobInv(s) && Enabled(s, e) && !OnList(s, e) && Tracks(s, node, jobs, freed)
    requires e == Test(i) || e == FreeNode(i) || e == Finish(i) || e == CancelInJob(i)
    ensures Tracks(Apply(s, e), node, jobs, freed)
  {
    hide OrderInv, JobAt, Stands;
    assert WorkerAt(s, i);
  }

  /** A flush at this point would leave the tail on a freed node. */
  predicate LosesTail(queue: seq<nat>, args: seq<nat>, arg: nat) {
    && Select(queue, args, arg, false) != [] && |queue| >= 2
    && (forall k :: |queue| - 2 <= k < |queue| ==> queue[k] < |args| && args[queue[k]] == arg)
  }

  lemma StandsLosesTail(node: map<nat, Job>, args: seq<nat>, queue: seq<nat>, jobs: seq<Job>, arg: nat)
    requires Stands(node, args, queue, jobs)
    ensures LosesTail(queue, args, arg) <==> JobQueue.LosesTail(jobs, arg)
  {
    SelectStands(node, args, queue, jobs, arg, false);
  }

  /** With at most one job for the argument the tail is kept. */
  lemma OneJobKeepsTail(queue: seq<nat>, args: seq<nat>, arg: nat)
    requires forall i, j :: 0 <= i < j < |queue| && queue[i] < |args| && queue[j] < |args| ==>
               args[queue[i]] != arg || args[queue[j]] != arg
    ensures !LosesTail(queue, args, arg)
  {
    if |queue| >= 2 && queue[|queue| - 2] < |args| && queue[|queue| - 1] < |args| {
      assert args[queue[|queue| - 2]] != arg || args[queue[|queue| - 1]] != arg;
    }
  }

  /** No flush of the run loses the tail. */
  ghost predicate SafeFlushes(s: State, events: seq<Event>)
    decreases |events|
  {
    events != [] && Step(s, events[0]).Some? ==>
      && (events[0].Flush? ==> !LosesTail(s.queue, s.args, events[0].arg))
      && SafeFlushes(Step(s, events[0]).value, events[1..])
  }

  /** What the code does to the list in one step. */
  method Drive(queue: JobQueue.Queue, s: State, e: Event, ghost node: map<nat, Job>)
      returns (ghost node': map<nat, Job>)
    requires queue.Valid() && Tracks(s, node, queue.jobs, queue.freed)
    requires SlotInv(s) && JobInv(s) && Shape(s) && Enabled(s, e)
    requires e.Flush? ==> !LosesTail(s.queue, s.args, e.arg)
    modifies queue, queue.jobs
    ensures queue.Valid() && Tracks(Apply(s, e), node', queue.jobs, queue.freed)
    ensures forall job <- queue.jobs :: job in old(queue.jobs) || fresh(job)
  {
    hide SlotInv, JobInv, Tracks, Apply, Enabled, Select;
    node' := node;
    if e.Append? {
      ghost var was := queue.jobs;
      var job := queue.Push(ArgOf(s));
      TracksAppend(s, node, was, queue.freed, job);
      node' := node[|s.args| := job];
    } else if e.Flush? {
      TracksFlush(s, node, queue.jobs, queue.freed, e.arg);
      TracksStands(s, node, queue.jobs, queue.freed);
      StandsLosesTail(node, s.args, s.queue, queue.jobs, e.arg);
      JobQueue.KeepMembers(queue.jobs, e.arg);
      queue.FlushByArg(e.arg);
    } else if !OnList(s, e) {
      TracksOther(s, e, node, queue.jobs, queue.freed);
    } else if e.Test? {
      TracksPop(s, node, queue.jobs, queue.freed, e.i);
      var job := queue.Pop();
    } else {
      TracksFree(s, node, queue.jobs, queue.freed);
      queue.FreeFirst();
    }
  }

  function ArgOf(s: State): nat
    requires Shape(s) && Enabled(s, Append)
  {
    s.owner.arg
  }

  lemma TracksStands(s: State, node: map<nat, Job>, jobs: seq<Job>, freed: seq<Job>)
    requires Tracks(s, node, jobs, freed)
    ensures Stands(node, s.args, s.queue, jobs)
  {
  }

  /** Over any run whose flushes keep the tail, the linked list goes through the queues of the step system: at its end
      it holds the nodes of the jobs pending, in order, its tail is right, and the nodes freed are those of the jobs
      flushed or discarded. */
  method Follow(n: nat, events: seq<Event>, ghost t: State) returns (queue: JobQueue.Queue, ghost node: map<nat, Job>)
    requires Leads(Step, Init(n), events, t) && SafeFlushes(Init(n), events)
    ensures queue.Valid() && Tracks(t, node, queue.jobs, queue.freed)
  {
    hide Inv, Tracks, Apply, Enabled, LosesTail, Shape;
    queue := new JobQueue.Queue();
    node := map[];
    var s := Init(n);
    InvInit(n);
    TracksInit(n);
    for k := 0 to |events|
      invariant Inv(s) && Leads(Step, s, events[k..], t) && SafeFlushes(s, events[k..])
      invariant queue.Valid() && Tracks(s, node, queue.jobs, queue.freed)
      invariant fresh(queue) && fresh(set job | job in queue.jobs)
    {
      var e := events[k];
      assert events[k..][0] == e && events[k..][1..] == events[k + 1..];
      InvParts(s);
      node := Drive(queue, s, e, node);
      InvStep(s, e);
      s := Apply(s, e);
    }
  }

  lemma TracksInit(n: nat)
    ensures Tracks(Init(n), map[], [], [])
  {
  }
}
