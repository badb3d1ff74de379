/** The history of a run of the pool, read from its events: which jobs there are, and how each of them ended. */
module PoolEvents {
  import opened PoolProtocol
  import opened PoolSlots
  import opened PoolJobs
  import opened PoolOnce
  import opened PoolRuns
  import opened Runs
  import opened Wrappers

  /** Event e in state s gives job j the status: the worker that took it finishes or is cancelled in it, a flush for its
      argument finds it in the queue, or pool_destroy frees it at the head of the queue. */
  predicate Ends(s: State, e: Event, j: nat, status: Status) {
    j < |s.status| && j < |s.args| &&
    match status
    case Finished => e.Finish? && s.status[j] == Taken(e.i)
    case Cancelled => e.CancelInJob? && s.status[j] == Taken(e.i)
    case Flushed => e.Flush? && s.status[j] == Pending && s.args[j] == e.arg
    case Discarded => e.DestroyFree? && s.status[j] == Pending && s.queue != [] && s.queue[0] == j
    case _ => false
  }

  /** A worker step ends the job that the worker has, and no other. */
  lemma EndsMove(s: State, e: Event, j: nat, status: Status)
    requires JobInv(s) && Enabled(s, e) && j < |s.status| && !Final(s.status[j]) && Final(status)
    requires e.Test? || e.FreeNode? || e.Finish? || e.CancelInJob?
    ensures j < |Apply(s, e).status| && (Apply(s, e).status[j] == status <==> Ends(s, e, j, status))
  {
    hide Ascending;
    assert WorkerAt(s, e.i) && JobAt(s, j);
    if s.queue != [] { FirstIsPending(s); }
  }

  lemma EndsQueue(s: State, e: Event, j: nat, status: Status)
    requires JobInv(s) && Enabled(s, e) && j < |s.status| && !Final(s.status[j]) && Final(status)
    requires e.Append? || e.DestroyFree?
    ensures j < |Apply(s, e).status| && (Apply(s, e).status[j] == status <==> Ends(s, e, j, status))
  {
    hide Ascending, Select, WorkerAt;
    assert JobAt(s, j);
    if s.queue != [] { FirstIsPending(s); }
  }

  lemma EndsFlush(s: State, arg: nat, j: nat, status: Status)
    requires JobInv(s) && Enabled(s, Flush(arg)) && j < |s.status| && !Final(s.status[j]) && Final(status)
    ensures j < |Apply(s, Flush(arg)).status|
    ensures Apply(s, Flush(arg)).status[j] == status <==> Ends(s, Flush(arg), j, status)
  {
    hide Ascending, Select, WorkerAt;
    assert JobAt(s, j);
    SelectMembers(s.queue, s.args, arg, true, j);
  }

  /** A job that is not done with gets a final status exactly by the event that stands for it. */
  lemma EndsStep(s: State, e: Event, j: nat, status: Status)
    requires SlotInv(s) && JobInv(s) && Shape(s) && Enabled(s, e) && j < |s.status| && !Final(s.status[j])
    requires Final(status)
    ensures j < |Apply(s, e).status| && (Apply(s, e).status[j] == status <==> Ends(s, e, j, status))
  {
    hide Apply, Enabled, SlotInv, OrderInv, JobAt, WorkerAt;
    match e {
      case Test(i) => EndsMove(s, e, j, status);
      case FreeNode(i) => EndsMove(s, e, j, status);
      case Finish(i) => EndsMove(s, e, j, status);
      case CancelInJob(i) => EndsMove(s, e, j, status);
      case Append => EndsQueue(s, e, j, status);
      case Flush(arg) => EndsFlush(s, arg, j, status);
      case DestroyFree => EndsQueue(s, e, j, status);
      case _ => JobsUntouched(s, e);
    }
  }

  /** Some event of the run ends job j so. */
  ghost predicate EndedBy(n: nat, events: seq<Event>, j: nat, status: Status) {
    exists k: nat, s :: k < |events| && Leads(Step, Init(n), events[..k], s) && Ends(s, events[k], j, status)
  }

  /** Before the last event. */
  lemma AllButLast(n: nat, events: seq<Event>, t: State) returns (s: State)
    requires Leads(Step, Init(n), events, t) && events != []
    ensures Leads(Step, Init(n), events[..|events| - 1], s)
    ensures Shape(s) && Enabled(s, events[|events| - 1]) && Apply(s, events[|events| - 1]) == t
  {
    hide Apply, Enabled, Shape;
    var k := |events| - 1;
    s := PassesThrough(Step, Init(n), events, t, k);
    assert events[k..] == [events[k]];
    assert Leads(Step, Step(s, events[k]).value, [], t);
  }

  lemma EndedBefore(n: nat, events: seq<Event>, j: nat, status: Status)
    requires events != [] && EndedBy(n, events[..|events| - 1], j, status)
    ensures EndedBy(n, events, j, status)
  {
    hide Leads, Ends;
    var front := events[..|events| - 1];
    var k: nat, s :| k < |front| && Leads(Step, Init(n), front[..k], s) && Ends(s, front[k], j, status);
    assert front[..k] == events[..k] && front[k] == events[k];
  }

  /** What a status says has happened. */
  lemma {:induction false} StatusHasEvent(n: nat, events: seq<Event>, t: State, j: nat)
    requires Leads(Step, Init(n), events, t) && j < |t.status| && Final(t.status[j])
    ensures EndedBy(n, events, j, t.status[j])
    decreases |events|
  {
    hide Leads, Inv, Apply, Enabled, Shape, Ends, EndedBy;
    if events == [] {
      NothingYet(n, t);
    } else {
      var k := |events| - 1;
      var s := AllButLast(n, events, t);
      RunReaches(n, events[..k], s);
      ReachableInv(n, s);
      InvParts(s);
      if j < |s.status| && Final(s.status[j]) {
        FinalStep(s, events[k], j);
        StatusHasEvent(n, events[..k], s, j);
        EndedBefore(n, events, j, t.status[j]);
      } else if j < |s.status| {
        EndsStep(s, events[k], j, t.status[j]);
        EndsHere(n, events, k, s, j, t.status[j]);
      } else {
        NewIsPending(s, events[k], j);
      }
    }
  }

  lemma EndsHere(n: nat, events: seq<Event>, k: nat, s: State, j: nat, status: Status)
    requires k < |events| && Leads(Step, Init(n), events[..k], s) && Ends(s, events[k], j, status)
    ensures EndedBy(n, events, j, status)
  {
  }

  lemma NothingYet(n: nat, t: State)
    requires Leads(Step, Init(n), [], t)
    ensures t.status == []
  {
  }

  lemma RunReaches(n: nat, events: seq<Event>, s: State)
    requires Leads(Step, Init(n), events, s)
    ensures Reachable(n, s)
  {
  }

  lemma NewIsPending(s: State, e: Event, j: nat)
    requires SlotInv(s) && JobInv(s) && Shape(s) && Enabled(s, e) && |s.status| <= j < |Apply(s, e).status|
    ensures Apply(s, e).status[j] == Pending
  {
    hide Apply, Enabled, SlotInv, OrderInv, JobAt, WorkerAt;
    if TouchesJobs(e) { OnlyAppendAdds(s, e); } else { JobsUntouched(s, e); }
  }

  lemma OnlyAppendAdds(s: State, e: Event)
    requires Shape(s) && Enabled(s, e) && TouchesJobs(e)
    ensures Apply(s, e).status == s.status + [Pending] || |Apply(s, e).status| == |s.status|
  {
    hide Select;
  }

  /** In every run a job is finished, cancelled, flushed or discarded if and only if an event of the run ended it so:
      its worker finished it or was cancelled in it, a flush for its argument found it pending, or pool_destroy freed
      it. */
  lemma StatusIsHistory(n: nat, events: seq<Event>, t: State, j: nat, status: Status)
    requires Leads(Step, Init(n), events, t) && j < |t.status| && Final(status)
    ensures t.status[j] == status <==> EndedBy(n, events, j, status)
  {
    hide Leads, Inv, Apply, Enabled, Shape, Ends;
    if t.status[j] == status { StatusHasEvent(n, events, t, j); }
    if EndedBy(n, events, j, status) {
      var k: nat, u :| k < |events| && Leads(Step, Init(n), events[..k], u) && Ends(u, events[k], j, status);
      EndStays(n, events, t, k, u, j, status);
    }
  }

  lemma EndStays(n: nat, events: seq<Event>, t: State, k: nat, u: State, j: nat, status: Status)
    requires Leads(Step, Init(n), events, t) && Final(status) && k < |events|
    requires Leads(Step, Init(n), events[..k], u) && Ends(u, events[k], j, status)
    ensures j < |t.status| && t.status[j] == status
  {
    hide Leads, Inv, Apply, Enabled, Shape;
    var v := PassesThrough(Step, Init(n), events, t, k);
    OneEnd(Step, Init(n), events[..k], u, v);
    NextState(u, events[k..], t);
    assert events[k..][0] == events[k];
    RunReaches(n, events[..k], u);
    ReachableInv(n, u);
    InvParts(u);
    EndsStep(u, events[k], j, status);
    var w := Apply(u, events[k]);
    ReachOneMore(n, u, events[k], w);
    FinalForGood(n, w, events[k..][1..], t, j);
  }

  lemma NextState(s: State, events: seq<Event>, t: State)
    requires events != [] && Leads(Step, s, events, t)
    ensures Shape(s) && Enabled(s, events[0]) && Leads(Step, Apply(s, events[0]), events[1..], t)
  {
    hide Apply, Enabled, Shape;
  }

  // ----- the arguments

  lemma {:induction false} ComingRuns(s: State, events: seq<Event>, t: State)
    requires Inv(s) && Leads(Step, s, events, t)
    ensures Coming(t) == Coming(s) + QueuedArgs(events)
    decreases |events|
  {
    hide Inv, Apply, Enabled, Shape, Coming;
    if events != [] {
      var e, rest := events[0], events[1..];
      InvParts(s);
      InvStep(s, e);
      ComingStep(s, e);
      ComingRuns(Apply(s, e), rest, t);
      Regrouped(Coming(s), if e.QueueLock? then [e.arg] else [], QueuedArgs(rest));
    }
  }

  /** The jobs of a run are those that the calls of pool_queue brought, with their arguments, in the order in which the
      calls took the mutex; the last call may still have to append its job. */
  lemma JobsAreQueued(n: nat, events: seq<Event>, t: State)
    requires Leads(Step, Init(n), events, t)
    ensures QueuedArgs(events) == t.args + if t.owner.Queuer? && !t.owner.appended then [t.owner.arg] else []
  {
    hide Inv, Leads;
    InvInit(n);
    ComingRuns(Init(n), events, t);
    assert Coming(Init(n)) + QueuedArgs(events) == QueuedArgs(events);
  }
}
