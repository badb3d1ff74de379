/** pool_kill comes to an end: the worker that it cancels leaves by itself, whatever it is doing, and is replaced. */
module PoolKill {
  import opened PoolProtocol
  import opened PoolSlots
  import opened PoolJobs
  import opened PoolCancel
  import opened PoolRuns
  import opened Runs
  import opened Wrappers

  /** Nobody else has the mutex. */
  predicate FreeFor(s: State, i: nat) {
    s.owner == Nobody || s.owner == Worker(i) || s.owner == Killer(i)
  }

  /** A way out for the worker, on which no job ends by itself. */
  function WayOut(pc: Pc, i: nat): (e: Event)
    ensures !e.Finish? && SlotOf(e) == i
  {
    match pc
    case NotCreated => Create(i)
    case Born => Lock(i)
    case Started => CountIn(i)
    case Testing => Test(i)
    case Asleep(_) => CancelInWait(i)
    case Popped(_) => FreeNode(i)
    case Running(_) => CancelInJob(i)
    case Relocking => LockAgain(i)
    case CancelRelocking => CancelLock(i)
    case CancelWaking => CancelLock(i)
    case Cleanup => CountOut(i)
    case Decremented => Broadcast(i)
    case Leaving => Leave(i)
    case Dead => KillJoin(i)
  }

  /** What happens next to slot i while it is being killed. */
  function KillNext(s: State, i: nat): (e: Event)
    requires i < |s.pcs| && i < |s.kills| && s.kills[i] != NoKill
    ensures !e.Finish? && SlotOf(e) == i
  {
    match s.kills[i]
    case Found => KillCancel(i)
    case Joining => WayOut(s.pcs[i], i)
    case Joined => KillLock(i)
    case Spawning => KillSpawn(i)
  }

  function StepsOut(pc: Pc): (n: nat)
    ensures n <= 9
  {
    match pc
    case NotCreated => 0
    case Born => 9
    case Started => 8
    case Relocking => 8
    case Testing => 7
    case Popped(_) => 6
    case Asleep(_) => 5
    case Running(_) => 5
    case CancelRelocking => 4
    case CancelWaking => 4
    case Cleanup => 3
    case Decremented => 2
    case Leaving => 1
    case Dead => 0
  }

  function KillRank(s: State, i: nat): (n: nat)
    requires i < |s.pcs| && i < |s.kills|
    ensures n <= 13
  {
    match s.kills[i]
    case NoKill => 0
    case Found => 4 + StepsOut(s.pcs[i])
    case Joining => 3 + StepsOut(s.pcs[i])
    case Joined => 2
    case Spawning => 1
  }

  ghost predicate BeingKilled(s: State, i: nat) {
    && SlotInv(s) && JobInv(s) && CancelInv(s)
    && i < |s.pcs| && i < |s.kills| && s.kills[i] != NoKill && FreeFor(s, i)
  }

  lemma WayOutEnabled(s: State, i: nat)
    requires BeingKilled(s, i) && s.kills[i] == Joining
    ensures Enabled(s, WayOut(s.pcs[i], i))
  {
    hide OrderInv, JobAt, WakeAt, JoinedAt, Frame;
    assert SlotAt(s, i) && CancelAt(s, i) && WorkerAt(s, i);
  }

  lemma KillNextEnabled(s: State, i: nat)
    requires BeingKilled(s, i)
    ensures Enabled(s, KillNext(s, i))
  {
    hide JobInv, CancelInv, WakeAt, JoinedAt, Frame, CanRun, CanExit;
    assert SlotAt(s, i);
    if s.kills[i] == Joining { WayOutEnabled(s, i); }
  }

  lemma WayOutProgress(s: State, i: nat)
    requires BeingKilled(s, i) && s.kills[i] == Joining && Enabled(s, WayOut(s.pcs[i], i)) && s.pcs[i] != Dead
    ensures
      var t := Apply(s, WayOut(s.pcs[i], i));
      && i < |t.pcs| && i < |t.kills| && i < |t.cancelled| && t.kills[i] == Joining && FreeFor(t, i)
      && StepsOut(t.pcs[i]) < StepsOut(s.pcs[i])
  {
    hide JobInv, CancelInv, WakeAt, JoinedAt, Frame, CanCall, DoCall, CanDestroy, DoDestroy;
    assert SlotAt(s, i);
  }

  lemma KillerProgress(s: State, i: nat)
    requires BeingKilled(s, i) && Enabled(s, KillNext(s, i)) && (s.kills[i] == Joining ==> s.pcs[i] == Dead)
    ensures
      var t := Apply(s, KillNext(s, i));
      && i < |t.pcs| && i < |t.kills| && i < |t.cancelled| && FreeFor(t, i) && KillRank(t, i) < KillRank(s, i)
      && (t.kills[i] == NoKill ==> t.pcs[i] == Born && !t.cancelled[i])
  {
    hide JobInv, CancelInv, SlotAt, Frame, Created, CanRun, DoRun, CanExit, DoExit, CanDestroy, DoDestroy;
  }

  lemma KillProgress(s: State, i: nat)
    requires BeingKilled(s, i) && Enabled(s, KillNext(s, i))
    ensures
      var t := Apply(s, KillNext(s, i));
      && i < |t.pcs| && i < |t.kills| && i < |t.cancelled| && FreeFor(t, i) && KillRank(t, i) < KillRank(s, i)
      && (t.kills[i] == NoKill ==> t.pcs[i] == Born && !t.cancelled[i])
  {
    hide SlotInv, JobInv, CancelInv, Apply, Enabled, StepsOut, FreeFor;
    if s.kills[i] == Joining && s.pcs[i] != Dead { WayOutProgress(s, i); } else { KillerProgress(s, i); }
  }

  lemma {:induction false} KillEnds(s: State, i: nat) returns (events: seq<Event>, t: State)
    requires BeingKilled(s, i)
    ensures Leads(Step, s, events, t) && |events| <= KillRank(s, i)
    ensures forall e <- events :: SlotOf(e) == i && !e.Finish?
    ensures i < |t.pcs| && i < |t.kills| && i < |t.cancelled|
    ensures t.kills[i] == NoKill && t.pcs[i] == Born && !t.cancelled[i]
    decreases KillRank(s, i)
  {
    hide Enabled, Apply, KillRank, KillNext, SlotInv, JobInv, CancelInv, FreeFor, Shape;
    HasShape(s);
    var e := KillNext(s, i);
    KillNextEnabled(s, i);
    KillProgress(s, i);
    var u := Apply(s, e);
    SlotKept(s, e);
    JobsKept(s, e);
    CancelKept(s, e);
    if u.kills[i] == NoKill {
      events, t := [e], u;
      assert Leads(Step, u, [], u);
    } else {
      var rest;
      rest, t := KillEnds(u, i);
      events := [e] + rest;
    }
  }

  lemma HasShape(s: State)
    requires SlotInv(s)
    ensures Shape(s)
  {
  }

  /** A pool_kill in progress needs nobody else: with the mutex free at most thirteen steps, its own and those of the
      worker that it cancels, of which none is a job ending by itself, replace the worker by a new one. */
  lemma KillReturns(n: nat, s: State, i: nat) returns (events: seq<Event>, t: State)
    requires Reachable(n, s) && s.owner == Nobody && i < n && |s.kills| == n && s.kills[i] != NoKill
    ensures Leads(Step, s, events, t) && |events| <= 13 && forall e <- events :: SlotOf(e) == i && !e.Finish?
    ensures |t.pcs| == |t.kills| == |t.cancelled| == n
    ensures t.kills[i] == NoKill && t.pcs[i] == Born && !t.cancelled[i]
  {
    hide Reachable, SlotInv, JobInv, CancelInv, AliveInv, DestroyerWakeInv, Leads, KillRank;
    ReachableInv(n, s);
    ReachableCancels(n, s);
    events, t := KillEnds(s, i);
    InvLeads(s, events, t);
    InvParts(t);
  }

  // ----- a cancelled worker takes no other job

  lemma ExitingStep(s: State, e: Event, i: nat)
    requires Shape(s) && Enabled(s, e) && e != KillSpawn(i) && i < |s.pcs| && Exiting(s.pcs[i])
    ensures i < |Apply(s, e).pcs| && Exiting(Apply(s, e).pcs[i])
  {
    hide Enabled, Apply, Exiting, Shape;
    if IsRun(e) { ExitingRun(s, e, i); }
    else if IsExit(e) { ExitingExit(s, e, i); }
    else if IsCall(e) { ExitingCall(s, e, i); }
    else { ExitingDestroy(s, e, i); }
  }

  lemma ExitingRun(s: State, e: Event, i: nat)
    requires Shape(s) && Enabled(s, e) && IsRun(e) && i < |s.pcs| && Exiting(s.pcs[i])
    ensures i < |Apply(s, e).pcs| && Exiting(Apply(s, e).pcs[i])
  {
    hide CanExit, DoExit, CanCall, DoCall, CanDestroy, DoDestroy;
  }

  lemma ExitingExit(s: State, e: Event, i: nat)
    requires Shape(s) && Enabled(s, e) && IsExit(e) && i < |s.pcs| && (Exiting(s.pcs[i]) || SlotOf(e) == i)
    ensures i < |Apply(s, e).pcs| && Exiting(Apply(s, e).pcs[i])
  {
    hide CanRun, DoRun, CanCall, DoCall, CanDestroy, DoDestroy;
  }

  lemma ExitingCall(s: State, e: Event, i: nat)
    requires Shape(s) && Enabled(s, e) && IsCall(e) && e != KillSpawn(i) && i < |s.pcs| && Exiting(s.pcs[i])
    ensures i < |Apply(s, e).pcs| && Exiting(Apply(s, e).pcs[i])
  {
    hide CanRun, DoRun, CanExit, DoExit, CanDestroy, DoDestroy, Select, Created;
  }

  lemma ExitingDestroy(s: State, e: Event, i: nat)
    requires Shape(s) && Enabled(s, e) && IsDestroy(e) && i < |s.pcs| && Exiting(s.pcs[i])
    ensures i < |Apply(s, e).pcs| && Exiting(Apply(s, e).pcs[i])
  {
    hide CanRun, DoRun, CanExit, DoExit, CanCall, DoCall, CanDestroy;
  }

  /** A worker that is cancelled in a job or in its sleep is on its way out from then on, until its slot is refilled. */
  lemma CancelledLeaves(n: nat, s: State, e: Event, i: nat, events: seq<Event>, t: State)
    requires Reachable(n, s) && Shape(s) && Enabled(s, e) && (e == CancelInJob(i) || e == CancelInWait(i))
    requires Leads(Step, Apply(s, e), events, t) && KillSpawn(i) !in events
    ensures i < |t.pcs| && Exiting(t.pcs[i])
  {
    hide Reachable, Inv, Enabled, Apply, Leads, Exiting;
    ReachableInv(n, s);
    InvStep(s, e);
    SlotExists(s, e, i);
    ExitingExit(s, e, i);
    ExitingLeads(Apply(s, e), events, t, i);
  }

  lemma SlotExists(s: State, e: Event, i: nat)
    requires Shape(s) && Enabled(s, e) && (e == CancelInJob(i) || e == CancelInWait(i))
    ensures i < |s.pcs|
  {
  }

  lemma {:induction false} ExitingLeads(s: State, events: seq<Event>, t: State, i: nat)
    requires Inv(s) && Leads(Step, s, events, t) && KillSpawn(i) !in events && i < |s.pcs| && Exiting(s.pcs[i])
    ensures i < |t.pcs| && Exiting(t.pcs[i])
    decreases |events|
  {
    hide Inv, Enabled, Apply, Exiting, Shape;
    if events != [] {
      InvParts(s);
      InvStep(s, events[0]);
      ExitingStep(s, events[0], i);
      ExitingLeads(Apply(s, events[0]), events[1..], t, i);
    }
  }
}
