/** What pool_destroy's wait is for: while it joins the workers no job is held by anybody, and it is signalled by the
    last worker counted. */
module PoolWait {
  import opened PoolProtocol
  import opened PoolSlots
  import opened PoolRuns
  import opened Runs
  import opened Wrappers

  /** Before a worker has tested the queue, or on its way out, or out. */
  predicate HasNoJob(pc: Pc) {
    pc.Born? || pc.Started? || pc.Testing? || pc.Cleanup? || pc.Decremented? || pc.Leaving? || pc.Dead?
  }

  predicate WaitOver(d: DestroyPc) {
    d.DestroyJoining? || d == Freeing || d == Done
  }

  ghost predicate IdleInv(s: State) {
    WaitOver(s.destroyer) ==> forall i :: 0 <= i < |s.pcs| ==> HasNoJob(s.pcs[i])
  }

  lemma IdleRun(s: State, e: Event)
    requires Shape(s) && IdleInv(s) && Enabled(s, e) && IsRun(e)
    ensures IdleInv(Apply(s, e))
  {
    hide CanExit, DoExit, CanCall, DoCall, CanDestroy, DoDestroy;
  }

  lemma IdleExit(s: State, e: Event)
    requires Shape(s) && IdleInv(s) && Enabled(s, e) && IsExit(e)
    ensures IdleInv(Apply(s, e))
  {
    hide CanRun, DoRun, CanCall, DoCall, CanDestroy, DoDestroy;
  }

  lemma IdleCall(s: State, e: Event)
    requires SlotInv(s) && IdleInv(s) && Enabled(s, e) && IsCall(e)
    ensures IdleInv(Apply(s, e))
  {
    hide CanRun, DoRun, CanExit, DoExit, CanDestroy, DoDestroy, Select, MutexAt, WakeAt, JoinedAt;
    if IsKill(e) && SlotOf(e) < |s.pcs| { assert SlotAt(s, SlotOf(e)); }
  }

  /** The wait ends with nobody counted and the mutex in the destroyer's hands. */
  lemma IdleAtEnd(s: State)
    requires SlotInv(s) && AliveInv(s) && s.destroyer == DestroyTesting && s.alive == 0
    ensures forall i :: 0 <= i < |s.pcs| ==> HasNoJob(s.pcs[i])
  {
    hide KillAt, WakeAt, JoinedAt, Count;
    CountNone(s.pcs);
    forall i | 0 <= i < |s.pcs| ensures HasNoJob(s.pcs[i]) { assert SlotAt(s, i) && !Counted(s.pcs[i]); }
  }

  lemma IdleDestroy(s: State, e: Event)
    requires SlotInv(s) && AliveInv(s) && IdleInv(s) && Enabled(s, e) && IsDestroy(e)
    ensures IdleInv(Apply(s, e))
  {
    hide CanRun, DoRun, CanExit, DoExit, CanCall, DoCall, SlotAt, Frame, HasNoJob, AliveInv, Awake, Created;
    if e.DestroyTest? && s.alive == 0 { IdleAtEnd(s); }
  }

  lemma IdleStep(s: State, e: Event)
    requires SlotInv(s) && AliveInv(s) && IdleInv(s) && Shape(s) && Enabled(s, e)
    ensures IdleInv(Apply(s, e))
  {
    hide SlotInv, AliveInv, IdleInv, Enabled, Apply, Shape;
    if IsRun(e) { IdleRun(s, e); }
    else if IsExit(e) { IdleExit(s, e); }
    else if IsCall(e) { IdleCall(s, e); }
    else { IdleDestroy(s, e); }
  }

  /** From the end of the wait on, no worker has or will get a job: each is yet to find out that it has to leave, or on
      its way out.  What is left in the queue is for pool_destroy to free. */
  lemma WaitEndsJobs(n: nat, s: State, i: nat)
    requires Reachable(n, s) && WaitOver(s.destroyer) && i < n
    ensures |s.pcs| == n && HasNoJob(s.pcs[i])
  {
    hide Reaches, Inv, Apply, Enabled, Shape, HasNoJob;
    var inv := u => Inv(u) && IdleInv(u);
    InvInit(n);
    assert EveryStepKeeps(Step, inv) by {
      forall u, e | inv(u) && Step(u, e).Some? ensures inv(Step(u, e).value) {
        InvParts(u);
        InvStep(u, e);
        IdleStep(u, e);
      }
    }
    ReachesKeeps(Step, inv, Init(n), s);
    ReachableInv(n, s);
  }

  /** The destroyer is signalled by a worker that leaves if and only if no worker is counted any more. */
  lemma LastWorkerSignals(n: nat, s: State, i: nat)
    requires Reachable(n, s) && Shape(s) && Enabled(s, Broadcast(i)) && s.destroyer == DestroyAsleep(false)
    ensures Apply(s, Broadcast(i)).destroyer == DestroyAsleep(true) <==>
            forall j: nat :: j < |s.pcs| ==> !Counted(s.pcs[j])
  {
    hide Reachable, SlotInv, DestroyerWakeInv, Count, Counted;
    ReachableInv(n, s);
    CountNone(s.pcs);
  }
}
