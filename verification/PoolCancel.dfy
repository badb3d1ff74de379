/** Which workers have been cancelled: exactly those that a pool_kill in progress or the loop of pool_destroy has got
    to, and nobody else. */
module PoolCancel {
  import opened PoolProtocol
  import opened PoolSlots

  /** pool_kill has cancelled the worker and has not replaced it yet. */
  predicate KillUnderway(kill: KillPc) {
    kill == Joining || kill == Joined || kill == Spawning
  }

  /** The loop of pool_destroy has passed slot i. */
  predicate DestroyPassed(d: DestroyPc, i: nat) {
    d != NoDestroy && d != DestroySet && (d.Cancelling? ==> i < d.k)
  }

  ghost predicate CancelAt(s: State, i: nat)
    requires Shape(s) && i < |s.pcs|
  {
    s.cancelled[i] <==> KillUnderway(s.kills[i]) || DestroyPassed(s.destroyer, i)
  }

  ghost predicate CancelInv(s: State) {
    Shape(s) && forall i: nat :: i < |s.pcs| ==> CancelAt(s, i)
  }

  lemma CancelMove(s: State, t: State, k: int, q: Pc, i: nat)
    requires WorkerMove(s, t, k, q) && i < |s.pcs| && CancelAt(s, i)
    ensures CancelAt(t, i)
  {
  }

  lemma CancelKill(s: State, t: State, k: int, i: nat)
    requires KillMove(s, t, k) && i < |s.pcs| && CancelAt(s, i) && KillAt(s, k)
    ensures CancelAt(t, i)
  {
  }

  lemma CancelCall(s: State, e: Event, i: nat)
    requires Ready(s, e) && IsCall(e) && !IsKill(e) && i < |s.pcs| && CancelAt(s, i)
    ensures Shape(Apply(s, e)) && i < |Apply(s, e).pcs| && CancelAt(Apply(s, e), i)
  {
    hide CanRun, DoRun, CanExit, DoExit, CanDestroy, DoDestroy, CanKill, DoKill, Select, SlotAt, Frame;
  }

  lemma CancelLoop(s: State, i: nat)
    requires Shape(s) && CanDestroy(s, DestroyCancel) && i < |s.pcs| && CancelAt(s, i)
    ensures Shape(DoDestroy(s, DestroyCancel)) && i < |DoDestroy(s, DestroyCancel).pcs|
    ensures CancelAt(DoDestroy(s, DestroyCancel), i)
  {
  }

  /** The other steps of pool_destroy cancel nobody. */
  lemma CancelRest(s: State, e: Event, i: nat)
    requires Shape(s) && IsDestroy(e) && !e.DestroyCancel? && CanDestroy(s, e) && i < |s.pcs| && CancelAt(s, i)
    ensures Shape(DoDestroy(s, e)) && i < |DoDestroy(s, e).pcs| && CancelAt(DoDestroy(s, e), i)
  {
    hide Created;
  }

  lemma CancelDestroy(s: State, e: Event, i: nat)
    requires Shape(s) && Enabled(s, e) && IsDestroy(e) && i < |s.pcs| && CancelAt(s, i)
    ensures Shape(Apply(s, e)) && i < |Apply(s, e).pcs| && CancelAt(Apply(s, e), i)
  {
    hide CancelAt, CanDestroy, DoDestroy, Shape;
    if e.DestroyCancel? { CancelLoop(s, i); } else { CancelRest(s, e, i); }
  }

  /** Every step of every thread keeps it. */
  lemma CancelKept(s: State, e: Event)
    requires SlotInv(s) && CancelInv(s) && Enabled(s, e)
    ensures CancelInv(Apply(s, e))
  {
    hide Apply, Enabled, SlotAt, Frame, CancelAt, Ready, WorkerMove, KillMove;
    var t := Apply(s, e);
    IsReady(s, e);
    SlotKept(s, e);
    forall i: nat | i < |t.pcs|
      ensures CancelAt(t, i)
    {
      assert CancelAt(s, i);
      if IsRun(e) {
        RunMoves(s, e);
        CancelMove(s, t, SlotOf(e), t.pcs[SlotOf(e)], i);
      } else if IsExit(e) {
        ExitMoves(s, e);
        CancelMove(s, t, SlotOf(e), t.pcs[SlotOf(e)], i);
      } else if IsKill(e) {
        KillMoves(s, e);
        KilledSlot(s, e);
        CancelKill(s, t, SlotOf(e), i);
      } else if IsCall(e) {
        CancelCall(s, e, i);
      } else {
        CancelDestroy(s, e, i);
      }
    }
  }

  lemma KilledSlot(s: State, e: Event)
    requires SlotInv(s) && Enabled(s, e) && IsKill(e) && KillMove(s, Apply(s, e), SlotOf(e))
    ensures KillAt(s, SlotOf(e))
  {
    hide MutexAt, WakeAt, JoinedAt, Frame, Apply, Enabled;
    assert SlotAt(s, SlotOf(e));
  }
}
