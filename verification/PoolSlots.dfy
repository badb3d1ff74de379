/** What every step of the pool keeps about each worker slot: the mutex, the kills, the wake-ups, the joins; and the
    count of workers alive. */
module PoolSlots {
  import opened PoolProtocol

  /** The points of a worker between locking and unlocking. */
  predicate Holds(pc: Pc) {
    pc.Started? || pc.Testing? || pc.Cleanup? || pc.Decremented? || pc.Leaving?
  }

  predicate DestroyerHolds(d: DestroyPc) {
    d.DestroySet? || d.Cancelling? || d.DestroyTesting?
  }

  /** On the way out of worker_thread, or out. */
  predicate Exiting(pc: Pc) {
    pc.CancelRelocking? || pc.CancelWaking? || pc.Cleanup? || pc.Decremented? || pc.Leaving? || pc.Dead?
  }

  /** The worker in slot i is inside a critical section exactly if it owns the mutex, and so is its killer. */
  ghost predicate MutexAt(s: State, i: nat)
    requires Shape(s) && i < |s.pcs|
  {
    (Holds(s.pcs[i]) <==> s.owner == Worker(i)) && (s.kills[i] == Spawning <==> s.owner == Killer(i))
  }

  /** Without a destruction only a killed worker leaves, and its slot is refilled only after it is dead. */
  ghost predicate KillAt(s: State, i: nat)
    requires Shape(s) && i < |s.pcs|
  {
    && (s.kills[i] == Joined || s.kills[i] == Spawning ==> s.pcs[i] == Dead)
    && (Exiting(s.pcs[i]) && !Destroying(s) ==> s.cancelled[i])
    && (s.cancelled[i] && !Destroying(s) ==> s.kills[i] == Joining || s.kills[i] == Joined || s.kills[i] == Spawning)
    && (s.kills[i] != NoKill ==> s.pcs[i] != NotCreated && !Destroying(s))
  }

  /** A sleeper that was not signalled has nothing to do, except between the change that concerns it and the broadcast
      that follows under the same lock. */
  ghost predicate WakeAt(s: State, i: nat)
    requires Shape(s) && i < |s.pcs|
  {
    s.pcs[i] == Asleep(false) ==>
      && (s.queue == [] || (s.owner.Queuer? && s.owner.appended))
      && (!Destroying(s) || s.destroyer == DestroySet)
  }

  /** A worker that has been joined is dead. */
  ghost predicate JoinedAt(s: State, i: nat)
    requires Shape(s) && i < |s.pcs|
  {
    (s.destroyer.DestroyJoining? && i < s.destroyer.k) || s.destroyer == Freeing || s.destroyer == Done ==>
        s.pcs[i] == Dead
  }

  ghost predicate SlotAt(s: State, i: nat)
    requires Shape(s) && i < |s.pcs|
  {
    MutexAt(s, i) && KillAt(s, i) && WakeAt(s, i) && JoinedAt(s, i)
  }

  /** What is not about one slot. */
  ghost predicate Frame(s: State) {
    && (DestroyerHolds(s.destroyer) <==> s.owner == Destroyer)
    && (s.owner.Worker? || s.owner.Killer? ==> s.owner.i < |s.pcs|)
    && (Destroying(s) || s.owner.Queuer? ==> Created(s))
    && (Destroying(s) ==> !s.owner.Queuer?)
    && (s.destroyer.DestroyJoining? ==> s.destroyer.k <= |s.pcs|)
    && (s.destroyer == Done ==> s.queue == [])
  }

  ghost predicate SlotInv(s: State) {
    Shape(s) && Frame(s) && forall i: nat :: i < |s.pcs| ==> SlotAt(s, i)
  }

  /** The slot that an event is about, if any. */
  function SlotOf(e: Event): (i: int) {
    match e
    case Create(i) => i
    case Lock(i) => i
    case CountIn(i) => i
    case Test(i) => i
    case WakeUp(i) => i
    case Spurious(i) => i
    case CancelInWait(i) => i
    case FreeNode(i) => i
    case Finish(i) => i
    case CancelInJob(i) => i
    case LockAgain(i) => i
    case CancelLock(i) => i
    case CountOut(i) => i
    case Broadcast(i) => i
    case Leave(i) => i
    case KillFind(i) => i
    case KillCancel(i) => i
    case KillJoin(i) => i
    case KillLock(i) => i
    case KillSpawn(i) => i
    case _ => -1
  }

  /** What a step may rely on. */
  ghost predicate Ready(s: State, e: Event) {
    && Shape(s) && Frame(s) && Enabled(s, e)
    && (SlotOf(e) >= 0 ==> SlotOf(e) < |s.pcs| && SlotAt(s, SlotOf(e)))
  }

  /** What a worker's step means for the slots: worker k moves to q and takes or releases the mutex accordingly. */
  ghost predicate WorkerMove(s: State, t: State, k: int, q: Pc) {
    && Shape(s) && Shape(t) && 0 <= k < |s.pcs|
    && t.pcs == s.pcs[k := q] && t.cancelled == s.cancelled && t.kills == s.kills
    && (if Holds(s.pcs[k]) == Holds(q) then t.owner == s.owner
        else if Holds(q) then s.owner == Nobody && t.owner == Worker(k)
        else t.owner == Nobody)
    && s.pcs[k] != Dead && q != NotCreated
    && (Exiting(q) && !Exiting(s.pcs[k]) ==> s.cancelled[k] || Destroying(s))
    && (t.destroyer == s.destroyer || (s.destroyer.DestroyAsleep? && t.destroyer.DestroyAsleep?))
    && (s.queue == [] ==> t.queue == [])
    && (q == Asleep(false) ==> t.queue == [] && !Destroying(t))
  }

  lemma StartMoves(s: State, e: Event)
    requires Ready(s, e) && IsRun(e)
    requires e.Create? || e.Lock? || e.CountIn? || e.Test?
    ensures 0 <= SlotOf(e) < |Apply(s, e).pcs| && WorkerMove(s, Apply(s, e), SlotOf(e), Apply(s, e).pcs[SlotOf(e)])
  {
    hide CanExit, DoExit, CanCall, DoCall, CanDestroy, DoDestroy, Select, SlotAt, Frame;
  }

  lemma LoopMoves(s: State, e: Event)
    requires Ready(s, e) && IsRun(e)
    requires !(e.Create? || e.Lock? || e.CountIn? || e.Test?)
    ensures 0 <= SlotOf(e) < |Apply(s, e).pcs| && WorkerMove(s, Apply(s, e), SlotOf(e), Apply(s, e).pcs[SlotOf(e)])
  {
    hide CanExit, DoExit, CanCall, DoCall, CanDestroy, DoDestroy, Select, SlotAt, Frame;
  }

  lemma RunMoves(s: State, e: Event)
    requires Ready(s, e) && IsRun(e)
    ensures 0 <= SlotOf(e) < |Apply(s, e).pcs| && WorkerMove(s, Apply(s, e), SlotOf(e), Apply(s, e).pcs[SlotOf(e)])
  {
    hide Ready, WorkerMove, Apply, Enabled;
    if e.Create? || e.Lock? || e.CountIn? || e.Test? { StartMoves(s, e); } else { LoopMoves(s, e); }
  }

  lemma ExitMoves(s: State, e: Event)
    requires Ready(s, e) && IsExit(e)
    ensures 0 <= SlotOf(e) < |Apply(s, e).pcs| && WorkerMove(s, Apply(s, e), SlotOf(e), Apply(s, e).pcs[SlotOf(e)])
  {
    hide CanRun, DoRun, CanCall, DoCall, CanDestroy, DoDestroy, Select, SlotAt, Frame;
  }

  lemma MoveKeepsSlot(s: State, t: State, k: nat, q: Pc, i: nat)
    requires WorkerMove(s, t, k, q) && Frame(s) && SlotAt(s, k) && i < |s.pcs| && SlotAt(s, i)
    ensures SlotAt(t, i)
  {
    hide Created;
  }

  lemma MoveKeepsFrame(s: State, t: State, k: nat, q: Pc)
    requires WorkerMove(s, t, k, q) && Frame(s) && SlotAt(s, k)
    ensures Frame(t)
  {
    hide KillAt, WakeAt, JoinedAt, Exiting;
  }

  /** What a step of pool_kill on slot k means for the slots. */
  ghost predicate KillMove(s: State, t: State, k: int) {
    && Shape(s) && Shape(t) && 0 <= k < |s.pcs| == |t.pcs|
    && t.pcs == s.pcs[k := t.pcs[k]] && t.cancelled == s.cancelled[k := t.cancelled[k]]
    && t.kills == s.kills[k := t.kills[k]] && t.destroyer == s.destroyer && t.queue == s.queue
    && (if (s.kills[k] == Spawning) == (t.kills[k] == Spawning) then t.owner == s.owner
        else if t.kills[k] == Spawning then s.owner == Nobody && t.owner == Killer(k)
        else t.owner == Nobody)
    && (match s.kills[k]
        case NoKill => Usable(s) && t.kills[k] == Found && t.pcs[k] == s.pcs[k] && t.cancelled[k] == s.cancelled[k]
        case Found => t.kills[k] == Joining && t.pcs[k] == s.pcs[k] && t.cancelled[k]
        case Joining => t.kills[k] == Joined && t.pcs[k] == s.pcs[k] == Dead && t.cancelled[k] == s.cancelled[k]
        case Joined => t.kills[k] == Spawning && t.pcs[k] == s.pcs[k] && t.cancelled[k] == s.cancelled[k]
        case Spawning => t.kills[k] == NoKill && t.pcs[k] == Born && !t.cancelled[k])
  }

  lemma KillMoves(s: State, e: Event)
    requires Ready(s, e) && IsKill(e)
    ensures KillMove(s, Apply(s, e), SlotOf(e))
  {
    hide CanRun, DoRun, CanExit, DoExit, CanDestroy, DoDestroy, Select, Awake, SlotAt, Frame, Created;
  }

  lemma KillKeepsSlot(s: State, t: State, k: nat, i: nat)
    requires KillMove(s, t, k) && Frame(s) && SlotAt(s, k) && i < |s.pcs| && SlotAt(s, i)
    ensures SlotAt(t, i)
  {
  }

  lemma KillKeepsFrame(s: State, t: State, k: nat)
    requires KillMove(s, t, k) && Frame(s) && SlotAt(s, k)
    ensures Frame(t)
  {
    hide WakeAt, JoinedAt, Exiting;
  }

  /** What a step of pool_destroy means for the slots. */
  ghost predicate DestroyMove(s: State, t: State) {
    && Shape(s) && Shape(t) && |t.pcs| == |s.pcs| && t.kills == s.kills
    && (t.pcs == s.pcs || t.pcs == Awake(s.pcs)) && (s.destroyer == DestroySet ==> t.pcs == Awake(s.pcs))
    && Destroying(t) && (Destroying(s) || (Created(s) && forall i: nat :: i < |s.kills| ==> s.kills[i] == NoKill))
    && (t.destroyer == DestroySet <==> !Destroying(s))
    && (if DestroyerHolds(s.destroyer) == DestroyerHolds(t.destroyer) then t.owner == s.owner
        else if DestroyerHolds(t.destroyer) then s.owner == Nobody && t.owner == Destroyer
        else t.owner == Nobody)
    && (s.queue == [] ==> t.queue == []) && (t.destroyer == Done ==> t.queue == [])
    && (t.destroyer.DestroyJoining? && t.destroyer.k > 0 ==>
          && s.destroyer.DestroyJoining? && t.destroyer.k == s.destroyer.k + 1 <= |s.pcs|
          && s.pcs[s.destroyer.k] == Dead)
    && (t.destroyer == Freeing || t.destroyer == Done ==>
          (s.destroyer.DestroyJoining? && s.destroyer.k >= |s.pcs|) || s.destroyer == Freeing)
  }

  lemma DestroyStarts(s: State, e: Event)
    requires Ready(s, e) && IsDestroy(e)
    requires e.DestroyLock? || e.DestroyBroadcast? || e.DestroyCancel? || e.DestroyTest?
    ensures DestroyMove(s, Apply(s, e))
  {
    hide CanRun, DoRun, CanExit, DoExit, CanCall, DoCall, Created;
  }

  lemma DestroyWaits(s: State, e: Event)
    requires Ready(s, e) && IsDestroy(e)
    requires !(e.DestroyLock? || e.DestroyBroadcast? || e.DestroyCancel? || e.DestroyTest?)
    ensures DestroyMove(s, Apply(s, e))
  {
    hide CanRun, DoRun, CanExit, DoExit, CanCall, DoCall, Created;
  }

  lemma DestroyMoves(s: State, e: Event)
    requires Ready(s, e) && IsDestroy(e)
    ensures DestroyMove(s, Apply(s, e))
  {
    hide DestroyMove, Apply, Enabled;
    if e.DestroyLock? || e.DestroyBroadcast? || e.DestroyCancel? || e.DestroyTest? {
      DestroyStarts(s, e);
    } else {
      DestroyWaits(s, e);
    }
  }

  lemma DestroyKeepsSlot(s: State, t: State, i: nat)
    requires DestroyMove(s, t) && Frame(s) && i < |s.pcs| && SlotAt(s, i)
    ensures SlotAt(t, i)
  {
    hide Created;
  }

  lemma DestroyKeepsFrame(s: State, t: State)
    requires DestroyMove(s, t) && Frame(s)
    ensures Frame(t)
  {
  }

  lemma OwnerCall(s: State, e: Event, i: nat)
    requires Ready(s, e) && IsCall(e) && !IsKill(e) && i < |s.pcs| && SlotAt(s, i)
    ensures var s' := Apply(s, e); Shape(s') && |s'.pcs| == |s.pcs| && MutexAt(s', i) && KillAt(s', i)
  {
    hide CanRun, DoRun, CanExit, DoExit, CanDestroy, DoDestroy, CanKill, DoKill, Select, WakeAt, JoinedAt;
  }

  lemma SleepCall(s: State, e: Event, i: nat)
    requires Ready(s, e) && IsCall(e) && !IsKill(e) && i < |s.pcs| && SlotAt(s, i)
    ensures var s' := Apply(s, e); Shape(s') && |s'.pcs| == |s.pcs| && WakeAt(s', i) && JoinedAt(s', i)
  {
    hide CanRun, DoRun, CanExit, DoExit, CanDestroy, DoDestroy, Exiting, CanKill, DoKill;
  }

  lemma FrameCall(s: State, e: Event)
    requires Ready(s, e) && IsCall(e) && !IsKill(e)
    ensures var s' := Apply(s, e); Shape(s') && |s'.pcs| == |s.pcs| && Frame(s')
  {
    hide CanRun, DoRun, CanExit, DoExit, CanDestroy, DoDestroy, CanKill, DoKill, Select, WakeAt, JoinedAt;
  }

  lemma IsReady(s: State, e: Event)
    requires SlotInv(s) && Enabled(s, e)
    ensures Ready(s, e)
  {
    hide SlotAt;
  }

  lemma SlotKept(s: State, e: Event)
    requires SlotInv(s) && Enabled(s, e)
    ensures SlotInv(Apply(s, e)) && |Apply(s, e).pcs| == |s.pcs|
  {
    hide Apply, Enabled, MutexAt, KillAt, WakeAt, JoinedAt, Frame;
    IsReady(s, e);
    if IsRun(e) {
      RunMoves(s, e);
      MoveKeepsFrame(s, Apply(s, e), SlotOf(e), Apply(s, e).pcs[SlotOf(e)]);
    } else if IsExit(e) {
      ExitMoves(s, e);
      MoveKeepsFrame(s, Apply(s, e), SlotOf(e), Apply(s, e).pcs[SlotOf(e)]);
    } else if IsCall(e) {
      if IsKill(e) {
        KillMoves(s, e);
        KillKeepsFrame(s, Apply(s, e), SlotOf(e));
      } else {
        FrameCall(s, e);
      }
    } else {
      DestroyMoves(s, e);
      DestroyKeepsFrame(s, Apply(s, e));
    }
    forall i: nat | i < |s.pcs|
      ensures SlotAt(Apply(s, e), i)
    {
      if IsRun(e) {
        RunMoves(s, e);
        MoveKeepsSlot(s, Apply(s, e), SlotOf(e), Apply(s, e).pcs[SlotOf(e)], i);
      } else if IsExit(e) {
        ExitMoves(s, e);
        MoveKeepsSlot(s, Apply(s, e), SlotOf(e), Apply(s, e).pcs[SlotOf(e)], i);
      } else if IsCall(e) {
        if IsKill(e) {
          KillMoves(s, e);
          KillKeepsSlot(s, Apply(s, e), SlotOf(e), i);
        } else {
          OwnerCall(s, e, i);
          SleepCall(s, e, i);
        }
      } else {
        DestroyMoves(s, e);
        DestroyKeepsSlot(s, Apply(s, e), i);
      }
    }
  }

  // ----- nb_alive_threads

  /** The points of a worker between its increment and its decrement. */
  predicate Counted(pc: Pc) {
    pc.Testing? || pc.Asleep? || pc.Popped? || pc.Running? || pc.Relocking? || pc.CancelRelocking? ||
    pc.CancelWaking? || pc.Cleanup?
  }

  function Count(pcs: seq<Pc>): (c: nat)
    ensures c <= |pcs|
  {
    if pcs == [] then 0 else Count(pcs[..|pcs| - 1]) + if Counted(pcs[|pcs| - 1]) then 1 else 0
  }

  lemma {:induction false} CountUpdate(pcs: seq<Pc>, i: nat, pc: Pc)
    requires i < |pcs|
    ensures Count(pcs[i := pc]) + (if Counted(pcs[i]) then 1 else 0) == Count(pcs) + if Counted(pc) then 1 else 0
  {
    hide Counted;
    var n := |pcs| - 1;
    if i == n {
      assert pcs[i := pc][..n] == pcs[..n];
    } else {
      assert pcs[i := pc][..n] == pcs[..n][i := pc];
      CountUpdate(pcs[..n], i, pc);
    }
  }

  lemma {:induction false} CountAwake(pcs: seq<Pc>)
    ensures Count(Awake(pcs)) == Count(pcs)
  {
    if pcs != [] {
      var n := |pcs| - 1;
      assert Awake(pcs)[..n] == Awake(pcs[..n]);
      CountAwake(pcs[..n]);
    }
  }

  lemma {:induction false} CountNone(pcs: seq<Pc>)
    ensures Count(pcs) == 0 <==> forall i :: 0 <= i < |pcs| ==> !Counted(pcs[i])
  {
    if pcs != [] {
      var n := |pcs| - 1;
      CountNone(pcs[..n]);
      assert forall i :: 0 <= i < n ==> pcs[..n][i] == pcs[i];
    }
  }

  /** nb_alive_threads is the number of workers between their increment and their decrement. */
  ghost predicate AliveInv(s: State) {
    s.alive == Count(s.pcs)
  }

  function Weight(pc: Pc): int {
    if Counted(pc) then 1 else 0
  }

  /** One worker moves, and the counter with it. */
  ghost predicate Moves(s: State, t: State, i: int) {
    && 0 <= i < |s.pcs| == |t.pcs| && t.pcs == s.pcs[i := t.pcs[i]]
    && t.alive - s.alive == Weight(t.pcs[i]) - Weight(s.pcs[i])
  }

  /** No worker moves, except for being woken. */
  ghost predicate Stays(s: State, t: State) {
    t.alive == s.alive && (t.pcs == s.pcs || t.pcs == Awake(s.pcs))
  }

  lemma MoveRun(s: State, e: Event)
    requires Ready(s, e) && IsRun(e)
    ensures Moves(s, Apply(s, e), SlotOf(e))
  {
    hide CanExit, DoExit, CanCall, DoCall, CanDestroy, DoDestroy;
  }

  lemma MoveExit(s: State, e: Event)
    requires Ready(s, e) && IsExit(e)
    ensures Moves(s, Apply(s, e), SlotOf(e))
  {
    hide CanRun, DoRun, CanCall, DoCall, CanDestroy, DoDestroy;
  }

  lemma MoveCall(s: State, e: Event)
    requires Ready(s, e) && IsCall(e)
    ensures if e.KillSpawn? then Moves(s, Apply(s, e), SlotOf(e)) else Stays(s, Apply(s, e))
  {
    hide CanRun, DoRun, CanExit, DoExit, CanDestroy, DoDestroy, Select, Created;
  }

  lemma MoveDestroy(s: State, e: Event)
    requires Ready(s, e) && IsDestroy(e)
    ensures Stays(s, Apply(s, e))
  {
    hide CanRun, DoRun, CanExit, DoExit, CanCall, DoCall, Created;
  }

  lemma AliveKept(s: State, e: Event)
    requires SlotInv(s) && AliveInv(s) && Enabled(s, e)
    ensures AliveInv(Apply(s, e))
  {
    hide Apply, Enabled, Count, SlotInv;
    IsReady(s, e);
    if IsRun(e) { MoveRun(s, e); }
    else if IsExit(e) { MoveExit(s, e); }
    else if IsCall(e) { MoveCall(s, e); }
    else { MoveDestroy(s, e); }
    var t := Apply(s, e);
    if Moves(s, t, SlotOf(e)) {
      CountUpdate(s.pcs, SlotOf(e), t.pcs[SlotOf(e)]);
    } else {
      CountAwake(s.pcs);
    }
  }

  // ----- the destroyer's wake-up

  /** An unsignalled sleeping destroyer still has workers to wait for, or the last one is about to signal it. */
  ghost predicate DestroyerWakeInv(s: State) {
    s.destroyer == DestroyAsleep(false) ==>
      s.alive > 0 || (s.owner.Worker? && s.owner.i < |s.pcs| && s.pcs[s.owner.i] == Decremented)
  }

  lemma WakeExit(s: State, e: Event)
    requires SlotInv(s) && DestroyerWakeInv(s) && s.alive >= 0 && Enabled(s, e) && IsExit(e) && Apply(s, e).alive >= 0
    ensures DestroyerWakeInv(Apply(s, e))
  {
    hide CanRun, DoRun, CanCall, DoCall, CanDestroy, DoDestroy, KillAt, WakeAt, JoinedAt;
    assert SlotAt(s, SlotOf(e));
    if s.owner.Worker? { assert SlotAt(s, s.owner.i); }
  }

  lemma WakeRun(s: State, e: Event)
    requires SlotInv(s) && DestroyerWakeInv(s) && s.alive >= 0 && Enabled(s, e) && IsRun(e)
    ensures DestroyerWakeInv(Apply(s, e))
  {
    hide CanExit, DoExit, CanCall, DoCall, CanDestroy, DoDestroy, KillAt, WakeAt, JoinedAt;
    assert SlotAt(s, SlotOf(e));
    if s.owner.Worker? { assert SlotAt(s, s.owner.i); }
  }

  lemma WakeCall(s: State, e: Event)
    requires SlotInv(s) && DestroyerWakeInv(s) && Enabled(s, e) && IsCall(e)
    ensures DestroyerWakeInv(Apply(s, e))
  {
    hide CanRun, DoRun, CanExit, DoExit, CanDestroy, DoDestroy, WakeAt, JoinedAt, Select, Created;
    IsReady(s, e);
  }

  lemma WakeDestroy(s: State, e: Event)
    requires SlotInv(s) && DestroyerWakeInv(s) && s.alive >= 0 && Enabled(s, e) && IsDestroy(e)
    ensures DestroyerWakeInv(Apply(s, e))
  {
    hide CanRun, DoRun, CanExit, DoExit, CanCall, DoCall, SlotAt, Created;
  }

  lemma DestroyerWakeKept(s: State, e: Event)
    requires SlotInv(s) && AliveInv(s) && DestroyerWakeInv(s) && Enabled(s, e)
    ensures DestroyerWakeInv(Apply(s, e))
  {
    hide Apply, Enabled, SlotInv, DestroyerWakeInv, Count;
    AliveKept(s, e);
    if IsRun(e) { WakeRun(s, e); }
    else if IsExit(e) { WakeExit(s, e); }
    else if IsCall(e) { WakeCall(s, e); }
    else { WakeDestroy(s, e); }
  }
}
