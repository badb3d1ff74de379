/** pool_destroy returns: once destroy is set, every step but a spurious wake-up uses up part of a bounded measure. */
module PoolReturn {
  import opened PoolProtocol
  import opened PoolSlots
  import opened PoolRuns
  import opened Runs
  import opened Wrappers

  /** How many steps a worker has left at most before it is dead, if destroy is set. */
  function Rank(pc: Pc): (r: nat)
    ensures r <= 7
  {
    match pc
    case NotCreated => 7
    case Popped(_) => 7
    case Running(_) => 6
    case Born => 6
    case Relocking => 5
    case Asleep(_) => 5
    case Started => 5
    case Testing => 4
    case CancelRelocking => 4
    case CancelWaking => 4
    case Cleanup => 3
    case Decremented => 2
    case Leaving => 1
    case Dead => 0
  }

  function RankSum(pcs: seq<Pc>): (r: nat)
    ensures r <= 7 * |pcs|
  {
    if pcs == [] then 0 else RankSum(pcs[..|pcs| - 1]) + Rank(pcs[|pcs| - 1])
  }

  lemma {:induction false} RankUpdate(pcs: seq<Pc>, i: nat, pc: Pc)
    requires i < |pcs|
    ensures RankSum(pcs[i := pc]) + Rank(pcs[i]) == RankSum(pcs) + Rank(pc)
  {
    hide Rank;
    var n := |pcs| - 1;
    if i == n {
      assert pcs[i := pc][..n] == pcs[..n];
    } else {
      assert pcs[i := pc][..n] == pcs[..n][i := pc];
      RankUpdate(pcs[..n], i, pc);
    }
  }

  lemma {:induction false} RankAwake(pcs: seq<Pc>)
    ensures RankSum(Awake(pcs)) == RankSum(pcs)
  {
    if pcs != [] {
      var n := |pcs| - 1;
      assert Awake(pcs)[..n] == Awake(pcs[..n]);
      RankAwake(pcs[..n]);
    }
  }

  /** The same for the caller of pool_destroy, with n slots; a wake-up takes it two steps back. */
  function DestroyRank(d: DestroyPc, n: nat): (r: nat)
    ensures r <= 2 * n + 6
  {
    match d
    case NoDestroy => 0
    case DestroySet => 2 * n + 6
    case Cancelling(k) => n + 5 + if k <= n then n - k else 0
    case DestroyAsleep(signalled) => if signalled then n + 5 else n + 3
    case DestroyTesting => n + 4
    case DestroyJoining(k) => 2 + if k <= n then n - k else 0
    case Freeing => 1
    case Done => 0
  }

  /** A worker can wake the destroyer once, on its last steps, so its steps weigh more. */
  function Measure(s: State): (m: nat)
    ensures m <= 23 * |s.pcs| + 6 + |s.queue|
  {
    3 * RankSum(s.pcs) + DestroyRank(s.destroyer, |s.pcs|) + |s.queue|
  }

  /** What a step uses up; a spurious wake-up of the destroyer gives back two. */
  function Cost(e: Event): int {
    if e.Spurious? then 0 else if e.DestroySpurious? then -2 else 1
  }

  ghost predicate UsesUp(s: State, t: State, e: Event) {
    var i := SlotOf(e);
    && 0 <= i < |s.pcs| && |t.pcs| == |s.pcs| && t.pcs == s.pcs[i := t.pcs[i]] && t.queue == s.queue
    && (if e.Spurious? then Rank(t.pcs[i]) == Rank(s.pcs[i]) else Rank(t.pcs[i]) < Rank(s.pcs[i]))
    && DestroyRank(t.destroyer, |s.pcs|) <= DestroyRank(s.destroyer, |s.pcs|) + (if e.Broadcast? then 2 else 0)
  }

  lemma RunUsesUp(s: State, e: Event)
    requires SlotInv(s) && Destroying(s) && Enabled(s, e) && IsRun(e)
    ensures UsesUp(s, Apply(s, e), e)
  {
    hide CanExit, DoExit, CanCall, DoCall, CanDestroy, DoDestroy, SlotAt, DestroyRank;
  }

  lemma ExitUsesUp(s: State, e: Event)
    requires SlotInv(s) && Destroying(s) && Enabled(s, e) && IsExit(e)
    ensures UsesUp(s, Apply(s, e), e)
  {
    hide CanRun, DoRun, CanCall, DoCall, CanDestroy, DoDestroy, SlotAt;
  }

  lemma StepOfMove(s: State, e: Event)
    requires SlotInv(s) && Destroying(s) && Shape(s) && Enabled(s, e) && (IsRun(e) || IsExit(e))
    ensures Measure(Apply(s, e)) + Cost(e) <= Measure(s)
  {
    hide SlotInv, Enabled, Apply, RankSum, Rank, DestroyRank;
    if IsRun(e) { RunUsesUp(s, e); } else { ExitUsesUp(s, e); }
    RankUpdate(s.pcs, SlotOf(e), Apply(s, e).pcs[SlotOf(e)]);
  }

  lemma StepOfDestroy(s: State, e: Event)
    requires SlotInv(s) && Destroying(s) && Enabled(s, e) && IsDestroy(e)
    ensures Measure(Apply(s, e)) + Cost(e) <= Measure(s)
  {
    hide CanRun, DoRun, CanExit, DoExit, CanCall, DoCall, SlotAt, RankSum, Awake;
    RankAwake(s.pcs);
  }

  /** No call of the other functions is in progress. */
  lemma NoCallsLeft(s: State, e: Event)
    requires SlotInv(s) && Destroying(s) && IsCall(e)
    ensures Shape(s) && !Enabled(s, e)
  {
    hide CanRun, DoRun, CanExit, DoExit, CanDestroy, DoDestroy, MutexAt, WakeAt, JoinedAt, Select;
    if 0 <= SlotOf(e) < |s.pcs| { assert SlotAt(s, SlotOf(e)); }
  }

  lemma StepCosts(s: State, e: Event)
    requires SlotInv(s) && Destroying(s) && Shape(s) && Enabled(s, e)
    ensures Measure(Apply(s, e)) + Cost(e) <= Measure(s)
  {
    hide SlotInv, Enabled, Apply, Measure, Destroying, Shape;
    if IsRun(e) || IsExit(e) { StepOfMove(s, e); }
    else if IsCall(e) { NoCallsLeft(s, e); }
    else { StepOfDestroy(s, e); }
  }

  /** The steps of a run that are not spurious wake-ups, and the spurious wake-ups of the destroyer. */
  function Plain(events: seq<Event>): nat {
    if events == [] then 0
    else (if events[0].Spurious? || events[0].DestroySpurious? then 0 else 1) + Plain(events[1..])
  }

  function Wakes(events: seq<Event>): nat {
    if events == [] then 0 else (if events[0].DestroySpurious? then 1 else 0) + Wakes(events[1..])
  }

  lemma {:induction false} RunCosts(s: State, events: seq<Event>, t: State)
    requires Inv(s) && Destroying(s) && Leads(Step, s, events, t)
    ensures Measure(t) + Plain(events) <= Measure(s) + 2 * Wakes(events)
    decreases |events|
  {
    hide Inv, Apply, Enabled, Destroying, Shape, Measure;
    if events != [] {
      var u := Apply(s, events[0]);
      InvParts(s);
      InvStep(s, events[0]);
      NoStartAfterDestroy(s, events[0]);
      StepCosts(s, events[0]);
      RunCosts(u, events[1..], t);
    }
  }

  /** From the moment destroy is set the steps of any run, spurious wake-ups aside, are bounded by the number of
      workers, the jobs queued and the spurious wake-ups of the destroyer. */
  lemma DestructionIsBounded(n: nat, s: State, events: seq<Event>, t: State)
    requires Reachable(n, s) && Destroying(s) && Leads(Step, s, events, t)
    ensures Plain(events) <= 23 * n + 6 + |s.queue| + 2 * Wakes(events)
  {
    hide Reachable, Inv, Leads, Destroying;
    ReachableInv(n, s);
    RunCosts(s, events, t);
  }

  lemma {:induction false} NoneSpurious(events: seq<Event>)
    requires forall e <- events :: !e.Spurious? && !e.DestroySpurious?
    ensures Plain(events) == |events| && Wakes(events) == 0
  {
    if events != [] {
      assert events[0] in events;
      NoneSpurious(events[1..]);
    }
  }

  /** pool_destroy returns: a run without spurious wake-ups has at most that many steps left once destroy is set, and
      when nobody can move any more, but for a spurious wake-up or a job that ends by itself, pool_destroy has
      returned. */
  lemma DestroyReturns(n: nat, s: State, events: seq<Event>, t: State)
    requires Reachable(n, s) && Destroying(s) && Leads(Step, s, events, t)
    requires forall e <- events :: !e.Spurious? && !e.DestroySpurious?
    ensures |events| <= 23 * n + 6 + |s.queue|
    ensures (forall e :: Step(t, e).Some? ==> !Unaided(e)) ==> t.destroyer == Done
  {
    hide Inv, Leads, Enabled, Apply, Shape, Plain, Wakes;
    DestructionIsBounded(n, s, events, t);
    NoneSpurious(events);
    ReachableInv(n, s);
    InvLeads(s, events, t);
    ReachesLater(n, s, events, t);
    if t.destroyer != Done {
      DestroyNeverStuck(n, t);
      var e :| Enabled(t, e) && Unaided(e);
      assert Step(t, e).Some?;
    }
  }

  lemma ReachesLater(n: nat, s: State, events: seq<Event>, t: State)
    requires Reachable(n, s) && Leads(Step, s, events, t)
    ensures Reachable(n, t)
  {
    hide Leads;
    ReachesOn(Step, Init(n), s, events, t);
  }
}
