/** Runs of a step system: sequences of events, each of which can happen in the state that those before it lead to. */
module Runs {
  import opened Wrappers

  /** The events can happen one after the other and lead from s to t. */
  ghost predicate Leads<S, E>(step: (S, E) -> Option<S>, s: S, events: seq<E>, t: S)
    decreases |events|
  {
    if events == [] then s == t
    else step(s, events[0]).Some? && Leads(step, step(s, events[0]).value, events[1..], t)
  }

  /** Some run leads from s to t. */
  ghost predicate Reaches<S, E(!new)>(step: (S, E) -> Option<S>, s: S, t: S) {
    exists events :: Leads(step, s, events, t)
  }

  ghost predicate EveryStepKeeps<S(!new), E(!new)>(step: (S, E) -> Option<S>, inv: S -> bool) {
    forall s, e :: inv(s) && step(s, e).Some? ==> inv(step(s, e).value)
  }

  /** What every step keeps, every run keeps. */
  lemma {:induction false} RunKeeps<S(!new), E(!new)>(step: (S, E) -> Option<S>, inv: S -> bool, s: S, events: seq<E>,
      t: S)
    requires EveryStepKeeps(step, inv) && inv(s) && Leads(step, s, events, t)
    ensures inv(t)
    decreases |events|
  {
    if events != [] {
      RunKeeps(step, inv, step(s, events[0]).value, events[1..], t);
    }
  }

  lemma ReachesItself<S, E(!new)>(step: (S, E) -> Option<S>, s: S)
    ensures Reaches(step, s, s)
  {
    assert Leads(step, s, [], s);
  }

  lemma ReachesKeeps<S(!new), E(!new)>(step: (S, E) -> Option<S>, inv: S -> bool, s: S, t: S)
    requires EveryStepKeeps(step, inv) && inv(s) && Reaches(step, s, t)
    ensures inv(t)
  {
    var events :| Leads(step, s, events, t);
    RunKeeps(step, inv, s, events, t);
  }

  /** Two runs, one after the other. */
  lemma {:induction false} Joined<S, E>(step: (S, E) -> Option<S>, s: S, events: seq<E>, t: S, more: seq<E>, u: S)
    requires Leads(step, s, events, t) && Leads(step, t, more, u)
    ensures Leads(step, s, events + more, u)
    decreases |events|
  {
    if events == [] {
      assert events + more == more;
    } else {
      Joined(step, step(s, events[0]).value, events[1..], t, more, u);
      assert (events + more)[1..] == events[1..] + more;
    }
  }

  lemma ReachesOn<S, E(!new)>(step: (S, E) -> Option<S>, s: S, t: S, more: seq<E>, u: S)
    requires Reaches(step, s, t) && Leads(step, t, more, u)
    ensures Reaches(step, s, u)
  {
    var events :| Leads(step, s, events, t);
    Joined(step, s, events, t, more, u);
  }

  /** One more step of a run. */
  lemma ReachesNext<S, E(!new)>(step: (S, E) -> Option<S>, s: S, t: S, e: E, u: S)
    requires Reaches(step, s, t) && step(t, e) == Some(u)
    ensures Reaches(step, s, u)
  {
    assert Leads(step, u, [], u) && Leads(step, t, [e], u);
    ReachesOn(step, s, t, [e], u);
  }

  /** A run passes through one state after its first k events. */
  lemma {:induction false} PassesThrough<S, E>(step: (S, E) -> Option<S>, s: S, events: seq<E>, t: S, k: nat)
    returns (u: S)
    requires Leads(step, s, events, t) && k <= |events|
    ensures Leads(step, s, events[..k], u) && Leads(step, u, events[k..], t)
    decreases k
  {
    if k == 0 {
      assert events[..0] == [] && events[0..] == events;
      u := s;
    } else {
      u := PassesThrough(step, step(s, events[0]).value, events[1..], t, k - 1);
      assert events[1..][..k - 1] == events[..k][1..] && events[1..][k - 1..] == events[k..];
    }
  }

  lemma {:induction false} OneEnd<S, E>(step: (S, E) -> Option<S>, s: S, events: seq<E>, t: S, u: S)
    requires Leads(step, s, events, t) && Leads(step, s, events, u)
    ensures t == u
    decreases |events|
  {
    if events != [] { OneEnd(step, step(s, events[0]).value, events[1..], t, u); }
  }
}
