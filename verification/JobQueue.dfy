/** The job queue of a pool on the heap: a singly linked list with a head and a tail, changed under the pool's mutex. */
module JobQueue {
  import opened Sequences

  class Job {
    var next: Job?
    const arg: nat

    constructor (arg: nat)
      ensures next == null && this.arg == arg
    {
      next, this.arg := null, arg;
    }
  }

  /** The jobs whose argument is not arg, in order. */
  function Keep(jobs: seq<Job>, arg: nat): seq<Job>
  {
    if jobs == [] then []
    else
      var front, last := jobs[..|jobs| - 1], jobs[|jobs| - 1];
      if last.arg == arg then Keep(front, arg) else Keep(front, arg) + [last]
  }

  ghost predicate Linked(head: Job?, jobs: seq<Job>)
    reads jobs
  {
    && Distinct(jobs)
    && head == At(jobs, 0)
    && forall i {:trigger jobs[i].next} :: 0 <= i < |jobs| ==> jobs[i].next == At(jobs, i + 1)
  }

  /** The job at position i, or null at the end. */
  function At(jobs: seq<Job>, i: nat): Job?
    requires i <= |jobs|
  {
    if i < |jobs| then jobs[i] else null
  }

  lemma LinkedAt(head: Job?, jobs: seq<Job>, m: nat)
    requires Linked(head, jobs) && m <= |jobs|
    ensures Distinct(jobs) && head == At(jobs, 0)
    ensures m > 0 ==> jobs[m - 1].next == At(jobs, m)
  {
  }

  lemma LinkedTail(head: Job?, jobs: seq<Job>)
    requires Linked(head, jobs) && jobs != []
    ensures Linked(jobs[0].next, jobs[1..])
  {
    var rest := jobs[1..];
    assert Distinct(rest) && jobs[0].next == At(rest, 0);
    forall i | 0 <= i < |rest|
      ensures rest[i].next == At(rest, i + 1)
    {
      assert rest[i] == jobs[i + 1] && jobs[i + 1].next == At(jobs, i + 2);
    }
  }

  /** A flush leaves jobq_tail on a freed node: jobs remain and the last two jobs both matched. */
  predicate LosesTail(jobs: seq<Job>, arg: nat) {
    Keep(jobs, arg) != [] && |jobs| >= 2 && jobs[|jobs| - 1].arg == arg && jobs[|jobs| - 2].arg == arg
  }

  /** The jobs for arg, in order. */
  function Matching(jobs: seq<Job>, arg: nat): seq<Job> {
    if jobs == [] then []
    else
      var front, last := jobs[..|jobs| - 1], jobs[|jobs| - 1];
      Matching(front, arg) + if last.arg == arg then [last] else []
  }

  lemma {:induction false} KeepMembers(jobs: seq<Job>, arg: nat)
    ensures forall j <- Keep(jobs, arg) :: j in jobs && j.arg != arg
    ensures forall j <- jobs :: j.arg != arg ==> j in Keep(jobs, arg)
  {
    if jobs != [] {
      KeepMembers(jobs[..|jobs| - 1], arg);
    }
  }

  lemma KeepNext(jobs: seq<Job>, arg: nat, k: nat)
    requires k < |jobs|
    ensures Keep(jobs[..k + 1], arg) == Keep(jobs[..k], arg) + (if jobs[k].arg == arg then [] else [jobs[k]])
  {
    assert jobs[..k + 1][..k] == jobs[..k];
  }

  lemma KeepNone(arg: nat)
    ensures Keep([], arg) == []
  {
  }

  /** jobq_tail after the first k jobs have been examined. */
  ghost function TailAfter(jobs: seq<Job>, arg: nat, tail: Job?, k: nat): Job?
    requires k <= |jobs|
  {
    if k == 0 then tail
    else if jobs[k - 1].arg != arg then jobs[k - 1]
    else if k < |jobs| then jobs[k]
    else TailAfter(jobs, arg, tail, k - 1)
  }

  /** After all jobs have been examined the tail is the last job kept, unless LosesTail. */
  lemma TailAtEnd(jobs: seq<Job>, arg: nat, tail: Job?)
    requires Distinct(jobs)
    ensures var kept := Keep(jobs, arg);
            (kept != [] ==> TailAfter(jobs, arg, tail, |jobs|) == kept[|kept| - 1]) <==> !LosesTail(jobs, arg)
  {
    hide Keep, Distinct;
    var n, kept := |jobs|, Keep(jobs, arg);
    KeepNone(arg);
    assert jobs[..n] == jobs && jobs[..0] == [];
    if kept != [] {
      KeepNext(jobs, arg, n - 1);
      if n >= 2 { KeepNext(jobs, arg, n - 2); }
      KeepMembers(jobs, arg);
      assert kept[|kept| - 1] in kept;
    }
  }

  /** The daemon queues each request once; then a flush keeps the tail. */
  lemma OneJobPerArgument(jobs: seq<Job>, arg: nat)
    requires forall i, j :: 0 <= i < j < |jobs| ==> jobs[i].arg != arg || jobs[j].arg != arg
    ensures !LosesTail(jobs, arg)
  {
    if |jobs| >= 2 {
      assert jobs[|jobs| - 2].arg != arg || jobs[|jobs| - 1].arg != arg;
    }
  }

  lemma LosesTailExample(kept: Job, first: Job, second: Job)
    requires kept.arg != first.arg == second.arg
    ensures LosesTail([kept, first, second], first.arg)
  {
    KeepMembers([kept, first, second], first.arg);
    assert kept in [kept, first, second];
  }

  /** The chain after the link to job m was redirected to job m + 1. */
  lemma Relinked(all: seq<Job>, m: nat)
    requires m < |all| && Distinct(all)
    requires m > 0 ==> all[m - 1].next == At(all, m + 1)
    requires forall p {:trigger all[p].next} :: 0 <= p < |all| && p != m && p + 1 != m ==> all[p].next == At(all, p + 1)
    ensures Linked(At(all[..m] + all[m + 1..], 0), all[..m] + all[m + 1..])
  {
    var jobs := all[..m] + all[m + 1..];
    assert forall i :: 0 <= i < |jobs| ==> jobs[i] == if i < m then all[i] else all[i + 1];
    forall i | 0 <= i < |jobs|
      ensures jobs[i].next == At(jobs, i + 1)
    {
      var p := if i < m then i else i + 1;
      assert p + 1 != m ==> all[p].next == At(all, p + 1);
    }
  }

  /** What a pointer to a pointer to a job can point at. */
  datatype Link = HeadField | NextField(job: Job)

  function Target(link: Link): set<object> {
    if link.NextField? then {link.job} else {}
  }

  // ----- the state of a flush after the first k jobs have been examined

  /** The queue, and the number of jobs kept so far. */
  function Queued(all: seq<Job>, arg: nat, k: nat): seq<Job>
    requires k <= |all|
  {
    Keep(all[..k], arg) + all[k..]
  }

  function Kept(all: seq<Job>, arg: nat, k: nat): (m: nat)
    requires k <= |all|
    ensures m <= |Queued(all, arg, k)|
  {
    |Keep(all[..k], arg)|
  }

  function Freed(freed: seq<Job>, all: seq<Job>, arg: nat, k: nat): seq<Job>
    requires k <= |all|
  {
    freed + Matching(all[..k], arg)
  }

  /** The link that points at the pointer to job m. */
  function LinkTo(jobs: seq<Job>, m: nat): Link
    requires m <= |jobs|
  {
    if m == 0 then HeadField else NextField(jobs[m - 1])
  }

  lemma MoreToDo(all: seq<Job>, arg: nat, k: nat)
    requires k <= |all|
    ensures k < |all| <==> Kept(all, arg, k) < |Queued(all, arg, k)|
  {
  }

  lemma FlushStart(all: seq<Job>, arg: nat, tail: Job?, freed: seq<Job>)
    ensures TailAfter(all, arg, tail, 0) == tail && LinkTo(all, 0) == HeadField
    ensures Queued(all, arg, 0) == all && Kept(all, arg, 0) == 0 && Freed(freed, all, arg, 0) == freed
  {
  }

  lemma FlushEnd(all: seq<Job>, arg: nat, freed: seq<Job>)
    ensures Queued(all, arg, |all|) == Keep(all, arg) && Kept(all, arg, |all|) == |Keep(all, arg)|
    ensures Freed(freed, all, arg, |all|) == freed + Matching(all, arg)
  {
    assert all[..|all|] == all;
  }

  lemma FlushNext(all: seq<Job>, arg: nat, tail: Job?, freed: seq<Job>, k: nat)
    requires k < |all|
    ensures
      var jobs, m := Queued(all, arg, k), Kept(all, arg, k);
      && m < |jobs| && jobs[m] == all[k] && (m + 1 < |jobs| <==> k + 1 < |all|)
      && (k + 1 < |all| ==> jobs[m + 1] == all[k + 1])
      && if all[k].arg == arg then
           && Queued(all, arg, k + 1) == jobs[..m] + jobs[m + 1..] && Kept(all, arg, k + 1) == m
           && LinkTo(Queued(all, arg, k + 1), m) == LinkTo(jobs, m)
           && Freed(freed, all, arg, k + 1) == Freed(freed, all, arg, k) + [all[k]]
           && TailAfter(all, arg, tail, k + 1) == if k + 1 < |all| then all[k + 1] else TailAfter(all, arg, tail, k)
         else
           && Queued(all, arg, k + 1) == jobs && Kept(all, arg, k + 1) == m + 1
           && LinkTo(jobs, m + 1) == NextField(all[k])
           && Freed(freed, all, arg, k + 1) == Freed(freed, all, arg, k)
           && TailAfter(all, arg, tail, k + 1) == all[k]
  {
    assert all[..k + 1][..k] == all[..k];
    var kept := Keep(all[..k], arg);
    assert all[k..] == [all[k]] + all[k + 1..];
    assert kept + all[k..] == (kept + [all[k]]) + all[k + 1..];
  }

  class Queue {
    var head: Job?
    var tail: Job?
    /** The abstract queue, and the nodes freed so far. */
    ghost var jobs: seq<Job>
    ghost var freed: seq<Job>

    /** The list is well formed and shares no node with the freed ones; the tail is not constrained. */
    ghost predicate Chained()
      reads this, jobs
    {
      Linked(head, jobs) && forall j <- jobs :: j !in freed
    }

    /** The tail is the last job, if there is one; on an empty queue it may be stale. */
    ghost predicate Valid()
      reads this, jobs
    {
      Chained() && (jobs != [] ==> tail == jobs[|jobs| - 1])
    }

    constructor ()
      ensures Valid() && jobs == [] && freed == []
    {
      head, tail, jobs, freed := null, null, [], [];
    }

    /** pool_queue, between lock and broadcast. */
    method Push(arg: nat) returns (job: Job)
      requires Valid()
      modifies this, jobs
      ensures Valid() && fresh(job) && job.arg == arg
      ensures jobs == old(jobs) + [job] && freed == old(freed)
    {
      job := new Job(arg);
      if head == null {
        head := job;
      } else {
        tail.next := job;
      }
      tail := job;
      jobs := jobs + [job];
    }

    /** worker_thread taking the first job; it frees the node once it is out of the critical section. */
    method Pop() returns (job: Job)
      requires Valid() && jobs != []
      modifies this
      ensures Valid() && job == old(jobs)[0] && jobs == old(jobs)[1..] && freed == old(freed)
    {
      LinkedTail(head, jobs);
      job := head;
      head := job.next;
      if job == tail {
        tail := null;
      }
      jobs := jobs[1..];
    }

    function Read(link: Link): Job?
      reads this, if link.NextField? then {link.job} else {}
    {
      match link
      case HeadField => head
      case NextField(job) => job.next
    }

    /** *link = (*link)->next, then free the job unlinked; link points at the pointer to job m. */
    method Unlink(link: Link, ghost m: nat)
      requires Chained() && m < |jobs|
      requires link == LinkTo(jobs, m)
      modifies this, Target(link)
      ensures Chained() && jobs == old(jobs[..m] + jobs[m + 1..])
      ensures tail == old(tail) && freed == old(freed) + [old(jobs[m])]
    {
      ghost var all := jobs;
      assert all[m].next == At(all, m + 1) && (m > 0 ==> all[m - 1].next == all[m]);
      var removed := Read(link);
      match link {
        case HeadField => head := removed.next;
        case NextField(job) => job.next := removed.next;
      }
      freed := freed + [removed];
      jobs := all[..m] + all[m + 1..];
      Relinked(all, m);
    }

    /** One turn of the loop of pool_flush_by_arg, on job m. */
    method Examine(link: Link, arg: nat, ghost m: nat) returns (next: Link)
      requires Chained() && m < |jobs|
      requires link == LinkTo(jobs, m)
      modifies this, Target(link)
      ensures Chained()
      ensures
        if old(jobs[m]).arg == arg then
          && next == link && jobs == old(jobs[..m] + jobs[m + 1..]) && freed == old(freed) + [old(jobs[m])]
          && tail == old(if m + 1 < |jobs| then jobs[m + 1] else tail)
        else
          next == NextField(old(jobs[m])) && jobs == old(jobs) && freed == old(freed) && tail == old(jobs[m])
    {
      LinkedAt(head, jobs, m);
      var job := Read(link);
      if job.arg == arg {
        Unlink(link, m);
        LinkedAt(head, jobs, m);
        if Read(link) != null {
          tail := Read(link);
        }
        next := link;
      } else {
        tail := job;
        next := NextField(job);
      }
    }

    lemma IsDistinct()
      requires Chained()
      ensures Distinct(jobs)
    {
    }

    lemma ReadsJob(link: Link, m: nat)
      requires Chained() && m <= |jobs|
      requires link == LinkTo(jobs, m)
      ensures Read(link) == At(jobs, m)
    {
      LinkedAt(head, jobs, m);
    }

    /** pool_flush_by_arg: exactly the jobs for arg leave the queue and are freed, the others keep their order; the
        tail is right afterwards unless LosesTail. */
    method FlushByArg(arg: nat)
      requires Valid()
      modifies this, jobs
      ensures Chained() && jobs == Keep(old(jobs), arg)
      ensures freed == old(freed) + Matching(old(jobs), arg)
      ensures Valid() <==> !LosesTail(old(jobs), arg)
    {
      hide Keep, Matching, TailAfter, LosesTail, Linked, Distinct, Chained, Queued, Kept, Freed, LinkTo;
      ghost var all, tail0, k := jobs, tail, 0;
      var pjob := HeadField;
      IsDistinct();
      FlushStart(all, arg, tail0, freed);
      ReadsJob(pjob, 0);
      while Read(pjob) != null
        invariant k <= |all| && jobs == Queued(all, arg, k) && pjob == LinkTo(jobs, Kept(all, arg, k))
        invariant Chained() && Read(pjob) == At(jobs, Kept(all, arg, k))
        invariant tail == TailAfter(all, arg, tail0, k) && freed == Freed(old(freed), all, arg, k)
        invariant pjob.NextField? ==> pjob.job in old(jobs)
        decreases |all| - k
      {
        MoreToDo(all, arg, k);
        FlushNext(all, arg, tail0, old(freed), k);
        pjob := Examine(pjob, arg, Kept(all, arg, k));
        k := k + 1;
        ReadsJob(pjob, Kept(all, arg, k));
      }
      MoreToDo(all, arg, k);
      FlushEnd(all, arg, old(freed));
      TailAtEnd(all, arg, tail0);
    }

    /** One turn of the last loop of pool_destroy; the tail is not touched any more. */
    method FreeFirst()
      requires Chained() && jobs != []
      modifies this
      ensures Chained() && jobs == old(jobs)[1..] && freed == old(freed) + [old(jobs)[0]]
      ensures old(Valid()) ==> Valid()
    {
      var job := head;
      LinkedTail(head, jobs);
      head := job.next;
      freed := freed + [job];
      jobs := jobs[1..];
    }

    /** The last loop of pool_destroy. */
    method FreeAll()
      requires Chained()
      modifies this
      ensures Chained() && jobs == [] && freed == old(freed) + old(jobs)
    {
      ghost var k, all := 0, jobs;
      while head != null
        invariant k <= |all| && jobs == all[k..] && freed == old(freed) + all[..k]
        invariant Chained()
        decreases |all| - k
      {
        FreeFirst();
        k := k + 1;
      }
    }
  }
}
