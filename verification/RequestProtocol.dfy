/** The life of a client's requests as a step system: one thread per client reads, queues and finally cleans up its
    requests, and the workers of two pools run them, in any interleaving. */
module RequestProtocol {
  import opened Wrappers

  datatype Pool = Slow | Fast

  /** Where a worker is with the request it took. */
  datatype Point =
    | Popped        // before the first sem_wait of client_request_handler
    | Locked        // has req_lock
    | CountedIn     // has req_lock, has incremented nb_requests
    | Marked        // has req_lock, has set tid and assigned
    | Running       // in r->handler, or waiting for req_lock after it
    | Looking       // in a handler that has taken req_lock
    | Ending        // has req_lock
    | Unlisted      // has req_lock, has removed the request from the list
    | CountedOut    // has req_lock, has decremented nb_requests
    | Freeing       // has released req_lock, about to free the request

  datatype At = Idle | On(point: Point, r: nat) | Dead

  /** A thread id is a position in the sequence of all threads ever created. */
  datatype Thread = Thread(pool: Pool, at: At, cancelled: bool)

  /** stage is history: who has to deal with the request next. */
  datatype Stage = Made | Queued | Held(w: nat) | Dropped | Freed

  /** started is the field assigned of struct client_request. */
  datatype Request = Request(client: nat, pool: Pool, started: bool, tid: nat, stage: Stage)

  /** The thread of a client, in handle_requests and then in handle_client. */
  datatype Phase =
    | Reading
    | Admitted          // the test of nb_requests let the message through
    | Queueing(r: nat)  // has listed the request, about to call pool_queue
    | Leaving           // has left handle_requests
    | Cleaning          // has req_lock, at the head of the clean-up loop
    | Killing           // has req_lock, has cancelled the head's worker and joins it
    | Gone              // has released req_lock and freed the client

  datatype Holder = Nobody | Owner | Worker(w: nat)

  /** list is the requests chained from client->requests, and from tmp in the clean-up loop. */
  datatype Client = Client(phase: Phase, list: seq<nat>, nb: int, lock: Holder)

  datatype State = State(threads: seq<Thread>, requests: seq<Request>, clients: seq<Client>, max: int)

  datatype Event =
    | NewClient
    | Check(c: nat) | List(c: nat, pool: Pool) | Queue(c: nat) | Quit(c: nat)
    | CleanLock(c: nat) | CleanFlush(c: nat) | CleanKill(c: nat) | CleanReap(c: nat) | CleanEnd(c: nat)
    | Pop(w: nat, r: nat) | Advance(w: nat) | Look(w: nat) | Die(w: nat)

  function Init(slow: nat, fast: nat, max: int): State {
    State(seq(slow, _ => Thread(Slow, Idle, false)) + seq(fast, _ => Thread(Fast, Idle, false)), [], [], max)
  }

  /** client_request_remove */
  function Drop(list: seq<nat>, r: nat): seq<nat> {
    if list == [] then []
    else if list[0] == r then list[1..]
    else [list[0]] + Drop(list[1..], r)
  }

  predicate IsWorker(e: Event) {
    e.Pop? || e.Advance? || e.Look? || e.Die?
  }

  /** The worker is at a point of a request that has not been freed. */
  predicate Safe(s: State, w: nat) {
    && w < |s.threads| && s.threads[w].at.On?
    && s.threads[w].at.r < |s.requests| && s.requests[s.threads[w].at.r].stage != Freed
    && s.requests[s.threads[w].at.r].client < |s.clients|
  }

  function PointOf(s: State, w: nat): Point
    requires Safe(s, w)
  {
    s.threads[w].at.point
  }

  function ClientOf(s: State, w: nat): (c: nat)
    requires Safe(s, w)
    ensures c < |s.clients|
  {
    s.requests[s.threads[w].at.r].client
  }

  predicate CanWork(s: State, e: Event)
    requires IsWorker(e)
  {
    match e
    case Pop(w, r) =>
      && w < |s.threads| && s.threads[w].at == Idle
      && r < |s.requests| && s.requests[r].stage == Queued && s.requests[r].pool == s.threads[w].pool
    case Advance(w) =>
      Safe(s, w) && (PointOf(s, w) == Popped || PointOf(s, w) == Running ==> s.clients[ClientOf(s, w)].lock == Nobody)
    case Look(w) => Safe(s, w) && PointOf(s, w) == Running && s.clients[ClientOf(s, w)].lock == Nobody
    case Die(w) => Safe(s, w) && PointOf(s, w) == Running && s.threads[w].cancelled
  }

  predicate CanServe(s: State, e: Event)
    requires !IsWorker(e)
  {
    if e.NewClient? then true
    else
      e.c < |s.clients| &&
      var c := s.clients[e.c];
      match e
      case Check(_) => c.phase == Reading && c.lock == Nobody
      case List(_, _) => c.phase == Admitted && c.lock == Nobody
      case Queue(_) => c.phase.Queueing? && c.phase.r < |s.requests|
      case Quit(_) => c.phase == Reading
      case CleanLock(_) => c.phase == Leaving && c.lock == Nobody
      case CleanFlush(_) =>
        c.phase == Cleaning && c.list != [] && c.list[0] < |s.requests| && !s.requests[c.list[0]].started
      case CleanKill(_) =>
        && c.phase == Cleaning && c.list != [] && c.list[0] < |s.requests| && s.requests[c.list[0]].started
        && s.requests[c.list[0]].tid < |s.threads|
      case CleanReap(_) =>
        && c.phase == Killing && c.list != [] && c.list[0] < |s.requests|
        && s.requests[c.list[0]].tid < |s.threads| && s.threads[s.requests[c.list[0]].tid].at == Dead
      case CleanEnd(_) => c.phase == Cleaning && c.list == []
  }

  predicate Enabled(s: State, e: Event) {
    if IsWorker(e) then CanWork(s, e) else CanServe(s, e)
  }

  function Move(s: State, w: nat, p: Point): seq<Thread>
    requires Safe(s, w)
  {
    s.threads[w := s.threads[w].(at := On(p, s.threads[w].at.r))]
  }

  function WithLock(s: State, c: nat, h: Holder): seq<Client>
    requires c < |s.clients|
  {
    s.clients[c := s.clients[c].(lock := h)]
  }

  function DoAdvance(s: State, w: nat): State
    requires CanWork(s, Advance(w))
  {
    var r := s.threads[w].at.r;
    var c := ClientOf(s, w);
    match PointOf(s, w)
    case Popped => s.(threads := Move(s, w, Locked), clients := WithLock(s, c, Worker(w)))
    case Locked => s.(threads := Move(s, w, CountedIn),
        clients := s.clients[c := s.clients[c].(nb := s.clients[c].nb + 1)])
    case CountedIn => s.(threads := Move(s, w, Marked),
        requests := s.requests[r := s.requests[r].(started := true, tid := w)])
    case Marked => s.(threads := Move(s, w, Running), clients := WithLock(s, c, Nobody))
    case Running => s.(threads := Move(s, w, Ending), clients := WithLock(s, c, Worker(w)))
    case Looking => s.(threads := Move(s, w, Running), clients := WithLock(s, c, Nobody))
    case Ending => s.(threads := Move(s, w, Unlisted),
        clients := s.clients[c := s.clients[c].(list := Drop(s.clients[c].list, r))])
    case Unlisted => s.(threads := Move(s, w, CountedOut),
        clients := s.clients[c := s.clients[c].(nb := s.clients[c].nb - 1)])
    case CountedOut => s.(threads := Move(s, w, Freeing), clients := WithLock(s, c, Nobody))
    case Freeing => s.(threads := s.threads[w := s.threads[w].(at := Idle)],
        requests := s.requests[r := s.requests[r].(stage := Freed)])
  }

  function DoWork(s: State, e: Event): State
    requires IsWorker(e) && CanWork(s, e)
  {
    match e
    case Pop(w, r) =>
      s.(threads := s.threads[w := s.threads[w].(at := On(Popped, r))],
          requests := s.requests[r := s.requests[r].(stage := Held(w))])
    case Advance(w) => DoAdvance(s, w)
    case Look(w) => s.(threads := Move(s, w, Looking), clients := WithLock(s, ClientOf(s, w), Worker(w)))
    case Die(w) =>
      var r := s.threads[w].at.r;
      s.(threads := s.threads[w := s.threads[w].(at := Dead)],
          requests := s.requests[r := s.requests[r].(stage := Dropped)])
  }

  function DoServe(s: State, e: Event): State
    requires !IsWorker(e) && CanServe(s, e)
  {
    if e.NewClient? then s.(clients := s.clients + [Client(Reading, [], 0, Nobody)])
    else
      var c := s.clients[e.c];
      match e
      case Check(_) => s.(clients := s.clients[e.c := c.(phase := if c.nb == s.max then Reading else Admitted)])
      case List(_, pool) =>
        s.(requests := s.requests + [Request(e.c, pool, false, 0, Made)],
           clients := s.clients[e.c := c.(phase := Queueing(|s.requests|), list := [|s.requests|] + c.list)])
      case Queue(_) =>
        s.(requests := s.requests[c.phase.r := s.requests[c.phase.r].(stage := Queued)],
            clients := s.clients[e.c := c.(phase := Reading)])
      case Quit(_) => s.(clients := s.clients[e.c := c.(phase := Leaving)])
      case CleanLock(_) => s.(clients := s.clients[e.c := c.(phase := Cleaning, lock := Owner)])
      case CleanFlush(_) =>
        s.(requests := s.requests[c.list[0] := s.requests[c.list[0]].(stage := Freed)],
            clients := s.clients[e.c := c.(list := c.list[1..])])
      case CleanKill(_) =>
        var tid := s.requests[c.list[0]].tid;
        s.(threads := s.threads[tid := s.threads[tid].(cancelled := true)],
            clients := s.clients[e.c := c.(phase := Killing)])
      case CleanReap(_) =>
        var tid := s.requests[c.list[0]].tid;
        s.(threads := s.threads + [Thread(s.threads[tid].pool, Idle, false)],
           requests := s.requests[c.list[0] := s.requests[c.list[0]].(stage := Freed)],
           clients := s.clients[e.c := c.(phase := Cleaning, list := c.list[1..])])
      case CleanEnd(_) => s.(clients := s.clients[e.c := c.(phase := Gone, lock := Nobody)])
  }

  function Apply(s: State, e: Event): State
    requires Enabled(s, e)
  {
    if IsWorker(e) then DoWork(s, e) else DoServe(s, e)
  }

  /** What an event does, if it can happen. */
  function Step(s: State, e: Event): Option<State> {
    if Enabled(s, e) then Some(Apply(s, e)) else None
  }
}
