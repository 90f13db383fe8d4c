/**
 The chat handler as a shared state machine. Each in-flight request is a
 unit of work that moves through atomic steps: it arrives (checks and a
 non-blocking admission attempt), loads its session mutex from the registry,
 locks it (or stays blocked), returns from the backend (the deferred unlock
 runs first), and finally exits (the deferred slot release runs last).
 Concurrency is any interleaving of these steps.
 */
module Handler {
  import opened Http
  import Checks
  import Admission
  import SessionLocks

  /** The identity of one unit of work handling one request. */
  type RequestId = nat

  /** What the backend call returned: a reply text, or an error whose cause
      is only logged. */
  datatype BackendResult = Replied(text: string) | Failed(cause: string)

  /** Where an admitted request is in the handler. */
  datatype Phase =
      /** Holds a slot, has not looked up its mutex yet. */
    | Admitted(ticket: Checks.Ticket)
      /** Holds a slot and knows its mutex; blocked until the mutex is free. */
    | Waiting(ticket: Checks.Ticket, lock: SessionLocks.LockId)
      /** Holds a slot and its mutex, inside the backend call. */
    | Running(ticket: Checks.Ticket, lock: SessionLocks.LockId)
      /** Has written its response and unlocked; still holds its slot. */
    | Releasing(response: Response)

  /** The handler's shared state: its configuration, the semaphore channel,
      the mutex registry, which request holds each locked mutex, and the
      requests currently past admission. */
  datatype State = State(
    apiKey: string,
    sem: Admission.Semaphore,
    sessions: SessionLocks.Registry,
    owners: map<SessionLocks.LockId, RequestId>,
    inflight: map<RequestId, Phase>,
    nextId: RequestId)

  /** Whether a phase holds a mutex handle from the registry. */
  predicate HasLock(p: Phase)
  {
    p.Waiting? || p.Running?
  }

  /** Whether request `id` is inside the backend for session `key`. */
  predicate RunningFor(s: State, id: RequestId, key: string)
  {
    id in s.inflight && s.inflight[id].Running? && s.inflight[id].ticket.sessionKey == key
  }

  /** Every held slot belongs to exactly one request past admission. */
  predicate SlotsAccounted(s: State)
  {
    && Admission.Valid(s.sem)
    && s.sem.held == |s.inflight|
    && forall id | id in s.inflight :: id < s.nextId
  }

  /** A request that knows its mutex knows the one registered for its
      session. */
  predicate LocksRegistered(s: State)
  {
    forall id | id in s.inflight && HasLock(s.inflight[id]) ::
      && s.inflight[id].ticket.sessionKey in s.sessions.locks
      && s.sessions.locks[s.inflight[id].ticket.sessionKey] == s.inflight[id].lock
  }

  /** A mutex is locked exactly when a request inside the backend holds it. */
  predicate OwnersMatch(s: State)
  {
    && (forall id | id in s.inflight && s.inflight[id].Running? ::
          s.inflight[id].lock in s.owners && s.owners[s.inflight[id].lock] == id)
    && (forall l | l in s.owners ::
          && s.owners[l] in s.inflight
          && s.inflight[s.owners[l]].Running?
          && s.inflight[s.owners[l]].lock == l)
  }

  /** The invariant every step keeps. */
  predicate Inv(s: State)
  {
    && SessionLocks.Valid(s.sessions)
    && SlotsAccounted(s)
    && LocksRegistered(s)
    && OwnersMatch(s)
  }

  /** The state of a freshly constructed handler. */
  function New(apiKey: string): (s: State)
    ensures Inv(s) && s.apiKey == apiKey
    ensures s.sem.held == 0 && s.sessions.locks == map[] && s.inflight == map[]
  {
    State(apiKey, Admission.New(), SessionLocks.Empty(), map[], map[], 0)
  }

  /** What a request that stops at arrival gets, or the identity of the unit
      of work that goes on. */
  datatype Arrival = Answered(response: Response) | Started(id: RequestId)

  /** The response the backend result is mapped to: the fixed internal error
      on failure, whatever its cause; otherwise the reply with the resolved
      conversation identifier. */
  function Reply(t: Checks.Ticket, result: BackendResult): (r: Response)
    ensures result.Failed? ==>
              && r == ErrorResponse(InternalError) && Status(r) == 500
              && FailureBody(r.failure) == "{\"error\":\"internal server error\"}"
    ensures result.Replied? ==> Status(r) == 200 && r.response == result.text && r.conversationId == t.conversationId
  {
    match result
    case Failed(_) => ErrorResponse(InternalError)
    case Replied(text) => ChatResponse(text, t.conversationId)
  }

  /** Adding a new request grows the map of requests in flight by one. */
  lemma CardInsert<V>(m: map<RequestId, V>, k: RequestId, v: V)
    requires k !in m
    ensures |m[k := v]| == |m| + 1
  {
    assert m[k := v].Keys == m.Keys + {k};
  }

  /** Removing a request in flight shrinks the map by one. */
  lemma CardRemove<V>(m: map<RequestId, V>, k: RequestId)
    requires k in m
    ensures |m - {k}| == |m| - 1
  {
    assert (m - {k}).Keys == m.Keys - {k};
  }

  /** Arrival: the checks, then a non-blocking attempt at a slot. A refused
      request leaves the state exactly as it was. */
  function Arrive(s: State, req: Request): (r: (State, Arrival))
    requires Inv(s)
    ensures Inv(r.0) && r.0.apiKey == s.apiKey && r.0.sessions == s.sessions && r.0.owners == s.owners
    ensures Checks.Classify(s.apiKey, req).Err? ==>
              r.0 == s && r.1 == Answered(ErrorResponse(Checks.Classify(s.apiKey, req).error))
    ensures Checks.Classify(s.apiKey, req).Ok? && s.sem.held == Admission.MaxConcurrentRequests ==>
              r.0 == s && r.1 == Answered(ErrorResponse(ServerBusy))
    ensures Checks.Classify(s.apiKey, req).Ok? && s.sem.held < Admission.MaxConcurrentRequests ==>
              && r.1 == Started(s.nextId)
              && s.nextId !in s.inflight
              && r.0.sem.held == s.sem.held + 1
              && r.0.inflight == s.inflight[s.nextId := Admitted(Checks.Classify(s.apiKey, req).value)]
  {
    match Checks.Classify(s.apiKey, req)
    case Err(f) => (s, Answered(ErrorResponse(f)))
    case Ok(t) =>
      var (ok, sem') := Admission.TryAcquire(s.sem);
      if !ok then (s, Answered(ErrorResponse(ServerBusy)))
      else
        CardInsert(s.inflight, s.nextId, Admitted(t));
        (s.(sem := sem', inflight := s.inflight[s.nextId := Admitted(t)], nextId := s.nextId + 1), Started(s.nextId))
  }

  /** Load-or-store of the request's session mutex. */
  function LoadLock(s: State, id: RequestId): (r: State)
    requires Inv(s) && id in s.inflight && s.inflight[id].Admitted?
    ensures Inv(r) && SessionLocks.Grows(s.sessions, r.sessions)
    ensures r.apiKey == s.apiKey && r.sem == s.sem && r.owners == s.owners && r.nextId == s.nextId
    ensures var t := s.inflight[id].ticket;
            && r.sessions.locks.Keys == s.sessions.locks.Keys + {t.sessionKey}
            && r.inflight == s.inflight[id := Waiting(t, r.sessions.locks[t.sessionKey])]
  {
    var t := s.inflight[id].ticket;
    var (l, reg) := SessionLocks.LoadOrStore(s.sessions, t.sessionKey);
    assert |s.inflight[id := Waiting(t, l)]| == |s.inflight| by {
      assert s.inflight[id := Waiting(t, l)].Keys == s.inflight.Keys;
    }
    s.(sessions := reg, inflight := s.inflight[id := Waiting(t, l)])
  }

  /** Locking the session mutex. It succeeds iff no request is inside the
      backend for the same session; otherwise the request stays blocked and
      nothing changes. */
  function Lock(s: State, id: RequestId): (r: (State, bool))
    requires Inv(s) && id in s.inflight && s.inflight[id].Waiting?
    ensures Inv(r.0) && r.0.apiKey == s.apiKey && r.0.sem == s.sem && r.0.sessions == s.sessions
    ensures r.1 <==> forall other | other in s.inflight :: !RunningFor(s, other, s.inflight[id].ticket.sessionKey)
    ensures !r.1 ==> r.0 == s
    ensures r.1 ==> r.0.inflight == s.inflight[id := Running(s.inflight[id].ticket, s.inflight[id].lock)]
    ensures r.1 ==> s.inflight[id].lock !in s.owners && r.0.owners == s.owners[s.inflight[id].lock := id]
  {
    var t := s.inflight[id].ticket;
    var l := s.inflight[id].lock;
    if l in s.owners then
      assert RunningFor(s, s.owners[l], t.sessionKey);
      (s, false)
    else
      assert |s.inflight[id := Running(t, l)]| == |s.inflight| by {
        assert s.inflight[id := Running(t, l)].Keys == s.inflight.Keys;
      }
      (s.(owners := s.owners[l := id], inflight := s.inflight[id := Running(t, l)]), true)
  }

  /** Return from the backend: the response is decided and the first
      deferred call unlocks the session mutex; the slot is still held. */
  function Return(s: State, id: RequestId, result: BackendResult): (r: State)
    requires Inv(s) && id in s.inflight && s.inflight[id].Running?
    ensures Inv(r) && r.apiKey == s.apiKey && r.sem == s.sem && r.sessions == s.sessions
    ensures r.owners == s.owners - {s.inflight[id].lock}
    ensures r.inflight == s.inflight[id := Releasing(Reply(s.inflight[id].ticket, result))]
  {
    var p := s.inflight[id];
    assert |s.inflight[id := Releasing(Reply(p.ticket, result))]| == |s.inflight| by {
      assert s.inflight[id := Releasing(Reply(p.ticket, result))].Keys == s.inflight.Keys;
    }
    s.(owners := s.owners - {p.lock}, inflight := s.inflight[id := Releasing(Reply(p.ticket, result))])
  }

  /** Exit: the last deferred call gives the slot back. By then the request
      holds no mutex, and it can exit only once. */
  function Exit(s: State, id: RequestId): (r: (State, Response))
    requires Inv(s) && id in s.inflight && s.inflight[id].Releasing?
    ensures Inv(r.0) && r.0.apiKey == s.apiKey && r.0.sessions == s.sessions && r.0.owners == s.owners
    ensures forall l | l in s.owners :: s.owners[l] != id
    ensures r.0.sem.held == s.sem.held - 1 && r.0.inflight == s.inflight - {id}
    ensures r.1 == s.inflight[id].response
  {
    CardRemove(s.inflight, id);
    (s.(sem := Admission.Release(s.sem), inflight := s.inflight - {id}), s.inflight[id].response)
  }

  /** One atomic step of one unit of work. */
  datatype Event =
    | Incoming(req: Request)
    | Lookup(id: RequestId)
    | Acquire(id: RequestId)
    | Backend(id: RequestId, result: BackendResult)
    | Unwind(id: RequestId)

  /** Take a step; a step of a unit of work that is not at that point, or
      that is blocked, changes nothing. */
  function Step(s: State, e: Event): (r: State)
    requires Inv(s)
    ensures Inv(r) && r.apiKey == s.apiKey && SessionLocks.Grows(s.sessions, r.sessions)
  {
    match e
    case Incoming(req) => Arrive(s, req).0
    case Lookup(id) =>
      if id in s.inflight && s.inflight[id].Admitted? then LoadLock(s, id) else s
    case Acquire(id) =>
      if id in s.inflight && s.inflight[id].Waiting? then Lock(s, id).0 else s
    case Backend(id, result) =>
      if id in s.inflight && s.inflight[id].Running? then Return(s, id, result) else s
    case Unwind(id) =>
      if id in s.inflight && s.inflight[id].Releasing? then Exit(s, id).0 else s
  }

  /** Run an interleaving of steps. */
  function Run(s: State, es: seq<Event>): (r: State)
    requires Inv(s)
    ensures Inv(r) && r.apiKey == s.apiKey && SessionLocks.Grows(s.sessions, r.sessions)
    decreases |es|
  {
    if |es| == 0 then s
    else
      var s' := Step(s, es[0]);
      var r := Run(s', es[1..]);
      SessionLocks.GrowsTransitive(s.sessions, s'.sessions, r.sessions);
      r
  }

  /** In every reachable state at most four requests are past admission, and
      for each session at most one request is inside the backend. */
  lemma ReachableSafety(apiKey: string, es: seq<Event>, a: RequestId, b: RequestId, key: string)
    ensures Run(New(apiKey), es).sem.held <= Admission.MaxConcurrentRequests
    ensures |Run(New(apiKey), es).inflight| <= Admission.MaxConcurrentRequests
    ensures RunningFor(Run(New(apiKey), es), a, key) && RunningFor(Run(New(apiKey), es), b, key) ==> a == b
  {
    var s := Run(New(apiKey), es);
    if RunningFor(s, a, key) && RunningFor(s, b, key) {
      SessionExclusive(s, a, b, key);
    }
  }

  /** Two requests inside the backend for the same session are the same
      request. */
  lemma SessionExclusive(s: State, a: RequestId, b: RequestId, key: string)
    requires Inv(s) && RunningFor(s, a, key) && RunningFor(s, b, key)
    ensures a == b
  {
    assert s.inflight[a].lock == s.sessions.locks[key] == s.inflight[b].lock;
  }

  /** The answer of one request handled from start to end, stated directly:
      the first failed check, else "server busy" when every slot is held,
      else the mapped backend result. */
  function Respond(apiKey: string, held: nat, req: Request, result: BackendResult): Response
  {
    match Checks.Classify(apiKey, req)
    case Err(f) => ErrorResponse(f)
    case Ok(t) => if held >= Admission.MaxConcurrentRequests then ErrorResponse(ServerBusy) else Reply(t, result)
  }

  /** A backend failure is answered the same way whatever its cause, so the
      cause never reaches the caller. */
  lemma CauseNotEchoed(apiKey: string, held: nat, req: Request, c: string, c': string)
    ensures Respond(apiKey, held, req, Failed(c)) == Respond(apiKey, held, req, Failed(c'))
    ensures Checks.Classify(apiKey, req).Ok? && held < Admission.MaxConcurrentRequests ==>
              Respond(apiKey, held, req, Failed(c)) == ErrorResponse(InternalError)
  {
  }

  /** Whether another request is already inside the backend for the session
      this request would use, so that a sequential run of it would block. */
  predicate SessionBusy(s: State, req: Request)
  {
    && Checks.Classify(s.apiKey, req).Ok?
    && exists other | other in s.inflight :: RunningFor(s, other, Checks.Classify(s.apiKey, req).value.sessionKey)
  }

  /** Replacing the phase of one request by a phase that is not inside the
      backend keeps a session free of running requests. */
  lemma StillFree(s: State, s': State, id: RequestId, p: Phase, key: string)
    requires s'.inflight == s.inflight[id := p] && !p.Running?
    requires forall other | other in s.inflight :: !RunningFor(s, other, key)
    ensures forall other | other in s'.inflight :: !RunningFor(s', other, key)
  {
    forall other | other in s'.inflight ensures !RunningFor(s', other, key) {
      if other != id {
        assert !RunningFor(s, other, key);
      }
    }
  }

  /** Removing a key makes an earlier update of it irrelevant. */
  lemma UpdateThenRemove<K, V>(m: map<K, V>, k: K, v: V)
    ensures m[k := v] - {k} == m - {k}
  {
  }

  /** Removing a key just inserted restores the map. */
  lemma InsertThenRemove<K, V>(m: map<K, V>, k: K, v: V)
    requires k !in m
    ensures m[k := v] - {k} == m
  {
  }

  /** An admitted request whose session is free looks up its mutex and gets
      it at once. */
  function Enter(s: State, id: RequestId): (r: State)
    requires Inv(s) && id in s.inflight && s.inflight[id].Admitted?
    requires forall other | other in s.inflight :: !RunningFor(s, other, s.inflight[id].ticket.sessionKey)
    ensures Inv(r) && r.apiKey == s.apiKey && r.sem == s.sem && r.nextId == s.nextId
    ensures SessionLocks.Grows(s.sessions, r.sessions)
    ensures var key := s.inflight[id].ticket.sessionKey;
            && r.sessions.locks.Keys == s.sessions.locks.Keys + {key}
            && r.sessions.locks[key] !in s.owners
            && r.owners == s.owners[r.sessions.locks[key] := id]
            && r.inflight == s.inflight[id := Running(s.inflight[id].ticket, r.sessions.locks[key])]
  {
    var t := s.inflight[id].ticket;
    var s2 := LoadLock(s, id);
    StillFree(s, s2, id, s2.inflight[id], t.sessionKey);
    Lock(s2, id).0
  }

  /** A request inside the backend returns and exits, answering with the
      mapped result and giving back its mutex and its slot. */
  function Leave(s: State, id: RequestId, result: BackendResult): (r: (State, Response))
    requires Inv(s) && id in s.inflight && s.inflight[id].Running?
    ensures Inv(r.0) && r.0.apiKey == s.apiKey && r.0.sessions == s.sessions && r.0.nextId == s.nextId
    ensures r.1 == Reply(s.inflight[id].ticket, result)
    ensures r.0.sem.held == s.sem.held - 1
    ensures r.0.owners == s.owners - {s.inflight[id].lock}
    ensures r.0.inflight == s.inflight - {id}
  {
    var s4 := Return(s, id, result);
    UpdateThenRemove(s.inflight, id, s4.inflight[id]);
    Exit(s4, id)
  }

  /** An admitted request whose session is free, run from mutex lookup to
      exit: it answers with the mapped backend result and gives back exactly
      the slot and the mutex it took. */
  function Finish(s: State, id: RequestId, result: BackendResult): (r: (State, Response))
    requires Inv(s) && id in s.inflight && s.inflight[id].Admitted?
    requires forall other | other in s.inflight :: !RunningFor(s, other, s.inflight[id].ticket.sessionKey)
    ensures Inv(r.0) && r.0.apiKey == s.apiKey
    ensures r.1 == Reply(s.inflight[id].ticket, result)
    ensures r.0.sem.held == s.sem.held - 1 && r.0.owners == s.owners && r.0.inflight == s.inflight - {id}
    ensures SessionLocks.Grows(s.sessions, r.0.sessions)
    ensures r.0.sessions.locks.Keys == s.sessions.locks.Keys + {s.inflight[id].ticket.sessionKey}
    ensures r.0.nextId == s.nextId
  {
    var s3 := Enter(s, id);
    var key := s.inflight[id].ticket.sessionKey;
    var r := Leave(s3, id, result);
    InsertThenRemove(s.owners, s3.sessions.locks[key], id);
    UpdateThenRemove(s.inflight, id, s3.inflight[id]);
    r
  }

  /** One request run through all its steps without interruption. Its answer
      is the one `Respond` states; every slot and mutex it took is given back,
      and the registry gained at most its own session. */
  function Handle(s: State, req: Request, result: BackendResult): (r: (State, Response))
    requires Inv(s) && !SessionBusy(s, req)
    ensures Inv(r.0) && r.0.apiKey == s.apiKey
    ensures r.1 == Respond(s.apiKey, s.sem.held, req, result)
    ensures r.0.sem == s.sem && r.0.owners == s.owners && r.0.inflight == s.inflight
    ensures SessionLocks.Grows(s.sessions, r.0.sessions)
    ensures Checks.Classify(s.apiKey, req).Ok? && s.sem.held < Admission.MaxConcurrentRequests ==>
              r.0.sessions.locks.Keys == s.sessions.locks.Keys + {Checks.Classify(s.apiKey, req).value.sessionKey}
    ensures Checks.Classify(s.apiKey, req).Err? || s.sem.held == Admission.MaxConcurrentRequests ==> r.0 == s
  {
    var (s1, arrival) := Arrive(s, req);
    match arrival
    case Answered(resp) => (s1, resp)
    case Started(id) =>
      var t := Checks.Classify(s.apiKey, req).value;
      StillFree(s, s1, id, Admitted(t), t.sessionKey);
      InsertThenRemove(s.inflight, id, Admitted(t));
      Finish(s1, id, result)
  }
}
