# Chat front door: admission control and per-session serialization

This project models the chat endpoint of the assistant's HTTP front door
(`HTTPHandler.chatHandler` in `agent/http.go`) and proves properties of the
model in Dafny.

The handler answers `POST /api/chat`. It runs these checks in order:

1. the method must be POST (405 otherwise);
2. when an API key is configured, the Authorization header must be exactly
   `Bearer <key>` (401 otherwise);
3. the body must decode, and the decoder may not need to read past 1 MiB to do so (400 otherwise);
4. the message must be non-empty (400 otherwise);
5. the conversation identifier defaults to `default` and must match
   `^[a-zA-Z0-9_-]{1,64}$` (400 otherwise).

A request that passes gets the session key `http:<id>`. It then tries, without
blocking, to take one of 4 slots of a buffered channel (503 when all are
held). Next it loads or stores the session's mutex in a `sync.Map` and locks
it, then calls the backend. The deferred unlock runs before the deferred slot
release. A backend error is answered with a fixed 500 body. A backend reply is
answered with 200, the reply text and the resolved identifier.

Modules:

- `Http` (http.dfy): the decoded request, the responses, the failure codes with their status and fixed body.
- `ConversationId` (conversation_id.dfy): the identifier pattern, modelled as an anchored bounded repetition over a bracket expression with its own matching semantics; the `default` fallback; the session key.
- `Auth` (auth.dfy): the bearer-token gate.
- `Checks` (request.dfy): the ordered, side-effect-free checks (`Classify`).
- `Admission` (admission.dfy): the capacity-4 channel used as a semaphore.
- `SessionLocks` (session_locks.dfy): the load-or-store mutex registry that only grows.
- `Handler` (handler.dfy): the shared state (slots, registry, mutex owners, requests in flight). Every request is a unit of work that moves through atomic steps: `Arrive`, `LoadLock`, `Lock`, `Return`, `Exit`. `Run` executes any interleaving of them. `Handle` runs one request straight through and is compared with `Respond`, a direct statement of the handler's answer.

The backend (`ProcessDirect`) is a parameter: each `Backend` event carries
the result it returned, `Replied(text)` or `Failed(cause)`. A body that does
not decode is `None`. An absent Authorization header is the empty string,
as Go's `Header.Get` returns it.

Details of the code that the model keeps:

- The handler checks the method and the bearer token before it decodes the body or validates the conversation identifier.
- The handler checks the pattern against `default` too; the pattern always accepts it.
- The 1 MiB limit wraps the body reader, so a decode fails on size only when the decoder must read past 1 MiB to finish the first JSON value. A valid value followed by more than 1 MiB of trailing data decodes normally. Both cases are inside the `Option` body.
- On cancellation the handler only passes the request context to the backend.

## Model

| member | source | states |
|---|---|---|
| Http.FailureResponses | agent/http.go:62-121 | each refusal has the status and fixed JSON body of its `http.Error` call (405, 401, three distinct 400s, 503, 500), and no two failures share a body |
| ConversationId.FullMatchIff | agent/http.go:22 | an anchored repetition `^[cls]{min,max}$` accepts a string iff its length is within the bounds and every character is in the class |
| ConversationId.IdClassIff | agent/http.go:22 | the bracket expression `[a-zA-Z0-9_-]` admits exactly ASCII letters, digits, `_` and `-` |
| ConversationId.ValidIff | agent/http.go:22 | an identifier matches the pattern iff it has 1 to 64 characters, all letters, digits, `_` or `-` |
| ConversationId.Resolve | agent/http.go:90-98 | an empty identifier resolves to `default`; a supplied one is accepted iff it has at most 64 allowed characters, and is then kept unchanged; any accepted result matches the pattern |
| ConversationId.SessionKey | agent/http.go:99 | the session key is the `http:` prefix followed by exactly the identifier |
| ConversationId.KeyRoundTrip | agent/http.go:99 | the identifier is recovered from its session key by dropping the prefix |
| ConversationId.SessionKeyInjective | agent/http.go:99 | two identifiers give the same session key iff they are equal |
| ConversationId.LengthBoundary | agent/http.go:91-98 | any identifier of 64 allowed characters is accepted unchanged; any of 65 allowed characters is rejected |
| ConversationId.ForbiddenCharRejected | agent/http.go:91-98 | an identifier containing `/`, a space or `<` is rejected |
| Auth.Expected | agent/http.go:70 | the expected header is the `Bearer ` scheme followed by the key |
| Auth.AuthorizedIff | agent/http.go:68-74 | with a key configured, a header passes iff it starts with `Bearer ` and the rest equals the key |
| Auth.Refusals | agent/http.go:68-74 | with a key configured, an absent header, the bare key and a bearer token with another value are refused |
| Checks.Classify | agent/http.go:61-99 | a non-POST gets 405; then a failed token check gets 401 whatever the body; then an undecodable body, an empty message and a bad identifier each get their 400; a refusal has status 405 iff the method is not POST, 401 iff the token check failed, and 400 otherwise; an accepted request carries the message, the resolved identifier and its session key |
| Checks.ClassifyFailures | agent/http.go:61-99 | the checks alone never answer "server busy" or "internal server error" |
| Checks.AuthBeforeBody | agent/http.go:67-83 | a request refused by the token check gets the same answer for every body |
| Checks.AcceptedIff | agent/http.go:61-99 | a request passes all checks iff it is a POST, the key is empty or the header is `Bearer <key>`, the body decodes, the message is non-empty, and the identifier is empty or matches the pattern |
| Checks.SharedSessionIff | agent/http.go:91-99 | two accepted requests share a session key iff their resolved identifiers are equal; requests without an identifier all share one |
| Admission.New | agent/http.go:47 | a new channel holds no tokens |
| Admission.TryAcquire | agent/http.go:101-108 | the non-blocking send succeeds iff fewer than 4 tokens are held, adds one token on success, and changes nothing on failure |
| Admission.Release | agent/http.go:104 | the deferred receive removes exactly one token and leaves a free slot |
| Admission.AcquireReleaseRoundTrip | agent/http.go:102-104 | releasing a just-taken slot restores the channel |
| Admission.ReleaseReadmits | agent/http.go:102-108 | after a release the next attempt succeeds |
| SessionLocks.Empty | agent/http.go:39 | a new registry has no entries |
| SessionLocks.LoadOrStore | agent/http.go:111-112 | an existing key returns its mutex and changes nothing; a new key stores a mutex no other key has; the key set gains exactly this key and old entries keep their mutex |
| SessionLocks.LoadOrStoreIdempotent | agent/http.go:111 | a second load-or-store of a key returns the same mutex and changes nothing |
| SessionLocks.LockPerKey | agent/http.go:111 | two stored keys share a mutex iff they are the same key |
| Handler.New | agent/http.go:43-48 | a new handler has no held slot, an empty registry and no request in flight, and satisfies the invariant |
| Handler.Reply | agent/http.go:116-127 | a backend failure gives 500 with the fixed body `{"error":"internal server error"}`; a reply gives 200 with the reply text and the resolved identifier |
| Handler.Arrive | agent/http.go:61-108 | a request refused by the checks gets that failure and leaves the state unchanged; with 4 slots held, an accepted request gets 503 and leaves the state unchanged; otherwise it takes one slot and becomes a new request in flight |
| Handler.LoadLock | agent/http.go:111-112 | the request gets the mutex the registry holds for its session, and the registry gains at most that key |
| Handler.Lock | agent/http.go:113 | the lock is taken iff no request is inside the backend for the same session; otherwise nothing changes |
| Handler.Return | agent/http.go:114-121 | on return from the backend the response is fixed and the session mutex is unlocked while the slot is still held |
| Handler.Exit | agent/http.go:104 | the slot is given back only when the request holds no mutex, and the request leaves, so it cannot release twice |
| Handler.Step | agent/http.go:61-128 | every atomic step keeps the invariant (slots equal requests in flight and are at most 4; each locked mutex has one owner inside the backend) and never shrinks the registry |
| Handler.Run | agent/http.go:61-128 | every interleaving of steps keeps the invariant and never shrinks the registry |
| Handler.ReachableSafety | agent/http.go:101-116 | in every state reachable from a new handler at most 4 requests are past admission and at most one request per session is inside the backend |
| Handler.SessionExclusive | agent/http.go:110-116 | under the invariant, two requests inside the backend for the same session are the same request |
| Handler.CauseNotEchoed | agent/http.go:116-121 | a backend failure is answered identically whatever its cause, with the internal-error response |
| Handler.Enter | agent/http.go:110-113 | an admitted request whose session is free registers and locks its session mutex at once |
| Handler.Leave | agent/http.go:104-127 | a request inside the backend answers with the mapped result and gives back exactly its mutex and its slot |
| Handler.Finish | agent/http.go:110-127 | an admitted request with a free session answers with the mapped backend result and gives back exactly the slot and the mutex it took |
| Handler.Handle | agent/http.go:61-128 | one request handled straight through answers as `Respond` states; slots, mutex owners and requests in flight end as they began; the registry gains at most the request's session key, and a refused request changes nothing |

## Left out

- The health endpoint (`healthHandler`) is left out: it returns a fixed status and touches no state.
- HTTP routing, header parsing, JSON encoding and decoding, and the text/plain content type with trailing newline that `http.Error` adds are left out. The decoded body is an `Option`.
- The 1 MiB `MaxBytesReader` limit is not modelled on its own. A body whose first JSON value the decoder cannot finish within 1 MiB is one more decode failure; a valid first value followed by oversized trailing data decodes, as in the code.
- Logging of backend errors is left out. The model only shows that the cause never reaches the response.
- The backend `ProcessDirect` and its request context are foreign code. Each backend step takes the result as a parameter.
- A panic in `ProcessDirect` is not a separate backend result. Its effect on the state is that of `Failed`: the deferred unlock and slot release still run in the same order. The difference is the response: net/http aborts it, so the caller gets no response at all, while `Failed` gives the 500 body.
- Goroutines, scheduling fairness, waiter order on a mutex, timing and context cancellation are left out. Concurrency is any interleaving of the atomic steps.
- Go allocates a new mutex on every load-or-store, even when the key is already present, and drops it unused. The model allocates one only when it stores it; the difference cannot be observed.
- Strings are sequences of characters. Go matches the pattern on UTF-8 runes; every accepted character is ASCII, so counting characters and counting bytes agree on accepted identifiers.
- Handle: it requires that no other request is inside the backend for the same session. A straight-through run cannot express waiting on a held mutex; the interleaved steps (`Lock` blocking, `Run`) cover that case.
- The process wiring in `agent/main.go` (configuration, signals, server start and shutdown timeouts, the background loop) is I/O and lifecycle, and is not part of this model.
- The Home Assistant integration is an HTTP client of this endpoint, and is not part of this model.
