/**
 The admission controller: a buffered channel of capacity
 `MaxConcurrentRequests` used as a counting semaphore. A send that would
 block is not attempted; the request is turned away instead.
 */
module Admission {

  /** The number of chat requests that may be in flight at once. */
  const MaxConcurrentRequests: nat := 4

  /** The channel, represented by the number of tokens it holds. */
  datatype Semaphore = Semaphore(held: nat)

  /** The channel never holds more tokens than its capacity. */
  predicate Valid(s: Semaphore)
  {
    s.held <= MaxConcurrentRequests
  }

  /** A freshly made channel. */
  function New(): (s: Semaphore)
    ensures Valid(s) && s.held == 0
  {
    Semaphore(0)
  }

  /** A non-blocking send: it takes a slot when one is free and otherwise
      fails at once, leaving the channel as it was. */
  function TryAcquire(s: Semaphore): (r: (bool, Semaphore))
    requires Valid(s)
    ensures r.0 <==> s.held < MaxConcurrentRequests
    ensures r.0 ==> r.1.held == s.held + 1
    ensures !r.0 ==> r.1 == s
    ensures Valid(r.1)
  {
    if s.held < MaxConcurrentRequests then (true, Semaphore(s.held + 1)) else (false, s)
  }

  /** The deferred receive that gives a slot back; it only runs after a
      successful send, so a token is always there to take. */
  function Release(s: Semaphore): (r: Semaphore)
    requires s.held > 0
    ensures r.held == s.held - 1
    ensures Valid(s) ==> Valid(r) && r.held < MaxConcurrentRequests
  {
    Semaphore(s.held - 1)
  }

  /** Releasing a slot that was just taken restores the channel. */
  lemma AcquireReleaseRoundTrip(s: Semaphore)
    requires Valid(s) && TryAcquire(s).0
    ensures Release(TryAcquire(s).1) == s
  {
  }

  /** Once a slot is released, the next attempt succeeds. */
  lemma ReleaseReadmits(s: Semaphore)
    requires Valid(s) && s.held > 0
    ensures TryAcquire(Release(s)).0
  {
  }
}
