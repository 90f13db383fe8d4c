/**
 The per-session lock registry: a concurrent map from session key to mutex,
 filled on demand with load-or-store and never emptied.
 */
module SessionLocks {

  /** The identity of one mutex. */
  type LockId = nat

  /** The registry, and the identity the next freshly allocated mutex gets. */
  datatype Registry = Registry(locks: map<string, LockId>, nextLock: LockId)

  /** Every stored mutex was allocated before `nextLock`, and no mutex is stored
      under two keys. */
  predicate Valid(r: Registry)
  {
    && (forall k | k in r.locks :: r.locks[k] < r.nextLock)
    && (forall k, k' | k in r.locks && k' in r.locks && k != k' :: r.locks[k] != r.locks[k'])
  }

  /** The registry of a new handler. */
  function Empty(): (r: Registry)
    ensures Valid(r) && r.locks == map[]
  {
    Registry(map[], 0)
  }

  /** `b` keeps every entry of `a` unchanged and allocates no identity `a`
      already handed out. */
  predicate Grows(a: Registry, b: Registry)
  {
    && a.nextLock <= b.nextLock
    && forall k | k in a.locks :: k in b.locks && b.locks[k] == a.locks[k]
  }

  /** Load-or-store: the mutex already stored under `key`, or a new one,
      stored and returned. */
  function LoadOrStore(reg: Registry, key: string): (r: (LockId, Registry))
    requires Valid(reg)
    ensures Valid(r.1) && Grows(reg, r.1)
    ensures r.1.locks.Keys == reg.locks.Keys + {key}
    ensures key in r.1.locks && r.1.locks[key] == r.0
    ensures key in reg.locks ==> r.0 == reg.locks[key] && r.1 == reg
    ensures key !in reg.locks ==> r.0 !in reg.locks.Values
  {
    if key in reg.locks then (reg.locks[key], reg)
    else (reg.nextLock, Registry(reg.locks[key := reg.nextLock], reg.nextLock + 1))
  }

  /** A second load-or-store of the same key changes nothing and returns the
      same mutex. */
  lemma LoadOrStoreIdempotent(reg: Registry, key: string)
    requires Valid(reg)
    ensures LoadOrStore(LoadOrStore(reg, key).1, key) == LoadOrStore(reg, key)
  {
  }

  /** Two keys get the same mutex iff they are the same key. */
  lemma LockPerKey(reg: Registry, k: string, k': string)
    requires Valid(reg) && k in reg.locks && k' in reg.locks
    ensures reg.locks[k] == reg.locks[k'] <==> k == k'
  {
  }

  /** Growth is transitive. */
  lemma {:induction false} GrowsTransitive(a: Registry, b: Registry, c: Registry)
    requires Grows(a, b) && Grows(b, c)
    ensures Grows(a, c)
  {
  }
}
