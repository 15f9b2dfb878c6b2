/** The versioned lease records the API server keeps, one for each sandbox pod. */
module Leases {
  import opened Common

  type Pod = string

  /** A job, or one visit of the watchdog to one pod, inside one worker process. */
  type Task = nat

  /** `instanceId:requestId:sessionId:toolCallId`: which job of which worker. */
  datatype Identity = Identity(worker: nat, job: Task)

  /** `holder` is None for the empty holderIdentity; a duration of 0 reads as unset. */
  datatype Lease = Lease(holder: Option<Identity>, renewTime: Option<int>, ttlSeconds: nat, version: nat)

  /** History of one successful acquire: the version it wrote and the instant up to which it is live. */
  datatype Grant = Grant(pod: Pod, version: nat, until: int)

  datatype Config = Config(pods: seq<Pod>, ttlSeconds: nat, maxWaitMs: nat)

  predicate IsExpired(l: Lease, now: int) {
    l.renewTime.None? || l.ttlSeconds == 0 || now > l.renewTime.value + l.ttlSeconds * 1000
  }

  /** The test a worker makes before it tries to take a pod. */
  predicate Takeable(l: Lease, now: int) {
    l.holder.None? || IsExpired(l, now)
  }

  /** The reservations after a release of `p`: without it, or, when a waiter was given a pod, with
      that pod, which is `p` itself or was free. */
  predicate HeldAfterRelease(was: set<Pod>, held: set<Pod>, p: Pod, given: Option<Pod>) {
    match given
    case None => held == was - {p}
    case Some(q) => (q == p && held == was) || (q !in was - {p} && held == was - {p} + {q})
  }

  /** A lease with a holder that has not run out. */
  predicate Live(l: Lease, now: int) {
    !Takeable(l, now)
  }
}
