/** What several use cases share: the status of a run and the lease row of a repository. */
module RunRecords {
  datatype RunStatus = Queued | Running | Waiting | Passed | Failed | Cancelled | Blocked | NeedsHumanReview

  predicate RunActive(s: RunStatus) { s != Passed && s != Failed && s != Cancelled }

  /** A run is active until it has passed, failed or been cancelled, and one that stopped otherwise than by passing can be resumed. */
  lemma StatusExactly(s: RunStatus)
    ensures RunActive(s) <==> s in {Queued, Running, Waiting, Blocked, NeedsHumanReview}
    ensures CanResume(s) <==> s in {Failed, Blocked, NeedsHumanReview, Cancelled}
  {
  }

  predicate CanResume(s: RunStatus) {
    s == Failed || s == Blocked || s == NeedsHumanReview || s == Cancelled
  }

  const LEASE_TTL_MS := 30000

  datatype Lease = Lease(worker: string, run: string, expiresAt: int, token: nat)

  /** The lease table answers an acquire with a conflict exactly when this is false. */
  predicate Acquirable(leases: map<string, Lease>, repo: string, worker: string, run: string, now: int) {
    repo in leases ==> leases[repo].expiresAt <= now || (leases[repo].worker == worker && leases[repo].run == run)
  }
}
