/** Submission rows and the table of legal status changes. */
module Tasks {
  import opened Common

  const MAX_RETRY: nat := 3

  datatype Status = Uploading | Pending | Processing | Done | Dlq | Rejected | Arrears

  /** The (from, to) pairs a submission may go through. */
  const ALLOWED: set<(Status, Status)> := {
    (Uploading, Pending),
    (Pending, Processing),
    (Processing, Done),
    (Processing, Pending),
    (Processing, Dlq),
    (Processing, Arrears),
    (Arrears, Pending)
  }

  predicate CanTransition(from: Status, to: Status) {
    (from, to) in ALLOWED
  }

  /** The statuses whose rows an API instance may keep in its local cache. */
  predicate IsTerminal(s: Status) {
    s in {Done, Dlq, Rejected}
  }

  datatype Row = Row(
    userId: int,
    idemKey: string,
    fileHash: string,
    status: Status,
    retryCount: nat,
    nextAttemptAt: real,
    uploadLeaseUntil: real,
    owner: Option<string>,
    generation: nat,
    leaseUntil: real,
    objectKey: Option<string>,
    resultMsg: Option<string>,
    detectedVersion: Option<string>,
    requiredVersion: Option<string>,
    updatedAt: string
  )

  /** The columns one UPDATE may set; `None` leaves a column alone. */
  datatype Patch = Patch(
    status: Option<Status>,
    retryCount: Option<nat>,
    nextAttemptAt: Option<real>,
    uploadLeaseUntil: Option<real>,
    owner: Option<Option<string>>,
    leaseUntil: Option<real>,
    objectKey: Option<Option<string>>,
    fileHash: Option<string>,
    resultMsg: Option<Option<string>>,
    detectedVersion: Option<Option<string>>,
    requiredVersion: Option<Option<string>>
  )

  const NOTHING := Patch(None, None, None, None, None, None, None, None, None, None, None)

  function Or<T>(change: Option<T>, current: T): T {
    match change
    case None => current
    case Some(v) => v
  }

  function Patched(r: Row, p: Patch, stamp: string): Row {
    r.(status := Or(p.status, r.status),
       retryCount := Or(p.retryCount, r.retryCount),
       nextAttemptAt := Or(p.nextAttemptAt, r.nextAttemptAt),
       uploadLeaseUntil := Or(p.uploadLeaseUntil, r.uploadLeaseUntil),
       owner := Or(p.owner, r.owner),
       leaseUntil := Or(p.leaseUntil, r.leaseUntil),
       objectKey := Or(p.objectKey, r.objectKey),
       fileHash := Or(p.fileHash, r.fileHash),
       resultMsg := Or(p.resultMsg, r.resultMsg),
       detectedVersion := Or(p.detectedVersion, r.detectedVersion),
       requiredVersion := Or(p.requiredVersion, r.requiredVersion),
       updatedAt := stamp)
  }

  predicate Column<T(==)>(was: T, now: T, change: Option<T>) {
    (change == None && now == was) || change == Some(now)
  }

  /** What an UPDATE of the columns named in `p` makes of a row: those have their new values, all others stay, and the
      time stamp is new. */
  predicate Sets(was: Row, r: Row, p: Patch, stamp: string) {
    && Column(was.status, r.status, p.status)
    && Column(was.retryCount, r.retryCount, p.retryCount)
    && Column(was.nextAttemptAt, r.nextAttemptAt, p.nextAttemptAt)
    && Column(was.uploadLeaseUntil, r.uploadLeaseUntil, p.uploadLeaseUntil)
    && Column(was.owner, r.owner, p.owner)
    && Column(was.leaseUntil, r.leaseUntil, p.leaseUntil)
    && Column(was.objectKey, r.objectKey, p.objectKey)
    && Column(was.fileHash, r.fileHash, p.fileHash)
    && Column(was.resultMsg, r.resultMsg, p.resultMsg)
    && Column(was.detectedVersion, r.detectedVersion, p.detectedVersion)
    && Column(was.requiredVersion, r.requiredVersion, p.requiredVersion)
    && r.userId == was.userId && r.idemKey == was.idemKey && r.generation == was.generation && r.updatedAt == stamp
  }

  /** No outgoing edge of the table leaves a status exactly when that status is one of the cached ones. */
  lemma SinksAreTerminal(s: Status)
    ensures IsTerminal(s) <==> forall t :: !CanTransition(s, t)
  {
    assert CanTransition(Uploading, Pending);
    assert CanTransition(Pending, Processing);
    assert CanTransition(Processing, Done);
    assert CanTransition(Arrears, Pending);
  }
}
