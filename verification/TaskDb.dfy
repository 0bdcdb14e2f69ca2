/** The database as a value, and one function per SQL statement or write transaction of the data layer.
    Every function is one atomic step; a clock reading is an argument because the code samples the clock
    before it reaches the database. */
module TaskDb {
  import opened Common
  import opened Tasks

  const COST_PER_CALL: real := 1.0

  datatype Tables = Tables(rows: map<nat, Row>, accounts: map<int, real>, nextId: nat)

  datatype Pick = Pick(sid: nat, wasPending: bool, generation: nat)

  function LeaseEnd(now: real, leaseSec: real): real {
    now + Max(0.1, leaseSec)
  }

  function WithRow(t: Tables, sid: nat, r: Row): Tables {
    t.(rows := t.rows[sid := r])
  }

  // ----- claiming -----

  function Waiting(t: Tables, now: real): set<nat> {
    set sid | sid in t.rows && t.rows[sid].status == Pending && t.rows[sid].nextAttemptAt <= now
  }

  function Lapsed(t: Tables, now: real): set<nat> {
    set sid | sid in t.rows && t.rows[sid].status == Processing && t.rows[sid].leaseUntil <= now
  }

  /** The SELECT of a claim: lowest waiting task first, otherwise the lowest task whose lease has lapsed. */
  function NextClaim(t: Tables, now: real): (p: Option<Pick>)
    ensures p.Some? ==>
      && p.value.sid in (if p.value.wasPending then Waiting(t, now) else Lapsed(t, now))
      && p.value.generation == t.rows[p.value.sid].generation
      && (!p.value.wasPending ==> Waiting(t, now) == {})
      && (p.value.wasPending ==> forall x :: x in Waiting(t, now) ==> p.value.sid <= x)
      && (!p.value.wasPending ==> forall x :: x in Lapsed(t, now) ==> p.value.sid <= x)
    ensures p == None <==> Waiting(t, now) + Lapsed(t, now) == {}
  {
    match Lowest(Waiting(t, now))
    case Some(sid) => Some(Pick(sid, true, t.rows[sid].generation))
    case None =>
      match Lowest(Lapsed(t, now))
      case Some(sid) => Some(Pick(sid, false, t.rows[sid].generation))
      case None => None
  }

  /** The conditional UPDATE of a claim; `None` when it matches no row. */
  function ClaimUpdate(t: Tables, p: Pick, owner: string, now: real, leaseSec: real, stamp: string): Option<Tables> {
    if p.sid !in t.rows || t.rows[p.sid].generation != p.generation then None
    else
      var r := t.rows[p.sid];
      var claimed := r.(status := Processing, owner := Some(owner), generation := p.generation + 1,
                        leaseUntil := LeaseEnd(now, leaseSec), updatedAt := stamp);
      if p.wasPending then
        if r.status == Pending && r.nextAttemptAt <= now then
          Some(WithRow(t, p.sid, claimed.(nextAttemptAt := 0.0)))
        else None
      else if r.status == Processing && r.leaseUntil <= now then Some(WithRow(t, p.sid, claimed))
      else None
  }

  /** The fence of this owner and generation is open for exactly the readings before `end`, and until then the row is
      in nobody's claimable set. */
  ghost predicate HeldUntil(t: Tables, sid: nat, owner: string, generation: nat, end: real) {
    forall at: real ::
      (Fenced(t, sid, owner, generation, at) <==> at < end) && (at < end ==> sid !in Waiting(t, at) + Lapsed(t, at))
  }

  /** A claim holds the row for the lease asked for, and never for less than a tenth of a second. */
  lemma ClaimHoldsForLease(t: Tables, p: Pick, owner: string, now: real, leaseSec: real, stamp: string)
    requires ClaimUpdate(t, p, owner, now, leaseSec, stamp).Some?
    ensures var t' := ClaimUpdate(t, p, owner, now, leaseSec, stamp).value;
      HeldUntil(t', p.sid, owner, p.generation + 1, now + (if leaseSec >= 0.1 then leaseSec else 0.1))
  {
  }

  /** A renewal that is not refused does the same, counted from its own reading. */
  lemma RenewalHoldsForLease(t: Tables, sid: nat, owner: string, generation: nat, now: real, leaseSec: real,
                             stamp: string)
    requires RenewLease(t, sid, owner, generation, now, leaseSec, stamp).1
    ensures var t' := RenewLease(t, sid, owner, generation, now, leaseSec, stamp).0;
      HeldUntil(t', sid, owner, generation, now + (if leaseSec >= 0.1 then leaseSec else 0.1))
  {
  }

  // ----- fenced writes -----

  /** Owner, generation and an unexpired lease, the condition of every write by a worker. */
  predicate FencePasses(r: Row, owner: string, generation: nat, now: real) {
    && r.status == Processing
    && r.owner == Some(owner)
    && r.generation == generation
    && r.leaseUntil > now
  }

  predicate Fenced(t: Tables, sid: nat, owner: string, generation: nat, now: real) {
    sid in t.rows && FencePasses(t.rows[sid], owner, generation, now)
  }

  function RenewLease(t: Tables, sid: nat, owner: string, generation: nat, now: real, leaseSec: real, stamp: string)
    : (Tables, bool)
  {
    if Fenced(t, sid, owner, generation, now) then
      (WithRow(t, sid, t.rows[sid].(leaseUntil := LeaseEnd(now, leaseSec), updatedAt := stamp)), true)
    else (t, false)
  }

  /** Leaving `processing` also clears the owner and the lease; the generation stays. */
  function Leaving(p: Patch): Patch {
    if p.status.Some? && p.status.value != Processing then p.(owner := Some(None), leaseUntil := Some(0.0)) else p
  }

  function UpdateOwned(t: Tables, sid: nat, owner: string, generation: nat, p: Patch, now: real, stamp: string)
    : (Tables, bool)
  {
    if p != NOTHING && Fenced(t, sid, owner, generation, now) then
      (WithRow(t, sid, Patched(t.rows[sid], Leaving(p), stamp)), true)
    else (t, false)
  }

  /** The first SELECT of the finalize: whose account pays, if the fence passes. */
  function FinalizeSelect(t: Tables, sid: nat, owner: string, generation: nat, now: real): Option<int> {
    if Fenced(t, sid, owner, generation, now) then Some(t.rows[sid].userId) else None
  }

  function Balance(t: Tables, userId: int): real {
    if userId in t.accounts then t.accounts[userId] else 0.0
  }

  predicate IsArrears(t: Tables, userId: int) {
    Balance(t, userId) <= 0.0
  }

  /** The conditional charge on its own: all of the cost or nothing. */
  function Charge(t: Tables, userId: int, cost: real): (Tables, bool) {
    if userId in t.accounts && t.accounts[userId] >= cost then
      (t.(accounts := t.accounts[userId := t.accounts[userId] - cost]), true)
    else (t, false)
  }

  /** A change of credits from outside; the triggers abort one that would leave a negative balance. */
  function Adjusted(t: Tables, userId: int, delta: real): Tables {
    var b := Balance(t, userId) + delta;
    if b < 0.0 then t else t.(accounts := t.accounts[userId := b])
  }

  /** The finalize transaction: `processing -> done` and the conditional charge, or neither. */
  function FinalizeWrite(t: Tables, sid: nat, owner: string, generation: nat, payer: int, cost: real,
                         version: string, required: string, msg: string, now: real, stamp: string): (Tables, bool)
  {
    if !Fenced(t, sid, owner, generation, now) then (t, false)
    else
      var p := NOTHING.(status := Some(Done), owner := Some(None), leaseUntil := Some(0.0),
                        detectedVersion := Some(Some(version)), requiredVersion := Some(Some(required)),
                        resultMsg := Some(Some(msg)));
      var finished := WithRow(t, sid, Patched(t.rows[sid], p, stamp));
      if cost <= 0.0 then (finished, true)
      else if payer in t.accounts && t.accounts[payer] >= cost then
        (finished.(accounts := t.accounts[payer := t.accounts[payer] - cost]), true)
      else (t, false)
  }

  // ----- uploads and plain updates -----

  function SameKey(t: Tables, userId: int, key: string): set<nat> {
    set sid | sid in t.rows && t.rows[sid].userId == userId && t.rows[sid].idemKey == key
  }

  function FindByKey(t: Tables, userId: int, key: string): (r: Option<nat>)
    ensures r.Some? ==> r.value in SameKey(t, userId, key)
    ensures r == None <==> SameKey(t, userId, key) == {}
  {
    Lowest(SameKey(t, userId, key))
  }

  function FreshRow(userId: int, key: string, hash: string, status: Status, leaseUntil: real, msg: Option<string>,
                    stamp: string): Row
  {
    Row(userId, key, hash, status, 0, 0.0, leaseUntil, None, 0, 0.0, None, msg, None, None, stamp)
  }

  /** An INSERT under the unique index on (user, idempotency key); `None` is the integrity error. */
  function Insert(t: Tables, r: Row): Option<Tables> {
    if SameKey(t, r.userId, r.idemKey) != {} then None
    else Some(WithRow(t, t.nextId, r).(nextId := t.nextId + 1))
  }

  function ReserveUpload(t: Tables, userId: int, key: string, hash: string, now: real, leaseSec: real, stamp: string)
    : Option<Tables>
  {
    Insert(t, FreshRow(userId, key, hash, Uploading, now + leaseSec, None, stamp))
  }

  function InsertRejected(t: Tables, userId: int, key: string, hash: string, msg: string, stamp: string)
    : Option<Tables>
  {
    Insert(t, FreshRow(userId, key, hash, Rejected, 0.0, Some(msg), stamp))
  }

  function ClaimStaleUpload(t: Tables, sid: nat, hash: string, now: real, leaseSec: real, stamp: string)
    : (Tables, bool)
  {
    if sid in t.rows && t.rows[sid].status == Uploading && t.rows[sid].fileHash == hash
       && t.rows[sid].uploadLeaseUntil <= now
    then (WithRow(t, sid, t.rows[sid].(uploadLeaseUntil := now + leaseSec, updatedAt := stamp)), true)
    else (t, false)
  }

  /** The optimistic update: it compares the status alone. */
  function UpdateTask(t: Tables, sid: nat, expected: Status, p: Patch, stamp: string): (Tables, bool) {
    if p != NOTHING && sid in t.rows && t.rows[sid].status == expected then
      (WithRow(t, sid, Patched(t.rows[sid], p, stamp)), true)
    else (t, false)
  }

  function FindArrears(t: Tables): (r: Option<nat>)
    ensures r.Some? ==> r.value in t.rows && t.rows[r.value].status == Arrears
    ensures r.Some? ==> forall x :: x in t.rows && t.rows[x].status == Arrears ==> r.value <= x
    ensures r == None ==> forall x :: x in t.rows ==> t.rows[x].status != Arrears
  {
    var waiting := set sid | sid in t.rows && t.rows[sid].status == Arrears;
    assert forall x :: x in t.rows && t.rows[x].status == Arrears ==> x in waiting;
    Lowest(waiting)
  }

  /** The read half of a state transition outside worker ownership: may `from` move to `to` at all?
      A same-state request and anything touching `processing` are refused. */
  predicate MayMove(from: Status, to: Status) {
    from != to && from != Processing && to != Processing && CanTransition(from, to)
  }

  lemma MovesExactly(from: Status, to: Status)
    ensures MayMove(from, to) <==> from in {Uploading, Arrears} && to == Pending
  {
  }
}
