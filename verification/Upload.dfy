/** One request thread of the submit endpoint as a program counter over atomic database and file steps, from the
    scanned upload to the answer. Any other actor may run between two steps, the collector may delete any
    temporary file, and the thread may be killed or hit an exception anywhere. */
module Upload {
  import opened Common
  import opened ObjectNames
  import opened Tasks
  import opened TaskDb
  import opened Evolution

  /** `sha` stands for SHA-256. Nothing is assumed of it. */
  datatype Config = Config(sha: Bytes -> string, uploadLease: real, processingLease: real)

  type Files = map<FileName, Bytes>

  datatype Request = Request(userId: int, key: string, hash: string, valid: bool)

  datatype Reply = Accepted | Replayed | KeyConflict | Refused | ObjectConflict | ServerError

  datatype Pc =
    | Ready
    | Scanned(req: Request)
    | Rejecting(req: Request)
    | RejectCollided(req: Request)
    | Reserving(req: Request)
    | Reserved(req: Request, sid: nat)
    | Collided(req: Request)
    | Probing(sid: nat, hash: string)
    | Leasing(sid: nat, hash: string)
    | Opening(sid: nat, hash: string)
    | Writing(sid: nat, hash: string, written: Bytes)
    | Checked(sid: nat, hash: string, written: Bytes)
    | Moving(sid: nat, hash: string, afterPut: bool)
    | MoveWrite(sid: nat, hash: string, afterPut: bool, from: Status)
    | Confirming(sid: nat, hash: string)
    | CannotAdvance(sid: nat)
    | Aborting(sid: nat)
    | Answered(reply: Reply)

  datatype Act =
    | Submit(userId: int, key: string, content: Bytes, valid: bool)
    | Find
    | Reject(msg: string, stamp: string)
    | RejectFind
    | Reserve(now: real, stamp: string)
    | ReserveRead
    | CollideRead
    | Probe
    | TakeLease(now: real, stamp: string)
    | OpenTemp
    | WriteChunk(chunk: Bytes)
    | CheckHash(cleaned: bool)
    | Replace
    | ReadStatus
    | WriteStatus(stamp: string)
    | Confirm
    | Raise
    | Fail(cleaned: bool)
    | Abort(stamp: string)
    | Kill

  datatype Effect = Effect(tables: Tables, files: Files, pc: Pc)

  /** What the upload writes when it moves its submission to `pending`. */
  function SubmittedPatch(sid: nat, hash: string): Patch {
    NOTHING.(status := Some(Pending), objectKey := Some(Some(ObjectKey(sid))), fileHash := Some(hash),
             uploadLeaseUntil := Some(0.0), resultMsg := Some(None))
  }

  /** What the exception handler writes: the lease is given up whoever holds it. */
  const ABORT_PATCH := NOTHING.(uploadLeaseUntil := Some(0.0), resultMsg := Some(Some("object write incomplete")))

  function Without(files: Files, f: FileName): Files {
    files - {f}
  }

  /** Where an existing row sends a request: a conflict, a replay, or the recovery of an unfinished upload. */
  function Existing(r: Row, sid: nat, req: Request): Pc {
    if r.fileHash != req.hash then Answered(KeyConflict)
    else if r.status != Uploading then Answered(Replayed)
    else Probing(sid, req.hash)
  }

  /** One step of the thread `u`. An act that does not fit the program counter changes nothing. */
  function Step(c: Config, tables: Tables, files: Files, u: Thread, pc: Pc, act: Act): Effect {
    var same := Effect(tables, files, pc);
    match act
    case Submit(userId, key, content, valid) =>
      if pc == Ready || pc.Answered? then same.(pc := Scanned(Request(userId, key, c.sha(content), valid))) else same
    case Find =>
      if !pc.Scanned? then same
      else (match FindByKey(tables, pc.req.userId, pc.req.key)
            case Some(sid) => same.(pc := Existing(tables.rows[sid], sid, pc.req))
            case None => same.(pc := if pc.req.valid then Reserving(pc.req) else Rejecting(pc.req)))
    case Reject(msg, stamp) =>
      if !pc.Rejecting? then same
      else (match InsertRejected(tables, pc.req.userId, pc.req.key, pc.req.hash, msg, stamp)
            case Some(t) => Effect(t, files, Answered(Refused))
            case None => same.(pc := RejectCollided(pc.req)))
    case RejectFind =>
      if !pc.RejectCollided? then same
      else (match FindByKey(tables, pc.req.userId, pc.req.key)
            case Some(sid) =>
              same.(pc := Answered(if tables.rows[sid].fileHash != pc.req.hash then KeyConflict else Refused))
            case None => same.(pc := Answered(Refused)))
    case Reserve(now, stamp) =>
      if !pc.Reserving? then same
      else (match ReserveUpload(tables, pc.req.userId, pc.req.key, pc.req.hash, now, c.uploadLease, stamp)
            case Some(t) => Effect(t, files, Reserved(pc.req, tables.nextId))
            case None => same.(pc := Collided(pc.req)))
    case ReserveRead =>
      if !pc.Reserved? || pc.sid !in tables.rows then same
      else if tables.rows[pc.sid].fileHash != pc.req.hash then same.(pc := Answered(KeyConflict))
      else same.(pc := Opening(pc.sid, pc.req.hash))
    case CollideRead =>
      if !pc.Collided? then same
      else (match FindByKey(tables, pc.req.userId, pc.req.key)
            case Some(sid) => same.(pc := Existing(tables.rows[sid], sid, pc.req))
            case None => same.(pc := Answered(ServerError)))
    case Probe =>
      if !pc.Probing? then same
      else if Final(pc.sid) !in files then same.(pc := Leasing(pc.sid, pc.hash))
      else if c.sha(files[Final(pc.sid)]) != pc.hash then same.(pc := Answered(ObjectConflict))
      else same.(pc := Moving(pc.sid, pc.hash, false))
    case TakeLease(now, stamp) =>
      if !pc.Leasing? then same
      else
        var (t, ok) := ClaimStaleUpload(tables, pc.sid, pc.hash, now, c.uploadLease, stamp);
        Effect(t, files, if ok then Opening(pc.sid, pc.hash) else Answered(Replayed))
    case OpenTemp =>
      if !pc.Opening? then same
      else Effect(tables, files[Temp(pc.sid, u) := []], Writing(pc.sid, pc.hash, []))
    case WriteChunk(chunk) =>
      if !pc.Writing? then same
      else
        var f := Temp(pc.sid, u);
        Effect(tables, if f in files then files[f := files[f] + chunk] else files,
               Writing(pc.sid, pc.hash, pc.written + chunk))
    case CheckHash(cleaned) =>
      if !pc.Writing? then same
      else if c.sha(pc.written) == pc.hash then same.(pc := Checked(pc.sid, pc.hash, pc.written))
      else Effect(tables, if cleaned then Without(files, Temp(pc.sid, u)) else files, Aborting(pc.sid))
    case Replace =>
      if !pc.Checked? then same
      else
        var f := Temp(pc.sid, u);
        if f !in files then same.(pc := Aborting(pc.sid))
        else Effect(tables, Without(files, f)[Final(pc.sid) := files[f]], Moving(pc.sid, pc.hash, true))
    case ReadStatus =>
      if !pc.Moving? || pc.sid !in tables.rows then same
      else
        var from := tables.rows[pc.sid].status;
        same.(pc := if MayMove(from, Pending) then MoveWrite(pc.sid, pc.hash, pc.afterPut, from)
                    else if pc.afterPut then Confirming(pc.sid, pc.hash)
                    else Answered(Replayed))
    case WriteStatus(stamp) =>
      if !pc.MoveWrite? then same
      else
        var (t, ok) := UpdateTask(tables, pc.sid, pc.from, SubmittedPatch(pc.sid, pc.hash), stamp);
        Effect(t, files, if !pc.afterPut then Answered(Replayed)
                         else if ok then Answered(Accepted) else Confirming(pc.sid, pc.hash))
    case Confirm =>
      if !pc.Confirming? || pc.sid !in tables.rows then same
      else same.(pc := if tables.rows[pc.sid].status != Uploading then Answered(Replayed) else CannotAdvance(pc.sid))
    case Raise =>
      if !pc.CannotAdvance? then same else same.(pc := Aborting(pc.sid))
    case Fail(cleaned) =>
      if pc.Opening? || pc.Writing? || pc.Checked? then
        Effect(tables, if cleaned then Without(files, Temp(pc.sid, u)) else files, Aborting(pc.sid))
      else if ((pc.Moving? || pc.MoveWrite?) && pc.afterPut) || pc.Confirming? then same.(pc := Aborting(pc.sid))
      else if pc == Ready || pc.Answered? then same
      else same.(pc := Answered(ServerError))
    case Abort(stamp) =>
      if !pc.Aborting? then same
      else Effect(UpdateTask(tables, pc.sid, Uploading, ABORT_PATCH, stamp).0, files, Answered(ServerError))
    case Kill => same.(pc := Ready)
  }

  // ----- what holds of the object directory, and what a thread may rely on -----

  /** Every final object belongs to a submission and has its fingerprint; every submitted row has its object. */
  ghost predicate StoreOk(c: Config, tables: Tables, files: Files) {
    && (forall sid :: Final(sid) in files ==>
          sid in tables.rows && c.sha(files[Final(sid)]) == tables.rows[sid].fileHash)
    && (forall sid :: sid in tables.rows && Submitted(tables.rows[sid].status) ==> Final(sid) in files)
  }

  ghost predicate Owns(tables: Tables, sid: nat, hash: string) {
    sid in tables.rows && tables.rows[sid].fileHash == hash
  }

  ghost predicate TempIs(files: Files, sid: nat, u: Thread, written: Bytes) {
    Temp(sid, u) in files ==> files[Temp(sid, u)] == written
  }

  ghost predicate PcOk(c: Config, tables: Tables, files: Files, u: Thread, pc: Pc) {
    match pc
    case Reserved(req, sid) => Owns(tables, sid, req.hash)
    case Probing(sid, h) => Owns(tables, sid, h)
    case Leasing(sid, h) => Owns(tables, sid, h)
    case Opening(sid, h) => Owns(tables, sid, h)
    case Writing(sid, h, written) => Owns(tables, sid, h) && TempIs(files, sid, u, written)
    case Checked(sid, h, written) => Owns(tables, sid, h) && TempIs(files, sid, u, written) && c.sha(written) == h
    case Moving(sid, h, _) => Owns(tables, sid, h) && Final(sid) in files
    case MoveWrite(sid, h, _, from) =>
      && Owns(tables, sid, h) && Final(sid) in files && MayMove(from, Pending)
      && (from != Uploading ==> tables.rows[sid].status != Uploading)
    case Confirming(sid, h) => Owns(tables, sid, h) && tables.rows[sid].status != Uploading
    case CannotAdvance(sid) => false
    case Answered(reply) => reply != ObjectConflict
    case _ => true
  }

  /** How the directory may change under a thread: final objects stay with their hash, and nobody else writes
      a temporary file of this thread, though it may disappear. */
  ghost predicate FilesEvolve(c: Config, files: Files, files': Files, u: Thread) {
    && (forall sid :: Final(sid) in files ==>
          Final(sid) in files' && c.sha(files'[Final(sid)]) == c.sha(files[Final(sid)]))
    && (forall sid :: Temp(sid, u) in files' ==> Temp(sid, u) in files && files'[Temp(sid, u)] == files[Temp(sid, u)])
  }

  /** A row may become submitted only if its object is already in place. */
  ghost predicate SubmitsOnlyStored(tables: Tables, tables': Tables, files: Files) {
    forall sid :: sid in tables'.rows && Submitted(tables'.rows[sid].status) ==>
      (sid in tables.rows && Submitted(tables.rows[sid].status)) || Final(sid) in files
  }

  lemma FilesSame(c: Config, files: Files)
    ensures forall u :: FilesEvolve(c, files, files, u)
  {
  }

  lemma PcOkStable(c: Config, t: Tables, t': Tables, files: Files, files': Files, u: Thread, pc: Pc)
    requires PcOk(c, t, files, u, pc) && TablesEvolve(t, t') && FilesEvolve(c, files, files', u)
    ensures PcOk(c, t', files', u, pc)
  {
  }

  lemma StoreOkStable(c: Config, t: Tables, t': Tables, files: Files)
    requires StoreOk(c, t, files) && TablesEvolve(t, t') && SubmitsOnlyStored(t, t', files)
    ensures StoreOk(c, t', files)
  {
  }

  predicate WritesTables(act: Act) {
    act.Reject? || act.Reserve? || act.TakeLease? || act.WriteStatus? || act.Abort?
  }

  predicate WritesFiles(act: Act) {
    act.OpenTemp? || act.WriteChunk? || act.CheckHash? || act.Replace? || act.Fail?
  }

  ghost predicate GoodWrite(t: Tables, t': Tables, files: Files) {
    TablesOk(t') && TablesEvolve(t, t') && SubmitsOnlyStored(t, t', files)
  }

  lemma NoWrite(t: Tables, files: Files)
    requires TablesOk(t)
    ensures GoodWrite(t, t, files)
  {
  }

  lemma FreshInserted(t: Tables, userId: int, key: string, hash: string, status: Status, leaseUntil: real,
                      msg: Option<string>, stamp: string, files: Files)
    requires TablesOk(t) && (status == Uploading || (status == Rejected && leaseUntil == 0.0))
    ensures var i := Insert(t, FreshRow(userId, key, hash, status, leaseUntil, msg, stamp));
      i.Some? ==> GoodWrite(t, i.value, files)
  {
    RowInserted(t, FreshRow(userId, key, hash, status, leaseUntil, msg, stamp));
  }

  lemma RejectGood(c: Config, t: Tables, files: Files, u: Thread, pc: Pc, act: Act)
    requires TablesOk(t) && act.Reject?
    ensures GoodWrite(t, Step(c, t, files, u, pc, act).tables, files)
  {
    hide GoodWrite;
    NoWrite(t, files);
    if pc.Rejecting? {
      FreshInserted(t, pc.req.userId, pc.req.key, pc.req.hash, Rejected, 0.0, Some(act.msg), act.stamp, files);
    }
  }

  lemma ReserveGood(c: Config, t: Tables, files: Files, u: Thread, pc: Pc, act: Act)
    requires TablesOk(t) && act.Reserve?
    ensures GoodWrite(t, Step(c, t, files, u, pc, act).tables, files)
  {
    hide GoodWrite;
    NoWrite(t, files);
    if pc.Reserving? {
      FreshInserted(t, pc.req.userId, pc.req.key, pc.req.hash, Uploading, act.now + c.uploadLease, None, act.stamp,
                    files);
    }
  }

  lemma TakeLeaseGood(t: Tables, sid: nat, hash: string, now: real, leaseSec: real, stamp: string, files: Files)
    requires TablesOk(t)
    ensures GoodWrite(t, ClaimStaleUpload(t, sid, hash, now, leaseSec, stamp).0, files)
  {
    TablesReflexive(t);
    if ClaimStaleUpload(t, sid, hash, now, leaseSec, stamp).1 {
      RowReplaced(t, sid, t.rows[sid].(uploadLeaseUntil := now + leaseSec, updatedAt := stamp));
    }
  }

  lemma SubmittedGood(r: Row, sid: nat, hash: string, stamp: string)
    requires RowOk(sid, r) && r.fileHash == hash && MayMove(r.status, Pending)
    ensures var r' := Patched(r, SubmittedPatch(sid, hash), stamp); RowOk(sid, r') && Evolves(r, r')
  {
  }

  lemma MoveGood(t: Tables, sid: nat, hash: string, from: Status, stamp: string, files: Files)
    requires TablesOk(t) && Owns(t, sid, hash) && MayMove(from, Pending) && Final(sid) in files
    ensures GoodWrite(t, UpdateTask(t, sid, from, SubmittedPatch(sid, hash), stamp).0, files)
  {
    TablesReflexive(t);
    if t.rows[sid].status == from {
      SubmittedGood(t.rows[sid], sid, hash, stamp);
      hide RowOk, Evolves, Patched, SubmittedPatch;
      RowReplaced(t, sid, Patched(t.rows[sid], SubmittedPatch(sid, hash), stamp));
    }
  }

  lemma AbortGood(t: Tables, sid: nat, stamp: string, files: Files)
    requires TablesOk(t)
    ensures GoodWrite(t, UpdateTask(t, sid, Uploading, ABORT_PATCH, stamp).0, files)
  {
    TablesReflexive(t);
    if sid in t.rows && t.rows[sid].status == Uploading {
      RowReplaced(t, sid, Patched(t.rows[sid], ABORT_PATCH, stamp));
    }
  }

  /** Steps that write the database leave the directory alone and keep the tables legal. */
  lemma WritingStep(c: Config, tables: Tables, files: Files, u: Thread, pc: Pc, act: Act)
    requires TablesOk(tables) && PcOk(c, tables, files, u, pc) && WritesTables(act)
    ensures var e := Step(c, tables, files, u, pc, act);
      e.files == files && GoodWrite(tables, e.tables, files)
  {
    hide GoodWrite;
    NoWrite(tables, files);
    match act
    case Reject(_, _) => RejectGood(c, tables, files, u, pc, act);
    case Reserve(_, _) => ReserveGood(c, tables, files, u, pc, act);
    case TakeLease(now, stamp) =>
      if pc.Leasing? {
        TakeLeaseGood(tables, pc.sid, pc.hash, now, c.uploadLease, stamp, files);
      }
    case WriteStatus(stamp) =>
      if pc.MoveWrite? {
        MoveGood(tables, pc.sid, pc.hash, pc.from, stamp, files);
      }
    case Abort(stamp) =>
      if pc.Aborting? {
        AbortGood(tables, pc.sid, stamp, files);
      }
  }

  /** The directory changed only in the temporary file of `u` for `sid`, or gained the final object `sid` with
      the fingerprint of its submission. */
  ghost predicate DirectoryKept(c: Config, tables: Tables, files: Files, files': Files, u: Thread) {
    && StoreOk(c, tables, files')
    && (forall v :: v != u ==> FilesEvolve(c, files, files', v))
    && (forall sid :: Final(sid) in files ==>
          Final(sid) in files' && c.sha(files'[Final(sid)]) == c.sha(files[Final(sid)]))
  }

  lemma TempChanged(c: Config, tables: Tables, files: Files, files': Files, sid: nat, u: Thread)
    requires StoreOk(c, tables, files)
    requires forall f :: f != Temp(sid, u) ==> (f in files <==> f in files') && (f in files ==> files'[f] == files[f])
    ensures DirectoryKept(c, tables, files, files', u)
  {
  }

  lemma ObjectInstalled(c: Config, tables: Tables, files: Files, sid: nat, u: Thread)
    requires StoreOk(c, tables, files) && Temp(sid, u) in files
    requires sid in tables.rows && c.sha(files[Temp(sid, u)]) == tables.rows[sid].fileHash
    ensures DirectoryKept(c, tables, files, Without(files, Temp(sid, u))[Final(sid) := files[Temp(sid, u)]], u)
  {
  }

  /** Steps on the directory keep every final object's hash and touch no other thread's temporary file. */
  lemma FileStep(c: Config, tables: Tables, files: Files, u: Thread, pc: Pc, act: Act)
    requires StoreOk(c, tables, files) && PcOk(c, tables, files, u, pc) && !WritesTables(act)
    ensures var e := Step(c, tables, files, u, pc, act);
      e.tables == tables && DirectoryKept(c, tables, files, e.files, u)
  {
    var e := Step(c, tables, files, u, pc, act);
    if pc.Checked? && act.Replace? && Temp(pc.sid, u) in files {
      ObjectInstalled(c, tables, files, pc.sid, u);
    } else {
      hide StoreOk, DirectoryKept;
      var sid := if pc.Opening? || pc.Writing? || pc.Checked? then pc.sid else 0;
      TempChanged(c, tables, files, e.files, sid, u);
    }
  }

  lemma PcAfterWrite(c: Config, tables: Tables, files: Files, u: Thread, pc: Pc, act: Act)
    requires TablesOk(tables) && PcOk(c, tables, files, u, pc) && WritesTables(act)
    ensures var e := Step(c, tables, files, u, pc, act);
      PcOk(c, e.tables, e.files, u, e.pc)
  {
    var e := Step(c, tables, files, u, pc, act);
    hide TablesOk, RowOk, Evolves, FilesEvolve, SubmitsOnlyStored, Patched, StoreOk;
    FilesSame(c, files);
    WritingStep(c, tables, files, u, pc, act);
    PcOkStable(c, tables, e.tables, files, files, u, pc);
    hide TablesEvolve, GoodWrite;
  }

  lemma PcAfterFileStep(c: Config, tables: Tables, files: Files, u: Thread, pc: Pc, act: Act)
    requires StoreOk(c, tables, files) && PcOk(c, tables, files, u, pc) && WritesFiles(act)
    ensures var e := Step(c, tables, files, u, pc, act);
      PcOk(c, tables, e.files, u, e.pc)
  {
  }

  lemma PcAfterRead(c: Config, tables: Tables, files: Files, u: Thread, pc: Pc, act: Act)
    requires StoreOk(c, tables, files) && PcOk(c, tables, files, u, pc) && !WritesTables(act) && !WritesFiles(act)
    ensures var e := Step(c, tables, files, u, pc, act);
      PcOk(c, tables, files, u, e.pc)
  {
    hide FindByKey;
  }

  /** What the thread knows after its own step. */
  lemma PcStep(c: Config, tables: Tables, files: Files, u: Thread, pc: Pc, act: Act)
    requires TablesOk(tables) && StoreOk(c, tables, files) && PcOk(c, tables, files, u, pc)
    ensures var e := Step(c, tables, files, u, pc, act);
      PcOk(c, e.tables, e.files, u, e.pc)
  {
    if WritesTables(act) {
      PcAfterWrite(c, tables, files, u, pc, act);
    } else {
      FileStep(c, tables, files, u, pc, act);
      if WritesFiles(act) {
        PcAfterFileStep(c, tables, files, u, pc, act);
      } else {
        PcAfterRead(c, tables, files, u, pc, act);
      }
    }
  }

  /** What a request thread does to an existing row: it renews or gives up an upload lease, submits the upload, or
      queues again a task that waits for credits. */
  ghost predicate LeavesProcessing(t: Tables, t': Tables, sid: nat) {
    && sid in t.rows && sid in t'.rows && t'.accounts == t.accounts
    && var r, r' := t.rows[sid], t'.rows[sid];
    && r'.retryCount == r.retryCount && r'.generation == r.generation
    && (r'.status == r.status || (r.status in {Uploading, Arrears} && r'.status == Pending))
    && (r.status == Processing ==> r' == r)
  }

  lemma SameLeaves(t: Tables, sid: nat)
    requires sid in t.rows
    ensures LeavesProcessing(t, t, sid)
  {
  }

  lemma InsertLeaves(t: Tables, r: Row, sid: nat)
    requires sid in t.rows && sid < t.nextId
    ensures Insert(t, r).Some? ==> LeavesProcessing(t, Insert(t, r).value, sid)
  {
  }

  lemma TakeLeaseLeaves(t: Tables, of: nat, hash: string, now: real, leaseSec: real, stamp: string, sid: nat)
    requires sid in t.rows
    ensures LeavesProcessing(t, ClaimStaleUpload(t, of, hash, now, leaseSec, stamp).0, sid)
  {
  }

  lemma UpdateLeaves(t: Tables, of: nat, from: Status, p: Patch, stamp: string, sid: nat)
    requires sid in t.rows && p.retryCount == None && from in {Uploading, Arrears}
    requires p.status == None || p.status == Some(Pending)
    ensures LeavesProcessing(t, UpdateTask(t, of, from, p, stamp).0, sid)
  {
  }

  lemma StepOnRow(c: Config, tables: Tables, files: Files, u: Thread, pc: Pc, act: Act, sid: nat)
    requires TablesOk(tables) && PcOk(c, tables, files, u, pc) && sid in tables.rows
    ensures LeavesProcessing(tables, Step(c, tables, files, u, pc, act).tables, sid)
  {
    if WritesTables(act) {
      WriteOnRow(c, tables, files, u, pc, act, sid);
    } else {
      hide TablesOk, PcOk, FindByKey;
      ReadsTables(c, tables, files, u, pc, act);
      hide Step;
    }
  }

  lemma ReadsTables(c: Config, tables: Tables, files: Files, u: Thread, pc: Pc, act: Act)
    requires !WritesTables(act)
    ensures Step(c, tables, files, u, pc, act).tables == tables
  {
    hide FindByKey;
  }

  lemma WriteOnRow(c: Config, tables: Tables, files: Files, u: Thread, pc: Pc, act: Act, sid: nat)
    requires TablesOk(tables) && PcOk(c, tables, files, u, pc) && sid in tables.rows && WritesTables(act)
    ensures LeavesProcessing(tables, Step(c, tables, files, u, pc, act).tables, sid)
  {
    assert sid < tables.nextId;
    hide TablesOk, FindByKey, LeavesProcessing, Insert, ClaimStaleUpload, UpdateTask;
    SameLeaves(tables, sid);
    if act.WriteStatus? || act.Abort? {
      UpdateOnRow(c, tables, files, u, pc, act, sid);
      hide Step;
      return;
    }
    match act
    case Reject(msg, stamp) =>
      if pc.Rejecting? {
        InsertLeaves(tables, FreshRow(pc.req.userId, pc.req.key, pc.req.hash, Rejected, 0.0, Some(msg), stamp), sid);
      }
    case Reserve(now, stamp) =>
      if pc.Reserving? {
        InsertLeaves(tables, FreshRow(pc.req.userId, pc.req.key, pc.req.hash, Uploading, now + c.uploadLease, None,
                                      stamp), sid);
      }
    case TakeLease(now, stamp) =>
      if pc.Leasing? {
        TakeLeaseLeaves(tables, pc.sid, pc.hash, now, c.uploadLease, stamp, sid);
      }
  }

  lemma UpdateOnRow(c: Config, tables: Tables, files: Files, u: Thread, pc: Pc, act: Act, sid: nat)
    requires PcOk(c, tables, files, u, pc) && sid in tables.rows && (act.WriteStatus? || act.Abort?)
    ensures LeavesProcessing(tables, Step(c, tables, files, u, pc, act).tables, sid)
  {
    hide LeavesProcessing, UpdateTask;
    SameLeaves(tables, sid);
    if pc.MoveWrite? && act.WriteStatus? {
      UpdateLeaves(tables, pc.sid, pc.from, SubmittedPatch(pc.sid, pc.hash), act.stamp, sid);
    } else if pc.Aborting? && act.Abort? {
      UpdateLeaves(tables, pc.sid, Uploading, ABORT_PATCH, act.stamp, sid);
    }
  }
}
