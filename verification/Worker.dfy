/** One worker thread as a program counter over atomic database steps. Between two steps any other actor may
    run, and the thread may stop for good. */
module Worker {
  import opened Common
  import opened Tasks
  import opened TaskDb
  import opened Evolution
  import opened Recognize

  /** The row a claim read back after its commit, as `handle_one` keeps it for the rest of the attempt. */
  datatype Ticket = Ticket(sid: nat, generation: nat, userId: int, retryCount: nat, external: bool)

  datatype Pc =
    | Idle
    | Selected(pick: Pick, readAt: real)
    | Claimed(sid: nat, newGeneration: nat, readAt: real)
    | Holding(t: Ticket)
    | Calling(t: Ticket)
    | Judged(t: Ticket, result: ModelResult)
    | Finalizing(t: Ticket, result: ModelResult, readAt: real, payer: int)
    | Refused(t: Ticket)
    | Starving(t: Ticket, msg: string)
    | ArrearsFound(sid: nat)
    | Requeueing(sid: nat, reason: string)
    | RequeueWrite(sid: nat, from: Status, reason: string)

  datatype Act =
    | ClaimSelect(now: real)
    | ClaimWrite(stamp: string)
    | ReadBack(external: bool)
    | QuotaCheck
    | CallModel(result: ModelResult)
    | CommitFailure(now: real, retryAt: real, stamp: string)
    | FinalizeRead(now: real)
    | FinalizeCommit(stamp: string)
    | ArrearsCheck
    | ArrearsCommit(now: real, stamp: string)
    | FindArrearsTask
    | CheckRecovered(external: bool)
    | ReadStatus
    | WriteStatus(stamp: string)
    | Drop

  datatype Effect = Effect(tables: Tables, pc: Pc)

  predicate HasTicket(pc: Pc) {
    pc.Holding? || pc.Calling? || pc.Judged? || pc.Finalizing? || pc.Refused? || pc.Starving?
  }

  /** What a failed recognition writes: a control block goes back to the queue with its retry count as it was,
      anything else costs one retry and ends in the dead-letter queue at the limit. */
  predicate IsControlBlock(t: Ticket, result: ModelResult) {
    t.external && IsExternalControlBlock(result.msg)
  }

  function FailurePatch(t: Ticket, result: ModelResult, retryAt: real): Patch {
    var base := NOTHING.(resultMsg := Some(Some(result.msg)));
    if IsControlBlock(t, result) then
      base.(status := Some(Pending), retryCount := Some(t.retryCount), nextAttemptAt := Some(retryAt))
    else if t.retryCount + 1 >= MAX_RETRY then
      base.(status := Some(Dlq), retryCount := Some(t.retryCount + 1))
    else
      base.(status := Some(Pending), retryCount := Some(t.retryCount + 1), nextAttemptAt := Some(retryAt))
  }

  function ArrearsPatch(msg: string): Patch {
    NOTHING.(status := Some(Arrears), resultMsg := Some(Some(msg)))
  }

  function RequeuePatch(reason: string): Patch {
    NOTHING.(status := Some(Pending), nextAttemptAt := Some(0.0), resultMsg := Some(Some(reason)))
  }

  function ChargeFor(t: Ticket): real {
    if t.external then COST_PER_CALL else 0.0
  }

  /** One step of the thread named `w`; `lost` is what its heartbeat has concluded so far. An act that does not
      fit the program counter changes nothing. */
  function Step(leaseSec: real, tables: Tables, w: string, pc: Pc, lost: bool, act: Act): Effect {
    match act
    case ClaimSelect(now) =>
      if pc != Idle then Effect(tables, pc)
      else (match NextClaim(tables, now)
            case None => Effect(tables, Idle)
            case Some(p) => Effect(tables, Selected(p, now)))
    case ClaimWrite(stamp) =>
      if !pc.Selected? then Effect(tables, pc)
      else (match ClaimUpdate(tables, pc.pick, w, pc.readAt, leaseSec, stamp)
            case None => Effect(tables, Idle)
            case Some(t) => Effect(t, Claimed(pc.pick.sid, pc.pick.generation + 1, pc.readAt)))
    case ReadBack(external) =>
      if !pc.Claimed? || pc.sid !in tables.rows then Effect(tables, pc)
      else
        var r := tables.rows[pc.sid];
        Effect(tables, Holding(Ticket(pc.sid, r.generation, r.userId, r.retryCount, external)))
    case QuotaCheck =>
      if !pc.Holding? then Effect(tables, pc)
      else if pc.t.external && IsArrears(tables, pc.t.userId) then
        Effect(tables, if lost then Idle else Starving(pc.t, "quota exhausted before the call"))
      else Effect(tables, Calling(pc.t))
    case CallModel(result) =>
      if !pc.Calling? then Effect(tables, pc)
      else Effect(tables, if lost then Idle else Judged(pc.t, result))
    case CommitFailure(now, retryAt, stamp) =>
      if !pc.Judged? || pc.result.ok then Effect(tables, pc)
      else
        var p := FailurePatch(pc.t, pc.result, retryAt);
        Effect(UpdateOwned(tables, pc.t.sid, w, pc.t.generation, p, now, stamp).0, Idle)
    case FinalizeRead(now) =>
      if !pc.Judged? || !pc.result.ok then Effect(tables, pc)
      else (match FinalizeSelect(tables, pc.t.sid, w, pc.t.generation, now)
            case None => Effect(tables, Refused(pc.t))
            case Some(payer) => Effect(tables, Finalizing(pc.t, pc.result, now, payer)))
    case FinalizeCommit(stamp) =>
      if !pc.Finalizing? then Effect(tables, pc)
      else
        var (t', ok) := FinalizeWrite(tables, pc.t.sid, w, pc.t.generation, pc.payer, ChargeFor(pc.t),
                                      pc.result.version, REQUIRED_VERSION, Verdict(pc.result.version),
                                      pc.readAt, stamp);
        Effect(t', if ok then Idle else Refused(pc.t))
    case ArrearsCheck =>
      if !pc.Refused? then Effect(tables, pc)
      else if pc.t.external && IsArrears(tables, pc.t.userId) then
        Effect(tables, Starving(pc.t, "quota exhausted by another task"))
      else Effect(tables, Idle)
    case ArrearsCommit(now, stamp) =>
      if !pc.Starving? then Effect(tables, pc)
      else Effect(UpdateOwned(tables, pc.t.sid, w, pc.t.generation, ArrearsPatch(pc.msg), now, stamp).0, Idle)
    case FindArrearsTask =>
      if pc != Idle then Effect(tables, pc)
      else (match FindArrears(tables)
            case None => Effect(tables, Idle)
            case Some(sid) => Effect(tables, ArrearsFound(sid)))
    case CheckRecovered(external) =>
      if !pc.ArrearsFound? || pc.sid !in tables.rows then Effect(tables, pc)
      else if !external then Effect(tables, Requeueing(pc.sid, "internal model, queued again"))
      else if !IsArrears(tables, tables.rows[pc.sid].userId) then
        Effect(tables, Requeueing(pc.sid, "quota restored, queued again"))
      else Effect(tables, Idle)
    case ReadStatus =>
      if !pc.Requeueing? || pc.sid !in tables.rows then Effect(tables, pc)
      else
        var from := tables.rows[pc.sid].status;
        Effect(tables, if MayMove(from, Pending) then RequeueWrite(pc.sid, from, pc.reason) else Idle)
    case WriteStatus(stamp) =>
      if !pc.RequeueWrite? then Effect(tables, pc)
      else Effect(UpdateTask(tables, pc.sid, pc.from, RequeuePatch(pc.reason), stamp).0, Idle)
    case Drop => Effect(tables, Idle)
  }

  // ----- what a thread may rely on -----

  ghost predicate TicketOk(tables: Tables, t: Ticket) {
    && t.sid in tables.rows
    && var r := tables.rows[t.sid];
    && Submitted(r.status)
    && 0 < t.generation <= r.generation
    && t.userId == r.userId
    && (r.generation == t.generation && r.status == Processing ==> r.retryCount == t.retryCount)
  }

  ghost predicate NotUploading(tables: Tables, sid: nat) {
    sid in tables.rows && Submitted(tables.rows[sid].status)
  }

  ghost predicate PcOk(tables: Tables, pc: Pc) {
    match pc
    case Idle => true
    case Selected(p, _) => NotUploading(tables, p.sid)
    case Claimed(sid, g, _) => NotUploading(tables, sid) && 0 < g <= tables.rows[sid].generation
    case Holding(t) => TicketOk(tables, t)
    case Calling(t) => TicketOk(tables, t)
    case Judged(t, _) => TicketOk(tables, t)
    case Finalizing(t, res, _, payer) => TicketOk(tables, t) && payer == t.userId && res.ok
    case Refused(t) => TicketOk(tables, t)
    case Starving(t, _) => TicketOk(tables, t)
    case ArrearsFound(sid) => NotUploading(tables, sid)
    case Requeueing(sid, _) => NotUploading(tables, sid)
    case RequeueWrite(sid, from, _) => NotUploading(tables, sid) && from == Arrears
  }

  /** What a thread knows survives any step of anybody else. */
  lemma PcOkStable(t: Tables, t': Tables, pc: Pc)
    requires PcOk(t, pc) && TablesEvolve(t, t')
    ensures PcOk(t', pc)
  {
    hide TablesEvolve, TicketOk;
    if HasTicket(pc) {
      TicketStable(t, t', pc.t);
    } else {
      SubmittedStable(t, t');
    }
  }

  lemma TicketStable(t: Tables, t': Tables, k: Ticket)
    requires TicketOk(t, k) && TablesEvolve(t, t')
    ensures TicketOk(t', k)
  {
  }

  lemma SubmittedStable(t: Tables, t': Tables)
    requires TablesEvolve(t, t')
    ensures forall sid :: NotUploading(t, sid) ==>
      NotUploading(t', sid) && t'.rows[sid].generation >= t.rows[sid].generation
  {
  }

  /** The fenced exits, given a ticket that is either stale or an exact copy of the row. */
  lemma ExitEvolves(tables: Tables, w: string, t: Ticket, p: Patch, now: real, stamp: string)
    requires TablesOk(tables) && TicketOk(tables, t)
    requires (exists res, at :: p == FailurePatch(t, res, at)) || (exists msg :: p == ArrearsPatch(msg))
    ensures var t' := UpdateOwned(tables, t.sid, w, t.generation, p, now, stamp).0;
      TablesOk(t') && TablesEvolve(tables, t')
  {
    if Fenced(tables, t.sid, w, t.generation, now) {
      RowReplaced(tables, t.sid, Patched(tables.rows[t.sid], Leaving(p), stamp));
    }
  }

  lemma RequeueEvolves(tables: Tables, sid: nat, from: Status, reason: string, stamp: string)
    requires TablesOk(tables) && NotUploading(tables, sid) && from == Arrears
    ensures var t' := UpdateTask(tables, sid, from, RequeuePatch(reason), stamp).0;
      TablesOk(t') && TablesEvolve(tables, t')
  {
    if tables.rows[sid].status == from {
      RowReplaced(tables, sid, Patched(tables.rows[sid], RequeuePatch(reason), stamp));
    }
  }

  lemma FinalizeEvolves(tables: Tables, w: string, t: Ticket, payer: int, cost: real, version: string, msg: string,
                        now: real, stamp: string)
    requires TablesOk(tables) && TicketOk(tables, t) && cost >= 0.0
    ensures var t' := FinalizeWrite(tables, t.sid, w, t.generation, payer, cost, version, REQUIRED_VERSION, msg,
                                    now, stamp).0;
      TablesOk(t') && TablesEvolve(tables, t')
  {
    if Fenced(tables, t.sid, w, t.generation, now) {
      var t' := FinalizeWrite(tables, t.sid, w, t.generation, payer, cost, version, REQUIRED_VERSION, msg, now,
                              stamp).0;
      if t' != tables {
        var r := t'.rows[t.sid];
        RowReplaced(tables, t.sid, r);
        assert t'.rows == WithRow(tables, t.sid, r).rows;
      }
    }
  }

  lemma ClaimEvolves(tables: Tables, p: Pick, w: string, now: real, leaseSec: real, stamp: string)
    requires TablesOk(tables)
    requires ClaimUpdate(tables, p, w, now, leaseSec, stamp).Some?
    ensures var t' := ClaimUpdate(tables, p, w, now, leaseSec, stamp).value;
      TablesOk(t') && TablesEvolve(tables, t')
  {
    var t' := ClaimUpdate(tables, p, w, now, leaseSec, stamp).value;
    RowReplaced(tables, p.sid, t'.rows[p.sid]);
  }

  predicate Writes(act: Act) {
    act.ClaimWrite? || act.CommitFailure? || act.FinalizeCommit? || act.ArrearsCommit? || act.WriteStatus?
  }

  lemma ReadOnlyStep(leaseSec: real, tables: Tables, w: string, pc: Pc, lost: bool, act: Act)
    requires TablesOk(tables) && PcOk(tables, pc) && !Writes(act)
    ensures var e := Step(leaseSec, tables, w, pc, lost, act);
      e.tables == tables && PcOk(tables, e.pc)
  {
    hide TablesOk, UpdateOwned, UpdateTask, FinalizeWrite, ClaimUpdate;
  }

  lemma WritingStep(leaseSec: real, tables: Tables, w: string, pc: Pc, lost: bool, act: Act)
    requires TablesOk(tables) && PcOk(tables, pc) && Writes(act)
    ensures var e := Step(leaseSec, tables, w, pc, lost, act);
      TablesOk(e.tables) && TablesEvolve(tables, e.tables)
  {
    TablesReflexive(tables);
    hide TablesOk, TablesEvolve, UpdateOwned, UpdateTask, FinalizeWrite, ClaimUpdate, NextClaim, FindArrears,
         FailurePatch, ArrearsPatch, RequeuePatch;
    match act
    case ClaimWrite(stamp) =>
      if pc.Selected? && ClaimUpdate(tables, pc.pick, w, pc.readAt, leaseSec, stamp).Some? {
        ClaimEvolves(tables, pc.pick, w, pc.readAt, leaseSec, stamp);
      }
    case CommitFailure(now, retryAt, stamp) =>
      if pc.Judged? && !pc.result.ok {
        ExitEvolves(tables, w, pc.t, FailurePatch(pc.t, pc.result, retryAt), now, stamp);
      }
    case FinalizeCommit(stamp) =>
      if pc.Finalizing? {
        FinalizeEvolves(tables, w, pc.t, pc.payer, ChargeFor(pc.t), pc.result.version, Verdict(pc.result.version),
                        pc.readAt, stamp);
      }
    case ArrearsCommit(now, stamp) =>
      if pc.Starving? {
        ExitEvolves(tables, w, pc.t, ArrearsPatch(pc.msg), now, stamp);
      }
    case WriteStatus(stamp) =>
      if pc.RequeueWrite? {
        RequeueEvolves(tables, pc.sid, pc.from, pc.reason, stamp);
      }
  }

  lemma PcAfterWrite(leaseSec: real, tables: Tables, w: string, pc: Pc, lost: bool, act: Act)
    requires PcOk(tables, pc) && Writes(act)
    requires TablesEvolve(tables, Step(leaseSec, tables, w, pc, lost, act).tables)
    ensures var e := Step(leaseSec, tables, w, pc, lost, act);
      PcOk(e.tables, e.pc)
  {
    var e := Step(leaseSec, tables, w, pc, lost, act);
    hide TablesEvolve, PcOk, NextClaim, UpdateOwned, UpdateTask, FinalizeWrite, FailurePatch, ArrearsPatch,
         RequeuePatch;
    PcOkStable(tables, e.tables, pc);
    IdleOk(e.tables);
    if pc.Selected? && act.ClaimWrite? && e.pc.Claimed? {
      ClaimedOk(tables, pc.pick, w, pc.readAt, leaseSec, act.stamp);
    } else if pc.Finalizing? && e.pc.Refused? {
      RefusedOk(e.tables, pc);
    }
  }

  lemma IdleOk(tables: Tables)
    ensures PcOk(tables, Idle)
  {
  }

  lemma ClaimedOk(tables: Tables, p: Pick, w: string, now: real, leaseSec: real, stamp: string)
    requires ClaimUpdate(tables, p, w, now, leaseSec, stamp).Some?
    ensures PcOk(ClaimUpdate(tables, p, w, now, leaseSec, stamp).value, Claimed(p.sid, p.generation + 1, now))
  {
  }

  lemma RefusedOk(tables: Tables, pc: Pc)
    requires PcOk(tables, pc) && pc.Finalizing?
    ensures PcOk(tables, Refused(pc.t))
  {
  }

  /** Every step of a worker keeps the tables legal and its own knowledge true. */
  lemma StepOk(leaseSec: real, tables: Tables, w: string, pc: Pc, lost: bool, act: Act)
    requires TablesOk(tables) && PcOk(tables, pc)
    ensures var e := Step(leaseSec, tables, w, pc, lost, act);
      TablesOk(e.tables) && TablesEvolve(tables, e.tables) && PcOk(e.tables, e.pc)
  {
    hide Step, TablesOk, TablesEvolve, PcOk;
    if Writes(act) {
      WritingStep(leaseSec, tables, w, pc, lost, act);
      PcAfterWrite(leaseSec, tables, w, pc, lost, act);
    } else {
      ReadOnlyStep(leaseSec, tables, w, pc, lost, act);
      TablesReflexive(tables);
    }
  }

  /** A claim hands out a generation one above everything handed out before for that task. */
  lemma ClaimIsNew(leaseSec: real, tables: Tables, w: string, pc: Pc, lost: bool, act: Act)
    ensures var e := Step(leaseSec, tables, w, pc, lost, act);
      e.pc.Claimed? && e.pc != pc ==>
        e.pc.sid in tables.rows && e.pc.newGeneration == tables.rows[e.pc.sid].generation + 1
  {
  }

  /** What a step is about, seen from one task: which of the ways out of `processing` it attempts. */
  datatype Attempt = FailedTry | ControlBlock | Finish(paid: bool) | Starve | NoExit

  function AttemptOn(pc: Pc, act: Act, sid: nat): Attempt {
    if act.CommitFailure? && pc.Judged? && !pc.result.ok && pc.t.sid == sid then
      if IsControlBlock(pc.t, pc.result) then ControlBlock else FailedTry
    else if act.FinalizeCommit? && pc.Finalizing? && pc.t.sid == sid then Finish(pc.t.external)
    else if act.ArrearsCommit? && pc.Starving? && pc.t.sid == sid then Starve
    else NoExit
  }

  /** What a successful attempt does to the row. Only a failed try costs a retry, and exactly one. */
  ghost predicate Achieves(a: Attempt, r: Row, r': Row) {
    match a
    case FailedTry =>
      && r.status == Processing && r'.retryCount == r.retryCount + 1
      && r'.status == (if r'.retryCount >= MAX_RETRY then Dlq else Pending)
    case ControlBlock => r.status == Processing && r'.status == Pending && r'.retryCount == r.retryCount
    case Finish(_) => r.status == Processing && r'.status == Done && r'.retryCount == r.retryCount
    case Starve => r.status == Processing && r'.status == Arrears && r'.retryCount == r.retryCount
    case NoExit =>
      && r'.retryCount == r.retryCount
      && (r.status == Processing ==> r'.status == Processing)
      && (r'.status in {Done, Dlq, Arrears} ==> r.status == r'.status)
  }

  /** A worker's write moreover leaves rows that are not submitted alone. */
  ghost predicate WorkerAchieves(a: Attempt, t: Tables, t': Tables, sid: nat) {
    RowAchieves(a, t, t', sid) && (!Submitted(t.rows[sid].status) ==> t'.rows[sid] == t.rows[sid])
  }

  ghost predicate RowAchieves(a: Attempt, t: Tables, t': Tables, sid: nat) {
    && sid in t.rows && sid in t'.rows
    && (t'.rows[sid] == t.rows[sid] || Achieves(a, t.rows[sid], t'.rows[sid]))
  }

  lemma SameAchieves(a: Attempt, t: Tables, sid: nat)
    requires sid in t.rows
    ensures WorkerAchieves(a, t, t, sid)
  {
  }

  lemma ClaimAchieves(t: Tables, p: Pick, w: string, now: real, leaseSec: real, stamp: string, sid: nat)
    requires sid in t.rows && ClaimUpdate(t, p, w, now, leaseSec, stamp).Some?
    requires p.sid in t.rows && Submitted(t.rows[p.sid].status)
    ensures WorkerAchieves(NoExit, t, ClaimUpdate(t, p, w, now, leaseSec, stamp).value, sid)
  {
  }

  lemma FailureAchieves(t: Tables, w: string, k: Ticket, result: ModelResult, retryAt: real, now: real, stamp: string,
                        sid: nat)
    requires TablesOk(t) && TicketOk(t, k) && sid in t.rows
    ensures WorkerAchieves(if sid != k.sid then NoExit else if IsControlBlock(k, result) then ControlBlock
                           else FailedTry,
                        t, UpdateOwned(t, k.sid, w, k.generation, FailurePatch(k, result, retryAt), now, stamp).0, sid)
  {
    assert RowOk(k.sid, t.rows[k.sid]);
    hide TablesOk, RowOk;
  }

  lemma FinalizeAchieves(t: Tables, w: string, k: Ticket, payer: int, cost: real, version: string, msg: string,
                         now: real, stamp: string, sid: nat)
    requires sid in t.rows && TicketOk(t, k)
    ensures WorkerAchieves(if sid == k.sid then Finish(k.external) else NoExit, t,
      FinalizeWrite(t, k.sid, w, k.generation, payer, cost, version, REQUIRED_VERSION, msg, now, stamp).0, sid)
  {
  }

  lemma ArrearsAchieves(t: Tables, w: string, k: Ticket, msg: string, now: real, stamp: string, sid: nat)
    requires sid in t.rows && TicketOk(t, k)
    ensures WorkerAchieves(if sid == k.sid then Starve else NoExit, t,
      UpdateOwned(t, k.sid, w, k.generation, ArrearsPatch(msg), now, stamp).0, sid)
  {
  }

  lemma RequeueAchieves(t: Tables, sid': nat, reason: string, stamp: string, sid: nat)
    requires sid in t.rows && NotUploading(t, sid')
    ensures WorkerAchieves(NoExit, t, UpdateTask(t, sid', Arrears, RequeuePatch(reason), stamp).0, sid)
  {
  }

  /** Every step of a worker does to a row what its attempt says, or nothing. */
  lemma StepAchieves(leaseSec: real, tables: Tables, w: string, pc: Pc, lost: bool, act: Act, sid: nat)
    requires TablesOk(tables) && PcOk(tables, pc) && sid in tables.rows
    ensures WorkerAchieves(AttemptOn(pc, act, sid), tables, Step(leaseSec, tables, w, pc, lost, act).tables, sid)
  {
    SameAchieves(AttemptOn(pc, act, sid), tables, sid);
    hide Step, TablesOk, PcOk, AttemptOn, WorkerAchieves;
    if Writes(act) {
      WriteAchieves(leaseSec, tables, w, pc, lost, act, sid);
    } else {
      ReadOnlyStep(leaseSec, tables, w, pc, lost, act);
    }
  }

  lemma ClaimWriteAchieves(leaseSec: real, tables: Tables, w: string, pc: Pc, lost: bool, act: Act, sid: nat)
    requires PcOk(tables, pc) && sid in tables.rows && act.ClaimWrite?
    ensures WorkerAchieves(AttemptOn(pc, act, sid), tables, Step(leaseSec, tables, w, pc, lost, act).tables, sid)
  {
    hide TicketOk, WorkerAchieves, ClaimUpdate, IsControlBlock;
    SameAchieves(NoExit, tables, sid);
    if pc.Selected? && ClaimUpdate(tables, pc.pick, w, pc.readAt, leaseSec, act.stamp).Some? {
      ClaimAchieves(tables, pc.pick, w, pc.readAt, leaseSec, act.stamp, sid);
    }
  }

  lemma WriteAchieves(leaseSec: real, tables: Tables, w: string, pc: Pc, lost: bool, act: Act, sid: nat)
    requires TablesOk(tables) && PcOk(tables, pc) && sid in tables.rows && Writes(act)
    ensures WorkerAchieves(AttemptOn(pc, act, sid), tables, Step(leaseSec, tables, w, pc, lost, act).tables, sid)
  {
    hide TablesOk, TicketOk, WorkerAchieves, IsControlBlock, UpdateOwned, UpdateTask, FinalizeWrite, ClaimUpdate,
      NextClaim,
         FindArrears, FailurePatch, ArrearsPatch, RequeuePatch;
    if act.ClaimWrite? {
      ClaimWriteAchieves(leaseSec, tables, w, pc, lost, act, sid);
      hide Step;
      return;
    }
    SameAchieves(AttemptOn(pc, act, sid), tables, sid);
    match act
    case CommitFailure(now, retryAt, stamp) =>
      if pc.Judged? && !pc.result.ok {
        FailureAchieves(tables, w, pc.t, pc.result, retryAt, now, stamp, sid);
      }
    case FinalizeCommit(stamp) =>
      if pc.Finalizing? {
        FinalizeAchieves(tables, w, pc.t, pc.payer, ChargeFor(pc.t), pc.result.version, Verdict(pc.result.version),
                         pc.readAt, stamp, sid);
      }
    case ArrearsCommit(now, stamp) =>
      if pc.Starving? {
        ArrearsAchieves(tables, w, pc.t, pc.msg, now, stamp, sid);
      }
    case WriteStatus(stamp) =>
      if pc.RequeueWrite? {
        RequeueAchieves(tables, pc.sid, pc.reason, stamp, sid);
      }
  }

  lemma SameKeys(leaseSec: real, tables: Tables, w: string, pc: Pc, lost: bool, act: Act)
    ensures var t' := Step(leaseSec, tables, w, pc, lost, act).tables;
      t'.rows.Keys == tables.rows.Keys && t'.nextId == tables.nextId
  {
    hide Patched, Leaving, FailurePatch, ArrearsPatch, RequeuePatch, NextClaim, FindArrears, FencePasses;
  }

  /** A worker never creates a row and never moves one out of `uploading`. */
  lemma NeverSubmits(leaseSec: real, tables: Tables, w: string, pc: Pc, lost: bool, act: Act)
    requires TablesOk(tables) && PcOk(tables, pc)
    ensures var t' := Step(leaseSec, tables, w, pc, lost, act).tables;
      forall sid :: sid in t'.rows && Submitted(t'.rows[sid].status) ==>
        sid in tables.rows && Submitted(tables.rows[sid].status)
  {
    hide Step, TablesOk, PcOk, AttemptOn;
    SameKeys(leaseSec, tables, w, pc, lost, act);
    forall sid | sid in tables.rows
      ensures WorkerAchieves(AttemptOn(pc, act, sid), tables, Step(leaseSec, tables, w, pc, lost, act).tables, sid)
    {
      StepAchieves(leaseSec, tables, w, pc, lost, act, sid);
    }
  }
}
