/** One attempt of a worker with its heartbeat, as the code runs it, and where it ends. */
module HandleOne {
  import opened Common
  import opened Tasks
  import opened TaskDb
  import opened Evolution
  import opened Recognize
  import opened Worker
  import opened Protocol
  import opened LeaseHeartbeat
  import Database

  /** Everything that reaches the attempt from outside: the backend and the model's answer; the clock when the task is
      claimed, committed and parked; the heartbeat's renewals before the quota check, during the call, between the
      check of the heartbeat and the commit, and before the task is parked; and how the credits of the user change
      during the call and after a refused commit, by other tasks or from outside. */
  datatype Surroundings = Surroundings(
    external: bool, result: ModelResult, retryAt: real, stamp: string,
    claimAt: real, commitAt: real, parkAt: real,
    early: seq<Tick>, during: seq<Tick>, beforeCommit: seq<Tick>, beforeParking: seq<Tick>,
    meanwhile: real, afterRefusal: real
  )

  function TicketFor(sid: nat, r: Row, external: bool): Ticket {
    Ticket(sid, r.generation, r.userId, r.retryCount, external)
  }

  /** The tables after the claim, and what is then done with the ticket. */
  function Handled(leaseSec: real, t: Tables, w: string, x: Surroundings): Tables {
    match NextClaim(t, x.claimAt)
    case None => t
    case Some(p) =>
      match ClaimUpdate(t, p, w, x.claimAt, leaseSec, x.stamp)
      case None => t
      case Some(t1) =>
        if p.sid in t1.rows then Attempted(leaseSec, t1, w, TicketFor(p.sid, t1.rows[p.sid], x.external), x) else t1
  }

  const NO_QUOTA := "quota exhausted before the call"
  const QUOTA_TAKEN := "quota exhausted by another task"

  function Attempted(leaseSec: real, t: Tables, w: string, k: Ticket, x: Surroundings): Tables {
    var (t', lost) := Pulses(leaseSec, t, KeyOf(w, k), x.early, false, x.stamp);
    if k.external && IsArrears(t', k.userId) then (if lost then t' else Parked(leaseSec, t', false, w, k, NO_QUOTA, x))
    else Called(leaseSec, t', lost, w, k, x)
  }

  function Called(leaseSec: real, t: Tables, lost: bool, w: string, k: Ticket, x: Surroundings): Tables {
    var (t', lost') := Pulses(leaseSec, t, KeyOf(w, k), x.during, lost, x.stamp);
    var t'' := Adjusted(t', k.userId, x.meanwhile);
    if lost' then t'' else Answered(leaseSec, t'', w, k, x)
  }

  function Answered(leaseSec: real, t: Tables, w: string, k: Ticket, x: Surroundings): Tables {
    var (t', lost) := Pulses(leaseSec, t, KeyOf(w, k), x.beforeCommit, false, x.stamp);
    if !x.result.ok then
      UpdateOwned(t', k.sid, w, k.generation, FailurePatch(k, x.result, x.retryAt), x.commitAt, x.stamp).0
    else
      var (t'', ok) := Finalized(t', w, k, x);
      if ok then t'' else Unpaid(leaseSec, t'', lost, w, k, x)
  }

  function Finalized(t: Tables, w: string, k: Ticket, x: Surroundings): (Tables, bool) {
    match FinalizeSelect(t, k.sid, w, k.generation, x.commitAt)
    case None => (t, false)
    case Some(payer) =>
      FinalizeWrite(t, k.sid, w, k.generation, payer, ChargeFor(k), x.result.version, REQUIRED_VERSION,
                    Verdict(x.result.version), x.commitAt, x.stamp)
  }

  function Unpaid(leaseSec: real, t: Tables, lost: bool, w: string, k: Ticket, x: Surroundings): Tables {
    var t' := Adjusted(t, k.userId, x.afterRefusal);
    if k.external && IsArrears(t', k.userId) then Parked(leaseSec, t', lost, w, k, QUOTA_TAKEN, x) else t'
  }

  function Parked(leaseSec: real, t: Tables, lost: bool, w: string, k: Ticket, msg: string, x: Surroundings): Tables {
    var t' := Pulses(leaseSec, t, KeyOf(w, k), x.beforeParking, lost, x.stamp).0;
    UpdateOwned(t', k.sid, w, k.generation, ArrearsPatch(msg), x.parkAt, x.stamp).0
  }

  /** `handle_one` on the database object, with its heartbeat object. */
  method HandleOne(db: Database.Database, leaseSec: real, w: string, x: Surroundings) returns (worked: bool)
    modifies db
    ensures db.View() == Handled(leaseSec, old(db.View()), w, x)
    ensures worked <==> NextClaim(old(db.View()), x.claimAt).Some?
  {
    var claimed := db.ClaimNextTask(w, x.claimAt, leaseSec, x.stamp);
    if claimed == None {
      return false;
    }
    var (sid, row) := claimed.value;
    ghost var t1 := db.View();
    assert Handled(leaseSec, old(db.View()), w, x) == Attempted(leaseSec, t1, w, TicketFor(sid, row, x.external), x);
    hide Handled;
    Attempt(db, leaseSec, w, TicketFor(sid, row, x.external), x);
    worked := true;
  }

  method Attempt(db: Database.Database, leaseSec: real, w: string, k: Ticket, x: Surroundings)
    modifies db
    ensures db.View() == Attempted(leaseSec, old(db.View()), w, k, x)
  {
    hide UpdateOwned, Pulses, Answered, ArrearsPatch;
    var heartbeat := new ProcessingLeaseHeartbeat(KeyOf(w, k));
    heartbeat.Run(db, x.early, leaseSec, x.stamp);
    if k.external && Balance(db.View(), k.userId) <= 0.0 {
      if !heartbeat.lost {
        Park(db, heartbeat, leaseSec, w, k, NO_QUOTA, x);
      }
      return;
    }
    heartbeat.Run(db, x.during, leaseSec, x.stamp);
    var _ := db.Adjust(k.userId, x.meanwhile);
    if heartbeat.lost {
      return;
    }
    Commit(db, heartbeat, leaseSec, w, k, x);
  }

  /** Record the model's answer. */
  method Commit(db: Database.Database, heartbeat: ProcessingLeaseHeartbeat, leaseSec: real, w: string, k: Ticket,
                x: Surroundings)
    requires heartbeat.key == KeyOf(w, k) && !heartbeat.lost
    modifies db, heartbeat
    ensures db.View() == Answered(leaseSec, old(db.View()), w, k, x)
  {
    hide UpdateOwned, Pulses, FinalizeWrite, FailurePatch, Parked;
    heartbeat.Run(db, x.beforeCommit, leaseSec, x.stamp);
    if !x.result.ok {
      Fail(db, w, k, x);
      return;
    }
    var cost := if k.external then COST_PER_CALL else 0.0;
    var finalized, _ := db.FinalizeProcessingAndCharge(k.sid, w, k.generation, cost, x.result.version, REQUIRED_VERSION,
                                                       Verdict(x.result.version), x.commitAt, x.stamp);
    if finalized {
      return;
    }
    var _ := db.Adjust(k.userId, x.afterRefusal);
    if k.external && Balance(db.View(), k.userId) <= 0.0 {
      Park(db, heartbeat, leaseSec, w, k, QUOTA_TAKEN, x);
    }
  }

  method Park(db: Database.Database, heartbeat: ProcessingLeaseHeartbeat, leaseSec: real, w: string, k: Ticket,
              msg: string, x: Surroundings)
    requires heartbeat.key == KeyOf(w, k)
    modifies db, heartbeat
    ensures db.View() == Parked(leaseSec, old(db.View()), old(heartbeat.lost), w, k, msg, x)
  {
    hide UpdateOwned, Pulses;
    heartbeat.Run(db, x.beforeParking, leaseSec, x.stamp);
    var _ := db.TransitionOwned(k.sid, Arrears, w, k.generation, NOTHING.(resultMsg := Some(Some(msg))), x.parkAt,
                                x.stamp);
  }

  /** The three ways a failed recognition is recorded. */
  method Fail(db: Database.Database, w: string, k: Ticket, x: Surroundings)
    modifies db
    ensures db.View() ==
      UpdateOwned(old(db.View()), k.sid, w, k.generation, FailurePatch(k, x.result, x.retryAt), x.commitAt, x.stamp).0
  {
    var msg := NOTHING.(resultMsg := Some(Some(x.result.msg)));
    if k.external && IsExternalControlBlock(x.result.msg) {
      var _ := db.TransitionOwned(k.sid, Pending, w, k.generation,
        msg.(retryCount := Some(k.retryCount), nextAttemptAt := Some(x.retryAt)), x.commitAt, x.stamp);
      return;
    }
    var tries := k.retryCount + 1;
    if tries >= MAX_RETRY {
      var _ := db.TransitionOwned(k.sid, Dlq, w, k.generation, msg.(retryCount := Some(tries)), x.commitAt, x.stamp);
    } else {
      var _ := db.TransitionOwned(k.sid, Pending, w, k.generation,
        msg.(retryCount := Some(tries), nextAttemptAt := Some(x.retryAt)), x.commitAt, x.stamp);
    }
  }

  // ----- the lease, as the renewals leave it -----

  datatype Lease = Lease(until: real, lost: bool)

  function Renewed(leaseSec: real, l: Lease, tick: Tick): Lease {
    if tick.outcome == Raises(false) then l
    else if tick.now < l.until then Lease(LeaseEnd(tick.now, leaseSec), false)
    else Lease(l.until, tick.outcome == Answers)
  }

  /** The lease after the renewals, from the clock readings alone. */
  function LeaseAfter(leaseSec: real, l: Lease, ticks: seq<Tick>): Lease
    decreases |ticks|
  {
    if l.lost || ticks == [] then l else LeaseAfter(leaseSec, Renewed(leaseSec, l, ticks[0]), ticks[1..])
  }

  /** The row of the ticket, still in its attempt, with the lease it has. */
  ghost predicate Holds(t: Tables, w: string, k: Ticket, until: real) {
    && TablesOk(t) && k.sid in t.rows
    && var r := t.rows[k.sid];
    && r.status == Processing && r.owner == Some(w) && r.generation == k.generation && r.leaseUntil == until
    && r.userId == k.userId && r.retryCount == k.retryCount
  }

  lemma RenewalKeeps(leaseSec: real, t: Tables, w: string, k: Ticket, l: Lease, tick: Tick, stamp: string)
    requires Holds(t, w, k, l.until) && !l.lost
    ensures var (t', refused) := Pulse(leaseSec, t, KeyOf(w, k), tick, stamp);
      && Renewed(leaseSec, l, tick) == Lease(Renewed(leaseSec, l, tick).until, refused)
      && Holds(t', w, k, Renewed(leaseSec, l, tick).until) && t'.accounts == t.accounts
  {
    if tick.outcome != Raises(false) && tick.now < l.until {
      assert RowOk(k.sid, t.rows[k.sid]);
      RowReplaced(t, k.sid, t.rows[k.sid].(leaseUntil := LeaseEnd(tick.now, leaseSec), updatedAt := stamp));
      hide TablesOk, TablesEvolve;
    }
  }

  lemma {:induction false} RenewalsKeep(leaseSec: real, t: Tables, w: string, k: Ticket, l: Lease, ticks: seq<Tick>,
                                        stamp: string)
    requires Holds(t, w, k, l.until)
    ensures var (t', lost) := Pulses(leaseSec, t, KeyOf(w, k), ticks, l.lost, stamp);
      var l' := LeaseAfter(leaseSec, l, ticks);
      Holds(t', w, k, l'.until) && l'.lost == lost && t'.accounts == t.accounts
    decreases |ticks|
  {
    if !l.lost && ticks != [] {
      hide Holds, Pulse, Renewed;
      RenewalKeeps(leaseSec, t, w, k, l, ticks[0], stamp);
      var t' := Pulse(leaseSec, t, KeyOf(w, k), ticks[0], stamp).0;
      RenewalsKeep(leaseSec, t', w, k, Renewed(leaseSec, l, ticks[0]), ticks[1..], stamp);
    }
  }

  // ----- where the attempt ends -----

  datatype Ending = ToDone | Retried | Blocked | ToDlq | ToArrears | StillProcessing

  /** How the attempt ends, and the user's credits at that moment. */
  datatype Due = Due(end: Ending, credits: real)

  function Moved(credits: real, delta: real): real {
    if credits + delta < 0.0 then credits else credits + delta
  }

  /** The business rules, from clock readings, retries and credits alone. */
  function Rules(leaseSec: real, x: Surroundings, retries: nat, credits: real): Due {
    var l := LeaseAfter(leaseSec, Lease(LeaseEnd(x.claimAt, leaseSec), false), x.early);
    if x.external && credits <= 0.0 then
      Due(if !l.lost && x.parkAt < LeaseAfter(leaseSec, l, x.beforeParking).until then ToArrears
          else StillProcessing, credits)
    else RulesOfCall(leaseSec, x, retries, LeaseAfter(leaseSec, l, x.during), Moved(credits, x.meanwhile))
  }

  function RulesOfCall(leaseSec: real, x: Surroundings, retries: nat, l: Lease, credits: real): Due {
    if l.lost then Due(StillProcessing, credits)
    else RulesOfCommit(leaseSec, x, retries, LeaseAfter(leaseSec, l, x.beforeCommit), credits)
  }

  function RulesOfCommit(leaseSec: real, x: Surroundings, retries: nat, l: Lease, credits: real): Due {
    var inTime := x.commitAt < l.until;
    if !x.result.ok then
      Due(if !inTime then StillProcessing
          else if x.external && IsExternalControlBlock(x.result.msg) then Blocked
          else if retries + 1 == MAX_RETRY then ToDlq else Retried, credits)
    else if inTime && (!x.external || credits >= COST_PER_CALL) then
      Due(ToDone, if x.external then credits - COST_PER_CALL else credits)
    else
      var left := Moved(credits, x.afterRefusal);
      Due(if x.external && left <= 0.0 && x.parkAt < LeaseAfter(leaseSec, l, x.beforeParking).until
          then ToArrears else StillProcessing, left)
  }

  function EndStatus(e: Ending): Status {
    match e
    case ToDone => Done
    case Retried => Pending
    case Blocked => Pending
    case ToDlq => Dlq
    case ToArrears => Arrears
    case StillProcessing => Processing
  }

  /** The row and the credits are as the rules say, and the recorded result with them. */
  ghost predicate Ends(t: Tables, k: Ticket, w: string, x: Surroundings, due: Due) {
    && k.sid in t.rows && Balance(t, k.userId) == due.credits
    && var r := t.rows[k.sid];
    && r.status == EndStatus(due.end) && r.generation == k.generation && r.userId == k.userId
    && r.retryCount == k.retryCount + (if due.end in {Retried, ToDlq} then 1 else 0)
    && (if due.end == StillProcessing then r.owner == Some(w) else r.owner == None && r.leaseUntil == 0.0)
    && (due.end in {Retried, Blocked} ==> r.nextAttemptAt == x.retryAt)
    && (due.end in {Retried, Blocked, ToDlq} ==> r.resultMsg == Some(x.result.msg))
    && (due.end == ToArrears ==> r.resultMsg in {Some(NO_QUOTA), Some(QUOTA_TAKEN)})
    && (due.end == ToDone ==>
          && r.detectedVersion == Some(x.result.version) && r.requiredVersion == Some(REQUIRED_VERSION)
          && r.resultMsg == Some(Verdict(x.result.version)))
  }

  lemma CreditsMove(t: Tables, w: string, k: Ticket, until: real, delta: real)
    requires Holds(t, w, k, until)
    ensures Holds(Adjusted(t, k.userId, delta), w, k, until)
    ensures Balance(Adjusted(t, k.userId, delta), k.userId) == Moved(Balance(t, k.userId), delta)
  {
  }

  lemma ParkingEnds(leaseSec: real, t: Tables, w: string, k: Ticket, l: Lease, msg: string, x: Surroundings)
    requires Holds(t, w, k, l.until) && msg in {NO_QUOTA, QUOTA_TAKEN}
    ensures Ends(Parked(leaseSec, t, l.lost, w, k, msg, x), k, w, x,
                 Due(if x.parkAt < LeaseAfter(leaseSec, l, x.beforeParking).until then ToArrears else StillProcessing,
                     Balance(t, k.userId)))
  {
    RenewalsKeep(leaseSec, t, w, k, l, x.beforeParking, x.stamp);
    var t' := Pulses(leaseSec, t, KeyOf(w, k), x.beforeParking, l.lost, x.stamp).0;
    var until := LeaseAfter(leaseSec, l, x.beforeParking).until;
    ParkedRow(t', w, k, until, msg, x);
    StaysEnds(t', w, k, until, x);
    hide Pulses, LeaseAfter, TablesOk, Verdict, UpdateOwned, Holds;
  }

  lemma ParkedRow(t: Tables, w: string, k: Ticket, until: real, msg: string, x: Surroundings)
    requires Holds(t, w, k, until)
    ensures var t' := UpdateOwned(t, k.sid, w, k.generation, ArrearsPatch(msg), x.parkAt, x.stamp).0;
      if x.parkAt >= until then t' == t
      else
        && k.sid in t'.rows && t'.accounts == t.accounts
        && t'.rows[k.sid] == t.rows[k.sid].(status := Arrears, owner := None, leaseUntil := 0.0, resultMsg := Some(msg),
                                            updatedAt := x.stamp)
  {
    hide TablesOk;
  }

  lemma UnpaidEnds(leaseSec: real, t: Tables, w: string, k: Ticket, l: Lease, x: Surroundings)
    requires Holds(t, w, k, l.until) && k.external == x.external
    ensures var left := Moved(Balance(t, k.userId), x.afterRefusal);
      Ends(Unpaid(leaseSec, t, l.lost, w, k, x), k, w, x,
           Due(if x.external && left <= 0.0 && x.parkAt < LeaseAfter(leaseSec, l, x.beforeParking).until
               then ToArrears else StillProcessing, left))
  {
    CreditsMove(t, w, k, l.until, x.afterRefusal);
    var t' := Adjusted(t, k.userId, x.afterRefusal);
    ParkingEnds(leaseSec, t', w, k, l, QUOTA_TAKEN, x);
    StaysEnds(t', w, k, l.until, x);
    hide Ends, Holds, Parked, LeaseAfter, Adjusted;
  }

  lemma StaysEnds(t: Tables, w: string, k: Ticket, until: real, x: Surroundings)
    requires Holds(t, w, k, until)
    ensures Ends(t, k, w, x, Due(StillProcessing, Balance(t, k.userId)))
  {
    hide TablesOk, Verdict;
  }

  lemma FailureEnds(t: Tables, w: string, k: Ticket, until: real, x: Surroundings)
    requires Holds(t, w, k, until) && k.external == x.external && !x.result.ok
    ensures Ends(UpdateOwned(t, k.sid, w, k.generation, FailurePatch(k, x.result, x.retryAt), x.commitAt, x.stamp).0, k,
                 w, x, Due(if x.commitAt >= until then StillProcessing
                     else if x.external && IsExternalControlBlock(x.result.msg) then Blocked
                     else if k.retryCount + 1 == MAX_RETRY then ToDlq else Retried, Balance(t, k.userId)))
  {
    assert RowOk(k.sid, t.rows[k.sid]);
    hide TablesOk, RowOk, Verdict, IsExternalControlBlock;
  }

  lemma SuccessEnds(t: Tables, w: string, k: Ticket, until: real, x: Surroundings)
    requires Holds(t, w, k, until) && k.external == x.external && x.result.ok
    ensures var (t', ok) := Finalized(t, w, k, x);
      var credits := Balance(t, k.userId);
      && (ok <==> x.commitAt < until && (!x.external || credits >= COST_PER_CALL))
      && (!ok ==> t' == t)
      && (ok ==> Ends(t', k, w, x, Due(ToDone, if x.external then credits - COST_PER_CALL else credits)))
  {
    hide TablesOk, Verdict;
  }

  lemma CommitEnds(leaseSec: real, t: Tables, w: string, k: Ticket, l: Lease, x: Surroundings)
    requires Holds(t, w, k, l.until) && k.external == x.external && !l.lost
    ensures Ends(Answered(leaseSec, t, w, k, x), k, w, x,
                 RulesOfCommit(leaseSec, x, k.retryCount, LeaseAfter(leaseSec, l, x.beforeCommit),
                               Balance(t, k.userId)))
  {
    hide Ends, Holds, Unpaid, Finalized, UpdateOwned, FailurePatch, Pulses, LeaseAfter, IsExternalControlBlock;
    RenewalsKeep(leaseSec, t, w, k, l, x.beforeCommit, x.stamp);
    var t' := Pulses(leaseSec, t, KeyOf(w, k), x.beforeCommit, false, x.stamp).0;
    var l' := LeaseAfter(leaseSec, l, x.beforeCommit);
    if x.result.ok {
      SuccessEnds(t', w, k, l'.until, x);
      UnpaidEnds(leaseSec, t', w, k, l', x);
    } else {
      FailureEnds(t', w, k, l'.until, x);
    }
  }

  lemma CallEnds(leaseSec: real, t: Tables, w: string, k: Ticket, l: Lease, x: Surroundings)
    requires Holds(t, w, k, l.until) && k.external == x.external
    ensures Ends(Called(leaseSec, t, l.lost, w, k, x), k, w, x,
                 RulesOfCall(leaseSec, x, k.retryCount, LeaseAfter(leaseSec, l, x.during),
                             Moved(Balance(t, k.userId), x.meanwhile)))
  {
    hide Ends, Holds, Answered, Pulses, LeaseAfter, Adjusted, RulesOfCommit;
    RenewalsKeep(leaseSec, t, w, k, l, x.during, x.stamp);
    var t' := Pulses(leaseSec, t, KeyOf(w, k), x.during, l.lost, x.stamp).0;
    var l' := LeaseAfter(leaseSec, l, x.during);
    CreditsMove(t', w, k, l'.until, x.meanwhile);
    var t'' := Adjusted(t', k.userId, x.meanwhile);
    StaysEnds(t'', w, k, l'.until, x);
    SameBalance(t, t', k.userId);
    if !l'.lost {
      CommitEnds(leaseSec, t'', w, k, l', x);
    }
  }

  lemma SameBalance(t: Tables, t': Tables, userId: int)
    requires t'.accounts == t.accounts
    ensures Balance(t', userId) == Balance(t, userId)
  {
  }

  lemma AttemptedEnds(leaseSec: real, t: Tables, w: string, k: Ticket, x: Surroundings)
    requires Holds(t, w, k, LeaseEnd(x.claimAt, leaseSec)) && k.external == x.external
    ensures Ends(Attempted(leaseSec, t, w, k, x), k, w, x, Rules(leaseSec, x, k.retryCount, Balance(t, k.userId)))
  {
    hide Ends, Holds, Called, Parked, Pulses, LeaseAfter, RulesOfCall;
    var l := Lease(LeaseEnd(x.claimAt, leaseSec), false);
    RenewalsKeep(leaseSec, t, w, k, l, x.early, x.stamp);
    var t' := Pulses(leaseSec, t, KeyOf(w, k), x.early, false, x.stamp).0;
    var l' := LeaseAfter(leaseSec, l, x.early);
    SameBalance(t, t', k.userId);
    if x.external && IsArrears(t', k.userId) {
      StaysEnds(t', w, k, l'.until, x);
      ParkingEnds(leaseSec, t', w, k, l', NO_QUOTA, x);
    } else {
      CallEnds(leaseSec, t', w, k, l', x);
    }
  }

  /** An undisturbed claim cannot miss, and leaves the row held under the next generation. */
  lemma ClaimHolds(leaseSec: real, t: Tables, w: string, x: Surroundings) returns (t1: Tables)
    requires TablesOk(t) && NextClaim(t, x.claimAt).Some?
    ensures var p := NextClaim(t, x.claimAt).value;
      && ClaimUpdate(t, p, w, x.claimAt, leaseSec, x.stamp) == Some(t1)
      && p.sid in t.rows && p.sid in t1.rows && t1.accounts == t.accounts
      && var r, r1 := t.rows[p.sid], t1.rows[p.sid];
      && r1.retryCount == r.retryCount && r1.userId == r.userId && r1.generation == r.generation + 1
      && Holds(t1, w, TicketFor(p.sid, r1, x.external), LeaseEnd(x.claimAt, leaseSec))
  {
    hide TablesOk, TablesEvolve, NextClaim, ClaimUpdate;
    var p := NextClaim(t, x.claimAt).value;
    ClaimedRow(leaseSec, t, w, x.claimAt, x.stamp);
    t1 := ClaimUpdate(t, p, w, x.claimAt, leaseSec, x.stamp).value;
    ClaimEvolves(t, p, w, x.claimAt, leaseSec, x.stamp);
  }

  lemma ClaimedRow(leaseSec: real, t: Tables, w: string, now: real, stamp: string)
    requires NextClaim(t, now).Some?
    ensures var p := NextClaim(t, now).value;
      var c := ClaimUpdate(t, p, w, now, leaseSec, stamp);
      && c.Some? && p.sid in t.rows && p.sid in c.value.rows && c.value.accounts == t.accounts
      && var r, r' := t.rows[p.sid], c.value.rows[p.sid];
      && r'.retryCount == r.retryCount && r'.userId == r.userId && r'.generation == r.generation + 1
      && r'.status == Processing && r'.owner == Some(w) && r'.leaseUntil == LeaseEnd(now, leaseSec)
  {
  }

  /** The ticket the attempt works under. */
  function TicketOf(t: Tables, p: Pick, external: bool): Ticket
    requires p.sid in t.rows
  {
    var r := t.rows[p.sid];
    Ticket(p.sid, r.generation + 1, r.userId, r.retryCount, external)
  }

  /** Every attempt ends exactly where the rules say: with any renewals of its lease, answered or not, with any clock
      readings, and whatever other tasks and the outside do to the user's credits meanwhile. */
  lemma AttemptEndsRight(leaseSec: real, t: Tables, w: string, x: Surroundings)
    requires TablesOk(t) && NextClaim(t, x.claimAt).Some?
    ensures var p := NextClaim(t, x.claimAt).value;
      var k := TicketOf(t, p, x.external);
      Ends(Handled(leaseSec, t, w, x), k, w, x, Rules(leaseSec, x, k.retryCount, Balance(t, k.userId)))
  {
    hide Holds, Attempted, TablesOk, NextClaim, ClaimUpdate, Ends, Rules;
    var p := NextClaim(t, x.claimAt).value;
    var t1 := ClaimHolds(leaseSec, t, w, x);
    var k := TicketFor(p.sid, t1.rows[p.sid], x.external);
    SameBalance(t, t1, k.userId);
    AttemptedEnds(leaseSec, t1, w, k, x);
  }

  // ----- progress -----

  /** The heartbeat keeps up: no renewal is refused before the last look at it, and each commit that is made reads the
      clock before the end of the lease as it then is. */
  predicate LeaseLives(leaseSec: real, x: Surroundings, credits: real) {
    var early := LeaseAfter(leaseSec, Lease(LeaseEnd(x.claimAt, leaseSec), false), x.early);
    var called := LeaseAfter(leaseSec, early, x.during);
    var committed := LeaseAfter(leaseSec, called, x.beforeCommit);
    if x.external && credits <= 0.0 then !early.lost && x.parkAt < LeaseAfter(leaseSec, early, x.beforeParking).until
    else
      && !called.lost && x.commitAt < committed.until
      && (x.external && x.result.ok && Moved(credits, x.meanwhile) < COST_PER_CALL ==>
            x.parkAt < LeaseAfter(leaseSec, committed, x.beforeParking).until)
  }

  /** The rules spelled out, while the heartbeat keeps up. */
  lemma EndsByCase(leaseSec: real, t: Tables, w: string, x: Surroundings)
    requires TablesOk(t) && NextClaim(t, x.claimAt).Some?
    requires LeaseLives(leaseSec, x, Balance(t, TicketOf(t, NextClaim(t, x.claimAt).value, x.external).userId))
    ensures var sid := NextClaim(t, x.claimAt).value.sid;
      var t', r := Handled(leaseSec, t, w, x), t.rows[sid];
      var before, msg := Balance(t, r.userId), x.result.msg;
      var after := if before + x.meanwhile < 0.0 then before else before + x.meanwhile;
      var called := !x.external || before > 0.0;
      var blocked := x.external && ("external provider paused" <= msg || "external provider token missing" <= msg
                                    || "external provider 401" <= msg);
      && sid in t'.rows && t'.rows[sid].generation == r.generation + 1
      && var r', credits := t'.rows[sid], Balance(t', r.userId);
      && (!called ==> r'.status == Arrears && r'.retryCount == r.retryCount && credits == before)
      && (called && !x.result.ok && blocked ==>
            r'.status == Pending && r'.retryCount == r.retryCount && r'.nextAttemptAt == x.retryAt && credits == after)
      && (called && !x.result.ok && !blocked && r.retryCount < 2 ==>
            r'.status == Pending && r'.retryCount == r.retryCount + 1 && r'.nextAttemptAt == x.retryAt
            && credits == after)
      && (called && !x.result.ok && !blocked && r.retryCount == 2 ==>
            r'.status == Dlq && r'.retryCount == 3 && credits == after)
      && (called && x.result.ok && !x.external ==> r'.status == Done && credits == after)
      && (called && x.result.ok && x.external && after >= 1.0 ==> r'.status == Done && credits == after - 1.0)
      && (called && x.result.ok && x.external && after < 1.0 ==>
            && credits == (if after + x.afterRefusal < 0.0 then after else after + x.afterRefusal)
            && r'.status == (if credits <= 0.0 then Arrears else Processing) && r'.retryCount == r.retryCount)
      && (r'.status in {Pending, Dlq} ==> r'.resultMsg == Some(msg))
      && (r'.status == Arrears ==>
            r'.resultMsg in {Some("quota exhausted before the call"), Some("quota exhausted by another task")})
  {
    AttemptEndsRight(leaseSec, t, w, x);
    hide Handled, TablesOk, NextClaim, LeaseAfter, Verdict;
  }

  /** The heartbeat has renewed the lease up to `until` at most, however the renewals so far went. */
  predicate LeasedBefore(leaseSec: real, l: Lease, ticks: seq<Tick>, until: real) {
    && l.until <= until
    && forall i :: 0 <= i < |ticks| ==> ticks[i].now + (if leaseSec >= 0.1 then leaseSec else 0.1) <= until
  }

  lemma {:induction false} LeaseIsBounded(leaseSec: real, l: Lease, ticks: seq<Tick>, until: real)
    requires LeasedBefore(leaseSec, l, ticks, until)
    ensures LeaseAfter(leaseSec, l, ticks).until <= until
    decreases |ticks|
  {
    if !l.lost && ticks != [] {
      LeaseIsBounded(leaseSec, Renewed(leaseSec, l, ticks[0]), ticks[1..], until);
    }
  }

  lemma {:induction false} LeaseIsLost(leaseSec: real, l: Lease, ticks: seq<Tick>, i: nat)
    requires i < |ticks| && ticks[i].outcome == Answers && LeasedBefore(leaseSec, l, ticks[..i], ticks[i].now)
    ensures LeaseAfter(leaseSec, l, ticks).lost
    decreases |ticks|
  {
    if !l.lost && i > 0 {
      var l' := Renewed(leaseSec, l, ticks[0]);
      assert ticks[1..][..i - 1] == ticks[..i][1..];
      assert ticks[..i][0] == ticks[0];
      LeaseIsLost(leaseSec, l', ticks[1..], i - 1);
    }
  }

  /** A heartbeat that comes too late and is answered stops the attempt. If one renewal before the commit finds that the
      claim and every renewal before it have run out, then no result is recorded: the task stays `processing` under the
      worker and its generation with the retries it had, and nothing is charged. */
  lemma LateHeartbeatStops(leaseSec: real, t: Tables, w: string, x: Surroundings, i: nat)
    requires TablesOk(t) && NextClaim(t, x.claimAt).Some?
    requires var ticks := x.early + x.during;
      var lease := if leaseSec >= 0.1 then leaseSec else 0.1;
      && i < |ticks| && ticks[i].outcome == Answers && x.claimAt + lease <= ticks[i].now
      && forall j :: 0 <= j < i ==> ticks[j].now + lease <= ticks[i].now
    requires i < |x.early| || !x.external
             || Balance(t, TicketOf(t, NextClaim(t, x.claimAt).value, x.external).userId) > 0.0
    ensures var sid := NextClaim(t, x.claimAt).value.sid;
      var t', r := Handled(leaseSec, t, w, x), t.rows[sid];
      && sid in t'.rows && t'.rows[sid].status == Processing && t'.rows[sid].owner == Some(w)
      && t'.rows[sid].generation == r.generation + 1 && t'.rows[sid].retryCount == r.retryCount
      && Balance(t', r.userId) in {Balance(t, r.userId), Balance(t, r.userId) + x.meanwhile}
  {
    var ticks := x.early + x.during;
    var l := Lease(LeaseEnd(x.claimAt, leaseSec), false);
    var k := TicketOf(t, NextClaim(t, x.claimAt).value, x.external);
    if i < |x.early| {
      assert ticks[i] == x.early[i] && forall j :: 0 <= j < i ==> ticks[j] == x.early[j];
      LeaseIsLost(leaseSec, l, x.early, i);
    } else {
      var n := i - |x.early|;
      assert ticks[i] == x.during[n] && forall j :: 0 <= j < n ==> x.during[j] == ticks[|x.early| + j];
      assert forall j :: 0 <= j < |x.early| ==> ticks[j] == x.early[j];
      LeaseIsBounded(leaseSec, l, x.early, ticks[i].now);
      LeaseIsLost(leaseSec, LeaseAfter(leaseSec, l, x.early), x.during, n);
    }
    AttemptEndsRight(leaseSec, t, w, x);
    hide Handled, TablesOk, NextClaim, LeaseAfter, Verdict, RulesOfCommit;
  }

  /** What a finished task says of its version: it passed if and only if the detected version is 10.0.19045 or later. */
  lemma FinishedSaysPassed(leaseSec: real, t: Tables, w: string, x: Surroundings, detected: seq<nat>)
    requires TablesOk(t) && NextClaim(t, x.claimAt).Some?
    requires detected != [] && x.result.version == RenderVersion(detected)
    ensures var sid := NextClaim(t, x.claimAt).value.sid;
      var t' := Handled(leaseSec, t, w, x);
      var newEnough := [10, 0, 19045] <= detected || exists i: nat :: LargerFrom(detected, [10, 0, 19045], i);
      && sid in t'.rows
      && (t'.rows[sid].status == Done ==>
            && t'.rows[sid].detectedVersion == Some(x.result.version)
            && t'.rows[sid].requiredVersion == Some("10.0.19045")
            && t'.rows[sid].resultMsg.Some?
            && ("passed" <= t'.rows[sid].resultMsg.value <==> newEnough)
            && ("failed" <= t'.rows[sid].resultMsg.value <==> !newEnough))
  {
    hide Handled, TablesOk, NextClaim, Rules, LargerFrom, RenderVersion, Verdict;
    AttemptEndsRight(leaseSec, t, w, x);
    VerdictSays(detected);
  }

  /** The one way to stay in `processing` while the heartbeat keeps up: the external call succeeded, the credits at the
      commit were short of the price, and at the last look there were some. Without a change in between, the credits
      are then strictly between zero and the price. */
  lemma StuckIffFraction(leaseSec: real, t: Tables, w: string, x: Surroundings)
    requires TablesOk(t) && NextClaim(t, x.claimAt).Some?
    requires LeaseLives(leaseSec, x, Balance(t, TicketOf(t, NextClaim(t, x.claimAt).value, x.external).userId))
    ensures var p := NextClaim(t, x.claimAt).value;
      var t' := Handled(leaseSec, t, w, x);
      var before := Balance(t, t.rows[p.sid].userId);
      var after := Moved(before, x.meanwhile);
      && p.sid in t'.rows
      && (t'.rows[p.sid].status == Processing <==>
            x.external && before > 0.0 && x.result.ok && after < 1.0 && Moved(after, x.afterRefusal) > 0.0)
  {
    AttemptEndsRight(leaseSec, t, w, x);
    hide Handled, TablesOk, IsExternalControlBlock, NextClaim, LeaseAfter;
  }

  /** With whole credits, whole changes of them, and no top-up between a refused commit and the look at the credits
      after it, an attempt whose heartbeat keeps up always leaves `processing`. */
  lemma WholeCreditsNeverStick(leaseSec: real, t: Tables, w: string, x: Surroundings)
    requires TablesOk(t) && NextClaim(t, x.claimAt).Some?
    requires var credits := Balance(t, TicketOf(t, NextClaim(t, x.claimAt).value, x.external).userId);
      && LeaseLives(leaseSec, x, credits) && Whole(credits) && Whole(x.meanwhile) && x.afterRefusal <= 0.0
    ensures var t' := Handled(leaseSec, t, w, x);
      var sid := NextClaim(t, x.claimAt).value.sid;
      sid in t'.rows && t'.rows[sid].status in {Done, Pending, Dlq, Arrears}
  {
    hide Handled, NextClaim, LeaseLives, Ends, Rules;
    AttemptEndsRight(leaseSec, t, w, x);
    StuckIffFraction(leaseSec, t, w, x);
    var k := TicketOf(t, NextClaim(t, x.claimAt).value, x.external);
    WholeSum(Balance(t, k.userId), x.meanwhile);
    EndedInSomeStatus(leaseSec, t, Handled(leaseSec, t, w, x), w, x, k);
  }

  lemma EndedInSomeStatus(leaseSec: real, t: Tables, t': Tables, w: string, x: Surroundings, k: Ticket)
    requires Ends(t', k, w, x, Rules(leaseSec, x, k.retryCount, Balance(t, k.userId)))
    ensures k.sid in t'.rows && t'.rows[k.sid].status in {Done, Pending, Dlq, Arrears, Processing}
  {
    hide Rules, Verdict;
  }

  // ----- what the attempt leaves alone -----

  /** Nothing but one task and the credits of one user changes. */
  ghost predicate Touches(t: Tables, t': Tables, sid: nat, userId: int) {
    && t'.rows.Keys == t.rows.Keys && t'.nextId == t.nextId
    && (forall x :: x in t.rows && x != sid ==> t'.rows[x] == t.rows[x])
    && (forall u :: u != userId ==> Balance(t', u) == Balance(t, u))
  }

  lemma TouchesBoth(t: Tables, t1: Tables, t2: Tables, sid: nat, userId: int)
    requires Touches(t, t1, sid, userId) && Touches(t1, t2, sid, userId)
    ensures Touches(t, t2, sid, userId)
  {
  }

  lemma {:induction false} PulsesTouch(leaseSec: real, t: Tables, w: string, k: Ticket, ticks: seq<Tick>, lost: bool,
                                       stamp: string)
    ensures Touches(t, Pulses(leaseSec, t, KeyOf(w, k), ticks, lost, stamp).0, k.sid, k.userId)
    decreases |ticks|
  {
    if !lost && ticks != [] {
      var (t', refused) := Pulse(leaseSec, t, KeyOf(w, k), ticks[0], stamp);
      assert Touches(t, t', k.sid, k.userId);
      hide Touches, Pulse;
      PulsesTouch(leaseSec, t', w, k, ticks[1..], refused, stamp);
      TouchesBoth(t, t', Pulses(leaseSec, t', KeyOf(w, k), ticks[1..], refused, stamp).0, k.sid, k.userId);
    }
  }

  lemma UpdateTouches(t: Tables, w: string, k: Ticket, p: Patch, now: real, stamp: string)
    ensures Touches(t, UpdateOwned(t, k.sid, w, k.generation, p, now, stamp).0, k.sid, k.userId)
  {
  }

  lemma AdjustTouches(t: Tables, k: Ticket, delta: real)
    ensures Touches(t, Adjusted(t, k.userId, delta), k.sid, k.userId)
    ensures Adjusted(t, k.userId, delta).rows == t.rows
  {
  }

  lemma ParkTouches(leaseSec: real, t: Tables, lost: bool, w: string, k: Ticket, msg: string, x: Surroundings)
    ensures Touches(t, Parked(leaseSec, t, lost, w, k, msg, x), k.sid, k.userId)
  {
    var t' := Pulses(leaseSec, t, KeyOf(w, k), x.beforeParking, lost, x.stamp).0;
    PulsesTouch(leaseSec, t, w, k, x.beforeParking, lost, x.stamp);
    UpdateTouches(t', w, k, ArrearsPatch(msg), x.parkAt, x.stamp);
    hide Touches, UpdateOwned, Pulses;
    TouchesBoth(t, t', Parked(leaseSec, t, lost, w, k, msg, x), k.sid, k.userId);
  }

  lemma FinalizeTouches(t: Tables, w: string, k: Ticket, x: Surroundings)
    requires PaysFor(t, k)
    ensures Touches(t, Finalized(t, w, k, x).0, k.sid, k.userId)
  {
    hide Verdict;
  }

  /** The row, if it is there, belongs to the user of the ticket. */
  ghost predicate PaysFor(t: Tables, k: Ticket) {
    k.sid in t.rows ==> t.rows[k.sid].userId == k.userId
  }

  lemma {:induction false} PulsesKeepUser(leaseSec: real, t: Tables, w: string, k: Ticket, ticks: seq<Tick>, lost: bool,
                                          stamp: string)
    requires PaysFor(t, k)
    ensures PaysFor(Pulses(leaseSec, t, KeyOf(w, k), ticks, lost, stamp).0, k)
    decreases |ticks|
  {
    if !lost && ticks != [] {
      var (t', refused) := Pulse(leaseSec, t, KeyOf(w, k), ticks[0], stamp);
      assert PaysFor(t', k);
      PulsesKeepUser(leaseSec, t', w, k, ticks[1..], refused, stamp);
    }
  }

  lemma AnswerTouches(leaseSec: real, t: Tables, w: string, k: Ticket, x: Surroundings)
    requires PaysFor(t, k)
    ensures Touches(t, Answered(leaseSec, t, w, k, x), k.sid, k.userId)
  {
    var (t', lost) := Pulses(leaseSec, t, KeyOf(w, k), x.beforeCommit, false, x.stamp);
    PulsesTouch(leaseSec, t, w, k, x.beforeCommit, false, x.stamp);
    PulsesKeepUser(leaseSec, t, w, k, x.beforeCommit, false, x.stamp);
    UpdateTouches(t', w, k, FailurePatch(k, x.result, x.retryAt), x.commitAt, x.stamp);
    FinalizeTouches(t', w, k, x);
    var t'' := Finalized(t', w, k, x).0;
    hide Touches, UpdateOwned, Pulses, Finalized, Adjusted, Parked, FailurePatch;
    AdjustTouches(t'', k, x.afterRefusal);
    var t3 := Adjusted(t'', k.userId, x.afterRefusal);
    ParkTouches(leaseSec, t3, lost, w, k, QUOTA_TAKEN, x);
    TouchesBoth(t'', t3, Parked(leaseSec, t3, lost, w, k, QUOTA_TAKEN, x), k.sid, k.userId);
    TouchesBoth(t', t'', Unpaid(leaseSec, t'', lost, w, k, x), k.sid, k.userId);
    TouchesBoth(t, t', Answered(leaseSec, t, w, k, x), k.sid, k.userId);
  }

  lemma AttemptedTouches(leaseSec: real, t: Tables, w: string, k: Ticket, x: Surroundings)
    requires PaysFor(t, k)
    ensures Touches(t, Attempted(leaseSec, t, w, k, x), k.sid, k.userId)
  {
    var (t1, lost1) := Pulses(leaseSec, t, KeyOf(w, k), x.early, false, x.stamp);
    PulsesTouch(leaseSec, t, w, k, x.early, false, x.stamp);
    PulsesKeepUser(leaseSec, t, w, k, x.early, false, x.stamp);
    var t2 := Pulses(leaseSec, t1, KeyOf(w, k), x.during, lost1, x.stamp).0;
    PulsesTouch(leaseSec, t1, w, k, x.during, lost1, x.stamp);
    PulsesKeepUser(leaseSec, t1, w, k, x.during, lost1, x.stamp);
    hide Touches, Pulses, Adjusted, Parked, Answered;
    ParkTouches(leaseSec, t1, false, w, k, NO_QUOTA, x);
    AdjustTouches(t2, k, x.meanwhile);
    var t3 := Adjusted(t2, k.userId, x.meanwhile);
    AnswerTouches(leaseSec, t3, w, k, x);
    TouchesBoth(t2, t3, Answered(leaseSec, t3, w, k, x), k.sid, k.userId);
    TouchesBoth(t1, t2, Called(leaseSec, t1, lost1, w, k, x), k.sid, k.userId);
    TouchesBoth(t, t1, Attempted(leaseSec, t, w, k, x), k.sid, k.userId);
  }

  lemma ClaimTouches(leaseSec: real, t: Tables, p: Pick, w: string, now: real, stamp: string, userId: int)
    requires ClaimUpdate(t, p, w, now, leaseSec, stamp).Some?
    ensures p.sid in t.rows && Touches(t, ClaimUpdate(t, p, w, now, leaseSec, stamp).value, p.sid, userId)
  {
  }

  /** The attempt touches the task it claims and the credits of that task's user, and nothing else. */
  lemma AttemptTouchesOneTask(leaseSec: real, t: Tables, w: string, x: Surroundings)
    ensures match NextClaim(t, x.claimAt)
      case None => Handled(leaseSec, t, w, x) == t
      case Some(p) => p.sid in t.rows && Touches(t, Handled(leaseSec, t, w, x), p.sid, t.rows[p.sid].userId)
  {
    hide NextClaim, ClaimUpdate, Attempted, Touches;
    var pick := NextClaim(t, x.claimAt);
    if pick.Some? {
      var sid := pick.value.sid;
      ClaimedRow(leaseSec, t, w, x.claimAt, x.stamp);
      var t1 := ClaimUpdate(t, pick.value, w, x.claimAt, leaseSec, x.stamp).value;
      var k := TicketFor(sid, t1.rows[sid], x.external);
      ClaimTouches(leaseSec, t, pick.value, w, x.claimAt, x.stamp, k.userId);
      AttemptedTouches(leaseSec, t1, w, k, x);
      TouchesBoth(t, t1, Attempted(leaseSec, t1, w, k, x), sid, k.userId);
    }
  }
}
