/** Conservation of credits over whole runs. */
module Credits {
  import opened Common
  import opened ObjectNames
  import opened Tasks
  import opened TaskDb
  import opened Evolution
  import opened Protocol
  import opened History
  import Worker
  import Upload
  import Recognize

  /** The task a step finishes against payment, if it does. */
  function PaidTask(c: Config, s: System, a: Action): Option<nat> {
    if a.Work? && WorkerPc(s, a.w).Finalizing? && Occurs(c, s, a, WorkerPc(s, a.w).t.sid, Charge)
    then Some(WorkerPc(s, a.w).t.sid) else None
  }

  function PaidBy(c: Config, s: System, a: Action, userId: int): set<nat> {
    match PaidTask(c, s, a)
    case Some(sid) => if sid in s.tables.rows && s.tables.rows[sid].userId == userId then {sid} else {}
    case None => {}
  }

  /** The user's tasks that were finished against payment during the run. */
  function PaidTasks(c: Config, s: System, run: seq<Action>, userId: int): set<nat>
    decreases |run|
  {
    if run == [] then {} else PaidBy(c, s, run[0], userId) + PaidTasks(c, Step(c, s, run[0]), run[1..], userId)
  }

  /** What outside adjustments that the triggers let through added to the user's account. */
  function Credited(c: Config, s: System, run: seq<Action>, userId: int): real
    decreases |run|
  {
    if run == [] then 0.0
    else CreditedBy(s, run[0], userId) + Credited(c, Step(c, s, run[0]), run[1..], userId)
  }

  function CreditedBy(s: System, a: Action, userId: int): real {
    if a.Adjust? && a.userId == userId && Balance(s.tables, userId) + a.delta >= 0.0 then a.delta else 0.0
  }

  /** The finalize transaction moves money and status together or not at all, and bills the owner of the row. */
  lemma FinalizeIsAtomic(t: Tables, w: string, k: Worker.Ticket, payer: int, version: string, required: string,
                         msg: string, now: real, stamp: string)
    requires Worker.TicketOk(t, k) && payer == k.userId
    ensures var (t', ok) := FinalizeWrite(t, k.sid, w, k.generation, payer, Worker.ChargeFor(k), version, required, msg,
                                          now, stamp);
      && (ok <==> Fenced(t, k.sid, w, k.generation, now)
                  && (k.external ==> payer in t.accounts && t.accounts[payer] >= COST_PER_CALL))
      && (!ok ==> t' == t)
      && (ok ==> t'.rows[k.sid].status == Done && t'.rows[k.sid].owner == None && t.rows[k.sid].userId == payer)
      && (forall u :: Balance(t', u) == Balance(t, u) - (if ok && k.external && u == payer then COST_PER_CALL else 0.0))
  {
  }

  lemma WorkerBills(leaseSec: real, t: Tables, w: string, pc: Worker.Pc, lost: bool, act: Worker.Act, userId: int)
    requires Worker.PcOk(t, pc) && act.FinalizeCommit? && pc.Finalizing?
    ensures var t' := Worker.Step(leaseSec, t, w, pc, lost, act).tables;
      && pc.t.sid in t.rows && pc.t.sid in t'.rows
      && var paid := Shows(Charge, t.rows[pc.t.sid], t'.rows[pc.t.sid], Worker.Finish(pc.t.external));
         Balance(t', userId) == Balance(t, userId)
           - (if paid && t.rows[pc.t.sid].userId == userId then COST_PER_CALL else 0.0)
  {
    hide Worker.Step, Balance, Recognize.Verdict;
    FinalizeIsAtomic(t, w, pc.t, pc.payer, pc.result.version, Recognize.REQUIRED_VERSION,
                     Recognize.Verdict(pc.result.version), pc.readAt, act.stamp);
    FinalizeStep(leaseSec, t, w, pc, lost, act);
    hide FinalizeWrite;
  }

  lemma FinalizeStep(leaseSec: real, t: Tables, w: string, pc: Worker.Pc, lost: bool, act: Worker.Act)
    requires act.FinalizeCommit? && pc.Finalizing?
    ensures Worker.Step(leaseSec, t, w, pc, lost, act).tables
         == FinalizeWrite(t, pc.t.sid, w, pc.t.generation, pc.payer, Worker.ChargeFor(pc.t), pc.result.version,
                          Recognize.REQUIRED_VERSION, Recognize.Verdict(pc.result.version), pc.readAt, act.stamp).0
  {
    hide FinalizeWrite, Recognize.Verdict;
  }

  lemma WorkerKeepsAccounts(leaseSec: real, t: Tables, w: string, pc: Worker.Pc, lost: bool, act: Worker.Act)
    requires !(act.FinalizeCommit? && pc.Finalizing?)
    ensures Worker.Step(leaseSec, t, w, pc, lost, act).tables.accounts == t.accounts
  {
    hide Patched, NextClaim, FindArrears, FinalizeWrite;
  }

  lemma WorkConserves(c: Config, s: System, w: string, act: Worker.Act, userId: int)
    requires Inv(c, s)
    ensures Balance(WorkStep(c, s, w, act).tables, userId)
         == Balance(s.tables, userId) - COST_PER_CALL * |PaidBy(c, s, Work(w, act), userId)| as real
  {
    var pc := WorkerPc(s, w);
    IdleOk(c, s, w);
    hide TablesOk, Upload.StoreOk, Upload.PcOk, BeatOk, Worker.Step, Worker.PcOk, Shows;
    if act.FinalizeCommit? && pc.Finalizing? {
      WorkerBills(c.processingLease, s.tables, w, pc, HeardLost(s, w), act, userId);
      AttemptsFinish(pc, act);
    } else {
      WorkerKeepsAccounts(c.processingLease, s.tables, w, pc, HeardLost(s, w), act);
      NoCharge(c, s, w, act);
    }
  }

  lemma AttemptsFinish(pc: Worker.Pc, act: Worker.Act)
    requires act.FinalizeCommit? && pc.Finalizing?
    ensures Worker.AttemptOn(pc, act, pc.t.sid) == Worker.Finish(pc.t.external)
  {
  }

  lemma NoCharge(c: Config, s: System, w: string, act: Worker.Act)
    requires !(act.FinalizeCommit? && WorkerPc(s, w).Finalizing?)
    ensures PaidTask(c, s, Work(w, act)) == None
  {
    hide Worker.Step;
  }

  lemma UploadKeepsAccounts(c: Config, t: Tables, files: Upload.Files, u: Thread, pc: Upload.Pc, act: Upload.Act)
    ensures Upload.Step(c, t, files, u, pc, act).tables.accounts == t.accounts
  {
    hide Patched, FindByKey;
  }

  /** One step changes a balance only by an outside adjustment or by finishing a task of that user. */
  lemma StepConserves(c: Config, s: System, a: Action, userId: int)
    requires Inv(c, s)
    ensures Balance(Step(c, s, a).tables, userId)
         == Balance(s.tables, userId) + CreditedBy(s, a, userId) - COST_PER_CALL * |PaidBy(c, s, a, userId)| as real
  {
    hide Inv, WorkStep, Upload.Step;
    match a
    case Work(w, act) =>
      WorkConserves(c, s, w, act, userId);
      hide PaidBy;
    case Request(u, act) => UploadKeepsAccounts(c, s.tables, s.files, u, UploadPc(s, u), act);
    case Renew(_, _, _) =>
    case RenewError(_, _, _, _) =>
    case Collect(_) =>
    case Adjust(_, _) =>
  }

  /** A finished task is never paid again. */
  lemma {:induction false} DoneIsNotPaid(c: Config, s: System, run: seq<Action>, sid: nat, userId: int)
    requires Inv(c, s) && InStatus(s, sid, Done)
    ensures sid !in PaidTasks(c, s, run, userId)
    decreases |run|
  {
    if run != [] {
      StepInv(c, s, run[0]);
      StepOnRow(c, s, run[0], sid);
      hide Inv, Step;
      DoneIsNotPaid(c, Step(c, s, run[0]), run[1..], sid, userId);
    }
  }

  /** A task is in the set only if it belongs to the user, so it is charged to its own owner. */
  lemma {:induction false} PaidIsDone(c: Config, s: System, a: Action, userId: int, sid: nat)
    requires Inv(c, s) && sid in PaidBy(c, s, a, userId)
    ensures InStatus(Step(c, s, a), sid, Done) && s.tables.rows[sid].userId == userId
  {
    StepOnRow(c, s, a, sid);
    hide Inv, Step;
  }

  lemma {:induction false} RunConserves(c: Config, s: System, run: seq<Action>, userId: int)
    requires Inv(c, s)
    ensures Balance(Exec(c, s, run).tables, userId)
         == Balance(s.tables, userId) + Credited(c, s, run, userId)
            - COST_PER_CALL * |PaidTasks(c, s, run, userId)| as real
    decreases |run|
  {
    if run != [] {
      var s' := Step(c, s, run[0]);
      var first := PaidBy(c, s, run[0], userId);
      var rest := PaidTasks(c, s', run[1..], userId);
      StepInv(c, s, run[0]);
      StepConserves(c, s, run[0], userId);
      forall sid | sid in first ensures sid !in rest {
        PaidIsDone(c, s, run[0], userId, sid);
        DoneIsNotPaid(c, s', run[1..], sid, userId);
      }
      hide Inv, Step, PaidBy, CreditedBy, Balance;
      assert |first + rest| == |first| + |rest|;
      RunConserves(c, s', run[1..], userId);
    }
  }

  /** The tasks in the set are the user's tasks that History counts as charged, each of them once. */
  lemma {:induction false} PaidAreCharged(c: Config, s: System, run: seq<Action>, userId: int, sid: nat)
    requires Inv(c, s)
    ensures var e := Exec(c, s, run);
      sid in PaidTasks(c, s, run, userId) <==>
        Count(c, s, run, sid, Charge) > 0 && sid in e.tables.rows && e.tables.rows[sid].userId == userId
    decreases |run|
  {
    if run != [] {
      StepInv(c, s, run[0]);
      PaidIsCharge(c, s, run[0], userId, sid);
      hide Inv, Step, Occurs, PaidBy;
      PaidAreCharged(c, Step(c, s, run[0]), run[1..], userId, sid);
      UserStays(c, s, run, sid);
    }
  }

  lemma PaidIsCharge(c: Config, s: System, a: Action, userId: int, sid: nat)
    ensures sid in PaidBy(c, s, a, userId) <==>
      Occurs(c, s, a, sid, Charge) && s.tables.rows[sid].userId == userId
  {
    hide Step;
  }

  lemma {:induction false} UserStays(c: Config, s: System, run: seq<Action>, sid: nat)
    requires Inv(c, s)
    ensures var e := Exec(c, s, run);
      sid in s.tables.rows ==> sid in e.tables.rows && e.tables.rows[sid].userId == s.tables.rows[sid].userId
    decreases |run|
  {
    if run != [] {
      StepInv(c, s, run[0]);
      hide Inv, Step;
      UserStays(c, Step(c, s, run[0]), run[1..], sid);
    }
  }

  /** After every run a user's balance is what it was at the start, plus the outside adjustments, minus one
      credit for each of the user's tasks that were finished against payment; and it is never negative. */
  lemma CreditsAreConserved(c: Config, accounts: map<int, real>, run: seq<Action>, userId: int)
    requires Solvent(accounts)
    ensures var s, e := Start(accounts), Exec(c, Start(accounts), run);
      && Balance(e.tables, userId)
         == Balance(s.tables, userId) + Credited(c, s, run, userId) - |PaidTasks(c, s, run, userId)| as real
      && Balance(e.tables, userId) >= 0.0
  {
    StartInv(c, accounts);
    RunInv(c, Start(accounts), run);
    RunConserves(c, Start(accounts), run, userId);
  }
}
