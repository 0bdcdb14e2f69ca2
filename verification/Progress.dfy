/** Over whole runs: a worker that lets go of a task lets it leave `processing`. */
module Progress {
  import opened Common
  import opened Tasks
  import opened TaskDb
  import opened Evolution
  import opened Protocol
  import opened History
  import Worker
  import Upload
  import Recognize
  import Credits
  import Fencing
  import Heartbeats

  // ----- whole credits stay whole -----

  ghost predicate WholeBalances(t: Tables) {
    forall u :: Whole(Balance(t, u))
  }

  predicate WholeAdjustment(a: Action) {
    a.Adjust? ==> Whole(a.delta)
  }

  lemma StepKeepsWhole(c: Config, s: System, a: Action)
    requires Inv(c, s) && WholeBalances(s.tables) && WholeAdjustment(a)
    ensures WholeBalances(Step(c, s, a).tables)
  {
    hide Inv, Step, Balance;
    forall u ensures Whole(Balance(Step(c, s, a).tables, u)) {
      Credits.StepConserves(c, s, a, u);
      assert Whole(Balance(s.tables, u));
      var credited := Credits.CreditedBy(s, a, u);
      assert Whole(credited);
      WholeSum(Balance(s.tables, u), credited);
      var paid := Credits.PaidBy(c, s, a, u);
      hide Credits.PaidBy, Credits.CreditedBy;
      assert Whole(COST_PER_CALL * |paid| as real) by { assert COST_PER_CALL * |paid| as real == |paid| as real; }
      WholeSum(Balance(s.tables, u) + credited, COST_PER_CALL * |paid| as real);
    }
  }

  lemma {:induction false} RunKeepsWhole(c: Config, s: System, run: seq<Action>)
    requires Inv(c, s) && WholeBalances(s.tables) && forall i :: 0 <= i < |run| ==> WholeAdjustment(run[i])
    ensures WholeBalances(Exec(c, s, run).tables)
    decreases |run|
  {
    if run != [] {
      hide Inv, Step, WholeBalances, WholeAdjustment;
      StepInv(c, s, run[0]);
      StepKeepsWhole(c, s, run[0]);
      RunKeepsWhole(c, Step(c, s, run[0]), run[1..]);
    }
  }

  /** Whole balances and whole adjustments keep every balance of every reachable state whole. */
  lemma BalancesStayWhole(c: Config, accounts: map<int, real>, run: seq<Action>, userId: int)
    requires Solvent(accounts) && (forall u :: u in accounts ==> Whole(accounts[u]))
    requires forall i :: 0 <= i < |run| ==> WholeAdjustment(run[i])
    ensures Whole(Balance(Exec(c, Start(accounts), run).tables, userId))
  {
    StartInv(c, accounts);
    assert WholeBalances(Start(accounts).tables);
    hide Inv, Exec;
    RunKeepsWhole(c, Start(accounts), run);
  }

  // ----- a worker that keeps its fence open -----

  /** The clock reading of the fenced write the step makes, if it makes one. */
  function Reading(pc: Worker.Pc, act: Worker.Act): Option<real> {
    if act.CommitFailure? && pc.Judged? && !pc.result.ok then Some(act.now)
    else if act.FinalizeRead? && pc.Judged? && pc.result.ok then Some(act.now)
    else if act.FinalizeCommit? && pc.Finalizing? then Some(pc.readAt)
    else if act.ArrearsCommit? && pc.Starving? then Some(act.now)
    else None
  }

  /** The thread does not die, has not heard "lost" when it looks, and finds its fence open whenever it commits. */
  predicate Proceeds(s: System, a: Action, w: string, k: Worker.Ticket) {
    a.Work? && a.w == w ==>
      && !a.act.Drop?
      && (a.act.QuotaCheck? || a.act.CallModel? ==> !HeardLost(s, w))
      && var at := Reading(WorkerPc(s, w), a.act);
         (at.Some? ==> Fenced(s.tables, k.sid, w, k.generation, at.value))
  }

  /** Changes of credits are whole, and none gives the user credits between a refused commit and the look after it. */
  predicate NoTopUp(s: System, a: Action, w: string, k: Worker.Ticket) {
    WholeAdjustment(a) && (a.Adjust? && a.userId == k.userId && WorkerPc(s, w) == Worker.Refused(k) ==> a.delta <= 0.0)
  }

  /** The thread works on its ticket during the whole run. */
  predicate WorksOn(c: Config, s: System, run: seq<Action>, w: string, k: Worker.Ticket)
    decreases |run|
  {
    && Fencing.Held(s, w) == Some(k)
    && (run == [] || (Proceeds(s, run[0], w, k) && NoTopUp(s, run[0], w, k)
                      && WorksOn(c, Step(c, s, run[0]), run[1..], w, k)))
  }

  /** A commit was refused only for want of credits. */
  ghost predicate OnlyShort(s: System, w: string, k: Worker.Ticket) {
    WorkerPc(s, w) == Worker.Refused(k) ==> k.external && Balance(s.tables, k.userId) == 0.0
  }

  lemma RefusedWhenShort(leaseSec: real, t: Tables, w: string, pc: Worker.Pc, lost: bool, act: Worker.Act)
    requires TablesOk(t) && Worker.PcOk(t, pc) && Worker.HasTicket(pc) && Whole(Balance(t, pc.t.userId))
    requires var at := Reading(pc, act); at.Some? ==> Fenced(t, pc.t.sid, w, pc.t.generation, at.value)
    requires !pc.Refused?
    ensures var e := Worker.Step(leaseSec, t, w, pc, lost, act);
      e.pc.Refused? ==> e.pc.t == pc.t && pc.t.external && Balance(e.tables, pc.t.userId) == 0.0
  {
    hide Recognize.Verdict, Worker.FailurePatch, UpdateOwned, UpdateTask, ClaimUpdate, NextClaim, FindArrears, RowOk,
      SameRequest;
  }

  lemma RefusedWaits(leaseSec: real, t: Tables, w: string, pc: Worker.Pc, lost: bool, act: Worker.Act)
    requires pc.Refused?
    ensures Worker.Step(leaseSec, t, w, pc, lost, act).tables == t
  {
  }

  lemma StaysShort(c: Config, s: System, a: Action, w: string, k: Worker.Ticket)
    requires Inv(c, s) && WholeBalances(s.tables) && OnlyShort(s, w, k)
    requires Fencing.Held(s, w) == Some(k) && Proceeds(s, a, w, k) && NoTopUp(s, a, w, k)
    requires Fencing.Held(Step(c, s, a), w) == Some(k)
    ensures OnlyShort(Step(c, s, a), w, k)
  {
    hide Worker.Step, Upload.Step, Renewal;
    if a.Work? && a.w == w {
      IdleOk(c, s, w);
      var pc := WorkerPc(s, w);
      assert Whole(Balance(s.tables, k.userId));
      hide Inv, TablesOk, Worker.PcOk, Reading, WholeBalances;
      if pc.Refused? {
        RefusedWaits(c.processingLease, s.tables, w, pc, HeardLost(s, w), a.act);
      } else {
        TablesAreOk(c, s);
        RefusedWhenShort(c.processingLease, s.tables, w, pc, HeardLost(s, w), a.act);
      }
    } else {
      Heartbeats.OthersLeaveWorker(c, s, a, w);
      StepInv(c, s, a);
      TablesAreOk(c, Step(c, s, a));
      Credits.StepConserves(c, s, a, k.userId);
      NoDebt(Step(c, s, a).tables, k.userId);
      hide Inv, Step, Balance, Credits.PaidBy, TablesOk;
    }
  }

  lemma TablesAreOk(c: Config, s: System)
    requires Inv(c, s)
    ensures TablesOk(s.tables)
  {
  }

  lemma NoDebt(t: Tables, userId: int)
    requires TablesOk(t)
    ensures Balance(t, userId) >= 0.0
  {
  }

  /** Letting go of a ticket, with an open fence and credits short if anything, is leaving `processing`. */
  lemma LetsGoByExit(leaseSec: real, t: Tables, w: string, pc: Worker.Pc, lost: bool, act: Worker.Act)
    requires Worker.PcOk(t, pc) && Worker.HasTicket(pc) && !act.Drop?
    requires act.QuotaCheck? || act.CallModel? ==> !lost
    requires var at := Reading(pc, act); at.Some? ==> Fenced(t, pc.t.sid, w, pc.t.generation, at.value)
    requires pc.Refused? ==> pc.t.external && IsArrears(t, pc.t.userId)
    ensures var e := Worker.Step(leaseSec, t, w, pc, lost, act);
      && pc.t.sid in t.rows && pc.t.sid in e.tables.rows
      && (Worker.HasTicket(e.pc) ==> e.pc.t == pc.t)
      && (!Worker.HasTicket(e.pc) ==>
            t.rows[pc.t.sid].status == Processing && e.tables.rows[pc.t.sid].status != Processing)
  {
    hide Recognize.Verdict, UpdateTask, ClaimUpdate, NextClaim, FindArrears, Recognize.IsExternalControlBlock;
  }

  lemma {:induction false} WorksToExit(c: Config, s: System, run: seq<Action>, a: Action, w: string, k: Worker.Ticket)
    requires Inv(c, s) && WholeBalances(s.tables) && OnlyShort(s, w, k) && WorksOn(c, s, run, w, k)
    requires var e := Exec(c, s, run);
      Proceeds(e, a, w, k) && Fencing.Held(Step(c, e, a), w) != Some(k)
    ensures Occurs(c, Exec(c, s, run), a, k.sid, Exit)
    decreases |run|
  {
    if run != [] {
      hide Inv, Step, WholeBalances, OnlyShort, Proceeds, NoTopUp, Occurs;
      var s' := Step(c, s, run[0]);
      StepInv(c, s, run[0]);
      assert WholeAdjustment(run[0]) by { WholeOnes(s, run[0], w, k); }
      StepKeepsWhole(c, s, run[0]);
      StaysShort(c, s, run[0], w, k);
      WorksToExit(c, s', run[1..], a, w, k);
    } else {
      LastStepExits(c, s, a, w, k);
    }
  }

  lemma WholeOnes(s: System, a: Action, w: string, k: Worker.Ticket)
    requires NoTopUp(s, a, w, k)
    ensures WholeAdjustment(a)
  {
  }

  lemma LastStepExits(c: Config, s: System, a: Action, w: string, k: Worker.Ticket)
    requires Inv(c, s) && OnlyShort(s, w, k) && Fencing.Held(s, w) == Some(k)
    requires Proceeds(s, a, w, k) && Fencing.Held(Step(c, s, a), w) != Some(k)
    ensures Occurs(c, s, a, k.sid, Exit)
  {
    hide Worker.Step, Upload.Step, Renewal, Worker.AttemptOn;
    IdleOk(c, s, w);
    hide Inv;
    if a.Work? && a.w == w {
      hide Worker.PcOk, Reading;
      LetsGoByExit(c.processingLease, s.tables, w, WorkerPc(s, w), HeardLost(s, w), a.act);
    } else {
      Heartbeats.OthersLeaveWorker(c, s, a, w);
    }
  }

  /** In every run: from the moment a worker has read its claim back, as long as it does not die, does not hear that its
      lease is lost, finds its fence open at each of its own commits, and credits are whole and not topped up behind a
      refused commit, the very step by which it lets go of the task takes the task out of `processing`, by one of the
      four exits. Everybody else may do anything meanwhile, and the clock of every other actor may show anything. */
  lemma AttemptAlwaysExits(c: Config, accounts: map<int, real>, before: seq<Action>, run: seq<Action>, a: Action,
                           w: string, k: Worker.Ticket)
    requires Solvent(accounts) && (forall u :: u in accounts ==> Whole(accounts[u]))
    requires forall i :: 0 <= i < |before| ==> WholeAdjustment(before[i])
    requires var s := Exec(c, Start(accounts), before);
      WorkerPc(s, w) == Worker.Holding(k) && WorksOn(c, s, run, w, k)
    requires var e := Exec(c, Exec(c, Start(accounts), before), run);
      Proceeds(e, a, w, k) && Fencing.Held(Step(c, e, a), w) != Some(k)
    ensures var e := Exec(c, Exec(c, Start(accounts), before), run);
      && Occurs(c, e, a, k.sid, Exit)
      && (Occurs(c, e, a, k.sid, Failure) || Occurs(c, e, a, k.sid, Block) || Occurs(c, e, a, k.sid, Starvation)
          || Occurs(c, e, a, k.sid, Finish))
  {
    var s := Exec(c, Start(accounts), before);
    StartInv(c, accounts);
    RunInv(c, Start(accounts), before);
    RunInv(c, s, run);
    assert WholeBalances(Start(accounts).tables);
    hide Inv, Exec, Step, WorksOn, Occurs, Proceeds;
    RunKeepsWhole(c, Start(accounts), before);
    WorksToExit(c, s, run, a, w, k);
    StepBalanced(c, Exec(c, s, run), a, k.sid);
  }
}
