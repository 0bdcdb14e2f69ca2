/** Who may write to a task that is being processed. */
module Fencing {
  import opened Common
  import opened Tasks
  import opened TaskDb
  import opened Protocol
  import opened History
  import Worker
  import Recognize

  /** A successful claim: by whom, and the generation it handed out. */
  datatype Claimed = Claimed(w: string, generation: nat)

  /** The last claim of the task that succeeded in the run. */
  function LastClaim(c: Config, s: System, run: seq<Action>, sid: nat, before: Option<Claimed>): Option<Claimed>
    decreases |run|
  {
    if run == [] then before
    else LastClaim(c, Step(c, s, run[0]), run[1..], sid, ClaimBy(c, s, run[0], sid, before))
  }

  function ClaimBy(c: Config, s: System, a: Action, sid: nat, before: Option<Claimed>): Option<Claimed> {
    if a.Work? && Occurs(c, s, a, sid, Claim) then Some(Claimed(a.w, GenerationOf(Step(c, s, a), sid))) else before
  }

  ghost predicate OwnedBy(s: System, sid: nat, last: Option<Claimed>) {
    InStatus(s, sid, Processing) ==>
      last.Some? && s.tables.rows[sid].owner == Some(last.value.w)
        && s.tables.rows[sid].generation == last.value.generation
  }

  lemma ClaimInstallsOwner(leaseSec: real, t: Tables, w: string, pc: Worker.Pc, lost: bool, act: Worker.Act, sid: nat)
    requires sid in t.rows
    ensures var t' := Worker.Step(leaseSec, t, w, pc, lost, act).tables;
      sid in t'.rows && (t'.rows[sid].generation != t.rows[sid].generation ==> t'.rows[sid].owner == Some(w))
  {
    hide NextClaim, FindArrears, Worker.FailurePatch, Worker.ArrearsPatch, Worker.RequeuePatch, Recognize.Verdict;
    hide UpdateOwned, UpdateTask, FinalizeWrite;
    if act.CommitFailure? && pc.Judged? {
      UpdatesKeep(t, pc.t.sid, w, pc.t.generation, Worker.FailurePatch(pc.t, pc.result, act.retryAt), act.now,
                  act.stamp, sid);
    } else if act.ArrearsCommit? && pc.Starving? {
      UpdatesKeep(t, pc.t.sid, w, pc.t.generation, Worker.ArrearsPatch(pc.msg), act.now, act.stamp, sid);
    } else if act.FinalizeCommit? && pc.Finalizing? {
      FinalizeKeeps(t, pc.t.sid, w, pc.t.generation, pc.payer, Worker.ChargeFor(pc.t), pc.result.version,
                    Recognize.REQUIRED_VERSION, Recognize.Verdict(pc.result.version), pc.readAt, act.stamp, sid);
    } else if act.WriteStatus? && pc.RequeueWrite? {
      RequeueKeeps(t, pc.sid, pc.from, Worker.RequeuePatch(pc.reason), act.stamp, sid);
    }
  }

  lemma UpdatesKeep(t: Tables, of: nat, w: string, g: nat, p: Patch, now: real, stamp: string, sid: nat)
    requires sid in t.rows
    ensures var t' := UpdateOwned(t, of, w, g, p, now, stamp).0;
      sid in t'.rows && t'.rows[sid].generation == t.rows[sid].generation
  {
  }

  lemma FinalizeKeeps(t: Tables, of: nat, w: string, g: nat, payer: int, cost: real, version: string, required: string,
                      msg: string, now: real, stamp: string, sid: nat)
    requires sid in t.rows
    ensures var t' := FinalizeWrite(t, of, w, g, payer, cost, version, required, msg, now, stamp).0;
      sid in t'.rows && t'.rows[sid].generation == t.rows[sid].generation
  {
  }

  lemma RequeueKeeps(t: Tables, of: nat, from: Status, p: Patch, stamp: string, sid: nat)
    requires sid in t.rows
    ensures var t' := UpdateTask(t, of, from, p, stamp).0;
      sid in t'.rows && t'.rows[sid].generation == t.rows[sid].generation
  {
  }

  /** Only a worker's step hands out a generation. */
  lemma OnlyWorkersClaim(c: Config, s: System, a: Action, sid: nat)
    requires Inv(c, s) && sid in s.tables.rows && !a.Work?
    ensures sid in Step(c, s, a).tables.rows
    ensures Step(c, s, a).tables.rows[sid].generation == s.tables.rows[sid].generation
  {
    hide Inv, UploadStep, WorkStep;
    if a.Request? {
      UploadLeavesAttempt(c, s, a.u, a.req, sid);
    }
  }

  lemma StepKeepsOwner(c: Config, s: System, a: Action, sid: nat, last: Option<Claimed>)
    requires Inv(c, s) && OwnedBy(s, sid, last)
    ensures OwnedBy(Step(c, s, a), sid, ClaimBy(c, s, a, sid, last))
  {
    if sid in s.tables.rows {
      StepOnRow(c, s, a, sid);
      if a.Work? {
        ClaimInstallsOwner(c.processingLease, s.tables, a.w, WorkerPc(s, a.w), HeardLost(s, a.w), a.act, sid);
      } else {
        OnlyWorkersClaim(c, s, a, sid);
      }
      hide Inv, Worker.Step, RenewStep, RenewErrorStep, CollectStep, AdjustStep, UploadStep, Worker.RowAchieves;
    } else {
      StepInv(c, s, a);
      hide Inv, Step;
    }
  }

  lemma {:induction false} OwnerIsLastClaimant(c: Config, s: System, run: seq<Action>, sid: nat,
                                               before: Option<Claimed>)
    requires Inv(c, s) && OwnedBy(s, sid, before)
    ensures OwnedBy(Exec(c, s, run), sid, LastClaim(c, s, run, sid, before))
    decreases |run|
  {
    if run != [] {
      StepInv(c, s, run[0]);
      StepKeepsOwner(c, s, run[0], sid, before);
      hide Inv, Step, OwnedBy, ClaimBy;
      OwnerIsLastClaimant(c, Step(c, s, run[0]), run[1..], sid, ClaimBy(c, s, run[0], sid, before));
    }
  }

  /** In every reachable state a fenced write can pass only for the thread that made the last successful claim, and
      only under the generation which that claim handed out; so for at most one pair, whatever its clock says. */
  lemma FenceAdmitsLastClaimant(c: Config, accounts: map<int, real>, run: seq<Action>, sid: nat, w: string,
                                generation: nat, now: real)
    requires Solvent(accounts)
    requires Fenced(Exec(c, Start(accounts), run).tables, sid, w, generation, now)
    ensures LastClaim(c, Start(accounts), run, sid, None) == Some(Claimed(w, generation))
    ensures Count(c, Start(accounts), run, sid, Claim) == generation
  {
    StartInv(c, accounts);
    OwnerIsLastClaimant(c, Start(accounts), run, sid, None);
    RunBalanced(c, Start(accounts), run, sid);
  }

  /** What an attempt in progress holds, whichever step it has reached. */
  function Held(s: System, w: string): Option<Worker.Ticket> {
    var pc := WorkerPc(s, w);
    if Worker.HasTicket(pc) then Some(pc.t) else None
  }

  /** An attempt in progress whose ticket can pass the fence, whatever its clock says, carries the generation which this
      thread's own claim handed out, and not one it read back from another claimant's row; its snapshot of the row is
      exact, so the retry count it will write is the current one plus one. */
  lemma FenceIsSound(c: Config, accounts: map<int, real>, run: seq<Action>, w: string, k: Worker.Ticket, now: real)
    requires Solvent(accounts)
    requires var s := Exec(c, Start(accounts), run);
      Held(s, w) == Some(k) && Fenced(s.tables, k.sid, w, k.generation, now)
    ensures LastClaim(c, Start(accounts), run, k.sid, None) == Some(Claimed(w, k.generation))
    ensures var r := Exec(c, Start(accounts), run).tables.rows[k.sid];
      k.userId == r.userId && k.retryCount == r.retryCount
  {
    FenceAdmitsLastClaimant(c, accounts, run, k.sid, w, k.generation, now);
    StartInv(c, accounts);
    RunInv(c, Start(accounts), run);
    IdleOk(c, Exec(c, Start(accounts), run), w);
    hide Inv, Exec;
  }

  // ----- both halves of the fence are needed -----

  /** A database whose only task is `sid`, waiting and due at time zero, with no worker active. */
  ghost predicate OneWaiting(c: Config, s: System, sid: nat) {
    && Inv(c, s) && s.tables.rows.Keys == {sid}
    && s.tables.rows[sid].status == Pending && s.tables.rows[sid].nextAttemptAt == 0.0
    && s.workers == map[] && s.beats == map[]
  }

  /** The only task, held by `w` under generation `g`. */
  predicate OneHeld(t: Tables, sid: nat, w: string, g: nat, lease: real) {
    && t.rows.Keys == {sid}
    && var r := t.rows[sid];
    && r.status == Processing && r.owner == Some(w) && r.generation == g && r.leaseUntil == lease
  }

  lemma PicksTheOnlyTask(t: Tables, sid: nat, now: real)
    requires t.rows.Keys == {sid}
    requires var r := t.rows[sid];
      (r.status == Pending && r.nextAttemptAt <= now) || (r.status == Processing && r.leaseUntil <= now)
    ensures NextClaim(t, now) == Some(Pick(sid, t.rows[sid].status == Pending, t.rows[sid].generation))
  {
    assert forall x :: x in Waiting(t, now) + Lapsed(t, now) ==> x == sid;
    assert sid in Waiting(t, now) + Lapsed(t, now);
  }

  /** Selecting and claiming the only task, as two steps of an idle worker. */
  lemma ClaimsIt(c: Config, s: System, w: string, sid: nat, now: real)
    requires s.tables.rows.Keys == {sid} && WorkerPc(s, w) == Worker.Idle
    requires var r := s.tables.rows[sid];
      (r.status == Pending && r.nextAttemptAt <= now) || (r.status == Processing && r.leaseUntil <= now)
    ensures var g := s.tables.rows[sid].generation + 1;
      var e := Step(c, Step(c, s, Work(w, Worker.ClaimSelect(now))), Work(w, Worker.ClaimWrite("")));
      && OneHeld(e.tables, sid, w, g, LeaseEnd(now, c.processingLease))
      && e.workers == s.workers[w := Worker.Claimed(sid, g, now)] && e.beats == s.beats
  {
    PicksTheOnlyTask(s.tables, sid, now);
    hide NextClaim;
    var s1 := Step(c, s, Work(w, Worker.ClaimSelect(now)));
    assert s1.tables == s.tables;
    var pick := Pick(sid, s.tables.rows[sid].status == Pending, s.tables.rows[sid].generation);
    assert s1.workers == s.workers[w := Worker.Selected(pick, now)];
  }

  lemma ReadsItBack(c: Config, s: System, w: string, sid: nat)
    requires sid in s.tables.rows && WorkerPc(s, w).Claimed? && WorkerPc(s, w).sid == sid
    ensures var e := Step(c, s, Work(w, Worker.ReadBack(false)));
      var r := s.tables.rows[sid];
      var t := Worker.Ticket(sid, r.generation, r.userId, r.retryCount, false);
      && e.tables == s.tables && e.workers == s.workers[w := Worker.Holding(t)]
      && e.beats == s.beats[KeyOf(w, t) := Beat(false, false, WorkerPc(s, w).readAt)]
  {
  }

  /** `v` claims, the lease lapses, `w` claims and reads back, then `v` reads back what is now `w`'s row. */
  function Race(v: string, w: string, late: real): seq<Action> {
    [Work(v, Worker.ClaimSelect(0.0))] + [Work(v, Worker.ClaimWrite(""))] + [Work(w, Worker.ClaimSelect(late))]
    + [Work(w, Worker.ClaimWrite(""))] + [Work(w, Worker.ReadBack(false))] + [Work(v, Worker.ReadBack(false))]
  }

  /** `w` claims, starts its heartbeat, gives the attempt up, and claims the task again when the lease has lapsed. */
  function Reclaim(w: string, late: real): seq<Action> {
    [Work(w, Worker.ClaimSelect(0.0))] + [Work(w, Worker.ClaimWrite(""))] + [Work(w, Worker.ReadBack(false))]
    + [Work(w, Worker.Drop)] + [Work(w, Worker.ClaimSelect(late))] + [Work(w, Worker.ClaimWrite(""))]
  }

  /** Executing six actions one after the other. */
  lemma SixSteps(c: Config, s: System, a1: Action, a2: Action, a3: Action, a4: Action, a5: Action, a6: Action)
    ensures Exec(c, s, [a1] + [a2] + [a3] + [a4] + [a5] + [a6])
         == Step(c, Step(c, Step(c, Step(c, Step(c, Step(c, s, a1), a2), a3), a4), a5), a6)
  {
    assert Exec(c, s, []) == s && [] + [a1] == [a1];
    hide Exec, Step;
    ExecLast(c, s, [], a1);
    ExecLast(c, s, [a1], a2);
    ExecLast(c, s, [a1] + [a2], a3);
    ExecLast(c, s, [a1] + [a2] + [a3], a4);
    ExecLast(c, s, [a1] + [a2] + [a3] + [a4], a5);
    ExecLast(c, s, [a1] + [a2] + [a3] + [a4] + [a5], a6);
  }

  /** Without the owner test: because a claim reads its row back only after the commit, two workers can come to hold
      the same, current generation of one task. Six steps from any such database lead there. */
  lemma OwnerTestIsNeeded(c: Config, s: System, sid: nat, v: string, w: string)
    requires OneWaiting(c, s, sid) && v != w
    ensures var late := LeaseEnd(0.0, c.processingLease);
      var e := Exec(c, s, Race(v, w, late));
      && Held(e, v).Some? && Held(e, v) == Held(e, w)
      && Fenced(e.tables, sid, w, Held(e, w).value.generation, late)
      && !Fenced(e.tables, sid, v, Held(e, v).value.generation, late)
  {
    var late := LeaseEnd(0.0, c.processingLease);
    hide Step, Inv;
    SixSteps(c, s, Work(v, Worker.ClaimSelect(0.0)), Work(v, Worker.ClaimWrite("")), Work(w, Worker.ClaimSelect(late)),
             Work(w, Worker.ClaimWrite("")), Work(w, Worker.ReadBack(false)), Work(v, Worker.ReadBack(false)));
    hide Exec;
    ClaimsIt(c, s, v, sid, 0.0);
    var s2 := Step(c, Step(c, s, Work(v, Worker.ClaimSelect(0.0))), Work(v, Worker.ClaimWrite("")));
    ClaimsIt(c, s2, w, sid, late);
    var s4 := Step(c, Step(c, s2, Work(w, Worker.ClaimSelect(late))), Work(w, Worker.ClaimWrite("")));
    ReadsItBack(c, s4, w, sid);
    ReadsItBack(c, Step(c, s4, Work(w, Worker.ReadBack(false))), v, sid);
  }

  /** Without the generation test: the heartbeat of an attempt that was given up is still running under the same
      owner name when that worker claims the task again. */
  lemma GenerationTestIsNeeded(c: Config, s: System, sid: nat, w: string)
    requires OneWaiting(c, s, sid)
    ensures var late := LeaseEnd(0.0, c.processingLease);
      var e := Exec(c, s, Reclaim(w, late));
      var stale := BeatKey(w, sid, s.tables.rows[sid].generation + 1);
      && Beating(e, stale)
      && Fenced(e.tables, sid, w, stale.generation + 1, late) && !Fenced(e.tables, sid, w, stale.generation, late)
  {
    var late := LeaseEnd(0.0, c.processingLease);
    hide Step, Inv;
    SixSteps(c, s, Work(w, Worker.ClaimSelect(0.0)), Work(w, Worker.ClaimWrite("")), Work(w, Worker.ReadBack(false)),
             Work(w, Worker.Drop), Work(w, Worker.ClaimSelect(late)), Work(w, Worker.ClaimWrite("")));
    hide Exec;
    ClaimsIt(c, s, w, sid, 0.0);
    var s2 := Step(c, Step(c, s, Work(w, Worker.ClaimSelect(0.0))), Work(w, Worker.ClaimWrite("")));
    ReadsItBack(c, s2, w, sid);
    var s3 := Step(c, s2, Work(w, Worker.ReadBack(false)));
    Drops(c, s3, w);
    ClaimsIt(c, Step(c, s3, Work(w, Worker.Drop)), w, sid, late);
  }

  lemma Drops(c: Config, s: System, w: string)
    ensures Step(c, s, Work(w, Worker.Drop)) == s.(workers := s.workers[w := Worker.Idle])
  {
  }
}
