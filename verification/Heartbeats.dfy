/** What a heartbeat may conclude from the answers to its renewals. */
module Heartbeats {
  import opened Common
  import opened Tasks
  import opened TaskDb
  import opened Evolution
  import opened Protocol
  import opened History
  import Worker
  import Recognize
  import Upload
  import Fencing

  /** The heartbeat has been refused, and no fenced write of its pair can pass with a reading of `now` or later. */
  ghost predicate RefusedForGood(s: System, key: BeatKey, now: real) {
    && key in s.beats && s.beats[key].lost
    && key.sid in s.tables.rows && key.generation <= s.tables.rows[key.sid].generation
    && forall later :: later >= now ==> !Fenced(s.tables, key.sid, key.owner, key.generation, later)
  }

  /** The row stays in the same attempt: processing, same generation. */
  predicate SameAttempt(r: Row, r': Row) {
    r.status == Processing && r'.status == Processing && r'.generation == r.generation
  }

  lemma WorkerLeavesAttempt(leaseSec: real, t: Tables, w: string, pc: Worker.Pc, lost: bool, act: Worker.Act, sid: nat)
    requires sid in t.rows
    ensures var t' := Worker.Step(leaseSec, t, w, pc, lost, act).tables;
      sid in t'.rows && (SameAttempt(t.rows[sid], t'.rows[sid]) ==> t'.rows[sid] == t.rows[sid])
  {
    hide NextClaim, FindArrears, ClaimUpdate, UpdateOwned, UpdateTask, FinalizeWrite, SameAttempt, Recognize.Verdict;
    var t' := Worker.Step(leaseSec, t, w, pc, lost, act).tables;
    if act.ClaimWrite? && pc.Selected? {
      ClaimLeaves(t, pc.pick, w, pc.readAt, leaseSec, act.stamp, sid);
    } else if act.CommitFailure? && pc.Judged? {
      ExitLeaves(t, pc.t, w, Worker.FailurePatch(pc.t, pc.result, act.retryAt), act.now, act.stamp, sid);
    } else if act.ArrearsCommit? && pc.Starving? {
      ExitLeaves(t, pc.t, w, Worker.ArrearsPatch(pc.msg), act.now, act.stamp, sid);
    } else if act.FinalizeCommit? && pc.Finalizing? {
      FinalizeLeaves(t, pc.t, pc.payer, w, Worker.ChargeFor(pc.t), pc.result.version, Recognize.REQUIRED_VERSION,
                     Recognize.Verdict(pc.result.version), pc.readAt, act.stamp, sid);
    } else if act.WriteStatus? && pc.RequeueWrite? {
      RequeueLeaves(t, pc, act.stamp, sid);
    }
  }

  lemma ClaimLeaves(t: Tables, p: Pick, w: string, now: real, leaseSec: real, stamp: string, sid: nat)
    requires sid in t.rows
    ensures match ClaimUpdate(t, p, w, now, leaseSec, stamp)
      case None => true
      case Some(t') => sid in t'.rows && (SameAttempt(t.rows[sid], t'.rows[sid]) ==> t'.rows[sid] == t.rows[sid])
  {
  }

  lemma ExitLeaves(t: Tables, k: Worker.Ticket, w: string, p: Patch, now: real, stamp: string, sid: nat)
    requires sid in t.rows && p.status.Some? && p.status.value != Processing
    ensures var t' := UpdateOwned(t, k.sid, w, k.generation, p, now, stamp).0;
      sid in t'.rows && (SameAttempt(t.rows[sid], t'.rows[sid]) ==> t'.rows[sid] == t.rows[sid])
  {
  }

  lemma FinalizeLeaves(t: Tables, k: Worker.Ticket, payer: int, w: string, cost: real, version: string,
                       required: string, msg: string, now: real, stamp: string, sid: nat)
    requires sid in t.rows
    ensures var t' := FinalizeWrite(t, k.sid, w, k.generation, payer, cost, version, required, msg, now, stamp).0;
      sid in t'.rows && (SameAttempt(t.rows[sid], t'.rows[sid]) ==> t'.rows[sid] == t.rows[sid])
  {
  }

  lemma RequeueLeaves(t: Tables, pc: Worker.Pc, stamp: string, sid: nat)
    requires sid in t.rows && pc.RequeueWrite?
    ensures var t' := UpdateTask(t, pc.sid, pc.from, Worker.RequeuePatch(pc.reason), stamp).0;
      sid in t'.rows && (SameAttempt(t.rows[sid], t'.rows[sid]) ==> t'.rows[sid] == t.rows[sid])
  {
  }

  lemma RenewalOnRow(c: Config, t: Tables, key: BeatKey, now: real, stamp: string, sid: nat)
    requires sid in t.rows
    ensures var r, r' := t.rows[sid], Renewal(c, t, key, now, stamp).0.rows[sid];
      && (!(sid == key.sid && FencePasses(r, key.owner, key.generation, now)) ==> r' == r)
      && (sid == key.sid && FencePasses(r, key.owner, key.generation, now) ==>
            r' == r.(leaseUntil := LeaseEnd(now, c.processingLease), updatedAt := stamp))
  {
  }

  /** A row in an attempt is touched within that attempt only by the heartbeat of its own owner and generation. */
  lemma OnlyItsBeat(c: Config, s: System, a: Action, sid: nat)
    requires Inv(c, s) && sid in s.tables.rows
    ensures var t' := Step(c, s, a).tables;
      && sid in t'.rows
      && var r, r' := s.tables.rows[sid], t'.rows[sid];
         (SameAttempt(r, r') && r' != r ==>
            && (a.Renew? || a.RenewError?) && Beating(s, a.key)
            && a.key.sid == sid && FencePasses(r, a.key.owner, a.key.generation, a.now)
            && r'.leaseUntil == LeaseEnd(a.now, c.processingLease))
  {
    match a
    case Work(w, act) =>
      hide Inv, Worker.Step;
      WorkerLeavesAttempt(c.processingLease, s.tables, w, WorkerPc(s, w), HeardLost(s, w), act, sid);
    case Request(u, act) =>
      hide Inv, UploadStep;
      UploadLeavesAttempt(c, s, u, act, sid);
    case Renew(key, now, stamp) =>
      hide Inv, Renewal;
      RenewalOnRow(c, s.tables, key, now, stamp, sid);
    case RenewError(key, now, stamp, applied) =>
      hide Inv, Renewal;
      RenewalOnRow(c, s.tables, key, now, stamp, sid);
    case Collect(_) => hide Inv;
    case Adjust(_, _) => hide Inv;
  }

  /** A refused heartbeat stays refused: no later attempt of the same thread gets the same pair again. */
  lemma RefusalStays(c: Config, s: System, a: Action, key: BeatKey)
    requires Inv(c, s) && key in s.beats && s.beats[key].lost
    ensures var b := Step(c, s, a).beats; key in b && b[key].lost
  {
    hide Renewal, Upload.Step, Worker.Step;
    if a.Work? {
      assert BeatOk(s.tables, WorkerPc(s, key.owner), key);
      hide Inv;
      NewKeyIsNew(c, s, a.w, a.act, key);
    } else {
      hide Inv;
    }
  }

  /** The beat that a read-back starts is not under a generation this thread had before. */
  lemma NewKeyIsNew(c: Config, s: System, w: string, act: Worker.Act, key: BeatKey)
    requires Inv(c, s) && BeatOk(s.tables, WorkerPc(s, key.owner), key)
    ensures var pc, pc' := WorkerPc(s, w), Worker.Step(c.processingLease, s.tables, w, WorkerPc(s, w), HeardLost(s, w),
                                                       act).pc;
      act.ReadBack? && pc.Claimed? && pc'.Holding? ==> KeyOf(w, pc'.t) != key
  {
    var pc := WorkerPc(s, w);
    IdleOk(c, s, w);
    hide Inv;
    if act.ReadBack? && pc.Claimed? {
      assert pc.newGeneration <= s.tables.rows[pc.sid].generation;
    }
  }

  lemma StepKeepsRefusal(c: Config, s: System, a: Action, key: BeatKey, now: real)
    requires Inv(c, s) && RefusedForGood(s, key, now)
    ensures RefusedForGood(Step(c, s, a), key, now)
  {
    RefusalStays(c, s, a, key);
    OnlyItsBeat(c, s, a, key.sid);
    StepOnRow(c, s, a, key.sid);
    hide Inv, Step, Worker.RowAchieves;
    var r, r' := s.tables.rows[key.sid], Step(c, s, a).tables.rows[key.sid];
    forall later | later >= now ensures !FencePasses(r', key.owner, key.generation, later) {
      assert !Fenced(s.tables, key.sid, key.owner, key.generation, later);
    }
  }

  lemma {:induction false} RunKeepsRefusal(c: Config, s: System, run: seq<Action>, key: BeatKey, now: real)
    requires Inv(c, s) && RefusedForGood(s, key, now)
    ensures RefusedForGood(Exec(c, s, run), key, now)
    decreases |run|
  {
    if run != [] {
      StepInv(c, s, run[0]);
      StepKeepsRefusal(c, s, run[0], key, now);
      hide Inv, Step, RefusedForGood;
      RunKeepsRefusal(c, Step(c, s, run[0]), run[1..], key, now);
    }
  }

  /** "Lost" is final. If a live heartbeat's renewal, with clock reading `now`, is refused, then in every state of
      every continuation no fenced write of that owner and generation that reads the clock at `now` or later can
      pass: the worker may safely throw its result away. */
  lemma LostIsFinal(c: Config, accounts: map<int, real>, before: seq<Action>, key: BeatKey, now: real, stamp: string,
                    after: seq<Action>, later: real)
    requires Solvent(accounts) && later >= now
    requires var s := Exec(c, Start(accounts), before);
      Beating(s, key) && Step(c, s, Renew(key, now, stamp)).beats[key].lost
    ensures var s := Exec(c, Start(accounts), before);
      var e := Exec(c, Step(c, s, Renew(key, now, stamp)), after);
      !Fenced(e.tables, key.sid, key.owner, key.generation, later)
  {
    var s := Exec(c, Start(accounts), before);
    StartInv(c, accounts);
    RunInv(c, Start(accounts), before);
    StepInv(c, s, Renew(key, now, stamp));
    assert BeatOk(s.tables, WorkerPc(s, key.owner), key);
    var s' := Step(c, s, Renew(key, now, stamp));
    assert !Fenced(s.tables, key.sid, key.owner, key.generation, now);
    hide Inv, Exec;
    assert RefusedForGood(s', key, now);
    RunKeepsRefusal(c, s', after, key, now);
  }

  /** An exception proves nothing: whether or not the renewal took effect, a fence that was open for some reading
      up to the old lease is still open for it, and a closed fence stays closed up to the renewal's own reading. */
  lemma UncertainIsOpen(c: Config, s: System, key: BeatKey, now: real, stamp: string, applied: bool, later: real)
    requires Inv(c, s) && Beating(s, key)
    ensures var e := Step(c, s, RenewError(key, now, stamp, applied));
      && e.beats[key].uncertain && !e.beats[key].lost
      && (Fenced(s.tables, key.sid, key.owner, key.generation, later) && later < LeaseEnd(now, c.processingLease) ==>
            Fenced(e.tables, key.sid, key.owner, key.generation, later))
      && (!Fenced(s.tables, key.sid, key.owner, key.generation, now) ==> e.tables == s.tables)
  {
    hide Inv;
  }

  // ----- under a monotone clock a lease only grows -----

  /** Along the chain claim, heartbeat start, renewals, each clock reading is no earlier than the one before. */
  predicate InOrder(s: System, a: Action) {
    (a.Renew? || a.RenewError?) && Beating(s, a.key) ==> a.now >= s.beats[a.key].lastReading
  }

  predicate Monotone(c: Config, s: System, run: seq<Action>)
    decreases |run|
  {
    run == [] || (InOrder(s, run[0]) && Monotone(c, Step(c, s, run[0]), run[1..]))
  }

  predicate HeldAs(s: System, sid: nat, owner: string, generation: nat) {
    && sid in s.tables.rows && s.tables.rows[sid].status == Processing
    && s.tables.rows[sid].owner == Some(owner) && s.tables.rows[sid].generation == generation
  }

  /** A thread between its claim and its read-back owns the row under its own claim or not at all. */
  ghost predicate ClaimReading(c: Config, s: System, w: string) {
    var pc := WorkerPc(s, w);
    pc.Claimed? && pc.sid in s.tables.rows && s.tables.rows[pc.sid].owner == Some(w) ==>
      && s.tables.rows[pc.sid].generation == pc.newGeneration
      && s.tables.rows[pc.sid].leaseUntil <= LeaseEnd(pc.readAt, c.processingLease)
  }

  ghost predicate BeatReading(c: Config, s: System, key: BeatKey) {
    key in s.beats && HeldAs(s, key.sid, key.owner, key.generation) ==>
      s.tables.rows[key.sid].leaseUntil <= LeaseEnd(s.beats[key].lastReading, c.processingLease)
  }

  /** The lease in the row is never ahead of the last clock reading of the chain that maintains it. */
  ghost predicate ReadingsOk(c: Config, s: System) {
    && (forall w :: ClaimReading(c, s, w))
    && (forall key :: BeatReading(c, s, key))
  }

  lemma FreshClaimReading(leaseSec: real, t: Tables, w: string, pc: Worker.Pc, lost: bool, act: Worker.Act)
    ensures var e := Worker.Step(leaseSec, t, w, pc, lost, act);
      e.pc.Claimed? && e.pc != pc ==>
        && e.pc.sid in e.tables.rows && e.tables.rows[e.pc.sid].generation == e.pc.newGeneration
        && e.tables.rows[e.pc.sid].leaseUntil == LeaseEnd(e.pc.readAt, leaseSec)
  {
    hide NextClaim, FindArrears, Worker.FailurePatch, Worker.ArrearsPatch, Worker.RequeuePatch, UpdateOwned,
         UpdateTask, FinalizeWrite;
  }

  lemma ClaimedWaits(leaseSec: real, t: Tables, w: string, pc: Worker.Pc, lost: bool, act: Worker.Act)
    requires pc.Claimed? && Worker.Step(leaseSec, t, w, pc, lost, act).pc == pc
    ensures Worker.Step(leaseSec, t, w, pc, lost, act).tables == t
  {
  }

  lemma StepClaimReading(c: Config, s: System, a: Action, w: string)
    requires Inv(c, s) && ClaimReading(c, s, w)
    ensures ClaimReading(c, Step(c, s, a), w)
  {
    hide Worker.Step, Upload.Step, Renewal;
    var pc := WorkerPc(s, w);
    if a.Work? && a.w == w {
      hide Inv;
      FreshClaimReading(c.processingLease, s.tables, w, pc, HeardLost(s, w), a.act);
      if pc.Claimed? && WorkerPc(WorkStep(c, s, w, a.act), w) == pc {
        ClaimedWaits(c.processingLease, s.tables, w, pc, HeardLost(s, w), a.act);
      }
    } else {
      OthersLeaveWorker(c, s, a, w);
      IdleOk(c, s, w);
      if pc.Claimed? && pc.sid in Step(c, s, a).tables.rows && Step(c, s, a).tables.rows[pc.sid].owner == Some(w) {
        ClaimUndisturbed(c, s, a, w);
      }
      hide Inv, Step;
    }
  }

  lemma OthersLeaveWorker(c: Config, s: System, a: Action, w: string)
    requires !(a.Work? && a.w == w)
    ensures WorkerPc(Step(c, s, a), w) == WorkerPc(s, w)
  {
    hide Worker.Step, Upload.Step, Renewal;
  }

  lemma ClaimUndisturbed(c: Config, s: System, a: Action, w: string)
    requires Inv(c, s) && !(a.Work? && a.w == w)
    requires WorkerPc(s, w).Claimed? && ClaimReading(c, s, w)
    requires var sid := WorkerPc(s, w).sid;
      sid in Step(c, s, a).tables.rows && Step(c, s, a).tables.rows[sid].owner == Some(w)
    ensures var sid := WorkerPc(s, w).sid;
      sid in s.tables.rows && Step(c, s, a).tables.rows[sid] == s.tables.rows[sid]
  {
    var pc := WorkerPc(s, w);
    IdleOk(c, s, w);
    StepInv(c, s, a);
    StepOnRow(c, s, a, pc.sid);
    OnlyItsBeat(c, s, a, pc.sid);
    if a.Work? {
      Fencing.ClaimInstallsOwner(c.processingLease, s.tables, a.w, WorkerPc(s, a.w), HeardLost(s, a.w), a.act, pc.sid);
    } else {
      Fencing.OnlyWorkersClaim(c, s, a, pc.sid);
    }
    var r, r' := s.tables.rows[pc.sid], Step(c, s, a).tables.rows[pc.sid];
    assert RowOk(pc.sid, r) && RowOk(pc.sid, r');
    assert SameAttempt(r, r');
    assert (a.Renew? || a.RenewError?) && Beating(s, a.key) ==> BeatOk(s.tables, WorkerPc(s, a.key.owner), a.key);
    hide Inv, Step;
  }

  /** The beat that a read-back starts, and every other beat that was there. */
  lemma BeatsAfter(c: Config, s: System, a: Action, key: BeatKey)
    requires key in Step(c, s, a).beats && !(key in s.beats && Step(c, s, a).beats[key] == s.beats[key])
    ensures ((a.Renew? || a.RenewError?) && a.key == key && Beating(s, key)
             && Step(c, s, a).beats[key].lastReading == a.now)
         || (&& a.Work? && a.w == key.owner && a.act.ReadBack?
             && var pc := WorkerPc(s, key.owner);
                && pc.Claimed? && pc.sid == key.sid && pc.sid in s.tables.rows
                && key.generation == s.tables.rows[pc.sid].generation
                && Step(c, s, a).tables == s.tables
                && Step(c, s, a).beats[key].lastReading == pc.readAt)
  {
    hide Renewal, Upload.Step;
  }

  lemma StepBeatReading(c: Config, s: System, a: Action, key: BeatKey)
    requires Inv(c, s) && ClaimReading(c, s, key.owner) && BeatReading(c, s, key) && InOrder(s, a)
    ensures BeatReading(c, Step(c, s, a), key)
  {
    var s' := Step(c, s, a);
    if key in s'.beats && HeldAs(s', key.sid, key.owner, key.generation) {
      if key in s.beats {
        OldBeatReading(c, s, a, key);
      } else {
        hide Inv, Step;
        BeatsAfter(c, s, a, key);
      }
    }
  }

  lemma OldBeatReading(c: Config, s: System, a: Action, key: BeatKey)
    requires Inv(c, s) && BeatReading(c, s, key) && InOrder(s, a)
    requires key in s.beats && key in Step(c, s, a).beats
    requires HeldAs(Step(c, s, a), key.sid, key.owner, key.generation)
    ensures BeatReading(c, Step(c, s, a), key)
  {
    assert BeatOk(s.tables, WorkerPc(s, key.owner), key);
    hide Inv, Step, Worker.RowAchieves;
    StepOnRow(c, s, a, key.sid);
    OnlyItsBeat(c, s, a, key.sid);
    var r, r' := s.tables.rows[key.sid], Step(c, s, a).tables.rows[key.sid];
    assert SameAttempt(r, r') && r.owner == Some(key.owner);
    if Step(c, s, a).beats[key] != s.beats[key] {
      BeatsAfter(c, s, a, key);
    }
    if r' != r {
      RenewalNeedsBeat(c, s, a, key);
    }
  }

  lemma RenewalNeedsBeat(c: Config, s: System, a: Action, key: BeatKey)
    requires (a.Renew? || a.RenewError?) && a.key == key && Beating(s, key)
    ensures key in Step(c, s, a).beats && Step(c, s, a).beats[key].lastReading == a.now
  {
    hide Renewal;
  }

  lemma StepReadings(c: Config, s: System, a: Action)
    requires Inv(c, s) && ReadingsOk(c, s) && InOrder(s, a)
    ensures ReadingsOk(c, Step(c, s, a))
  {
    hide Inv, Step, ClaimReading, BeatReading;
    forall w ensures ClaimReading(c, Step(c, s, a), w) { StepClaimReading(c, s, a, w); }
    forall key ensures BeatReading(c, Step(c, s, a), key) { StepBeatReading(c, s, a, key); }
  }

  lemma {:induction false} RunReadings(c: Config, s: System, run: seq<Action>)
    requires Inv(c, s) && ReadingsOk(c, s) && Monotone(c, s, run)
    ensures ReadingsOk(c, Exec(c, s, run))
    decreases |run|
  {
    if run != [] {
      hide Inv, Step, ReadingsOk;
      StepInv(c, s, run[0]);
      StepReadings(c, s, run[0]);
      RunReadings(c, Step(c, s, run[0]), run[1..]);
    }
  }

  lemma StepExtendsLease(c: Config, s: System, a: Action, sid: nat)
    requires Inv(c, s) && ReadingsOk(c, s) && InOrder(s, a) && sid in s.tables.rows
    ensures var t' := Step(c, s, a).tables;
      sid in t'.rows && (SameAttempt(s.tables.rows[sid], t'.rows[sid]) ==>
                           t'.rows[sid].leaseUntil >= s.tables.rows[sid].leaseUntil)
  {
    OnlyItsBeat(c, s, a, sid);
    hide Inv, Step;
    if a.Renew? || a.RenewError? {
      assert BeatReading(c, s, a.key);
    }
  }

  lemma {:induction false} AttemptIsContinuous(c: Config, s: System, run: seq<Action>, sid: nat)
    requires Inv(c, s) && sid in s.tables.rows
    ensures var e := Exec(c, s, run);
      && sid in e.tables.rows && s.tables.rows[sid].generation <= e.tables.rows[sid].generation
      && (e.tables.rows[sid].status == Processing && e.tables.rows[sid].generation == s.tables.rows[sid].generation ==>
            s.tables.rows[sid].status == Processing)
    decreases |run|
  {
    if run != [] {
      StepInv(c, s, run[0]);
      StepOnRow(c, s, run[0], sid);
      hide Inv, Step, Worker.RowAchieves;
      AttemptIsContinuous(c, Step(c, s, run[0]), run[1..], sid);
    }
  }

  lemma {:induction false} RunExtendsLease(c: Config, s: System, run: seq<Action>, sid: nat)
    requires Inv(c, s) && ReadingsOk(c, s) && Monotone(c, s, run) && sid in s.tables.rows
    ensures var e := Exec(c, s, run);
      sid in e.tables.rows && (SameAttempt(s.tables.rows[sid], e.tables.rows[sid]) ==>
                                 e.tables.rows[sid].leaseUntil >= s.tables.rows[sid].leaseUntil)
    decreases |run|
  {
    if run != [] {
      StepInv(c, s, run[0]);
      StepReadings(c, s, run[0]);
      StepExtendsLease(c, s, run[0], sid);
      StepOnRow(c, s, run[0], sid);
      hide Inv, Step, ReadingsOk, Worker.RowAchieves;
      AttemptIsContinuous(c, Step(c, s, run[0]), run[1..], sid);
      RunExtendsLease(c, Step(c, s, run[0]), run[1..], sid);
    }
  }

  lemma {:induction false} MonotonePrefix(c: Config, s: System, a: seq<Action>, b: seq<Action>)
    requires Monotone(c, s, a + b)
    ensures Monotone(c, s, a) && Monotone(c, Exec(c, s, a), b)
    decreases |a|
  {
    if a == [] {
      assert a + b == b;
    } else {
      hide Step, InOrder;
      assert (a + b)[1..] == a[1..] + b;
      MonotonePrefix(c, Step(c, s, a[0]), a[1..], b);
    }
  }

  /** Under a monotone clock the lease of a task never shrinks while it stays in one attempt. */
  lemma LeaseOnlyGrows(c: Config, accounts: map<int, real>, before: seq<Action>, after: seq<Action>, sid: nat)
    requires Solvent(accounts) && Monotone(c, Start(accounts), before + after)
    requires sid in Exec(c, Start(accounts), before).tables.rows
    ensures var s := Exec(c, Start(accounts), before);
      var e := Exec(c, s, after);
      sid in e.tables.rows && (SameAttempt(s.tables.rows[sid], e.tables.rows[sid]) ==>
                                 e.tables.rows[sid].leaseUntil >= s.tables.rows[sid].leaseUntil)
  {
    StartInv(c, accounts);
    RunInv(c, Start(accounts), before);
    MonotonePrefix(c, Start(accounts), before, after);
    RunReadings(c, Start(accounts), before);
    RunExtendsLease(c, Exec(c, Start(accounts), before), after, sid);
  }
}
