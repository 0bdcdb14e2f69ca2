/** How a task that waits for credits comes back into the queue. */
module Arrears {
  import opened Common
  import opened Tasks
  import opened TaskDb
  import opened Worker
  import opened Protocol
  import opened Runs
  import Database

  predicate InArrears(t: Tables, sid: nat) {
    sid in t.rows && t.rows[sid].status == Arrears
  }

  ghost predicate LowestInArrears(t: Tables, sid: nat)
    ensures LowestInArrears(t, sid) ==> sid in t.rows
  {
    InArrears(t, sid) && forall x :: InArrears(t, x) ==> sid <= x
  }

  /** Which task one pass queues again, if any. */
  function Restored(t: Tables, external: bool, stamp: string): Tables {
    match FindArrears(t)
    case None => t
    case Some(sid) =>
      if !external then WithRow(t, sid, Patched(t.rows[sid], RequeuePatch("internal model, queued again"), stamp))
      else if IsArrears(t, t.rows[sid].userId) then t
      else WithRow(t, sid, Patched(t.rows[sid], RequeuePatch("quota restored, queued again"), stamp))
  }

  lemma FoundIsLowest(t: Tables)
    ensures forall sid: nat :: LowestInArrears(t, sid) <==> FindArrears(t) == Some(sid)
  {
    var found := FindArrears(t);
    assert found.Some? ==> InArrears(t, found.value);
  }

  /** Queue one task again that waited for credits: the one of lowest id, if the backend is internal now or its user
      has credits again. A task of higher id is not looked at, funded or not. */
  method RecoverArrears(db: Database.Database, external: bool, stamp: string) returns (queued: Option<nat>)
    modifies db
    ensures db.View() == Restored(old(db.View()), external, stamp)
    ensures queued.Some? <==>
      exists sid :: LowestInArrears(old(db.View()), sid)
                    && (!external || Balance(old(db.View()), old(db.rows)[sid].userId) > 0.0)
    ensures queued.Some? ==>
      var sid := queued.value;
      && LowestInArrears(old(db.View()), sid)
      && db.accounts == old(db.accounts) && db.nextId == old(db.nextId)
      && db.rows == old(db.rows)[sid := old(db.rows)[sid].(
        status := Pending, nextAttemptAt := 0.0, updatedAt := stamp,
        resultMsg := Some(if external then "quota restored, queued again" else "internal model, queued again"))]
    ensures queued == None ==> db.View() == old(db.View())
  {
    var found := FindArrears(db.View());
    FoundIsLowest(db.View());
    if found == None {
      return None;
    }
    var sid := found.value;
    queued := None;
    hide LowestInArrears, FindArrears;
    if !external || Balance(db.View(), db.rows[sid].userId) > 0.0 {
      var reason := if !external then "internal model, queued again" else "quota restored, queued again";
      var fields := NOTHING.(nextAttemptAt := Some(0.0), resultMsg := Some(Some(reason)));
      assert fields.(status := Some(Pending)) == RequeuePatch(reason);
      var moved := db.Transition(sid, Pending, fields, stamp);
      if moved {
        queued := Some(sid);
      }
    }
  }

  // ----- recovery from arrears, as steps -----

  /** One pass of the thread `w`. */
  function Pass(w: string, external: bool, stamp: string): seq<Action> {
    [Work(w, FindArrearsTask)] + [Work(w, CheckRecovered(external))] + [Work(w, ReadStatus)]
      + [Work(w, WriteStatus(stamp))]
  }

  lemma FourSteps(c: Config, s: System, a1: Action, a2: Action, a3: Action, a4: Action)
    ensures Exec(c, s, [a1] + [a2] + [a3] + [a4])
         == Protocol.Step(c, Protocol.Step(c, Protocol.Step(c, Protocol.Step(c, s, a1), a2), a3), a4)
  {
    assert Exec(c, s, []) == s && [] + [a1] == [a1];
    hide Exec, Protocol.Step;
    ExecLast(c, s, [], a1);
    ExecLast(c, s, [a1], a2);
    ExecLast(c, s, [a1] + [a2], a3);
    ExecLast(c, s, [a1] + [a2] + [a3], a4);
  }

  /** Where the four steps pass through. */
  function Found(t: Tables): Pc {
    match FindArrears(t)
    case None => Idle
    case Some(sid) => ArrearsFound(sid)
  }

  function Checked(t: Tables, external: bool): Pc {
    match FindArrears(t)
    case None => Idle
    case Some(sid) =>
      if !external then Requeueing(sid, "internal model, queued again")
      else if IsArrears(t, t.rows[sid].userId) then Idle
      else Requeueing(sid, "quota restored, queued again")
  }

  function Ready(t: Tables, external: bool): Pc {
    var pc := Checked(t, external);
    if pc.Requeueing? then RequeueWrite(pc.sid, Status.Arrears, pc.reason) else Idle
  }

  lemma Looks(leaseSec: real, t: Tables, w: string, external: bool)
    ensures Worker.Step(leaseSec, t, w, Idle, false, FindArrearsTask) == Effect(t, Found(t))
    ensures Worker.Step(leaseSec, t, w, Found(t), false, CheckRecovered(external)) == Effect(t, Checked(t, external))
  {
  }

  lemma Reads(leaseSec: real, t: Tables, w: string, external: bool)
    ensures Worker.Step(leaseSec, t, w, Checked(t, external), false, ReadStatus) == Effect(t, Ready(t, external))
  {
    var pc := Checked(t, external);
    assert pc.Requeueing? ==> InArrears(t, pc.sid);
    hide Checked, FindArrears;
  }

  lemma Requeues(leaseSec: real, t: Tables, w: string, external: bool, stamp: string)
    ensures Worker.Step(leaseSec, t, w, Ready(t, external), false, WriteStatus(stamp))
        == Effect(Restored(t, external, stamp), Idle)
  {
    hide Patched;
  }

  lemma PassSteps(leaseSec: real, t: Tables, w: string, external: bool, stamp: string)
    ensures Worker.Step(leaseSec, t, w, Idle, false, FindArrearsTask) == Effect(t, Found(t))
    ensures Worker.Step(leaseSec, t, w, Found(t), false, CheckRecovered(external)) == Effect(t, Checked(t, external))
    ensures Worker.Step(leaseSec, t, w, Checked(t, external), false, ReadStatus) == Effect(t, Ready(t, external))
    ensures Worker.Step(leaseSec, t, w, Ready(t, external), false, WriteStatus(stamp))
        == Effect(Restored(t, external, stamp), Idle)
  {
    hide Worker.Step, Found, Checked, Ready, Restored;
    Looks(leaseSec, t, w, external);
    Reads(leaseSec, t, w, external);
    Requeues(leaseSec, t, w, external, stamp);
  }

  /** A pass is one run of an idle thread, and disturbs nothing else. */
  lemma PassRestores(c: Config, s: System, w: string, external: bool, stamp: string)
    requires WorkerPc(s, w) == Idle
    ensures Exec(c, s, Pass(w, external, stamp)) == ClaimAt(s, Restored(s.tables, external, stamp), w, Idle)
  {
    var t := s.tables;
    assert Protocol.Step(c, s, Work(w, FindArrearsTask))
        == Protocol.Step(c, ClaimAt(s, t, w, Idle), Work(w, FindArrearsTask)) by {
      assert s.workers[w := Idle][w := Found(t)] == s.workers[w := Found(t)];
      PassSteps(c.processingLease, t, w, external, stamp);
      hide Worker.Step;
    }
    hide Worker.Step, Protocol.Step, Exec, Restored, Found, Checked, Ready;
    PassSteps(c.processingLease, t, w, external, stamp);
    FourSteps(c, s, Work(w, FindArrearsTask), Work(w, CheckRecovered(external)), Work(w, ReadStatus),
              Work(w, WriteStatus(stamp)));
    NoTickets(t, external);
    ClaimSteps(c, s, t, w, Idle, FindArrearsTask);
    ClaimSteps(c, s, t, w, Found(t), CheckRecovered(external));
    ClaimSteps(c, s, t, w, Checked(t, external), ReadStatus);
    ClaimSteps(c, s, t, w, Ready(t, external), WriteStatus(stamp));
  }

  lemma NoTickets(t: Tables, external: bool)
    ensures !HasTicket(Found(t)) && !HasTicket(Checked(t, external)) && !HasTicket(Ready(t, external))
  {
  }

  /** "A funded task that waits for credits is queued again" is false: one pass queues a task exactly when it is the
      lowest of those waiting and may be called for. */
  lemma QueuedAgainIffLowest(c: Config, s: System, w: string, external: bool, stamp: string, sid: nat)
    requires WorkerPc(s, w) == Idle && InArrears(s.tables, sid)
    ensures var t' := Exec(c, s, Pass(w, external, stamp)).tables;
      && sid in t'.rows
      && (t'.rows[sid].status == Pending <==>
            && (forall x :: InArrears(s.tables, x) ==> sid <= x)
            && (!external || Balance(s.tables, s.tables.rows[sid].userId) > 0.0))
  {
    PassRestores(c, s, w, external, stamp);
    hide Exec, Pass;
    assert FindArrears(s.tables).Some? && InArrears(s.tables, FindArrears(s.tables).value);
  }

  function Passes(n: nat, w: string, external: bool, stamp: string): seq<Action> {
    if n == 0 then [] else Pass(w, external, stamp) + Passes(n - 1, w, external, stamp)
  }

  lemma LowestIsBroke(t: Tables, stamp: string, broke: nat)
    requires InArrears(t, broke) && (forall x :: InArrears(t, x) ==> broke <= x) && IsArrears(t, t.rows[broke].userId)
    ensures Restored(t, true, stamp) == t
  {
    assert FindArrears(t).Some? && InArrears(t, FindArrears(t).value);
  }

  /** A task whose user has credits waits for as long as an older task waits whose user has none, however often the
      recovery runs. */
  lemma {:induction false} FundedTaskCanStarve(c: Config, s: System, w: string, n: nat, stamp: string, broke: nat,
                                               funded: nat)
    requires WorkerPc(s, w) == Idle
    requires InArrears(s.tables, broke) && InArrears(s.tables, funded)
    requires forall x :: InArrears(s.tables, x) ==> broke <= x
    requires IsArrears(s.tables, s.tables.rows[broke].userId) && !IsArrears(s.tables, s.tables.rows[funded].userId)
    ensures Exec(c, s, Passes(n, w, true, stamp)).tables == s.tables
    decreases n
  {
    if n > 0 {
      hide Exec, Pass;
      LowestIsBroke(s.tables, stamp, broke);
      PassRestores(c, s, w, true, stamp);
      ExecConcat(c, s, Pass(w, true, stamp), Passes(n - 1, w, true, stamp));
      hide FindArrears, Restored;
      FundedTaskCanStarve(c, ClaimAt(s, s.tables, w, Idle), w, n - 1, stamp, broke, funded);
    }
  }
}
