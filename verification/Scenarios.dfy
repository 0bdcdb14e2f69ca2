/** Runs from the empty system that show what the code allows: every state that a finding is about is reached. */
module Scenarios {
  import opened Common
  import opened ObjectNames
  import opened Tasks
  import opened TaskDb
  import opened Protocol
  import opened Runs
  import opened AttemptRuns
  import Arrears
  import Fencing
  import History
  import Progress
  import Recognize
  import Requests
  import Upload
  import Worker

  const U := Thread(1, 1)
  const V := Thread(1, 2)

  /** One more action at the end of a run. */
  lemma Then(c: Config, s: System, run: seq<Action>, m: System, a: Action, e: System)
    requires Exec(c, s, run) == m && Step(c, m, a) == e
    ensures Exec(c, s, run + [a]) == e
  {
    hide Exec, Step;
    ExecLast(c, s, run, a);
  }

  lemma Asks(c: Config, s: System, run: seq<Action>, b: System, u: Thread, e: Upload.Effect, act: Upload.Act,
             e': Upload.Effect)
    requires Exec(c, s, run) == Requests.At(b, e, u) && Upload.Step(c, e.tables, e.files, u, e.pc, act) == e'
    ensures Exec(c, s, run + [Request(u, act)]) == Requests.At(b, e', u)
  {
    hide Exec, Step, Upload.Step;
    RequestSteps(c, b, e.tables, e.files, u, e.pc, act);
    Then(c, s, run, Requests.At(b, e, u), Request(u, act), Requests.At(b, e', u));
  }

  lemma Works(c: Config, s: System, run: seq<Action>, b: System, t: Tables, w: string, pc: Worker.Pc, key: BeatKey,
              beat: Beat, act: Worker.Act, e: Worker.Effect)
    requires !act.ReadBack? && !beat.lost && (Worker.HasTicket(pc) ==> KeyOf(w, pc.t) == key)
    requires Exec(c, s, run) == WorkAt(b, t, w, pc, key, beat)
        && Worker.Step(c.processingLease, t, w, pc, false, act) == e
    ensures Exec(c, s, run + [Work(w, act)]) == WorkAt(b, e.tables, w, e.pc, key, beat)
  {
    hide Exec, Step, Worker.Step;
    WorkSteps(c, b, t, w, pc, key, beat, act);
    Then(c, s, run, WorkAt(b, t, w, pc, key, beat), Work(w, act), WorkAt(b, e.tables, w, e.pc, key, beat));
  }

  // ----- a first upload -----

  /** A request for a fresh key, up to the point where its object is in place. */
  function Storing(u: Thread, userId: int, content: Bytes): seq<Action> {
    Reserving(u, userId, content) + [Request(u, Upload.OpenTemp)] + [Request(u, Upload.WriteChunk(content))]
    + [Request(u, Upload.CheckHash(true))] + [Request(u, Upload.Replace)]
  }

  function Reserving(u: Thread, userId: int, content: Bytes): seq<Action> {
    [] + [Request(u, Upload.Submit(userId, "key", content, true))] + [Request(u, Upload.Find)]
    + [Request(u, Upload.Reserve(0.0, ""))] + [Request(u, Upload.ReserveRead)]
  }

  function Uploading(u: Thread, userId: int, content: Bytes): seq<Action> {
    Storing(u, userId, content) + [Request(u, Upload.ReadStatus)] + [Request(u, Upload.WriteStatus(""))]
  }

  function Reserved(c: Config, t: Tables, userId: int, content: Bytes): Tables {
    var row := FreshRow(userId, "key", c.sha(content), Status.Uploading, 0.0 + c.uploadLease, None, "");
    WithRow(t, t.nextId, row).(nextId := t.nextId + 1)
  }

  function Stored(files: Upload.Files, sid: nat, u: Thread, content: Bytes): Upload.Files {
    Upload.Without(files, Temp(sid, u))[Final(sid) := content]
  }

  function Submitted(t: Tables, sid: nat, hash: string): Tables
    requires sid in t.rows
  {
    WithRow(t, sid, Requests.SubmittedRow(t.rows[sid], sid, hash, ""))
  }

  ghost predicate FreeFor(s: System, u: Thread, userId: int) {
    && (UploadPc(s, u) == Upload.Ready || UploadPc(s, u).Answered?)
    && s.tables.nextId !in s.tables.rows && FindByKey(s.tables, userId, "key") == None
  }

  lemma StoringReserves(c: Config, s: System, u: Thread, userId: int, content: Bytes)
    requires FreeFor(s, u, userId)
    ensures Exec(c, s, Reserving(u, userId, content))
      == Requests.At(s, Upload.Effect(Reserved(c, s.tables, userId, content), s.files,
                                      Upload.Opening(s.tables.nextId, c.sha(content))), u)
  {
    var t, t' := s.tables, Reserved(c, s.tables, userId, content);
    var req := Upload.Request(userId, "key", c.sha(content), true);
    var submit := Request(u, Upload.Submit(userId, "key", content, true));
    var scanned := Upload.Effect(t, s.files, Upload.Scanned(req));
    var reserving := Upload.Effect(t, s.files, Upload.Reserving(req));
    var reserved := Upload.Effect(t', s.files, Upload.Reserved(req, t.nextId));
    assert Exec(c, s, []) == s && Step(c, s, submit) == Requests.At(s, scanned, u);
    hide Exec, Step, Requests.At, FindByKey;
    Then(c, s, [], s, submit, Requests.At(s, scanned, u));
    Asks(c, s, [] + [submit], s, u, scanned, Upload.Find, reserving);
    Asks(c, s, [] + [submit] + [Request(u, Upload.Find)], s, u, reserving, Upload.Reserve(0.0, ""), reserved);
    Asks(c, s, [] + [submit] + [Request(u, Upload.Find)] + [Request(u, Upload.Reserve(0.0, ""))], s, u, reserved,
         Upload.ReserveRead, Upload.Effect(t', s.files, Upload.Opening(t.nextId, req.hash)));
  }

  lemma WritesObject(c: Config, s: System, run: seq<Action>, u: Thread, t: Tables, files: Upload.Files, sid: nat,
                     content: Bytes)
    requires Exec(c, s, run) == Requests.At(s, Upload.Effect(t, files, Upload.Opening(sid, c.sha(content))), u)
    ensures Exec(c, s, run + [Request(u, Upload.OpenTemp)] + [Request(u, Upload.WriteChunk(content))]
                       + [Request(u, Upload.CheckHash(true))])
         == Requests.At(s, Upload.Effect(t, files[Temp(sid, u) := content],
                                         Upload.Checked(sid, c.sha(content), content)), u)
  {
    hide Exec, Requests.At;
    var hash, f := c.sha(content), Temp(sid, u);
    assert [] + content == content;
    assert files[f := []][f := content] == files[f := content];
    var empty := Upload.Effect(t, files[f := []], Upload.Writing(sid, hash, []));
    var full := Upload.Effect(t, files[f := content], Upload.Writing(sid, hash, content));
    Asks(c, s, run, s, u, Upload.Effect(t, files, Upload.Opening(sid, hash)), Upload.OpenTemp, empty);
    Asks(c, s, run + [Request(u, Upload.OpenTemp)], s, u, empty, Upload.WriteChunk(content), full);
    Asks(c, s, run + [Request(u, Upload.OpenTemp)] + [Request(u, Upload.WriteChunk(content))], s, u, full,
         Upload.CheckHash(true), Upload.Effect(t, files[f := content], Upload.Checked(sid, hash, content)));
  }

  lemma InstallsObject(c: Config, s: System, run: seq<Action>, u: Thread, t: Tables, files: Upload.Files, sid: nat,
                       content: Bytes)
    requires Exec(c, s, run)
          == Requests.At(s, Upload.Effect(t, files[Temp(sid, u) := content],
                                          Upload.Checked(sid, c.sha(content), content)), u)
    ensures Exec(c, s, run + [Request(u, Upload.Replace)])
         == Requests.At(s, Upload.Effect(t, Stored(files, sid, u, content), Upload.Moving(sid, c.sha(content), true)),
                        u)
  {
    hide Exec, Requests.At;
    var f := Temp(sid, u);
    assert Upload.Without(files[f := content], f) == Upload.Without(files, f);
    Asks(c, s, run, s, u, Upload.Effect(t, files[f := content], Upload.Checked(sid, c.sha(content), content)),
         Upload.Replace, Upload.Effect(t, Stored(files, sid, u, content), Upload.Moving(sid, c.sha(content), true)));
  }

  lemma StoresObject(c: Config, s: System, u: Thread, userId: int, content: Bytes)
    requires FreeFor(s, u, userId)
    ensures var sid := s.tables.nextId;
      Exec(c, s, Storing(u, userId, content))
      == Requests.At(s, Upload.Effect(Reserved(c, s.tables, userId, content), Stored(s.files, sid, u, content),
                                      Upload.Moving(sid, c.sha(content), true)), u)
  {
    var sid, t, run := s.tables.nextId, Reserved(c, s.tables, userId, content), Reserving(u, userId, content);
    StoringReserves(c, s, u, userId, content);
    hide Exec, Requests.At, Reserved, FreeFor, Reserving, Stored;
    WritesObject(c, s, run, u, t, s.files, sid, content);
    InstallsObject(c, s, run + [Request(u, Upload.OpenTemp)] + [Request(u, Upload.WriteChunk(content))]
                         + [Request(u, Upload.CheckHash(true))], u, t, s.files, sid, content);
  }

  /** The last two steps of an upload whose row still waits for its object. */
  lemma MovesOn(c: Config, s: System, run: seq<Action>, b: System, u: Thread, t: Tables, files: Upload.Files, sid: nat,
                hash: string, afterPut: bool)
    requires sid in t.rows && t.rows[sid].status in {Status.Uploading, Status.Arrears}
    requires Exec(c, s, run) == Requests.At(b, Upload.Effect(t, files, Upload.Moving(sid, hash, afterPut)), u)
    ensures Exec(c, s, run + [Request(u, Upload.ReadStatus)] + [Request(u, Upload.WriteStatus(""))])
         == Requests.At(b, Upload.Effect(Submitted(t, sid, hash), files,
                                         Upload.Answered(if afterPut then Upload.Accepted else Upload.Replayed)), u)
  {
    hide Exec, Requests.At, Patched;
    var moving := Upload.Effect(t, files, Upload.Moving(sid, hash, afterPut));
    var write := Upload.Effect(t, files, Upload.MoveWrite(sid, hash, afterPut, t.rows[sid].status));
    Asks(c, s, run, b, u, moving, Upload.ReadStatus, write);
    Asks(c, s, run + [Request(u, Upload.ReadStatus)], b, u, write, Upload.WriteStatus(""),
         Upload.Effect(Submitted(t, sid, hash), files, Upload.Answered(if afterPut then Upload.Accepted
                                                                       else Upload.Replayed)));
  }

  /** A fresh upload ends with one more waiting row. */
  function Queued(c: Config, s: System, u: Thread, userId: int, content: Bytes): System {
    var sid := s.tables.nextId;
    Requests.At(s, Upload.Effect(Submitted(Reserved(c, s.tables, userId, content), sid, c.sha(content)),
                                 Stored(s.files, sid, u, content), Upload.Answered(Upload.Accepted)), u)
  }

  lemma UploadsTask(c: Config, s: System, u: Thread, userId: int, content: Bytes)
    requires FreeFor(s, u, userId)
    ensures Exec(c, s, Uploading(u, userId, content)) == Queued(c, s, u, userId, content)
  {
    StoresObject(c, s, u, userId, content);
    var sid := s.tables.nextId;
    hide Exec, Requests.At, FreeFor;
    MovesOn(c, s, Storing(u, userId, content), s, u, Reserved(c, s.tables, userId, content),
            Stored(s.files, sid, u, content), sid, c.sha(content), true);
  }

  /** The waiting row of a fresh upload. */
  ghost predicate WaitsFor(t: Tables, sid: nat, userId: int, hash: string) {
    && sid in t.rows
    && t.rows[sid].userId == userId && t.rows[sid].idemKey == "key" && t.rows[sid].fileHash == hash
    && t.rows[sid].status == Pending && t.rows[sid].generation == 0 && t.rows[sid].nextAttemptAt == 0.0
  }

  lemma QueuedWaits(c: Config, s: System, u: Thread, userId: int, content: Bytes)
    ensures var e, sid := Queued(c, s, u, userId, content), s.tables.nextId;
      && WaitsFor(e.tables, sid, userId, c.sha(content)) && e.tables.nextId == sid + 1
      && e.tables.rows.Keys == s.tables.rows.Keys + {sid}
      && (forall x :: x in s.tables.rows && x != sid ==> e.tables.rows[x] == s.tables.rows[x])
      && e.tables.accounts == s.tables.accounts && e.workers == s.workers && e.beats == s.beats
      && UploadPc(e, u) == Upload.Answered(Upload.Accepted)
  {
  }

  lemma StartIsFree(accounts: map<int, real>, u: Thread, userId: int)
    ensures FreeFor(Start(accounts), u, userId)
  {
    assert SameKey(Start(accounts).tables, userId, "key") == {};
  }

  // ----- a first claim -----

  function Claiming(w: string, run: seq<Action>, external: bool): seq<Action> {
    run + [Work(w, Worker.ClaimSelect(0.0))] + [Work(w, Worker.ClaimWrite(""))] + [Work(w, Worker.ReadBack(external))]
  }

  function HeldRow(c: Config, r: Row, w: string): Row {
    r.(status := Processing, owner := Some(w), generation := 1, leaseUntil := LeaseEnd(0.0, c.processingLease),
       nextAttemptAt := 0.0, updatedAt := "")
  }

  function Claimed(c: Config, t: Tables, sid: nat, w: string): Tables
    requires sid in t.rows
  {
    WithRow(t, sid, HeldRow(c, t.rows[sid], w))
  }

  function FirstTicket(t: Tables, sid: nat, external: bool): Worker.Ticket
    requires sid in t.rows
  {
    Worker.Ticket(sid, 1, t.rows[sid].userId, t.rows[sid].retryCount, external)
  }

  const BEAT := Beat(false, false, 0.0)

  /** The task is the next to be claimed at time zero, for the first time. */
  ghost predicate IsNext(t: Tables, sid: nat) {
    && sid in t.rows && t.rows[sid].status == Pending && t.rows[sid].generation == 0 && t.rows[sid].nextAttemptAt == 0.0
    && (forall x :: x in t.rows && t.rows[x].status == Pending ==> sid <= x)
  }

  lemma NextIsPicked(t: Tables, sid: nat)
    requires IsNext(t, sid)
    ensures NextClaim(t, 0.0) == Some(Pick(sid, true, 0))
  {
    assert sid in Waiting(t, 0.0);
    assert forall x :: x in Waiting(t, 0.0) ==> sid <= x;
  }

  lemma ClaimsNext(c: Config, s0: System, run: seq<Action>, s: System, w: string, sid: nat, external: bool)
    requires Exec(c, s0, run) == s && WorkerPc(s, w) == Worker.Idle && IsNext(s.tables, sid)
    ensures var k := FirstTicket(s.tables, sid, external);
      Exec(c, s0, Claiming(w, run, external))
      == WorkAt(s, Claimed(c, s.tables, sid, w), w, Worker.Holding(k), KeyOf(w, k), BEAT)
  {
    var t, t', pick := s.tables, Claimed(c, s.tables, sid, w), Pick(sid, true, 0);
    NextIsPicked(t, sid);
    var selected, claimed := Worker.Selected(pick, 0.0), Worker.Claimed(sid, 1, 0.0);
    var select, write := Work(w, Worker.ClaimSelect(0.0)), Work(w, Worker.ClaimWrite(""));
    hide NextClaim, Exec;
    assert Step(c, s, select) == ClaimAt(s, t, w, selected);
    hide Step;
    Then(c, s0, run, s, select, ClaimAt(s, t, w, selected));
    ClaimSteps(c, s, t, w, selected, Worker.ClaimWrite(""));
    Then(c, s0, run + [select], ClaimAt(s, t, w, selected), write, ClaimAt(s, t', w, claimed));
    ReadBackSteps(c, s, t', w, claimed, external);
    var k := FirstTicket(t, sid, external);
    Then(c, s0, run + [select] + [write], ClaimAt(s, t', w, claimed), Work(w, Worker.ReadBack(external)),
         WorkAt(s, t', w, Worker.Holding(k), KeyOf(w, k), BEAT));
  }

  /** A task whose user has no credits is claimed for an external call and parked. */
  function Parking(w: string, run: seq<Action>): seq<Action> {
    Claiming(w, run, true) + [Work(w, Worker.QuotaCheck)] + [Work(w, Worker.ArrearsCommit(0.0, ""))]
  }

  function Parked(c: Config, t: Tables, sid: nat, w: string): Tables
    requires sid in t.rows
  {
    UpdateOwned(Claimed(c, t, sid, w), sid, w, 1, Worker.ArrearsPatch("quota exhausted before the call"), 0.0, "").0
  }

  lemma ParksNext(c: Config, s0: System, run: seq<Action>, s: System, w: string, sid: nat)
    requires Exec(c, s0, run) == s && WorkerPc(s, w) == Worker.Idle && IsNext(s.tables, sid)
    requires IsArrears(s.tables, s.tables.rows[sid].userId)
    ensures Exec(c, s0, Parking(w, run))
         == WorkAt(s, Parked(c, s.tables, sid, w), w, Worker.Idle, KeyOf(w, FirstTicket(s.tables, sid, true)), BEAT)
  {
    var t1, k := Claimed(c, s.tables, sid, w), FirstTicket(s.tables, sid, true);
    hide Exec, WorkAt, UpdateOwned, Claimed, IsNext, LeaseEnd, Balance, Claiming;
    ClaimsNext(c, s0, run, s, w, sid, true);
    SameAccounts(c, s.tables, sid, w, k.userId);
    var starving := Worker.Starving(k, "quota exhausted before the call");
    var claimed := Claiming(w, run, true);
    Works(c, s0, claimed, s, t1, w, Worker.Holding(k), KeyOf(w, k), BEAT, Worker.QuotaCheck,
          Worker.Effect(t1, starving));
    Works(c, s0, claimed + [Work(w, Worker.QuotaCheck)], s, t1, w, starving, KeyOf(w, k), BEAT,
          Worker.ArrearsCommit(0.0, ""), Worker.Effect(Parked(c, s.tables, sid, w), Worker.Idle));
  }

  lemma SameAccounts(c: Config, t: Tables, sid: nat, w: string, userId: int)
    requires sid in t.rows
    ensures Balance(Claimed(c, t, sid, w), userId) == Balance(t, userId)
  {
  }

  lemma ParkedRow(c: Config, t: Tables, sid: nat, w: string)
    requires sid in t.rows
    ensures var t' := Parked(c, t, sid, w);
      && t'.rows.Keys == t.rows.Keys && t'.accounts == t.accounts && t'.nextId == t.nextId
      && t'.rows[sid].status == Arrears && t'.rows[sid].userId == t.rows[sid].userId
      && (forall x :: x in t.rows && x != sid ==> t'.rows[x] == t.rows[x])
  {
  }

  // ----- a claim that is read back too late -----

  lemma WaitsAlone(c: Config, accounts: map<int, real>, content: Bytes)
    requires Solvent(accounts)
    ensures var e := Exec(c, Start(accounts), Uploading(U, 1, content));
      Fencing.OneWaiting(c, e, 1) && e.tables.rows[1].generation == 0 && e.tables.accounts == accounts
      && e.tables.rows[1].userId == 1 && e.tables.rows.Keys == {1}
  {
    hide Inv, Exec, Queued, FreeFor, Uploading;
    StartInv(c, accounts);
    RunInv(c, Start(accounts), Uploading(U, 1, content));
    StartIsFree(accounts, U, 1);
    UploadsTask(c, Start(accounts), U, 1, content);
    QueuedWaits(c, Start(accounts), U, 1, content);
  }

  /** From the empty system: one upload, and two workers end with the same ticket; only the owner test tells the stale
      one. */
  lemma OwnerRaceHappens(c: Config, accounts: map<int, real>, content: Bytes, v: string, w: string)
    requires Solvent(accounts) && v != w
    ensures var late := LeaseEnd(0.0, c.processingLease);
      var e := Exec(c, Start(accounts), Uploading(U, 1, content) + Fencing.Race(v, w, late));
      && Fencing.Held(e, v).Some? && Fencing.Held(e, v) == Fencing.Held(e, w)
      && Fenced(e.tables, 1, w, Fencing.Held(e, w).value.generation, late)
      && !Fenced(e.tables, 1, v, Fencing.Held(e, v).value.generation, late)
  {
    hide Exec, Uploading, Fencing.Race, Fencing.OneWaiting;
    WaitsAlone(c, accounts, content);
    ExecConcat(c, Start(accounts), Uploading(U, 1, content), Fencing.Race(v, w, LeaseEnd(0.0, c.processingLease)));
    Fencing.OwnerTestIsNeeded(c, Exec(c, Start(accounts), Uploading(U, 1, content)), 1, v, w);
  }

  /** From the empty system: one upload, and the heartbeat of a given-up attempt still runs under the current owner's
      name; only the generation test keeps it out. */
  lemma StaleHeartbeatHappens(c: Config, accounts: map<int, real>, content: Bytes, w: string)
    requires Solvent(accounts)
    ensures var late := LeaseEnd(0.0, c.processingLease);
      var e := Exec(c, Start(accounts), Uploading(U, 1, content) + Fencing.Reclaim(w, late));
      && Beating(e, BeatKey(w, 1, 1))
      && Fenced(e.tables, 1, w, 2, late) && !Fenced(e.tables, 1, w, 1, late)
  {
    hide Exec, Uploading, Fencing.Reclaim, Fencing.OneWaiting;
    WaitsAlone(c, accounts, content);
    ExecConcat(c, Start(accounts), Uploading(U, 1, content), Fencing.Reclaim(w, LeaseEnd(0.0, c.processingLease)));
    Fencing.GenerationTestIsNeeded(c, Exec(c, Start(accounts), Uploading(U, 1, content)), 1, w);
  }

  // ----- an upload that finishes late -----

  /** A second request for the key, up to the point where it has found the object. */
  function Finding(u: Thread, content: Bytes, run: seq<Action>): seq<Action> {
    run + [Request(u, Upload.Submit(1, "key", content, true))] + [Request(u, Upload.Find)] + [Request(u, Upload.Probe)]
  }

  lemma FindsObject(c: Config, s0: System, run: seq<Action>, s: System, u: Thread, sid: nat, content: Bytes)
    requires Exec(c, s0, run) == s && UploadPc(s, u) == Upload.Ready
    requires FindByKey(s.tables, 1, "key") == Some(sid) && s.tables.rows[sid].status == Status.Uploading
    requires s.tables.rows[sid].fileHash == c.sha(content) && Final(sid) in s.files && s.files[Final(sid)] == content
    ensures Exec(c, s0, Finding(u, content, run))
         == Requests.At(s, Upload.Effect(s.tables, s.files, Upload.Moving(sid, c.sha(content), false)), u)
  {
    var submit := Request(u, Upload.Submit(1, "key", content, true));
    var scanned := Upload.Effect(s.tables, s.files, Upload.Scanned(Upload.Request(1, "key", c.sha(content), true)));
    var probing := Upload.Effect(s.tables, s.files, Upload.Probing(sid, c.sha(content)));
    hide Exec, FindByKey;
    assert Step(c, s, submit) == Requests.At(s, scanned, u);
    hide Step, Requests.At;
    Then(c, s0, run, s, submit, Requests.At(s, scanned, u));
    Asks(c, s0, run + [submit], s, u, scanned, Upload.Find, probing);
    Asks(c, s0, run + [submit] + [Request(u, Upload.Find)], s, u, probing, Upload.Probe,
         Upload.Effect(s.tables, s.files, Upload.Moving(sid, c.sha(content), false)));
  }

  function LastSteps(u: Thread, run: seq<Action>): seq<Action> {
    run + [Request(u, Upload.ReadStatus)] + [Request(u, Upload.WriteStatus(""))]
  }

  /** The first writer stores its object; a second request moves the row on; a worker parks the task. */
  function LateUpload(content: Bytes): seq<Action> {
    Parking("w", LastSteps(V, Finding(V, content, Storing(U, 1, content))))
  }

  lemma OnlyRow(t: Tables, sid: nat)
    requires t.rows.Keys == {sid} && t.rows[sid].userId == 1 && t.rows[sid].idemKey == "key"
    ensures FindByKey(t, 1, "key") == Some(sid)
  {
    assert sid in SameKey(t, 1, "key");
  }

  /** The state after the second request: row 1 waits, and the first writer still has its last two steps to do. */
  function Overtaken(c: Config, content: Bytes): System {
    var t := Reserved(c, Start(map[]).tables, 1, content);
    var files, hash := Stored(map[], 1, U, content), c.sha(content);
    Requests.At(Requests.At(Start(map[]), Upload.Effect(t, files, Upload.Moving(1, hash, true)), U),
                Upload.Effect(Submitted(t, 1, hash), files, Upload.Answered(Upload.Replayed)), V)
  }

  lemma Overtakes(c: Config, content: Bytes)
    ensures Exec(c, Start(map[]), LastSteps(V, Finding(V, content, Storing(U, 1, content)))) == Overtaken(c, content)
  {
    var s0 := Start(map[]);
    var t, files, hash := Reserved(c, s0.tables, 1, content), Stored(map[], 1, U, content), c.sha(content);
    var s1 := Requests.At(s0, Upload.Effect(t, files, Upload.Moving(1, hash, true)), U);
    StartIsFree(map[], U, 1);
    StoresObject(c, s0, U, 1, content);
    OnlyRow(t, 1);
    hide Exec, FindByKey, Storing;
    FindsObject(c, s0, Storing(U, 1, content), s1, V, 1, content);
    MovesOn(c, s0, Finding(V, content, Storing(U, 1, content)), s1, V, t, files, 1, hash, false);
  }

  lemma OvertakenWaits(c: Config, content: Bytes)
    ensures var s := Overtaken(c, content);
      && WorkerPc(s, "w") == Worker.Idle && IsNext(s.tables, 1) && s.tables.accounts == map[]
        && s.tables.rows.Keys == {1}
      && UploadPc(s, U) == Upload.Moving(1, c.sha(content), true) && U in s.uploads
  {
  }

  /** From the empty system, with no credits at all: an upload that finishes late puts a task that waits for credits
      back into the queue. */
  lemma LateUploadRequeues(c: Config, content: Bytes)
    ensures var s, e := Exec(c, Start(map[]), LateUpload(content)),
        Exec(c, Start(map[]), LastSteps(U, LateUpload(content)));
      && 1 in s.tables.rows && s.tables.rows[1].status == Arrears && IsArrears(s.tables, 1)
      && 1 in e.tables.rows && e.tables.rows[1].status == Pending && IsArrears(e.tables, 1)
  {
    var m := Overtaken(c, content);
    Overtakes(c, content);
    OvertakenWaits(c, content);
    hide Exec, Overtaken, IsNext, Storing, Finding;
    ParksNext(c, Start(map[]), LastSteps(V, Finding(V, content, Storing(U, 1, content))), m, "w", 1);
    ParkedRow(c, m.tables, 1, "w");
    var s := Exec(c, Start(map[]), LateUpload(content));
    hide Parked, Parking, Claiming;
    var moving := Upload.Effect(s.tables, s.files, Upload.Moving(1, c.sha(content), true));
    assert s.uploads[U := moving.pc] == s.uploads;
    assert s == Requests.At(s, moving, U);
    MovesOn(c, Start(map[]), LateUpload(content), s, U, s.tables, s.files, 1, c.sha(content), true);
  }

  // ----- a funded task behind an unfunded one -----

  function TwoUploads(content: Bytes): seq<Action> {
    Uploading(U, 1, content) + Uploading(U, 2, content)
  }

  /** Two users without credits submit; both tasks are parked; then the second user is given one. */
  function BothParked(content: Bytes): seq<Action> {
    Parking("w", Parking("w", TwoUploads(content))) + [Adjust(2, 1.0)]
  }

  ghost predicate TwoRows(t: Tables) {
    && t.rows.Keys == {1, 2} && t.rows[1].userId == 1 && t.rows[2].userId == 2 && t.accounts == map[]
  }

  lemma TwoWait(c: Config, content: Bytes)
    ensures var e := Exec(c, Start(map[]), TwoUploads(content));
      && TwoRows(e.tables) && IsNext(e.tables, 1) && e.tables.rows[2].status == Pending
        && e.tables.rows[2].generation == 0
      && e.tables.rows[2].nextAttemptAt == 0.0 && WorkerPc(e, "w") == Worker.Idle
  {
    hide Exec, Queued, Uploading;
    var s := Queued(c, Start(map[]), U, 1, content);
    StartIsFree(map[], U, 1);
    UploadsTask(c, Start(map[]), U, 1, content);
    QueuedWaits(c, Start(map[]), U, 1, content);
    assert SameKey(s.tables, 2, "key") == {};
    assert FreeFor(s, U, 2);
    hide FreeFor;
    ExecConcat(c, Start(map[]), Uploading(U, 1, content), Uploading(U, 2, content));
    UploadsTask(c, s, U, 2, content);
    QueuedWaits(c, s, U, 2, content);
  }

  lemma BothArePark(c: Config, content: Bytes)
    ensures var e := Exec(c, Start(map[]), Parking("w", Parking("w", TwoUploads(content))));
      TwoRows(e.tables) && e.tables.rows[1].status == Arrears && e.tables.rows[2].status == Arrears
      && WorkerPc(e, "w") == Worker.Idle
  {
    TwoWait(c, content);
    var s := Exec(c, Start(map[]), TwoUploads(content));
    hide Exec, TwoUploads, Parking, Parked;
    ParksNext(c, Start(map[]), TwoUploads(content), s, "w", 1);
    ParkedRow(c, s.tables, 1, "w");
    var m := Exec(c, Start(map[]), Parking("w", TwoUploads(content)));
    assert IsNext(m.tables, 2);
    ParksNext(c, Start(map[]), Parking("w", TwoUploads(content)), m, "w", 2);
    ParkedRow(c, m.tables, 2, "w");
  }

  /** From the empty system: however often the recovery then runs, the task of the second user waits, with a credit on
      the account. */
  lemma FundedTaskStarves(c: Config, content: Bytes, n: nat)
    ensures var e := Exec(c, Start(map[]), BothParked(content) + Arrears.Passes(n, "w", true, ""));
      && 2 in e.tables.rows && e.tables.rows[2].userId == 2 && e.tables.rows[2].status == Arrears
      && Balance(e.tables, 2) == COST_PER_CALL
  {
    BothArePark(c, content);
    var run := Parking("w", Parking("w", TwoUploads(content)));
    var s := Exec(c, Start(map[]), run);
    ExecLast(c, Start(map[]), run, Adjust(2, 1.0));
    var e := Step(c, s, Adjust(2, 1.0));
    hide Exec, Parking, TwoUploads, Arrears.Passes;
    assert Arrears.InArrears(e.tables, 1) && Arrears.InArrears(e.tables, 2);
    ExecConcat(c, Start(map[]), BothParked(content), Arrears.Passes(n, "w", true, ""));
    Arrears.FundedTaskCanStarve(c, e, "w", n, "", 1, 2);
  }

  // ----- half a credit -----

  const OK_RESULT := Recognize.ModelResult(true, "10.0.19045", "")

  /** The model answers, the commit is tried and the credits are looked at. */
  function Trying(w: string, run: seq<Action>): seq<Action> {
    Claiming(w, run, true) + [Work(w, Worker.QuotaCheck)] + [Work(w, Worker.CallModel(OK_RESULT))]
    + [Work(w, Worker.FinalizeRead(0.0))] + [Work(w, Worker.FinalizeCommit(""))] + [Work(w, Worker.ArrearsCheck)]
  }

  lemma TryingSticks(c: Config, s0: System, run: seq<Action>, s: System, w: string, sid: nat)
    requires Exec(c, s0, run) == s && WorkerPc(s, w) == Worker.Idle && IsNext(s.tables, sid)
    requires 0.0 < Balance(s.tables, s.tables.rows[sid].userId) < COST_PER_CALL
    ensures Exec(c, s0, Trying(w, run))
         == WorkAt(s, Claimed(c, s.tables, sid, w), w, Worker.Idle, KeyOf(w, FirstTicket(s.tables, sid, true)), BEAT)
  {
    var t, k := Claimed(c, s.tables, sid, w), FirstTicket(s.tables, sid, true);
    var key, claimed := KeyOf(w, k), Claiming(w, run, true);
    hide Exec, WorkAt, Claimed, IsNext, Claiming, FinalizeWrite, FinalizeSelect, Balance, Recognize.Verdict;
    ClaimsNext(c, s0, run, s, w, sid, true);
    SameAccounts(c, s.tables, sid, w, k.userId);
    FractionRefuses(c, s.tables, sid, w);
    Calls(c, s0, claimed, s, t, w, k, BEAT);
    Refuses(c, s0, claimed + [Work(w, Worker.QuotaCheck)] + [Work(w, Worker.CallModel(OK_RESULT))], s, t, w, k);
  }

  /** The quota check lets the call through, and the model answers. */
  lemma Calls(c: Config, s0: System, run: seq<Action>, b: System, t: Tables, w: string, k: Worker.Ticket, beat: Beat)
    requires !beat.lost && !(k.external && IsArrears(t, k.userId))
    requires Exec(c, s0, run) == WorkAt(b, t, w, Worker.Holding(k), KeyOf(w, k), beat)
    ensures Exec(c, s0, run + [Work(w, Worker.QuotaCheck)] + [Work(w, Worker.CallModel(OK_RESULT))])
         == WorkAt(b, t, w, Worker.Judged(k, OK_RESULT), KeyOf(w, k), beat)
  {
    hide Exec, WorkAt, Balance;
    Works(c, s0, run, b, t, w, Worker.Holding(k), KeyOf(w, k), beat, Worker.QuotaCheck,
          Worker.Effect(t, Worker.Calling(k)));
    Works(c, s0, run + [Work(w, Worker.QuotaCheck)], b, t, w, Worker.Calling(k), KeyOf(w, k), beat,
          Worker.CallModel(OK_RESULT), Worker.Effect(t, Worker.Judged(k, OK_RESULT)));
  }

  /** The commit is refused for want of credits, but there are some, so the thread lets go. */
  lemma Refuses(c: Config, s0: System, run: seq<Action>, b: System, t: Tables, w: string, k: Worker.Ticket)
    requires Exec(c, s0, run) == WorkAt(b, t, w, Worker.Judged(k, OK_RESULT), KeyOf(w, k), BEAT)
    requires !IsArrears(t, k.userId) && FinalizeSelect(t, k.sid, w, k.generation, 0.0) == Some(k.userId)
    requires FinalizeWrite(t, k.sid, w, k.generation, k.userId, Worker.ChargeFor(k), OK_RESULT.version,
                           Recognize.REQUIRED_VERSION, Recognize.Verdict(OK_RESULT.version), 0.0, "") == (t, false)
    ensures Exec(c, s0, run + [Work(w, Worker.FinalizeRead(0.0))] + [Work(w, Worker.FinalizeCommit(""))]
                 + [Work(w, Worker.ArrearsCheck)])
         == WorkAt(b, t, w, Worker.Idle, KeyOf(w, k), BEAT)
  {
    hide Exec, WorkAt, FinalizeWrite, FinalizeSelect, Balance, Recognize.Verdict;
    var finalizing := Worker.Finalizing(k, OK_RESULT, 0.0, k.userId);
    var key, read := KeyOf(w, k), run + [Work(w, Worker.FinalizeRead(0.0))];
    Works(c, s0, run, b, t, w, Worker.Judged(k, OK_RESULT), key, BEAT, Worker.FinalizeRead(0.0),
          Worker.Effect(t, finalizing));
    Works(c, s0, read, b, t, w, finalizing, key, BEAT, Worker.FinalizeCommit(""), Worker.Effect(t, Worker.Refused(k)));
    Works(c, s0, read + [Work(w, Worker.FinalizeCommit(""))], b, t, w, Worker.Refused(k), key, BEAT,
          Worker.ArrearsCheck, Worker.Effect(t, Worker.Idle));
  }

  lemma FractionRefuses(c: Config, t: Tables, sid: nat, w: string)
    requires sid in t.rows && 0.0 < Balance(t, t.rows[sid].userId) < COST_PER_CALL
    ensures var t', k := Claimed(c, t, sid, w), FirstTicket(t, sid, true);
      && FinalizeSelect(t', sid, w, 1, 0.0) == Some(k.userId)
      && FinalizeWrite(t', sid, w, 1, k.userId, Worker.ChargeFor(k), OK_RESULT.version, Recognize.REQUIRED_VERSION,
                       Recognize.Verdict(OK_RESULT.version), 0.0, "") == (t', false)
  {
    hide Recognize.Verdict;
  }

  /** From the empty system, with half a credit: the external call succeeds, the thread is done with the task, its
      lease is still running, and the task stays in `processing`. */
  lemma HalfACreditSticks(c: Config, content: Bytes)
    ensures var e := Exec(c, Start(map[1 := 0.5]), Trying("w", Uploading(U, 1, content)));
      && WorkerPc(e, "w") == Worker.Idle && 1 in e.tables.rows && e.tables.rows[1].status == Processing
      && Fenced(e.tables, 1, "w", 1, 0.0) && Balance(e.tables, 1) == 0.5
  {
    hide Exec, Uploading, Inv, Trying;
    var run := Uploading(U, 1, content);
    WaitsAlone(c, map[1 := 0.5], content);
    var s := Exec(c, Start(map[1 := 0.5]), run);
    assert IsNext(s.tables, 1) && WorkerPc(s, "w") == Worker.Idle;
    hide IsNext;
    TryingSticks(c, Start(map[1 := 0.5]), run, s, "w", 1);
  }

  // ----- a renewal that raises -----

  /** A worker claims for the internal backend, and the first renewal of its heartbeat raises. */
  function Doubting(content: Bytes, applied: bool): seq<Action> {
    Claiming("w", Uploading(U, 1, content), false) + [RenewError(BeatKey("w", 1, 1), 0.0, "", applied)]
  }

  const UNSURE := Beat(false, true, 0.0)

  lemma Doubts(c: Config, accounts: map<int, real>, content: Bytes, applied: bool)
    requires Solvent(accounts)
    ensures var s := Exec(c, Start(accounts), Uploading(U, 1, content));
      && IsNext(s.tables, 1) && s.tables.rows.Keys == {1}
      && s.workers == map[] && Exec(c, Start(accounts), Doubting(content, applied))
      == WorkAt(s, Claimed(c, s.tables, 1, "w"), "w", Worker.Holding(FirstTicket(s.tables, 1, false)),
                BeatKey("w", 1, 1), UNSURE)
  {
    hide Exec, Uploading, Inv, Claiming;
    var run := Uploading(U, 1, content);
    WaitsAlone(c, accounts, content);
    var s := Exec(c, Start(accounts), run);
    assert IsNext(s.tables, 1);
    hide IsNext;
    ClaimsNext(c, Start(accounts), run, s, "w", 1, false);
    var t, k, key := Claimed(c, s.tables, 1, "w"), FirstTicket(s.tables, 1, false), BeatKey("w", 1, 1);
    var m := WorkAt(s, t, "w", Worker.Holding(k), key, BEAT);
    RenewsNothing(c, s.tables);
    assert s.beats[key := BEAT][key := UNSURE] == s.beats[key := UNSURE];
    hide Renewal, Claimed;
    assert Step(c, m, RenewError(key, 0.0, "", applied)) == WorkAt(s, t, "w", Worker.Holding(k), key, UNSURE);
    Then(c, Start(accounts), Claiming("w", run, false), m, RenewError(key, 0.0, "", applied),
         WorkAt(s, t, "w", Worker.Holding(k), key, UNSURE));
  }

  lemma RenewsNothing(c: Config, t: Tables)
    requires 1 in t.rows
    ensures var t' := Claimed(c, t, 1, "w"); Renewal(c, t', BeatKey("w", 1, 1), 0.0, "").0 == t'
  {
    var t' := Claimed(c, t, 1, "w");
    assert t'.rows[1 := t'.rows[1]] == t'.rows;
  }

  /** The worker gets its answer and tries to commit it with the reading given. */
  function Committing(w: string, run: seq<Action>, now: real): seq<Action> {
    run + [Work(w, Worker.QuotaCheck)] + [Work(w, Worker.CallModel(OK_RESULT))] + [Work(w, Worker.FinalizeRead(now))]
    + [Work(w, Worker.FinalizeCommit(""))]
  }

  lemma Commits(c: Config, s0: System, run: seq<Action>, b: System, t: Tables, w: string, k: Worker.Ticket, beat: Beat,
                now: real)
    requires !beat.lost && !k.external && k.sid in t.rows && t.rows[k.sid].userId == k.userId
    requires Exec(c, s0, run) == WorkAt(b, t, w, Worker.Holding(k), KeyOf(w, k), beat)
    ensures var open := Fenced(t, k.sid, w, k.generation, now);
      var t' := FinalizeWrite(t, k.sid, w, k.generation, k.userId, 0.0, OK_RESULT.version, Recognize.REQUIRED_VERSION,
                              Recognize.Verdict(OK_RESULT.version), now, "").0;
      Exec(c, s0, Committing(w, run, now))
      == WorkAt(b, t', w, if open then Worker.Idle else Worker.Refused(k), KeyOf(w, k), beat)
  {
    hide Exec, WorkAt, Recognize.Verdict, Patched;
    var key := KeyOf(w, k);
    var open := Fenced(t, k.sid, w, k.generation, now);
    var judged := Worker.Judged(k, OK_RESULT);
    var pc := if open then Worker.Finalizing(k, OK_RESULT, now, k.userId) else Worker.Refused(k);
    var e := Worker.Step(c.processingLease, t, w, pc, false, Worker.FinalizeCommit(""));
    Calls(c, s0, run, b, t, w, k, beat);
    var called := run + [Work(w, Worker.QuotaCheck)] + [Work(w, Worker.CallModel(OK_RESULT))];
    Works(c, s0, called, b, t, w, judged, key, beat, Worker.FinalizeRead(now), Worker.Effect(t, pc));
    Works(c, s0, called + [Work(w, Worker.FinalizeRead(now))], b, t, w, pc, key, beat, Worker.FinalizeCommit(""), e);
  }

  lemma FirstCommitPasses(c: Config, t: Tables)
    requires 1 in t.rows
    ensures var t', k := Claimed(c, t, 1, "w"), FirstTicket(t, 1, false);
      var e := FinalizeWrite(t', 1, "w", 1, k.userId, 0.0, OK_RESULT.version, Recognize.REQUIRED_VERSION,
                             Recognize.Verdict(OK_RESULT.version), 0.0, "").0;
      && 1 in t'.rows && t'.rows[1].userId == k.userId && Fenced(t', 1, "w", 1, 0.0)
      && 1 in e.rows && e.rows[1].status == Done
  {
    hide Recognize.Verdict;
  }

  /** From the empty system: after a renewal that raised, whether or not it took effect, the heartbeat is uncertain,
      and the worker's commit passes the fence. */
  lemma UncertainMayPass(c: Config, accounts: map<int, real>, content: Bytes, applied: bool)
    requires Solvent(accounts)
    ensures var s := Exec(c, Start(accounts), Doubting(content, applied));
      var e := Exec(c, Start(accounts), Committing("w", Doubting(content, applied), 0.0));
      && BeatKey("w", 1, 1) in s.beats && s.beats[BeatKey("w", 1, 1)].uncertain
      && 1 in e.tables.rows && e.tables.rows[1].status == Done
  {
    hide Exec, Doubting, Uploading, Committing, IsNext;
    Doubts(c, accounts, content, applied);
    var b := Exec(c, Start(accounts), Uploading(U, 1, content));
    FirstCommitPasses(c, b.tables);
    hide Claimed, FinalizeWrite, Recognize.Verdict;
    Commits(c, Start(accounts), Doubting(content, applied), b, Claimed(c, b.tables, 1, "w"), "w",
            FirstTicket(b.tables, 1, false), UNSURE, 0.0);
  }

  /** From the empty system: after the same renewal, the lease lapses, another worker claims the task, and the first
      worker's commit fails at the fence. */
  lemma UncertainMayFail(c: Config, accounts: map<int, real>, content: Bytes, applied: bool)
    requires Solvent(accounts)
    ensures var late := LeaseEnd(0.0, c.processingLease);
      var taken := Doubting(content, applied) + [Work("v", Worker.ClaimSelect(late))]
        + [Work("v", Worker.ClaimWrite(""))];
      var s := Exec(c, Start(accounts), Doubting(content, applied));
      var e := Exec(c, Start(accounts), Committing("w", taken, late));
      && BeatKey("w", 1, 1) in s.beats && s.beats[BeatKey("w", 1, 1)].uncertain
      && WorkerPc(e, "w").Refused? && 1 in e.tables.rows && e.tables.rows[1].status == Processing
      && e.tables.rows[1].owner == Some("v") && e.tables.rows[1].generation == 2
  {
    hide Exec, Doubting, Uploading, Committing, IsNext;
    var late := LeaseEnd(0.0, c.processingLease);
    Doubts(c, accounts, content, applied);
    var b := Exec(c, Start(accounts), Uploading(U, 1, content));
    var t, k := Claimed(c, b.tables, 1, "w"), FirstTicket(b.tables, 1, false);
    var s := WorkAt(b, t, "w", Worker.Holding(k), BeatKey("w", 1, 1), UNSURE);
    var taken := Doubting(content, applied) + [Work("v", Worker.ClaimSelect(late))]
      + [Work("v", Worker.ClaimWrite(""))];
    ExecLast(c, Start(accounts), Doubting(content, applied), Work("v", Worker.ClaimSelect(late)));
    ExecLast(c, Start(accounts), Doubting(content, applied) + [Work("v", Worker.ClaimSelect(late))],
             Work("v", Worker.ClaimWrite("")));
    Fencing.ClaimsIt(c, s, "v", 1, late);
    hide Step, Recognize.Verdict;
    var m := Exec(c, Start(accounts), taken);
    assert m == WorkAt(m, m.tables, "w", Worker.Holding(k), BeatKey("w", 1, 1), UNSURE) by {
      assert m.workers["w" := Worker.Holding(k)] == m.workers && m.beats[BeatKey("w", 1, 1) := UNSURE] == m.beats;
    }
    Commits(c, Start(accounts), taken, m, m.tables, "w", k, UNSURE, late);
  }

  // ----- an attempt that works to its exit -----

  /** The steps between the claim and the commit. */
  function Working(w: string): seq<Action> {
    [Work(w, Worker.QuotaCheck)] + ([Work(w, Worker.CallModel(OK_RESULT))] + ([Work(w, Worker.FinalizeRead(0.0))] + []))
  }

  lemma WorksOnNext(c: Config, s: System, a: Action, rest: seq<Action>, w: string, k: Worker.Ticket)
    requires Fencing.Held(s, w) == Some(k) && Progress.Proceeds(s, a, w, k) && Progress.NoTopUp(s, a, w, k)
    requires Progress.WorksOn(c, Step(c, s, a), rest, w, k)
    ensures Progress.WorksOn(c, s, [a] + rest, w, k)
  {
    hide Step, Progress.Proceeds, Progress.NoTopUp;
    assert ([a] + rest)[1..] == rest;
  }

  lemma HoldsWorking(c: Config, b: System, t: Tables, w: string, pc: Worker.Pc, k: Worker.Ticket, act: Worker.Act,
                     pc': Worker.Pc, rest: seq<Action>)
    requires Worker.HasTicket(pc) && pc.t == k && !act.ReadBack? && !act.Drop?
    requires Worker.Step(c.processingLease, t, w, pc, false, act) == Worker.Effect(t, pc')
    requires Progress.Reading(pc, act).Some? ==> Fenced(t, k.sid, w, k.generation, Progress.Reading(pc, act).value)
    requires Progress.WorksOn(c, WorkAt(b, t, w, pc', KeyOf(w, k), BEAT), rest, w, k)
    ensures Progress.WorksOn(c, WorkAt(b, t, w, pc, KeyOf(w, k), BEAT), [Work(w, act)] + rest, w, k)
  {
    var s := WorkAt(b, t, w, pc, KeyOf(w, k), BEAT);
    hide Step, Worker.Step, Progress.WorksOn, Progress.Reading;
    WorkSteps(c, b, t, w, pc, KeyOf(w, k), BEAT, act);
    WorksOnNext(c, s, Work(w, act), rest, w, k);
  }

  /** From the empty system: the hypotheses of the progress theorem are met by a plain attempt, and its last step is
      the exit. */
  lemma PlainAttemptExits(c: Config, accounts: map<int, real>, content: Bytes)
    requires Solvent(accounts) && (forall u :: u in accounts ==> Whole(accounts[u]))
    ensures var s := Exec(c, Start(accounts), Claiming("w", Uploading(U, 1, content), false));
      var e := Exec(c, s, Working("w"));
      && WorkerPc(s, "w").Holding? && Progress.WorksOn(c, s, Working("w"), "w", WorkerPc(s, "w").t)
      && History.Occurs(c, e, Work("w", Worker.FinalizeCommit("")), 1, History.Exit)
  {
    hide Exec, Uploading, Inv, Working;
    WaitsAlone(c, accounts, content);
    var b := Exec(c, Start(accounts), Uploading(U, 1, content));
    assert IsNext(b.tables, 1);
    var t, k := Claimed(c, b.tables, 1, "w"), FirstTicket(b.tables, 1, false);
    ClaimsNext(c, Start(accounts), Uploading(U, 1, content), b, "w", 1, false);
    FirstCommitPasses(c, b.tables);
    hide Claiming, IsNext, Claimed;
    PlainWork(c, b, t, k);
  }

  lemma PlainWork(c: Config, b: System, t: Tables, k: Worker.Ticket)
    requires !k.external && Fenced(t, k.sid, "w", k.generation, 0.0) && t.rows[k.sid].userId == k.userId
    ensures var s := WorkAt(b, t, "w", Worker.Holding(k), KeyOf("w", k), BEAT);
      var e := Exec(c, s, Working("w"));
      && Progress.WorksOn(c, s, Working("w"), "w", k)
      && History.Occurs(c, e, Work("w", Worker.FinalizeCommit("")), k.sid, History.Exit)
  {
    var calling, judged := Worker.Calling(k), Worker.Judged(k, OK_RESULT);
    var finalizing := Worker.Finalizing(k, OK_RESULT, 0.0, k.userId);
    var read := [Work("w", Worker.FinalizeRead(0.0))] + [];
    var called := [Work("w", Worker.CallModel(OK_RESULT))] + read;
    var last := WorkAt(b, t, "w", finalizing, KeyOf("w", k), BEAT);
    assert Progress.WorksOn(c, last, [], "w", k);
    hide Exec, WorkAt, Progress.WorksOn;
    HoldsWorking(c, b, t, "w", judged, k, Worker.FinalizeRead(0.0), finalizing, []);
    HoldsWorking(c, b, t, "w", calling, k, Worker.CallModel(OK_RESULT), judged, read);
    HoldsWorking(c, b, t, "w", Worker.Holding(k), k, Worker.QuotaCheck, calling, called);
    var s := WorkAt(b, t, "w", Worker.Holding(k), KeyOf("w", k), BEAT);
    PlainRun(c, b, t, k);
    FinishesHere(c, b, t, k);
  }

  lemma PlainRun(c: Config, b: System, t: Tables, k: Worker.Ticket)
    requires !k.external && Fenced(t, k.sid, "w", k.generation, 0.0) && t.rows[k.sid].userId == k.userId
    ensures Exec(c, WorkAt(b, t, "w", Worker.Holding(k), KeyOf("w", k), BEAT), Working("w"))
         == WorkAt(b, t, "w", Worker.Finalizing(k, OK_RESULT, 0.0, k.userId), KeyOf("w", k), BEAT)
  {
    var s := WorkAt(b, t, "w", Worker.Holding(k), KeyOf("w", k), BEAT);
    assert Exec(c, s, []) == s;
    hide Exec, WorkAt;
    Calls(c, s, [], b, t, "w", k, BEAT);
    var called := [] + [Work("w", Worker.QuotaCheck)] + [Work("w", Worker.CallModel(OK_RESULT))];
    Works(c, s, called, b, t, "w", Worker.Judged(k, OK_RESULT), KeyOf("w", k), BEAT, Worker.FinalizeRead(0.0),
          Worker.Effect(t, Worker.Finalizing(k, OK_RESULT, 0.0, k.userId)));
    assert Working("w") == called + [Work("w", Worker.FinalizeRead(0.0))];
  }

  lemma FinishesHere(c: Config, b: System, t: Tables, k: Worker.Ticket)
    requires !k.external && Fenced(t, k.sid, "w", k.generation, 0.0)
    ensures var e := WorkAt(b, t, "w", Worker.Finalizing(k, OK_RESULT, 0.0, k.userId), KeyOf("w", k), BEAT);
      History.Occurs(c, e, Work("w", Worker.FinalizeCommit("")), k.sid, History.Exit)
  {
    hide Step, Recognize.Verdict;
    WorkSteps(c, b, t, "w", Worker.Finalizing(k, OK_RESULT, 0.0, k.userId), KeyOf("w", k), BEAT,
              Worker.FinalizeCommit(""));
  }
}
