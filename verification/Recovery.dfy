/** The object directory over whole runs, and the recovery of an interrupted upload. */
module Recovery {
  import opened Common
  import opened ObjectNames
  import opened Tasks
  import opened TaskDb
  import opened Evolution
  import opened Protocol
  import Worker
  import Upload

  // ----- object before task -----

  /** In every reachable state a submitted row has its complete object under its stable key, with the fingerprint
      the request was reserved under. No lease and no mutual exclusion between writers is used. */
  lemma ObjectBeforeTask(c: Config, accounts: map<int, real>, run: seq<Action>, sid: nat)
    requires Solvent(accounts)
    requires var s := Exec(c, Start(accounts), run);
      sid in s.tables.rows && s.tables.rows[sid].status in {Pending, Processing, Done, Dlq, Arrears}
    ensures var s := Exec(c, Start(accounts), run);
      Final(sid) in s.files && c.sha(s.files[Final(sid)]) == s.tables.rows[sid].fileHash
  {
    StartInv(c, accounts);
    RunInv(c, Start(accounts), run);
  }

  /** Once installed, an object stays installed under the same hash for the rest of every run, and so does the
      fingerprint of its row. */
  lemma {:induction false} ObjectIsFinal(c: Config, s: System, run: seq<Action>, sid: nat)
    requires Inv(c, s) && Final(sid) in s.files
    ensures var e := Exec(c, s, run);
      && sid in s.tables.rows && sid in e.tables.rows
      && e.tables.rows[sid].fileHash == s.tables.rows[sid].fileHash
      && Final(sid) in e.files && c.sha(e.files[Final(sid)]) == c.sha(s.files[Final(sid)])
    decreases |run|
  {
    if run != [] {
      StepInv(c, s, run[0]);
      hide TablesOk, Worker.PcOk, Upload.PcOk, BeatOk, Step;
      ObjectIsFinal(c, Step(c, s, run[0]), run[1..], sid);
    }
  }

  /** Two answers the code is prepared to give are never given: "the stored object conflicts with the fingerprint"
      and "the upload finished but the status cannot advance". */
  lemma DefensiveBranchesUnreachable(c: Config, accounts: map<int, real>, run: seq<Action>, u: Thread)
    requires Solvent(accounts)
    ensures var pc := UploadPc(Exec(c, Start(accounts), run), u);
      !pc.CannotAdvance? && pc != Upload.Answered(Upload.ObjectConflict)
  {
    StartInv(c, accounts);
    RunInv(c, Start(accounts), run);
    UploadReadyOk(c, Exec(c, Start(accounts), run), u);
  }

  // ----- recovery -----

  function Joined(chunks: seq<Bytes>): Bytes {
    if chunks == [] then [] else chunks[0] + Joined(chunks[1..])
  }

  function Writes(u: Thread, chunks: seq<Bytes>): seq<Action> {
    if chunks == [] then [] else [Request(u, Upload.WriteChunk(chunks[0]))] + Writes(u, chunks[1..])
  }

  function Then(u: Thread, act: Upload.Act, rest: seq<Action>): seq<Action> {
    [Request(u, act)] + rest
  }

  function Closing(u: Thread, stamp: string): seq<Action> {
    Then(u, Upload.CheckHash(true), Then(u, Upload.Replace, Then(u, Upload.ReadStatus,
      Then(u, Upload.WriteStatus(stamp), []))))
  }

  /** The steps of a write whose file name is not allowed: it is refused before a temporary file is opened. */
  function GivingUp(u: Thread, stamp: string): seq<Action> {
    Then(u, Upload.ReadStatus, Then(u, Upload.WriteStatus(stamp),
                                    Then(u, Upload.Fail(false), Then(u, Upload.Abort(stamp), []))))
  }

  function Writing(u: Thread, allowed: bool, chunks: seq<Bytes>, stamp: string): seq<Action> {
    if allowed then Then(u, Upload.OpenTemp, Writes(u, chunks) + Closing(u, stamp)) else GivingUp(u, stamp)
  }

  /** The uninterrupted second attempt of a client: the same request again, under a file name that is allowed or not,
      written in any chunks. Steps that do not apply on a given path do nothing. */
  function Retry(u: Thread, userId: int, key: string, content: Bytes, valid: bool, allowed: bool, chunks: seq<Bytes>,
                 now: real, stamp: string): seq<Action>
  {
    Then(u, Upload.Submit(userId, key, content, valid), Then(u, Upload.Find, Then(u, Upload.Probe,
      Then(u, Upload.TakeLease(now, stamp), Writing(u, allowed, chunks, stamp)))))
  }

  /** `s` with the thread `u` at `pc`. */
  function At(s: System, u: Thread, pc: Upload.Pc): System {
    s.(uploads := s.uploads[u := pc])
  }

  function AtWith(s: System, u: Thread, pc: Upload.Pc, files: Upload.Files): System {
    s.(uploads := s.uploads[u := pc], files := files)
  }

  /** One step of the thread, when the step is known. */
  lemma Moves(c: Config, s: System, u: Thread, act: Upload.Act, pc: Upload.Pc, e: Upload.Effect)
    requires e == Upload.Step(c, s.tables, s.files, u, pc, act)
    ensures Step(c, At(s, u, pc), Request(u, act)) == At(s.(tables := e.tables, files := e.files), u, e.pc)
  {
    hide Upload.Step;
    assert s.uploads[u := pc][u := e.pc] == s.uploads[u := e.pc];
  }

  /** Writing the chunks appends their concatenation to the temporary file and to what the thread has hashed. */
  lemma {:induction false} WritesAppend(c: Config, s: System, u: Thread, sid: nat, hash: string, written: Bytes,
                                        chunks: seq<Bytes>)
    requires Temp(sid, u) in s.files && s.files[Temp(sid, u)] == written
    ensures var all := written + Joined(chunks);
      Exec(c, At(s, u, Upload.Writing(sid, hash, written)), Writes(u, chunks))
      == AtWith(s, u, Upload.Writing(sid, hash, all), s.files[Temp(sid, u) := all])
    decreases |chunks|
  {
    var f := Temp(sid, u);
    if chunks == [] {
      assert written + Joined(chunks) == written;
      assert s.files[f := written] == s.files;
    } else {
      var run := Writes(u, chunks);
      var act := Upload.WriteChunk(chunks[0]);
      var pc := Upload.Writing(sid, hash, written);
      var now := written + chunks[0];
      var s' := s.(files := s.files[f := now]);
      Moves(c, s, u, act, pc, Upload.Effect(s.tables, s'.files, Upload.Writing(sid, hash, now)));
      assert run[0] == Request(u, act) && run[1..] == Writes(u, chunks[1..]);
      WritesAppend(c, s', u, sid, hash, now, chunks[1..]);
      assert now + Joined(chunks[1..]) == written + Joined(chunks);
      assert s'.files[f := now + Joined(chunks[1..])] == s.files[f := now + Joined(chunks[1..])];
    }
  }

  /** A thread that has nothing to write skips the writing steps. */
  predicate SkipsWrites(pc: Upload.Pc) {
    pc.Moving? || pc.Answered?
  }

  lemma {:induction false} WritesSkipped(c: Config, s: System, u: Thread, pc: Upload.Pc, chunks: seq<Bytes>)
    requires SkipsWrites(pc)
    ensures Exec(c, At(s, u, pc), Writes(u, chunks)) == At(s, u, pc)
    decreases |chunks|
  {
    if chunks != [] {
      Moves(c, s, u, Upload.WriteChunk(chunks[0]), pc, Upload.Effect(s.tables, s.files, pc));
      assert s.(tables := s.tables, files := s.files) == s;
      assert Writes(u, chunks)[1..] == Writes(u, chunks[1..]);
      WritesSkipped(c, s, u, pc, chunks[1..]);
    }
  }

  lemma Goes(c: Config, s: System, u: Thread, act: Upload.Act, pc: Upload.Pc, e: Upload.Effect, rest: seq<Action>)
    requires e == Upload.Step(c, s.tables, s.files, u, pc, act)
    ensures Exec(c, At(s, u, pc), Then(u, act, rest))
         == Exec(c, At(s.(tables := e.tables, files := e.files), u, e.pc), rest)
  {
    Moves(c, s, u, act, pc, e);
    assert Then(u, act, rest)[1..] == rest;
  }

  /** A step that only moves the program counter. */
  lemma Reads(c: Config, s: System, u: Thread, act: Upload.Act, pc: Upload.Pc, pc': Upload.Pc, rest: seq<Action>)
    requires Upload.Step(c, s.tables, s.files, u, pc, act) == Upload.Effect(s.tables, s.files, pc')
    ensures Exec(c, At(s, u, pc), Then(u, act, rest)) == Exec(c, At(s, u, pc'), rest)
  {
    Goes(c, s, u, act, pc, Upload.Effect(s.tables, s.files, pc'), rest);
    assert s.(tables := s.tables, files := s.files) == s;
  }

  /** From the point where its object is known to be in place, the submission moves to `pending`. */
  lemma SubmitsStored(c: Config, s: System, u: Thread, sid: nat, hash: string, afterPut: bool, stamp: string)
    requires InStatus(s, sid, Uploading)
    ensures InStatus(Exec(c, At(s, u, Upload.Moving(sid, hash, afterPut)),
                          Then(u, Upload.ReadStatus, Then(u, Upload.WriteStatus(stamp), []))), sid, Pending)
  {
    MovesOn(c, s, u, sid, hash, afterPut, stamp);
  }

  /** What the last two steps of an upload do to the row. An upload that comes late, when another one has finished and
      the task has meanwhile run out of credits, puts the task back into the queue without looking at the credits; in
      every other status of a finished upload it changes nothing. */
  lemma MovesOn(c: Config, s: System, u: Thread, sid: nat, hash: string, afterPut: bool, stamp: string)
    requires sid in s.tables.rows
    ensures var t' := Exec(c, At(s, u, Upload.Moving(sid, hash, afterPut)),
                           Then(u, Upload.ReadStatus, Then(u, Upload.WriteStatus(stamp), []))).tables;
      && sid in t'.rows
      && (if s.tables.rows[sid].status in {Uploading, Arrears} then t'.rows[sid].status == Pending else t' == s.tables)
  {
    hide Exec, Upload.Step;
    var from := s.tables.rows[sid].status;
    var write := Then(u, Upload.WriteStatus(stamp), []);
    var pc := AfterRead(sid, hash, afterPut, from);
    StatusSteps(c, s.tables, s.files, u, sid, hash, afterPut, stamp);
    Reads(c, s, u, Upload.ReadStatus, Upload.Moving(sid, hash, afterPut), pc, write);
    var e := Upload.Step(c, s.tables, s.files, u, pc, Upload.WriteStatus(stamp));
    Goes(c, s, u, Upload.WriteStatus(stamp), pc, e, []);
    NoActions(c, At(s.(tables := e.tables, files := e.files), u, e.pc));
  }

  function AfterRead(sid: nat, hash: string, afterPut: bool, from: Status): Upload.Pc {
    if MayMove(from, Pending) then Upload.MoveWrite(sid, hash, afterPut, from)
    else if afterPut then Upload.Confirming(sid, hash)
    else Upload.Answered(Upload.Replayed)
  }

  lemma StatusSteps(c: Config, t: Tables, files: Upload.Files, u: Thread, sid: nat, hash: string, afterPut: bool,
                    stamp: string)
    requires sid in t.rows
    ensures var from := t.rows[sid].status;
      var pc := AfterRead(sid, hash, afterPut, from);
      && Upload.Step(c, t, files, u, Upload.Moving(sid, hash, afterPut), Upload.ReadStatus)
        == Upload.Effect(t, files, pc)
      && var t' := Upload.Step(c, t, files, u, pc, Upload.WriteStatus(stamp)).tables;
      && sid in t'.rows && (if from in {Uploading, Arrears} then t'.rows[sid].status == Pending else t' == t)
  {
  }

  predicate InStatus(s: System, sid: nat, st: Status) {
    sid in s.tables.rows && s.tables.rows[sid].status == st
  }

  /** When the object is already there, the second attempt only moves the status. */
  lemma RecoversStored(c: Config, s: System, u: Thread, sid: nat, hash: string, chunks: seq<Bytes>, now: real,
                       stamp: string)
    requires InStatus(s, sid, Uploading)
    ensures InStatus(Exec(c, At(s, u, Upload.Moving(sid, hash, false)),
                          Then(u, Upload.TakeLease(now, stamp), Then(u, Upload.OpenTemp,
                            Writes(u, chunks) + Closing(u, stamp)))), sid, Pending)
  {
    hide InStatus, Exec;
    var pc := Upload.Moving(sid, hash, false);
    Reads(c, s, u, Upload.TakeLease(now, stamp), pc, pc, Then(u, Upload.OpenTemp,
                                                              Writes(u, chunks) + Closing(u, stamp)));
    Reads(c, s, u, Upload.OpenTemp, pc, pc, Writes(u, chunks) + Closing(u, stamp));
    ExecConcat(c, At(s, u, pc), Writes(u, chunks), Closing(u, stamp));
    WritesSkipped(c, s, u, pc, chunks);
    var tail := Then(u, Upload.ReadStatus, Then(u, Upload.WriteStatus(stamp), []));
    Reads(c, s, u, Upload.CheckHash(true), pc, pc, Then(u, Upload.Replace, tail));
    Reads(c, s, u, Upload.Replace, pc, pc, tail);
    SubmitsStored(c, s, u, sid, hash, false, stamp);
  }

  /** A fully written temporary file with the right hash becomes the object, and the status moves. */
  lemma CloseInstalls(c: Config, s: System, u: Thread, sid: nat, all: Bytes, stamp: string)
    requires InStatus(s, sid, Uploading) && Temp(sid, u) in s.files && s.files[Temp(sid, u)] == all
    ensures InStatus(Exec(c, At(s, u, Upload.Writing(sid, c.sha(all), all)), Closing(u, stamp)), sid, Pending)
  {
    var hash := c.sha(all);
    var f := Temp(sid, u);
    var s2 := s.(files := Upload.Without(s.files, f)[Final(sid) := all]);
    var tail := Then(u, Upload.ReadStatus, Then(u, Upload.WriteStatus(stamp), []));
    SubmitsStored(c, s2, u, sid, hash, true, stamp);
    hide InStatus, Exec;
    Reads(c, s, u, Upload.CheckHash(true), Upload.Writing(sid, hash, all), Upload.Checked(sid, hash, all),
          Then(u, Upload.Replace, tail));
    Goes(c, s, u, Upload.Replace, Upload.Checked(sid, hash, all),
         Upload.Effect(s.tables, s2.files, Upload.Moving(sid, hash, true)), tail);
  }

  lemma SameStatus(s: System, s': System, sid: nat)
    requires InStatus(s, sid, Uploading) && s'.tables == s.tables
    ensures InStatus(s', sid, Uploading)
  {
  }

  /** When the lease could be taken, the second attempt writes the object again and moves the status. */
  lemma RecoversByWriting(c: Config, s: System, u: Thread, sid: nat, hash: string, chunks: seq<Bytes>, stamp: string)
    requires InStatus(s, sid, Uploading) && c.sha(Joined(chunks)) == hash
    ensures InStatus(Exec(c, At(s, u, Upload.Opening(sid, hash)),
                          Then(u, Upload.OpenTemp, Writes(u, chunks) + Closing(u, stamp))), sid, Pending)
  {
    hide InStatus, Exec, Closing, Joined, Writes, Then;
    var f := Temp(sid, u);
    var s0 := s.(files := s.files[f := []]);
    var all := Joined(chunks);
    var s1 := s.(files := s.files[f := all]);
    SameStatus(s, s1, sid);
    CloseInstalls(c, s1, u, sid, all, stamp);
    Goes(c, s, u, Upload.OpenTemp, Upload.Opening(sid, hash),
         Upload.Effect(s.tables, s0.files, Upload.Writing(sid, hash, [])), Writes(u, chunks) + Closing(u, stamp));
    ExecConcat(c, At(s0, u, Upload.Writing(sid, hash, [])), Writes(u, chunks), Closing(u, stamp));
    WritesAppend(c, s0, u, sid, hash, [], chunks);
    assert [] + all == all && s0.files[f := all] == s1.files;
  }

  lemma NoActions(c: Config, s: System)
    ensures Exec(c, s, []) == s
  {
  }

  /** Otherwise the second attempt is answered with a replay and leaves the row as it is. */
  lemma WaitsForLease(c: Config, s: System, u: Thread, chunks: seq<Bytes>, stamp: string)
    ensures Exec(c, At(s, u, Upload.Answered(Upload.Replayed)),
                 Then(u, Upload.OpenTemp, Writes(u, chunks) + Closing(u, stamp)))
         == At(s, u, Upload.Answered(Upload.Replayed))
  {
    hide Exec;
    var pc := Upload.Answered(Upload.Replayed);
    Reads(c, s, u, Upload.OpenTemp, pc, pc, Writes(u, chunks) + Closing(u, stamp));
    ExecConcat(c, At(s, u, pc), Writes(u, chunks), Closing(u, stamp));
    WritesSkipped(c, s, u, pc, chunks);
    var t1 := Then(u, Upload.WriteStatus(stamp), []);
    var t2 := Then(u, Upload.ReadStatus, t1);
    Reads(c, s, u, Upload.CheckHash(true), pc, pc, Then(u, Upload.Replace, t2));
    Reads(c, s, u, Upload.Replace, pc, pc, t2);
    Reads(c, s, u, Upload.ReadStatus, pc, pc, t1);
    Reads(c, s, u, Upload.WriteStatus(stamp), pc, pc, []);
    NoActions(c, At(s, u, pc));
  }

  /** Giving up on an upload whose object is in place still moves it on. */
  lemma GivesUpStored(c: Config, s: System, u: Thread, sid: nat, hash: string, stamp: string)
    requires InStatus(s, sid, Uploading)
    ensures InStatus(Exec(c, At(s, u, Upload.Moving(sid, hash, false)), GivingUp(u, stamp)), sid, Pending)
  {
    hide Exec, Upload.Step;
    var tail := Then(u, Upload.Fail(false), Then(u, Upload.Abort(stamp), []));
    var pc := Upload.MoveWrite(sid, hash, false, Uploading);
    StatusSteps(c, s.tables, s.files, u, sid, hash, false, stamp);
    Reads(c, s, u, Upload.ReadStatus, Upload.Moving(sid, hash, false), pc, Then(u, Upload.WriteStatus(stamp), tail));
    var e := Upload.Step(c, s.tables, s.files, u, pc, Upload.WriteStatus(stamp));
    Goes(c, s, u, Upload.WriteStatus(stamp), pc, e, tail);
    LastReply(c, s.tables, s.files, u, pc, stamp);
    AnsweredStops(c, s.(tables := e.tables, files := e.files), u, Upload.Replayed, stamp);
  }

  lemma LastReply(c: Config, t: Tables, files: Upload.Files, u: Thread, pc: Upload.Pc, stamp: string)
    requires pc.MoveWrite? && !pc.afterPut
    ensures Upload.Step(c, t, files, u, pc, Upload.WriteStatus(stamp)).pc == Upload.Answered(Upload.Replayed)
  {
  }

  /** Giving up before the write leaves the row `uploading`. */
  lemma GivesUpWrite(c: Config, s: System, u: Thread, sid: nat, hash: string, stamp: string)
    requires InStatus(s, sid, Uploading)
    ensures InStatus(Exec(c, At(s, u, Upload.Opening(sid, hash)), GivingUp(u, stamp)), sid, Uploading)
  {
    hide Exec, InStatus;
    var pc := Upload.Opening(sid, hash);
    var tail := Then(u, Upload.Fail(false), Then(u, Upload.Abort(stamp), []));
    Reads(c, s, u, Upload.ReadStatus, pc, pc, Then(u, Upload.WriteStatus(stamp), tail));
    Reads(c, s, u, Upload.WriteStatus(stamp), pc, pc, tail);
    Reads(c, s, u, Upload.Fail(false), pc, Upload.Aborting(sid), Then(u, Upload.Abort(stamp), []));
    Aborts(c, s, u, sid, stamp);
  }

  lemma GivesUpWaiting(c: Config, s: System, u: Thread, stamp: string)
    ensures var pc := Upload.Answered(Upload.Replayed);
      Exec(c, At(s, u, pc), GivingUp(u, stamp)) == At(s, u, pc)
  {
    hide Exec;
    var pc := Upload.Answered(Upload.Replayed);
    var tail := Then(u, Upload.Fail(false), Then(u, Upload.Abort(stamp), []));
    Reads(c, s, u, Upload.ReadStatus, pc, pc, Then(u, Upload.WriteStatus(stamp), tail));
    Reads(c, s, u, Upload.WriteStatus(stamp), pc, pc, tail);
    AnsweredStops(c, s, u, Upload.Replayed, stamp);
  }

  lemma AnsweredStops(c: Config, s: System, u: Thread, reply: Upload.Reply, stamp: string)
    ensures var pc := Upload.Answered(reply);
      Exec(c, At(s, u, pc), Then(u, Upload.Fail(false), Then(u, Upload.Abort(stamp), []))) == At(s, u, pc)
  {
    hide Exec;
    var pc := Upload.Answered(reply);
    Reads(c, s, u, Upload.Fail(false), pc, pc, Then(u, Upload.Abort(stamp), []));
    Reads(c, s, u, Upload.Abort(stamp), pc, pc, []);
    NoActions(c, At(s, u, pc));
  }

  lemma Aborts(c: Config, s: System, u: Thread, sid: nat, stamp: string)
    requires InStatus(s, sid, Uploading)
    ensures InStatus(Exec(c, At(s, u, Upload.Aborting(sid)), Then(u, Upload.Abort(stamp), [])), sid, Uploading)
  {
    var e := Upload.Step(c, s.tables, s.files, u, Upload.Aborting(sid), Upload.Abort(stamp));
    Goes(c, s, u, Upload.Abort(stamp), Upload.Aborting(sid), e, []);
  }

  /** An unfinished upload is recovered by one uninterrupted repetition of the request, in whatever chunks it is
      written: exactly when its object is already in place, or its lease has lapsed and the file name is allowed. */
  lemma UploadRecovers(c: Config, accounts: map<int, real>, run: seq<Action>, u: Thread, sid: nat, content: Bytes,
                       valid: bool, allowed: bool, chunks: seq<Bytes>, now: real, stamp: string)
    requires Solvent(accounts)
    requires var s := Exec(c, Start(accounts), run);
      && InStatus(s, sid, Uploading) && s.tables.rows[sid].fileHash == c.sha(content)
      && (UploadPc(s, u) == Upload.Ready || UploadPc(s, u).Answered?)
    requires Joined(chunks) == content
    ensures var s := Exec(c, Start(accounts), run);
      var r := s.tables.rows[sid];
      InStatus(Exec(c, s, Retry(u, r.userId, r.idemKey, content, valid, allowed, chunks, now, stamp)), sid, Pending)
      <==> Final(sid) in s.files || (r.uploadLeaseUntil <= now && allowed)
  {
    StartInv(c, accounts);
    RunInv(c, Start(accounts), run);
    RecoversFrom(c, Exec(c, Start(accounts), run), u, sid, content, valid, allowed, chunks, now, stamp);
  }

  /** What the exception handler of an unfinished upload does: the row stays where it was with a lease that ended at
      zero, the directory is untouched, and the thread is free again. */
  lemma AbortGivesUp(c: Config, s: System, u: Thread, sid: nat, stamp: string)
    requires InStatus(s, sid, Uploading) && UploadPc(s, u) == Upload.Aborting(sid)
    ensures var e, r := Step(c, s, Request(u, Upload.Abort(stamp))), s.tables.rows[sid];
      && e.tables == WithRow(s.tables, sid, r.(uploadLeaseUntil := 0.0, updatedAt := stamp,
                                               resultMsg := Some("object write incomplete")))
      && e.files == s.files && UploadPc(e, u).Answered?
      && forall v :: v != u ==> UploadPc(e, v) == UploadPc(s, v)
  {
  }

  /** Ways in which a write does not reach its end: an exception at any point from the opening of the temporary file
      to the last look at the row, a content with another hash, or a temporary file that has been collected. */
  predicate Breaks(c: Config, files: Upload.Files, u: Thread, pc: Upload.Pc, act: Upload.Act) {
    match pc
    case Opening(_, _) => act.Fail?
    case Writing(_, hash, written) => act.Fail? || (act.CheckHash? && c.sha(written) != hash)
    case Checked(sid, _, _) => act.Fail? || (act.Replace? && Temp(sid, u) !in files)
    case Moving(_, _, afterPut) => act.Fail? && afterPut
    case MoveWrite(_, _, afterPut, _) => act.Fail? && afterPut
    case Confirming(_, _) => act.Fail?
    case _ => false
  }

  /** All of them lead to the handler that gives the upload up, with the row and the final objects as they were. */
  lemma BreaksAbort(c: Config, s: System, u: Thread, act: Upload.Act)
    requires Breaks(c, s.files, u, UploadPc(s, u), act)
    ensures var e := Step(c, s, Request(u, act));
      && UploadPc(e, u) == Upload.Aborting(UploadPc(s, u).sid) && e.tables == s.tables
      && forall sid :: (Final(sid) in e.files <==> Final(sid) in s.files)
                       && (Final(sid) in s.files ==> e.files[Final(sid)] == s.files[Final(sid)])
  {
  }

  /** A failed write costs the client no waiting. In any run, once the handler of a failed upload has given up, one
      uninterrupted repetition under an allowed name reaches `pending` whatever the clock says from zero on, by the
      same thread or by another that is free. */
  lemma AbortThenRetry(c: Config, accounts: map<int, real>, run: seq<Action>, failed: Thread, u: Thread, sid: nat,
                       content: Bytes, valid: bool, chunks: seq<Bytes>, now: real, stamp: string)
    requires Solvent(accounts)
    requires var s := Exec(c, Start(accounts), run);
      && InStatus(s, sid, Uploading) && s.tables.rows[sid].fileHash == c.sha(content)
      && UploadPc(s, failed) == Upload.Aborting(sid)
      && (u == failed || UploadPc(s, u) == Upload.Ready || UploadPc(s, u).Answered?)
    requires Joined(chunks) == content && now >= 0.0
    ensures var s := Exec(c, Start(accounts), run + [Request(failed, Upload.Abort(stamp))]);
      && InStatus(s, sid, Uploading) && s.tables.rows[sid].uploadLeaseUntil == 0.0
      && var r := s.tables.rows[sid];
      InStatus(Exec(c, s, Retry(u, r.userId, r.idemKey, content, valid, true, chunks, now, stamp)), sid, Pending)
  {
    hide Retry, Joined, Step;
    var s, abort := Exec(c, Start(accounts), run), Request(failed, Upload.Abort(stamp));
    ExecConcat(c, Start(accounts), run, [abort]);
    assert Exec(c, s, [abort]) == Exec(c, Step(c, s, abort), []);
    AbortGivesUp(c, s, failed, sid, stamp);
    UploadRecovers(c, accounts, run + [abort], u, sid, content, valid, true, chunks, now, stamp);
  }

  lemma FindsRow(c: Config, s: System, sid: nat)
    requires Inv(c, s) && sid in s.tables.rows
    ensures FindByKey(s.tables, s.tables.rows[sid].userId, s.tables.rows[sid].idemKey) == Some(sid)
  {
    var r := s.tables.rows[sid];
    assert sid in SameKey(s.tables, r.userId, r.idemKey);
    var found := FindByKey(s.tables, r.userId, r.idemKey).value;
    assert SameRequest(s.tables.rows[found], r);
  }

  lemma RecoversFrom(c: Config, s: System, u: Thread, sid: nat, content: Bytes, valid: bool, allowed: bool,
                     chunks: seq<Bytes>, now: real, stamp: string)
    requires Inv(c, s) && InStatus(s, sid, Uploading) && s.tables.rows[sid].fileHash == c.sha(content)
    requires UploadPc(s, u) == Upload.Ready || UploadPc(s, u).Answered?
    requires Joined(chunks) == content
    ensures var r := s.tables.rows[sid];
      InStatus(Exec(c, s, Retry(u, r.userId, r.idemKey, content, valid, allowed, chunks, now, stamp)), sid, Pending)
      <==> Final(sid) in s.files || (r.uploadLeaseUntil <= now && allowed)
  {
    var r := s.tables.rows[sid];
    var hash := c.sha(content);
    var write := Writing(u, allowed, chunks, stamp);
    var lease := Then(u, Upload.TakeLease(now, stamp), write);
    FindsRow(c, s, sid);
    assert Final(sid) in s.files ==> c.sha(s.files[Final(sid)]) == hash;
    hide Inv, Exec, Closing, Writes, Then, FindByKey, Joined, GivingUp, Writing;
    Arrives(c, s, u, sid, content, valid, lease);
    Probes(c, s, u, sid, hash, lease);
    if Final(sid) in s.files {
      StoredDecides(c, s, u, sid, hash, allowed, chunks, now, stamp);
    } else {
      LeaseDecides(c, s, u, sid, hash, allowed, chunks, now, stamp);
    }
  }

  lemma Probes(c: Config, s: System, u: Thread, sid: nat, hash: string, rest: seq<Action>)
    requires Final(sid) in s.files ==> c.sha(s.files[Final(sid)]) == hash
    ensures Exec(c, At(s, u, Upload.Probing(sid, hash)), Then(u, Upload.Probe, rest))
         == Exec(c, At(s, u, if Final(sid) in s.files then Upload.Moving(sid, hash, false)
                       else Upload.Leasing(sid, hash)), rest)
  {
    hide Exec, Then;
    Reads(c, s, u, Upload.Probe, Upload.Probing(sid, hash),
          if Final(sid) in s.files then Upload.Moving(sid, hash, false) else Upload.Leasing(sid, hash), rest);
  }

  lemma StoredDecides(c: Config, s: System, u: Thread, sid: nat, hash: string, allowed: bool, chunks: seq<Bytes>,
                      now: real, stamp: string)
    requires InStatus(s, sid, Uploading)
    ensures InStatus(Exec(c, At(s, u, Upload.Moving(sid, hash, false)), Then(u, Upload.TakeLease(now, stamp),
                Writing(u, allowed, chunks, stamp))), sid, Pending)
  {
    hide Exec, InStatus, Closing, Writes, GivingUp;
    if allowed {
      RecoversStored(c, s, u, sid, hash, chunks, now, stamp);
    } else {
      var pc := Upload.Moving(sid, hash, false);
      Reads(c, s, u, Upload.TakeLease(now, stamp), pc, pc, GivingUp(u, stamp));
      GivesUpStored(c, s, u, sid, hash, stamp);
    }
  }

  lemma LeaseDecides(c: Config, s: System, u: Thread, sid: nat, hash: string, allowed: bool, chunks: seq<Bytes>,
                     now: real, stamp: string)
    requires InStatus(s, sid, Uploading) && s.tables.rows[sid].fileHash == hash && c.sha(Joined(chunks)) == hash
    ensures InStatus(Exec(c, At(s, u, Upload.Leasing(sid, hash)), Then(u, Upload.TakeLease(now, stamp),
                Writing(u, allowed, chunks, stamp))), sid, Pending)
      <==> s.tables.rows[sid].uploadLeaseUntil <= now && allowed
  {
    var write := Writing(u, allowed, chunks, stamp);
    var e := Upload.Step(c, s.tables, s.files, u, Upload.Leasing(sid, hash), Upload.TakeLease(now, stamp));
    Goes(c, s, u, Upload.TakeLease(now, stamp), Upload.Leasing(sid, hash), e, write);
    var s' := s.(tables := e.tables, files := e.files);
    if s.tables.rows[sid].uploadLeaseUntil <= now {
      if allowed {
        RecoversByWriting(c, s', u, sid, hash, chunks, stamp);
      } else {
        GivesUpWrite(c, s', u, sid, hash, stamp);
      }
    } else if allowed {
      WaitsForLease(c, s', u, chunks, stamp);
    } else {
      GivesUpWaiting(c, s', u, stamp);
    }
  }

  /** The repeated request finds its row and asks whether the object is there. */
  lemma Arrives(c: Config, s: System, u: Thread, sid: nat, content: Bytes, valid: bool, rest: seq<Action>)
    requires InStatus(s, sid, Uploading) && s.tables.rows[sid].fileHash == c.sha(content)
    requires FindByKey(s.tables, s.tables.rows[sid].userId, s.tables.rows[sid].idemKey) == Some(sid)
    requires UploadPc(s, u) == Upload.Ready || UploadPc(s, u).Answered?
    ensures var r := s.tables.rows[sid];
      Exec(c, s, Then(u, Upload.Submit(r.userId, r.idemKey, content, valid),
                      Then(u, Upload.Find, Then(u, Upload.Probe, rest))))
      == Exec(c, At(s, u, Upload.Probing(sid, c.sha(content))), Then(u, Upload.Probe, rest))
  {
    var r := s.tables.rows[sid];
    var submit := Upload.Submit(r.userId, r.idemKey, content, valid);
    var scanned := Upload.Scanned(Upload.Request(r.userId, r.idemKey, c.sha(content), valid));
    var later := Then(u, Upload.Find, Then(u, Upload.Probe, rest));
    assert Step(c, s, Request(u, submit)) == At(s, u, scanned);
    assert Then(u, submit, later)[1..] == later;
    Reads(c, s, u, Upload.Find, scanned, Upload.Probing(sid, c.sha(content)), Then(u, Upload.Probe, rest));
  }
}
