/** What one submit request amounts to, from the scanned file to the answer, and that this is a run of its thread. */
module Requests {
  import opened Common
  import opened ObjectNames
  import opened Tasks
  import opened TaskDb
  import opened Upload
  import opened Runs
  import Protocol

  /** How the write of the object goes: the file name or the stream does not allow it, it raises half-way, or it
      runs to its end. */
  datatype Write = Barred | CutShort | Completes

  datatype Ask = Ask(userId: int, key: string, content: Bytes, valid: bool, msg: string, write: Write, now: real,
                     stamp: string)

  function RequestOf(c: Config, ask: Ask): Request {
    Request(ask.userId, ask.key, c.sha(ask.content), ask.valid)
  }

  function SubmittedRow(r: Row, sid: nat, hash: string, stamp: string): Row {
    Patched(r, SubmittedPatch(sid, hash), stamp)
  }

  function AbortedRow(r: Row, stamp: string): Row {
    Patched(r, ABORT_PATCH, stamp)
  }

  function Replied(t: Tables, files: Files, reply: Reply): Effect {
    Effect(t, files, Answered(reply))
  }

  /** Write the object and move the row on, or give the lease up and leave the row where it was. */
  function Written(c: Config, t: Tables, files: Files, u: Thread, sid: nat, hash: string, ask: Ask): Effect
    requires sid in t.rows
  {
    var aborted := WithRow(t, sid, AbortedRow(t.rows[sid], ask.stamp));
    if ask.write == Barred then Replied(aborted, files, ServerError)
    else if ask.write == CutShort || c.sha(ask.content) != hash
      then Replied(aborted, Without(files, Temp(sid, u)), ServerError)
    else Replied(WithRow(t, sid, SubmittedRow(t.rows[sid], sid, hash, ask.stamp)),
                 Without(files, Temp(sid, u))[Final(sid) := ask.content], Accepted)
  }

  /** Finish an upload that is already reserved: an object in place only needs its row moved on; otherwise the lease
      decides who writes. */
  function Continued(c: Config, t: Tables, files: Files, u: Thread, sid: nat, hash: string, ask: Ask): Effect
    requires sid in t.rows
  {
    var r := t.rows[sid];
    if Final(sid) in files then
      if c.sha(files[Final(sid)]) != hash then Replied(t, files, ObjectConflict)
      else Replied(WithRow(t, sid, SubmittedRow(r, sid, hash, ask.stamp)), files, Replayed)
    else if r.uploadLeaseUntil > ask.now then Replied(t, files, Replayed)
    else
      var leased := r.(uploadLeaseUntil := ask.now + c.uploadLease, updatedAt := ask.stamp);
      Written(c, WithRow(t, sid, leased), files, u, sid, hash, ask)
  }

  /** The key is taken: another content is a conflict, a finished upload a replay, an unfinished one is continued. */
  function Taken(c: Config, t: Tables, files: Files, u: Thread, sid: nat, ask: Ask): Effect
    requires sid in t.rows
  {
    var hash := c.sha(ask.content);
    if t.rows[sid].fileHash != hash then Replied(t, files, KeyConflict)
    else if t.rows[sid].status != Uploading then Replied(t, files, Replayed)
    else Continued(c, t, files, u, sid, hash, ask)
  }

  /** The key was free when it was looked up; `t` is the database when the row is inserted. Another request may have
      taken the key in between: the unique index then sends this one to the other's row. */
  function Inserted(c: Config, t: Tables, files: Files, u: Thread, ask: Ask): Effect
    requires t.nextId !in t.rows
  {
    var hash := c.sha(ask.content);
    match FindByKey(t, ask.userId, ask.key)
    case Some(sid) =>
      if ask.valid then Taken(c, t, files, u, sid, ask)
      else Replied(t, files, if t.rows[sid].fileHash != hash then KeyConflict else Refused)
    case None =>
      var sid := t.nextId;
      var row := if ask.valid then FreshRow(ask.userId, ask.key, hash, Uploading, ask.now + c.uploadLease, None,
                                            ask.stamp)
                 else FreshRow(ask.userId, ask.key, hash, Rejected, 0.0, Some(ask.msg), ask.stamp);
      var t' := WithRow(t, sid, row).(nextId := sid + 1);
      if ask.valid then Written(c, t', files, u, sid, hash, ask) else Replied(t', files, Refused)
  }

  /** The whole request; `later` is the database when the row is inserted, if it comes to that. */
  function Outcome(c: Config, t: Tables, later: Tables, files: Files, u: Thread, ask: Ask): Effect
    requires later.nextId !in later.rows
  {
    match FindByKey(t, ask.userId, ask.key)
    case Some(sid) => Taken(c, t, files, u, sid, ask)
    case None => Inserted(c, later, files, u, ask)
  }

  // ----- the request is a run of its thread -----

  function At(s: Protocol.System, e: Effect, u: Thread): Protocol.System {
    RequestAt(s, e.tables, e.files, u, e.pc)
  }

  /** One step of the thread, from a state it has reached. */
  lemma Moves(c: Config, s: Protocol.System, from: Protocol.System, u: Thread, e: Effect, act: Act, e': Effect)
    requires Leads(c, from, At(s, e, u), RequestOnly(u))
    requires Step(c, e.tables, e.files, u, e.pc, act) == e'
    ensures Leads(c, from, At(s, e', u), RequestOnly(u))
  {
    hide Step, Leads;
    RequestMoves(c, s, e.tables, e.files, u, e.pc, act);
    LeadsOn(c, from, At(s, e, u), At(s, e', u), RequestOnly(u));
  }

  lemma AbortRuns(c: Config, s: Protocol.System, from: Protocol.System, t: Tables, files: Files, u: Thread, sid: nat,
                  stamp: string)
    requires sid in t.rows && t.rows[sid].status == Uploading
    requires Leads(c, from, At(s, Effect(t, files, Aborting(sid)), u), RequestOnly(u))
    ensures Leads(c, from, At(s, Replied(WithRow(t, sid, AbortedRow(t.rows[sid], stamp)), files, ServerError), u),
                  RequestOnly(u))
  {
    hide Leads, At;
    Moves(c, s, from, u, Effect(t, files, Aborting(sid)), Abort(stamp),
          Replied(WithRow(t, sid, AbortedRow(t.rows[sid], stamp)), files, ServerError));
  }

  lemma SubmitRuns(c: Config, s: Protocol.System, from: Protocol.System, t: Tables, files: Files, u: Thread, sid: nat,
                   hash: string, afterPut: bool, stamp: string)
    requires sid in t.rows && t.rows[sid].status == Uploading
    requires Leads(c, from, At(s, Effect(t, files, Moving(sid, hash, afterPut)), u), RequestOnly(u))
    ensures Leads(c, from, At(s, Replied(WithRow(t, sid, SubmittedRow(t.rows[sid], sid, hash, stamp)), files,
                                         if afterPut then Accepted else Replayed), u), RequestOnly(u))
  {
    hide Leads, At, Patched;
    var moving, write := Effect(t, files, Moving(sid, hash, afterPut)),
      Effect(t, files, MoveWrite(sid, hash, afterPut, Uploading));
    Moves(c, s, from, u, moving, ReadStatus, write);
    Moves(c, s, from, u, write, WriteStatus(stamp),
          Replied(WithRow(t, sid, SubmittedRow(t.rows[sid], sid, hash, stamp)), files, if afterPut then Accepted
                  else Replayed));
  }

  lemma WrittenRuns(c: Config, s: Protocol.System, from: Protocol.System, t: Tables, files: Files, u: Thread, sid: nat,
                    hash: string, ask: Ask)
    requires sid in t.rows && t.rows[sid].status == Uploading
    requires Leads(c, from, At(s, Effect(t, files, Opening(sid, hash)), u), RequestOnly(u))
    ensures Leads(c, from, At(s, Written(c, t, files, u, sid, hash, ask), u), RequestOnly(u))
  {
    hide Leads, At, Patched;
    var open := Effect(t, files, Opening(sid, hash));
    if ask.write == Barred {
      Moves(c, s, from, u, open, Fail(false), Effect(t, files, Aborting(sid)));
      AbortRuns(c, s, from, t, files, u, sid, ask.stamp);
    } else {
      OpenedRuns(c, s, from, t, files, u, sid, hash, ask);
    }
  }

  lemma OpenedRuns(c: Config, s: Protocol.System, from: Protocol.System, t: Tables, files: Files, u: Thread, sid: nat,
                   hash: string, ask: Ask)
    requires sid in t.rows && t.rows[sid].status == Uploading && ask.write != Barred
    requires Leads(c, from, At(s, Effect(t, files, Opening(sid, hash)), u), RequestOnly(u))
    ensures Leads(c, from, At(s, Written(c, t, files, u, sid, hash, ask), u), RequestOnly(u))
  {
    hide Leads, At, Patched;
    var f := Temp(sid, u);
    var clean := Without(files, f);
    var all := ask.content;
    assert [] + all == all;
    assert files[f := []][f := all] == files[f := all];
    assert Without(files[f := []], f) == clean;
    var begun, full := Effect(t, files[f := []], Writing(sid, hash, [])),
      Effect(t, files[f := all], Writing(sid, hash, all));
    Moves(c, s, from, u, Effect(t, files, Opening(sid, hash)), OpenTemp, begun);
    if ask.write == CutShort {
      Moves(c, s, from, u, begun, Fail(true), Effect(t, clean, Aborting(sid)));
      AbortRuns(c, s, from, t, clean, u, sid, ask.stamp);
    } else {
      Moves(c, s, from, u, begun, WriteChunk(all), full);
      FullRuns(c, s, from, t, files, u, sid, hash, ask);
    }
  }

  /** The whole content is in the temporary file. */
  lemma FullRuns(c: Config, s: Protocol.System, from: Protocol.System, t: Tables, files: Files, u: Thread, sid: nat,
                 hash: string, ask: Ask)
    requires sid in t.rows && t.rows[sid].status == Uploading && ask.write == Completes
    requires Leads(c, from, At(s, Effect(t, files[Temp(sid, u) := ask.content], Writing(sid, hash, ask.content)), u),
                   RequestOnly(u))
    ensures Leads(c, from, At(s, Written(c, t, files, u, sid, hash, ask), u), RequestOnly(u))
  {
    hide Leads, At, Patched;
    var f, all := Temp(sid, u), ask.content;
    var clean, full := Without(files, f), Effect(t, files[f := all], Writing(sid, hash, all));
    assert Without(files[f := all], f) == clean;
    if c.sha(all) != hash {
      Moves(c, s, from, u, full, CheckHash(true), Effect(t, clean, Aborting(sid)));
      AbortRuns(c, s, from, t, clean, u, sid, ask.stamp);
    } else {
      var checked := Effect(t, files[f := all], Checked(sid, hash, all));
      Moves(c, s, from, u, full, CheckHash(true), checked);
      Moves(c, s, from, u, checked, Replace, Effect(t, clean[Final(sid) := all], Moving(sid, hash, true)));
      SubmitRuns(c, s, from, t, clean[Final(sid) := all], u, sid, hash, true, ask.stamp);
    }
  }

  lemma ContinuedRuns(c: Config, s: Protocol.System, from: Protocol.System, t: Tables, files: Files, u: Thread,
                      sid: nat, hash: string, ask: Ask)
    requires sid in t.rows && t.rows[sid].status == Uploading && t.rows[sid].fileHash == hash
    requires Leads(c, from, At(s, Effect(t, files, Probing(sid, hash)), u), RequestOnly(u))
    ensures Leads(c, from, At(s, Continued(c, t, files, u, sid, hash, ask), u), RequestOnly(u))
  {
    hide Leads, At, Patched, Written;
    var probing, leasing := Effect(t, files, Probing(sid, hash)), Effect(t, files, Leasing(sid, hash));
    if Final(sid) in files && c.sha(files[Final(sid)]) != hash {
      Moves(c, s, from, u, probing, Probe, Replied(t, files, ObjectConflict));
    } else if Final(sid) in files {
      Moves(c, s, from, u, probing, Probe, Effect(t, files, Moving(sid, hash, false)));
      SubmitRuns(c, s, from, t, files, u, sid, hash, false, ask.stamp);
    } else {
      Moves(c, s, from, u, probing, Probe, leasing);
      if t.rows[sid].uploadLeaseUntil > ask.now {
        Moves(c, s, from, u, leasing, TakeLease(ask.now, ask.stamp), Replied(t, files, Replayed));
      } else {
        var leased := t.rows[sid].(uploadLeaseUntil := ask.now + c.uploadLease, updatedAt := ask.stamp);
        Moves(c, s, from, u, leasing, TakeLease(ask.now, ask.stamp),
              Effect(WithRow(t, sid, leased), files, Opening(sid, hash)));
        WrittenRuns(c, s, from, WithRow(t, sid, leased), files, u, sid, hash, ask);
      }
    }
  }

  lemma TakenRuns(c: Config, s: Protocol.System, from: Protocol.System, t: Tables, files: Files, u: Thread, sid: nat,
                  ask: Ask)
    requires sid in t.rows
    requires Leads(c, from, At(s, Effect(t, files, Existing(t.rows[sid], sid, RequestOf(c, ask))), u), RequestOnly(u))
    ensures Leads(c, from, At(s, Taken(c, t, files, u, sid, ask), u), RequestOnly(u))
  {
    hide Leads, At, Continued;
    if t.rows[sid].fileHash == c.sha(ask.content) && t.rows[sid].status == Uploading {
      ContinuedRuns(c, s, from, t, files, u, sid, c.sha(ask.content), ask);
    }
  }

  /** Where the look-up sends the request when the key is free. */
  function Free(c: Config, ask: Ask): Pc {
    if ask.valid then Reserving(RequestOf(c, ask)) else Rejecting(RequestOf(c, ask))
  }

  /** From any state in which the thread is about to insert its row, whatever others did since it looked the key up. */
  lemma InsertedRuns(c: Config, s: Protocol.System, from: Protocol.System, t: Tables, files: Files, u: Thread, ask: Ask)
    requires t.nextId !in t.rows
    requires Leads(c, from, At(s, Effect(t, files, Free(c, ask)), u), RequestOnly(u))
    ensures Leads(c, from, At(s, Inserted(c, t, files, u, ask), u), RequestOnly(u))
  {
    hide Leads, At, Taken, Written;
    var req := RequestOf(c, ask);
    var found := FindByKey(t, ask.userId, ask.key);
    if ask.valid && found.Some? {
      hide FindByKey;
      Moves(c, s, from, u, Effect(t, files, Reserving(req)), Reserve(ask.now, ask.stamp),
            Effect(t, files, Collided(req)));
      Moves(c, s, from, u, Effect(t, files, Collided(req)), CollideRead,
            Effect(t, files, Existing(t.rows[found.value], found.value, req)));
      TakenRuns(c, s, from, t, files, u, found.value, ask);
    } else if ask.valid {
      FreshRuns(c, s, from, t, files, u, ask);
    } else {
      RefusedRuns(c, s, from, t, files, u, ask);
    }
  }

  lemma FreshRuns(c: Config, s: Protocol.System, from: Protocol.System, t: Tables, files: Files, u: Thread, ask: Ask)
    requires t.nextId !in t.rows && ask.valid && FindByKey(t, ask.userId, ask.key) == None
    requires Leads(c, from, At(s, Effect(t, files, Free(c, ask)), u), RequestOnly(u))
    ensures Leads(c, from, At(s, Inserted(c, t, files, u, ask), u), RequestOnly(u))
  {
    hide Leads, At, Taken, Written, FindByKey;
    var req, sid := RequestOf(c, ask), t.nextId;
    var row := FreshRow(ask.userId, ask.key, req.hash, Uploading, ask.now + c.uploadLease, None, ask.stamp);
    var t' := WithRow(t, sid, row).(nextId := sid + 1);
    Moves(c, s, from, u, Effect(t, files, Reserving(req)), Reserve(ask.now, ask.stamp),
          Effect(t', files, Reserved(req, sid)));
    Moves(c, s, from, u, Effect(t', files, Reserved(req, sid)), ReserveRead, Effect(t', files, Opening(sid, req.hash)));
    WrittenRuns(c, s, from, t', files, u, sid, req.hash, ask);
  }

  lemma RefusedRuns(c: Config, s: Protocol.System, from: Protocol.System, t: Tables, files: Files, u: Thread, ask: Ask)
    requires t.nextId !in t.rows && !ask.valid
    requires Leads(c, from, At(s, Effect(t, files, Free(c, ask)), u), RequestOnly(u))
    ensures Leads(c, from, At(s, Inserted(c, t, files, u, ask), u), RequestOnly(u))
  {
    hide Leads, At, Taken, Written, FindByKey;
    var req := RequestOf(c, ask);
    var e := Inserted(c, t, files, u, ask);
    if FindByKey(t, ask.userId, ask.key).Some? {
      Moves(c, s, from, u, Effect(t, files, Rejecting(req)), Reject(ask.msg, ask.stamp),
            Effect(t, files, RejectCollided(req)));
      Moves(c, s, from, u, Effect(t, files, RejectCollided(req)), RejectFind, e);
    } else {
      Moves(c, s, from, u, Effect(t, files, Rejecting(req)), Reject(ask.msg, ask.stamp), e);
    }
  }

  /** From any state in which the thread is free, to where the look-up sends it. */
  lemma LookUpRuns(c: Config, s: Protocol.System, u: Thread, ask: Ask)
    requires Protocol.UploadPc(s, u) == Ready || Protocol.UploadPc(s, u).Answered?
    ensures var pc := match FindByKey(s.tables, ask.userId, ask.key)
      case Some(sid) => Existing(s.tables.rows[sid], sid, RequestOf(c, ask))
      case None => Free(c, ask);
      Leads(c, s, At(s, Effect(s.tables, s.files, pc), u), RequestOnly(u))
  {
    hide Leads, FindByKey;
    var submit := Submit(ask.userId, ask.key, ask.content, ask.valid);
    var scanned := Effect(s.tables, s.files, Scanned(RequestOf(c, ask)));
    assert Protocol.Step(c, s, Protocol.Request(u, submit)) == At(s, scanned, u);
    LeadsBy(c, s, Protocol.Request(u, submit), RequestOnly(u));
    hide Protocol.Step, At;
    Moves(c, s, s, u, scanned, Find, Effect(s.tables, s.files, match FindByKey(s.tables, ask.userId, ask.key)
      case Some(sid) => Existing(s.tables.rows[sid], sid, RequestOf(c, ask))
      case None => Free(c, ask)));
  }

  /** Undisturbed, the request is one run of its thread from any state in which the thread is free, and leaves
      everybody else alone. Disturbed between the look-up and the insertion, `LookUpRuns` and `InsertedRuns` are its
      two halves. */
  lemma RequestIsRunOfSteps(c: Config, s: Protocol.System, u: Thread, ask: Ask)
    requires Protocol.UploadPc(s, u) == Ready || Protocol.UploadPc(s, u).Answered?
    requires s.tables.nextId !in s.tables.rows
    ensures Leads(c, s, At(s, Outcome(c, s.tables, s.tables, s.files, u, ask), u), RequestOnly(u))
  {
    hide Leads, At, Taken, Inserted, FindByKey;
    LookUpRuns(c, s, u, ask);
    var found := FindByKey(s.tables, ask.userId, ask.key);
    if found.Some? {
      TakenRuns(c, s, s, s.tables, s.files, u, found.value, ask);
    } else {
      InsertedRuns(c, s, s, s.tables, s.files, u, ask);
    }
  }
}
