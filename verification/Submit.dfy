/** The submit endpoint from the file stream to the answer, as the code runs it on the database and the object
    directory. */
module Submit {
  import opened Common
  import opened ObjectNames
  import opened Tasks
  import opened TaskDb
  import opened Evolution
  import opened Streaming
  import opened Requests
  import opened Runs
  import Protocol
  import Upload
  import Database

  type Reply = Upload.Reply

  /** What the environment variables set. */
  datatype Settings = Settings(uploadLease: real, chunkSize: int)

  /** Another request that takes the same key between the look-up and the insertion. */
  datatype Rival = Rival(hash: string, refused: bool)

  /** The request as the endpoint sees it once authentication and multipart parsing are done; `failsAt` is where the
      disk gives out during the write. */
  datatype Form = Form(userId: int, key: string, name: string, u: Thread, now: real, stamp: string,
                       rival: Option<Rival>, failsAt: Option<nat>)

  /** The hash as the protocol sees it. */
  ghost function ConfigOf<S(!new)>(h: Hasher<S>, k: Settings): Upload.Config {
    Upload.Config((content: Bytes) => Sha(h, content), k.uploadLease, 0.0)
  }

  /** The message a refused file is remembered with; only which fault it was matters here. */
  function Message(fault: Fault): string {
    match fault
    case NoFault => ""
    case BadFormat => "file format not supported"
    case Empty => "empty file"
    case TooLarge => "file too large"
    case BadPng => "not a PNG"
    case BadJpg => "not a JPEG"
  }

  function WriteOf(file: Stream, k: Settings, f: Form): Write {
    if !AllowedExt(Extension(f.name)) || k.chunkSize <= 0 || !file.seekable then Barred
    else if Breaks(f.failsAt, file.content) then CutShort
    else Completes
  }

  function AskOf(file: Stream, k: Settings, f: Form): Ask {
    var fault := FaultOf(file.content, f.name);
    Ask(f.userId, f.key, file.content, fault == NoFault, Message(fault), WriteOf(file, k, f), f.now, f.stamp)
  }

  /** The database after the rival, if there is one. */
  function Intruded(t: Tables, k: Settings, f: Form): Tables {
    if f.rival == None then t
    else
      var r := f.rival.value;
      var i := if r.refused then TaskDb.InsertRejected(t, f.userId, f.key, r.hash, "rival", f.stamp)
               else TaskDb.ReserveUpload(t, f.userId, f.key, r.hash, f.now, k.uploadLease, f.stamp);
      if i.Some? then i.value else t
  }

  // ----- rows and objects stay sound -----

  /** Rows and objects as every run of the protocol leaves them. */
  ghost predicate Sound<S(!new)>(h: Hasher<S>, k: Settings, t: Tables, files: Upload.Files) {
    TablesOk(t) && Upload.StoreOk(ConfigOf(h, k), t, files)
  }

  function Alone(t: Tables, files: Upload.Files): Protocol.System {
    Protocol.System(t, files, map[], map[], map[])
  }

  lemma AloneIsSound<S(!new)>(h: Hasher<S>, k: Settings, s: Protocol.System)
    ensures Protocol.Inv(ConfigOf(h, k), s) ==> Sound(h, k, s.tables, s.files)
    ensures Sound(h, k, s.tables, s.files) && s == Alone(s.tables, s.files) ==> Protocol.Inv(ConfigOf(h, k), s)
  {
  }

  /** In every reachable state the endpoint finds what it relies on. */
  lemma ReachableIsSound<S(!new)>(h: Hasher<S>, k: Settings, accounts: map<int, real>, s: Protocol.System)
    requires Protocol.Solvent(accounts) && Reachable(ConfigOf(h, k), accounts, s)
    ensures Sound(h, k, s.tables, s.files)
  {
    ReachableInv(ConfigOf(h, k), accounts, s);
    AloneIsSound(h, k, s);
  }

  lemma RowsBelowNext(t: Tables)
    requires TablesOk(t)
    ensures t.nextId !in t.rows
  {
  }

  lemma InsertSound<S(!new)>(h: Hasher<S>, k: Settings, t: Tables, files: Upload.Files, r: Row)
    requires Sound(h, k, t, files) && RowOk(t.nextId, r) && r.retryCount == 0 && r.status in {Uploading, Rejected}
    ensures TaskDb.Insert(t, r).Some? ==> Sound(h, k, TaskDb.Insert(t, r).value, files)
  {
    RowInserted(t, r);
    hide RowOk, Evolves, Sha;
  }

  lemma IntrudedIsSound<S(!new)>(h: Hasher<S>, k: Settings, t: Tables, files: Upload.Files, f: Form)
    requires Sound(h, k, t, files)
    ensures Sound(h, k, Intruded(t, k, f), files)
  {
    hide Sound, TaskDb.Insert;
    if f.rival.Some? {
      var r := f.rival.value;
      InsertSound(h, k, t, files, if r.refused then FreshRow(f.userId, f.key, r.hash, Rejected, 0.0, Some("rival"),
                                                             f.stamp)
        else FreshRow(f.userId, f.key, r.hash, Uploading, f.now + k.uploadLease, None, f.stamp));
    }
  }

  /** An outcome is reached by steps of the protocol, so it is sound because those are. */
  lemma OutcomeIsSound<S(!new)>(h: Hasher<S>, k: Settings, t: Tables, later: Tables, files: Upload.Files, u: Thread,
                                ask: Ask)
    requires Sound(h, k, t, files) && Sound(h, k, later, files)
    ensures later.nextId !in later.rows
    ensures var e := Outcome(ConfigOf(h, k), t, later, files, u, ask); Sound(h, k, e.tables, e.files)
  {
    var c := ConfigOf(h, k);
    RowsBelowNext(later);
    AloneIsSound(h, k, Alone(t, files));
    AloneIsSound(h, k, Alone(later, files));
    var e := Outcome(c, t, later, files, u, ask);
    hide Protocol.Inv, Leads, Sound, Taken, Inserted, FindByKey, ConfigOf;
    var found := FindByKey(t, ask.userId, ask.key);
    var s := if found.Some? then Alone(t, files) else Alone(later, files);
    var pc := if found.Some? then Upload.Existing(t.rows[found.value], found.value, RequestOf(c, ask))
      else Free(c, ask);
    var begin := Requests.At(s, Upload.Effect(s.tables, files, pc), u);
    if found.Some? {
      LookUpRuns(c, s, u, ask);
      TakenRuns(c, s, s, t, files, u, found.value, ask);
      LeadsInv(c, s, Requests.At(s, e, u), RequestOnly(u));
    } else {
      BegunInv(c, s, u, ask);
      LeadsNowhere(c, begin, RequestOnly(u));
      InsertedRuns(c, s, begin, later, files, u, ask);
      LeadsInv(c, begin, Requests.At(s, e, u), RequestOnly(u));
    }
    AloneIsSound(h, k, Requests.At(s, e, u));
  }

  lemma BegunInv(c: Upload.Config, s: Protocol.System, u: Thread, ask: Ask)
    requires Protocol.Inv(c, s)
    ensures Protocol.Inv(c, Requests.At(s, Upload.Effect(s.tables, s.files, Free(c, ask)), u))
  {
  }

  // ----- the endpoint -----

  /** A write that can run to its end: the name has one of the four suffixes, the stream can be read twice in chunks,
      and the disk holds out. */
  predicate Writable(file: Stream, k: Settings, f: Form) {
    && Extension(f.name) in {".png", ".jpg", ".jpeg", ".webp"} && k.chunkSize > 0 && file.seekable
    && (f.failsAt == None || f.failsAt.value > |file.content|)
  }

  /** The row has become a submitted task: pending, with its object and fingerprint, no lease and no message. */
  ghost predicate Finished(t: Tables, t': Tables, sid: nat, hash: string, stamp: string)
    requires sid in t.rows
  {
    t' == t.(rows := t.rows[sid := t.rows[sid].(status := Pending, objectKey := Some(ObjectKey(sid)), fileHash := hash,
                                                uploadLeaseUntil := 0.0, resultMsg := None, updatedAt := stamp)])
  }

  /** The upload has been given up: the row is where it was but for a message and a lease that ended at zero, so that
      whoever comes with the same content at any reading from zero on takes it over. */
  ghost predicate GivenUp(t: Tables, t': Tables, sid: nat, stamp: string)
    requires sid in t.rows
  {
    && t' == t.(rows := t.rows[sid := t.rows[sid].(uploadLeaseUntil := 0.0, updatedAt := stamp,
                                                   resultMsg := Some("object write incomplete"))])
    && (t.rows[sid].status == Uploading ==> forall at: real, leaseSec: real | at >= 0.0 ::
          TaskDb.ClaimStaleUpload(t', sid, t.rows[sid].fileHash, at, leaseSec, stamp).1)
  }

  ghost predicate Ends(t: Tables, files: Upload.Files, u: Thread, sid: nat, hash: string, ask: Ask, ok: bool,
                       e: Upload.Effect)
    requires sid in t.rows
  {
    if ok then
      && e.pc == Upload.Answered(Upload.Accepted) && Finished(t, e.tables, sid, hash, ask.stamp)
      && e.files == (files - {Temp(sid, u)})[Final(sid) := ask.content]
    else
      && e.pc == Upload.Answered(Upload.ServerError) && GivenUp(t, e.tables, sid, ask.stamp)
      && (Final(sid) in e.files <==> Final(sid) in files)
  }

  lemma WrittenSpelledOut(c: Upload.Config, t: Tables, files: Upload.Files, u: Thread, sid: nat, hash: string, ask: Ask)
    requires sid in t.rows
    ensures Ends(t, files, u, sid, hash, ask, ask.write == Completes && c.sha(ask.content) == hash,
                 Written(c, t, files, u, sid, hash, ask))
  {
  }

  lemma LeasedSpelledOut(c: Upload.Config, t: Tables, files: Upload.Files, u: Thread, sid: nat, hash: string, ask: Ask)
    requires sid in t.rows
    ensures var leased := t.rows[sid].(uploadLeaseUntil := ask.now + c.uploadLease, updatedAt := ask.stamp);
      Ends(t, files, u, sid, hash, ask, ask.write == Completes && c.sha(ask.content) == hash,
           Written(c, WithRow(t, sid, leased), files, u, sid, hash, ask))
  {
    var leased := t.rows[sid].(uploadLeaseUntil := ask.now + c.uploadLease, updatedAt := ask.stamp);
    WrittenSpelledOut(c, WithRow(t, sid, leased), files, u, sid, hash, ask);
    hide Written;
  }

  /** Write the object and move the row on, or give the lease up and leave the row where it was. */
  method WriteUpload<S(!new)>(db: Database.Database, store: ObjectStore, h: Hasher<S>, file: Stream, k: Settings,
                              f: Form, sid: nat, hash: string) returns (reply: Reply)
    requires file.Valid() && Incremental(h)
    requires sid in db.rows && db.rows[sid].status == Uploading
    modifies db, store, file
    ensures file.Valid()
    ensures Replied(db.View(), store.files, reply)
         == Written(ConfigOf(h, k), old(db.View()), old(store.files), f.u, sid, hash, AskOf(file, k, f))
    ensures reply == Upload.Accepted <==> Writable(file, k, f) && Sha(h, file.content) == hash
    ensures reply == Upload.Accepted ==>
      && Finished(old(db.View()), db.View(), sid, hash, f.stamp)
      && store.files == (old(store.files) - {Temp(sid, f.u)})[Final(sid) := file.content]
    ensures reply != Upload.Accepted ==>
      && reply == Upload.ServerError
      && GivenUp(old(db.View()), db.View(), sid, f.stamp)
      && store.files - {Temp(sid, f.u)} == old(store.files) - {Temp(sid, f.u)}
  {
    WrittenSpelledOut(ConfigOf(h, k), db.View(), store.files, f.u, sid, hash, AskOf(file, k, f));
    hide Patched, Sets, Sha, Incremental, Extension, AllowedExt, FaultOf, Message, Finished, GivenUp, Written;
    var put := store.PutObjectStream(h, file, f.name, sid, f.u, Some(hash), k.chunkSize, f.failsAt, f.now);
    if put.Stored? {
      var _ := db.Transition(sid, Pending, Upload.SubmittedPatch(sid, hash), f.stamp);
      return Upload.Accepted;
    }
    var _ := db.UpdateTask(sid, Uploading, Upload.ABORT_PATCH, f.stamp);
    reply := Upload.ServerError;
  }

  /** Finish a reserved upload. An object already in place only needs its row moved on; otherwise the lease decides
      who writes, and the creator of the reservation need not ask. */
  method CompleteOrRecoverUpload<S(!new)>(db: Database.Database, store: ObjectStore, h: Hasher<S>, file: Stream,
                                          k: Settings, f: Form, sid: nat, hash: string, created: bool)
    returns (reply: Reply)
    requires file.Valid() && Incremental(h)
    requires sid in db.rows && db.rows[sid].status == Uploading && db.rows[sid].fileHash == hash
    modifies db, store, file
    ensures file.Valid()
    ensures Replied(db.View(), store.files, reply)
         == if created then Written(ConfigOf(h, k), old(db.View()), old(store.files), f.u, sid, hash, AskOf(file, k, f))
            else Continued(ConfigOf(h, k), old(db.View()), old(store.files), f.u, sid, hash, AskOf(file, k, f))
    ensures db.rows[sid].status == Pending <==>
      (!created && Final(sid) in old(store.files) && Sha(h, old(store.files)[Final(sid)]) == hash)
      || ((created || (Final(sid) !in old(store.files) && old(db.rows)[sid].uploadLeaseUntil <= f.now))
          && Writable(file, k, f) && Sha(h, file.content) == hash)
  {
    hide Sets, Sha, Incremental, WriteOf, FaultOf, Message, Writable, Finished, GivenUp;
    if !created {
      if Final(sid) in store.files {
        if Sha(h, store.files[Final(sid)]) != hash {
          return Upload.ObjectConflict;
        }
        var _ := db.Transition(sid, Pending, Upload.SubmittedPatch(sid, hash), f.stamp);
        return Upload.Replayed;
      }
      var taken := db.ClaimStaleUpload(sid, hash, f.now, k.uploadLease, f.stamp);
      if !taken {
        return Upload.Replayed;
      }
    }
    reply := WriteUpload(db, store, h, file, k, f, sid, hash);
  }

  /** What makes a file refusable: its suffix, no content at all, more than ten mebibytes, or the wrong first bytes for
      the suffix. */
  predicate Objectionable(content: Bytes, name: string) {
    var ext := Extension(name);
    || ext !in {".png", ".jpg", ".jpeg", ".webp"}
    || |content| == 0
    || |content| > 10485760
    || (ext == ".png" && (|content| < 4 || content[..4] != [0x89, 0x50, 0x4E, 0x47]))
    || (ext in {".jpg", ".jpeg"} && (|content| < 3 || content[..3] != [0xFF, 0xD8, 0xFF]))
  }

  lemma ObjectionableIsFault(content: Bytes, name: string)
    ensures Objectionable(content, name) <==> FaultOf(content, name) != NoFault
  {
    hide Extension;
    MagicNumbers(content);
  }

  /** Exactly one row has been added, under this key and with this fingerprint, and nobody has claimed it. */
  ghost predicate OneMore(t: Tables, t': Tables, userId: int, key: string, hash: string)
    ensures OneMore(t, t', userId, key, hash) ==> t.nextId in t'.rows
  {
    var sid := t.nextId;
    && sid !in t.rows && sid in t'.rows && t' == t.(rows := t.rows[sid := t'.rows[sid]], nextId := sid + 1)
    && var r := t'.rows[sid];
    && r.userId == userId && r.idemKey == key && r.fileHash == hash
    && r.generation == 0 && r.retryCount == 0 && r.owner == None
  }

  /** A request under a key that nobody has or takes. One row is made, with the hash of the content. An objectionable
      file is refused, remembered as such and never stored; any other becomes a pending task with its object, or, when
      the disk gives out, a reservation whose lease is over. */
  ghost predicate FirstRequest<S(!new)>(h: Hasher<S>, t: Tables, files: Upload.Files, file: Stream, k: Settings,
                                        f: Form, t': Tables, files': Upload.Files, reply: Reply)
  {
    var sid := t.nextId;
    && OneMore(t, t', f.userId, f.key, Sha(h, file.content))
    && var r := t'.rows[sid];
    && (reply == Upload.Refused <==> Objectionable(file.content, f.name))
    && (reply == Upload.Accepted <==> !Objectionable(file.content, f.name) && Writable(file, k, f))
    && reply in {Upload.Refused, Upload.Accepted, Upload.ServerError}
    && match reply
       case Refused => r.status == Rejected && r.resultMsg.Some? && files' == files
       case Accepted =>
         && r.status == Pending && r.objectKey == Some(ObjectKey(sid)) && r.resultMsg == None
         && files' == (files - {Temp(sid, f.u)})[Final(sid) := file.content]
       case _ => r.status == Uploading && r.uploadLeaseUntil == 0.0 && Final(sid) !in files'
  }

  lemma NoObjectYet<S(!new)>(h: Hasher<S>, k: Settings, t: Tables, files: Upload.Files)
    requires Sound(h, k, t, files)
    ensures t.nextId !in t.rows && Final(t.nextId) !in files
  {
  }

  lemma FirstSpelledOut<S(!new)>(h: Hasher<S>, k: Settings, t: Tables, files: Upload.Files, file: Stream, f: Form)
    requires Sound(h, k, t, files) && k.chunkSize > 0 && file.seekable
    requires f.rival == None && SameKey(t, f.userId, f.key) == {}
    ensures var e := Outcome(ConfigOf(h, k), t, Intruded(t, k, f), files, f.u, AskOf(file, k, f));
      e.pc.Answered? && FirstRequest(h, t, files, file, k, f, e.tables, e.files, e.pc.reply)
  {
    var c, ask := ConfigOf(h, k), AskOf(file, k, f);
    ObjectionableIsFault(file.content, f.name);
    NoObjectYet(h, k, t, files);
    var hash := Sha(h, file.content);
    FreshSpelledOut(c, t, files, f.u, ask);
    assert WriteOf(file, k, f) == Completes <==> Writable(file, k, f);
    hide Extension, FaultOf, Message, Sha, Objectionable, Sound, Inserted, SameKey, Writable, WriteOf, OneMore;
  }

  /** The same of the request function: one fresh row, which the refusal, the write or the given-up write finishes. */
  lemma FreshSpelledOut(c: Upload.Config, t: Tables, files: Upload.Files, u: Thread, ask: Ask)
    requires t.nextId !in t.rows && SameKey(t, ask.userId, ask.key) == {} && Final(t.nextId) !in files
    ensures var e, sid, hash := Inserted(c, t, files, u, ask), t.nextId, c.sha(ask.content);
      && OneMore(t, e.tables, ask.userId, ask.key, hash)
      && var r := e.tables.rows[sid];
      && if !ask.valid then
           e.pc == Upload.Answered(Upload.Refused) && r.status == Rejected && r.resultMsg == Some(ask.msg)
           && e.files == files
         else if ask.write == Completes then
           && e.pc == Upload.Answered(Upload.Accepted)
           && r.status == Pending && r.objectKey == Some(ObjectKey(sid)) && r.resultMsg == None
           && e.files == (files - {Temp(sid, u)})[Final(sid) := ask.content]
         else
           && e.pc == Upload.Answered(Upload.ServerError)
           && r.status == Uploading && r.uploadLeaseUntil == 0.0 && Final(sid) !in e.files
  {
    var hash, sid := c.sha(ask.content), t.nextId;
    var row := FreshRow(ask.userId, ask.key, hash, Uploading, ask.now + c.uploadLease, None, ask.stamp);
    if ask.valid {
      WrittenSpelledOut(c, WithRow(t, sid, row).(nextId := sid + 1), files, u, sid, hash, ask);
      hide Written;
    }
  }

  /** A request under a key that row `sid` has. Another content is a conflict; a row past its upload is replayed. An
      unfinished upload is finished by its object alone if that is in place. Otherwise nobody may write before the
      lease is over; afterwards the request either finishes it or gives it up. */
  ghost predicate Repetition<S(!new)>(h: Hasher<S>, t: Tables, files: Upload.Files, file: Stream, k: Settings, f: Form,
                                      sid: nat, t': Tables, files': Upload.Files, reply: Reply)
    requires sid in t.rows
  {
    var r, hash := t.rows[sid], Sha(h, file.content);
    if r.fileHash != hash then reply == Upload.KeyConflict && t' == t && files' == files
    else if r.status != Uploading then reply == Upload.Replayed && t' == t && files' == files
    else if Final(sid) in files then
      reply == Upload.Replayed && Finished(t, t', sid, hash, f.stamp) && files' == files
    else if r.uploadLeaseUntil > f.now then reply == Upload.Replayed && t' == t && files' == files
    else if Writable(file, k, f) then
      && reply == Upload.Accepted && Finished(t, t', sid, hash, f.stamp)
      && files' == (files - {Temp(sid, f.u)})[Final(sid) := file.content]
    else reply == Upload.ServerError && GivenUp(t, t', sid, f.stamp) && Final(sid) !in files'
  }

  lemma KeyIsOf<S(!new)>(h: Hasher<S>, k: Settings, t: Tables, files: Upload.Files, f: Form, sid: nat)
    requires Sound(h, k, t, files) && sid in SameKey(t, f.userId, f.key)
    ensures FindByKey(t, f.userId, f.key) == Some(sid)
    ensures Final(sid) in files ==> Sha(h, files[Final(sid)]) == t.rows[sid].fileHash
  {
    var found := FindByKey(t, f.userId, f.key).value;
    assert SameRequest(t.rows[found], t.rows[sid]);
    hide Sha;
  }

  lemma StoredSpelledOut(t: Tables, sid: nat, hash: string, stamp: string)
    requires sid in t.rows
    ensures Finished(t, WithRow(t, sid, SubmittedRow(t.rows[sid], sid, hash, stamp)), sid, hash, stamp)
  {
  }

  lemma TakenSpelledOut(c: Upload.Config, t: Tables, files: Upload.Files, u: Thread, sid: nat, ask: Ask)
    requires sid in t.rows && (Final(sid) in files ==> c.sha(files[Final(sid)]) == t.rows[sid].fileHash)
    ensures var e, r, hash := Taken(c, t, files, u, sid, ask), t.rows[sid], c.sha(ask.content);
      if r.fileHash != hash then e == Replied(t, files, Upload.KeyConflict)
      else if r.status != Uploading then e == Replied(t, files, Upload.Replayed)
      else if Final(sid) in files then
        e == Replied(e.tables, files, Upload.Replayed) && Finished(t, e.tables, sid, hash, ask.stamp)
      else if r.uploadLeaseUntil > ask.now then e == Replied(t, files, Upload.Replayed)
      else Ends(t, files, u, sid, hash, ask, ask.write == Completes, e)
  {
    var hash := c.sha(ask.content);
    StoredSpelledOut(t, sid, hash, ask.stamp);
    LeasedSpelledOut(c, t, files, u, sid, hash, ask);
    hide Written, Finished, Ends, SubmittedRow;
  }

  lemma RepetitionSpelledOut<S(!new)>(h: Hasher<S>, k: Settings, t: Tables, files: Upload.Files, file: Stream, f: Form,
                                      sid: nat)
    requires Sound(h, k, t, files) && k.chunkSize > 0 && file.seekable && sid in SameKey(t, f.userId, f.key)
    requires var later := Intruded(t, k, f); later.nextId !in later.rows
    ensures var e := Outcome(ConfigOf(h, k), t, Intruded(t, k, f), files, f.u, AskOf(file, k, f));
      e.pc.Answered? && Repetition(h, t, files, file, k, f, sid, e.tables, e.files, e.pc.reply)
  {
    var c, ask, hash := ConfigOf(h, k), AskOf(file, k, f), Sha(h, file.content);
    KeyIsOf(h, k, t, files, f, sid);
    TakenSpelledOut(c, t, files, f.u, sid, ask);
    assert WriteOf(file, k, f) == Completes <==> Writable(file, k, f);
    hide Intruded, Extension, FaultOf, Message, Sha, Sound, SameKey, FindByKey, Taken, Writable, WriteOf, GivenUp,
      Finished, Inserted;
  }

  /** A request whose key another one takes between the look-up and the insertion. The one new row is the other's.
      Another content is a conflict, an objectionable file is refused all the same, and the rest is replayed, unless
      the other's lease is over as soon as it begins. */
  ghost predicate Beaten<S(!new)>(h: Hasher<S>, t: Tables, files: Upload.Files, file: Stream, k: Settings, f: Form,
                                  rival: Rival, t': Tables, files': Upload.Files, reply: Reply)
  {
    var sid := t.nextId;
    && OneMore(t, t', f.userId, f.key, rival.hash)
    && var r := t'.rows[sid];
    && if rival.hash == Sha(h, file.content) && !Objectionable(file.content, f.name) && !rival.refused
          && k.uploadLease <= 0.0 then
         reply == (if Writable(file, k, f) then Upload.Accepted else Upload.ServerError)
         && r.status == (if Writable(file, k, f) then Pending else Uploading)
         && (Writable(file, k, f) ==> files' == (files - {Temp(sid, f.u)})[Final(sid) := file.content])
       else
         && reply == (if rival.hash != Sha(h, file.content) then Upload.KeyConflict
                      else if Objectionable(file.content, f.name) then Upload.Refused else Upload.Replayed)
         && r.status == (if rival.refused then Rejected else Uploading) && files' == files
  }

  lemma IntrudedSpelledOut(t: Tables, k: Settings, f: Form)
    requires TablesOk(t) && f.rival.Some? && SameKey(t, f.userId, f.key) == {}
    ensures var later, sid := Intruded(t, k, f), t.nextId;
      && OneMore(t, later, f.userId, f.key, f.rival.value.hash)
      && FindByKey(later, f.userId, f.key) == Some(sid)
      && var r := later.rows[sid];
      && r.fileHash == f.rival.value.hash
      && r.status == (if f.rival.value.refused then Rejected else Uploading)
      && (!f.rival.value.refused ==> r.uploadLeaseUntil == f.now + k.uploadLease)
  {
    var later, sid := Intruded(t, k, f), t.nextId;
    assert forall x :: x in SameKey(later, f.userId, f.key) && x != sid ==> x in SameKey(t, f.userId, f.key);
    assert sid in SameKey(later, f.userId, f.key);
  }

  /** Writing on that row leaves it the one row added. */
  lemma StillOneMore(t: Tables, later: Tables, files: Upload.Files, u: Thread, ask: Ask, hash: string, ok: bool,
                     e: Upload.Effect)
    requires OneMore(t, later, ask.userId, ask.key, hash) && later.rows[t.nextId].status == Uploading
    requires Ends(later, files, u, t.nextId, hash, ask, ok, e)
    ensures OneMore(t, e.tables, ask.userId, ask.key, hash)
    ensures e.tables.rows[t.nextId].status == (if ok then Pending else Uploading)
  {
  }

  lemma BeatenSpelledOut<S(!new)>(h: Hasher<S>, k: Settings, t: Tables, files: Upload.Files, file: Stream, f: Form)
    requires Sound(h, k, t, files) && k.chunkSize > 0 && file.seekable
    requires f.rival.Some? && SameKey(t, f.userId, f.key) == {}
    requires var later := Intruded(t, k, f); later.nextId !in later.rows
    ensures var e := Outcome(ConfigOf(h, k), t, Intruded(t, k, f), files, f.u, AskOf(file, k, f));
      e.pc.Answered? && Beaten(h, t, files, file, k, f, f.rival.value, e.tables, e.files, e.pc.reply)
  {
    var c, ask, hash, later := ConfigOf(h, k), AskOf(file, k, f), Sha(h, file.content), Intruded(t, k, f);
    NoObjectYet(h, k, t, files);
    IntrudedSpelledOut(t, k, f);
    ObjectionableIsFault(file.content, f.name);
    TakenSpelledOut(c, later, files, f.u, t.nextId, ask);
    var e, sid, rival := Taken(c, later, files, f.u, t.nextId, ask), t.nextId, f.rival.value;
    if rival.hash == hash && !rival.refused && k.uploadLease <= 0.0 {
      StillOneMore(t, later, files, f.u, ask, hash, ask.write == Completes, e);
    }
    assert WriteOf(file, k, f) == Completes <==> Writable(file, k, f);
    hide Intruded, Extension, FaultOf, Message, Sha, Sound, SameKey, FindByKey, Taken, Writable, WriteOf,
      Objectionable, OneMore;
  }

  /** The whole request: scan the stream, look the key up, and reserve, finish, replay or refuse. If the key was free
      and another request takes it before the insertion, the unique index turns this one into a request for the
      other's row. */
  method HandleSubmit<S(!new)>(db: Database.Database, store: ObjectStore, h: Hasher<S>, file: Stream, k: Settings,
                               f: Form)
    returns (reply: Reply)
    requires file.Valid() && Incremental(h) && Sound(h, k, db.View(), store.files)
    modifies db, store, file
    ensures file.Valid() && Sound(h, k, db.View(), store.files)
    ensures var t := old(db.View());
      var later := Intruded(t, k, f);
      && later.nextId !in later.rows
      && Replied(db.View(), store.files, reply)
         == if k.chunkSize <= 0 || !file.seekable then Replied(t, old(store.files), Upload.ServerError)
            else Outcome(ConfigOf(h, k), t, later, old(store.files), f.u, AskOf(file, k, f))
    ensures k.chunkSize > 0 && file.seekable && f.rival == None && SameKey(old(db.View()), f.userId, f.key) == {} ==>
      FirstRequest(h, old(db.View()), old(store.files), file, k, f, db.View(), store.files, reply)
    ensures k.chunkSize > 0 && file.seekable && f.rival.Some? && SameKey(old(db.View()), f.userId, f.key) == {} ==>
      Beaten(h, old(db.View()), old(store.files), file, k, f, f.rival.value, db.View(), store.files, reply)
    ensures k.chunkSize > 0 && file.seekable ==> forall sid :: sid in SameKey(old(db.View()), f.userId, f.key) ==>
      Repetition(h, old(db.View()), old(store.files), file, k, f, sid, db.View(), store.files, reply)
  {
    ghost var t, files := db.View(), store.files;
    if k.chunkSize > 0 && file.seekable {
      if f.rival == None && SameKey(t, f.userId, f.key) == {} {
        FirstSpelledOut(h, k, t, files, file, f);
      } else if SameKey(t, f.userId, f.key) == {} {
        BeatenSpelledOut(h, k, t, files, file, f);
      }
      forall sid | sid in SameKey(t, f.userId, f.key)
        ensures var e := Outcome(ConfigOf(h, k), t, Intruded(t, k, f), files, f.u, AskOf(file, k, f));
          e.pc.Answered? && Repetition(h, t, files, file, k, f, sid, e.tables, e.files, e.pc.reply)
      {
        RepetitionSpelledOut(h, k, t, files, file, f, sid);
      }
    }
    hide FirstRequest, Beaten, Repetition;
    IntrudedIsSound(h, k, t, files, f);
    OutcomeIsSound(h, k, t, Intruded(t, k, f), files, f.u, AskOf(file, k, f));
    RowsBelowNext(Intruded(t, k, f));
    var scan := InspectFileStream(h, file, f.name, k.chunkSize);
    if scan == ValueError {
      return Upload.ServerError;
    }
    hide Sound, TablesOk, FaultOf, Message, WriteOf, Incremental, Sha, Intruded;
    var found := FindByKey(db.View(), f.userId, f.key);
    if found.Some? {
      reply := TakeUp(db, store, h, file, k, f, found.value, scan.hash);
      return;
    }
    Intrude(db, k, f);
    reply := Insert(db, store, h, file, k, f, scan);
  }

  /** Another request inserts its row. */
  method Intrude(db: Database.Database, k: Settings, f: Form)
    requires TablesOk(db.View())
    modifies db
    ensures db.View() == Intruded(old(db.View()), k, f)
  {
    if f.rival.Some? {
      hide TablesOk;
      if f.rival.value.refused {
        var _ := db.InsertRejected(f.userId, f.key, "rival", f.rival.value.hash, f.stamp);
      } else {
        var _, _, _ := db.ReserveUpload(f.userId, f.key, f.rival.value.hash, f.now, k.uploadLease, f.stamp);
      }
    }
  }

  /** The key is taken. */
  method TakeUp<S(!new)>(db: Database.Database, store: ObjectStore, h: Hasher<S>, file: Stream, k: Settings, f: Form,
                         sid: nat, hash: string) returns (reply: Reply)
    requires file.Valid() && Incremental(h) && sid in db.rows && hash == Sha(h, file.content)
    modifies db, store, file
    ensures file.Valid()
    ensures Replied(db.View(), store.files, reply)
         == Taken(ConfigOf(h, k), old(db.View()), old(store.files), f.u, sid, AskOf(file, k, f))
  {
    hide WriteOf, FaultOf, Message, Incremental, Sha, Continued, Written;
    if db.rows[sid].fileHash != hash {
      return Upload.KeyConflict;
    }
    if db.rows[sid].status != Uploading {
      return Upload.Replayed;
    }
    reply := CompleteOrRecoverUpload(db, store, h, file, k, f, sid, hash, false);
  }

  /** The key was free at the look-up. */
  method Insert<S(!new)>(db: Database.Database, store: ObjectStore, h: Hasher<S>, file: Stream, k: Settings, f: Form,
                         scan: Scan)
    returns (reply: Reply)
    requires file.Valid() && Incremental(h) && TablesOk(db.View()) && db.nextId !in db.rows
    requires scan == Scanned(FaultOf(file.content, f.name), Sha(h, file.content), |file.content|)
    modifies db, store, file
    ensures file.Valid()
    ensures Replied(db.View(), store.files, reply)
         == Inserted(ConfigOf(h, k), old(db.View()), old(store.files), f.u, AskOf(file, k, f))
  {
    hide TablesOk, WriteOf, FaultOf, Message, Incremental, Sha, Taken, Written;
    if scan.fault != NoFault {
      var inserted := db.InsertRejected(f.userId, f.key, Message(scan.fault), scan.hash, f.stamp);
      var row := FindByKey(db.View(), f.userId, f.key);
      return if inserted == None && row.Some? && db.rows[row.value].fileHash != scan.hash then Upload.KeyConflict
             else Upload.Refused;
    }
    var sid, _, created := db.ReserveUpload(f.userId, f.key, scan.hash, f.now, k.uploadLease, f.stamp);
    if created {
      reply := CompleteOrRecoverUpload(db, store, h, file, k, f, sid, scan.hash, true);
    } else {
      reply := TakeUp(db, store, h, file, k, f, sid, scan.hash);
    }
  }

  // ----- what a request settles -----

  /** The key belongs to a row with this content that is no longer uploading. */
  ghost predicate Settled(t: Tables, userId: int, key: string, hash: string) {
    var found := FindByKey(t, userId, key);
    found.Some? && t.rows[found.value].fileHash == hash && t.rows[found.value].status != Uploading
  }

  lemma KeySettled(t: Tables, sid: nat)
    requires TablesOk(t) && sid in t.rows && t.rows[sid].status != Uploading
    ensures Settled(t, t.rows[sid].userId, t.rows[sid].idemKey, t.rows[sid].fileHash)
  {
    var r := t.rows[sid];
    assert sid in SameKey(t, r.userId, r.idemKey);
    var found := FindByKey(t, r.userId, r.idemKey).value;
    assert SameRequest(t.rows[found], r);
  }

  /** The row an outcome of the endpoint left submitted or refused. */
  lemma WrittenSettles(c: Upload.Config, t: Tables, files: Upload.Files, u: Thread, sid: nat, hash: string, ask: Ask)
    requires sid in t.rows
    ensures var e := Written(c, t, files, u, sid, hash, ask);
      && sid in e.tables.rows
      && var r, r' := t.rows[sid], e.tables.rows[sid];
      && (e.pc == Upload.Answered(Upload.Accepted) ==>
            r'.status == Pending && r'.fileHash == hash && r'.userId == r.userId && r'.idemKey == r.idemKey)
      && e.pc in {Upload.Answered(Upload.Accepted), Upload.Answered(Upload.ServerError)}
  {
  }

  lemma TakenSettles(c: Upload.Config, t: Tables, files: Upload.Files, u: Thread, sid: nat, ask: Ask)
    requires sid in t.rows
    ensures var e := Taken(c, t, files, u, sid, ask);
      && sid in e.tables.rows && e.pc != Upload.Answered(Upload.Refused)
      && var r, r' := t.rows[sid], e.tables.rows[sid];
      && (e.pc == Upload.Answered(Upload.Accepted) ==>
            r'.status == Pending && r'.fileHash == c.sha(ask.content) && r'.userId == r.userId
              && r'.idemKey == r.idemKey)
  {
    hide Written, SubmittedRow;
    var hash := c.sha(ask.content);
    var leased := t.rows[sid].(uploadLeaseUntil := ask.now + c.uploadLease, updatedAt := ask.stamp);
    WrittenSettles(c, WithRow(t, sid, leased), files, u, sid, hash, ask);
  }

  lemma OutcomeSettles(c: Upload.Config, t: Tables, later: Tables, files: Upload.Files, u: Thread, ask: Ask)
    requires later.nextId !in later.rows
    ensures var e := Outcome(c, t, later, files, u, ask);
      TablesOk(e.tables) && (e.pc == Upload.Answered(Upload.Accepted)
                             || (e.pc == Upload.Answered(Upload.Refused)
                                 && FindByKey(later, ask.userId, ask.key) == None)) ==>
        Settled(e.tables, ask.userId, ask.key, c.sha(ask.content))
  {
    hide Taken, Written, TablesOk, Settled;
    var e := Outcome(c, t, later, files, u, ask);
    var found := FindByKey(t, ask.userId, ask.key);
    var other := FindByKey(later, ask.userId, ask.key);
    var sid := if found.Some? then found.value else if other.Some? then other.value else later.nextId;
    if found.Some? {
      TakenSettles(c, t, files, u, sid, ask);
    } else if other.Some? {
      TakenSettles(c, later, files, u, sid, ask);
    } else if ask.valid {
      var row := FreshRow(ask.userId, ask.key, c.sha(ask.content), Uploading, ask.now + c.uploadLease, None, ask.stamp);
      WrittenSettles(c, WithRow(later, sid, row).(nextId := sid + 1), files, u, sid, c.sha(ask.content), ask);
    }
    if TablesOk(e.tables) && sid in e.tables.rows && e.tables.rows[sid].status != Uploading {
      KeySettled(e.tables, sid);
    }
  }

  /** A request that is accepted, or refused while nobody else took its key, settles the key. Under a settled key the
      same content is replayed and any other is a conflict, and neither changes anything, whatever the file is called,
      whatever the clock says and whoever else comes. */
  method SubmitSettles<S(!new)>(db: Database.Database, store: ObjectStore, h: Hasher<S>, file: Stream, k: Settings,
                                f: Form)
    returns (reply: Reply)
    requires file.Valid() && Incremental(h) && Sound(h, k, db.View(), store.files)
    modifies db, store, file
    ensures file.Valid() && Sound(h, k, db.View(), store.files)
    ensures reply == Upload.Accepted || (reply == Upload.Refused && f.rival == None) ==>
      Settled(db.View(), f.userId, f.key, Sha(h, file.content))
    ensures forall hash :: k.chunkSize > 0 && file.seekable && Settled(old(db.View()), f.userId, f.key, hash) ==>
      && reply == (if hash == Sha(h, file.content) then Upload.Replayed else Upload.KeyConflict)
      && db.View() == old(db.View()) && store.files == old(store.files)
  {
    ghost var t, files := db.View(), store.files;
    reply := HandleSubmit(db, store, h, file, k, f);
    ghost var later := Intruded(t, k, f);
    OutcomeSettles(ConfigOf(h, k), t, later, files, f.u, AskOf(file, k, f));
    assert TablesOk(db.View());
    hide Sound, TablesOk, Sha, Incremental, Extension, AllowedExt, FaultOf, Message, WriteOf, Continued, Written,
      FindByKey;
    RefusedAlone(ConfigOf(h, k), t, later, files, f.u, AskOf(file, k, f));
  }

  lemma RefusedAlone(c: Upload.Config, t: Tables, later: Tables, files: Upload.Files, u: Thread, ask: Ask)
    requires later.nextId !in later.rows
    ensures Outcome(c, t, later, files, u, ask).pc == Upload.Answered(Upload.Refused) ==>
      FindByKey(t, ask.userId, ask.key) == None
  {
    hide Taken, Inserted;
    var found := FindByKey(t, ask.userId, ask.key);
    if found.Some? {
      TakenSettles(c, t, files, u, found.value, ask);
    }
  }
}
