/** The whole system: one database, one object directory, any number of worker threads with their heartbeats and
    any number of request threads. An action is one atomic step of one of them; a run is any sequence of actions. */
module Protocol {
  import opened ObjectNames
  import opened TaskDb
  import opened Evolution
  import Worker
  import Upload

  type Config = Upload.Config

  /** A heartbeat thread renews exactly one (owner, task, generation) and may outlive the attempt it served. */
  datatype BeatKey = BeatKey(owner: string, sid: nat, generation: nat)
  datatype Beat = Beat(lost: bool, uncertain: bool, lastReading: real)

  datatype System = System(
    tables: Tables,
    files: Upload.Files,
    workers: map<string, Worker.Pc>,
    beats: map<BeatKey, Beat>,
    uploads: map<Thread, Upload.Pc>
  )

  datatype Action =
    | Work(w: string, act: Worker.Act)
    | Request(u: Thread, req: Upload.Act)
    | Renew(key: BeatKey, now: real, stamp: string)
    | RenewError(key: BeatKey, now: real, stamp: string, applied: bool)
    | Collect(f: FileName)
    | Adjust(userId: int, delta: real)

  function WorkerPc(s: System, w: string): Worker.Pc {
    if w in s.workers then s.workers[w] else Worker.Idle
  }

  function UploadPc(s: System, u: Thread): Upload.Pc {
    if u in s.uploads then s.uploads[u] else Upload.Ready
  }

  function KeyOf(w: string, t: Worker.Ticket): BeatKey {
    BeatKey(w, t.sid, t.generation)
  }

  /** The flag a worker consults before it commits. */
  predicate HeardLost(s: System, w: string) {
    var pc := WorkerPc(s, w);
    Worker.HasTicket(pc) && KeyOf(w, pc.t) in s.beats && s.beats[KeyOf(w, pc.t)].lost
  }

  function WorkStep(c: Config, s: System, w: string, act: Worker.Act): System {
    var pc := WorkerPc(s, w);
    var e := Worker.Step(c.processingLease, s.tables, w, pc, HeardLost(s, w), act);
    var beats := if act.ReadBack? && pc.Claimed? && e.pc.Holding?
                 then s.beats[KeyOf(w, e.pc.t) := Beat(false, false, pc.readAt)] else s.beats;
    s.(tables := e.tables, workers := s.workers[w := e.pc], beats := beats)
  }

  function UploadStep(c: Config, s: System, u: Thread, act: Upload.Act): System {
    var e := Upload.Step(c, s.tables, s.files, u, UploadPc(s, u), act);
    s.(tables := e.tables, files := e.files, uploads := s.uploads[u := e.pc])
  }

  function Renewal(c: Config, t: Tables, key: BeatKey, now: real, stamp: string): (Tables, bool) {
    RenewLease(t, key.sid, key.owner, key.generation, now, c.processingLease, stamp)
  }

  predicate Beating(s: System, key: BeatKey) {
    key in s.beats && !s.beats[key].lost
  }

  /** A renewal that answers: success clears the uncertainty, refusal is final and ends the thread. */
  function RenewStep(c: Config, s: System, key: BeatKey, now: real, stamp: string): System {
    if !Beating(s, key) then s
    else
      var (t, ok) := Renewal(c, s.tables, key, now, stamp);
      s.(tables := t, beats := s.beats[key := Beat(!ok, false, now)])
  }

  /** A renewal that raises: the thread only notes its uncertainty, whether or not the write took effect. */
  function RenewErrorStep(c: Config, s: System, key: BeatKey, now: real, stamp: string, applied: bool): System {
    if !Beating(s, key) then s
    else
      var t := if applied then Renewal(c, s.tables, key, now, stamp).0 else s.tables;
      s.(tables := t, beats := s.beats[key := Beat(false, true, now)])
  }

  /** The collector removes a file whose name ends in ".tmp"; the age test is left to the environment. */
  function CollectStep(s: System, f: FileName): System {
    if LooksTemporary(Render(f)) then s.(files := Upload.Without(s.files, f)) else s
  }

  function AdjustStep(s: System, userId: int, delta: real): System {
    s.(tables := Adjusted(s.tables, userId, delta))
  }

  function Step(c: Config, s: System, a: Action): System {
    match a
    case Work(w, act) => WorkStep(c, s, w, act)
    case Request(u, act) => UploadStep(c, s, u, act)
    case Renew(key, now, stamp) => RenewStep(c, s, key, now, stamp)
    case RenewError(key, now, stamp, applied) => RenewErrorStep(c, s, key, now, stamp, applied)
    case Collect(f) => CollectStep(s, f)
    case Adjust(userId, delta) => AdjustStep(s, userId, delta)
  }

  function Exec(c: Config, s: System, run: seq<Action>): System
    decreases |run|
  {
    if run == [] then s else Exec(c, Step(c, s, run[0]), run[1..])
  }

  /** An empty database and an empty directory, with any non-negative balances. */
  function Start(accounts: map<int, real>): System {
    System(Tables(map[], accounts, 1), map[], map[], map[], map[])
  }

  ghost predicate Solvent(accounts: map<int, real>) {
    forall u :: u in accounts ==> accounts[u] >= 0.0
  }

  // ----- the invariant -----

  /** A heartbeat's generation was handed out before, and never again to the same thread. */
  ghost predicate BeatOk(t: Tables, pc: Worker.Pc, k: BeatKey) {
    && k.sid in t.rows && Submitted(t.rows[k.sid].status)
    && 0 < k.generation <= t.rows[k.sid].generation
    && (pc.Claimed? && pc.sid == k.sid ==> k.generation < pc.newGeneration)
  }

  ghost predicate Inv(c: Config, s: System) {
    && TablesOk(s.tables)
    && Upload.StoreOk(c, s.tables, s.files)
    && (forall w :: w in s.workers ==> Worker.PcOk(s.tables, s.workers[w]))
    && (forall u :: u in s.uploads ==> Upload.PcOk(c, s.tables, s.files, u, s.uploads[u]))
    && (forall k :: k in s.beats ==> BeatOk(s.tables, WorkerPc(s, k.owner), k))
  }

  /** What one step of the system guarantees about the rows and the final objects. */
  ghost predicate Grows(c: Config, s: System, s': System) {
    && TablesEvolve(s.tables, s'.tables)
    && (forall sid :: Final(sid) in s.files ==>
          Final(sid) in s'.files && c.sha(s'.files[Final(sid)]) == c.sha(s.files[Final(sid)]))
  }

  lemma StartInv(c: Config, accounts: map<int, real>)
    requires Solvent(accounts)
    ensures Inv(c, Start(accounts))
  {
  }

  /** Actors that did not move keep their knowledge. */
  lemma OthersKeep(c: Config, s: System, t': Tables, files': Upload.Files)
    requires Inv(c, s) && TablesEvolve(s.tables, t')
    ensures forall w :: w in s.workers ==> Worker.PcOk(t', s.workers[w])
    ensures forall u :: u in s.uploads && Upload.FilesEvolve(c, s.files, files', u) ==>
      Upload.PcOk(c, t', files', u, s.uploads[u])
    ensures forall k :: k in s.beats ==> BeatOk(t', WorkerPc(s, k.owner), k)
  {
    hide TablesOk, TablesEvolve, Upload.StoreOk, Upload.PcOk, Upload.FilesEvolve, Worker.PcOk, BeatOk;
    forall w | w in s.workers ensures Worker.PcOk(t', s.workers[w]) {
      Worker.PcOkStable(s.tables, t', s.workers[w]);
    }
    forall u | u in s.uploads && Upload.FilesEvolve(c, s.files, files', u)
      ensures Upload.PcOk(c, t', files', u, s.uploads[u])
    {
      Upload.PcOkStable(c, s.tables, t', s.files, files', u, s.uploads[u]);
    }
    forall k | k in s.beats ensures BeatOk(t', WorkerPc(s, k.owner), k) {
      BeatStable(s.tables, t', WorkerPc(s, k.owner), k);
    }
  }

  lemma BeatStable(t: Tables, t': Tables, pc: Worker.Pc, k: BeatKey)
    requires BeatOk(t, pc, k) && TablesEvolve(t, t')
    ensures BeatOk(t', pc, k)
  {
  }

  lemma WorkInv(c: Config, s: System, w: string, act: Worker.Act)
    requires Inv(c, s)
    ensures Inv(c, WorkStep(c, s, w, act)) && Grows(c, s, WorkStep(c, s, w, act))
  {
    hide TablesOk, TablesEvolve, Upload.StoreOk, Upload.PcOk, Worker.Step, BeatOk;
    var pc := WorkerPc(s, w);
    var s' := WorkStep(c, s, w, act);
    Worker.StepOk(c.processingLease, s.tables, w, pc, HeardLost(s, w), act);
    Worker.NeverSubmits(c.processingLease, s.tables, w, pc, HeardLost(s, w), act);
    hide Worker.PcOk;
    Upload.FilesSame(c, s.files);
    OthersKeep(c, s, s'.tables, s.files);
    Upload.StoreOkStable(c, s.tables, s'.tables, s.files);
    forall k | k in s'.beats ensures BeatOk(s'.tables, WorkerPc(s', k.owner), k) {
      if k in s.beats {
        Worker.ClaimIsNew(c.processingLease, s.tables, w, pc, HeardLost(s, w), act);
        OldBeat(s.tables, s'.tables, WorkerPc(s, k.owner), WorkerPc(s', k.owner), k);
      } else {
        NewBeat(s'.tables, w, WorkerPc(s', w));
      }
    }
  }

  lemma OldBeat(t: Tables, t': Tables, pc: Worker.Pc, pc': Worker.Pc, k: BeatKey)
    requires BeatOk(t, pc, k) && TablesEvolve(t, t')
    requires pc'.Claimed? && pc' != pc ==> pc'.sid in t.rows && pc'.newGeneration == t.rows[pc'.sid].generation + 1
    ensures BeatOk(t', pc', k)
  {
  }

  lemma NewBeat(t: Tables, w: string, pc: Worker.Pc)
    requires Worker.PcOk(t, pc) && pc.Holding?
    ensures BeatOk(t, pc, KeyOf(w, pc.t))
  {
  }

  lemma UploadInv(c: Config, s: System, u: Thread, act: Upload.Act)
    requires Inv(c, s)
    ensures Inv(c, UploadStep(c, s, u, act)) && Grows(c, s, UploadStep(c, s, u, act))
  {
    hide TablesOk, TablesEvolve, Upload.StoreOk, Upload.Step, Upload.PcOk, Worker.PcOk, BeatOk;
    var pc := UploadPc(s, u);
    var s' := UploadStep(c, s, u, act);
    UploadReadyOk(c, s, u);
    Upload.PcStep(c, s.tables, s.files, u, pc, act);
    if Upload.WritesTables(act) {
      Upload.WritingStep(c, s.tables, s.files, u, pc, act);
      Upload.StoreOkStable(c, s.tables, s'.tables, s.files);
    } else {
      Upload.FileStep(c, s.tables, s.files, u, pc, act);
      TablesReflexive(s.tables);
    }
    OthersKeep(c, s, s'.tables, s'.files);
  }

  lemma UploadReadyOk(c: Config, s: System, u: Thread)
    requires Inv(c, s)
    ensures Upload.PcOk(c, s.tables, s.files, u, UploadPc(s, u))
  {
  }

  lemma RenewGood(c: Config, t: Tables, files: Upload.Files, key: BeatKey, now: real, stamp: string)
    requires TablesOk(t)
    ensures Upload.GoodWrite(t, Renewal(c, t, key, now, stamp).0, files)
  {
    TablesReflexive(t);
    if Fenced(t, key.sid, key.owner, key.generation, now) {
      RowReplaced(t, key.sid, t.rows[key.sid].(leaseUntil := LeaseEnd(now, c.processingLease), updatedAt := stamp));
    }
  }

  lemma RenewInv(c: Config, s: System, a: Action)
    requires Inv(c, s) && (a.Renew? || a.RenewError?)
    ensures Inv(c, Step(c, s, a)) && Grows(c, s, Step(c, s, a))
  {
    hide TablesOk, TablesEvolve, Upload.StoreOk, Upload.PcOk, Worker.PcOk, BeatOk, Renewal, Upload.SubmitsOnlyStored;
    var s' := Step(c, s, a);
    Upload.NoWrite(s.tables, s.files);
    RenewGood(c, s.tables, s.files, a.key, a.now, a.stamp);
    Upload.FilesSame(c, s.files);
    OthersKeep(c, s, s'.tables, s.files);
    Upload.StoreOkStable(c, s.tables, s'.tables, s.files);
  }

  lemma CollectInv(c: Config, s: System, f: FileName)
    requires Inv(c, s)
    ensures Inv(c, CollectStep(s, f)) && Grows(c, s, CollectStep(s, f))
  {
    TemporaryIffTemp(f);
    hide LooksTemporary, Render, TablesOk, Worker.PcOk, Upload.PcOk, BeatOk;
    TablesReflexive(s.tables);
    OthersKeep(c, s, s.tables, CollectStep(s, f).files);
  }

  lemma AdjustInv(c: Config, s: System, userId: int, delta: real)
    requires Inv(c, s)
    ensures Inv(c, AdjustStep(s, userId, delta)) && Grows(c, s, AdjustStep(s, userId, delta))
  {
    hide Worker.PcOk, Upload.PcOk, BeatOk;
    var s' := AdjustStep(s, userId, delta);
    TablesReflexive(s.tables);
    assert s'.tables.rows == s.tables.rows;
    Upload.FilesSame(c, s.files);
    OthersKeep(c, s, s'.tables, s.files);
  }

  /** Every step of every actor keeps the invariant. */
  lemma StepInv(c: Config, s: System, a: Action)
    requires Inv(c, s)
    ensures Inv(c, Step(c, s, a)) && Grows(c, s, Step(c, s, a))
  {
    hide Inv, Grows;
    match a
    case Work(w, act) => WorkInv(c, s, w, act);
    case Request(u, act) => UploadInv(c, s, u, act);
    case Renew(_, _, _) => RenewInv(c, s, a);
    case RenewError(_, _, _, _) => RenewInv(c, s, a);
    case Collect(f) => CollectInv(c, s, f);
    case Adjust(userId, delta) => AdjustInv(c, s, userId, delta);
  }

  /** Whatever the interleaving, the crashes and the clock readings, the invariant holds after every run. */
  lemma {:induction false} RunInv(c: Config, s: System, run: seq<Action>)
    requires Inv(c, s)
    ensures Inv(c, Exec(c, s, run))
    decreases |run|
  {
    if run != [] {
      StepInv(c, s, run[0]);
      RunInv(c, Step(c, s, run[0]), run[1..]);
    }
  }

  lemma {:induction false} ExecConcat(c: Config, s: System, a: seq<Action>, b: seq<Action>)
    ensures Exec(c, s, a + b) == Exec(c, Exec(c, s, a), b)
    decreases |a|
  {
    if a == [] {
      assert a + b == b;
    } else {
      hide Step;
      assert (a + b)[1..] == a[1..] + b;
      ExecConcat(c, Step(c, s, a[0]), a[1..], b);
    }
  }

  lemma ExecLast(c: Config, s: System, run: seq<Action>, a: Action)
    ensures Exec(c, s, run + [a]) == Step(c, Exec(c, s, run), a)
  {
    ExecConcat(c, s, run, [a]);
    hide Step;
    assert Exec(c, Exec(c, s, run), [a]) == Exec(c, Step(c, Exec(c, s, run), a), []);
  }
}
