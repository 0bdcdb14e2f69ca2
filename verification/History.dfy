/** Counts over runs. An event is recognised by looking at a row before and after one step, so nothing in the
    system keeps score of itself. */
module History {
  import opened Common
  import opened ObjectNames
  import opened Tasks
  import opened TaskDb
  import opened Evolution
  import opened Protocol
  import Worker
  import Upload

  datatype Event = Submission | Claim | Takeover | Exit | Failure | Block | Starvation | Finish | Charge

  /** The way out of `processing` that the action attempts for `sid`. */
  function AttemptOf(s: System, a: Action, sid: nat): Worker.Attempt {
    if a.Work? then Worker.AttemptOn(WorkerPc(s, a.w), a.act, sid) else Worker.NoExit
  }

  /** The event, recognised from the row before, the row after and the attempt that was made. */
  predicate Shows(e: Event, r: Row, r': Row, attempt: Worker.Attempt) {
    var exits := r.status == Processing && r'.status != Processing;
    match e
    case Submission => r.status == Uploading && r'.status == Pending
    case Claim => r'.generation != r.generation
    case Takeover => r.status == Processing && r'.generation != r.generation
    case Exit => exits
    case Failure => exits && attempt.FailedTry?
    case Block => exits && attempt.ControlBlock?
    case Starvation => exits && r'.status == Arrears
    case Finish => r.status != Done && r'.status == Done
    case Charge => exits && attempt == Worker.Finish(true)
  }

  predicate Occurs(c: Config, s: System, a: Action, sid: nat, e: Event) {
    var t' := Step(c, s, a).tables;
    && sid in s.tables.rows && sid in t'.rows
    && Shows(e, s.tables.rows[sid], t'.rows[sid], AttemptOf(s, a, sid))
  }

  function Count(c: Config, s: System, run: seq<Action>, sid: nat, e: Event): nat
    decreases |run|
  {
    if run == [] then 0
    else (if Occurs(c, s, run[0], sid, e) then 1 else 0) + Count(c, Step(c, s, run[0]), run[1..], sid, e)
  }

  // ----- what the row shows -----

  function GenerationOf(s: System, sid: nat): nat {
    if sid in s.tables.rows then s.tables.rows[sid].generation else 0
  }

  function RetriesOf(s: System, sid: nat): nat {
    if sid in s.tables.rows then s.tables.rows[sid].retryCount else 0
  }

  function One(b: bool): nat {
    if b then 1 else 0
  }

  predicate InStatus(s: System, sid: nat, st: Status) {
    sid in s.tables.rows && s.tables.rows[sid].status == st
  }

  /** Not submitted yet: no row, or a row still uploading. */
  predicate Early(s: System, sid: nat) {
    sid !in s.tables.rows || s.tables.rows[sid].status == Uploading
  }

  lemma WorkOnRow(c: Config, s: System, w: string, act: Worker.Act, sid: nat)
    requires Inv(c, s) && sid in s.tables.rows
    ensures Worker.RowAchieves(Worker.AttemptOn(WorkerPc(s, w), act, sid), s.tables, WorkStep(c, s, w, act).tables, sid)
  {
    IdleOk(c, s, w);
    hide TablesOk, Worker.Step, Worker.AttemptOn, Worker.RowAchieves, Worker.PcOk;
    Worker.StepAchieves(c.processingLease, s.tables, w, WorkerPc(s, w), HeardLost(s, w), act, sid);
  }

  lemma OtherOnRow(c: Config, s: System, a: Action, sid: nat)
    requires sid in s.tables.rows && !a.Work? && !a.Request?
    ensures Worker.RowAchieves(Worker.NoExit, s.tables, Step(c, s, a).tables, sid)
  {
    hide WorkStep, UploadStep;
  }

  /** Every action moves a row along an allowed edge, and does to it only what its attempt says. */
  lemma StepOnRow(c: Config, s: System, a: Action, sid: nat)
    requires Inv(c, s) && sid in s.tables.rows
    ensures var t' := Step(c, s, a).tables;
      && sid in t'.rows && Evolves(s.tables.rows[sid], t'.rows[sid])
      && Worker.RowAchieves(AttemptOf(s, a, sid), s.tables, t', sid)
  {
    hide Inv, Evolves, Worker.AttemptOn, Worker.RowAchieves, WorkStep, UploadStep, RenewStep, RenewErrorStep,
         CollectStep, AdjustStep;
    StepInv(c, s, a);
    if a.Work? {
      WorkOnRow(c, s, a.w, a.act, sid);
    } else if a.Request? {
      UploadOnRow(c, s, a.u, a.req, sid);
    } else {
      OtherOnRow(c, s, a, sid);
    }
  }

  lemma UploadOnRow(c: Config, s: System, u: Thread, act: Upload.Act, sid: nat)
    requires Inv(c, s) && sid in s.tables.rows
    ensures Worker.RowAchieves(Worker.NoExit, s.tables, UploadStep(c, s, u, act).tables, sid)
  {
    UploadReadyOk(c, s, u);
    hide TablesOk, Upload.StoreOk, Upload.Step, Upload.PcOk, Worker.PcOk, BeatOk, Upload.LeavesProcessing;
    Upload.StepOnRow(c, s.tables, s.files, u, UploadPc(s, u), act, sid);
    NoExitFrom(s.tables, UploadStep(c, s, u, act).tables, sid);
  }

  /** A request thread never touches a row that is being processed, and hands out no generation. */
  lemma UploadLeavesAttempt(c: Config, s: System, u: Thread, act: Upload.Act, sid: nat)
    requires Inv(c, s) && sid in s.tables.rows
    ensures var t' := UploadStep(c, s, u, act).tables;
      && sid in t'.rows && t'.rows[sid].generation == s.tables.rows[sid].generation
      && (s.tables.rows[sid].status == Processing ==> t'.rows[sid] == s.tables.rows[sid])
  {
    UploadReadyOk(c, s, u);
    hide TablesOk, Upload.StoreOk, Upload.Step, Upload.PcOk, Worker.PcOk, BeatOk;
    Upload.StepOnRow(c, s.tables, s.files, u, UploadPc(s, u), act, sid);
  }

  lemma NoExitFrom(t: Tables, t': Tables, sid: nat)
    requires Upload.LeavesProcessing(t, t', sid)
    ensures Worker.RowAchieves(Worker.NoExit, t, t', sid)
  {
  }

  lemma IdleOk(c: Config, s: System, w: string)
    requires Inv(c, s)
    ensures Worker.PcOk(s.tables, WorkerPc(s, w))
  {
  }

  // ----- the ledger of one task -----

  /** How one step moves what the row shows, in terms of the events of that step. */
  ghost predicate Balanced(c: Config, s: System, a: Action, sid: nat) {
    var s' := Step(c, s, a);
    && GenerationOf(s', sid) == GenerationOf(s, sid) + One(Occurs(c, s, a, sid, Claim))
    && RetriesOf(s', sid) == RetriesOf(s, sid) + One(Occurs(c, s, a, sid, Failure))
    && One(InStatus(s', sid, Processing)) + One(Occurs(c, s, a, sid, Exit)) + One(Occurs(c, s, a, sid, Takeover))
       == One(InStatus(s, sid, Processing)) + One(Occurs(c, s, a, sid, Claim))
    && One(Occurs(c, s, a, sid, Exit))
       == One(Occurs(c, s, a, sid, Failure)) + One(Occurs(c, s, a, sid, Block))
        + One(Occurs(c, s, a, sid, Starvation)) + One(Occurs(c, s, a, sid, Finish))
    && One(InStatus(s', sid, Done)) == One(InStatus(s, sid, Done)) + One(Occurs(c, s, a, sid, Finish))
    && One(Early(s', sid)) + One(Occurs(c, s, a, sid, Submission)) <= One(Early(s, sid))
    && One(Occurs(c, s, a, sid, Charge)) <= One(Occurs(c, s, a, sid, Finish))
  }

  lemma RowBalanced(r: Row, r': Row, k: Worker.Attempt)
    requires Evolves(r, r') && (r' == r || Worker.Achieves(k, r, r'))
    ensures r'.generation == r.generation + One(Shows(Claim, r, r', k))
    ensures r'.retryCount == r.retryCount + One(Shows(Failure, r, r', k))
    ensures One(r'.status == Processing) + One(Shows(Exit, r, r', k)) + One(Shows(Takeover, r, r', k))
         == One(r.status == Processing) + One(Shows(Claim, r, r', k))
    ensures One(Shows(Exit, r, r', k)) == One(Shows(Failure, r, r', k)) + One(Shows(Block, r, r', k))
                                        + One(Shows(Starvation, r, r', k)) + One(Shows(Finish, r, r', k))
    ensures One(r'.status == Done) == One(r.status == Done) + One(Shows(Finish, r, r', k))
    ensures One(r'.status == Uploading) + One(Shows(Submission, r, r', k)) <= One(r.status == Uploading)
    ensures Shows(Charge, r, r', k) ==> Shows(Finish, r, r', k)
  {
  }

  lemma StepBalanced(c: Config, s: System, a: Action, sid: nat)
    requires Inv(c, s)
    ensures Balanced(c, s, a, sid)
  {
    hide Inv, Step, Shows, Evolves, Worker.Achieves, AttemptOf;
    if sid in s.tables.rows {
      StepOnRow(c, s, a, sid);
      RowBalanced(s.tables.rows[sid], Step(c, s, a).tables.rows[sid], AttemptOf(s, a, sid));
    } else {
      StepInv(c, s, a);
    }
  }

  /** How a run moves what the row shows of its attempts. */
  lemma {:induction false} RunBalanced(c: Config, s: System, run: seq<Action>, sid: nat)
    requires Inv(c, s)
    ensures var e := Exec(c, s, run);
      && GenerationOf(e, sid) == GenerationOf(s, sid) + Count(c, s, run, sid, Claim)
      && RetriesOf(e, sid) == RetriesOf(s, sid) + Count(c, s, run, sid, Failure)
      && One(InStatus(e, sid, Processing)) + Count(c, s, run, sid, Exit) + Count(c, s, run, sid, Takeover)
         == One(InStatus(s, sid, Processing)) + Count(c, s, run, sid, Claim)
    decreases |run|
  {
    if run != [] {
      hide Inv, Step, Occurs, GenerationOf, RetriesOf, InStatus, Early, One;
      StepInv(c, s, run[0]);
      StepBalanced(c, s, run[0], sid);
      RunBalanced(c, Step(c, s, run[0]), run[1..], sid);
    }
  }

  /** How a run moves what the row shows of its endings. */
  lemma {:induction false} RunEnds(c: Config, s: System, run: seq<Action>, sid: nat)
    requires Inv(c, s)
    ensures var e := Exec(c, s, run);
      && Count(c, s, run, sid, Exit)
         == Count(c, s, run, sid, Failure) + Count(c, s, run, sid, Block)
          + Count(c, s, run, sid, Starvation) + Count(c, s, run, sid, Finish)
      && One(InStatus(e, sid, Done)) == One(InStatus(s, sid, Done)) + Count(c, s, run, sid, Finish)
      && One(Early(e, sid)) + Count(c, s, run, sid, Submission) <= One(Early(s, sid))
      && Count(c, s, run, sid, Charge) <= Count(c, s, run, sid, Finish)
    decreases |run|
  {
    if run != [] {
      hide Inv, Step, Occurs, GenerationOf, RetriesOf, InStatus, Early, One;
      StepInv(c, s, run[0]);
      StepBalanced(c, s, run[0], sid);
      RunEnds(c, Step(c, s, run[0]), run[1..], sid);
    }
  }

  // ----- theorems over all runs from the empty system -----

  /** However often a submission is retried, taken over or interrupted, it moves from `uploading` to `pending` at
      most once, is finished at most once and is charged at most once. */
  lemma OnceOnly(c: Config, accounts: map<int, real>, run: seq<Action>, sid: nat)
    requires Solvent(accounts)
    ensures Count(c, Start(accounts), run, sid, Submission) <= 1
    ensures Count(c, Start(accounts), run, sid, Finish) <= 1
    ensures Count(c, Start(accounts), run, sid, Charge) <= 1
  {
    StartInv(c, accounts);
    RunEnds(c, Start(accounts), run, sid);
  }

  /** Two rows of one (user, idempotency key) are the same row, in every reachable state. */
  lemma OneRowPerKey(c: Config, accounts: map<int, real>, run: seq<Action>, a: nat, b: nat)
    requires Solvent(accounts)
    requires var rows := Exec(c, Start(accounts), run).tables.rows;
      a in rows && b in rows && SameRequest(rows[a], rows[b])
    ensures a == b
  {
    StartInv(c, accounts);
    RunInv(c, Start(accounts), run);
  }

  /** No retry is lost or counted twice, although a worker writes the number it read at claim time: the column is
      the number of failed recognitions committed, is below the limit outside the dead-letter queue and equals the
      limit inside it. Takeovers, control blocks and quota waits leave it alone. */
  lemma RetriesAreFailures(c: Config, accounts: map<int, real>, run: seq<Action>, sid: nat)
    requires Solvent(accounts)
    ensures var e := Exec(c, Start(accounts), run);
      && RetriesOf(e, sid) == Count(c, Start(accounts), run, sid, Failure) <= 3
      && (RetriesOf(e, sid) == 3 <==> InStatus(e, sid, Dlq))
  {
    StartInv(c, accounts);
    RunInv(c, Start(accounts), run);
    RunBalanced(c, Start(accounts), run, sid);
  }

  /** The generation counts the claims; every claim ended in an exit, was taken over, or is still running. */
  lemma GenerationIsClaims(c: Config, accounts: map<int, real>, run: seq<Action>, sid: nat)
    requires Solvent(accounts)
    ensures var s, e := Start(accounts), Exec(c, Start(accounts), run);
      && GenerationOf(e, sid) == Count(c, s, run, sid, Claim)
      && GenerationOf(e, sid) == Count(c, s, run, sid, Exit) + Count(c, s, run, sid, Takeover)
                               + One(InStatus(e, sid, Processing))
  {
    StartInv(c, accounts);
    RunBalanced(c, Start(accounts), run, sid);
  }

  /** A task is claimed at most three times beyond its takeovers, control blocks and quota waits; and after three
      such claims it is either still being processed or has reached a final status. */
  lemma ClaimsAreBounded(c: Config, accounts: map<int, real>, run: seq<Action>, sid: nat)
    requires Solvent(accounts)
    ensures var s, e := Start(accounts), Exec(c, Start(accounts), run);
      var spared := Count(c, s, run, sid, Takeover) + Count(c, s, run, sid, Block) + Count(c, s, run, sid, Starvation);
      && Count(c, s, run, sid, Claim) <= 3 + spared
      && (Count(c, s, run, sid, Claim) == 3 + spared ==>
            InStatus(e, sid, Processing) || InStatus(e, sid, Done) || InStatus(e, sid, Dlq))
  {
    StartInv(c, accounts);
    RunInv(c, Start(accounts), run);
    RunBalanced(c, Start(accounts), run, sid);
    RunEnds(c, Start(accounts), run, sid);
  }

  // ----- legal changes -----

  /** Every change of status in every run is an edge of the table, and a final row never changes again. */
  lemma ChangesAreLegal(c: Config, accounts: map<int, real>, run: seq<Action>, a: Action, sid: nat)
    requires Solvent(accounts)
    requires sid in Exec(c, Start(accounts), run).tables.rows
    ensures var s := Exec(c, Start(accounts), run);
      var t' := Step(c, s, a).tables;
      && sid in t'.rows
      && var r, r' := s.tables.rows[sid], t'.rows[sid];
      && (r'.status == r.status
          || (r.status, r'.status) in {(Uploading, Pending), (Pending, Processing), (Processing, Done),
                                       (Processing, Pending), (Processing, Dlq), (Processing, Arrears),
                                       (Arrears, Pending)})
      && (r.status in {Done, Dlq, Rejected} ==> r' == r)
      && r'.userId == r.userId && r'.idemKey == r.idemKey && r'.fileHash == r.fileHash
  {
    StartInv(c, accounts);
    RunInv(c, Start(accounts), run);
    StepOnRow(c, Exec(c, Start(accounts), run), a, sid);
  }

  /** In every reachable state: an owner exactly while processing, no lease outside the status it belongs to, and
      an object key exactly after submission. */
  lemma RowsAreConsistent(c: Config, accounts: map<int, real>, run: seq<Action>, sid: nat)
    requires Solvent(accounts)
    requires sid in Exec(c, Start(accounts), run).tables.rows
    ensures var r := Exec(c, Start(accounts), run).tables.rows[sid];
      && (r.status == Processing <==> r.owner.Some?)
      && (r.status != Processing ==> r.leaseUntil == 0.0)
      && (r.status != Uploading ==> r.uploadLeaseUntil == 0.0)
      && (r.status in {Uploading, Rejected} ==> r.objectKey == None && r.generation == 0)
      && (r.status !in {Uploading, Rejected} ==> r.objectKey == Some(ObjectKey(sid)))
  {
    StartInv(c, accounts);
    RunInv(c, Start(accounts), run);
  }
}
