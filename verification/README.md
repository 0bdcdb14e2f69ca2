# Verification of the screenshot-check task lifecycle

A Dafny model of the service that accepts screenshots, stores them, lets workers recognise the system version in them
and bills the calls to an external recogniser; and proofs of what its data layer, workers, uploads, cache, provider
control and resource limits promise.

The centre is a step system (`Protocol.dfy`). One database, one object directory, any number of worker threads with
their heartbeats, and any number of request threads interleave freely. Each SQL statement or write transaction, each
file operation and each decision between them is a step of its own, an actor may stop for good between any two steps,
temporary files may vanish at any time, and every clock reading is an arbitrary number unless a statement says
otherwise. A *run* is any sequence of steps from an empty database with any non-negative balances. Nothing in the
system keeps score: claims, failures, finishes and charges are recognised by comparing a row before and after a step
(`History.dfy`).

## How the files fit together

- `Common`, `Tasks`, `ObjectNames`: optional values, rows and the transition table, file names.
- `TaskDb`: one function per SQL statement or transaction. `Database`: the same statements as methods of an object.
- `Evolution`: what a row always satisfies and how a step may change it (the rely and guarantee of every actor).
- `Worker`, `Upload`: one worker thread and one request thread as program counters over those statements
  (`worker.py:118-305`, `app.py:166-249`, `app.py:434-481`, `object_store.py:106-167`).
- `Protocol`: all actors together, the invariant and its preservation by every step.
- `History`, `Fencing`, `Credits`, `Heartbeats`, `Recovery`, `Cache`: theorems over all runs.
- `HandleOne`, `LeaseHeartbeat`, `Arrears`, `Submit`: the worker's attempt with its heartbeat, the recovery from
  arrears and the submit endpoint as imperative code on the database and store objects, and what each amounts to.
- `Runs`, `AttemptRuns`, `Requests`: that this code is a run of the step system, from any state in which its thread is
  free. `Progress`: what holds of an attempt however it is disturbed.
- `Scenarios`: runs from the empty system that reach each of the states the findings below are about.
- `Streaming`, `LimitedReader`: chunked scanning and writing, and the bounded request body.
- `Recognize`, `Provider`: versions, failure classes, and the incident machine of the external provider.
- `RequestSlots`, `ConnectionPool`: the two concurrent resource counters.

## What the model assumes

- SHA-256 is an arbitrary function of the content. The incremental hasher obeys two laws: feeding two pieces is
  feeding their concatenation, and feeding nothing changes nothing. Claims about stored objects are equalities of
  hashes.
- Live worker threads have distinct owner names, and live writers distinct (process, thread) identities.
- Balances and times are real numbers. Balances are any non-negative reals; whole-unit balances are required only
  where a statement says so.
- Opening and closing a provider incident are taken one at a time.
- A connection that is returned to the pool has no open transaction. `connection()` (`db.py:53-59`) does not roll back,
  and an integrity error in `insert_rejected` (`db.py:326-336`) leaves one open; the model takes each statement or
  transaction as one atomic step on the committed database.
- A failed `_new()` in the connection pool is kept as a lost slot, and a watchdog that cannot be started as a leak.

## Findings

Each comes with its exact condition and with a run that starts from the empty system.

- With credits left strictly between zero and the price of a call, a task whose external call succeeded stays in
  `processing` until its lease lapses; while the heartbeat keeps up this, or a top-up between a refused commit and the
  look at the credits after it, is the only way to stay there (`HandleOne.StuckIffFraction`,
  `Scenarios.HalfACreditSticks`).
- The recovery from arrears only looks at the lowest task that waits, so a funded task can wait for ever behind an
  unfunded one (`Arrears.QueuedAgainIffLowest`, `Arrears.FundedTaskCanStarve`, `Scenarios.FundedTaskStarves`).
- A handler thread whose watchdog cannot be started keeps its slot; the full capacity comes back exactly when that
  never happens (`RequestSlots.EverySlotComesBack`, `RequestSlots.OneLeakHappens`).
- `record_event` accepts the stage `closed` for an incident that was never opened, so the order of the audit trail
  holds exactly when no such note comes early (`Provider.ClosedComesLast`, `Provider.NoteCanPrecedeContainment`).
- The row a claim returns is read after the commit and may already belong to the next claimant. The fence survives
  that, but only because it tests the owner as well as the generation (`Fencing.OwnerTestIsNeeded`,
  `Fencing.GenerationTestIsNeeded`, `Scenarios.OwnerRaceHappens`, `Scenarios.StaleHeartbeatHappens`).
- An upload that finishes late may move its task from `arrears` back to `pending` without looking at the credits, since
  `arrears -> pending` is an edge of the table (`Recovery.MovesOn`, `Scenarios.LateUploadRequeues`).
- A renewal that raises decides nothing: afterwards the commit of the same attempt may pass or fail
  (`Scenarios.UncertainMayPass`, `Scenarios.UncertainMayFail`).

## Model

| member | source | states |
|---|---|---|
| `Protocol.StepInv` | worker.py:118-290 | every step of every worker, heartbeat, request thread, collector and outside adjustment keeps the invariant: legal rows, one row per key, no negative balance, every final object with the fingerprint of its row, every submitted row with its object; and no final object changes its hash |
| `Protocol.RunInv` | db.py:355-521 | the invariant holds after every run, for any interleaving, any crashes and any clock readings |
| `History.OnceOnly` | app.py:437-481 | in every run a submission moves from `uploading` to `pending` at most once, is finished at most once and charged at most once |
| `History.OneRowPerKey` | db.py:192 | in every reachable state two rows of one user and idempotency key are the same row |
| `History.RetriesAreFailures` | worker.py:182-238 | although a worker writes the number it read at claim time, `retry_count` is the number of failed recognitions committed, is at most the limit, and equals it exactly in the dead-letter queue |
| `History.GenerationIsClaims` | db.py:355-407 | `processing_generation` is the number of claims, and the claims are the exits plus the takeovers plus the one still running |
| `History.ClaimsAreBounded` | worker.py:204-238 | a task is claimed at most three times beyond its takeovers, control blocks and quota waits; when that bound is reached it is being processed, done, or in the dead-letter queue |
| `History.ChangesAreLegal` | state_machine.py:19-66 | every status change of every run is an edge of the table, although a transition reads first and later compares the status alone; a terminal row never changes again, and user, key and fingerprint never change |
| `History.RowsAreConsistent` | db.py:429-455 | in every reachable state a row has an owner exactly while processing, no lease outside the status it belongs to, and an object key exactly when submitted |
| `History.StepOnRow` | worker.py:182-290 | one step of anybody changes a row along an allowed edge and exactly as the attempted exit says: only a failed recognition costs a retry, and exactly one |
| `Tasks.SinksAreTerminal` | app.py:33 | the statuses without outgoing edge are exactly those the cache treats as terminal |
| `Fencing.FenceAdmitsLastClaimant` | db.py:405-455 | in every reachable state a fenced write can pass only for the thread whose claim was the last to succeed and only under the generation that claim handed out, so for at most one pair, whatever its clock says |
| `Fencing.FenceIsSound` | worker.py:118-126 | an attempt in progress whose ticket can pass the fence carries the generation its own thread's last claim handed out, never one read back from another claimant's row, and its claim-time snapshot of user and retry count equals the row |
| `Fencing.OwnerTestIsNeeded` | db.py:405-407 | six steps lead from any database with one waiting task to two workers holding the same current generation, of which only the owner test tells the stale one |
| `Fencing.GenerationTestIsNeeded` | worker.py:98-101 | six steps lead to a running heartbeat of a given-up attempt under the current owner's name, which only the generation test keeps out |
| `Fencing.ClaimInstallsOwner` | db.py:381-400 | whenever a worker's step raises the generation, the row's owner is that worker |
| `Fencing.OnlyWorkersClaim` | state_machine.py:34-66 | no step of a request thread, heartbeat, collector or adjustment hands out a generation |
| `LeaseHeartbeat.ProcessingLeaseHeartbeat.RenewOnce` | worker.py:60-91 | only a refusal sets `lost`, and a renewal is refused exactly when the fence is closed; an exception, before or after the write, only means `uncertain` until the next answer; a renewal that is answered holds the row for the lease asked for |
| `LeaseHeartbeat.ProcessingLeaseHeartbeat.Run` | worker.py:93-96 | the loop renews at each interval and ends for good at the first refusal; tables and `lost` are those of the renewals taken in turn |
| `LeaseHeartbeat.OnlyRefusalStops` | worker.py:60-96 | after any renewals, answered or raising, the next one is made as long as none was refused, and what it does then depends on the fence alone |
| `Heartbeats.LostIsFinal` | worker.py:60-96 | once a renewal is refused at some reading, in no continuation of the run can a fenced write of that owner and generation with that or a later reading pass |
| `Heartbeats.UncertainIsOpen` | worker.py:60-76 | what one renewal that raises leaves as it was, applied or not: no verdict, an open fence up to the renewed lease, and everything if the fence was closed; the two runs it leaves open are `Scenarios.UncertainMayPass` and `Scenarios.UncertainMayFail` |
| `Heartbeats.OnlyItsBeat` | db.py:410-426 | within one attempt a row is touched only by the heartbeat of its own owner and generation |
| `Heartbeats.LeaseOnlyGrows` | db.py:410-426 | when the readings along claim, heartbeat start and renewals never go back, the lease never shrinks within one attempt |
| `Credits.CreditsAreConserved` | db.py:458-521 | after every run a balance is the initial one plus the adjustments let through minus one call for each of the user's tasks finished against payment, and never negative |
| `Credits.FinalizeIsAtomic` | db.py:487-521 | the finalize moves status and money together or changes nothing, succeeds exactly when the fence is open and the credits suffice, and bills the row's own user |
| `Credits.StepConserves` | db.py:180-191 | one step changes a balance only by an adjustment or by finishing a task of that user |
| `Credits.DoneIsNotPaid` | db.py:458-521 | a finished task is never paid again in any continuation |
| `Credits.PaidAreCharged` | db.py:458-521 | the tasks a balance has paid for are the user's tasks whose history counts one charge, and every charge comes from such a finish |
| `Recovery.ObjectBeforeTask` | app.py:166-234 | in every reachable state a submitted row has its complete object under its stable key with the fingerprint of the row; no mutual exclusion between writers is used |
| `Recovery.ObjectIsFinal` | object_store.py:131-167 | once installed, an object keeps its hash for the rest of every run, and its row keeps its fingerprint |
| `Recovery.DefensiveBranchesUnreachable` | app.py:175-226 | in no run does a request answer that the stored object conflicts with the fingerprint, or find that its upload cannot advance to `pending` |
| `Recovery.UploadRecovers` | app.py:175-225 | from any reachable unfinished upload, repeating the same request once without interruption, in any chunks, reaches `pending` if and only if the object is already in place, or the lease has lapsed and the file name is allowed |
| `Recovery.BreaksAbort` | app.py:214-233 | whatever breaks a write, an exception anywhere from the opening of the temporary file to the last look at the row, another hash, or a collected temporary file, leads to the handler that gives up, with rows and final objects as they were |
| `Recovery.AbortThenRetry` | app.py:227-233 | in any run, once that handler has given up, the row is still `uploading` with a lease that ended at zero, and one uninterrupted repetition under an allowed name reaches `pending` at any reading from zero on |
| `Recovery.MovesOn` | state_machine.py:34-66 | what the last two steps of an upload do for each status of the row: `uploading` and also `arrears` become `pending`, and otherwise nothing changes |
| `Upload.WritingStep` | app.py:214-233 | every database write of a request thread keeps the tables legal and submits a row only when its object is in place |
| `Upload.FileStep` | object_store.py:131-167 | every file operation of a request thread keeps every final object's hash, and touches no temporary file of another thread |
| `Upload.PcStep` | app.py:166-234 | what a request thread knows at each point survives its own steps: what it wrote, what the hash check established, that the row cannot be `uploading` any more |
| `Upload.StepOnRow` | app.py:214-233 | a request thread never touches a row being processed, its retry count or its generation, and moves a row only from `uploading` or `arrears` to `pending` |
| `Worker.StepOk` | worker.py:118-305 | every step of a worker keeps the tables legal and what it knows of its ticket true |
| `Worker.StepAchieves` | worker.py:182-275 | a worker's step does to a row exactly what the way out it attempts says, or leaves the row as it was |
| `Worker.ClaimIsNew` | db.py:381-407 | a claim hands out a generation one above that of the row it found |
| `Worker.NeverSubmits` | worker.py:118-305 | a worker never creates a row and never moves one out of `uploading` or `rejected` |
| `TaskDb.NextClaim` | db.py:366-377 | the claim's SELECT finds the lowest due pending task, or else the lowest lapsed one, reports its generation, and finds nothing exactly when there is neither |
| `TaskDb.ClaimHoldsForLease` | db.py:362-400 | after a claim at `now` the fence of that owner and generation is open exactly before `now` plus the lease asked for, or plus a tenth of a second if that is more, and until then the row is in nobody's claimable set |
| `TaskDb.RenewalHoldsForLease` | db.py:410-426 | the same after a renewal, counted from its own reading |
| `TaskDb.FindArrears` | db.py:524-527 | the arrears query finds the lowest waiting task, and none exactly when none waits |
| `Database.Database.ClaimNextTask` | db.py:355-407 | uninterrupted, a claim fails exactly when no pending task is due and no lease has lapsed; otherwise the caller holds the selected row under the next generation for the lease it asked for, and no other column, row or balance changes |
| `Database.Database.RenewProcessingLease` | db.py:410-426 | passes exactly when owner, generation and a running lease match; the row is then held for the lease asked for from this reading, and otherwise nothing changes |
| `Database.Database.UpdateProcessingOwned` | db.py:429-455 | the fenced update, column by column: those named are set, all others stay, and leaving `processing` clears owner and lease; an empty update is refused |
| `Database.Database.FinalizeProcessingAndCharge` | db.py:458-521 | the finalize transaction: both updates or neither, every refusal restores the whole database, and the balance reported is the account's |
| `Database.Database.Adjust` | db.py:180-191 | an outside change of credits goes through exactly when it leaves no debt, and then changes that balance alone |
| `Database.Database.ReserveUpload` | db.py:266-292 | afterwards the key belongs to exactly one row, which is returned; the row is new exactly when the key was free, nobody can take its lease before `now` plus the lease asked for, and nothing changes otherwise |
| `Database.Database.InsertRejected` | db.py:326-336 | inserts the rejected row exactly when the key is free, and otherwise raises and changes nothing |
| `Database.Database.ClaimStaleUpload` | db.py:295-309 | takes the upload lease exactly when the row is still uploading the same content and the lease has lapsed; until the new lease ends nobody can take it again |
| `Database.Database.UpdateTask` | db.py:530-542 | succeeds exactly when the row has the expected status, sets the columns named on that row alone, and changes nothing otherwise |
| `Database.Database.Charge` | billing.py:26-49 | charges all of the cost, exactly when the account has it, or nothing; no row and no other balance changes |
| `Database.Database.Transition` | state_machine.py:34-66 | succeeds exactly from `uploading` or `arrears` to `pending`, sets the columns named, and changes nothing otherwise |
| `Database.Database.TransitionOwned` | state_machine.py:69-90 | succeeds exactly to `pending`, `dlq` or `arrears` and only through the fence; it sets the columns named, clears owner and lease, and touches nothing else |
| `HandleOne.HandleOne` | worker.py:118-290 | the worker's attempt as written, with its heartbeat, on the database object: the state it leaves is the one the attempt function gives, and it reports work exactly when a task could be claimed |
| `HandleOne.Attempt` | worker.py:134-189 | quota check, call, and the two looks at the heartbeat's `lost` flag before anything is committed |
| `HandleOne.Commit` | worker.py:182-275 | the failure paths, the finalize, and the look at the credits after a refused finalize |
| `HandleOne.Fail` | worker.py:182-238 | a control block returns the task with its retry count, any other failure costs one retry and ends in the dead-letter queue at the limit |
| `HandleOne.AttemptEndsRight` | worker.py:118-279 | every attempt, with any renewals of its lease, any clock readings and any changes of the user's credits meanwhile, ends exactly where the rules say from readings, retries and credits alone, with the matching status, retry count, next attempt, recorded result, ownership and balance |
| `HandleOne.EndsByCase` | worker.py:138-275 | while the heartbeat keeps up, each case with its prefixes, limits and prices written out: a quota wait, a control block, a retry, the third failure, a free finish, a paid finish, and a finish the credits did not cover, each with status, retries, next attempt, message and credits |
| `HandleOne.FinishedSaysPassed` | worker.py:240-245 | a finished task records the detected version, the required one, and a verdict that says passed exactly for versions from 10.0.19045 on |
| `HandleOne.LateHeartbeatStops` | worker.py:138-189 | an answered renewal that comes after the claim and every earlier renewal have run out stops the attempt: the task stays `processing` with its retries and nothing is charged |
| `HandleOne.AttemptTouchesOneTask` | worker.py:118-290 | the attempt changes the claimed task and the credits of its user, and nothing else; without a claimable task it changes nothing |
| `HandleOne.StuckIffFraction` | worker.py:259-275 | while the heartbeat keeps up, the task stays in `processing` if and only if the external call succeeded, the credits were short of the price at the commit, and there were some at the look after it |
| `HandleOne.WholeCreditsNeverStick` | billing.py:7-23 | with whole credits, whole changes and no top-up behind a refused commit, an attempt whose heartbeat keeps up always leaves `processing` |
| `AttemptRuns.AttemptIsRunOfSteps` | worker.py:118-290 | from any state of the system with the thread idle, the attempt as written is a run of that thread, its heartbeat and outside changes of credits; it ends with the thread idle and nobody else disturbed |
| `AttemptRuns.AttemptEndsInTheSystem` | worker.py:118-290 | from every reachable state with the thread idle and a task to claim, some such run ends with the thread idle and the task exactly where the rules say |
| `Progress.AttemptAlwaysExits` | worker.py:118-290 | in every run: while a worker does not die, hears no loss, finds its fence open at its own commits, and credits are whole and not topped up behind a refused commit, the step by which it lets go of the task takes the task out of `processing` by one of the four exits, whatever everybody else does |
| `Progress.BalancesStayWhole` | billing.py:7-8 | whole initial balances and whole adjustments keep every balance of every reachable state whole |
| `Arrears.RecoverArrears` | worker.py:293-305 | queues a task again exactly when the lowest waiting one may be called for: due at once, with the reason as its message, no other column changed; otherwise nothing changes |
| `Arrears.PassRestores` | worker.py:293-305 | that code is one run of an idle thread from any state of the system, and disturbs nothing else |
| `Arrears.QueuedAgainIffLowest` | db.py:524-527 | one pass queues a waiting task again if and only if it is the lowest waiting one and the backend is internal or its user has credits |
| `Arrears.FundedTaskCanStarve` | db.py:524-527 | a funded task waits through any number of passes while an older unfunded one waits |
| `Submit.WriteUpload` | app.py:203-233 | accepted exactly when the suffix is one of four, the stream can be rewound, nothing raises half-way and the hash is the fingerprint; the row is then pending with its object, no lease and no message; otherwise it is still `uploading` with a lease that ended at zero, which anybody with the same content may take at once, and no final object is touched |
| `Submit.CompleteOrRecoverUpload` | app.py:166-249 | the row reaches `pending` exactly when the object is in place with the right hash, or the write is this request's to do and succeeds; row and directory in every case |
| `Submit.HandleSubmit` | app.py:428-481 | the whole endpoint after the file is parsed, by cases: under a free key the reply is a refusal exactly when suffix, size or first bytes are objectionable, with one rejected row and no object, and otherwise a pending task with its object or a given-up reservation; under a taken key a conflict, a replay, the end of an unfinished upload or a given-up write; and both again when another request takes the key between look-up and insertion |
| `Submit.OutcomeIsSound` | app.py:434-481 | every outcome keeps the rows legal and the objects matching their rows |
| `Submit.SubmitSettles` | app.py:434-455 | a request that is accepted, or refused undisturbed, settles its key; under a settled key the same content is replayed and any other is a conflict, and neither changes the database or the directory |
| `Submit.ReachableIsSound` | app.py:434-481 | what the endpoint relies on holds in every reachable state |
| `Requests.RequestIsRunOfSteps` | app.py:434-481 | from any state of the system with the request thread free, the outcome of an undisturbed request is reached by a run of that thread alone, which leaves everybody else alone |
| `Requests.LookUpRuns` | app.py:434-455 | the first half of a request, up to where the look-up sends it, as such a run |
| `Requests.InsertedRuns` | app.py:457-481 | the second half, from any state others may have reached since the look-up, with both collision branches of the unique index |
| `Scenarios.OwnerRaceHappens` | db.py:405-407 | a run from the empty system with one upload and six steps of two workers that ends with both holding the same ticket |
| `Scenarios.StaleHeartbeatHappens` | worker.py:98-101 | a run from the empty system that ends with the heartbeat of a given-up attempt running under the current owner's name |
| `Scenarios.LateUploadRequeues` | app.py:214-222 | a run from the empty system without any credits in which a late upload moves its task from `arrears` to `pending` |
| `Scenarios.FundedTaskStarves` | worker.py:293-305 | a run from the empty system with two users after which any number of recovery passes leaves a funded task waiting |
| `Scenarios.HalfACreditSticks` | worker.py:259-275 | a run from the empty system with half a credit that ends with the thread idle, the lease running and the task in `processing` |
| `Scenarios.UncertainMayPass` | worker.py:60-76 | a run from the empty system in which a renewal raises, applied or not, and the worker's commit then passes |
| `Scenarios.UncertainMayFail` | worker.py:60-76 | a run from the empty system in which the same renewal raises, the lease lapses, and the worker's commit fails |
| `Scenarios.PlainAttemptExits` | worker.py:118-275 | a run from the empty system, with any whole balances, that meets the hypotheses of the progress theorem; its last step is the exit |
| `Cache.TTLCache.Purge` | cache.py:18-22 | exactly the entries past the hard limit go |
| `Cache.TTLCache.Get` | cache.py:24-33 | a hit is an entry younger than the hard limit, and asks for verification exactly from the soft limit on |
| `Cache.TTLCache.Set` | cache.py:35-37 | stores one entry with its time and leaves the others |
| `Cache.TTLCache.Invalidate` | cache.py:39-41 | removes one entry and leaves the others |
| `Cache.ReadTask` | app.py:70-105 | over a coherent cache the answer has every column of the row, the cache then holds exactly the finished tasks among those asked for, with the time of their last look, and no conflict is seen, for any limits and readings |
| `Cache.FrozenStays` | app.py:33 | no step of the protocol changes a cached answer about a terminal row |
| `Cache.ReadIsRunOfSteps` | app.py:70-105 | the read as written is one run of a reader's steps from any state in which the reader is free, with the same answer and the same cache |
| `Cache.CacheAgreesWithDb` | app.py:70-105 | for any limits, readings and interleaving of readers with the whole protocol, an answer from the cache equals the database's at that moment, and no reader sees a conflict |
| `ObjectNames.RenderInjective` | object_store.py:129 | submissions, writers and final objects never share a path |
| `ObjectNames.TemporaryIffTemp` | object_store.py:75 | the collector's suffix test holds exactly of temporary names |
| `ObjectNames.KeyIsOneComponent` | object_store.py:22-32 | a key is the fixed prefix and digits, one path component, so it stays inside the object directory |
| `Streaming.InspectFileStream` | validate.py:10-56 | for every content, chunk size and short-read pattern the scan reports the hash, size and first objection of the whole file, each objection spelled out, and leaves the stream at its start |
| `Streaming.HeadDecides` | validate.py:51-55 | the first four bytes decide both magic numbers |
| `Streaming.CaseDoesNotMatter` | validate.py:43 | two names that differ only in the case of ASCII letters have the same suffix and get the same verdict |
| `Streaming.LastDotDecides` | validate.py:43 | the suffix is what the last dot starts, provided its path component has something else than dots before it |
| `Streaming.HasSuffix` | validate.py:43 | a name has a suffix exactly if, in its last path component, a dot follows some other character |
| `Streaming.ObjectStore.PutObjectStream` | object_store.py:106-167 | the stable name is replaced only by the whole content and only if its hash is the expected one; otherwise, an exception half-way included, no final object changes; a writer that began leaves no temporary file behind |
| `Streaming.ObjectStore.CleanupStaleTempFiles` | object_store.py:54-92 | exactly the temporary files not younger than the limit, save those that are no regular files or cannot be removed, are removed and counted, and no final object |
| `LimitedReader.LimitedReader.Want` | request_limits.py:68-81 | a call asks for exactly what its size says, but never for more than one byte beyond what is left, and for just that without a size |
| `LimitedReader.LimitedReader.Serve` | request_limits.py:59-81 | a call raises exactly when the limit has been passed, now or before; otherwise it hands out the next bytes of the stream, no more than asked for, and nothing at all only if nothing was asked for or the stream is at its end |
| `LimitedReader.LimitedReader.Session` | request_limits.py:41-81 | over any sequence of calls the bytes handed out are a prefix of the stream no longer than the limit, at most one byte more is pulled, after a raise every call raises, and some call raises exactly when that extra byte was pulled |
| `LimitedReader.Limited` | request_limits.py:48-53 | a negative limit is refused |
| `Recognize.ParsesWhatWasRendered` | recognize.py:12-14 | a dotted numeric version is read back as the tuple it was written from |
| `Recognize.OthersAreSkipped` | recognize.py:12-14 | a component of digits contributes its number, and any other component nothing |
| `Recognize.VersionsTotallyOrdered` | recognize.py:12-18 | any two version tuples are comparable, and equal if each meets the other |
| `Recognize.VersionsTransitive` | recognize.py:12-18 | meeting a version is transitive |
| `Recognize.VersionsCompared` | recognize.py:12-18 | a detected version meets a required one exactly when the required one is its beginning, or it has the larger component where they first differ |
| `Recognize.VerdictSays` | worker.py:240-245 | the verdict says passed for exactly the versions from 10.0.19045 on, and failed for all others |
| `Provider.ProviderControl.BeginTokenExposureIncident` | provider_control.py:96-148 | refused exactly while an incident is active; otherwise the generation is raised, the token revoked, the provider paused and the five opening events logged in order, in one transaction |
| `Provider.ProviderControl.CloseIncident` | provider_control.py:151-197 | succeeds exactly with all three consents for the contained active incident; the provider is then open under the same generation and the six closing events are logged in order; otherwise nothing changes |
| `Provider.ProviderControl.RecordEvent` | provider_control.py:80-93 | appends one event, and with the active check only for the contained active incident |
| `Provider.ColumnsAgree` | provider_control.py:132-141 | after any serialised run enabled, token active, no active incident and not contained mean the same, and the credential version is one more than the incidents opened |
| `Provider.SupersededNeverSucceeds` | external_provider.py:17-39 | a credential generation an incident has superseded never succeeds again, whatever is closed later |
| `Provider.BlockedIffGateShut` | recognize.py:32-45 | a call is classified as a control block exactly when the gate was shut, and a shut gate never yields a result |
| `Provider.VendorAnswers` | external_provider.py:30-39 | through an open gate a call fails for good on every eleventh task and once on every other fifth, and a recognised version passes except on every seventh |
| `Provider.ClosedEventsAreClosings` | provider_control.py:180-196 | the `closed` events of an incident are its approved closings plus the notes filed as `closed`; closings plus the one still due equal the openings |
| `Provider.ClosedComesLast` | provider_control.py:143-195 | every `closed` event of an incident follows its revocation, its pause, the human approval and the vendor confirmation if and only if no `closed` note was filed before those |
| `Provider.NoteCanPrecedeContainment` | provider_control.py:87-93 | a `closed` note about an incident that was never opened breaks that order |
| `RequestSlots.BoundedServer.ReleaseSlot` | bounded_http.py:69-72 | gives back exactly what an admitted request took |
| `RequestSlots.BoundedServer.ProcessRequest` | bounded_http.py:125-147 | a request holds a slot and is counted exactly when its thread runs; one that is refused or fails on the way leaves the slots and the active count as they were |
| `RequestSlots.BoundedServer.ProcessRequestThread` | bounded_http.py:149-166 | the thread gives its slot back, whether the handler returns or raises, unless its watchdog cannot be started |
| `RequestSlots.Serve` | bounded_http.py:43-45 | a limit below one is refused |
| `RequestSlots.SlotsAreConserved` | bounded_http.py:125-166 | under every interleaving slots held plus slots free are the limit, active is the number of counted handlers and at most the slots held, and the semaphore is never over-released |
| `RequestSlots.AdmissionIsRun` | bounded_http.py:125-147 | one undisturbed admission is a run of its steps, with the outcome of the code as written |
| `RequestSlots.HandlingIsRun` | bounded_http.py:149-166 | the same of one handler thread |
| `RequestSlots.EverySlotComesBack` | bounded_http.py:125-166 | each request takes at most one slot and gives it back at most once, exactly when it no longer holds one; at rest the full capacity is back if and only if every watchdog could be started |
| `RequestSlots.OneLeakHappens` | bounded_http.py:149-160 | six steps of one request end with its slot gone for good |
| `ConnectionPool.Pool.Acquire` | db.py:61-81 | an idle connection first, a new one if the size allows, and otherwise nothing and no change |
| `ConnectionPool.Pool.Release` | db.py:83-91 | the loan is no longer counted and the connection goes to the end of the idle queue, which it leaves only when the queue is full |
| `ConnectionPool.BorrowIsRun` | db.py:61-81 | undisturbed borrowing is a run of the steps: the longest idle connection, a new one, or a wait |
| `ConnectionPool.ReturnIsRun` | db.py:83-91 | returning is one too, and puts the connection behind the idle ones |
| `ConnectionPool.PoolIsSound` | db.py:53-91 | under every interleaving the connections opened are the idle ones, the held ones and the lost slots and never exceed the size; in-use counts the loans; no connection is in two places; the full-queue branch of a release is never taken |

## Left out

- HandleOne.HandleOne: others do not act on the claimed task during the attempt; what becomes of one that is disturbed
  in any way is `Progress.AttemptAlwaysExits`. Renewals and changes of credits during the attempt are part of it.
- Submit.HandleSubmit: others act at most once, between the look-up and the insertion; requests interleaved at every
  step are the step system's.
- Streaming.ObjectStore.PutObjectStream: always under a stable key, so the random key of a call without one is left
  out; removing the temporary file succeeds. In the step system it may also stay behind.
- Cache.TTLCache.Get: the cached payload leaves out `status_text`, which is computed from the status.
- LimitedReader.LimitedReader.Serve: reads that bypass the wrapper through `__getattr__` are not modelled.
- Streaming.ObjectStore.CleanupStaleTempFiles: the limit on how often the collector runs is left out. In the step system
  any temporary file may vanish at any time.
- Mutual exclusion by the upload lease and eventual recovery from arrears: the code does not provide them, so no
  statement relies on them.
- Concurrent opening or closing of incidents: the code checks and then updates by provider alone, so incidents could
  overlap.
- The count of timed-out requests, pool waits and borrows: statistics nothing depends on.
- Checks before the file scan (bearer token, the 402 quota answer, `Content-Length`, multipart parsing, upload slots),
  response bodies and headers: input and output around the modelled decisions.
- `object_path` and `created_at`, the wording of messages and logs, rows from before the idempotency fingerprint, SQL
  text, schema migration, WAL and busy timeouts: each statement is one atomic step on maps.
- The size of the retry delay: the next attempt's time is arbitrary, so every statement holds for any jitter.
- The internal recogniser's choice of answers: the worker's model takes any answer. Digits outside ASCII in versions.
- Real hashing, threads, sockets, `fsync`: abstract functions or steps of the environment.
- `auth_token.py`, account activation, `metrics.py`, `healthd.py`, `rollback.py`, `token_incident.py`, `cd/`, `ci/`,
  `portal/`: a counter comparison, process and container driving, a command-line wrapper and a mock front end.
