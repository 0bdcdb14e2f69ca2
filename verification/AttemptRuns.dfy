/** The attempt as the code runs it is one run of the system: steps of its thread and of its heartbeat, with the
    changes of credits in between. */
module AttemptRuns {
  import opened Common
  import opened TaskDb
  import opened Recognize
  import opened Worker
  import opened Protocol
  import opened LeaseHeartbeat
  import opened HandleOne
  import opened Runs

  lemma WorkSteps(c: Config, s: System, t: Tables, w: string, pc: Pc, key: BeatKey, b: Beat, act: Act)
    requires !act.ReadBack? && (HasTicket(pc) ==> KeyOf(w, pc.t) == key)
    ensures var e := Worker.Step(c.processingLease, t, w, pc, HasTicket(pc) && b.lost, act);
      Protocol.Step(c, WorkAt(s, t, w, pc, key, b), Work(w, act)) == WorkAt(s, e.tables, w, e.pc, key, b)
  {
    hide Worker.Step;
    var e := Worker.Step(c.processingLease, t, w, pc, HasTicket(pc) && b.lost, act);
    assert s.workers[w := pc][w := e.pc] == s.workers[w := e.pc];
  }

  lemma WorkMoves(c: Config, s: System, t: Tables, w: string, pc: Pc, key: BeatKey, b: Beat, act: Act)
    requires !act.ReadBack? && (HasTicket(pc) ==> KeyOf(w, pc.t) == key)
    ensures var e := Worker.Step(c.processingLease, t, w, pc, HasTicket(pc) && b.lost, act);
      Leads(c, WorkAt(s, t, w, pc, key, b), WorkAt(s, e.tables, w, e.pc, key, b), Runs.Attempt(w))
  {
    hide Worker.Step, Protocol.Step;
    WorkSteps(c, s, t, w, pc, key, b, act);
    LeadsBy(c, WorkAt(s, t, w, pc, key, b), Work(w, act), Runs.Attempt(w));
  }

  lemma PulseMoves(c: Config, s: System, t: Tables, w: string, pc: Pc, key: BeatKey, b: Beat, tick: Tick, stamp: string)
    returns (b': Beat)
    requires key.owner == w && !b.lost
    ensures var (t', refused) := Pulse(c.processingLease, t, key, tick, stamp);
      b'.lost == refused && Leads(c, WorkAt(s, t, w, pc, key, b), WorkAt(s, t', w, pc, key, b'), Runs.Attempt(w))
  {
    hide RenewLease;
    var m := WorkAt(s, t, w, pc, key, b);
    var (t', refused) := Pulse(c.processingLease, t, key, tick, stamp);
    b' := Beat(refused, tick.outcome.Raises?, tick.now);
    var a := if tick.outcome.Raises? then RenewError(key, tick.now, stamp, tick.outcome.applied)
      else Renew(key, tick.now, stamp);
    assert s.beats[key := b][key := b'] == s.beats[key := b'];
    assert Protocol.Step(c, m, a) == WorkAt(s, t', w, pc, key, b');
    LeadsBy(c, m, a, Runs.Attempt(w));
  }

  lemma {:induction false} PulsesMove(c: Config, s: System, t: Tables, w: string, pc: Pc, key: BeatKey, b: Beat,
                                      ticks: seq<Tick>, stamp: string) returns (b': Beat)
    requires key.owner == w
    ensures var (t', lost) := Pulses(c.processingLease, t, key, ticks, b.lost, stamp);
      b'.lost == lost && Leads(c, WorkAt(s, t, w, pc, key, b), WorkAt(s, t', w, pc, key, b'), Runs.Attempt(w))
    decreases |ticks|
  {
    var who := Runs.Attempt(w);
    hide Leads, Pulse, WorkAt;
    if b.lost || ticks == [] {
      b' := b;
      LeadsNowhere(c, WorkAt(s, t, w, pc, key, b), who);
    } else {
      var t1 := Pulse(c.processingLease, t, key, ticks[0], stamp).0;
      var b1 := PulseMoves(c, s, t, w, pc, key, b, ticks[0], stamp);
      b' := PulsesMove(c, s, t1, w, pc, key, b1, ticks[1..], stamp);
      LeadsOn(c, WorkAt(s, t, w, pc, key, b), WorkAt(s, t1, w, pc, key, b1),
              WorkAt(s, Pulses(c.processingLease, t, key, ticks, b.lost, stamp).0, w, pc, key, b'), who);
    }
  }

  lemma CreditsMoves(c: Config, s: System, t: Tables, w: string, pc: Pc, key: BeatKey, b: Beat, userId: int,
                     delta: real)
    ensures Leads(c, WorkAt(s, t, w, pc, key, b), WorkAt(s, Adjusted(t, userId, delta), w, pc, key, b), Runs.Attempt(w))
  {
    var m := WorkAt(s, t, w, pc, key, b);
    hide Adjusted;
    assert Protocol.Step(c, m, Adjust(userId, delta)) == WorkAt(s, Adjusted(t, userId, delta), w, pc, key, b);
    LeadsBy(c, m, Adjust(userId, delta), Runs.Attempt(w));
  }

  lemma ParkingRuns(c: Config, s: System, t: Tables, w: string, k: Ticket, b: Beat, msg: string, x: Surroundings)
    returns (b': Beat)
    ensures Leads(c, WorkAt(s, t, w, Starving(k, msg), KeyOf(w, k), b),
                  WorkAt(s, Parked(c.processingLease, t, b.lost, w, k, msg, x), w, Idle, KeyOf(w, k), b'),
                    Runs.Attempt(w))
  {
    hide Leads, WorkAt, UpdateOwned, Pulses;
    var key, pc := KeyOf(w, k), Starving(k, msg);
    var t1 := Pulses(c.processingLease, t, key, x.beforeParking, b.lost, x.stamp).0;
    b' := PulsesMove(c, s, t, w, pc, key, b, x.beforeParking, x.stamp);
    WorkMoves(c, s, t1, w, pc, key, b', ArrearsCommit(x.parkAt, x.stamp));
    LeadsOn(c, WorkAt(s, t, w, pc, key, b), WorkAt(s, t1, w, pc, key, b'),
            WorkAt(s, Parked(c.processingLease, t, b.lost, w, k, msg, x), w, Idle, key, b'), Runs.Attempt(w));
  }

  lemma UnpaidRuns(c: Config, s: System, t: Tables, w: string, k: Ticket, b: Beat, x: Surroundings) returns (b': Beat)
    ensures Leads(c, WorkAt(s, t, w, Refused(k), KeyOf(w, k), b),
                  WorkAt(s, Unpaid(c.processingLease, t, b.lost, w, k, x), w, Idle, KeyOf(w, k), b'), Runs.Attempt(w))
  {
    hide Leads, WorkAt, Parked, Adjusted;
    var key, who := KeyOf(w, k), Runs.Attempt(w);
    var t1 := Adjusted(t, k.userId, x.afterRefusal);
    var begin, looked := WorkAt(s, t, w, Refused(k), key, b), WorkAt(s, t1, w, Refused(k), key, b);
    CreditsMoves(c, s, t, w, Refused(k), key, b, k.userId, x.afterRefusal);
    WorkMoves(c, s, t1, w, Refused(k), key, b, ArrearsCheck);
    if k.external && IsArrears(t1, k.userId) {
      var starving := WorkAt(s, t1, w, Starving(k, QUOTA_TAKEN), key, b);
      b' := ParkingRuns(c, s, t1, w, k, b, QUOTA_TAKEN, x);
      LeadsOn(c, begin, looked, starving, who);
      LeadsOn(c, begin, starving, WorkAt(s, Parked(c.processingLease, t1, b.lost, w, k, QUOTA_TAKEN, x), w, Idle, key,
                                         b'), who);
    } else {
      b' := b;
      LeadsOn(c, begin, looked, WorkAt(s, t1, w, Idle, key, b), who);
    }
  }

  lemma SuccessRuns(c: Config, s: System, t: Tables, w: string, k: Ticket, b: Beat, x: Surroundings)
    requires x.result.ok
    ensures var (t', ok) := Finalized(t, w, k, x);
      Leads(c, WorkAt(s, t, w, Judged(k, x.result), KeyOf(w, k), b),
            WorkAt(s, t', w, if ok then Idle else Refused(k), KeyOf(w, k), b), Runs.Attempt(w))
  {
    hide Leads, WorkAt, FinalizeWrite, Verdict;
    var key, who := KeyOf(w, k), Runs.Attempt(w);
    var payer := FinalizeSelect(t, k.sid, w, k.generation, x.commitAt);
    var pc := if payer == None then Refused(k) else Finalizing(k, x.result, x.commitAt, payer.value);
    WorkMoves(c, s, t, w, Judged(k, x.result), key, b, FinalizeRead(x.commitAt));
    WorkMoves(c, s, t, w, pc, key, b, FinalizeCommit(x.stamp));
    var (t', ok) := Finalized(t, w, k, x);
    LeadsOn(c, WorkAt(s, t, w, Judged(k, x.result), key, b), WorkAt(s, t, w, pc, key, b),
            WorkAt(s, t', w, if ok then Idle else Refused(k), key, b), who);
  }

  lemma AnsweredRuns(c: Config, s: System, t: Tables, w: string, k: Ticket, b: Beat, x: Surroundings) returns (b': Beat)
    requires !b.lost
    ensures Leads(c, WorkAt(s, t, w, Judged(k, x.result), KeyOf(w, k), b),
                  WorkAt(s, Answered(c.processingLease, t, w, k, x), w, Idle, KeyOf(w, k), b'), Runs.Attempt(w))
  {
    hide Leads, WorkAt, Unpaid, Pulses, UpdateOwned, FailurePatch, Finalized;
    var key, pc, who := KeyOf(w, k), Judged(k, x.result), Runs.Attempt(w);
    var t1 := Pulses(c.processingLease, t, key, x.beforeCommit, b.lost, x.stamp).0;
    var b1 := PulsesMove(c, s, t, w, pc, key, b, x.beforeCommit, x.stamp);
    var begin, ready := WorkAt(s, t, w, pc, key, b), WorkAt(s, t1, w, pc, key, b1);
    if x.result.ok {
      var (t2, ok) := Finalized(t1, w, k, x);
      SuccessRuns(c, s, t1, w, k, b1, x);
      var tried := WorkAt(s, t2, w, if ok then Idle else Refused(k), key, b1);
      LeadsOn(c, begin, ready, tried, who);
      if ok {
        b' := b1;
      } else {
        b' := UnpaidRuns(c, s, t2, w, k, b1, x);
        LeadsOn(c, begin, tried, WorkAt(s, Unpaid(c.processingLease, t2, b1.lost, w, k, x), w, Idle, key, b'), who);
      }
    } else {
      b' := b1;
      WorkMoves(c, s, t1, w, pc, key, b1, CommitFailure(x.commitAt, x.retryAt, x.stamp));
      LeadsOn(c, begin, ready, WorkAt(s, Answered(c.processingLease, t, w, k, x), w, Idle, key, b1), who);
    }
  }

  lemma CalledRuns(c: Config, s: System, t: Tables, w: string, k: Ticket, b: Beat, x: Surroundings) returns (b': Beat)
    ensures Leads(c, WorkAt(s, t, w, Calling(k), KeyOf(w, k), b),
                  WorkAt(s, Called(c.processingLease, t, b.lost, w, k, x), w, Idle, KeyOf(w, k), b'), Runs.Attempt(w))
  {
    hide Leads, WorkAt, Answered, Pulses, Adjusted;
    var key, pc, who := KeyOf(w, k), Calling(k), Runs.Attempt(w);
    var t1 := Pulses(c.processingLease, t, key, x.during, b.lost, x.stamp).0;
    var b1 := PulsesMove(c, s, t, w, pc, key, b, x.during, x.stamp);
    var t2 := Adjusted(t1, k.userId, x.meanwhile);
    var begin, paid := WorkAt(s, t, w, pc, key, b), WorkAt(s, t2, w, pc, key, b1);
    CreditsMoves(c, s, t1, w, pc, key, b1, k.userId, x.meanwhile);
    LeadsOn(c, begin, WorkAt(s, t1, w, pc, key, b1), paid, who);
    WorkMoves(c, s, t2, w, pc, key, b1, CallModel(x.result));
    if b1.lost {
      b' := b1;
      LeadsOn(c, begin, paid, WorkAt(s, t2, w, Idle, key, b1), who);
    } else {
      var judged := WorkAt(s, t2, w, Judged(k, x.result), key, b1);
      LeadsOn(c, begin, paid, judged, who);
      b' := AnsweredRuns(c, s, t2, w, k, b1, x);
      LeadsOn(c, begin, judged, WorkAt(s, Answered(c.processingLease, t2, w, k, x), w, Idle, key, b'), who);
    }
  }

  lemma AttemptedRuns(c: Config, s: System, t: Tables, w: string, k: Ticket, b: Beat,
                      x: Surroundings) returns (b': Beat)
    requires !b.lost
    ensures Leads(c, WorkAt(s, t, w, Holding(k), KeyOf(w, k), b),
                  WorkAt(s, Attempted(c.processingLease, t, w, k, x), w, Idle, KeyOf(w, k), b'), Runs.Attempt(w))
  {
    hide Leads, WorkAt, Called, Parked, Pulses;
    var key, pc, who := KeyOf(w, k), Holding(k), Runs.Attempt(w);
    var t1 := Pulses(c.processingLease, t, key, x.early, b.lost, x.stamp).0;
    var b1 := PulsesMove(c, s, t, w, pc, key, b, x.early, x.stamp);
    var begin, ready := WorkAt(s, t, w, pc, key, b), WorkAt(s, t1, w, pc, key, b1);
    WorkMoves(c, s, t1, w, pc, key, b1, QuotaCheck);
    if !(k.external && IsArrears(t1, k.userId)) {
      var calling := WorkAt(s, t1, w, Calling(k), key, b1);
      LeadsOn(c, begin, ready, calling, who);
      b' := CalledRuns(c, s, t1, w, k, b1, x);
      LeadsOn(c, begin, calling, WorkAt(s, Called(c.processingLease, t1, b1.lost, w, k, x), w, Idle, key, b'), who);
    } else if b1.lost {
      b' := b1;
      LeadsOn(c, begin, ready, WorkAt(s, t1, w, Idle, key, b1), who);
    } else {
      var starving := WorkAt(s, t1, w, Starving(k, NO_QUOTA), key, b1);
      LeadsOn(c, begin, ready, starving, who);
      b' := ParkingRuns(c, s, t1, w, k, b1, NO_QUOTA, x);
      LeadsOn(c, begin, starving, WorkAt(s, Parked(c.processingLease, t1, b1.lost, w, k, NO_QUOTA, x), w, Idle, key,
                                         b'), who);
    }
  }

  // ----- from an idle thread -----

  lemma Settled(c: Config, s: System, w: string)
    requires WorkerPc(s, w) == Idle
    ensures Leads(c, s, ClaimAt(s, s.tables, w, Idle), WorkerOnly(w))
  {
    LeadsBy(c, s, Work(w, ArrearsCheck), WorkerOnly(w));
    assert Protocol.Step(c, s, Work(w, ArrearsCheck)) == ClaimAt(s, s.tables, w, Idle);
  }

  lemma AsAttempt(c: Config, s: System, e: System, w: string)
    requires Leads(c, s, e, WorkerOnly(w))
    ensures Leads(c, s, e, Runs.Attempt(w))
  {
    hide Exec;
    var run :| AllBy(WorkerOnly(w), run) && Exec(c, s, run) == e;
    assert AllBy(Runs.Attempt(w), run);
  }

  /** An idle thread selects, claims and reads back what it claimed. */
  lemma ClaimRuns(c: Config, s: System, w: string, x: Surroundings, p: Pick, t1: Tables)
    requires WorkerPc(s, w) == Idle && NextClaim(s.tables, x.claimAt) == Some(p)
    requires ClaimUpdate(s.tables, p, w, x.claimAt, c.processingLease, x.stamp) == Some(t1) && p.sid in t1.rows
    ensures var k := TicketFor(p.sid, t1.rows[p.sid], x.external);
      Leads(c, s, WorkAt(s, t1, w, Holding(k), KeyOf(w, k), Beat(false, false, x.claimAt)), WorkerOnly(w))
  {
    hide NextClaim, ClaimUpdate, Leads;
    var who := WorkerOnly(w);
    var idle, selected := ClaimAt(s, s.tables, w, Idle), ClaimAt(s, s.tables, w, Selected(p, x.claimAt));
    var pc := Claimed(p.sid, p.generation + 1, x.claimAt);
    var claimed := ClaimAt(s, t1, w, pc);
    Settled(c, s, w);
    ClaimMoves(c, s, s.tables, w, Idle, ClaimSelect(x.claimAt));
    LeadsOn(c, s, idle, selected, who);
    ClaimMoves(c, s, s.tables, w, Selected(p, x.claimAt), ClaimWrite(x.stamp));
    LeadsOn(c, s, selected, claimed, who);
    ReadBackMoves(c, s, t1, w, pc, x.external);
    var k := TicketFor(p.sid, t1.rows[p.sid], x.external);
    LeadsOn(c, s, claimed, WorkAt(s, t1, w, Holding(k), KeyOf(w, k), Beat(false, false, x.claimAt)), who);
  }

  lemma ReadBackSteps(c: Config, s: System, t: Tables, w: string, pc: Pc, external: bool)
    requires pc.Claimed? && pc.sid in t.rows
    ensures var k := TicketFor(pc.sid, t.rows[pc.sid], external);
      Protocol.Step(c, ClaimAt(s, t, w, pc), Work(w, ReadBack(external)))
      == WorkAt(s, t, w, Holding(k), KeyOf(w, k), Beat(false, false, pc.readAt))
  {
    var k := TicketFor(pc.sid, t.rows[pc.sid], external);
    assert s.workers[w := pc][w := Holding(k)] == s.workers[w := Holding(k)];
  }

  lemma ReadBackMoves(c: Config, s: System, t: Tables, w: string, pc: Pc, external: bool)
    requires pc.Claimed? && pc.sid in t.rows
    ensures var k := TicketFor(pc.sid, t.rows[pc.sid], external);
      Leads(c, ClaimAt(s, t, w, pc), WorkAt(s, t, w, Holding(k), KeyOf(w, k), Beat(false, false, pc.readAt)),
            WorkerOnly(w))
  {
    hide Protocol.Step;
    ReadBackSteps(c, s, t, w, pc, external);
    LeadsBy(c, ClaimAt(s, t, w, pc), Work(w, ReadBack(external)), WorkerOnly(w));
  }

  /** After the attempt: the thread is idle again, the tables are as given, and apart from its own heartbeats every
      other actor and every file is as before. */
  ghost predicate Over(s: System, e: System, w: string, t: Tables) {
    && e.tables == t && WorkerPc(e, w) == Idle && e.files == s.files && e.uploads == s.uploads
    && (forall v :: v != w ==> WorkerPc(e, v) == WorkerPc(s, v))
    && (forall key: BeatKey :: key.owner != w && key in s.beats ==> key in e.beats && e.beats[key] == s.beats[key])
  }

  lemma OverAt(s: System, w: string, t: Tables, key: BeatKey, b: Beat)
    requires key.owner == w
    ensures Over(s, WorkAt(s, t, w, Idle, key, b), w, t) && Over(s, ClaimAt(s, t, w, Idle), w, t)
  {
  }

  lemma RunsToEnd(c: Config, s: System, w: string, x: Surroundings) returns (e: System)
    requires WorkerPc(s, w) == Idle
    ensures Leads(c, s, e, Runs.Attempt(w)) && Over(s, e, w, Handled(c.processingLease, s.tables, w, x))
  {
    hide NextClaim, ClaimUpdate, Leads, Attempted, Over;
    var pick := NextClaim(s.tables, x.claimAt);
    Settled(c, s, w);
    AsAttempt(c, s, ClaimAt(s, s.tables, w, Idle), w);
    e := ClaimAt(s, s.tables, w, Idle);
    OverAt(s, w, s.tables, BeatKey(w, 0, 0), Beat(false, false, 0.0));
    if pick.Some? {
      var p := pick.value;
      ClaimedRow(c.processingLease, s.tables, w, x.claimAt, x.stamp);
      var t1 := ClaimUpdate(s.tables, p, w, x.claimAt, c.processingLease, x.stamp).value;
      var k, b := TicketFor(p.sid, t1.rows[p.sid], x.external), Beat(false, false, x.claimAt);
      ClaimRuns(c, s, w, x, p, t1);
      var held := WorkAt(s, t1, w, Holding(k), KeyOf(w, k), b);
      AsAttempt(c, s, held, w);
      var b' := AttemptedRuns(c, s, t1, w, k, b, x);
      var t2 := Attempted(c.processingLease, t1, w, k, x);
      e := WorkAt(s, t2, w, Idle, KeyOf(w, k), b');
      LeadsOn(c, s, held, e, Runs.Attempt(w));
      OverAt(s, w, t2, KeyOf(w, k), b');
    }
  }

  /** From any state of the system, the attempt as the code runs it is a run of this thread, its heartbeat and the
      outside changes of credits, and ends with the thread idle and nobody else disturbed. */
  lemma AttemptIsRunOfSteps(c: Config, s: System, w: string, x: Surroundings)
    requires WorkerPc(s, w) == Idle
    ensures exists e :: Leads(c, s, e, Runs.Attempt(w)) && Over(s, e, w, Handled(c.processingLease, s.tables, w, x))
  {
    hide Leads, Over, Handled;
    var e := RunsToEnd(c, s, w, x);
  }

  /** So from every reachable state in which the thread is idle and finds a task, some run of its own leaves it idle
      with the task exactly where the rules say. */
  lemma AttemptEndsInTheSystem(c: Config, accounts: map<int, real>, s: System, w: string, x: Surroundings)
    requires Solvent(accounts) && Reachable(c, accounts, s)
    requires WorkerPc(s, w) == Idle && NextClaim(s.tables, x.claimAt).Some?
    ensures var k := TicketOf(s.tables, NextClaim(s.tables, x.claimAt).value, x.external);
      exists e :: Leads(c, s, e, Runs.Attempt(w)) && WorkerPc(e, w) == Idle
                  && Ends(e.tables, k, w, x, Rules(c.processingLease, x, k.retryCount, Balance(s.tables, k.userId)))
  {
    ReachableInv(c, accounts, s);
    hide Leads, Handled, Ends, Rules, NextClaim, Reachable;
    var e := RunsToEnd(c, s, w, x);
    AttemptEndsRight(c.processingLease, s.tables, w, x);
  }
}
