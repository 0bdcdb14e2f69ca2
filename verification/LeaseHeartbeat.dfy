/** The heartbeat thread beside an attempt: what it writes, and what it tells the attempt. */
module LeaseHeartbeat {
  import opened TaskDb
  import opened Protocol
  import Database

  datatype Answer = Renewed | Lost | Uncertain

  /** How the database takes one renewal: it answers, or an exception is raised before or after the write. */
  datatype Outcome = Answers | Raises(applied: bool)

  datatype Tick = Tick(outcome: Outcome, now: real)

  /** One renewal: the tables after it, and whether it was refused. */
  function Pulse(leaseSec: real, t: Tables, key: BeatKey, tick: Tick, stamp: string): (Tables, bool) {
    if tick.outcome == Raises(false) then (t, false)
    else
      var (t', ok) := RenewLease(t, key.sid, key.owner, key.generation, tick.now, leaseSec, stamp);
      (t', tick.outcome == Answers && !ok)
  }

  /** Renewals in turn, until one is refused. */
  function Pulses(leaseSec: real, t: Tables, key: BeatKey, ticks: seq<Tick>, lost: bool, stamp: string): (Tables, bool)
    decreases |ticks|
  {
    if lost || ticks == [] then (t, lost)
    else
      var (t', refused) := Pulse(leaseSec, t, key, ticks[0], stamp);
      Pulses(leaseSec, t', key, ticks[1..], refused, stamp)
  }

  /** Only a refusal ends the renewals: whatever came before, an exception included, the next one is made, until one
      that is answered finds the row no longer held. */
  lemma {:induction false} OnlyRefusalStops(leaseSec: real, t: Tables, key: BeatKey, ticks: seq<Tick>, tick: Tick,
                                            lost: bool, stamp: string)
    ensures var (t1, lost1) := Pulses(leaseSec, t, key, ticks, lost, stamp);
      Pulses(leaseSec, t, key, ticks + [tick], lost, stamp)
      == if lost1 then (t1, true)
         else if tick.outcome == Raises(false) then (t1, false)
         else (RenewLease(t1, key.sid, key.owner, key.generation, tick.now, leaseSec, stamp).0,
               tick.outcome == Answers && !Fenced(t1, key.sid, key.owner, key.generation, tick.now))
    decreases |ticks|
  {
    var all := ticks + [tick];
    if ticks == [] {
      assert all[1..] == [];
    } else if !lost {
      var (t', refused) := Pulse(leaseSec, t, key, ticks[0], stamp);
      assert all[0] == ticks[0] && all[1..] == ticks[1..] + [tick];
      OnlyRefusalStops(leaseSec, t', key, ticks[1..], tick, refused, stamp);
      hide Pulse, RenewLease, Fenced;
    }
  }

  class ProcessingLeaseHeartbeat {
    const key: BeatKey
    var lost: bool
    var uncertain: bool

    constructor (key: BeatKey)
      ensures this.key == key && !lost && !uncertain
    {
      this.key := key;
      lost := false;
      uncertain := false;
    }

    /** One renewal. Only a refusal means "lost", and only a row that is no longer held is refused; an exception means
        "uncertain" until the next answer. */
    method RenewOnce(db: Database.Database, tick: Tick, leaseSec: real, stamp: string) returns (a: Answer)
      modifies this, db
      ensures a == Uncertain <==> tick.outcome.Raises?
      ensures a == Lost <==>
        tick.outcome == Answers && !Fenced(old(db.View()), key.sid, key.owner, key.generation, tick.now)
      ensures lost == (old(lost) || a == Lost) && uncertain == (a == Uncertain)
      ensures (db.View(), a == Lost) == Pulse(leaseSec, old(db.View()), key, tick, stamp)
      ensures a == Renewed ==>
        HeldUntil(db.View(), key.sid, key.owner, key.generation, tick.now + (if leaseSec >= 0.1 then leaseSec else 0.1))
    {
      if tick.outcome == Raises(false) {
        uncertain := true;
        return Uncertain;
      }
      var renewed := db.RenewProcessingLease(key.sid, key.owner, key.generation, tick.now, leaseSec, stamp);
      if tick.outcome.Raises? {
        uncertain := true;
        return Uncertain;
      }
      if !renewed {
        lost := true;
        uncertain := false;
        return Lost;
      }
      uncertain := false;
      a := Renewed;
    }

    /** The loop of the thread over the intervals given. It ends for good at the first refusal. */
    method Run(db: Database.Database, ticks: seq<Tick>, leaseSec: real, stamp: string)
      modifies this, db
      ensures (db.View(), lost) == Pulses(leaseSec, old(db.View()), key, ticks, old(lost), stamp)
    {
      var i := 0;
      while i < |ticks| && !lost
        invariant 0 <= i <= |ticks|
        invariant Pulses(leaseSec, db.View(), key, ticks[i..], lost, stamp)
               == Pulses(leaseSec, old(db.View()), key, ticks, old(lost), stamp)
      {
        assert ticks[i..][1..] == ticks[i + 1..];
        var _ := RenewOnce(db, ticks[i], leaseSec, stamp);
        i := i + 1;
      }
    }
  }
}
