/** Admission of requests to handler threads: a bounded semaphore beside counters under a lock. */
module RequestSlots {
  import opened Common

  /** The shared state. `free` is the semaphore's value; `overReleased` records the error a bounded semaphore raises
      when it is released beyond its initial value. */
  datatype Counters = Counters(limit: nat, free: nat, active: int, rejected: nat, overReleased: bool)

  function TryAcquire(k: Counters): (Counters, bool) {
    if k.free > 0 then (k.(free := k.free - 1), true) else (k, false)
  }

  function Release(k: Counters): Counters {
    if k.free >= k.limit then k.(overReleased := true) else k.(free := k.free + 1)
  }

  class BoundedServer {
    var k: Counters

    constructor (limit: nat)
      requires limit > 0
      ensures k == Counters(limit, limit, 0, 0, false)
    {
      k := Counters(limit, limit, 0, 0, false);
    }

    method AcquireSlot() returns (ok: bool)
      modifies this
      ensures (k, ok) == TryAcquire(old(k))
    {
      ok := k.free > 0;
      if ok {
        k := k.(free := k.free - 1);
      }
    }

    method MarkAcquired()
      modifies this
      ensures k == old(k).(active := old(k).active + 1)
    {
      k := k.(active := k.active + 1);
    }

    /** Uninterrupted, giving a slot back undoes taking it. */
    method ReleaseSlot()
      modifies this
      ensures k == Release(old(k).(active := old(k).active - 1))
      ensures old(k).free < old(k).limit ==>
        k == old(k).(active := old(k).active - 1, free := old(k).free + 1)
    {
      k := k.(active := k.active - 1);
      if k.free >= k.limit {
        k := k.(overReleased := true);
      } else {
        k := k.(free := k.free + 1);
      }
    }

    method RejectOverload()
      modifies this
      ensures k == old(k).(rejected := old(k).rejected + 1)
    {
      k := k.(rejected := k.rejected + 1);
    }

    /** Admit a request and start its handler thread. It holds a slot and is counted exactly when its thread runs; a
        request that is refused, or fails on the way, leaves the slots and the active count as they were. */
    method ProcessRequest(timeoutSet: bool, threadStarts: bool) returns (running: bool)
      requires k.free <= k.limit
      modifies this
      ensures running <==> old(k).free > 0 && timeoutSet && threadStarts
      ensures running ==> k == old(k).(free := old(k).free - 1, active := old(k).active + 1)
      ensures !running ==> k == if old(k).free == 0 then old(k).(rejected := old(k).rejected + 1) else old(k)
    {
      var admitted := AcquireSlot();
      if !admitted {
        RejectOverload();
        return false;
      }
      if !timeoutSet {
        k := Release(k);
        return false;
      }
      MarkAcquired();
      if !threadStarts {
        ReleaseSlot();
        return false;
      }
      running := true;
    }

    /** The handler thread, whether the handler returns or raises: it gives its slot back unless its watchdog could
        not be started. */
    method ProcessRequestThread(watchdogStarts: bool)
      requires k.free < k.limit
      modifies this
      ensures k == if watchdogStarts then old(k).(free := old(k).free + 1, active := old(k).active - 1) else old(k)
    {
      if !watchdogStarts {
        return;
      }
      ReleaseSlot();
    }
  }

  /** A limit below one is refused. */
  method Serve(limit: int) returns (r: Option<BoundedServer>)
    ensures r == None <==> limit <= 0
    ensures r.Some? ==> fresh(r.value) && r.value.k == Counters(limit, limit, 0, 0, false)
  {
    if limit <= 0 {
      return None;
    }
    var server := new BoundedServer(limit);
    r := Some(server);
  }

  // ----- all requests at once -----

  /** Where a request is. `Leaked` is a handler thread whose watchdog could not be started: it dies outside the
      clause that gives the slot back. */
  datatype Phase =
    | Arrived | Refused
    | Admitted | Prepared | Counted | Spawned | Serving | Leaving
    | Gone | Leaked

  datatype Server = Server(k: Counters, requests: map<nat, Phase>)

  datatype Act =
    | Connect(id: nat)
    | Acquire(id: nat)
    | SetTimeout(id: nat, ok: bool)
    | Mark(id: nat)
    | Spawn(id: nat, ok: bool)
    | StartWatchdog(id: nat, ok: bool)
    | Finish(id: nat)
    | GiveBack(id: nat)

  function At(s: Server, id: nat, p: Phase): Server {
    s.(requests := s.requests[id := p])
  }

  predicate Is(s: Server, id: nat, p: Phase) {
    id in s.requests && s.requests[id] == p
  }

  /** One atomic step: a semaphore operation, a counter update under the lock, or an event from outside. A handler's
      return and its exception are the same step, `Finish`. */
  function Step(s: Server, a: Act): Server {
    match a
    case Connect(id) => if id in s.requests then s else At(s, id, Arrived)
    case Acquire(id) =>
      if !Is(s, id, Arrived) then s
      else
        var (k, ok) := TryAcquire(s.k);
        if ok then At(s.(k := k), id, Admitted) else At(s.(k := k.(rejected := k.rejected + 1)), id, Refused)
    case SetTimeout(id, ok) =>
      if !Is(s, id, Admitted) then s
      else if ok then At(s, id, Prepared)
      else At(s.(k := Release(s.k)), id, Gone)
    case Mark(id) =>
      if !Is(s, id, Prepared) then s else At(s.(k := s.k.(active := s.k.active + 1)), id, Counted)
    case Spawn(id, ok) =>
      if !Is(s, id, Counted) then s
      else if ok then At(s, id, Spawned)
      else At(s.(k := s.k.(active := s.k.active - 1)), id, Leaving)
    case StartWatchdog(id, ok) =>
      if !Is(s, id, Spawned) then s else At(s, id, if ok then Serving else Leaked)
    case Finish(id) =>
      if !Is(s, id, Serving) then s else At(s.(k := s.k.(active := s.k.active - 1)), id, Leaving)
    case GiveBack(id) =>
      if !Is(s, id, Leaving) then s else At(s.(k := Release(s.k)), id, Gone)
  }

  function Run(s: Server, acts: seq<Act>): Server
    decreases |acts|
  {
    if acts == [] then s else Run(Step(s, acts[0]), acts[1..])
  }

  function Start(limit: nat): Server {
    Server(Counters(limit, limit, 0, 0, false), map[])
  }

  predicate Holds(p: Phase) {
    p in {Admitted, Prepared, Counted, Spawned, Serving, Leaving, Leaked}
  }

  predicate Active(p: Phase) {
    p in {Counted, Spawned, Serving, Leaked}
  }

  function Holders(s: Server): set<nat> {
    set id | id in s.requests && Holds(s.requests[id])
  }

  function Actives(s: Server): set<nat> {
    set id | id in s.requests && Active(s.requests[id])
  }

  function RefusedOnes(s: Server): set<nat> {
    set id | id in s.requests && s.requests[id] == Refused
  }

  function Leaks(s: Server): set<nat> {
    set id | id in s.requests && s.requests[id] == Leaked
  }

  ghost predicate Inv(s: Server) {
    && s.k.free + |Holders(s)| == s.k.limit
    && s.k.active == |Actives(s)|
    && s.k.rejected == |RefusedOnes(s)|
    && !s.k.overReleased
  }

  /** How the three sets change when one request moves to another phase. */
  lemma Moved(s: Server, id: nat, p: Phase)
    requires id in s.requests
    ensures var s' := At(s, id, p);
      var q := s.requests[id];
      && |Holders(s')| == |Holders(s)| + (if Holds(p) then 1 else 0) - (if Holds(q) then 1 else 0)
      && |Actives(s')| == |Actives(s)| + (if Active(p) then 1 else 0) - (if Active(q) then 1 else 0)
      && |RefusedOnes(s')| == |RefusedOnes(s)| + (if p == Refused then 1 else 0) - (if q == Refused then 1 else 0)
  {
    MovedHolders(s, id, p);
    MovedActives(s, id, p);
    MovedRefused(s, id, p);
    hide *;
  }

  lemma MovedHolders(s: Server, id: nat, p: Phase)
    requires id in s.requests
    ensures |Holders(At(s, id, p))|
         == |Holders(s)| + (if Holds(p) then 1 else 0) - (if Holds(s.requests[id]) then 1 else 0)
  {
    assert Holders(At(s, id, p)) == (if Holds(p) then Holders(s) + {id} else Holders(s) - {id});
  }

  lemma MovedActives(s: Server, id: nat, p: Phase)
    requires id in s.requests
    ensures |Actives(At(s, id, p))|
         == |Actives(s)| + (if Active(p) then 1 else 0) - (if Active(s.requests[id]) then 1 else 0)
  {
    assert Actives(At(s, id, p)) == (if Active(p) then Actives(s) + {id} else Actives(s) - {id});
  }

  lemma MovedRefused(s: Server, id: nat, p: Phase)
    requires id in s.requests
    ensures |RefusedOnes(At(s, id, p))|
         == |RefusedOnes(s)| + (if p == Refused then 1 else 0) - (if s.requests[id] == Refused then 1 else 0)
  {
    assert RefusedOnes(At(s, id, p)) == (if p == Refused then RefusedOnes(s) + {id} else RefusedOnes(s) - {id});
  }

  lemma Connected(s: Server, id: nat)
    requires id !in s.requests
    ensures var s' := At(s, id, Arrived);
      Holders(s') == Holders(s) && Actives(s') == Actives(s) && RefusedOnes(s') == RefusedOnes(s)
  {
  }

  lemma StepInv(s: Server, a: Act)
    requires Inv(s)
    ensures Inv(Step(s, a))
  {
    var s' := Step(s, a);
    if s' != s {
      if a.Connect? {
        Connected(s, a.id);
      } else {
        var p := s'.requests[a.id];
        assert s'.requests == At(s, a.id, p).requests;
        Moved(s, a.id, p);
        assert Holders(s') == Holders(At(s, a.id, p)) && Actives(s') == Actives(At(s, a.id, p));
        assert RefusedOnes(s') == RefusedOnes(At(s, a.id, p));
        assert Holds(s.requests[a.id]) ==> a.id in Holders(s);
        hide Holders, Actives, RefusedOnes;
      }
    }
  }

  lemma {:induction false} RunInv(s: Server, acts: seq<Act>)
    requires Inv(s)
    ensures Inv(Run(s, acts)) && Run(s, acts).k.limit == s.k.limit
    decreases |acts|
  {
    if acts != [] {
      StepInv(s, acts[0]);
      hide Inv;
      RunInv(Step(s, acts[0]), acts[1..]);
    }
  }

  lemma SubsetSize(a: set<nat>, b: set<nat>)
    requires a <= b
    ensures |a| <= |b|
  {
    if a != {} {
      var x :| x in a;
      SubsetSize(a - {x}, b - {x});
    }
  }

  /** Under every interleaving of requests that are refused, fail to prepare, fail to start, return or raise: the
      active count is the number of counted handlers and at most the number of slots held, slots held and slots free
      always add up to the limit, and the semaphore is never released beyond it. */
  lemma SlotsAreConserved(limit: nat, acts: seq<Act>)
    ensures var s := Run(Start(limit), acts);
      && s.k.free + |Holders(s)| == limit
      && 0 <= s.k.active == |Actives(s)| <= |Holders(s)| <= limit
      && s.k.rejected == |RefusedOnes(s)|
      && !s.k.overReleased
  {
    var s0 := Start(limit);
    assert Holders(s0) == {} && Actives(s0) == {} && RefusedOnes(s0) == {};
    RunInv(s0, acts);
    var s := Run(s0, acts);
    SubsetSize(Actives(s), Holders(s));
  }

  lemma RunSplit(s: Server, acts: seq<Act>)
    requires acts != []
    ensures Run(s, acts) == Run(Step(s, acts[0]), acts[1..])
  {
  }

  lemma RunThree(s: Server, a: Act, b: Act, c: Act, rest: seq<Act>)
    ensures Run(s, [a, b, c] + rest) == Run(Step(Step(Step(s, a), b), c), rest)
  {
    hide Step, Run;
    var acts := [a, b, c] + rest;
    RunSplit(s, acts);
    assert acts[1..] == [b, c] + rest;
    RunSplit(Step(s, a), acts[1..]);
    assert acts[1..][1..] == [c] + rest;
    RunSplit(Step(Step(s, a), b), acts[1..][1..]);
    assert acts[1..][1..][1..] == rest;
  }

  /** A request that moves twice is where it moved to last. */
  lemma MovesTwice(s: Server, id: nat, p: Phase, k: Counters, q: Phase)
    ensures At(At(s, id, p).(k := k), id, q) == At(s.(k := k), id, q)
  {
  }

  lemma Admits(s: Server, id: nat, timeoutSet: bool)
    requires id !in s.requests && s.k.free <= s.k.limit
    ensures Step(Step(Step(s, Connect(id)), Acquire(id)), SetTimeout(id, timeoutSet))
         == if s.k.free == 0 then At(s.(k := s.k.(rejected := s.k.rejected + 1)), id, Refused)
            else if timeoutSet then At(s.(k := s.k.(free := s.k.free - 1)), id, Prepared)
            else At(s, id, Gone)
  {
    if s.k.free == 0 {
      MovesTwice(s, id, Arrived, s.k.(rejected := s.k.rejected + 1), Refused);
    } else {
      var taken := s.(k := s.k.(free := s.k.free - 1));
      MovesTwice(s, id, Arrived, taken.k, Admitted);
      assert Step(Step(s, Connect(id)), Acquire(id)) == At(taken, id, Admitted);
      MovesTwice(taken, id, Admitted, taken.k, Prepared);
      MovesTwice(taken, id, Admitted, s.k, Gone);
    }
  }

  lemma Spawns(s: Server, id: nat, threadStarts: bool)
    requires Is(s, id, Prepared) && s.k.free < s.k.limit
    ensures Step(Step(Step(s, Mark(id)), Spawn(id, threadStarts)), GiveBack(id))
         == if threadStarts then At(s.(k := s.k.(active := s.k.active + 1)), id, Spawned)
            else At(s.(k := s.k.(free := s.k.free + 1)), id, Gone)
  {
    var counted := s.(k := s.k.(active := s.k.active + 1));
    assert Step(s, Mark(id)) == At(counted, id, Counted);
    if threadStarts {
      MovesTwice(counted, id, Counted, counted.k, Spawned);
      assert Step(At(counted, id, Counted), Spawn(id, true)) == At(counted, id, Spawned);
    } else {
      MovesTwice(counted, id, Counted, s.k, Leaving);
      assert Step(At(counted, id, Counted), Spawn(id, false)) == At(s, id, Leaving);
      MovesTwice(s, id, Leaving, s.k.(free := s.k.free + 1), Gone);
    }
  }

  lemma RefusedStays(s: Server, id: nat, threadStarts: bool)
    requires id in s.requests && s.requests[id] in {Refused, Gone}
    ensures Step(Step(Step(s, Mark(id)), Spawn(id, threadStarts)), GiveBack(id)) == s
  {
  }

  /** One admission with nobody in between is a run of its steps, and comes to what the methods above do. */
  lemma AdmissionIsRun(s: Server, id: nat, timeoutSet: bool, threadStarts: bool)
    requires id !in s.requests && s.k.free <= s.k.limit
    ensures Run(s, [Connect(id), Acquire(id), SetTimeout(id, timeoutSet)] +
                   ([Mark(id), Spawn(id, threadStarts), GiveBack(id)] + []))
         == if s.k.free == 0 then At(s.(k := s.k.(rejected := s.k.rejected + 1)), id, Refused)
            else if timeoutSet && threadStarts then
              At(s.(k := s.k.(free := s.k.free - 1, active := s.k.active + 1)), id, Spawned)
            else At(s, id, Gone)
  {
    var second := [Mark(id), Spawn(id, threadStarts), GiveBack(id)] + [];
    RunThree(s, Connect(id), Acquire(id), SetTimeout(id, timeoutSet), second);
    Admits(s, id, timeoutSet);
    var s' := Step(Step(Step(s, Connect(id)), Acquire(id)), SetTimeout(id, timeoutSet));
    RunThree(s', Mark(id), Spawn(id, threadStarts), GiveBack(id), []);
    hide Step;
    if s.k.free > 0 && timeoutSet {
      Spawns(s', id, threadStarts);
      var taken := s.(k := s.k.(free := s.k.free - 1));
      MovesTwice(taken, id, Prepared, taken.k.(active := s.k.active + 1), Spawned);
      MovesTwice(taken, id, Prepared, s.k, Gone);
    } else {
      RefusedStays(s', id, threadStarts);
    }
  }

  /** The same for a handler thread. */
  lemma HandlingIsRun(s: Server, id: nat, watchdogStarts: bool)
    requires Is(s, id, Spawned) && s.k.free < s.k.limit
    ensures Run(s, [StartWatchdog(id, watchdogStarts), Finish(id), GiveBack(id)] + [])
         == if watchdogStarts then At(s.(k := s.k.(free := s.k.free + 1, active := s.k.active - 1)), id, Gone)
            else At(s, id, Leaked)
  {
    RunThree(s, StartWatchdog(id, watchdogStarts), Finish(id), GiveBack(id), []);
    assert s.requests[id := Serving][id := Leaving][id := Gone] == s.requests[id := Gone];
  }

  // ----- every slot is given back once -----

  /** The step puts the slot of `id` back. */
  predicate GivesBack(s: Server, a: Act, id: nat) {
    (a == GiveBack(id) && Is(s, id, Leaving)) || (a == SetTimeout(id, false) && Is(s, id, Admitted))
  }

  predicate Takes(s: Server, a: Act, id: nat) {
    a == Acquire(id) && Is(s, id, Arrived) && s.k.free > 0
  }

  function TimesTaken(s: Server, acts: seq<Act>, id: nat): nat
    decreases |acts|
  {
    if acts == [] then 0 else (if Takes(s, acts[0], id) then 1 else 0) + TimesTaken(Step(s, acts[0]), acts[1..], id)
  }

  function TimesGivenBack(s: Server, acts: seq<Act>, id: nat): nat
    decreases |acts|
  {
    if acts == [] then 0
    else (if GivesBack(s, acts[0], id) then 1 else 0) + TimesGivenBack(Step(s, acts[0]), acts[1..], id)
  }

  function HoldsNow(s: Server, id: nat): nat {
    if id in s.requests && Holds(s.requests[id]) then 1 else 0
  }

  function MayTake(s: Server, id: nat): nat {
    if id !in s.requests || s.requests[id] == Arrived then 1 else 0
  }

  lemma StepTakesOrGives(s: Server, a: Act, id: nat)
    ensures var s' := Step(s, a);
      var taken, given := if Takes(s, a, id) then 1 else 0, if GivesBack(s, a, id) then 1 else 0;
      && HoldsNow(s', id) + given == HoldsNow(s, id) + taken
      && taken + MayTake(s', id) <= MayTake(s, id)
  {
  }

  lemma {:induction false} TakenAndGivenBack(s: Server, acts: seq<Act>, id: nat)
    ensures var e := Run(s, acts);
      && HoldsNow(e, id) + TimesGivenBack(s, acts, id) == HoldsNow(s, id) + TimesTaken(s, acts, id)
      && TimesTaken(s, acts, id) + MayTake(e, id) <= MayTake(s, id)
    decreases |acts|
  {
    if acts != [] {
      StepTakesOrGives(s, acts[0], id);
      hide Step, Takes, GivesBack, HoldsNow, MayTake;
      TakenAndGivenBack(Step(s, acts[0]), acts[1..], id);
    }
  }

  /** Every request takes at most one slot and gives it back at most once; it has given it back exactly when it took
      one and no longer holds it. The only phase it can be stuck in while holding is the leak: once every request has
      come to rest, the free slots are the limit less the leaks, so the full capacity is back if and only if every
      watchdog could be started. */
  lemma EverySlotComesBack(limit: nat, acts: seq<Act>, id: nat)
    ensures var e := Run(Start(limit), acts);
      && TimesGivenBack(Start(limit), acts, id) <= TimesTaken(Start(limit), acts, id) <= 1
      && (TimesGivenBack(Start(limit), acts, id) == TimesTaken(Start(limit), acts, id) <==> HoldsNow(e, id) == 0)
      && ((forall i :: i in e.requests ==> e.requests[i] in {Arrived, Refused, Gone, Leaked}) ==>
            && e.k.free == limit - |Leaks(e)|
            && (e.k.free == limit <==> Leaks(e) == {}))
  {
    TakenAndGivenBack(Start(limit), acts, id);
    SlotsAreConserved(limit, acts);
    var e := Run(Start(limit), acts);
    if forall i :: i in e.requests ==> e.requests[i] in {Arrived, Refused, Gone, Leaked} {
      assert Holders(e) == Leaks(e);
    }
  }

  /** One request whose watchdog cannot be started. */
  const LEAKING := [Connect(0), Acquire(0), SetTimeout(0, true), Mark(0), Spawn(0, true), StartWatchdog(0, false)]

  /** It comes to rest, and one slot is gone. */
  lemma OneLeakHappens(limit: nat)
    requires limit > 0
    ensures var e := Run(Start(limit), LEAKING);
      e.requests == map[0 := Leaked] && Leaks(e) == {0} && e.k.free == limit - 1
  {
    var s0 := Start(limit);
    var s1 := Step(s0, Connect(0));
    var s2 := Step(s1, Acquire(0));
    var s3 := Step(s2, SetTimeout(0, true));
    var s4 := Step(s3, Mark(0));
    var s5 := Step(s4, Spawn(0, true));
    var s6 := Step(s5, StartWatchdog(0, false));
    assert s6.requests == map[0 := Leaked] && s6.k.free == limit - 1;
    assert Run(s6, []) == s6;
    hide Step, Run;
    RunSplit(s0, LEAKING);
    RunSplit(s1, LEAKING[1..]);
    RunSplit(s2, LEAKING[1..][1..]);
    RunSplit(s3, LEAKING[1..][1..][1..]);
    RunSplit(s4, LEAKING[1..][1..][1..][1..]);
    RunSplit(s5, LEAKING[1..][1..][1..][1..][1..]);
    assert LEAKING[1..][1..][1..][1..][1..][1..] == [];
  }
}
