/** The database connection pool: a bounded queue of idle connections and counters under a lock, used by any number
    of borrowers at once. */
module ConnectionPool {
  import opened Common

  /** Connections are numbered in the order they were opened. `lost` counts slots whose connection could not be
      opened; `overflowed` records the queue-full branch of a release. */
  datatype Store = Store(size: nat, created: int, idle: seq<nat>, inUse: int, minted: nat, lost: nat, overflowed: bool)

  function Take(p: Store): (Store, Option<nat>) {
    if p.idle == [] then (p, None) else (p.(idle := p.idle[1..]), Some(p.idle[0]))
  }

  /** Under the lock: open a connection if the pool has not reached its size. */
  function Open(p: Store): (Store, Option<nat>) {
    if p.created < p.size then (p.(created := p.created + 1, minted := p.minted + 1), Some(p.minted)) else (p, None)
  }

  function Put(p: Store, c: nat): Store {
    if |p.idle| < p.size then p.(idle := p.idle + [c])
    else p.(created := p.created - 1, overflowed := true)
  }

  class Pool {
    var p: Store

    constructor (size: nat)
      ensures p == Store(size, 0, [], 0, 0, 0, false)
    {
      p := Store(size, 0, [], 0, 0, 0, false);
    }

    /** Borrow with nobody else around: an idle connection if there is one, a new one if the size allows, and
        otherwise the wait is in vain. */
    method Acquire() returns (c: Option<nat>)
      modifies this
      ensures c == None <==> old(p).idle == [] && old(p).created >= old(p).size
      ensures c == None ==> p == old(p)
      ensures c.Some? && old(p).idle != [] ==>
        p == old(p).(idle := old(p).idle[1..], inUse := old(p).inUse + 1) && c.value == old(p).idle[0]
      ensures c.Some? && old(p).idle == [] ==>
        && p == old(p).(created := old(p).created + 1, minted := old(p).minted + 1, inUse := old(p).inUse + 1)
        && c.value == old(p).minted
    {
      if p.idle != [] {
        c := Some(p.idle[0]);
        p := p.(idle := p.idle[1..]);
      } else if p.created < p.size {
        c := Some(p.minted);
        p := p.(created := p.created + 1, minted := p.minted + 1);
      } else {
        return None;
      }
      p := p.(inUse := p.inUse + 1);
    }

    /** The connection waits behind the idle ones as long as there is room, so whoever takes the idle ones in turn
        gets it last. */
    method Release(c: nat)
      modifies this
      ensures p == Put(old(p).(inUse := old(p).inUse - 1), c)
      ensures p.inUse == old(p).inUse - 1 && (c in p.idle || p.overflowed)
      ensures |old(p).idle| < old(p).size ==>
        p.idle == old(p).idle + [c] && p.created == old(p).created && p.overflowed == old(p).overflowed
      ensures |old(p).idle| >= old(p).size ==>
        p.idle == old(p).idle && p.created == old(p).created - 1 && p.overflowed
    {
      p := p.(inUse := p.inUse - 1);
      if |p.idle| < p.size {
        p := p.(idle := p.idle + [c]);
      } else {
        p := p.(created := p.created - 1, overflowed := true);
      }
    }
  }

  // ----- all borrowers at once -----

  datatype Borrower =
    | Asking
    | Short
    | Waiting
    | Got(c: nat)
    | Lent(c: nat)
    | Returning(c: nat)
    | Finished
    | TimedOut

  datatype Shared = Shared(p: Store, who: map<nat, Borrower>)

  datatype Act =
    | Ask(id: nat)
    | TryGet(id: nat)
    | CreateOrWait(id: nat)
    | CreateFails(id: nat)
    | WaitGet(id: nat)
    | GiveUp(id: nat)
    | CountIn(id: nat)
    | CountOut(id: nat)
    | PutBack(id: nat)

  function At(s: Shared, id: nat, b: Borrower): Shared {
    s.(who := s.who[id := b])
  }

  function Of(s: Shared, id: nat): Borrower {
    if id in s.who then s.who[id] else Finished
  }

  /** One atomic step: a queue operation, a counter update under the lock, or a decision of the environment. */
  function Step(s: Shared, a: Act): Shared {
    var b := Of(s, a.id);
    match a
    case Ask(id) => if id in s.who then s else At(s, id, Asking)
    case TryGet(id) =>
      if b != Asking then s
      else
        var (p, c) := Take(s.p);
        At(s.(p := p), id, if c.Some? then Got(c.value) else Short)
    case CreateOrWait(id) =>
      if b != Short then s
      else
        var (p, c) := Open(s.p);
        At(s.(p := p), id, if c.Some? then Got(c.value) else Waiting)
    case CreateFails(id) =>
      if b != Short || s.p.created >= s.p.size then s
      else At(s.(p := s.p.(created := s.p.created + 1, lost := s.p.lost + 1)), id, Finished)
    case WaitGet(id) =>
      if b != Waiting || s.p.idle == [] then s
      else At(s.(p := Take(s.p).0), id, Got(s.p.idle[0]))
    case GiveUp(id) => if b != Waiting then s else At(s, id, TimedOut)
    case CountIn(id) =>
      if !b.Got? then s else At(s.(p := s.p.(inUse := s.p.inUse + 1)), id, Lent(b.c))
    case CountOut(id) =>
      if !b.Lent? then s else At(s.(p := s.p.(inUse := s.p.inUse - 1)), id, Returning(b.c))
    case PutBack(id) =>
      if !b.Returning? then s else At(s.(p := Put(s.p, b.c)), id, Finished)
  }

  function Run(s: Shared, acts: seq<Act>): Shared
    decreases |acts|
  {
    if acts == [] then s else Run(Step(s, acts[0]), acts[1..])
  }

  lemma RunTwo(s: Shared, a: Act, b: Act, rest: seq<Act>)
    ensures Run(s, [a, b] + rest) == Run(Step(Step(s, a), b), rest)
  {
    hide Step;
    var acts := [a, b] + rest;
    assert acts[1..] == [b] + rest && acts[1..][1..] == rest;
    assert Run(s, acts) == Run(Step(s, a), acts[1..]);
    assert Run(Step(s, a), acts[1..]) == Run(Step(Step(s, a), b), rest);
  }

  lemma RunNone(s: Shared)
    ensures Run(s, []) == s
  {
  }

  /** A borrower that moves twice is where it moved to last. */
  lemma MovesTwice(s: Shared, id: nat, b: Borrower, p: Store, b': Borrower)
    ensures At(At(s, id, b).(p := p), id, b') == At(s.(p := p), id, b')
  {
  }

  lemma LendsTo(s: Shared, p: Store, id: nat, c: nat)
    ensures Run(Step(Step(At(s.(p := p), id, Got(c)), CreateOrWait(id)), CountIn(id)), [])
         == At(s.(p := p.(inUse := p.inUse + 1)), id, Lent(c))
  {
    var s' := At(s.(p := p), id, Got(c));
    assert Step(s', CreateOrWait(id)) == s';
    MovesTwice(s.(p := p), id, Got(c), p.(inUse := p.inUse + 1), Lent(c));
    hide Run;
    RunNone(At(s.(p := p.(inUse := p.inUse + 1)), id, Lent(c)));
  }

  lemma OpensOrWaits(s: Shared, p: Store, id: nat)
    ensures Run(Step(Step(At(s.(p := p), id, Short), CreateOrWait(id)), CountIn(id)), [])
         == if p.created < p.size then
              At(s.(p := p.(created := p.created + 1, minted := p.minted + 1, inUse := p.inUse + 1)), id,
                 Lent(p.minted))
            else At(s.(p := p), id, Waiting)
  {
    hide Run;
    if p.created < p.size {
      var p', c := p.(created := p.created + 1, minted := p.minted + 1), p.minted;
      MovesTwice(s.(p := p), id, Short, p', Got(c));
      assert Step(At(s.(p := p), id, Short), CreateOrWait(id)) == At(s.(p := p'), id, Got(c));
      MovesTwice(s.(p := p'), id, Got(c), p'.(inUse := p'.inUse + 1), Lent(c));
      RunNone(At(s.(p := p'.(inUse := p'.inUse + 1)), id, Lent(c)));
    } else {
      MovesTwice(s.(p := p), id, Short, p, Waiting);
      RunNone(At(s.(p := p), id, Waiting));
    }
  }

  /** Borrowing with nobody in between is a run of the steps: the longest idle connection if there is one, a new one if
      the size allows, otherwise a wait. */
  lemma BorrowIsRun(s: Shared, id: nat)
    requires id !in s.who
    ensures Run(s, [Ask(id), TryGet(id)] + ([CreateOrWait(id), CountIn(id)] + []))
         == if s.p.idle != [] then
              At(s.(p := s.p.(idle := s.p.idle[1..], inUse := s.p.inUse + 1)), id, Lent(s.p.idle[0]))
            else if s.p.created < s.p.size then
              At(s.(p := s.p.(created := s.p.created + 1, minted := s.p.minted + 1, inUse := s.p.inUse + 1)), id,
                 Lent(s.p.minted))
            else At(s, id, Waiting)
  {
    RunTwo(s, Ask(id), TryGet(id), [CreateOrWait(id), CountIn(id)] + []);
    var s' := Step(Step(s, Ask(id)), TryGet(id));
    RunTwo(s', CreateOrWait(id), CountIn(id), []);
    var p, b := Take(s.p).0, if s.p.idle != [] then Got(s.p.idle[0]) else Short;
    MovesTwice(s, id, Asking, p, b);
    assert s' == At(s.(p := p), id, b);
    hide Run;
    if b.Got? {
      LendsTo(s, p, id, b.c);
    } else {
      OpensOrWaits(s, p, id);
    }
  }

  /** A borrower that has waited gets the longest idle connection. */
  lemma WaitIsRun(s: Shared, id: nat)
    requires Of(s, id) == Waiting && s.p.idle != []
    ensures Run(s, [WaitGet(id), CountIn(id)] + [])
         == At(s.(p := s.p.(idle := s.p.idle[1..], inUse := s.p.inUse + 1)), id, Lent(s.p.idle[0]))
  {
    RunTwo(s, WaitGet(id), CountIn(id), []);
    var c, p := s.p.idle[0], s.p.(idle := s.p.idle[1..]);
    assert Step(s, WaitGet(id)) == At(s.(p := p), id, Got(c));
    hide Run;
    MovesTwice(s.(p := p), id, Got(c), p.(inUse := p.inUse + 1), Lent(c));
    RunNone(At(s.(p := p.(inUse := p.inUse + 1)), id, Lent(c)));
  }

  lemma PutsBack(s: Shared, id: nat, c: nat)
    requires |s.p.idle| < s.p.size
    ensures Step(At(s, id, Returning(c)), PutBack(id)) == At(s.(p := s.p.(idle := s.p.idle + [c])), id, Finished)
  {
    MovesTwice(s, id, Returning(c), s.p.(idle := s.p.idle + [c]), Finished);
  }

  lemma ReturnsConnection(s: Shared, id: nat)
    requires Of(s, id).Lent? && |s.p.idle| < s.p.size
    ensures Step(Step(s, CountOut(id)), PutBack(id))
         == At(s.(p := s.p.(idle := s.p.idle + [s.who[id].c], inUse := s.p.inUse - 1)), id, Finished)
  {
    var c, p := s.who[id].c, s.p.(inUse := s.p.inUse - 1);
    assert Step(s, CountOut(id)) == At(s.(p := p), id, Returning(c));
    PutsBack(s.(p := p), id, c);
    hide Step;
  }

  /** One that returns puts its connection behind the others. */
  lemma ReturnIsRun(s: Shared, id: nat)
    requires Of(s, id).Lent? && |s.p.idle| < s.p.size
    ensures Run(s, [CountOut(id), PutBack(id)] + [])
         == At(s.(p := s.p.(idle := s.p.idle + [s.who[id].c], inUse := s.p.inUse - 1)), id, Finished)
  {
    RunTwo(s, CountOut(id), PutBack(id), []);
    ReturnsConnection(s, id);
    hide Run, Step, At, Of;
    RunNone(Step(Step(s, CountOut(id)), PutBack(id)));
  }

  function Start(size: nat): Shared {
    Shared(Store(size, 0, [], 0, 0, 0, false), map[])
  }

  predicate Has(b: Borrower) {
    b.Got? || b.Lent? || b.Returning?
  }

  /** The borrowers holding a connection, counted or not yet or no longer counted. */
  function Holders(s: Shared): set<nat> {
    set id | id in s.who && Has(s.who[id])
  }

  function Lenders(s: Shared): set<nat> {
    set id | id in s.who && s.who[id].Lent?
  }

  ghost predicate Counts(s: Shared) {
    && s.p.created == |s.p.idle| + |Holders(s)| + s.p.lost
    && s.p.created <= s.p.size
    && s.p.inUse == |Lenders(s)|
    && !s.p.overflowed
  }

  /** No connection is in two places. */
  ghost predicate Distinct(s: Shared) {
    && (forall i, j :: 0 <= i < j < |s.p.idle| ==> s.p.idle[i] != s.p.idle[j])
    && (forall id :: id in s.who && Has(s.who[id]) ==> s.who[id].c !in s.p.idle && s.who[id].c < s.p.minted)
    && (forall x, y :: x in s.who && y in s.who && x != y && Has(s.who[x]) && Has(s.who[y]) ==>
        s.who[x].c != s.who[y].c)
    && (forall i :: 0 <= i < |s.p.idle| ==> s.p.idle[i] < s.p.minted)
  }

  lemma MovedHolders(s: Shared, id: nat, b: Borrower)
    ensures |Holders(At(s, id, b))| == |Holders(s)| + (if Has(b) then 1 else 0) - (if Has(Of(s, id)) then 1 else 0)
  {
    assert Holders(At(s, id, b)) == (if Has(b) then Holders(s) + {id} else Holders(s) - {id});
  }

  lemma MovedLenders(s: Shared, id: nat, b: Borrower)
    ensures |Lenders(At(s, id, b))| == |Lenders(s)| + (if b.Lent? then 1 else 0) - (if Of(s, id).Lent? then 1 else 0)
  {
    assert Lenders(At(s, id, b)) == (if b.Lent? then Lenders(s) + {id} else Lenders(s) - {id});
  }

  lemma StepCounts(s: Shared, a: Act)
    requires Counts(s)
    ensures Counts(Step(s, a)) && Step(s, a).p.size == s.p.size
  {
    var s' := Step(s, a);
    if s' != s {
      var b := s'.who[a.id];
      assert Holders(s') == Holders(At(s, a.id, b)) && Lenders(s') == Lenders(At(s, a.id, b));
      MovedHolders(s, a.id, b);
      MovedLenders(s, a.id, b);
      assert Has(Of(s, a.id)) ==> a.id in Holders(s);
      hide Holders, Lenders;
    }
  }

  /** A borrower that holds no more than before, with the queue as it was. */
  lemma PhaseDistinct(s: Shared, p: Store, id: nat, b: Borrower)
    requires Distinct(s) && (Has(b) ==> Has(Of(s, id)) && Of(s, id).c == b.c)
    requires p.idle == s.p.idle && p.minted == s.p.minted
    ensures Distinct(At(s.(p := p), id, b))
  {
  }

  lemma TakeDistinct(s: Shared, id: nat)
    requires Distinct(s) && s.p.idle != []
    ensures Distinct(At(s.(p := Take(s.p).0), id, Got(s.p.idle[0])))
  {
  }

  lemma OpenDistinct(s: Shared, id: nat)
    requires Distinct(s) && s.p.created < s.p.size
    ensures Distinct(At(s.(p := Open(s.p).0), id, Got(s.p.minted)))
  {
  }

  lemma PutDistinct(s: Shared, id: nat)
    requires Distinct(s) && Of(s, id).Returning?
    ensures Distinct(At(s.(p := Put(s.p, Of(s, id).c)), id, Finished))
  {
  }

  lemma StepDistinct(s: Shared, a: Act)
    requires Distinct(s)
    ensures Distinct(Step(s, a))
  {
    var b := Of(s, a.id);
    hide Distinct;
    if a.WaitGet? || a.TryGet? {
      if s.p.idle != [] {
        TakeDistinct(s, a.id);
      } else {
        PhaseDistinct(s, s.p, a.id, Short);
      }
    } else if a.CreateOrWait? && s.p.created < s.p.size {
      OpenDistinct(s, a.id);
    } else if a.PutBack? && b.Returning? {
      PutDistinct(s, a.id);
    } else {
      var s' := Step(s, a);
      if s' != s {
        PhaseDistinct(s, s'.p, a.id, s'.who[a.id]);
      }
    }
  }

  lemma {:induction false} RunInv(s: Shared, acts: seq<Act>)
    requires Counts(s) && Distinct(s)
    ensures Counts(Run(s, acts)) && Distinct(Run(s, acts)) && Run(s, acts).p.size == s.p.size
    decreases |acts|
  {
    if acts != [] {
      StepCounts(s, acts[0]);
      StepDistinct(s, acts[0]);
      hide Counts, Distinct, Step;
      RunInv(Step(s, acts[0]), acts[1..]);
    }
  }

  /** Under every interleaving of borrowers: the connections opened are exactly the idle ones, the ones held and the
      slots lost to failed openings, and never exceed the size; the in-use counter is the number of counted loans; no
      connection is held twice or both held and idle; and a release always finds room in the queue. */
  lemma PoolIsSound(size: nat, acts: seq<Act>, x: nat, y: nat)
    ensures var s := Run(Start(size), acts);
      && s.p.created == |s.p.idle| + |Holders(s)| + s.p.lost <= size
      && 0 <= s.p.inUse == |Lenders(s)|
      && !s.p.overflowed
      && (x in Holders(s) ==> s.who[x].c !in s.p.idle)
      && (x in Holders(s) && y in Holders(s) && x != y ==> s.who[x].c != s.who[y].c)
  {
    var s0 := Start(size);
    assert Holders(s0) == {} && Lenders(s0) == {};
    RunInv(s0, acts);
  }
}
