/** The per-instance cache of finished tasks, and why it may be trusted. */
module Cache {
  import opened Common
  import opened Tasks
  import opened TaskDb
  import opened Evolution
  import opened Protocol
  import Database

  datatype Payload = Payload(id: nat, userId: int, status: Status, retryCount: nat, objectKey: Option<string>,
                             resultMsg: Option<string>, detectedVersion: Option<string>,
                             requiredVersion: Option<string>, updatedAt: string)

  datatype Entry = Entry(value: Payload, storedAt: real)

  type Entries = map<nat, Entry>

  function PayloadOf(sid: nat, r: Row): Payload {
    Payload(sid, r.userId, r.status, r.retryCount, r.objectKey, r.resultMsg, r.detectedVersion, r.requiredVersion,
            r.updatedAt)
  }

  /** What a read without any cache answers. */
  function DbAnswer(t: Tables, sid: nat): Option<Payload> {
    if sid in t.rows then Some(PayloadOf(sid, t.rows[sid])) else None
  }

  function Live(d: Entries, now: real, hardTtl: real): Entries {
    map k | k in d && now - d[k].storedAt < hardTtl :: d[k]
  }

  class TTLCache {
    const hardTtl: real
    const softTtl: real
    var data: Entries

    constructor (hardTtl: real, softTtl: real)
      ensures this.hardTtl == hardTtl && this.softTtl == softTtl && data == map[]
    {
      this.hardTtl := hardTtl;
      this.softTtl := softTtl;
      data := map[];
    }

    /** Drop everything past the hard limit. */
    method Purge(now: real)
      modifies this
      ensures data == Live(old(data), now, hardTtl)
      ensures forall k :: k in data <==> k in old(data) && now - old(data)[k].storedAt < hardTtl
      ensures forall k :: k in data ==> data[k] == old(data)[k]
    {
      var expired := set k | k in data && now - data[k].storedAt >= hardTtl;
      var kept := data - expired;
      assert kept.Keys == Live(data, now, hardTtl).Keys;
      data := kept;
    }

    /** A hit is never older than the hard limit, and asks to be verified from the soft limit on. */
    method Get(key: nat, now: real) returns (value: Option<Payload>, needVerify: bool)
      modifies this
      ensures data == Live(old(data), now, hardTtl)
      ensures value.Some? <==> key in old(data) && now - old(data)[key].storedAt < hardTtl
      ensures value.Some? ==> value.value == old(data)[key].value
      ensures needVerify <==> value == None || now - old(data)[key].storedAt >= softTtl
    {
      Purge(now);
      if key !in data {
        return None, true;
      }
      value := Some(data[key].value);
      needVerify := now - data[key].storedAt >= softTtl;
    }

    method Set(key: nat, value: Payload, now: real)
      modifies this
      ensures data == old(data)[key := Entry(value, now)]
    {
      data := data[key := Entry(value, now)];
    }

    method Invalidate(key: nat)
      modifies this
      ensures data == old(data) - {key}
    {
      data := data - {key};
    }
  }

  // ----- coherence -----

  ghost predicate Frozen(t: Tables, sid: nat, p: Payload) {
    sid in t.rows && IsTerminal(t.rows[sid].status) && p == PayloadOf(sid, t.rows[sid])
  }

  /** Whatever is cached is the database's answer about a finished task. */
  ghost predicate Coherent(t: Tables, d: Entries) {
    forall sid :: sid in d ==> Frozen(t, sid, d[sid].value)
  }

  /** What one undisturbed read leaves in the cache, what it answers, and whether it met a conflict. */
  function ReadResult(d: Entries, t: Tables, sid: nat, now: real, later: real, hardTtl: real, softTtl: real)
    : (Entries, Option<Payload>, bool)
  {
    var live := Live(d, now, hardTtl);
    if sid in live && now - live[sid].storedAt < softTtl then (live, Some(live[sid].value), false)
    else if sid !in t.rows then (live - {sid}, None, false)
    else
      var p := PayloadOf(sid, t.rows[sid]);
      if sid in live then (live[sid := Entry(p, later)], Some(p), live[sid].value.updatedAt != p.updatedAt)
      else if IsTerminal(p.status) then (live[sid := Entry(p, later)], Some(p), false)
      else (live - {sid}, Some(p), false)
  }

  /** `read_task`, uninterrupted: over a coherent cache it answers as the database would, for any limits and any two
      clock readings, keeps the cache coherent and never meets a conflicting entry. */
  method ReadTask(db: Database.Database, cache: TTLCache, sid: nat, now: real, later: real)
    returns (answer: Option<Payload>, conflict: bool)
    requires Coherent(db.View(), cache.data)
    modifies cache
    ensures answer == DbAnswer(db.View(), sid)
    ensures answer == None <==> sid !in db.rows
    ensures answer.Some? ==>
      var p, r := answer.value, db.rows[sid];
      && p.id == sid && p.userId == r.userId && p.status == r.status && p.retryCount == r.retryCount
      && p.objectKey == r.objectKey && p.resultMsg == r.resultMsg && p.updatedAt == r.updatedAt
      && p.detectedVersion == r.detectedVersion && p.requiredVersion == r.requiredVersion
    ensures !conflict
    ensures Coherent(db.View(), cache.data)
    ensures sid in cache.data <==> sid in db.rows && db.rows[sid].status in {Status.Done, Dlq, Rejected}
    ensures sid in cache.data ==> Some(cache.data[sid].value) == answer
    ensures sid in cache.data ==>
      var old' := old(cache.data);
      cache.data[sid].storedAt
      == if sid in old' && now - old'[sid].storedAt < cache.hardTtl && now - old'[sid].storedAt < cache.softTtl
         then old'[sid].storedAt else later
    ensures forall x :: x != sid ==> (x in cache.data <==> x in old(cache.data)
                                                           && now - old(cache.data)[x].storedAt < cache.hardTtl)
    ensures forall x :: x != sid && x in cache.data ==> cache.data[x] == old(cache.data)[x]
    ensures (cache.data, answer, conflict)
         == ReadResult(old(cache.data), db.View(), sid, now, later, cache.hardTtl, cache.softTtl)
  {
    conflict := false;
    var cached, needVerify := cache.Get(sid, now);
    if cached.Some? && !needVerify {
      return cached, false;
    }
    if sid !in db.rows {
      cache.Invalidate(sid);
      return None, false;
    }
    var payload := PayloadOf(sid, db.rows[sid]);
    if cached.Some? {
      conflict := cached.value.updatedAt != payload.updatedAt;
      cache.Set(sid, payload, later);
      return Some(payload), conflict;
    }
    if IsTerminal(payload.status) {
      cache.Set(sid, payload, later);
    } else {
      cache.Invalidate(sid);
    }
    return Some(payload), false;
  }

  // ----- readers interleaved with everything else -----

  datatype Reader =
    | Waiting
    | Fetching(sid: nat, cached: Option<Payload>)
    | Storing(sid: nat, payload: Payload, conflict: bool)
    | Dropping(sid: nat, answer: Option<Payload>)
    | FromCache(sid: nat, payload: Payload)
    | FromDb(sid: nat, answer: Option<Payload>, conflict: bool)

  datatype ReadAct =
    | Look(sid: nat, now: real)
    | Fetch
    | Store(now: real)
    | Forget
    | Done

  /** One API instance: a cache shared by its reader threads, beside the rest of the system. */
  datatype Instance = Instance(sys: System, data: Entries, readers: map<nat, Reader>, hardTtl: real, softTtl: real)

  datatype Event = Elsewhere(a: Action) | Read(id: nat, act: ReadAct)

  function ReaderOf(i: Instance, id: nat): Reader {
    if id in i.readers then i.readers[id] else Waiting
  }

  function ReadStep(i: Instance, id: nat, act: ReadAct): Instance {
    var pc := ReaderOf(i, id);
    var rows := i.sys.tables.rows;
    match act
    case Look(sid, now) =>
      if pc != Waiting then i
      else
        var d := Live(i.data, now, i.hardTtl);
        var pc' := if sid in d && now - d[sid].storedAt < i.softTtl then FromCache(sid, d[sid].value)
                   else Fetching(sid, if sid in d then Some(d[sid].value) else None);
        i.(data := d, readers := i.readers[id := pc'])
    case Fetch =>
      if !pc.Fetching? then i
      else if pc.sid !in rows then i.(readers := i.readers[id := Dropping(pc.sid, None)])
      else
        var p := PayloadOf(pc.sid, rows[pc.sid]);
        i.(readers := i.readers[id :=
          if pc.cached.Some? then Storing(pc.sid, p, pc.cached.value.updatedAt != p.updatedAt)
          else if IsTerminal(p.status) then Storing(pc.sid, p, false)
          else Dropping(pc.sid, Some(p))])
    case Store(now) =>
      if !pc.Storing? then i
      else i.(data := i.data[pc.sid := Entry(pc.payload, now)],
              readers := i.readers[id := FromDb(pc.sid, Some(pc.payload), pc.conflict)])
    case Forget =>
      if !pc.Dropping? then i
      else i.(data := i.data - {pc.sid}, readers := i.readers[id := FromDb(pc.sid, pc.answer, false)])
    case Done => if pc.FromCache? || pc.FromDb? then i.(readers := i.readers[id := Waiting]) else i
  }

  function InstanceStep(c: Config, i: Instance, e: Event): Instance {
    match e
    case Elsewhere(a) => i.(sys := Step(c, i.sys, a))
    case Read(id, act) => ReadStep(i, id, act)
  }

  function InstanceRun(c: Config, i: Instance, run: seq<Event>): Instance
    decreases |run|
  {
    if run == [] then i else InstanceRun(c, InstanceStep(c, i, run[0]), run[1..])
  }

  /** The steps of one read; those that do not apply on a given path do nothing. */
  function ReadSteps(id: nat, sid: nat, now: real, later: real): seq<Event> {
    [Read(id, Look(sid, now))] + [Read(id, Fetch)] + [Read(id, Store(later))] + [Read(id, Forget)]
  }

  lemma FourReads(c: Config, i: Instance, e1: Event, e2: Event, e3: Event, e4: Event)
    ensures InstanceRun(c, i, [e1] + [e2] + [e3] + [e4])
         == InstanceStep(c, InstanceStep(c, InstanceStep(c, InstanceStep(c, i, e1), e2), e3), e4)
  {
    hide InstanceStep;
    var all := [e1] + [e2] + [e3] + [e4];
    assert all[1..] == [e2] + [e3] + [e4] && all[1..][1..] == [e3] + [e4] && all[1..][1..][1..] == [e4];
    var i1 := InstanceStep(c, i, e1);
    var i2 := InstanceStep(c, i1, e2);
    var i3 := InstanceStep(c, i2, e3);
    assert InstanceRun(c, i, all) == InstanceRun(c, i1, [e2] + [e3] + [e4]);
    assert InstanceRun(c, i1, all[1..]) == InstanceRun(c, i2, [e3] + [e4]);
    assert InstanceRun(c, i2, all[1..][1..]) == InstanceRun(c, i3, [e4]);
    assert InstanceRun(c, i3, [e4]) == InstanceRun(c, InstanceStep(c, i3, e4), []);
  }

  /** The read as the code runs it is one run of a reader's steps from any state in which the reader is free. */
  lemma ReadIsRunOfSteps(c: Config, i: Instance, id: nat, sid: nat, now: real, later: real)
    requires ReaderOf(i, id) == Waiting
    ensures var e := InstanceRun(c, i, ReadSteps(id, sid, now, later));
      var (d, answer, conflict) := ReadResult(i.data, i.sys.tables, sid, now, later, i.hardTtl, i.softTtl);
      && e.sys == i.sys && e.data == d
      && (ReaderOf(e, id) == FromDb(sid, answer, conflict)
          || (answer.Some? && !conflict && ReaderOf(e, id) == FromCache(sid, answer.value)))
      && (forall other :: other != id ==> ReaderOf(e, other) == ReaderOf(i, other))
  {
    FourReads(c, i, Read(id, Look(sid, now)), Read(id, Fetch), Read(id, Store(later)), Read(id, Forget));
    hide InstanceRun, Live, ReadStep, AfterFetch;
    Fetches(i, id, sid, now);
    Stores(ReadStep(ReadStep(i, id, Look(sid, now)), id, Fetch), id, later);
    FetchThenStore(Live(i.data, now, i.hardTtl), i.data, i.sys.tables, sid, now, later, i.hardTtl, i.softTtl);
  }

  /** Where a read stands after it has looked and, if need be, fetched; `live` is the cache without expired entries. */
  function AfterFetch(live: Entries, t: Tables, sid: nat, now: real, softTtl: real): Reader {
    if sid in live && now - live[sid].storedAt < softTtl then FromCache(sid, live[sid].value)
    else if sid !in t.rows then Dropping(sid, None)
    else
      var p := PayloadOf(sid, t.rows[sid]);
      if sid in live then Storing(sid, p, live[sid].value.updatedAt != p.updatedAt)
      else if IsTerminal(p.status) then Storing(sid, p, false)
      else Dropping(sid, Some(p))
  }

  lemma Fetches(i: Instance, id: nat, sid: nat, now: real)
    requires ReaderOf(i, id) == Waiting
    ensures var live := Live(i.data, now, i.hardTtl);
      var pc := AfterFetch(live, i.sys.tables, sid, now, i.softTtl);
      var e := ReadStep(ReadStep(i, id, Look(sid, now)), id, Fetch);
      e.sys == i.sys && e.data == live && e.readers == i.readers[id := pc]
  {
    hide Live;
  }

  /** What storing or dropping makes of the cache and of the reader. */
  function Stored(d: Entries, pc: Reader, later: real): (Entries, Reader) {
    match pc
    case Storing(sid, p, conflict) => (d[sid := Entry(p, later)], FromDb(sid, Some(p), conflict))
    case Dropping(sid, answer) => (d - {sid}, FromDb(sid, answer, false))
    case _ => (d, pc)
  }

  lemma Stores(i: Instance, id: nat, later: real)
    requires id in i.readers
    ensures var (d, pc) := Stored(i.data, i.readers[id], later);
      var e := ReadStep(ReadStep(i, id, Store(later)), id, Forget);
      e.sys == i.sys && e.data == d && e.readers == i.readers[id := pc]
  {
  }

  lemma FetchThenStore(live: Entries, d: Entries, t: Tables, sid: nat, now: real, later: real, hardTtl: real,
                       softTtl: real)
    requires live == Live(d, now, hardTtl)
    ensures var (d', answer, conflict) := ReadResult(d, t, sid, now, later, hardTtl, softTtl);
      var (stored, pc) := Stored(live, AfterFetch(live, t, sid, now, softTtl), later);
      && stored == d'
      && (pc == FromDb(sid, answer, conflict) || (answer.Some? && !conflict && pc == FromCache(sid, answer.value)))
  {
    hide Live;
  }

  ghost predicate ReaderOk(t: Tables, pc: Reader) {
    match pc
    case Fetching(sid, cached) => cached.Some? ==> Frozen(t, sid, cached.value)
    case Storing(sid, p, conflict) => Frozen(t, sid, p) && !conflict
    case FromCache(sid, p) => Frozen(t, sid, p)
    case FromDb(_, _, conflict) => !conflict
    case _ => true
  }

  ghost predicate InstanceOk(c: Config, i: Instance) {
    && Inv(c, i.sys)
    && Coherent(i.sys.tables, i.data)
    && (forall id :: id in i.readers ==> ReaderOk(i.sys.tables, i.readers[id]))
  }

  /** No step of the protocol changes a finished row. */
  lemma FrozenStays(t: Tables, t': Tables, sid: nat, p: Payload)
    requires Frozen(t, sid, p) && TablesEvolve(t, t')
    ensures Frozen(t', sid, p)
  {
  }

  lemma ReadStepOk(c: Config, i: Instance, id: nat, act: ReadAct)
    requires InstanceOk(c, i)
    ensures InstanceOk(c, ReadStep(i, id, act))
  {
    hide Inv;
  }

  lemma ElsewhereOk(c: Config, i: Instance, a: Action)
    requires InstanceOk(c, i)
    ensures InstanceOk(c, i.(sys := Step(c, i.sys, a)))
  {
    hide Inv, Step, TablesEvolve, Frozen;
    StepInv(c, i.sys, a);
    var t, t' := i.sys.tables, Step(c, i.sys, a).tables;
    forall sid | sid in i.data ensures Frozen(t', sid, i.data[sid].value) {
      FrozenStays(t, t', sid, i.data[sid].value);
    }
    forall id | id in i.readers ensures ReaderOk(t', i.readers[id]) {
      ReaderStays(t, t', i.readers[id]);
    }
  }

  lemma ReaderStays(t: Tables, t': Tables, pc: Reader)
    requires ReaderOk(t, pc) && TablesEvolve(t, t')
    ensures ReaderOk(t', pc)
  {
    hide TablesEvolve, Frozen;
    if pc.Fetching? && pc.cached.Some? {
      FrozenStays(t, t', pc.sid, pc.cached.value);
    } else if pc.Storing? || pc.FromCache? {
      FrozenStays(t, t', pc.sid, pc.payload);
    }
  }

  lemma {:induction false} InstanceRunOk(c: Config, i: Instance, run: seq<Event>)
    requires InstanceOk(c, i)
    ensures InstanceOk(c, InstanceRun(c, i, run))
    decreases |run|
  {
    if run != [] {
      hide InstanceOk;
      match run[0] {
        case Elsewhere(a) => ElsewhereOk(c, i, a);
        case Read(id, act) => ReadStepOk(c, i, id, act);
      }
      InstanceRunOk(c, InstanceStep(c, i, run[0]), run[1..]);
    }
  }

  function StartInstance(accounts: map<int, real>, hardTtl: real, softTtl: real): Instance {
    Instance(Start(accounts), map[], map[], hardTtl, softTtl)
  }

  /** For any limits, any clock readings and any interleaving of readers with the whole protocol: an answer taken from
      the cache is the one the database gives at that moment, and no reader ever finds the cache in conflict with the
      database. */
  lemma CacheAgreesWithDb(c: Config, accounts: map<int, real>, hardTtl: real, softTtl: real, run: seq<Event>, id: nat)
    requires Solvent(accounts)
    ensures var i := InstanceRun(c, StartInstance(accounts, hardTtl, softTtl), run);
      var pc := ReaderOf(i, id);
      && (pc.FromCache? ==> Some(pc.payload) == DbAnswer(i.sys.tables, pc.sid))
      && (pc.FromDb? ==> !pc.conflict)
  {
    var i := StartInstance(accounts, hardTtl, softTtl);
    StartInv(c, accounts);
    assert InstanceOk(c, i) by { hide Inv; }
    InstanceRunOk(c, i, run);
  }
}
