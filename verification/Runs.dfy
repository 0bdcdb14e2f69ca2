/** That one state of the system leads to another, and whose actions it takes. */
module Runs {
  import opened ObjectNames
  import opened TaskDb
  import opened Protocol
  import Worker
  import Upload

  /** A worker acts through its thread and its heartbeats; `Adjust` is the world outside. */
  datatype Actor = Anyone | WorkerOnly(w: string) | Attempt(w: string) | RequestOnly(u: Thread)

  predicate By(who: Actor, a: Action) {
    match who
    case Anyone => true
    case WorkerOnly(w) => a.Work? && a.w == w
    case Attempt(w) => (a.Work? && a.w == w) || ((a.Renew? || a.RenewError?) && a.key.owner == w) || a.Adjust?
    case RequestOnly(u) => a.Request? && a.u == u
  }

  predicate AllBy(who: Actor, run: seq<Action>) {
    forall i :: 0 <= i < |run| ==> By(who, run[i])
  }

  ghost predicate Leads(c: Config, s: System, e: System, who: Actor) {
    exists run :: AllBy(who, run) && Exec(c, s, run) == e
  }

  /** Some run from an empty database and an empty directory ends here. */
  ghost predicate Reachable(c: Config, accounts: map<int, real>, s: System) {
    Leads(c, Start(accounts), s, Anyone)
  }

  lemma LeadsNowhere(c: Config, s: System, who: Actor)
    ensures Leads(c, s, s, who)
  {
    assert AllBy(who, []) && Exec(c, s, []) == s;
  }

  lemma LeadsBy(c: Config, s: System, a: Action, who: Actor)
    requires By(who, a)
    ensures Leads(c, s, Step(c, s, a), who)
  {
    hide Step;
    assert Exec(c, s, [a]) == Exec(c, Step(c, s, a), []);
    assert AllBy(who, [a]);
  }

  lemma LeadsOn(c: Config, s: System, m: System, e: System, who: Actor)
    requires Leads(c, s, m, who) && Leads(c, m, e, who)
    ensures Leads(c, s, e, who)
  {
    hide Exec, By;
    var a :| AllBy(who, a) && Exec(c, s, a) == m;
    var b :| AllBy(who, b) && Exec(c, m, b) == e;
    ExecConcat(c, s, a, b);
    assert AllBy(who, a + b);
  }

  lemma LeadsInv(c: Config, s: System, e: System, who: Actor)
    requires Inv(c, s) && Leads(c, s, e, who)
    ensures Inv(c, e)
  {
    hide Inv, Exec;
    var run :| AllBy(who, run) && Exec(c, s, run) == e;
    RunInv(c, s, run);
  }

  lemma ReachableInv(c: Config, accounts: map<int, real>, s: System)
    requires Solvent(accounts) && Reachable(c, accounts, s)
    ensures Inv(c, s)
  {
    hide Inv;
    StartInv(c, accounts);
    LeadsInv(c, Start(accounts), s, Anyone);
  }

  // ----- one thread at a time -----

  /** `s` with the tables `t`, the worker `w` at `pc`, and the heartbeat `key` as it stands. */
  function WorkAt(s: System, t: Tables, w: string, pc: Worker.Pc, key: BeatKey, b: Beat): System {
    s.(tables := t, workers := s.workers[w := pc], beats := s.beats[key := b])
  }

  /** `s` with the tables `t` and the worker `w` at `pc`, before it has a heartbeat. */
  function ClaimAt(s: System, t: Tables, w: string, pc: Worker.Pc): System {
    s.(tables := t, workers := s.workers[w := pc])
  }

  /** `s` with the tables `t`, the directory `files` and the request `u` at `pc`. */
  function RequestAt(s: System, t: Tables, files: Upload.Files, u: Thread, pc: Upload.Pc): System {
    s.(tables := t, files := files, uploads := s.uploads[u := pc])
  }

  lemma ClaimSteps(c: Config, s: System, t: Tables, w: string, pc: Worker.Pc, act: Worker.Act)
    requires !Worker.HasTicket(pc) && !act.ReadBack?
    ensures var e := Worker.Step(c.processingLease, t, w, pc, false, act);
      Step(c, ClaimAt(s, t, w, pc), Work(w, act)) == ClaimAt(s, e.tables, w, e.pc)
  {
    hide Worker.Step;
    var e := Worker.Step(c.processingLease, t, w, pc, false, act);
    assert s.workers[w := pc][w := e.pc] == s.workers[w := e.pc];
  }

  lemma ClaimMoves(c: Config, s: System, t: Tables, w: string, pc: Worker.Pc, act: Worker.Act)
    requires !Worker.HasTicket(pc) && !act.ReadBack?
    ensures var e := Worker.Step(c.processingLease, t, w, pc, false, act);
      Leads(c, ClaimAt(s, t, w, pc), ClaimAt(s, e.tables, w, e.pc), WorkerOnly(w))
  {
    hide Worker.Step, Step;
    ClaimSteps(c, s, t, w, pc, act);
    LeadsBy(c, ClaimAt(s, t, w, pc), Work(w, act), WorkerOnly(w));
  }

  lemma RequestSteps(c: Config, s: System, t: Tables, files: Upload.Files, u: Thread, pc: Upload.Pc, act: Upload.Act)
    ensures var e := Upload.Step(c, t, files, u, pc, act);
      Step(c, RequestAt(s, t, files, u, pc), Request(u, act)) == RequestAt(s, e.tables, e.files, u, e.pc)
  {
    hide Upload.Step;
    var e := Upload.Step(c, t, files, u, pc, act);
    assert s.uploads[u := pc][u := e.pc] == s.uploads[u := e.pc];
  }

  lemma RequestMoves(c: Config, s: System, t: Tables, files: Upload.Files, u: Thread, pc: Upload.Pc, act: Upload.Act)
    ensures var e := Upload.Step(c, t, files, u, pc, act);
      Leads(c, RequestAt(s, t, files, u, pc), RequestAt(s, e.tables, e.files, u, e.pc), RequestOnly(u))
  {
    hide Upload.Step, Step;
    RequestSteps(c, s, t, files, u, pc, act);
    LeadsBy(c, RequestAt(s, t, files, u, pc), Request(u, act), RequestOnly(u));
  }
}
