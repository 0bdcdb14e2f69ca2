/** The control row of the external provider, its incident log, and the calls it lets through. Opening and closing an
    incident are taken one at a time. */
module Provider {
  import opened Common
  import opened Recognize

  datatype TokenStatus = Active | Revoked
  datatype IncidentStatus = NoIncident | Contained | Closed

  datatype Event = Event(incident: string, stage: string)

  datatype Control = Control(
    enabled: bool,
    version: nat,
    token: TokenStatus,
    status: IncidentStatus,
    active: Option<string>,
    log: seq<Event>
  )

  const INITIAL := Control(true, 1, Active, NoIncident, None, [])

  const OPENING_STAGES := ["detected", "evidence_snapshot", "credential_revoked_rotated", "provider_paused",
                         "initial_escalation"]
  const CLOSING_STAGES := ["human_approval", "targeted_remediation", "vendor_confirmation", "credential_deployed",
                         "provider_resumed", "closed"]

  function Logged(incident: string, stages: seq<string>): (es: seq<Event>)
    ensures |es| == |stages| && forall i :: 0 <= i < |es| ==> es[i] == Event(incident, stages[i])
  {
    seq(|stages|, i requires 0 <= i < |stages| => Event(incident, stages[i]))
  }

  /** Containment at once: the old credential generation is invalid and the provider paused in the same transaction
      that opens the incident. `None` is the refusal while another incident is active. */
  function Begin(s: Control, incident: string): Option<Control> {
    if s.active.Some? then None
    else Some(Control(false, s.version + 1, Revoked, Contained, Some(incident),
                      s.log + Logged(incident, OPENING_STAGES)))
  }

  datatype Consent = Consent(human: bool, vendor: bool, deployed: bool)

  predicate IsActive(s: Control, incident: string) {
    s.status == Contained && s.active == Some(incident)
  }

  function Close(s: Control, incident: string, k: Consent): Option<Control> {
    if !k.human || !k.vendor || !k.deployed || !IsActive(s, incident) then None
    else Some(s.(enabled := true, token := Active, status := Closed, active := None,
                 log := s.log + Logged(incident, CLOSING_STAGES)))
  }

  /** An audit note; `requireActive` is the check the incident commands ask for. */
  function Record(s: Control, incident: string, stage: string, requireActive: bool): Option<Control> {
    if requireActive && !IsActive(s, incident) then None
    else Some(s.(log := s.log + [Event(incident, stage)]))
  }

  /** The row as an object; each method is one transaction. */
  class ProviderControl {
    var state: Control

    constructor ()
      ensures state == INITIAL
      ensures state == Control(true, 1, Active, NoIncident, None, [])
    {
      state := INITIAL;
    }

    method BeginTokenExposureIncident(incident: string) returns (ok: bool)
      modifies this
      ensures ok <==> old(state).active == None
      ensures ok ==> Begin(old(state), incident) == Some(state)
      ensures ok ==>
        && !state.enabled && state.token == Revoked && state.status == Contained && state.active == Some(incident)
        && state.version == old(state).version + 1
        && state.log == old(state).log + [
          Event(incident, "detected"), Event(incident, "evidence_snapshot"),
          Event(incident, "credential_revoked_rotated"), Event(incident, "provider_paused"),
          Event(incident, "initial_escalation")]
      ensures !ok ==> state == old(state)
    {
      if state.active.Some? {
        return false;
      }
      var before := state.log + [Event(incident, "detected"), Event(incident, "evidence_snapshot")];
      state := state.(enabled := false, version := state.version + 1, token := Revoked, status := Contained,
                      active := Some(incident));
      state := state.(log := before + [Event(incident, "credential_revoked_rotated"),
                                       Event(incident, "provider_paused"), Event(incident, "initial_escalation")]);
      assert state.log == old(state).log + Logged(incident, OPENING_STAGES);
      ok := true;
    }

    method CloseIncident(incident: string, k: Consent) returns (ok: bool)
      modifies this
      ensures ok <==>
        k.human && k.vendor && k.deployed && old(state).status == Contained && old(state).active == Some(incident)
      ensures ok ==> Close(old(state), incident, k) == Some(state)
      ensures ok ==>
        && state.enabled && state.token == Active && state.status == Closed && state.active == None
        && state.version == old(state).version
        && state.log == old(state).log + [
          Event(incident, "human_approval"), Event(incident, "targeted_remediation"),
          Event(incident, "vendor_confirmation"), Event(incident, "credential_deployed"),
          Event(incident, "provider_resumed"), Event(incident, "closed")]
      ensures !ok ==> state == old(state)
    {
      if !k.human || !k.vendor || !k.deployed {
        return false;
      }
      if state.status != Contained || state.active != Some(incident) {
        return false;
      }
      var before := state.log + [Event(incident, "human_approval"), Event(incident, "targeted_remediation"),
                                 Event(incident, "vendor_confirmation"), Event(incident, "credential_deployed")];
      state := state.(enabled := true, token := Active, status := Closed, active := None);
      state := state.(log := before + [Event(incident, "provider_resumed"), Event(incident, "closed")]);
      assert state.log == old(state).log + Logged(incident, CLOSING_STAGES);
      ok := true;
    }

    method RecordEvent(incident: string, stage: string, requireActive: bool) returns (ok: bool)
      modifies this
      ensures ok <==> !requireActive || (old(state).status == Contained && old(state).active == Some(incident))
      ensures ok ==> state == old(state).(log := old(state).log + [Event(incident, stage)])
      ensures ok ==> Record(old(state), incident, stage, requireActive) == Some(state)
      ensures !ok ==> state == old(state)
    {
      if requireActive && !IsActive(state, incident) {
        return false;
      }
      state := state.(log := state.log + [Event(incident, stage)]);
      ok := true;
    }
  }

  // ----- calling the provider -----

  /** The simulated vendor call: the gate first, then its own failure modes. */
  function CallVisionModel(s: Control, token: bool, configured: nat, sid: nat, retryCount: nat): ModelResult {
    if !s.enabled || s.token != Active then ModelResult(false, "", PAUSED)
    else if !token then ModelResult(false, "", TOKEN_MISSING)
    else if configured != s.version then ModelResult(false, "", STALE_CREDENTIAL)
    else if sid % 11 == 0 then ModelResult(false, "", UNAVAILABLE)
    else if sid % 5 == 0 && retryCount == 0 then ModelResult(false, "", TIMEOUT)
    else ModelResult(true, if sid % 7 == 0 then "10.0.19041" else "10.0.19045", SUCCESS)
  }

  /** The classification the worker relies on is exact: a call counts as a control block, and so spares the task's
      retries, precisely when the gate was shut; and a shut gate never yields a result. */
  lemma BlockedIffGateShut(s: Control, token: bool, configured: nat, sid: nat, retryCount: nat)
    ensures var r := CallVisionModel(s, token, configured, sid, retryCount);
      var open := s.enabled && s.token == Active && token && configured == s.version;
      (IsExternalControlBlock(r.msg) <==> !open) && (!open ==> !r.ok)
  {
    GateMessages();
    OtherMessages();
    hide IsExternalControlBlock;
  }

  /** Through an open gate the vendor gives up on every eleventh task for good, and on every other fifth one only the
      first time; a recognised task has the version required, save every seventh, which has an older one. */
  lemma VendorAnswers(s: Control, configured: nat, sid: nat, retryCount: nat)
    requires s.enabled && s.token == Active && configured == s.version
    ensures var r := CallVisionModel(s, true, configured, sid, retryCount);
      && (r.ok <==> sid % 11 != 0 && (sid % 5 != 0 || retryCount > 0))
      && (r.ok ==> r.version in {"10.0.19045", "10.0.19041"})
      && (r.ok ==> ("passed" <= Verdict(r.version) <==> sid % 7 != 0))
  {
    KnownVersions();
    KnownRendered();
    VerdictWord("10.0.19045");
    VerdictWord("10.0.19041");
    hide Verdict, MeetsVersion, RenderVersion;
  }

  lemma GateMessages()
    ensures IsExternalControlBlock(PAUSED) && IsExternalControlBlock(TOKEN_MISSING)
        && IsExternalControlBlock(STALE_CREDENTIAL)
  {
  }

  const SUCCESS := "external provider success"

  lemma OtherMessages()
    ensures !IsExternalControlBlock(UNAVAILABLE) && !IsExternalControlBlock(TIMEOUT) && !IsExternalControlBlock(SUCCESS)
  {
    var n := |"external provider "|;
    assert UNAVAILABLE[n] == '5' && SUCCESS[n] == 's' && TIMEOUT[n] == 't' && TIMEOUT[n + 1] == 'i';
    assert PAUSE[n] == 'p' && REFUSED[n] == '4' && TOKEN_MISSING[n] == 't' && TOKEN_MISSING[n + 1] == 'o';
  }

  // ----- runs -----

  datatype Op =
    | Open(incident: string)
    | Shut(incident: string, k: Consent)
    | Note(incident: string, stage: string, requireActive: bool)

  function Apply(s: Control, op: Op): Control {
    var r := match op
      case Open(i) => Begin(s, i)
      case Shut(i, k) => Close(s, i, k)
      case Note(i, stage, requireActive) => Record(s, i, stage, requireActive);
    if r.Some? then r.value else s
  }

  function Run(s: Control, ops: seq<Op>): Control
    decreases |ops|
  {
    if ops == [] then s else Run(Apply(s, ops[0]), ops[1..])
  }

  function Opened(s: Control, ops: seq<Op>): nat
    decreases |ops|
  {
    if ops == [] then 0
    else (if ops[0].Open? && s.active == None then 1 else 0) + Opened(Apply(s, ops[0]), ops[1..])
  }

  /** The four columns always say the same thing. */
  ghost predicate Agreed(s: Control) {
    && (s.enabled <==> s.token == Active)
    && (s.enabled <==> s.active == None)
    && (s.enabled <==> s.status != Contained)
  }

  lemma {:induction false} RunAgrees(s: Control, ops: seq<Op>)
    requires Agreed(s)
    ensures Agreed(Run(s, ops)) && Run(s, ops).version == s.version + Opened(s, ops)
    decreases |ops|
  {
    if ops != [] {
      RunAgrees(Apply(s, ops[0]), ops[1..]);
    }
  }

  /** After any serialised run: enabled, token active, no active incident and not contained all mean the same, and the
      credential version is one more than the number of incidents opened. */
  lemma ColumnsAgree(ops: seq<Op>)
    ensures var s := Run(INITIAL, ops);
      && (s.enabled <==> s.token == Active) && (s.enabled <==> s.active == None)
        && (s.enabled <==> s.status != Contained)
      && s.version == 1 + Opened(INITIAL, ops)
  {
    RunAgrees(INITIAL, ops);
  }

  /** A credential generation that an incident has superseded never succeeds again, whatever is closed afterwards. */
  lemma SupersededNeverSucceeds(ops: seq<Op>, incident: string, later: seq<Op>, token: bool, configured: nat, sid: nat,
                                retryCount: nat)
    requires Begin(Run(INITIAL, ops), incident).Some? && configured <= Run(INITIAL, ops).version
    ensures var s := Run(Begin(Run(INITIAL, ops), incident).value, later);
      !CallVisionModel(s, token, configured, sid, retryCount).ok
  {
    var s := Begin(Run(INITIAL, ops), incident).value;
    assert Agreed(s);
    RunAgrees(s, later);
    BlockedIffGateShut(Run(s, later), token, configured, sid, retryCount);
  }

  // ----- the audit trail -----

  function CountOf(log: seq<Event>, e: Event): nat {
    if log == [] then 0 else CountOf(log[..|log| - 1], e) + (if log[|log| - 1] == e then 1 else 0)
  }

  lemma {:induction false} CountConcat(a: seq<Event>, b: seq<Event>, e: Event)
    ensures CountOf(a + b, e) == CountOf(a, e) + CountOf(b, e)
  {
    if b == [] {
      assert a + b == a;
    } else {
      assert (a + b)[..|a + b| - 1] == a + b[..|b| - 1];
      CountConcat(a, b[..|b| - 1], e);
    }
  }

  function ClosedEvent(incident: string): Event {
    Event(incident, "closed")
  }

  /** Does this operation, in this state, open the incident, close it, or write a free "closed" note about it? */
  predicate Opens(s: Control, op: Op, incident: string) {
    op.Open? && op.incident == incident && s.active == None
  }

  predicate Shuts(s: Control, op: Op, incident: string) {
    op.Shut? && op.incident == incident && Close(s, incident, op.k).Some?
  }

  predicate NotesClosed(s: Control, op: Op, incident: string) {
    op.Note? && op.incident == incident && op.stage == "closed" && Record(s, incident, "closed", op.requireActive).Some?
  }

  datatype Tally = Tally(opens: nat, shuts: nat, notes: nat)

  function TallyOf(s: Control, ops: seq<Op>, incident: string): Tally
    decreases |ops|
  {
    if ops == [] then Tally(0, 0, 0)
    else
      var t := TallyOf(Apply(s, ops[0]), ops[1..], incident);
      Tally(t.opens + (if Opens(s, ops[0], incident) then 1 else 0),
            t.shuts + (if Shuts(s, ops[0], incident) then 1 else 0),
            t.notes + (if NotesClosed(s, ops[0], incident) then 1 else 0))
  }

  function ActiveNow(s: Control, incident: string): nat {
    if s.active == Some(incident) then 1 else 0
  }

  lemma OpeningHasNoClosed(incident: string, other: string)
    ensures CountOf(Logged(incident, OPENING_STAGES), ClosedEvent(other)) == 0
  {
    var l := Logged(incident, OPENING_STAGES);
    assert l == [l[0]] + [l[1]] + [l[2]] + [l[3]] + [l[4]];
    CountFive(l[0], l[1], l[2], l[3], l[4], ClosedEvent(other));
  }

  lemma CountOne(a: Event, e: Event)
    ensures CountOf([a], e) == if a == e then 1 else 0
  {
  }

  lemma CountFive(a: Event, b: Event, c: Event, d: Event, f: Event, e: Event)
    ensures CountOf([a] + [b] + [c] + [d] + [f], e)
         == CountOf([a], e) + CountOf([b], e) + CountOf([c], e) + CountOf([d], e) + CountOf([f], e)
  {
    CountConcat([a] + [b] + [c] + [d], [f], e);
    CountConcat([a] + [b] + [c], [d], e);
    CountConcat([a] + [b], [c], e);
    CountConcat([a], [b], e);
  }

  lemma ClosingHasOneClosed(incident: string, other: string)
    ensures CountOf(Logged(incident, CLOSING_STAGES), ClosedEvent(other)) == if incident == other then 1 else 0
  {
    var l := Logged(incident, CLOSING_STAGES);
    assert l == [l[0]] + [l[1]] + [l[2]] + [l[3]] + [l[4]] + [l[5]];
    CountFive(l[0], l[1], l[2], l[3], l[4], ClosedEvent(other));
    CountConcat([l[0]] + [l[1]] + [l[2]] + [l[3]] + [l[4]], [l[5]], ClosedEvent(other));
    CountOne(l[5], ClosedEvent(other));
  }

  lemma ApplyTallies(s: Control, op: Op, incident: string)
    requires Agreed(s)
    ensures var s' := Apply(s, op);
      && CountOf(s'.log, ClosedEvent(incident)) == CountOf(s.log, ClosedEvent(incident))
           + (if Shuts(s, op, incident) then 1 else 0) + (if NotesClosed(s, op, incident) then 1 else 0)
      && ActiveNow(s', incident) + (if Shuts(s, op, incident) then 1 else 0)
         == ActiveNow(s, incident) + (if Opens(s, op, incident) then 1 else 0)
      && Agreed(s')
  {
    match op
    case Open(i) =>
      CountConcat(s.log, Logged(i, OPENING_STAGES), ClosedEvent(incident));
      OpeningHasNoClosed(i, incident);
    case Shut(i, k) =>
      CountConcat(s.log, Logged(i, CLOSING_STAGES), ClosedEvent(incident));
      ClosingHasOneClosed(i, incident);
    case Note(i, stage, _) =>
      CountConcat(s.log, [Event(i, stage)], ClosedEvent(incident));
  }

  lemma {:induction false} RunTallies(s: Control, ops: seq<Op>, incident: string)
    requires Agreed(s)
    ensures var t := TallyOf(s, ops, incident);
      var e := Run(s, ops);
      && CountOf(e.log, ClosedEvent(incident)) == CountOf(s.log, ClosedEvent(incident)) + t.shuts + t.notes
      && ActiveNow(e, incident) + t.shuts == ActiveNow(s, incident) + t.opens
    decreases |ops|
  {
    if ops != [] {
      hide Apply, Shuts, Opens, NotesClosed, CountOf, ActiveNow, Agreed;
      ApplyTallies(s, ops[0], incident);
      RunTallies(Apply(s, ops[0]), ops[1..], incident);
    }
  }

  /** The "closed" events of an incident are its approved closings plus any free notes written under that stage, and
      it is closed as often as it was opened, except for the closing still due. So with fresh incident ids "closed"
      appears at most once, provided nobody files it as a note. */
  lemma ClosedEventsAreClosings(ops: seq<Op>, incident: string)
    ensures var t := TallyOf(INITIAL, ops, incident);
      var e := Run(INITIAL, ops);
      && CountOf(e.log, ClosedEvent(incident)) == t.shuts + t.notes
      && t.shuts + ActiveNow(e, incident) == t.opens
      && (t.opens <= 1 && t.notes == 0 ==> CountOf(e.log, ClosedEvent(incident)) <= 1)
  {
    RunTallies(INITIAL, ops, incident);
  }

  ghost predicate Before(log: seq<Event>, j: nat, e: Event) {
    exists m: nat :: m < j && m < |log| && log[m] == e
  }

  /** Containment came first, then the consents, then the end. */
  ghost predicate Trail(log: seq<Event>, incident: string) {
    forall j: nat :: j < |log| && log[j] == ClosedEvent(incident) ==>
      && Before(log, j, Event(incident, "credential_revoked_rotated"))
      && Before(log, j, Event(incident, "provider_paused"))
      && Before(log, j, Event(incident, "human_approval"))
      && Before(log, j, Event(incident, "vendor_confirmation"))
  }

  ghost predicate Contains(s: Control, incident: string) {
    && Before(s.log, |s.log|, Event(incident, "credential_revoked_rotated"))
    && Before(s.log, |s.log|, Event(incident, "provider_paused"))
  }

  lemma BeforeGrows(log: seq<Event>, more: seq<Event>, j: nat, k: nat, e: Event)
    requires Before(log, j, e) && j <= k
    ensures Before(log + more, k, e)
  {
    var m: nat :| m < j && m < |log| && log[m] == e;
    assert (log + more)[m] == e;
  }

  /** Appending events none of which is a "closed" of the incident keeps its trail. */
  lemma TrailGrows(log: seq<Event>, more: seq<Event>, incident: string)
    requires Trail(log, incident) && ClosedEvent(incident) !in more
    ensures Trail(log + more, incident)
  {
    var all := log + more;
    assert forall k: nat :: |log| <= k < |all| ==> all[k] in more;
    forall j: nat | j < |all| && all[j] == ClosedEvent(incident)
      ensures Before(all, j, Event(incident, "credential_revoked_rotated"))
          && Before(all, j, Event(incident, "provider_paused"))
      ensures Before(all, j, Event(incident, "human_approval"))
          && Before(all, j, Event(incident, "vendor_confirmation"))
    {
      assert log[j] == ClosedEvent(incident);
      BeforeGrows(log, more, j, j, Event(incident, "credential_revoked_rotated"));
      BeforeGrows(log, more, j, j, Event(incident, "provider_paused"));
      BeforeGrows(log, more, j, j, Event(incident, "human_approval"));
      BeforeGrows(log, more, j, j, Event(incident, "vendor_confirmation"));
    }
  }

  lemma ClosingTrail(s: Control, incident: string)
    requires Trail(s.log, incident) && Contains(s, incident)
    ensures Trail(s.log + Logged(incident, CLOSING_STAGES), incident)
  {
    var l := Logged(incident, CLOSING_STAGES);
    var quiet := l[..5];
    var log := s.log + quiet;
    TrailGrows(s.log, quiet, incident);
    assert log[|s.log|] == Event(incident, "human_approval");
    assert log[|s.log| + 2] == Event(incident, "vendor_confirmation");
    assert Before(log, |log|, Event(incident, "human_approval"))
      && Before(log, |log|, Event(incident, "vendor_confirmation"));
    BeforeGrows(s.log, quiet, |s.log|, |log|, Event(incident, "credential_revoked_rotated"));
    BeforeGrows(s.log, quiet, |s.log|, |log|, Event(incident, "provider_paused"));
    EndsTrail(log, incident);
    assert s.log + l == log + [ClosedEvent(incident)];
  }

  lemma EndsTrail(log: seq<Event>, incident: string)
    requires Trail(log, incident)
    requires Before(log, |log|, Event(incident, "credential_revoked_rotated"))
    requires Before(log, |log|, Event(incident, "provider_paused"))
    requires Before(log, |log|, Event(incident, "human_approval"))
        && Before(log, |log|, Event(incident, "vendor_confirmation"))
    ensures Trail(log + [ClosedEvent(incident)], incident)
  {
    var all := log + [ClosedEvent(incident)];
    forall j: nat | j < |all| && all[j] == ClosedEvent(incident)
      ensures Before(all, j, Event(incident, "credential_revoked_rotated"))
          && Before(all, j, Event(incident, "provider_paused"))
      ensures Before(all, j, Event(incident, "human_approval"))
          && Before(all, j, Event(incident, "vendor_confirmation"))
    {
      var end := [ClosedEvent(incident)];
      BeforeGrows(log, end, j, j, Event(incident, "credential_revoked_rotated"));
      BeforeGrows(log, end, j, j, Event(incident, "provider_paused"));
      BeforeGrows(log, end, j, j, Event(incident, "human_approval"));
      BeforeGrows(log, end, j, j, Event(incident, "vendor_confirmation"));
    }
  }

  /** Everything that has to come before the end is in the log. */
  ghost predicate Consented(log: seq<Event>, incident: string) {
    && Before(log, |log|, Event(incident, "credential_revoked_rotated"))
    && Before(log, |log|, Event(incident, "provider_paused"))
    && Before(log, |log|, Event(incident, "human_approval"))
    && Before(log, |log|, Event(incident, "vendor_confirmation"))
  }

  /** A free "closed" note is filed only when everything that has to come before it is in the log. */
  ghost predicate NoteInOrder(s: Control, op: Op, incident: string) {
    NotesClosed(s, op, incident) ==> Consented(s.log, incident)
  }

  ghost predicate NotesInOrder(s: Control, ops: seq<Op>, incident: string)
    decreases |ops|
  {
    ops == [] || (NoteInOrder(s, ops[0], incident) && NotesInOrder(Apply(s, ops[0]), ops[1..], incident))
  }

  lemma BeforePrefix(log: seq<Event>, more: seq<Event>, j: nat, e: Event)
    requires Before(log + more, j, e) && j <= |log|
    ensures Before(log, j, e)
  {
    var m: nat :| m < j && m < |log + more| && (log + more)[m] == e;
    assert log[m] == e;
  }

  /** A trail that is broken stays broken, whatever is appended; a "closed" appended out of order breaks it. */
  lemma TrailPrefix(log: seq<Event>, more: seq<Event>, incident: string)
    requires Trail(log + more, incident)
    ensures Trail(log, incident)
    ensures more != [] && more[0] == ClosedEvent(incident) ==> Consented(log, incident)
  {
    var all := log + more;
    forall j: nat | j <= |log| && j < |all| && all[j] == ClosedEvent(incident)
      ensures Before(log, j, Event(incident, "credential_revoked_rotated"))
          && Before(log, j, Event(incident, "provider_paused"))
      ensures Before(log, j, Event(incident, "human_approval"))
          && Before(log, j, Event(incident, "vendor_confirmation"))
    {
      BeforePrefix(log, more, j, Event(incident, "credential_revoked_rotated"));
      BeforePrefix(log, more, j, Event(incident, "provider_paused"));
      BeforePrefix(log, more, j, Event(incident, "human_approval"));
      BeforePrefix(log, more, j, Event(incident, "vendor_confirmation"));
    }
    assert forall j: nat :: j < |log| ==> all[j] == log[j];
    assert more != [] ==> all[|log|] == more[0];
  }

  /** What one operation appends to the log. */
  function Appended(s: Control, op: Op): (more: seq<Event>)
    ensures Apply(s, op).log == s.log + more
    ensures op.Note? && more != [] ==> more == [Event(op.incident, op.stage)]
  {
    if Apply(s, op) == s then []
    else match op
      case Open(i) => Logged(i, OPENING_STAGES)
      case Shut(i, _) => Logged(i, CLOSING_STAGES)
      case Note(i, stage, _) => [Event(i, stage)]
  }

  lemma BrokenTrail(s: Control, op: Op, incident: string)
    requires Trail(Apply(s, op).log, incident)
    ensures Trail(s.log, incident) && NoteInOrder(s, op, incident)
  {
    TrailPrefix(s.log, Appended(s, op), incident);
    if NotesClosed(s, op, incident) {
      assert Apply(s, op).log == s.log + [ClosedEvent(incident)];
      TrailPrefix(s.log, [ClosedEvent(incident)], incident);
    }
  }

  lemma ApplyTrail(s: Control, op: Op, incident: string)
    requires Trail(s.log, incident) && NoteInOrder(s, op, incident)
    requires s.active == Some(incident) ==> Contains(s, incident)
    ensures var s' := Apply(s, op);
      Trail(s'.log, incident) && (s'.active == Some(incident) ==> Contains(s', incident))
  {
    var s' := Apply(s, op);
    if s' != s {
      match op
      case Open(i) =>
        var l := Logged(i, OPENING_STAGES);
        TrailGrows(s.log, l, incident);
        assert s'.log[|s.log| + 2] == Event(i, "credential_revoked_rotated");
        assert s'.log[|s.log| + 3] == Event(i, "provider_paused");
        assert Contains(s', i);
      case Shut(i, k) =>
        if i == incident {
          ClosingTrail(s, incident);
        } else {
          TrailGrows(s.log, Logged(i, CLOSING_STAGES), incident);
        }
      case Note(i, stage, _) =>
        if NotesClosed(s, op, incident) {
          EndsTrail(s.log, incident);
        } else {
          TrailGrows(s.log, [Event(i, stage)], incident);
        }
        if s.active == Some(incident) {
          BeforeGrows(s.log, [Event(i, stage)], |s.log|, |s'.log|, Event(incident, "credential_revoked_rotated"));
          BeforeGrows(s.log, [Event(i, stage)], |s.log|, |s'.log|, Event(incident, "provider_paused"));
        }
    }
  }

  lemma {:induction false} RunTrail(s: Control, ops: seq<Op>, incident: string)
    requires Trail(s.log, incident) && NotesInOrder(s, ops, incident)
    requires s.active == Some(incident) ==> Contains(s, incident)
    ensures Trail(Run(s, ops).log, incident)
    decreases |ops|
  {
    if ops != [] {
      hide Trail, Contains, Apply, NoteInOrder;
      ApplyTrail(s, ops[0], incident);
      RunTrail(Apply(s, ops[0]), ops[1..], incident);
    }
  }

  lemma {:induction false} RunBroken(s: Control, ops: seq<Op>, incident: string)
    requires Trail(Run(s, ops).log, incident)
    ensures Trail(s.log, incident) && NotesInOrder(s, ops, incident)
    decreases |ops|
  {
    if ops != [] {
      hide Trail, Apply, NoteInOrder;
      RunBroken(Apply(s, ops[0]), ops[1..], incident);
      BrokenTrail(s, ops[0], incident);
    }
  }

  /** In an audit log every "closed" of an incident comes after its revocation, its pause, the human approval and the
      vendor's confirmation, if and only if no free "closed" note was filed before those. Approved closings and every
      other operation always keep the order. */
  lemma ClosedComesLast(ops: seq<Op>, incident: string)
    ensures Trail(Run(INITIAL, ops).log, incident) <==> NotesInOrder(INITIAL, ops, incident)
  {
    if NotesInOrder(INITIAL, ops, incident) {
      RunTrail(INITIAL, ops, incident);
    }
    if Trail(Run(INITIAL, ops).log, incident) {
      RunBroken(INITIAL, ops, incident);
    }
  }

  /** The proviso is needed: the log takes a "closed" note about an incident that was never opened. */
  lemma NoteCanPrecedeContainment(incident: string)
    ensures !Trail(Run(INITIAL, [Note(incident, "closed", false)]).log, incident)
  {
    var s := Apply(INITIAL, Note(incident, "closed", false));
    assert Run(INITIAL, [Note(incident, "closed", false)]) == Run(s, []);
    assert s.log[0] == ClosedEvent(incident);
  }
}
