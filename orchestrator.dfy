/**
 * The session orchestrator's state and, as pure functions, the effect of each
 * handler of the agent's HTTP server: the part of the handler that runs under
 * the server's mutex, together with the log entry it appends.  The class
 * `Api.Server` implements these transitions on its fields.
 */
module Orchestrator {
  import opened Wrappers

  /** The `State` string of the status record: "idle", "active" or "paused". */
  datatype SessionState = Idle | Active | Paused {
    function Name(): string {
      match this
      case Idle => "idle"
      case Active => "active"
      case Paused => "paused"
    }
  }

  /** A client reading the status record's state string can tell the three states apart. */
  lemma StateNamesDistinct(a: SessionState, b: SessionState)
    ensures a.Name() == b.Name() <==> a == b
  {
  }

  /** The status record the server reports; timestamps are milliseconds, 0 is Go's zero time. */
  datatype Status = Status(
    state: SessionState,
    mode: string,
    userPresent: bool,
    policyLocked: bool,
    nextAction: string,
    startedAt: int)

  datatype LogEntry = LogEntry(timestamp: int, action: string, meta: map<string, string>)

  /** The one field of the start payload the server reads. */
  datatype StartRequest = StartRequest(mode: string)

  datatype LockRequest = LockRequest(locked: bool)

  /** What a handler answers; `Code` is the HTTP status it writes. */
  datatype Reply =
    | Started
    | Stopped
    | PolicySet(locked: bool)
    | StatusBody(status: Status)
    | LogsBody(entries: seq<LogEntry>)
    | AlreadyActive
    | PolicyLocked
    | BadPayload
    | MethodNotAllowed
    | Unauthorized
    | Preflight
  {
    function Code(): int {
      match this
      case Started => 200
      case Stopped => 200
      case PolicySet(_) => 200
      case StatusBody(_) => 200
      case LogsBody(_) => 200
      case AlreadyActive => 409
      case PolicyLocked => 403
      case BadPayload => 400
      case MethodNotAllowed => 405
      case Unauthorized => 401
      case Preflight => 204
    }
  }

  /**
   * Everything the server's mutex guards: the status record, the log and
   * whether a cancellation handle is stored.  `running` is not a field of the
   * server: it counts the engine tasks that have been launched and whose
   * cancellation nobody has requested yet.
   */
  datatype Session = Session(st: Status, logs: seq<LogEntry>, hasCancel: bool, running: nat)

  /** The result of one request: the new session and the reply. */
  datatype Outcome = Outcome(session: Session, reply: Reply)

  const Post: string := "POST"
  const NextActionActive: string := "simulate in 5s"

  /** The state `NewServer` creates. */
  const Initial: Session := Session(Status(Idle, "", false, false, "", 0), [], false, 0)

  /**
   * What every transition keeps: an active session has a cancellation
   * handle, a locked policy never coexists with an active session, and a
   * stored handle belongs to a launched engine.
   */
  predicate Inv(s: Session) {
    && (s.st.state == Active ==> s.hasCancel)
    && (s.st.policyLocked ==> s.st.state != Active)
    && (s.hasCancel ==> s.running >= 1)
  }

  /** An engine runs exactly when a handle to cancel it is stored. */
  predicate OneEngine(s: Session) {
    s.running == if s.hasCancel then 1 else 0
  }

  /** `logAction`: one entry at the tail of the log; a nil meta becomes an empty map. */
  function LogAction(s: Session, now: int, action: string, meta: Option<map<string, string>>): (r: Session)
    ensures |r.logs| == |s.logs| + 1 && r.logs[..|s.logs|] == s.logs
    ensures r.logs[|s.logs|].timestamp == now && r.logs[|s.logs|].action == action
    ensures meta.None? ==> r.logs[|s.logs|].meta == map[]
    ensures meta.Some? ==> r.logs[|s.logs|].meta == meta.value
    ensures r.st == s.st && r.hasCancel == s.hasCancel && r.running == s.running
  {
    var m := if meta.None? then map[] else meta.value;
    s.(logs := s.logs + [LogEntry(now, action, m)])
  }

  /**
   * `handleStartSession`.  The method and the payload are checked before the
   * mutex is taken; under it, an active session wins over a locked policy.
   * Success stores a new handle, launches an engine and logs `session_start`.
   */
  function StartSession(s: Session, verb: string, payload: Option<StartRequest>, now: int): (r: Outcome)
    ensures r.reply in {Started, AlreadyActive, PolicyLocked, BadPayload, MethodNotAllowed}
    ensures r.reply != Started ==> r.session == s
    ensures r.reply == MethodNotAllowed <==> verb != Post
    ensures r.reply == BadPayload <==> verb == Post && payload.None?
    ensures r.reply == AlreadyActive <==> verb == Post && payload.Some? && s.st.state == Active
    ensures r.reply == PolicyLocked <==>
      verb == Post && payload.Some? && s.st.state != Active && s.st.policyLocked
    ensures r.reply == Started ==>
      && r.session.st == Status(Active, payload.value.mode, s.st.userPresent, s.st.policyLocked, NextActionActive, now)
      && r.session.hasCancel
      && r.session.running == s.running + 1
      && r.session.logs == s.logs + [LogEntry(now, "session_start", map["mode" := payload.value.mode])]
    ensures Inv(s) ==> Inv(r.session)
  {
    if verb != Post then Outcome(s, MethodNotAllowed)
    else if payload.None? then Outcome(s, BadPayload)
    else if s.st.state == Active then Outcome(s, AlreadyActive)
    else if s.st.policyLocked then Outcome(s, PolicyLocked)
    else
      var mode := payload.value.mode;
      var launched := s.(
        st := s.st.(state := Active, mode := mode, startedAt := now, nextAction := NextActionActive),
        hasCancel := true,
        running := s.running + 1);
      Outcome(LogAction(launched, now, "session_start", Some(map["mode" := mode])), Started)
  }

  /**
   * `handleStopSession`: takes the handle out, goes idle and always logs
   * `session_stop`; cancelling a stored handle ends one engine.
   */
  function StopSession(s: Session, verb: string, now: int): (r: Outcome)
    ensures r.reply in {Stopped, MethodNotAllowed}
    ensures r.reply == MethodNotAllowed <==> verb != Post
    ensures r.reply != Stopped ==> r.session == s
    ensures r.reply == Stopped ==>
      && r.session.st == s.st.(state := Idle, nextAction := "")
      && r.session.st.mode == s.st.mode && r.session.st.startedAt == s.st.startedAt
      && r.session.st.policyLocked == s.st.policyLocked
      && !r.session.hasCancel
      && r.session.running == (if s.hasCancel && s.running > 0 then s.running - 1 else s.running)
      && r.session.logs == s.logs + [LogEntry(now, "session_stop", map[])]
    ensures Inv(s) ==> Inv(r.session)
    ensures OneEngine(s) ==> OneEngine(r.session)
  {
    if verb != Post then Outcome(s, MethodNotAllowed)
    else
      var cancelled := s.(
        hasCancel := false,
        running := if s.hasCancel && s.running > 0 then s.running - 1 else s.running,
        st := s.st.(state := Idle, nextAction := ""));
      Outcome(LogAction(cancelled, now, "session_stop", Some(map[])), Stopped)
  }

  /**
   * `handlePolicyLock`: records the flag and, when locking, forces the
   * session to paused; it never touches the handle, so a running engine
   * goes on running.
   */
  function SetPolicyLock(s: Session, verb: string, payload: Option<LockRequest>, now: int): (r: Outcome)
    ensures r.reply == MethodNotAllowed <==> verb != Post
    ensures r.reply == BadPayload <==> verb == Post && payload.None?
    ensures r.reply.PolicySet? <==> verb == Post && payload.Some?
    ensures !r.reply.PolicySet? ==> r.session == s
    ensures r.reply.PolicySet? ==>
      var locked := payload.value.locked;
      && r.reply.locked == locked
      && r.session.st == s.st.(policyLocked := locked, state := if locked then Paused else s.st.state)
      && r.session.hasCancel == s.hasCancel && r.session.running == s.running
      && r.session.logs == s.logs + [LogEntry(now, if locked then "policy_locked" else "policy_unlocked", map[])]
    ensures Inv(s) ==> Inv(r.session)
    ensures OneEngine(s) ==> OneEngine(r.session)
  {
    if verb != Post then Outcome(s, MethodNotAllowed)
    else if payload.None? then Outcome(s, BadPayload)
    else
      var locked := payload.value.locked;
      var st := s.st.(policyLocked := locked, state := if locked then Paused else s.st.state);
      var action := if locked then "policy_locked" else "policy_unlocked";
      Outcome(LogAction(s.(st := st), now, action, Some(map[])), PolicySet(locked))
  }

  /** Stopping twice is stopping once, except that the log grows by one more entry. */
  lemma StopIdempotent(s: Session, now1: int, now2: int)
    ensures var once := StopSession(s, Post, now1).session;
      var twice := StopSession(once, Post, now2).session;
      && twice.st == once.st && twice.hasCancel == once.hasCancel && twice.running == once.running
      && twice.logs == once.logs + [LogEntry(now2, "session_stop", map[])]
  {
  }

  /**
   * The start that evidently was meant: when a handle is still stored (a
   * lock paused an active session, and an unlock let a new start through),
   * request its cancellation before storing the new one.
   */
  function StartSessionCancellingStale(s: Session, verb: string, payload: Option<StartRequest>, now: int): (r: Outcome)
    ensures var o := StartSession(s, verb, payload, now);
      && r.reply == o.reply
      && r.session.st == o.session.st && r.session.logs == o.session.logs
      && r.session.hasCancel == o.session.hasCancel
    ensures Inv(s) ==> Inv(r.session)
    ensures OneEngine(s) ==> OneEngine(r.session)
  {
    var o := StartSession(s, verb, payload, now);
    if o.reply == Started && s.hasCancel && s.running > 0 then
      Outcome(o.session.(running := o.session.running - 1), Started)
    else o
  }

  /** A request that reaches one of the three mutating handlers. */
  datatype Op =
    | StartOp(verb: string, payload: Option<StartRequest>, now: int)
    | StopOp(verb: string, now: int)
    | LockOp(verb: string, lock: Option<LockRequest>, now: int)

  /** One request, with the start as written or, when `corrected`, the start above. */
  function Apply(s: Session, op: Op, corrected: bool): Session {
    match op
    case StartOp(verb, payload, now) =>
      if corrected then StartSessionCancellingStale(s, verb, payload, now).session
      else StartSession(s, verb, payload, now).session
    case StopOp(verb, now) => StopSession(s, verb, now).session
    case LockOp(verb, lock, now) => SetPolicyLock(s, verb, lock, now).session
  }

  /** A sequence of requests served one after another. */
  function ApplyAll(s: Session, ops: seq<Op>, corrected: bool): Session
    decreases |ops|
  {
    if ops == [] then s else ApplyAll(Apply(s, ops[0], corrected), ops[1..], corrected)
  }

  /** Whatever requests arrive, in either version, the invariant holds. */
  lemma {:induction false} InvAlways(s: Session, ops: seq<Op>, corrected: bool)
    requires Inv(s)
    ensures Inv(ApplyAll(s, ops, corrected))
    decreases |ops|
  {
    if ops != [] {
      InvAlways(Apply(s, ops[0], corrected), ops[1..], corrected);
    }
  }

  /** With the corrected start, at most one engine ever runs, and only while its handle is stored. */
  lemma {:induction false} CorrectedAtMostOneEngine(s: Session, ops: seq<Op>)
    requires OneEngine(s)
    ensures OneEngine(ApplyAll(s, ops, true))
    ensures ApplyAll(s, ops, true).running <= 1
    decreases |ops|
  {
    if ops != [] {
      CorrectedAtMostOneEngine(Apply(s, ops[0], true), ops[1..]);
    }
  }

  /**
   * As written: start, lock, unlock, start, stop leaves the session idle with
   * no handle stored while one engine is still running and can no longer be
   * cancelled.
   */
  lemma OrphanedEngineAfterRelock(mode: string)
    ensures var ops := [
        StartOp(Post, Some(StartRequest(mode)), 1),
        LockOp(Post, Some(LockRequest(true)), 2),
        LockOp(Post, Some(LockRequest(false)), 3),
        StartOp(Post, Some(StartRequest(mode)), 4)];
      var s := ApplyAll(Initial, ops, false);
      var after := StopSession(s, Post, 5).session;
      && s.st.state == Active && s.running == 2
      && after.st.state == Idle && !after.hasCancel && after.running == 1
  {
    var start := StartOp(Post, Some(StartRequest(mode)), 1);
    var lock := LockOp(Post, Some(LockRequest(true)), 2);
    var unlock := LockOp(Post, Some(LockRequest(false)), 3);
    var restart := StartOp(Post, Some(StartRequest(mode)), 4);
    var s1 := Apply(Initial, start, false);
    assert s1.st.state == Active && s1.hasCancel && s1.running == 1;
    var s2 := Apply(s1, lock, false);
    assert s2.st.state == Paused && s2.st.policyLocked && s2.hasCancel && s2.running == 1;
    var s3 := Apply(s2, unlock, false);
    assert s3.st.state == Paused && !s3.st.policyLocked && s3.hasCancel && s3.running == 1;
    var s4 := Apply(s3, restart, false);
    assert s4.st.state == Active && s4.running == 2;
    var ops := [start, lock, unlock, restart];
    assert ApplyAll(s4, ops[4..], false) == s4;
    assert ApplyAll(s3, ops[3..], false) == s4;
    assert ApplyAll(s2, ops[2..], false) == s4;
    assert ApplyAll(s1, ops[1..], false) == s4;
  }
}
