/**
 * The `Server` object: its mutex-guarded fields and one method per handler.
 * Each method does what the Go handler does to the fields, in the same
 * order, and is proved to make the transition `Orchestrator` defines.
 */
module Api {
  import opened Wrappers
  import opened Strings
  import opened Orchestrator
  import opened Gateway

  class Server {
    /** The pairing token, trimmed when the server is built; "" leaves the routes open. */
    const pairingToken: string
    var st: Status
    var logs: seq<LogEntry>
    /** Whether `sessionCancel` holds a cancellation function. */
    var hasCancel: bool
    /** Engine tasks launched and not yet asked to stop. */
    ghost var running: nat

    ghost function Model(): Session
      reads this
    {
      Session(st, logs, hasCancel, running)
    }

    ghost predicate Valid()
      reads this
    {
      Inv(Model())
    }

    /** The state part of `NewServer`. */
    constructor (token: string)
      ensures pairingToken == TrimSpace(token)
      ensures Model() == Initial && Valid()
    {
      pairingToken := TrimSpace(token);
      st := Status(Idle, "", false, false, "", 0);
      logs := [];
      hasCancel := false;
      running := 0;
    }

    /** `snapshot`: a copy of the status record, taken under the mutex. */
    method Snapshot() returns (snap: Status)
      ensures snap == st
    {
      snap := st;
    }

    /** `handleStatus`: the status record, for any method. */
    method HandleStatus() returns (reply: Reply)
      ensures reply == StatusBody(st) && reply.Code() == 200
    {
      reply := StatusBody(st);
    }

    /** `handleLogs`: the whole log, in append order, for any method. */
    method HandleLogs() returns (reply: Reply)
      ensures reply == LogsBody(logs) && reply.Code() == 200
    {
      reply := LogsBody(logs);
    }

    /** `logAction`. */
    method LogAction(now: int, action: string, meta: Option<map<string, string>>)
      modifies this
      ensures Model() == Orchestrator.LogAction(old(Model()), now, action, meta)
    {
      var m := meta.GetOr(map[]);
      logs := logs + [LogEntry(now, action, m)];
    }

    /** `handleStartSession`. */
    method HandleStartSession(verb: string, payload: Option<StartRequest>, now: int) returns (reply: Reply)
      requires Valid()
      modifies this
      ensures Outcome(Model(), reply) == StartSession(old(Model()), verb, payload, now)
      ensures Valid()
    {
      if verb != Post {
        return MethodNotAllowed;
      }
      if payload.None? {
        return BadPayload;
      }
      if st.state == Active {
        return AlreadyActive;
      }
      if st.policyLocked {
        return PolicyLocked;
      }
      hasCancel := true;
      running := running + 1;
      st := st.(state := Active);
      st := st.(mode := payload.value.mode);
      st := st.(startedAt := now);
      st := st.(nextAction := NextActionActive);
      LogAction(now, "session_start", Some(map["mode" := payload.value.mode]));
      reply := Started;
    }

    /** `handleStopSession`. */
    method HandleStopSession(verb: string, now: int) returns (reply: Reply)
      requires Valid()
      modifies this
      ensures Outcome(Model(), reply) == StopSession(old(Model()), verb, now)
      ensures Valid()
    {
      if verb != Post {
        return MethodNotAllowed;
      }
      var cancel := hasCancel;
      hasCancel := false;
      st := st.(state := Idle);
      st := st.(nextAction := "");
      if cancel && running > 0 {
        running := running - 1;
      }
      LogAction(now, "session_stop", Some(map[]));
      reply := Stopped;
    }

    /** `handlePolicyLock`. */
    method HandlePolicyLock(verb: string, payload: Option<LockRequest>, now: int) returns (reply: Reply)
      requires Valid()
      modifies this
      ensures Outcome(Model(), reply) == SetPolicyLock(old(Model()), verb, payload, now)
      ensures Valid()
    {
      if verb != Post {
        return MethodNotAllowed;
      }
      if payload.None? {
        return BadPayload;
      }
      st := st.(policyLocked := payload.value.locked);
      var action := "policy_unlocked";
      if payload.value.locked {
        action := "policy_locked";
        st := st.(state := Paused);
      }
      LogAction(now, action, Some(map[]));
      reply := PolicySet(payload.value.locked);
    }

    /** A routed request: `cors(auth(handler))` around the handler of its route. */
    method Serve(allowList: string, req: Request, now: int) returns (resp: Response)
      requires Valid()
      modifies this
      ensures Served(Model(), resp) == Gateway.Serve(old(Model()), pairingToken, allowList, req, now)
      ensures Valid()
    {
      var origin := AllowedOrigin(allowList, req.origin);
      if req.verb == Options {
        return Response(origin, Preflight);
      }
      if !Authorized(pairingToken, req.authorization) {
        return Response(origin, Unauthorized);
      }
      var reply: Reply;
      match req.route {
        case StatusRoute => reply := HandleStatus();
        case LogsRoute => reply := HandleLogs();
        case StartRoute => reply := HandleStartSession(req.verb, req.startPayload, now);
        case StopRoute => reply := HandleStopSession(req.verb, now);
        case PolicyRoute => reply := HandlePolicyLock(req.verb, req.lockPayload, now);
      }
      resp := Response(origin, reply);
    }
  }
}
