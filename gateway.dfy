/**
 * The two wrappers every routed handler sits behind, `cors(auth(handler))`,
 * and the dispatch to the handlers, as pure decisions over the session.
 */
module Gateway {
  import opened Wrappers
  import opened Strings
  import opened Orchestrator

  datatype Route = StatusRoute | StartRoute | StopRoute | PolicyRoute | LogsRoute

  /**
   * One request: its method, its route, the `Origin` and `Authorization`
   * headers, and the result of decoding its body as the start payload and as
   * the lock payload (None when the JSON decoder fails).
   */
  datatype Request = Request(
    verb: string,
    route: Route,
    origin: string,
    authorization: string,
    startPayload: Option<StartRequest>,
    lockPayload: Option<LockRequest>)

  /** The `Access-Control-Allow-Origin` header, if one is set, and the reply. */
  datatype Response = Response(allowOrigin: Option<string>, reply: Reply)

  datatype Served = Served(session: Session, response: Response)

  const Options: string := "OPTIONS"

  /** `auth`: open when no token is configured, otherwise the exact bearer header. */
  function Authorized(token: string, header: string): (ok: bool)
    ensures token == "" ==> ok
    ensures token != "" ==>
      (ok <==> |header| == |token| + 7 && header[..7] == "Bearer " && header[7..] == token)
  {
    token == "" || header == "Bearer " + token
  }

  /** One allow-list entry admits the origin: trimmed, it equals the origin up to case. */
  predicate Admits(entry: string, origin: string) {
    EqualFold(TrimSpace(entry), origin)
  }

  /** The loop of `cors` over the allow-list, which stops at the first entry that admits the origin. */
  function OriginListed(entries: seq<string>, origin: string): (b: bool)
    ensures b <==> exists i :: 0 <= i < |entries| && Admits(entries[i], origin)
    decreases |entries|
  {
    if entries == [] then false
    else Admits(entries[0], origin) || OriginListed(entries[1..], origin)
  }

  /**
   * `cors`' choice of `Access-Control-Allow-Origin`, given the
   * comma-separated allow-list: with a list, the origin is echoed only when
   * listed and no header is set otherwise; without one, a present origin is
   * echoed and an absent one gets the wildcard.
   */
  function AllowedOrigin(allowList: string, origin: string): (h: Option<string>)
    ensures TrimSpace(allowList) != [] ==>
      && (h.Some? <==> OriginListed(Split(TrimSpace(allowList), ','), origin))
      && (h.Some? ==> h.value == origin)
    ensures TrimSpace(allowList) == [] ==> h == Some(if origin != "" then origin else "*")
  {
    var list := TrimSpace(allowList);
    if list != [] then
      var entries := Split(list, ',');
      var listed := OriginListed(entries, origin);
      if listed then Some(origin) else None
    else if origin != "" then Some(origin)
    else Some("*")
  }

  /** The handler the mux routes to. */
  function Handle(s: Session, req: Request, now: int): (r: Outcome)
    ensures req.route == StatusRoute ==> r == Outcome(s, StatusBody(s.st))
    ensures req.route == LogsRoute ==> r == Outcome(s, LogsBody(s.logs))
    ensures req.route == StartRoute ==> r == StartSession(s, req.verb, req.startPayload, now)
    ensures req.route == StopRoute ==> r == StopSession(s, req.verb, now)
    ensures req.route == PolicyRoute ==> r == SetPolicyLock(s, req.verb, req.lockPayload, now)
    ensures Inv(s) ==> Inv(r.session)
  {
    match req.route
    case StatusRoute => Outcome(s, StatusBody(s.st))
    case LogsRoute => Outcome(s, LogsBody(s.logs))
    case StartRoute => StartSession(s, req.verb, req.startPayload, now)
    case StopRoute => StopSession(s, req.verb, now)
    case PolicyRoute => SetPolicyLock(s, req.verb, req.lockPayload, now)
  }

  /**
   * `cors(auth(handler))`: the origin header is chosen on every path; a
   * preflight and a refused token both return before the handler runs and
   * leave the session as it was.
   */
  function Serve(s: Session, token: string, allowList: string, req: Request, now: int): (r: Served)
    ensures r.response.allowOrigin == AllowedOrigin(allowList, req.origin)
    ensures req.verb == Options ==> r.session == s && r.response.reply == Preflight
    ensures req.verb != Options && !Authorized(token, req.authorization) ==>
      r.session == s && r.response.reply == Unauthorized
    ensures req.verb != Options && Authorized(token, req.authorization) ==>
      Outcome(r.session, r.response.reply) == Handle(s, req, now)
    ensures Inv(s) ==> Inv(r.session)
  {
    var origin := AllowedOrigin(allowList, req.origin);
    if req.verb == Options then Served(s, Response(origin, Preflight))
    else if !Authorized(token, req.authorization) then Served(s, Response(origin, Unauthorized))
    else
      var o := Handle(s, req, now);
      Served(o.session, Response(origin, o.reply))
  }

  /** A configured token lets in exactly the one header that carries it. */
  lemma {:induction false} TokenNeedsBearerHeader(token: string, header: string)
    requires token != ""
    ensures Authorized(token, header) <==>
      |header| == |token| + 7 && header[..7] == "Bearer " && header[7..] == token
  {
    if |header| == |token| + 7 && header[..7] == "Bearer " && header[7..] == token {
      assert header == header[..7] + header[7..];
    }
  }

  /** The server trims its token, so a blank one leaves every route open. */
  lemma BlankTokenIsOpen(rawToken: string, header: string)
    requires AllSpace(rawToken)
    ensures Authorized(TrimSpace(rawToken), header)
  {
    TrimSpaceEmpty(rawToken);
  }
}
