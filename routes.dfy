/**
 * The HTTP routes of `createStreamableHttpServer` as functions of the request
 * and the session map: each returns the reply, the new map and the calls it
 * makes on SDK objects. The class in module `Server` is proved to behave exactly
 * as these functions say.
 */
module Routes {
  import opened Wrappers
  import opened Json
  import opened Origin
  import opened EventStream

  /**
   * A `StreamableHTTPServerTransport` object: the `serial`-th one created, with a
   * `sessionIdGenerator` that returns `sessionId`. Two transports created for the
   * same id are different objects, with different serials.
   */
  datatype Transport = Transport(sessionId: string, serial: nat)

  /**
   * A `sessions` map entry. Every entry holds the one `server` given to
   * `createStreamableHttpServer`, so only the transport tells entries apart.
   */
  datatype Session = Session(transport: Transport)

  /** Calls into the SDK whose effects are not modelled: `server.connect`, `transport.close`. */
  datatype Effect = Connect(transport: Transport) | Close(transport: Transport)

  datatype Verb = Get | Head | Post | Delete | OtherVerb(name: string)

  /** The route path a URL matched: `/mcp`, `/health`, or neither. */
  datatype Path = McpPath | HealthPath | OtherPath(path: string)

  /** The parsed JSON body: its `method` (here `rpcMethod`) and `id` members (`None` when absent). */
  datatype Body = Body(rpcMethod: Option<Json>, id: Option<Json>)

  datatype Request = Request(
    verb: Verb,
    path: Path,
    origin: Option<string>,
    sessionHeader: Option<string>,
    body: Body)

  datatype Reply =
    | JsonReply(status: nat, sessionIdHeader: Option<string>, body: Json)
      /** A 200 `text/event-stream` response and the first chunk written on it. */
    | EventStreamReply(firstChunk: string)
      /** No handler of this file matched; Express answers by itself. */
    | Unrouted

  /**
   * The transport's state: the module-level `sessions` map, and how many
   * transports have been created so far (which tells transport objects apart).
   */
  datatype Registry = Registry(sessions: map<string, Session>, created: nat)

  /** What one request does: its reply, the state afterwards, the SDK calls it made. */
  datatype Outcome = Outcome(reply: Reply, registry: Registry, effects: seq<Effect>)

  const ProtocolVersion: string := "2024-11-05"
  const InitializeMethod: string := "initialize"
  const InvalidOriginMessage: string := "Invalid origin"
  const InvalidSessionMessage: string := "Invalid or missing session ID"
  const SessionNotFoundMessage: string := "Session not found"
  const InternalErrorMessage: string := "Internal server error"
  const TerminatedMessage: string := "Session terminated"

  function ErrorBody(message: string): Json
  {
    JObj([("error", JStr(message))])
  }

  /** A JSON-RPC 2.0 response object; an absent request id is left out, as `JSON.stringify` drops `undefined`. */
  function RpcResult(id: Option<Json>, result: Json): Json
  {
    var idField := match id case Some(v) => [("id", v)] case None => [];
    JObj([("jsonrpc", JStr("2.0"))] + idField + [("result", result)])
  }

  const HandshakeResult: Json := JObj([("protocolVersion", JStr(ProtocolVersion))])
  const SuccessResult: Json := JObj([("success", JBool(true))])
  const TerminatedBody: Json := JObj([("success", JBool(true)), ("message", JStr(TerminatedMessage))])

  function HealthBody(now: string, activeSessions: nat): Json
  {
    JObj([("status", JStr("ok")), ("timestamp", JStr(now)), ("activeSessions", JNum(activeSessions))])
  }

  /** `req.body.rpcMethod === "initialize"`. */
  predicate IsInitialize(body: Body)
  {
    body.rpcMethod == Some(JStr(InitializeMethod))
  }

  /** `sessionId && sessions.has(sessionId)`: an empty header counts as missing. */
  predicate KnownSession(sessions: map<string, Session>, header: Option<string>)
  {
    header.Some? && header.value != "" && header.value in sessions
  }

  /**
   * Every entry's transport belongs to the id it is stored under and was
   * created before now.
   */
  predicate Consistent(r: Registry)
  {
    forall k :: k in r.sessions ==> r.sessions[k].transport.sessionId == k && r.sessions[k].transport.serial < r.created
  }

  /**
   * `POST /mcp`. An `initialize` body creates a new transport and stores it under
   * the freshly generated id before connecting, so a failed `server.connect`
   * leaves it stored; any other body is answered only for a known session.
   */
  function PostMcp(r: Registry, header: Option<string>, body: Body, freshId: string, connectOk: bool): (o: Outcome)
    ensures IsInitialize(body) ==>
              && o.registry.created == r.created + 1
              && o.registry.sessions.Keys == r.sessions.Keys + {freshId}
              && o.registry.sessions[freshId] == Session(Transport(freshId, r.created))
              && (forall k :: k in r.sessions && k != freshId ==> o.registry.sessions[k] == r.sessions[k])
              && o.effects == [Connect(Transport(freshId, r.created))]
              && o.reply.JsonReply? && o.reply.sessionIdHeader == Some(freshId)
              && (o.reply.status == 200 <==> connectOk)
    ensures IsInitialize(body) && connectOk ==> o.reply.body == RpcResult(body.id, HandshakeResult)
    ensures IsInitialize(body) && !connectOk ==> o.reply == JsonReply(500, Some(freshId), ErrorBody(InternalErrorMessage))
    ensures !IsInitialize(body) ==> o.registry == r && o.effects == []
    ensures !IsInitialize(body) ==>
              (o.reply == JsonReply(200, None, RpcResult(body.id, SuccessResult)) <==> KnownSession(r.sessions, header))
    ensures !IsInitialize(body) && !KnownSession(r.sessions, header) ==>
              o.reply == JsonReply(400, None, ErrorBody(InvalidSessionMessage))
  {
    if IsInitialize(body) then
      var transport := Transport(freshId, r.created);
      var stored := Registry(r.sessions[freshId := Session(transport)], r.created + 1);
      var reply := if connectOk then JsonReply(200, Some(freshId), RpcResult(body.id, HandshakeResult))
                   else JsonReply(500, Some(freshId), ErrorBody(InternalErrorMessage));
      Outcome(reply, stored, [Connect(transport)])
    else if KnownSession(r.sessions, header) then
      Outcome(JsonReply(200, None, RpcResult(body.id, SuccessResult)), r, [])
    else
      Outcome(JsonReply(400, None, ErrorBody(InvalidSessionMessage)), r, [])
  }

  /** `GET /mcp`: opens an event stream for a known session; the state never changes. */
  function GetMcp(r: Registry, header: Option<string>): (o: Outcome)
    ensures o.registry == r && o.effects == []
    ensures o.reply.EventStreamReply? <==> KnownSession(r.sessions, header)
    ensures o.reply.EventStreamReply? ==> o.reply.firstChunk == ConnectedFrame(header.value)
    ensures !KnownSession(r.sessions, header) ==> o.reply == JsonReply(400, None, ErrorBody(InvalidSessionMessage))
  {
    if KnownSession(r.sessions, header) then Outcome(EventStreamReply(ConnectedFrame(header.value)), r, [])
    else Outcome(JsonReply(400, None, ErrorBody(InvalidSessionMessage)), r, [])
  }

  /** `DELETE /mcp`: closes and removes exactly the named session, or answers 404. */
  function DeleteMcp(r: Registry, header: Option<string>): (o: Outcome)
    ensures o.registry.created == r.created
    ensures KnownSession(r.sessions, header) ==>
              && o.registry.sessions.Keys == r.sessions.Keys - {header.value}
              && (forall k :: k in o.registry.sessions ==> o.registry.sessions[k] == r.sessions[k])
              && o.effects == [Close(r.sessions[header.value].transport)]
              && o.reply == JsonReply(200, None, TerminatedBody)
    ensures !KnownSession(r.sessions, header) ==>
              o == Outcome(JsonReply(404, None, ErrorBody(SessionNotFoundMessage)), r, [])
  {
    if KnownSession(r.sessions, header) then
      var id := header.value;
      Outcome(JsonReply(200, None, TerminatedBody), r.(sessions := r.sessions - {id}), [Close(r.sessions[id].transport)])
    else
      Outcome(JsonReply(404, None, ErrorBody(SessionNotFoundMessage)), r, [])
  }

  /** `GET /health`: reports the number of stored sessions and changes nothing. */
  function GetHealth(r: Registry, now: string): (o: Outcome)
    ensures o.registry == r && o.effects == []
    ensures o.reply.JsonReply? && o.reply.status == 200 && o.reply.sessionIdHeader.None?
    ensures o.reply.body.JObj? && |o.reply.body.fields| == 3
    ensures o.reply.body.fields[0] == ("status", JStr("ok"))
    ensures o.reply.body.fields[1] == ("timestamp", JStr(now))
    ensures o.reply.body.fields[2] == ("activeSessions", JNum(|r.sessions|))
  {
    Outcome(JsonReply(200, None, HealthBody(now, |r.sessions|)), r, [])
  }

  datatype Route = PostMcpRoute | GetMcpRoute | DeleteMcpRoute | HealthRoute | NoRoute

  /**
   * The handler Express picks for the four registrations `app.post("/mcp")`,
   * `app.get("/mcp")`, `app.delete("/mcp")` and `app.get("/health")`; a `get`
   * route also answers HEAD.
   */
  function RouteOf(verb: Verb, path: Path): (route: Route)
    ensures route == PostMcpRoute <==> verb == Post && path == McpPath
    ensures route == GetMcpRoute <==> (verb == Get || verb == Head) && path == McpPath
    ensures route == DeleteMcpRoute <==> verb == Delete && path == McpPath
    ensures route == HealthRoute <==> (verb == Get || verb == Head) && path == HealthPath
  {
    match (verb, path)
    case (Post, McpPath) => PostMcpRoute
    case (Get, McpPath) => GetMcpRoute
    case (Head, McpPath) => GetMcpRoute
    case (Delete, McpPath) => DeleteMcpRoute
    case (Get, HealthPath) => HealthRoute
    case (Head, HealthPath) => HealthRoute
    case _ => NoRoute
  }

  /**
   * One request through the origin middleware and then its route. `env` is
   * `ALLOWED_ORIGINS` as read for this request, `freshId` what
   * `crypto.randomUUID()` returns, `connectOk` whether `server.connect`
   * succeeds, `now` the ISO timestamp of the health check.
   */
  function HandleRequest(r: Registry, req: Request, env: Option<string>,
                         freshId: string, connectOk: bool, now: string): (o: Outcome)
    ensures !ValidateOrigin(req.origin, env) ==>
              o == Outcome(JsonReply(403, None, ErrorBody(InvalidOriginMessage)), r, [])
    ensures Consistent(r) ==> Consistent(o.registry)
    ensures o.registry.created >= r.created
    ensures o.registry.sessions != r.sessions ==>
              && ValidateOrigin(req.origin, env)
              && ((RouteOf(req.verb, req.path) == PostMcpRoute && IsInitialize(req.body))
                  || (RouteOf(req.verb, req.path) == DeleteMcpRoute && KnownSession(r.sessions, req.sessionHeader)))
  {
    if !ValidateOrigin(req.origin, env) then
      Outcome(JsonReply(403, None, ErrorBody(InvalidOriginMessage)), r, [])
    else match RouteOf(req.verb, req.path)
      case PostMcpRoute => PostMcp(r, req.sessionHeader, req.body, freshId, connectOk)
      case GetMcpRoute => GetMcp(r, req.sessionHeader)
      case DeleteMcpRoute => DeleteMcp(r, req.sessionHeader)
      case HealthRoute => GetHealth(r, now)
      case NoRoute => Outcome(Unrouted, r, [])
  }
}
