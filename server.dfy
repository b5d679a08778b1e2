/**
 * The module-level `sessions` map of the HTTP transport as the state of an
 * object, with one method per route. Each method changes the map in place as
 * the handler does and is proved to agree with the route's function in module
 * `Routes`. `created` counts the transports created so far, and `effects`
 * records the SDK calls made so far, in order.
 */
module Server {
  import opened Wrappers
  import opened Json
  import opened Origin
  import opened EventStream
  import opened Routes

  class StreamableHttpServer {
    var sessions: map<string, Session>
    var created: nat
    var effects: seq<Effect>

    /** Every stored transport was created for the id it is stored under. */
    ghost predicate Valid()
      reads this
    {
      Consistent(Registry(sessions, created))
    }

    constructor ()
      ensures Valid()
      ensures sessions == map[] && created == 0 && effects == []
    {
      sessions := map[];
      created := 0;
      effects := [];
    }

    /** The `app.post("/mcp")` handler. */
    method PostMcp(header: Option<string>, body: Body, freshId: string, connectOk: bool) returns (reply: Reply)
      requires Valid()
      modifies this
      ensures Valid()
      ensures var o := Routes.PostMcp(Registry(old(sessions), old(created)), header, body, freshId, connectOk);
              reply == o.reply && Registry(sessions, created) == o.registry && effects == old(effects) + o.effects
    {
      if body.rpcMethod == Some(JStr(InitializeMethod)) {
        var newSessionId := freshId;
        var transport := Transport(newSessionId, created);
        created := created + 1;
        sessions := sessions[newSessionId := Session(transport)];
        var sessionIdHeader := Some(newSessionId);
        effects := effects + [Connect(transport)];
        if !connectOk {
          return JsonReply(500, sessionIdHeader, ErrorBody(InternalErrorMessage));
        }
        return JsonReply(200, sessionIdHeader, RpcResult(body.id, HandshakeResult));
      }
      if header.Some? && header.value != "" && header.value in sessions {
        reply := JsonReply(200, None, RpcResult(body.id, SuccessResult));
      } else {
        reply := JsonReply(400, None, ErrorBody(InvalidSessionMessage));
      }
    }

    /** The `app.get("/mcp")` handler: opens the event stream of a known session. */
    method GetMcp(header: Option<string>) returns (reply: Reply)
      ensures reply == Routes.GetMcp(Registry(sessions, created), header).reply
    {
      if header.None? || header.value == "" || header.value !in sessions {
        return JsonReply(400, None, ErrorBody(InvalidSessionMessage));
      }
      reply := EventStreamReply(ConnectedFrame(header.value));
    }

    /**
     * The `app.delete("/mcp")` handler. Because the state is `Valid`, the
     * transport it closes is the one created for the id in the header.
     */
    method DeleteMcp(header: Option<string>) returns (reply: Reply)
      requires Valid()
      modifies this
      ensures Valid()
      ensures var o := Routes.DeleteMcp(Registry(old(sessions), old(created)), header);
              reply == o.reply && Registry(sessions, created) == o.registry && effects == old(effects) + o.effects
      ensures KnownSession(old(sessions), header) ==>
                |effects| == |old(effects)| + 1 && effects[|effects| - 1].Close?
                && effects[|effects| - 1].transport.sessionId == header.value
    {
      if header.Some? && header.value != "" && header.value in sessions {
        var sessionId := header.value;
        var session := sessions[sessionId];
        effects := effects + [Close(session.transport)];
        sessions := sessions - {sessionId};
        reply := JsonReply(200, None, TerminatedBody);
      } else {
        reply := JsonReply(404, None, ErrorBody(SessionNotFoundMessage));
      }
    }

    /** The `app.get("/health")` handler. */
    method GetHealth(now: string) returns (reply: Reply)
      ensures reply == Routes.GetHealth(Registry(sessions, created), now).reply
    {
      reply := JsonReply(200, None, HealthBody(now, |sessions|));
    }

    /** One request: the origin middleware, then the matching handler. */
    method HandleRequest(req: Request, env: Option<string>, freshId: string, connectOk: bool, now: string)
      returns (reply: Reply)
      requires Valid()
      modifies this
      ensures Valid()
      ensures var o := Routes.HandleRequest(Registry(old(sessions), old(created)), req, env, freshId, connectOk, now);
              reply == o.reply && Registry(sessions, created) == o.registry && effects == old(effects) + o.effects
    {
      if !ValidateOrigin(req.origin, env) {
        return JsonReply(403, None, ErrorBody(InvalidOriginMessage));
      }
      match RouteOf(req.verb, req.path)
      case PostMcpRoute =>
        reply := PostMcp(req.sessionHeader, req.body, freshId, connectOk);
      case GetMcpRoute =>
        reply := GetMcp(req.sessionHeader);
      case DeleteMcpRoute =>
        reply := DeleteMcp(req.sessionHeader);
      case HealthRoute =>
        reply := GetHealth(now);
      case NoRoute =>
        reply := Unrouted;
    }
  }

  /**
   * The scenario of a client session: initialize, call, open the stream,
   * terminate, and find the id gone.
   */
  method ClientSession(id: string, initBody: Body, callBody: Body)
    requires id != ""
    requires IsInitialize(initBody) && !IsInitialize(callBody)
  {
    var s := new StreamableHttpServer();
    var r := s.PostMcp(None, initBody, id, true);
    assert r == JsonReply(200, Some(id), RpcResult(initBody.id, HandshakeResult));
    r := s.GetHealth("t");
    assert r.body == HealthBody("t", 1);
    r := s.PostMcp(Some(id), callBody, "unused", true);
    assert r == JsonReply(200, None, RpcResult(callBody.id, SuccessResult));
    r := s.GetMcp(Some(id));
    assert r == EventStreamReply(ConnectedFrame(id));
    r := s.DeleteMcp(Some(id));
    assert r == JsonReply(200, None, TerminatedBody);
    assert s.effects == [Connect(Transport(id, 0)), Close(Transport(id, 0))];
    r := s.DeleteMcp(Some(id));
    assert r.status == 404;
    r := s.PostMcp(Some(id), callBody, "unused", true);
    assert r.status == 400;
    r := s.GetHealth("t");
    assert r.body == HealthBody("t", 0);
  }
}
