/**
 * Properties of request sequences: what an `initialize` makes possible, what a
 * `DELETE` makes impossible, what `/health` counts, and which ids are stored
 * after any sequence of requests.
 */
module Lifecycle {
  import opened Wrappers
  import opened Json
  import opened Origin
  import opened EventStream
  import opened Routes

  /**
   * After an `initialize` with a non-empty id, that id is usable by every other
   * route, whether or not `server.connect` succeeded.
   */
  lemma InitializedSessionIsUsable(r: Registry, header: Option<string>, body: Body,
                                   freshId: string, connectOk: bool, next: Body, nextId: string, nextOk: bool)
    requires IsInitialize(body) && !IsInitialize(next) && freshId != ""
    ensures var after := PostMcp(r, header, body, freshId, connectOk).registry;
            && PostMcp(after, Some(freshId), next, nextId, nextOk).reply == JsonReply(200, None, RpcResult(next.id, SuccessResult))
            && GetMcp(after, Some(freshId)).reply == EventStreamReply(ConnectedFrame(freshId))
            && DeleteMcp(after, Some(freshId)).reply == JsonReply(200, None, TerminatedBody)
  {
  }

  /**
   * After a successful `DELETE`, the same id is unknown to every route: a second
   * `DELETE` gets 404, a non-initialize POST and a GET get 400.
   */
  lemma TerminationIsFinal(r: Registry, id: string, next: Body, nextId: string, nextOk: bool)
    requires DeleteMcp(r, Some(id)).reply == JsonReply(200, None, TerminatedBody)
    requires !IsInitialize(next)
    ensures var after := DeleteMcp(r, Some(id)).registry;
            && DeleteMcp(after, Some(id)).reply == JsonReply(404, None, ErrorBody(SessionNotFoundMessage))
            && PostMcp(after, Some(id), next, nextId, nextOk).reply == JsonReply(400, None, ErrorBody(InvalidSessionMessage))
            && GetMcp(after, Some(id)).reply == JsonReply(400, None, ErrorBody(InvalidSessionMessage))
  {
  }

  /**
   * `/health` counts one more session after an `initialize` with a new id. An id
   * already stored gets a different transport in place of its old one, which is
   * not closed, and the count stays the same.
   */
  lemma InitializeCount(r: Registry, header: Option<string>, body: Body, freshId: string, connectOk: bool)
    requires IsInitialize(body)
    ensures var o := PostMcp(r, header, body, freshId, connectOk);
            |o.registry.sessions| == if freshId in r.sessions then |r.sessions| else |r.sessions| + 1
    ensures Consistent(r) && freshId in r.sessions ==>
              var o := PostMcp(r, header, body, freshId, connectOk);
              && o.registry.sessions[freshId].transport != r.sessions[freshId].transport
              && Close(r.sessions[freshId].transport) !in o.effects
  {
  }

  /** `/health` counts one session fewer after a successful `DELETE`. */
  lemma DeleteCount(r: Registry, header: Option<string>)
    requires KnownSession(r.sessions, header)
    ensures |DeleteMcp(r, header).registry.sessions| == |r.sessions| - 1
  {
  }

  /**
   * A client reading the stream opened for a known session sees one `connected`
   * event naming that session, and nothing more however many keepalives follow.
   */
  lemma StreamAnnouncesSession(r: Registry, id: string, ticks: nat)
    requires KnownSession(r.sessions, Some(id))
    ensures GetMcp(r, Some(id)).reply.EventStreamReply?
    ensures var first := GetMcp(r, Some(id)).reply.firstChunk;
            && first == StreamAfter(id, 0)
            && Parse(first) == [Event("message", ConnectedJson(id))]
            && Parse(StreamAfter(id, ticks)) == [Event("message", ConnectedJson(id))]
            && ConnectedSessionId(Parse(first)[0].data) == Some(id)
  {
    StreamShowsOnlyConnected(id, 0);
    StreamShowsOnlyConnected(id, ticks);
  }

  // ---------------------------------------------------------------------------
  // Sequences of requests

  /** One request together with the values the environment supplies for it. */
  datatype Arrival = Arrival(req: Request, env: Option<string>, freshId: string, connectOk: bool, now: string)

  function Handle(r: Registry, a: Arrival): Outcome
  {
    HandleRequest(r, a.req, a.env, a.freshId, a.connectOk, a.now)
  }

  /** The state after the requests of `trace`, starting from an empty map. */
  function Replay(trace: seq<Arrival>): (r: Registry)
    ensures Consistent(r)
  {
    if trace == [] then Registry(map[], 0)
    else Handle(Replay(trace[..|trace| - 1]), trace[|trace| - 1]).registry
  }

  /** `a` is an accepted `initialize` that mints `k`. */
  predicate Mints(a: Arrival, k: string)
  {
    ValidateOrigin(a.req.origin, a.env) && RouteOf(a.req.verb, a.req.path) == PostMcpRoute
    && IsInitialize(a.req.body) && a.freshId == k
  }

  /** `a` is an accepted `DELETE` naming `k`. */
  predicate Terminates(a: Arrival, k: string)
  {
    ValidateOrigin(a.req.origin, a.env) && RouteOf(a.req.verb, a.req.path) == DeleteMcpRoute
    && a.req.sessionHeader == Some(k) && k != ""
  }

  /** Some request of `trace` minted `k` and no later one deleted it. */
  ghost predicate CreatedAndNotDeleted(trace: seq<Arrival>, k: string)
  {
    exists i :: 0 <= i < |trace| && Mints(trace[i], k) && forall j :: i < j < |trace| ==> !Terminates(trace[j], k)
  }

  /** How one request changes which ids are stored. */
  lemma HandleKeys(r: Registry, a: Arrival, k: string)
    ensures k in Handle(r, a).registry.sessions <==> Mints(a, k) || (k in r.sessions && !Terminates(a, k))
  {
  }

  /** An id is stored exactly when it was minted by an `initialize` and not deleted since. */
  lemma {:induction false} StoredIffCreatedAndNotDeleted(trace: seq<Arrival>, k: string)
    ensures k in Replay(trace).sessions <==> CreatedAndNotDeleted(trace, k)
  {
    if trace != [] {
      var prefix, a := trace[..|trace| - 1], trace[|trace| - 1];
      assert trace == prefix + [a];
      StoredIffCreatedAndNotDeleted(prefix, k);
      HandleKeys(Replay(prefix), a, k);
      if k in Replay(trace).sessions {
        if Mints(a, k) {
          assert Mints(trace[|trace| - 1], k);
        } else {
          var i :| 0 <= i < |prefix| && Mints(prefix[i], k) && forall j :: i < j < |prefix| ==> !Terminates(prefix[j], k);
          assert trace[i] == prefix[i];
          forall j | i < j < |trace| ensures !Terminates(trace[j], k) {
            if j < |prefix| { assert trace[j] == prefix[j]; }
          }
        }
      }
    }
  }

  // ---------------------------------------------------------------------------
  // Transports that leave the map

  /** The state after the requests of `trace`, and every SDK call they made, in order. */
  datatype Run = Run(registry: Registry, log: seq<Effect>)

  function RunFrom(r: Registry, trace: seq<Arrival>): Run
    decreases |trace|
  {
    if trace == [] then Run(r, [])
    else
      var o := Handle(r, trace[0]);
      var rest := RunFrom(o.registry, trace[1..]);
      Run(rest.registry, o.effects + rest.log)
  }

  /** `t` was created already and is no longer stored under any id. */
  predicate Retired(r: Registry, t: Transport)
  {
    t.serial < r.created && forall k :: k in r.sessions ==> r.sessions[k].transport != t
  }

  /** A request closes only a stored transport, and a retired transport stays retired. */
  lemma HandleKeepsRetired(r: Registry, a: Arrival, t: Transport)
    requires Consistent(r) && Retired(r, t)
    ensures Close(t) !in Handle(r, a).effects
    ensures Retired(Handle(r, a).registry, t)
  {
  }

  /** No sequence of requests ever closes a retired transport. */
  lemma {:induction false} RetiredNeverClosed(r: Registry, trace: seq<Arrival>, t: Transport)
    requires Consistent(r) && Retired(r, t)
    ensures Close(t) !in RunFrom(r, trace).log
    decreases |trace|
  {
    if trace != [] {
      HandleKeepsRetired(r, trace[0], t);
      RetiredNeverClosed(Handle(r, trace[0]).registry, trace[1..], t);
    }
  }

  /**
   * An accepted `initialize` whose generated id is already stored replaces that
   * id's transport, and neither it nor any later request closes the replaced
   * one: it leaks.
   */
  lemma ReplacedTransportLeaks(r: Registry, a: Arrival, later: seq<Arrival>)
    requires Consistent(r) && Mints(a, a.freshId) && a.freshId in r.sessions
    ensures Retired(Handle(r, a).registry, r.sessions[a.freshId].transport)
    ensures Close(r.sessions[a.freshId].transport) !in RunFrom(r, [a] + later).log
  {
    var t := r.sessions[a.freshId].transport;
    var after := Handle(r, a).registry;
    forall k | k in after.sessions ensures after.sessions[k].transport != t {
      if k != a.freshId {
        assert after.sessions[k] == r.sessions[k];
      }
    }
    assert ([a] + later)[0] == a && ([a] + later)[1..] == later;
    RetiredNeverClosed(after, later, t);
  }
}
