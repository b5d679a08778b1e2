# Session registry and router of the MCP streamable HTTP transport

This project models the HTTP transport of the `super-pm-ai` MCP server
(`mcp-server/src/transport/streamableHttp.ts`). The model covers:

- the process-wide `sessions` map, from session id to the session's transport;
- the origin middleware that runs before every route (`validateOrigin`);
- the four handlers over that map:
  - `POST /mcp` stores a new session on `initialize` and otherwise answers only known sessions;
  - `GET /mcp` opens a server-sent-event stream for a known session;
  - `DELETE /mcp` closes and removes a session;
  - `GET /health` counts the stored sessions.

Module layout:

- `Wrappers`: `Option`.
- `Json`: JSON values. It also holds the string quoting that `JSON.stringify` performs (ECMAScript's
  QuoteJSONString) and a decoder for it, proved to be its inverse.
- `Origin`: `validateOrigin`. `split(",")` and `join` are modelled as a pair proved inverse to each other.
- `EventStream`: the `connected` and keepalive frames written on the stream. It also holds the client side:
  a parser for the event stream format of section 9.2.6 of the HTML Living Standard
  ("Interpreting an event stream"), which reads the stream one character at a time.
- `Routes`: each route as a pure function from (request, state) to (reply, new state, SDK calls made).
  The state (`Registry`) is the session map plus a count of the transports created so far. A transport
  is identified by its session id and its creation number, so two transports created for the same id
  are told apart.
  `HandleRequest` runs the origin middleware and then the matching route.
- `Lifecycle`: properties of request sequences. The main one: after any sequence of requests, an id is
  stored exactly when an accepted `initialize` minted it and no accepted `DELETE` removed it afterwards.
- `Server`: the class `StreamableHttpServer`. It holds the map as a field that its methods update in
  place, one method per handler. Each method is proved to agree with its `Routes` function and to keep
  the invariant that every entry's transport belongs to the id it is stored under.

Inputs from outside the process are parameters:

- `freshId`: what `crypto.randomUUID()` returns.
- `connectOk`: whether `server.connect` succeeds.
- `env`: the value of `ALLOWED_ORIGINS`, read on every request.
- `now`: the health check's timestamp.

The SDK calls `server.connect(transport)` and `transport.close()` are recorded in order in an `effects` log.

Behaviours of the code worth knowing:

- `initialize` creates a session whether or not a session header was sent.
- An `initialize` whose generated id is already stored overwrites that entry rather than failing. The
  replaced transport is never closed (`Lifecycle.ReplacedTransportLeaks`).
- A non-initialize POST answers `{success: true}` for a known session. It does not pass the request on
  to a tool handler.
- The GET stream attaches nothing to the session record. Any number of streams can be opened for one
  session.

## Model

| member | source | states |
|---|---|---|
| `Json.Escape` | mcp-server/src/transport/streamableHttp.ts:102 | the text `JSON.stringify` writes for a string never contains a control character, so it never holds a CR or LF |
| `Json.Quote` | mcp-server/src/transport/streamableHttp.ts:102 | a stringified session id is one quoted token with no line break in it |
| `Json.UnescapeEscape` | mcp-server/src/transport/streamableHttp.ts:102 | decoding the escaped text gives back the original string, for every string |
| `Json.UnquoteQuote` | mcp-server/src/transport/streamableHttp.ts:102 | `JSON.parse(JSON.stringify(s)) == s` for strings |
| `Origin.Split` | mcp-server/src/transport/streamableHttp.ts:20 | `split(",")` yields at least one piece and no piece contains the separator |
| `Origin.JoinSplit` | mcp-server/src/transport/streamableHttp.ts:20 | joining the pieces of `ALLOWED_ORIGINS` with commas restores the variable's value |
| `Origin.SplitJoin` | mcp-server/src/transport/streamableHttp.ts:20 | splitting a comma-join of comma-free entries gives back exactly those entries |
| `Origin.AllowedOrigins` | mcp-server/src/transport/streamableHttp.ts:20 | the defaults apply only when the variable is unset; otherwise the list is the unique comma-free decomposition of its value (a set but empty variable gives `[""]`) |
| `Origin.ValidateOrigin` | mcp-server/src/transport/streamableHttp.ts:15-22 | a missing or empty origin passes; an origin containing a comma never passes; with the variable unset exactly the two localhost:3000 origins pass |
| `Origin.AcceptsExactlyListed` | mcp-server/src/transport/streamableHttp.ts:17-21 | with `ALLOWED_ORIGINS` set to a comma-separated list, a non-empty origin passes iff it is literally one of the entries |
| `EventStream.ConnectedSessionIdRoundTrip` | mcp-server/src/transport/streamableHttp.ts:102 | a client reads back from the `connected` event's JSON exactly the session id the server wrote |
| `EventStream.FeedAppend` | mcp-server/src/transport/streamableHttp.ts:102-106 | the stream means the same whether its writes arrive together or separately |
| `EventStream.ConnectedFrameFires` | mcp-server/src/transport/streamableHttp.ts:101-102 | the first chunk fires exactly one `message` event whose data is `{"type":"connected","sessionId":...}` |
| `EventStream.KeepaliveIsInert` | mcp-server/src/transport/streamableHttp.ts:105-107 | the `: keepalive` frame is a comment: it fires no event and leaves the parser as it was |
| `EventStream.StreamShowsOnlyConnected` | mcp-server/src/transport/streamableHttp.ts:101-107 | after any number of keepalives, a client has seen exactly one event, and it names the session |
| `Routes.PostMcp` | mcp-server/src/transport/streamableHttp.ts:38-85 | `initialize` stores the new id before connecting, whether or not a session header was sent. It echoes the id in `Mcp-Session-Id` and answers the handshake, or 500 when connect fails, keeping the entry either way. Any other body gets `{success:true}` iff the header names a stored session, else 400, with the map unchanged |
| `Routes.GetMcp` | mcp-server/src/transport/streamableHttp.ts:88-102 | a stream opens iff the header is non-empty and stored; its first chunk is the connected frame for that id; otherwise 400; the map never changes |
| `Routes.DeleteMcp` | mcp-server/src/transport/streamableHttp.ts:116-127 | a stored id has its transport closed and exactly its key removed, other entries untouched, and gets `{success:true, message:"Session terminated"}`; otherwise 404 and nothing changes |
| `Routes.GetHealth` | mcp-server/src/transport/streamableHttp.ts:130-136 | 200 with no session header and a body of exactly three fields in this order: `status:"ok"`, `timestamp` (the given time), `activeSessions` (the number of stored sessions); nothing changes |
| `Routes.RouteOf` | mcp-server/src/transport/streamableHttp.ts:38-130 | the four registrations: POST `/mcp` goes to the POST handler, GET or HEAD `/mcp` to the stream handler, DELETE `/mcp` to the delete handler, GET or HEAD `/health` to the health check, and nothing else reaches any of them |
| `Routes.HandleRequest` | mcp-server/src/transport/streamableHttp.ts:29-35 | a request failing the origin check gets 403 `{error:"Invalid origin"}` and changes nothing; only an accepted `initialize` or an accepted DELETE of a stored id changes the map; every route keeps each entry's transport tied to its key |
| `Lifecycle.InitializedSessionIsUsable` | mcp-server/src/transport/streamableHttp.ts:43-80 | after `initialize`, even one whose connect failed, POST, GET and DELETE with the new id all succeed |
| `Lifecycle.TerminationIsFinal` | mcp-server/src/transport/streamableHttp.ts:116-127 | after a successful DELETE, repeating it gives 404 and a non-initialize POST or a GET with that id gives 400 |
| `Lifecycle.InitializeCount` | mcp-server/src/transport/streamableHttp.ts:44-51 | `initialize` adds one to the health count for a new id. For a colliding id the count stays the same, the stored transport is replaced by a different one, and the replaced transport is not closed by the request |
| `Lifecycle.DeleteCount` | mcp-server/src/transport/streamableHttp.ts:119-122 | a successful DELETE lowers the health count by one |
| `Lifecycle.StreamAnnouncesSession` | mcp-server/src/transport/streamableHttp.ts:88-107 | for a stored id, the stream's first chunk announces that id to a client, and no keepalive adds an event |
| `Lifecycle.HandleKeepsRetired` | mcp-server/src/transport/streamableHttp.ts:38-127 | once a transport is no longer stored, no request stores it again and no request closes it |
| `Lifecycle.RetiredNeverClosed` | mcp-server/src/transport/streamableHttp.ts:116-127 | for any later sequence of requests, a transport that was created and is no longer stored never appears in a `close` call |
| `Lifecycle.ReplacedTransportLeaks` | mcp-server/src/transport/streamableHttp.ts:43-51 | when `initialize` mints an id that is already stored, the old transport is dropped from the map and is never closed, by that request or by any later one |
| `Lifecycle.Replay` | mcp-server/src/transport/streamableHttp.ts:45-51 | after any sequence of requests, every stored transport generates the id it is stored under |
| `Lifecycle.HandleKeys` | mcp-server/src/transport/streamableHttp.ts:38-127 | one request stores an id iff it is an accepted `initialize` minting it, or the id was stored and the request is not an accepted DELETE of it |
| `Lifecycle.StoredIffCreatedAndNotDeleted` | mcp-server/src/transport/streamableHttp.ts:38-127 | after any sequence of requests, an id is stored iff some accepted `initialize` minted it and no later accepted DELETE named it |
| `Server.StreamableHttpServer.constructor` | mcp-server/src/transport/streamableHttp.ts:7 | the map starts empty, no transport has been created and no SDK call has been made |
| `Server.StreamableHttpServer.PostMcp` | mcp-server/src/transport/streamableHttp.ts:38-85 | updates the map in place exactly as `Routes.PostMcp` says, appends its SDK calls to the log, and keeps the invariant |
| `Server.StreamableHttpServer.GetMcp` | mcp-server/src/transport/streamableHttp.ts:88-102 | answers as `Routes.GetMcp` says and changes nothing |
| `Server.StreamableHttpServer.DeleteMcp` | mcp-server/src/transport/streamableHttp.ts:116-127 | removes the entry in place exactly as `Routes.DeleteMcp` says and keeps the invariant; for a stored id it logs one `close` call, on a transport created for that id |
| `Server.StreamableHttpServer.GetHealth` | mcp-server/src/transport/streamableHttp.ts:130-136 | answers as `Routes.GetHealth` says and changes nothing |
| `Server.StreamableHttpServer.HandleRequest` | mcp-server/src/transport/streamableHttp.ts:29-35 | runs the origin middleware and the matching handler, with the effect `Routes.HandleRequest` describes |

## Left out

- Express setup, JSON body parsing, the response headers of the stream, `app.listen` and the choice of
  host are not modelled. This is I/O plumbing. The request body arrives already parsed, as its `method`
  and `id` members.
- The order of the body parser and the origin check is not modelled. `express.json()` runs before the
  origin check, so a malformed JSON body gets the parser's own 400 even when its origin is not allowed.
- Express's own URL matching is summarised by the `Path` datatype. It is case-insensitive and ignores a
  trailing slash.
- Requests that no handler of this file takes are summarised by `Unrouted`. Express answers those itself:
  a 404, or its automatic reply to OPTIONS.
- HEAD requests are routed to the GET handlers, as Express does. The model does not capture that Node
  then discards the body.
- The keepalive timer is not modelled: `setInterval` every 30 seconds, and `clearInterval` when the
  connection closes. It is event-loop behaviour. Only the frames it writes are modelled (`KeepaliveFrame`,
  and `StreamAfter` for the stream after some number of ticks).
- The uniqueness of `crypto.randomUUID()` values is not modelled. It is probabilistic. The id is a
  parameter, and `InitializeCount` states what a collision does.
- What `server.connect` and `transport.close` do inside the SDK is not modelled. Neither is the promise
  `close` returns, which the handler does not await. `StreamableHttpServer` records only that the calls
  were made.
- Requests are handled one at a time, each to completion. In the source, the `initialize` handler awaits
  `server.connect` after storing the session, so other requests can use the new id before the reply is
  sent. The map they see is the one the model gives, because the entry is stored before the await.
- Faults in the POST handler other than a failing `server.connect` are not modelled. One example: an
  Express version that leaves `req.body` undefined.
- JSON numbers are integers. A fractional request id is not modelled.
- `Json.Unescape` does not decode surrogate pairs written as `\u` escapes. `JSON.stringify` never writes
  them for the session id, because `char` values here are Unicode scalar values.
- The event-stream parser ignores the `id` and `retry` fields and the byte-order mark. None of them
  appears on this stream.
- Forwarding a request to the tool and prompt handlers is not modelled, and neither is idle-session
  eviction; the code has neither.
- `mcp-server/src/index.ts`, the Jira service and agent, and the file-system agent are not part of this
  model. They are SDK handler registration, schema parsing and pass-through calls to the network and
  the file system.
