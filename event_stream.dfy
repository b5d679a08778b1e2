/**
 * The server-sent-event stream opened by `GET /mcp`: the frames the handler
 * writes, and the client side that reads them, the event-stream interpretation
 * of section 9.2.6 of the HTML Living Standard ("Interpreting an event stream"),
 * folded over the stream one character at a time.
 */
module EventStream {
  import opened Wrappers
  import opened Json

  /** The comment frame written every 30 seconds while the stream is open. */
  const KeepaliveFrame: string := ": keepalive\n\n"

  const ConnectedPrefix: string := "{\"type\":\"connected\",\"sessionId\":"

  /** `JSON.stringify({ type: "connected", sessionId })`. */
  function ConnectedJson(sessionId: string): string
  {
    ConnectedPrefix + Quote(sessionId) + "}"
  }

  /** The first chunk written on an accepted stream. */
  function ConnectedFrame(sessionId: string): string
  {
    "data: " + ConnectedJson(sessionId) + "\n\n"
  }

  /** What a stream holds once `ticks` keepalive intervals have fired. */
  function StreamAfter(sessionId: string, ticks: nat): string
  {
    if ticks == 0 then ConnectedFrame(sessionId) else StreamAfter(sessionId, ticks - 1) + KeepaliveFrame
  }

  /**
   * A client reading a `connected` event's data: the session id it announces.
   * It reads only the one layout the server writes: the exact text
   * `ConnectedPrefix`, then a quoted string decoded by `Unquote`, then a final
   * `}`. It is not a parser for JSON objects in general: other key orders or
   * added whitespace give `None`.
   */
  function ConnectedSessionId(data: string): Option<string>
  {
    var n := |ConnectedPrefix|;
    if |data| >= n + 1 && data[..n] == ConnectedPrefix && data[|data| - 1] == '}'
    then Unquote(data[n..|data| - 1])
    else None
  }

  /** The announced session id reads back as the id the server wrote. */
  lemma ConnectedSessionIdRoundTrip(sessionId: string)
    ensures ConnectedSessionId(ConnectedJson(sessionId)) == Some(sessionId)
  {
    var d := ConnectedJson(sessionId);
    var n := |ConnectedPrefix|;
    assert d[..n] == ConnectedPrefix;
    assert d[n..|d| - 1] == Quote(sessionId);
    UnquoteQuote(sessionId);
  }

  // ---------------------------------------------------------------------------
  // The client-side parser

  datatype Event = Event(eventType: string, data: string)

  /**
   * Parser state: the line read so far, the data and event-type buffers, whether
   * the last character was a CR (so that a following LF ends no further line),
   * and the events dispatched so far.
   */
  datatype Parser = Parser(line: string, data: string, eventType: string, afterCR: bool, events: seq<Event>)

  /** A parser between events, having dispatched `events`. */
  function Idle(events: seq<Event>): Parser
  {
    Parser([], [], [], false, events)
  }

  function IndexOf(s: string, c: char): (r: Option<nat>)
    ensures r.Some? ==> r.value < |s| && s[r.value] == c && c !in s[..r.value]
    ensures r.None? ==> c !in s
  {
    if s == [] then None
    else if s[0] == c then Some(0)
    else match IndexOf(s[1..], c)
      case None => None
      case Some(i) => assert s[..i + 1] == [s[0]] + s[1..][..i]; Some(i + 1)
  }

  function StripOneSpace(v: string): string
  {
    if v != [] && v[0] == ' ' then v[1..] else v
  }

  /** A blank line: fire an event if the data buffer holds anything. */
  function Dispatch(p: Parser): Parser
  {
    if p.data == [] then p.(data := [], eventType := [])
    else
      var kind := if p.eventType == [] then "message" else p.eventType;
      p.(events := p.events + [Event(kind, p.data[..|p.data| - 1])], data := [], eventType := [])
  }

  /** One field. `id` and `retry` do not change dispatched events' type or data. */
  function ProcessField(p: Parser, field: string, value: string): Parser
  {
    if field == "event" then p.(eventType := value)
    else if field == "data" then p.(data := p.data + value + "\n")
    else p
  }

  function ProcessLine(p: Parser, line: string): Parser
  {
    if line == [] then Dispatch(p)
    else if line[0] == ':' then p
    else match IndexOf(line, ':')
      case None => ProcessField(p, line, [])
      case Some(i) => ProcessField(p, line[..i], StripOneSpace(line[i + 1..]))
  }

  /** Reads one character; CR, LF and CR LF each end a line. */
  function Step(p: Parser, c: char): Parser
  {
    if c == '\n' && p.afterCR then p.(afterCR := false)
    else if c == '\n' || c == '\r' then ProcessLine(p.(line := [], afterCR := c == '\r'), p.line)
    else p.(line := p.line + [c], afterCR := false)
  }

  function Feed(p: Parser, s: string): Parser
    decreases |s|
  {
    if s == [] then p else Feed(Step(p, s[0]), s[1..])
  }

  /** The events a client sees on a stream that has delivered `s` so far. */
  function Parse(s: string): seq<Event>
  {
    Feed(Idle([]), s).events
  }

  /** Reading a stream in two pieces is reading it in one. */
  lemma {:induction false} FeedAppend(p: Parser, a: string, b: string)
    ensures Feed(p, a + b) == Feed(Feed(p, a), b)
    decreases |a|
  {
    if a == [] {
      assert a + b == b;
    } else {
      assert (a + b)[0] == a[0] && (a + b)[1..] == a[1..] + b;
      FeedAppend(Step(p, a[0]), a[1..], b);
    }
  }

  /** Characters that end no line only extend the current one. */
  lemma {:induction false} FeedWithinLine(p: Parser, s: string)
    requires '\n' !in s && '\r' !in s
    ensures Feed(p, s) == if s == [] then p else p.(line := p.line + s, afterCR := false)
    decreases |s|
  {
    if s != [] {
      assert s[0] != '\n' && s[0] != '\r';
      FeedWithinLine(Step(p, s[0]), s[1..]);
      assert p.line + [s[0]] + s[1..] == p.line + s;
    }
  }

  lemma DataLineHasNoBreak(sessionId: string)
    ensures '\n' !in "data: " + ConnectedJson(sessionId)
    ensures '\r' !in "data: " + ConnectedJson(sessionId)
  {
  }

  /** The `data:` line of a connected frame fills the data buffer with the JSON text. */
  lemma DataLineFillsBuffer(events: seq<Event>, j: string)
    ensures ProcessLine(Idle(events), "data: " + j) == Parser([], j + "\n", [], false, events)
  {
    var line := "data: " + j;
    assert line[4] == ':' && line[..4] == "data";
    assert IndexOf(line, ':') == Some(4);
    assert line[5..] == " " + j;
  }

  /** A line feed that does not complete a CR LF ends the current line. */
  lemma FeedLineFeed(p: Parser)
    requires !p.afterCR
    ensures Feed(p, "\n") == ProcessLine(p.(line := [], afterCR := false), p.line)
  {
  }

  /** A whole LF-terminated line, read at the start of a line, is processed as one line. */
  lemma FeedLine(p: Parser, line: string)
    requires p.line == [] && !p.afterCR
    requires '\n' !in line && '\r' !in line
    ensures Feed(p, line + "\n") == ProcessLine(p, line)
  {
    FeedAppend(p, line, "\n");
    FeedWithinLine(p, line);
    var q := p.(line := line, afterCR := false);
    assert Feed(p, line) == q;
    FeedLineFeed(q);
    assert q.(line := [], afterCR := false) == p;
  }

  /** A one-line frame read between events: its line, then a blank line. */
  lemma FeedFrame(events: seq<Event>, line: string)
    requires '\n' !in line && '\r' !in line
    ensures Feed(Idle(events), line + "\n\n") == Dispatch(ProcessLine(Idle(events), line))
  {
    assert line + "\n\n" == (line + "\n") + "\n";
    FeedAppend(Idle(events), line + "\n", "\n");
    FeedLine(Idle(events), line);
    var p := ProcessLine(Idle(events), line);
    assert p.line == [] && !p.afterCR;
    FeedLineFeed(p);
  }

  /** A connected frame read between events fires exactly one `message` event. */
  lemma ConnectedFrameFires(events: seq<Event>, sessionId: string)
    ensures Feed(Idle(events), ConnectedFrame(sessionId)) ==
              Idle(events + [Event("message", ConnectedJson(sessionId))])
  {
    var j := ConnectedJson(sessionId);
    DataLineHasNoBreak(sessionId);
    FeedFrame(events, "data: " + j);
    DataLineFillsBuffer(events, j);
    assert (j + "\n")[..|j|] == j;
  }

  /** A comment frame read between events changes nothing. */
  lemma CommentFrameIsInert(events: seq<Event>, text: string)
    requires '\n' !in text && '\r' !in text
    ensures Feed(Idle(events), ":" + text + "\n\n") == Idle(events)
  {
    var line := ":" + text;
    assert '\n' !in line && '\r' !in line;
    FeedFrame(events, line);
  }

  /** A keepalive frame read between events changes nothing. */
  lemma KeepaliveIsInert(events: seq<Event>)
    ensures Feed(Idle(events), KeepaliveFrame) == Idle(events)
  {
    assert KeepaliveFrame == ":" + " keepalive" + "\n\n";
    CommentFrameIsInert(events, " keepalive");
  }

  /** A keepalive written after a stream that left the parser between events changes nothing. */
  lemma KeepaliveKeepsIdle(p: Parser, s: string, events: seq<Event>)
    requires Feed(p, s) == Idle(events)
    ensures Feed(p, s + KeepaliveFrame) == Idle(events)
  {
    FeedAppend(p, s, KeepaliveFrame);
    KeepaliveIsInert(events);
  }

  /** Keepalives fired after the connected frame leave the parser where the frame left it. */
  lemma {:induction false} StreamAfterFeeds(sessionId: string, ticks: nat)
    ensures Feed(Idle([]), StreamAfter(sessionId, ticks)) == Idle([Event("message", ConnectedJson(sessionId))])
  {
    if ticks == 0 {
      ConnectedFrameFires([], sessionId);
      assert [] + [Event("message", ConnectedJson(sessionId))] == [Event("message", ConnectedJson(sessionId))];
    } else {
      StreamAfterFeeds(sessionId, ticks - 1);
      KeepaliveKeepsIdle(Idle([]), StreamAfter(sessionId, ticks - 1), [Event("message", ConnectedJson(sessionId))]);
    }
  }

  /**
   * However many keepalives have fired, a client has seen exactly one event:
   * the `connected` message, from which it reads back the session id.
   */
  lemma StreamShowsOnlyConnected(sessionId: string, ticks: nat)
    ensures Parse(StreamAfter(sessionId, ticks)) == [Event("message", ConnectedJson(sessionId))]
    ensures ConnectedSessionId(Parse(StreamAfter(sessionId, ticks))[0].data) == Some(sessionId)
  {
    StreamAfterFeeds(sessionId, ticks);
    ConnectedSessionIdRoundTrip(sessionId);
  }
}
