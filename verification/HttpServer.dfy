/**
 http/httpServer.cpp: one HTTP session, from bytes read to bytes written.

 onMessage hands at most one request per call to the application: a second complete request in the same read
 stays in the buffer until more bytes arrive.
 */
module HttpServers {
  import opened Buffers
  import opened Text
  import opened HttpRequests
  import opened HttpContexts
  import opened HttpResponses
  import opened ConnectionStates
  import opened TcpConnections
  import opened TcpConnectionObject

  const BAD_REQUEST: string := "HTTP/1.1 400 Bad Request\r\n\r\n"

  /** httpCallback_: what the application makes of a request and the response prepared for it. */
  type Application = (Request, Response) -> Response

  datatype Session = Session(conn: Conn, context: Context, input: string, handled: seq<Request>)

  function HeaderOf(r: Request, field: string): string {
    if field in r.headers then r.headers[field] else ""
  }

  function WantsClose(r: Request): bool {
    HeaderOf(r, "Connection") == "close" || (r.version == Http10 && HeaderOf(r, "Connection") != "Keep-Alive")
  }

  function ResponseTo(app: Application, r: Request): Response {
    app(r, Response(0, "", WantsClose(r), [], ""))
  }

  function SendAndClose(c: Conn, msg: string, n: int, close: bool): Conn {
    var d := AfterSend(c, msg, Take(n, msg));
    if close then AfterShutdown(d) else d
  }

  /** onMessage with the received bytes already in the input buffer. */
  function AfterMessage(s: Session, app: Application, now: int, n: int): Session
    requires Parsing(s.context)
  {
    var p := Parse(s.context, s.input, now);
    if !p.ok then Session(SendAndClose(s.conn, BAD_REQUEST, n, true), p.context, p.rest, s.handled)
    else if p.context.phase == GotAll then
      var resp := ResponseTo(app, p.context.request);
      Session(SendAndClose(s.conn, Print(resp), n, resp.close), FRESH, p.rest, s.handled + [p.context.request])
    else Session(s.conn, p.context, p.rest, s.handled)
  }

  /** The branch of handleRead for a positive count: the bytes are appended, then onMessage. */
  function AfterRead(s: Session, app: Application, bytes: string, now: int, n: int): Session
    requires Parsing(s.context)
  {
    AfterMessage(s.(input := s.input + bytes), app, now, n)
  }

  /** TcpConnection::handleRead: an error is only logged, and a read of nothing closes. */
  function AfterHandleRead(s: Session, app: Application, result: ReadResult, now: int, n: int): Session
    requires Parsing(s.context)
  {
    match result
    case ReadError => s
    case ReadBytes(bytes) =>
      if bytes == "" then s.(conn := AfterHandleClose(s.conn)) else AfterRead(s, app, bytes, now, n)
  }

  // ---------------------------------------------------------------- runs of a session

  datatype Event = Read(result: ReadResult, now: int, n: int) | Writable(n: int)

  function Apply(s: Session, app: Application, e: Event): (t: Session)
    requires Parsing(s.context)
    ensures Parsing(t.context)
  {
    match e
    case Read(result, now, n) => AfterHandleRead(s, app, result, now, n)
    case Writable(n) => s.(conn := AfterHandleWrite(s.conn, Take(n, s.conn.out)))
  }

  function Run(s: Session, app: Application, es: seq<Event>): (t: Session)
    requires Parsing(s.context)
    ensures Parsing(t.context)
    decreases |es|
  {
    if es == [] then s else Run(Apply(s, app, es[0]), app, es[1..])
  }

  function BytesOf(es: seq<Event>): string {
    if es == [] then "" else EventBytes(es[0]) + BytesOf(es[1..])
  }

  function EventBytes(e: Event): string {
    if e.Read? && e.result.ReadBytes? then e.result.bytes else ""
  }

  // ---------------------------------------------------------------- no request lost or invented

  function Untimed(r: Request): Request {
    r.(receiveTime := 0)
  }

  function UntimedAll(rs: seq<Request>): seq<Request> {
    if rs == [] then [] else UntimedAll(rs[..|rs| - 1]) + [Untimed(rs[|rs| - 1])]
  }

  /** Every complete request in `s`, parsed one after the other. */
  function RequestsIn(c: Context, s: string): seq<Request>
    requires Parsing(c)
    decreases |s|
  {
    var p := Parse(c, s, 0);
    if p.context.phase == GotAll then [Untimed(p.context.request)] + RequestsIn(FRESH, p.rest) else []
  }

  lemma RequestsInTimeless(c: Context, d: Context, s: string)
    requires Parsing(c) && Timeless(c) == Timeless(d)
    ensures RequestsIn(c, s) == RequestsIn(d, s)
  {
    ParseTimeless(c, d, s, 0, 0);
    var p, q := Parse(c, s, 0), Parse(d, s, 0);
    assert TimelessParsed(p).context.request == Untimed(p.context.request);
    assert TimelessParsed(q).context.request == Untimed(q.context.request);
    assert TimelessParsed(p).context.phase == p.context.phase && TimelessParsed(q).context.phase == q.context.phase;
    assert TimelessParsed(p).rest == p.rest && TimelessParsed(q).rest == q.rest;
  }

  /** What parsing once, at any time, leaves to be found. */
  lemma RequestsInStep(c: Context, s: string, x: string, now: int)
    requires Parsing(c)
    ensures var p := Parse(c, s, now);
            RequestsIn(c, s + x) ==
            if p.context.phase == GotAll then [Untimed(p.context.request)] + RequestsIn(FRESH, p.rest + x)
            else RequestsIn(p.context, p.rest + x)
  {
    var p, q := Parse(c, s, now), Parse(c, s, 0);
    ParseExtend(c, s, x, 0);
    ParseTimeless(c, c, s, now, 0);
    assert TimelessParsed(p).context.request == Untimed(p.context.request);
    assert TimelessParsed(q).context.request == Untimed(q.context.request);
    assert TimelessParsed(p).context.phase == p.context.phase && TimelessParsed(q).context.phase == q.context.phase;
    assert TimelessParsed(p).rest == p.rest && TimelessParsed(q).rest == q.rest;
    if p.context.phase != GotAll {
      RequestsInTimeless(q.context, p.context, q.rest + x);
    }
  }

  lemma UntimedAllSnoc(rs: seq<Request>, r: Request)
    ensures UntimedAll(rs + [r]) == UntimedAll(rs) + [Untimed(r)]
  {
    assert (rs + [r])[..|rs|] == rs;
  }

  /** The requests handed over so far and those still to be found when `x` arrives. */
  function Total(s: Session, x: string): seq<Request>
    requires Parsing(s.context)
  {
    UntimedAll(s.handled) + RequestsIn(s.context, s.input + x)
  }

  lemma MessageConserves(s: Session, app: Application, now: int, n: int, x: string)
    requires Parsing(s.context)
    ensures Total(AfterMessage(s, app, now, n), x) == Total(s, x)
  {
    RequestsInStep(s.context, s.input, x, now);
    var p := Parse(s.context, s.input, now);
    if p.context.phase == GotAll {
      UntimedAllSnoc(s.handled, p.context.request);
      Associate(UntimedAll(s.handled), [Untimed(p.context.request)], RequestsIn(FRESH, p.rest + x));
    }
  }

  lemma ApplyConserves(s: Session, app: Application, e: Event, x: string)
    requires Parsing(s.context)
    ensures Total(Apply(s, app, e), x) == Total(s, EventBytes(e) + x)
  {
    var bytes := EventBytes(e);
    if bytes == "" {
      QuietEvent(s, app, e);
      assert bytes + x == x;
    } else {
      ReadEvent(s, app, e);
      MessageConserves(s.(input := s.input + bytes), app, e.now, e.n, x);
      Associate(s.input, bytes, x);
    }
  }

  lemma ReadEvent(s: Session, app: Application, e: Event)
    requires Parsing(s.context) && EventBytes(e) != ""
    ensures Apply(s, app, e) == AfterMessage(s.(input := s.input + EventBytes(e)), app, e.now, e.n)
  {
  }

  lemma QuietEvent(s: Session, app: Application, e: Event)
    requires Parsing(s.context) && EventBytes(e) == ""
    ensures Apply(s, app, e) == s.(conn := Apply(s, app, e).conn)
  {
  }

  /** However reads cut the stream, and whatever errors and closes happen in between, the requests handed over
      followed by the complete requests still buffered are the requests of the whole stream in order
      (receive times aside). */
  lemma {:induction false} RequestsConserved(s: Session, app: Application, es: seq<Event>)
    requires Parsing(s.context)
    ensures var t := Run(s, app, es);
            UntimedAll(t.handled) + RequestsIn(t.context, t.input) ==
            UntimedAll(s.handled) + RequestsIn(s.context, s.input + BytesOf(es))
    decreases |es|
  {
    if es == [] {
      assert s.input + "" == s.input;
    } else {
      RequestsConserved(Apply(s, app, es[0]), app, es[1..]);
      ApplyConserves(s, app, es[0], BytesOf(es[1..]));
    }
  }

  /** After a read, every complete request received has been handed to the application if and only if the read left
      at most one to hand over: any others stay buffered until more bytes arrive. */
  lemma PipelinedWaitIff(s: Session, app: Application, bytes: string, now: int, n: int)
    requires Parsing(s.context)
    ensures var t := AfterRead(s, app, bytes, now, n);
            RequestsIn(t.context, t.input) == [] <==> |RequestsIn(s.context, s.input + bytes)| <= 1
  {
    var c, s0 := s.context, s.input + bytes;
    var p := Parse(c, s0, now);
    RequestsInStep(c, s0, "", now);
    assert s0 + "" == s0 && p.rest + "" == p.rest;
    ParseTimeless(c, c, s0, now, 0);
    assert TimelessParsed(p).context.phase == TimelessParsed(Parse(c, s0, 0)).context.phase;
  }

  /** Two well-formed requests arriving in one read: the first is handed over, the second waits. */
  lemma PipelinedRequestWaits(s: Session, app: Application, path: string, path': string, now: int, n: int)
    requires s.context == FRESH && s.input == ""
    requires ' ' !in path && '?' !in path && '\n' !in path && ' ' !in path' && '?' !in path' && '\n' !in path'
    ensures var second := PrintRequest(Get, path', "", Http11, []);
            var t := AfterRead(s, app, PrintRequest(Get, path, "", Http11, []) + second, now, n);
            && t.handled == s.handled + [Request(Get, Http11, path, "", now, map[])]
            && t.input == second
            && RequestsIn(t.context, t.input) == [Request(Get, Http11, path', "", 0, map[])]
  {
    var first := PrintRequest(Get, path, "", Http11, []);
    var second := PrintRequest(Get, path', "", Http11, []);
    RequestRoundTrip(Get, path, "", Http11, [], second, now);
    RequestRoundTrip(Get, path', "", Http11, [], "", 0);
    assert s.input + (first + second) == first + second;
    assert second + "" == second;
    assert FindCrlf("") == -1;
    assert RequestsIn(FRESH, "") == [];
  }

  // ---------------------------------------------------------------- every request answered in order

  predicate Closes(app: Application, r: Request) {
    ResponseTo(app, r).close
  }

  /** A response marked close has been sent for one of these. */
  predicate Ended(app: Application, rs: seq<Request>) {
    rs != [] && (Closes(app, rs[0]) || Ended(app, rs[1..]))
  }

  /** The printed responses, up to and including the first that closes. */
  function Replies(app: Application, rs: seq<Request>): string {
    if rs == [] then ""
    else Print(ResponseTo(app, rs[0])) + if Closes(app, rs[0]) then "" else Replies(app, rs[1..])
  }

  lemma {:induction false} RepliesSnoc(app: Application, rs: seq<Request>, r: Request)
    ensures Ended(app, rs + [r]) <==> Ended(app, rs) || Closes(app, r)
    ensures Replies(app, rs + [r]) ==
            if Ended(app, rs) then Replies(app, rs) else Replies(app, rs) + Print(ResponseTo(app, r))
    decreases |rs|
  {
    var answer := Print(ResponseTo(app, r));
    if rs == [] {
      assert rs + [r] == [r] && [r][1..] == [];
      assert answer + "" == "" + answer;
    } else {
      assert (rs + [r])[1..] == rs[1..] + [r];
      RepliesSnoc(app, rs[1..], r);
      Associate(Print(ResponseTo(app, rs[0])), Replies(app, rs[1..]), answer);
    }
  }

  /** A rejected request line is at the front of the input. */
  predicate Stuck(c: Context, input: string) {
    var crlf := FindCrlf(input);
    c.phase == ExpectRequestLine && crlf >= 0 && !RequestLine(c.request, input[..crlf]).ok
  }

  lemma {:induction false} RejectedIsStuck(c: Context, s: string, now: int)
    requires Parsing(c)
    ensures var p := Parse(c, s, now); !p.ok ==> Stuck(p.context, p.rest)
    decreases |s|
  {
    match Advance(c, s, now)
    case Stop(p) => if !p.ok { RejectedLineStable(c.request, s[..FindCrlf(s)]); }
    case More(d, rest) => RejectedIsStuck(d, rest, now);
  }

  /** It stays there, and is rejected again, whatever arrives. */
  lemma StuckForGood(c: Context, input: string, bytes: string, now: int)
    requires Stuck(c, input)
    ensures var p := Parse(c, input + bytes, now); !p.ok && Stuck(p.context, p.rest)
  {
    var crlf := FindCrlf(input);
    FindCrlfExtend(input, bytes);
    assert (input + bytes)[..crlf] == input[..crlf];
    RejectedIsStuck(c, input + bytes, now);
  }

  /** What has been accepted for sending since the session had handled `from` requests and accepted `base`. */
  predicate Answered(s: Session, app: Application, base: string, from: nat) {
    from <= |s.handled| &&
    var rs := s.handled[from..];
    match s.conn.state
    case Connected => !Ended(app, rs) && s.conn.accepted == base + Replies(app, rs)
    case Disconnecting =>
      if Ended(app, rs) then s.conn.accepted == base + Replies(app, rs)
      else Stuck(s.context, s.input) && s.conn.accepted == base + Replies(app, rs) + BAD_REQUEST
    case _ => false
  }

  lemma MessageAnswered(s: Session, app: Application, bytes: string, now: int, n: int, base: string, from: nat)
    requires Parsing(s.context) && Answered(s, app, base, from)
    ensures Answered(AfterRead(s, app, bytes, now, n), app, base, from)
  {
    var p := Parse(s.context, s.input + bytes, now);
    RejectedIsStuck(s.context, s.input + bytes, now);
    if s.conn.state == Disconnecting && !Ended(app, s.handled[from..]) {
      StuckForGood(s.context, s.input, bytes, now);
    } else if p.ok && p.context.phase == GotAll {
      RequestAnswered(s, app, p.context.request, FRESH, p.rest, n, base, from);
    }
  }

  /** The step of onMessage for a complete request. */
  lemma RequestAnswered(s: Session, app: Application, r: Request, c: Context, rest: string, n: int, base: string, from: nat)
    requires Answered(s, app, base, from) && (s.conn.state == Disconnecting ==> Ended(app, s.handled[from..]))
    ensures var resp := ResponseTo(app, r);
            Answered(Session(SendAndClose(s.conn, Print(resp), n, resp.close), c, rest, s.handled + [r]), app, base, from)
  {
    var rs := s.handled[from..];
    assert (s.handled + [r])[from..] == rs + [r];
    RepliesSnoc(app, rs, r);
    Associate(base, Replies(app, rs), Print(ResponseTo(app, r)));
    SendAndCloseAccepts(s.conn, Print(ResponseTo(app, r)), n, ResponseTo(app, r).close);
  }

  lemma SendAndCloseAccepts(c: Conn, msg: string, n: int, close: bool)
    ensures var d := SendAndClose(c, msg, n, close);
            if c.state == Connected
            then d.accepted == c.accepted + msg && d.state == if close then Disconnecting else Connected
            else d == c
  {
  }

  lemma {:induction false} RunAnswered(s: Session, app: Application, es: seq<Event>, base: string, from: nat)
    requires Parsing(s.context) && Answered(s, app, base, from)
    ensures Answered(Run(s, app, es), app, base, from)
    decreases |es|
  {
    if es != [] {
      EventAnswered(s, app, es[0], base, from);
      RunAnswered(Apply(s, app, es[0]), app, es[1..], base, from);
    }
  }

  lemma EventAnswered(s: Session, app: Application, e: Event, base: string, from: nat)
    requires Parsing(s.context) && Answered(s, app, base, from)
    ensures Answered(Apply(s, app, e), app, base, from)
  {
    if EventBytes(e) == "" {
      QuietEvent(s, app, e);
    } else {
      MessageAnswered(s, app, EventBytes(e), e.now, e.n, base, from);
    }
  }

  /** From a connected session on, through reads, writes, errors and closes: what is accepted for sending is the
      responses to the requests handled, in order, up to and including the first that closes; or else, once a
      request line has been rejected, these followed by the 400. With nothing lost before, it is also what has been
      written and what is buffered. */
  lemma RepliesInOrder(s: Session, app: Application, es: seq<Event>)
    requires Parsing(s.context) && s.conn.state == Connected
    ensures var t := Run(s, app, es);
            && |s.handled| <= |t.handled|
            && var rs := t.handled[|s.handled|..];
            && t.conn.accepted == s.conn.accepted + Replies(app, rs) + (if Refused(t, app, rs) then BAD_REQUEST else "")
            && (t.conn.state == Connected <==> !Ended(app, rs) && !Refused(t, app, rs))
            && (InOrder(s.conn) ==> t.conn.wire + t.conn.out == t.conn.accepted)
  {
    assert s.handled[|s.handled|..] == [] && s.conn.accepted + "" == s.conn.accepted;
    RunAnswered(s, app, es, s.conn.accepted, |s.handled|);
    var t := Run(s, app, es);
    var all := s.conn.accepted + Replies(app, t.handled[|s.handled|..]);
    assert all + "" == all;
    if InOrder(s.conn) { RunInOrder(s, app, es); }
  }

  /** The connection was closed with a 400. */
  predicate Refused(s: Session, app: Application, rs: seq<Request>) {
    s.conn.state != Connected && !Ended(app, rs) && Stuck(s.context, s.input)
  }

  lemma SendAndCloseInOrder(c: Conn, msg: string, n: int, close: bool)
    requires InOrder(c)
    ensures InOrder(SendAndClose(c, msg, n, close))
  {
    ApplyInOrder(c, EvSend(msg, Take(n, msg)));
  }

  lemma {:induction false} RunInOrder(s: Session, app: Application, es: seq<Event>)
    requires Parsing(s.context) && InOrder(s.conn)
    ensures InOrder(Run(s, app, es).conn)
    decreases |es|
  {
    if es != [] {
      match es[0] {
        case Read(ReadBytes(bytes), now, n) =>
          var p := Parse(s.context, s.input + bytes, now);
          var resp := ResponseTo(app, p.context.request);
          SendAndCloseInOrder(s.conn, BAD_REQUEST, n, true);
          SendAndCloseInOrder(s.conn, Print(resp), n, resp.close);
        case Read(ReadError, _, _) =>
        case Writable(n) => ApplyInOrder(s.conn, EvWritable(Take(n, s.conn.out)));
      }
      RunInOrder(Apply(s, app, es[0]), app, es[1..]);
    }
  }

  // ---------------------------------------------------------------- a read of nothing closes

  predicate ReadsNothing(e: Event) {
    e.Read? && e.result == ReadBytes("")
  }

  /** How often the peer's close is reported. */
  function Closings(es: seq<Event>): nat {
    if es == [] then 0 else (if ReadsNothing(es[0]) then 1 else 0) + Closings(es[1..])
  }

  lemma SendAndCloseKeeps(c: Conn, msg: string, n: int, close: bool)
    ensures var d := SendAndClose(c, msg, n, close); d.closes == c.closes && d.reading == c.reading
  {
  }

  lemma EventCloses(s: Session, app: Application, e: Event)
    requires Parsing(s.context)
    ensures var c, d := s.conn, Apply(s, app, e).conn;
            && d.closes == c.closes + (if ReadsNothing(e) then 1 else 0)
            && d.reading == (c.reading && !ReadsNothing(e))
            && (ReadsNothing(e) || (EventBytes(e) == "" && !c.writing) ==> !d.writing)
            && (ReadsNothing(e) ==> d.state == c.state && d.out == c.out && d.wire == c.wire)
  {
    if EventBytes(e) != "" {
      var p := Parse(s.context, s.input + EventBytes(e), e.now);
      var resp := ResponseTo(app, p.context.request);
      SendAndCloseKeeps(s.conn, BAD_REQUEST, e.n, true);
      SendAndCloseKeeps(s.conn, Print(resp), e.n, resp.close);
    }
  }

  /** handleClose runs once for each read of nothing, and for nothing else; from the first one on the connection is not
      read again, and it is not written either until something more is sent. */
  lemma {:induction false} ClosedByEmptyReads(s: Session, app: Application, es: seq<Event>)
    requires Parsing(s.context)
    ensures var c, d := s.conn, Run(s, app, es).conn;
            && d.closes == c.closes + Closings(es)
            && d.reading == (c.reading && Closings(es) == 0)
            && ((forall e :: e in es ==> EventBytes(e) == "") && (Closings(es) > 0 || !c.writing) ==> !d.writing)
    decreases |es|
  {
    if es != [] {
      assert es[0] in es;
      EventCloses(s, app, es[0]);
      ClosedByEmptyReads(Apply(s, app, es[0]), app, es[1..]);
    }
  }

  // ---------------------------------------------------------------- keeping a connection alive

  /** The value of the last field of that name, the empty string when there is none. */
  function LastValue(fs: seq<Field>, name: string): string {
    if fs == [] then ""
    else if fs[|fs| - 1].name == name then fs[|fs| - 1].value
    else LastValue(fs[..|fs| - 1], name)
  }

  lemma {:induction false} HeaderMapSnoc(m: map<string, string>, fs: seq<Field>, f: Field)
    ensures HeaderMap(m, fs + [f]) == HeaderMap(m, fs)[f.name := f.value]
    decreases |fs|
  {
    if fs == [] {
      assert fs + [f] == [f] && [f][1..] == [];
    } else {
      assert (fs + [f])[1..] == fs[1..] + [f];
      HeaderMapSnoc(m[fs[0].name := fs[0].value], fs[1..], f);
    }
  }

  lemma {:induction false} HeaderIsLastValue(fs: seq<Field>, name: string)
    ensures var m := HeaderMap(map[], fs); (if name in m then m[name] else "") == LastValue(fs, name)
    decreases |fs|
  {
    if fs != [] {
      var init, last := fs[..|fs| - 1], fs[|fs| - 1];
      assert init + [last] == fs;
      HeaderMapSnoc(map[], init, last);
      HeaderIsLastValue(init, name);
    }
  }

  /** The application leaves the connection's fate to the server. */
  ghost predicate KeepsClose(app: Application) {
    forall r, p :: app(r, p).close == p.close
  }

  /** On bytes: with such an application, a well-formed request that arrives on a fresh connected session leaves it connected
      if and only if it is an HTTP/1.1 request whose last Connection field is not "close", or an HTTP/1.0 request
      whose last one is "Keep-Alive". */
  lemma KeptAliveIff(s: Session, app: Application, m: Method, path: string, query: string, v: Version, fs: seq<Field>,
                     now: int, n: int)
    requires s.conn.state == Connected && s.context == FRESH && s.input == "" && KeepsClose(app)
    requires m != Invalid && v != UnknownVersion
    requires ' ' !in path && '?' !in path && '\n' !in path
    requires query == "" || (query[0] == '?' && ' ' !in query && '\n' !in query)
    requires forall f :: f in fs ==> WellFormedField(f)
    ensures var t := AfterRead(s, app, PrintRequest(m, path, query, v, fs), now, n);
            && t.handled == s.handled + [Request(m, v, path, query, now, HeaderMap(map[], fs))]
            && (t.conn.state == Connected <==>
                  if v == Http11 then LastValue(fs, "Connection") != "close"
                  else LastValue(fs, "Connection") == "Keep-Alive")
  {
    var bytes := PrintRequest(m, path, query, v, fs);
    var r := Request(m, v, path, query, now, HeaderMap(map[], fs));
    assert s.input + bytes == bytes && bytes + "" == bytes;
    RequestRoundTrip(m, path, query, v, fs, "", now);
    RequestDecides(s, app, bytes, now, n, r, "");
    ClosingDecision(r, fs);
  }

  lemma RequestDecides(s: Session, app: Application, bytes: string, now: int, n: int, r: Request, rest: string)
    requires s.conn.state == Connected && Parsing(s.context) && KeepsClose(app)
    requires Parse(s.context, s.input + bytes, now) == Parsed(true, Context(GotAll, r), rest)
    ensures var t := AfterRead(s, app, bytes, now, n);
            t.handled == s.handled + [r] && (t.conn.state == Connected <==> !WantsClose(r))
  {
    assert ResponseTo(app, r).close == WantsClose(r);
  }

  lemma ClosingDecision(r: Request, fs: seq<Field>)
    requires r.headers == HeaderMap(map[], fs) && r.version != UnknownVersion
    ensures WantsClose(r) <==> if r.version == Http11 then LastValue(fs, "Connection") == "close"
                               else LastValue(fs, "Connection") != "Keep-Alive"
  {
    HeaderIsLastValue(fs, "Connection");
    assert HeaderOf(r, "Connection") == LastValue(fs, "Connection");
  }

  /** defaultHttpCallback, before an application sets its own. */
  const NOT_FOUND: Application := (r: Request, p: Response) => p.(status := 404, message := "Not Found", close := true)

  /** Its answer, to whatever request. */
  lemma NotFoundAnswer(r: Request)
    ensures Print(ResponseTo(NOT_FOUND, r)) == "HTTP/1.1 404 Not Found\r\nConnection: close\r\n\r\n"
  {
    var made := ResponseTo(NOT_FOUND, r);
    StatusOf404(made);
    assert made.fields == [] && made.close && made.body == "";
    assert PrintPairs([]) == "";
  }

  /** A response the application leaves as it was prepared. */
  const UNTOUCHED: Application := (r: Request, p: Response) => p

  /** It reads as a status line without a code, the keep-alive headers and no body. */
  lemma UntouchedAnswer(r: Request, now: int)
    requires !WantsClose(r)
    ensures var text := Print(ResponseTo(UNTOUCHED, r));
            var crlf := FindCrlf(text);
            && crlf >= 0
            && ReadStatusLine(text[..crlf]) == Status("HTTP/1.1", 0, "")
            && Parse(Context(ExpectRequestHead, EMPTY_REQUEST), text[crlf + 2..], now) ==
               Parsed(true, Context(GotAll, EMPTY_REQUEST.(
                 headers := map["Content-Length" := "0", "Connection" := "Keep-Alive"])), "")
  {
    var made := ResponseTo(UNTOUCHED, r);
    assert made == Response(0, "", false, [], "");
    StatusLineFirst(made);
    ResponseRoundTrip(made, now);
    assert Dec(0) == "0";
    assert ConnectionMap(made) + map[] == ConnectionMap(made);
  }

  lemma StatusOf404(r: Response)
    requires r.status == 404 && r.message == "Not Found"
    ensures StatusLine(r) == "HTTP/1.1 404 Not Found"
  {
    assert Dec(4) == "4";
    assert Dec(40) == "4" + "0";
    assert Dec(404) == "404";
  }

  /** The answer to a rejected request line is a 400 with no header and no body. */
  lemma BadRequestReads(now: int)
    ensures var crlf := FindCrlf(BAD_REQUEST);
            && crlf >= 0
            && ReadStatusLine(BAD_REQUEST[..crlf]) == Status("HTTP/1.1", 400, "Bad Request")
            && Parse(Context(ExpectRequestHead, EMPTY_REQUEST), BAD_REQUEST[crlf + 2..], now) ==
               Parsed(true, Context(GotAll, EMPTY_REQUEST), "")
  {
    BadRequestText();
    ValueOf400();
    OnlyStatus("HTTP/1.1", "400", "Bad Request", now);
  }

  lemma BadRequestText()
    ensures BAD_REQUEST == "HTTP/1.1" + [' '] + ("400" + [' '] + "Bad Request") + CRLF + CRLF
  {
  }

  lemma OnlyStatus(version: string, code: string, reason: string, now: int)
    requires ' ' !in version && ' ' !in code && '\n' !in version && '\n' !in code && '\n' !in reason
    ensures var text := version + [' '] + (code + [' '] + reason) + CRLF + CRLF;
            var crlf := FindCrlf(text);
            && crlf >= 0
            && ReadStatusLine(text[..crlf]) == Status(version, Value(code), reason)
            && Parse(Context(ExpectRequestHead, EMPTY_REQUEST), text[crlf + 2..], now) ==
               Parsed(true, Context(GotAll, EMPTY_REQUEST), "")
  {
    FindCrlfAfterLine(version + [' '] + (code + [' '] + reason), CRLF);
    StatusSplits(version, code, reason);
    EmptyHead(now);
  }

  lemma EmptyHead(now: int)
    ensures Parse(Context(ExpectRequestHead, EMPTY_REQUEST), CRLF, now) ==
            Parsed(true, Context(GotAll, EMPTY_REQUEST), "")
  {
    HeadLineStep(EMPTY_REQUEST, "", "", now);
    assert "" + CRLF + "" == CRLF;
  }

  lemma ValueOf400()
    ensures Value("400") == 400
  {
    assert "400"[..2] == "40" && "40"[..1] == "4" && "4"[..0] == "";
    assert Value("4") == 4;
    assert Value("40") == 40;
  }

  // ---------------------------------------------------------------- a closing response is flushed

  lemma SendAndCloseFlushes(c: Conn, msg: string, n: int, close: bool)
    requires Flushing(c)
    ensures Flushing(SendAndClose(c, msg, n, close))
  {
    ApplyFlushing(c, EvSend(msg, Take(n, msg)));
    ApplyFlushing(AfterSend(c, msg, Take(n, msg)), EvShutdown);
  }

  /** The peer has not closed its side. */
  predicate StaysOpen(e: Event) {
    e.Read? ==> e.result != ReadBytes("")
  }

  lemma ApplyFlushes(s: Session, app: Application, e: Event)
    requires Parsing(s.context) && Flushing(s.conn) && StaysOpen(e)
    ensures Flushing(Apply(s, app, e).conn)
    ensures s.conn.state == Disconnecting ==>
              Apply(s, app, e).conn.state == Disconnecting && Apply(s, app, e).conn.accepted == s.conn.accepted
  {
    match e
    case Read(ReadError, _, _) =>
    case Read(ReadBytes(bytes), now, n) =>
      var p := Parse(s.context, s.input + bytes, now);
      if !p.ok {
        SendAndCloseFlushes(s.conn, BAD_REQUEST, n, true);
      } else if p.context.phase == GotAll {
        var resp := ResponseTo(app, p.context.request);
        SendAndCloseFlushes(s.conn, Print(resp), n, resp.close);
      }
    case Writable(n) =>
      ApplyFlushing(s.conn, EvWritable(Take(n, s.conn.out)));
  }

  lemma {:induction false} RunFlushes(s: Session, app: Application, es: seq<Event>)
    requires Parsing(s.context) && Flushing(s.conn) && forall e :: e in es ==> StaysOpen(e)
    ensures Flushing(Run(s, app, es).conn)
    ensures s.conn.state == Disconnecting ==>
              Run(s, app, es).conn.state == Disconnecting && Run(s, app, es).conn.accepted == s.conn.accepted
    decreases |es|
  {
    if es != [] {
      ApplyFlushes(s, app, es[0]);
      RunFlushes(Apply(s, app, es[0]), app, es[1..]);
    }
  }

  function Writables(ns: seq<nat>): seq<Event> {
    if ns == [] then [] else [Writable(ns[0])] + Writables(ns[1..])
  }

  lemma {:induction false} WritablesRun(s: Session, app: Application, ns: seq<nat>)
    requires Parsing(s.context) && TcpConnections.Possible(s.conn, Writes(ns))
    ensures Run(s, app, Writables(ns)) == s.(conn := TcpConnections.Run(s.conn, Writes(ns)))
    decreases |ns|
  {
    if ns != [] {
      assert Writables(ns)[1..] == Writables(ns[1..]) && Writes(ns)[1..] == Writes(ns[1..]);
      WritablesRun(Apply(s, app, Writable(ns[0])), app, ns[1..]);
    }
  }

  /** An answer that is buffered is written out as the socket becomes writable, in however many pieces. */
  lemma BufferedAnswerWritten(s: Session, app: Application, ns: seq<nat>)
    requires Parsing(s.context) && Flushing(s.conn) && s.conn.out != ""
    requires Sum(ns) == |s.conn.out| && forall n :: n in ns ==> n > 0
    ensures var t := Run(s, app, Writables(ns));
            && t.conn.out == "" && t.conn.wire == s.conn.accepted
            && t.conn.shuts == s.conn.shuts + if s.conn.state == Disconnecting then 1 else 0
  {
    WritesDrain(s.conn, ns);
    WritablesRun(s, app, ns);
  }

  /** Once a request is answered with a response marked close, and until the peer closes, nothing is accepted after the response,
      and the write side is shut, once, exactly when the whole response has been written. */
  lemma ClosingResponseFlushed(s: Session, app: Application, bytes: string, now: int, n: int, es: seq<Event>)
    requires Parsing(s.context) && Flushing(s.conn) && s.conn.state == Connected
    requires bytes != "" && forall e :: e in es ==> StaysOpen(e)
    requires var p := Parse(s.context, s.input + bytes, now);
             p.context.phase == GotAll && ResponseTo(app, p.context.request).close
    ensures var answer := Print(ResponseTo(app, Parse(s.context, s.input + bytes, now).context.request));
            var c := Run(AfterRead(s, app, bytes, now, n), app, es).conn;
            && c.accepted == s.conn.accepted + answer
            && c.wire + c.out == c.accepted
            && c.shuts == if c.wire == s.conn.accepted + answer then 1 else 0
  {
    var t := AfterRead(s, app, bytes, now, n);
    assert t == Apply(s, app, Read(ReadBytes(bytes), now, n));
    ApplyFlushes(s, app, Read(ReadBytes(bytes), now, n));
    assert t.conn.state == Disconnecting;
    RunFlushes(t, app, es);
    var c := Run(t, app, es).conn;
    assert c.out == "" ==> c.wire + c.out == c.wire;
    assert c.out != "" ==> |c.wire| < |c.accepted|;
  }

  // ---------------------------------------------------------------- the class

  class HttpServer {
    const callback: Application

    constructor (callback: Application)
      ensures this.callback == callback
    {
      this.callback := callback;
    }

    /** onRequest up to the response's text. */
    method Answer(req: HttpRequest) returns (msg: string, close: bool)
      ensures var resp := ResponseTo(callback, req.View()); msg == Print(resp) && close == resp.close
    {
      var connection := req.GetHeader("Connection");
      close := connection == "close" || (req.version == Http10 && connection != "Keep-Alive");
      var made := callback(
        Request(req.method_, req.version, req.path, req.query, req.receiveTime, req.headers),
        Response(0, "", close, [], ""));
      close := made.close;
      msg := Render(made);
    }

    /** The response, as the application left it, printed through a buffer of its own. */
    method Render(made: Response) returns (msg: string)
      ensures msg == Print(made)
    {
      var response := new HttpResponse(made.close);
      response.status, response.message := made.status, made.message;
      response.fields, response.body := made.fields, made.body;
      var buf := new Buffer();
      response.AppendToBuffer(buf);
      assert response.View() == made;
      msg := buf.RetrieveAsString();
      assert msg == "" + Print(made);
    }

    /** send, then shutdown when the response is marked close. */
    method SendThenClose(conn: TcpConnection, msg: string, taken: int, close: bool)
      requires conn.Valid()
      modifies conn, conn.outputBuffer, conn.outputBuffer.data
      ensures conn.Valid()
      ensures conn.outputBuffer.data == old(conn.outputBuffer.data) || fresh(conn.outputBuffer.data)
      ensures conn.View() == SendAndClose(old(conn.View()), msg, taken, close)
    {
      conn.Send(msg, Take(taken, msg), true);
      if close {
        conn.Shutdown(true);
      }
    }

    method OnRequest(conn: TcpConnection, req: HttpRequest, taken: int)
      requires conn.Valid()
      modifies conn, conn.outputBuffer, conn.outputBuffer.data
      ensures conn.Valid()
      ensures conn.outputBuffer.data == old(conn.outputBuffer.data) || fresh(conn.outputBuffer.data)
      ensures var resp := ResponseTo(callback, old(req.View()));
              conn.View() == SendAndClose(old(conn.View()), Print(resp), taken, resp.close)
    {
      var msg, close := Answer(req);
      SendThenClose(conn, msg, taken, close);
    }

    /** `handled` is the history of requests handed over. */
    method OnMessage(conn: TcpConnection, context: HttpContext, now: int, taken: int, ghost handled: seq<Request>)
      returns (ghost handled': seq<Request>)
      requires conn.Valid() && Parsing(context.View())
      modifies context`phase, context.request
      modifies conn, conn.inputBuffer`readIndex, conn.outputBuffer, conn.outputBuffer.data
      ensures conn.Valid() && Parsing(context.View())
      ensures conn.outputBuffer.data == old(conn.outputBuffer.data) || fresh(conn.outputBuffer.data)
      ensures Session(conn.View(), context.View(), conn.inputBuffer.Contents(), handled') ==
              AfterMessage(old(Session(conn.View(), context.View(), conn.inputBuffer.Contents(), handled)),
                           callback, now, taken)
    {
      handled' := handled;
      var ok := context.ParseRequest(conn.inputBuffer, now);
      ghost var p := Parsed(ok, context.View(), conn.inputBuffer.Contents());
      if !ok {
        SendThenClose(conn, BAD_REQUEST, taken, true);
      }
      if context.phase == GotAll {
        handled' := handled' + [p.context.request];
        OnRequest(conn, context.request, taken);
        context.Reset();
      }
      assert conn.inputBuffer.Contents() == p.rest;
    }

    /** TcpConnection::handleRead with onMessage as the message callback; `result` is what readv delivered. */
    method HandleRead(conn: TcpConnection, context: HttpContext, result: ReadResult, now: int, taken: int,
                      ghost handled: seq<Request>)
      returns (ghost handled': seq<Request>)
      requires conn.Valid() && Parsing(context.View())
      requires Open(conn.state)
      requires result.ReadBytes? ==>
                 |result.bytes| <= conn.inputBuffer.data.Length - conn.inputBuffer.writeIndex + EXTRA_SIZE
      modifies context`phase, context.request
      modifies conn, conn.inputBuffer, conn.inputBuffer.data, conn.outputBuffer, conn.outputBuffer.data
      ensures conn.Valid() && Parsing(context.View())
      ensures Session(conn.View(), context.View(), conn.inputBuffer.Contents(), handled') ==
              AfterHandleRead(old(Session(conn.View(), context.View(), conn.inputBuffer.Contents(), handled)),
                              callback, result, now, taken)
    {
      handled' := handled;
      var ret := conn.inputBuffer.ReadFd(result);
      if ret > 0 {
        handled' := OnMessage(conn, context, now, taken, handled);
      } else if ret == 0 {
        conn.HandleClose();
        assert conn.inputBuffer.Contents() == old(conn.inputBuffer.Contents()) + "";
      }
    }
  }
}
