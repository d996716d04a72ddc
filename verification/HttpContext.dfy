/**
 http/httpContext.cpp: the incremental request parser.

 What the code does and a reader might not expect: a request line without any space, or with an
 unknown method, is accepted unchanged; any header line without a colon ends the header block;
 the query keeps its '?'; and entered in kGotAll or kExpectRequestBody the loop would not end,
 so those phases are outside ParseRequest's precondition (the server never uses them).
 */
module HttpContexts {
  import opened Text
  import opened HttpRequests
  import opened Buffers

  datatype Phase = ExpectRequestLine | ExpectRequestHead | ExpectRequestBody | GotAll

  datatype Context = Context(phase: Phase, request: Request)

  const FRESH := Context(ExpectRequestLine, EMPTY_REQUEST)

  predicate Parsing(c: Context) {
    c.phase == ExpectRequestLine || c.phase == ExpectRequestHead
  }

  // ---------------------------------------------------------------- the request line

  datatype LineResult = LineResult(ok: bool, request: Request)

  /** processRequestLine; `end` of the source is |line|. */
  function RequestLine(r: Request, line: string): LineResult {
    var space := Find(line, ' ');
    if space == |line| then LineResult(true, r)
    else
      var r1 := r.(method_ := MethodOf(line[..space]));
      if r1.method_ == Invalid then LineResult(true, r1)
      else Target(r1, line[space + 1..])
  }

  /** The part after the method and its space. */
  function Target(r: Request, s: string): LineResult {
    var space := Find(s, ' ');
    if space == |s| then LineResult(false, r)
    else
      var r1 := WithTarget(r, s[..space]);
      var v := VersionOf(s[space + 1..]);
      if v == UnknownVersion then LineResult(false, r1) else LineResult(true, r1.(version := v))
  }

  /** setPath and, when there is a '?', setQuery from it on. */
  function WithTarget(r: Request, target: string): Request {
    var question := Find(target, '?');
    if question < |target| then r.(path := target[..question], query := target[question..])
    else r.(path := target)
  }

  function VersionOf(s: string): Version {
    if s == "HTTP/1.1" then Http11 else if s == "HTTP/1.0" then Http10 else UnknownVersion
  }

  lemma VersionByParts(s: string)
    ensures VersionOf(s) == if |s| == 8 && s[..|s| - 1] == "HTTP/1." && s[7] == '1' then Http11
                            else if |s| == 8 && s[..|s| - 1] == "HTTP/1." && s[7] == '0' then Http10
                            else UnknownVersion
  {
    if |s| == 8 { assert s == s[..7] + [s[7]]; }
  }

  function VersionText(v: Version): string {
    if v == Http11 then "HTTP/1.1" else "HTTP/1.0"
  }

  ghost predicate StartsWithMethod(line: string) {
    exists m, s :: m != Invalid && line == MethodToString(m) + [' '] + s
  }

  ghost predicate IsTarget(s: string) {
    exists target, v :: ' ' !in target && v != UnknownVersion && s == target + [' '] + VersionText(v)
  }

  /** method SP target SP version, as in section 3.1.1 of RFC 7230. */
  ghost predicate WellFormed(line: string) {
    exists m, s :: m != Invalid && IsTarget(s) && line == MethodToString(m) + [' '] + s
  }

  /** Exactly which lines are accepted: the well-formed ones, and every line that does not
      begin with a method and a space. */
  lemma RequestLineAccepts(r: Request, line: string)
    ensures RequestLine(r, line).ok <==> !StartsWithMethod(line) || WellFormed(line)
  {
    var space := Find(line, ' ');
    if space < |line| && MethodOf(line[..space]) != Invalid {
      var m, s := MethodOf(line[..space]), line[space + 1..];
      MethodTable(Invalid, line[..space]);
      FindJoin(line, ' ');
      assert line == MethodToString(m) + [' '] + s;
      TargetAccepts(r.(method_ := m), s);
      forall m', s' | m' != Invalid && line == MethodToString(m') + [' '] + s' ensures s' == s
      {
        MethodTable(m', "");
        FindSplit(MethodToString(m'), ' ', s');
      }
    } else {
      forall m', s' | m' != Invalid && line == MethodToString(m') + [' '] + s' ensures false
      {
        MethodTable(m', "");
        FindSplit(MethodToString(m'), ' ', s');
      }
    }
  }

  lemma TargetAccepts(r: Request, s: string)
    ensures Target(r, s).ok <==> IsTarget(s)
  {
    if Target(r, s).ok {
      FindJoin(s, ' ');
      var n := Find(s, ' ');
      assert s == s[..n] + [' '] + VersionText(VersionOf(s[n + 1..]));
    }
    if IsTarget(s) {
      var target, v :| ' ' !in target && v != UnknownVersion && s == target + [' '] + VersionText(v);
      FindSplit(target, ' ', VersionText(v));
    }
  }

  /** What is accepted without being well-formed sets nothing but the method, and that to none. */
  lemma OddLineSetsNothing(r: Request, line: string)
    requires RequestLine(r, line).ok && !WellFormed(line)
    ensures RequestLine(r, line).request == if ' ' in line then r.(method_ := Invalid) else r
  {
    RequestLineAccepts(r, line);
    MethodStart(line);
  }

  lemma MethodStart(line: string)
    ensures var space := Find(line, ' ');
            space < |line| && MethodOf(line[..space]) != Invalid ==> StartsWithMethod(line)
  {
    var space := Find(line, ' ');
    if space < |line| {
      FindJoin(line, ' ');
      MethodTable(Invalid, line[..space]);
      assert line == line[..space] + [' '] + line[space + 1..];
    }
  }

  /** Parsing the same rejected line again changes nothing. */
  lemma RejectedLineStable(r: Request, line: string)
    requires !RequestLine(r, line).ok
    ensures RequestLine(RequestLine(r, line).request, line) == RequestLine(r, line)
  {
  }

  // ---------------------------------------------------------------- the whole request

  datatype Parsed = Parsed(ok: bool, context: Context, rest: string)

  datatype Progress = More(context: Context, rest: string) | Stop(parsed: Parsed)

  /** One pass through the loop of parseRequest. */
  function Advance(c: Context, s: string, now: int): Progress
    requires Parsing(c)
  {
    var crlf := FindCrlf(s);
    if crlf < 0 then Stop(Parsed(true, c, s))
    else if c.phase == ExpectRequestLine then
      var l := RequestLine(c.request, s[..crlf]);
      if l.ok then More(Context(ExpectRequestHead, l.request.(receiveTime := now)), s[crlf + 2..])
      else Stop(Parsed(false, Context(ExpectRequestLine, l.request), s))
    else
      var colon := Find(s[..crlf], ':');
      if colon < crlf then More(Context(ExpectRequestHead, WithHeader(c.request, s[..crlf], colon)), s[crlf + 2..])
      else Stop(Parsed(true, Context(GotAll, c.request), s[crlf + 2..]))
  }

  /** parseRequest: the returned flag, the new parser state and what is left in the buffer. */
  function Parse(c: Context, s: string, now: int): (p: Parsed)
    requires Parsing(c)
    ensures |p.rest| <= |s|
    ensures p.context.phase == GotAll ==> p.ok && |p.rest| < |s|
    ensures Parsing(p.context) || p.context.phase == GotAll
    decreases |s|
  {
    match Advance(c, s, now)
    case Stop(parsed) => parsed
    case More(d, rest) => Parse(d, rest, now)
  }

  /** Handing over more input can be done before or after parsing what is already there. */
  lemma {:induction false} ParseExtend(c: Context, s: string, x: string, now: int)
    requires Parsing(c)
    ensures var p := Parse(c, s, now);
            Parse(c, s + x, now) ==
            if p.context.phase == GotAll then p.(rest := p.rest + x) else Parse(p.context, p.rest + x, now)
    decreases |s|
  {
    var crlf := FindCrlf(s);
    if crlf >= 0 {
      FindCrlfExtend(s, x);
      var line, rest := s[..crlf], s[crlf + 2..];
      assert (s + x)[..crlf] == line;
      assert (s + x)[crlf + 2..] == rest + x;
      if c.phase == ExpectRequestLine {
        var l := RequestLine(c.request, line);
        if l.ok {
          ParseExtend(Context(ExpectRequestHead, l.request.(receiveTime := now)), rest, x, now);
        } else {
          RejectedLineStable(c.request, line);
        }
      } else {
        var colon := Find(line, ':');
        if colon < |line| {
          ParseExtend(Context(ExpectRequestHead, WithHeader(c.request, line, colon)), rest, x, now);
        }
      }
    }
  }

  function Timeless(c: Context): Context {
    c.(request := c.request.(receiveTime := 0))
  }

  function TimelessParsed(p: Parsed): Parsed {
    p.(context := Timeless(p.context))
  }

  lemma LineTimeless(r: Request, q: Request, line: string)
    requires r.(receiveTime := 0) == q.(receiveTime := 0)
    ensures var l, k := RequestLine(r, line), RequestLine(q, line);
            l.ok == k.ok && l.request.(receiveTime := 0) == k.request.(receiveTime := 0)
  {
  }

  /** The receive time is recorded and never consulted. */
  lemma {:induction false} ParseTimeless(c: Context, d: Context, s: string, now: int, then_: int)
    requires Parsing(c) && Timeless(c) == Timeless(d)
    ensures TimelessParsed(Parse(c, s, now)) == TimelessParsed(Parse(d, s, then_))
    decreases |s|
  {
    var crlf := FindCrlf(s);
    if crlf >= 0 {
      var line, rest := s[..crlf], s[crlf + 2..];
      if c.phase == ExpectRequestLine {
        var l, k := RequestLine(c.request, line), RequestLine(d.request, line);
        LineTimeless(c.request, d.request, line);
        if l.ok {
          ParseTimeless(Context(ExpectRequestHead, l.request.(receiveTime := now)),
                        Context(ExpectRequestHead, k.request.(receiveTime := then_)), rest, now, then_);
        }
      } else {
        var colon := Find(line, ':');
        if colon < |line| {
          ParseTimeless(Context(ExpectRequestHead, WithHeader(c.request, line, colon)),
                        Context(ExpectRequestHead, WithHeader(d.request, line, colon)), rest, now, then_);
        }
      }
    }
  }

  datatype Chunk = Chunk(bytes: string, time: int)

  function Concat(chunks: seq<Chunk>): string {
    if chunks == [] then "" else chunks[0].bytes + Concat(chunks[1..])
  }

  /** Appending each chunk to the buffer and parsing after each, until the request is complete;
      later chunks then only pile up behind it. */
  function Feed(p: Parsed, chunks: seq<Chunk>): Parsed
    requires Parsing(p.context) || p.context.phase == GotAll
    decreases |chunks|
  {
    if chunks == [] then p
    else if p.context.phase == GotAll then Feed(p.(rest := p.rest + chunks[0].bytes), chunks[1..])
    else Feed(Parse(p.context, p.rest + chunks[0].bytes, chunks[0].time), chunks[1..])
  }

  lemma {:induction false} FeedComplete(p: Parsed, chunks: seq<Chunk>)
    requires p.context.phase == GotAll
    ensures Feed(p, chunks) == p.(rest := p.rest + Concat(chunks))
    decreases |chunks|
  {
    if chunks == [] {
      assert p.rest + "" == p.rest;
    } else {
      FeedComplete(p.(rest := p.rest + chunks[0].bytes), chunks[1..]);
      assert p.rest + chunks[0].bytes + Concat(chunks[1..]) == p.rest + Concat(chunks);
    }
  }

  /** However the bytes are cut into chunks, the parser ends in the same state with the same request,
      the same bytes left over and the same verdict as if they had arrived at once. */
  lemma {:induction false} ChunkingIrrelevant(c: Context, buffered: string, chunks: seq<Chunk>, ok: bool, now: int)
    requires Parsing(c) && chunks != []
    ensures TimelessParsed(Feed(Parsed(ok, c, buffered), chunks)) ==
            TimelessParsed(Parse(c, buffered + Concat(chunks), now))
    decreases |chunks|
  {
    var s, x := buffered + chunks[0].bytes, Concat(chunks[1..]);
    var t := chunks[0].time;
    var p := Parse(c, s, t);
    assert buffered + Concat(chunks) == s + x;
    assert Feed(Parsed(ok, c, buffered), chunks) == Feed(p, chunks[1..]);
    FirstChunk(c, s, x, t, now);
    if p.context.phase == GotAll {
      FeedComplete(p, chunks[1..]);
    } else if |chunks| == 1 {
      ParseTimeless(c, c, s, t, now);
      assert s + "" == s;
    } else {
      ChunkingIrrelevant(p.context, p.rest, chunks[1..], p.ok, t);
      assert p == Parsed(p.ok, p.context, p.rest);
    }
  }

  /** Parsing the first chunk and then the rest. */
  lemma FirstChunk(c: Context, s: string, x: string, t: int, now: int)
    requires Parsing(c)
    ensures var p := Parse(c, s, t);
            TimelessParsed(Parse(c, s + x, now)) ==
            TimelessParsed(if p.context.phase == GotAll then p.(rest := p.rest + x) else Parse(p.context, p.rest + x, t))
  {
    ParseExtend(c, s, x, t);
    ParseTimeless(c, c, s + x, t, now);
  }

  // ---------------------------------------------------------------- parsing inverts printing

  /** A header line: the field name, the optional white space and the value. */
  datatype Field = Field(name: string, lead: string, value: string, trail: string)

  predicate WellFormedField(f: Field) {
    && ':' !in f.name && '\n' !in f.name
    && AllSpace(f.lead) && '\n' !in f.lead
    && Trimmed(f.value) && '\n' !in f.value
    && AllSpace(f.trail) && '\n' !in f.trail
  }

  function PrintFields(fs: seq<Field>): string {
    if fs == [] then "" else FieldLine(fs[0]) + CRLF + PrintFields(fs[1..])
  }

  function FieldLine(f: Field): string {
    f.name + [':'] + (f.lead + f.value + f.trail)
  }

  function HeaderMap(m: map<string, string>, fs: seq<Field>): map<string, string>
    decreases |fs|
  {
    if fs == [] then m else HeaderMap(m[fs[0].name := fs[0].value], fs[1..])
  }

  lemma FieldLineParses(r: Request, f: Field)
    requires WellFormedField(f)
    ensures var line := FieldLine(f);
            && '\n' !in line && Find(line, ':') == |f.name| < |line|
            && WithHeader(r, line, |f.name|) == r.(headers := r.headers[f.name := f.value])
  {
    var line := FieldLine(f);
    FindSplit(f.name, ':', f.lead + f.value + f.trail);
    TrimPadded(f.lead, f.value, f.trail);
  }

  /** A printed header block, its blank line and a body parse to exactly those headers and that body. */
  lemma {:induction false} HeadersRoundTrip(r: Request, fs: seq<Field>, body: string, now: int)
    requires forall f :: f in fs ==> WellFormedField(f)
    ensures Parse(Context(ExpectRequestHead, r), PrintFields(fs) + CRLF + body, now) ==
            Parsed(true, Context(GotAll, r.(headers := HeaderMap(r.headers, fs))), body)
    decreases |fs|
  {
    var s := PrintFields(fs) + CRLF + body;
    if fs == [] {
      assert s == "" + CRLF + body;
      HeadLineStep(r, "", body, now);
    } else {
      var rest := PrintFields(fs[1..]) + CRLF + body;
      FieldLineParses(r, fs[0]);
      Reassociate(FieldLine(fs[0]), CRLF, PrintFields(fs[1..]), CRLF, body);
      HeadLineStep(r, FieldLine(fs[0]), rest, now);
      HeadersRoundTrip(r.(headers := r.headers[fs[0].name := fs[0].value]), fs[1..], body, now);
    }
  }

  lemma HeadLineStep(r: Request, line: string, rest: string, now: int)
    requires '\n' !in line
    ensures Parse(Context(ExpectRequestHead, r), line + CRLF + rest, now) ==
            var colon := Find(line, ':');
            if colon < |line| then Parse(Context(ExpectRequestHead, WithHeader(r, line, colon)), rest, now)
            else Parsed(true, Context(GotAll, r), rest)
  {
    FindCrlfAfterLine(line, rest);
  }

  function PrintRequestLine(m: Method, target: string, v: Version): string {
    MethodToString(m) + [' '] + (target + [' '] + VersionText(v))
  }

  function PrintRequest(m: Method, path: string, query: string, v: Version, fs: seq<Field>): string {
    PrintRequestLine(m, path + query, v) + CRLF + (PrintFields(fs) + CRLF)
  }

  /** A well-formed request (RFC 7230, sections 3.1.1 and 3.2) parses back to what was printed. */
  lemma RequestRoundTrip(m: Method, path: string, query: string, v: Version, fs: seq<Field>, body: string, now: int)
    requires m != Invalid && v != UnknownVersion
    requires ' ' !in path && '?' !in path && '\n' !in path
    requires query == "" || (query[0] == '?' && ' ' !in query && '\n' !in query)
    requires forall f :: f in fs ==> WellFormedField(f)
    ensures Parse(FRESH, PrintRequest(m, path, query, v, fs) + body, now) ==
            Parsed(true, Context(GotAll, Request(m, v, path, query, now, HeaderMap(map[], fs))), body)
  {
    var line := PrintRequestLine(m, path + query, v);
    var rest := PrintFields(fs) + CRLF + body;
    Reassociate(line, CRLF, PrintFields(fs), CRLF, body);
    RequestLineIsLine(m, path + query, v);
    FindCrlfAfterLine(line, rest);
    RequestLineParses(m, path, query, v);
    HeadersRoundTrip(Request(m, v, path, query, now, map[]), fs, body, now);
  }

  lemma RequestLineIsLine(m: Method, target: string, v: Version)
    requires '\n' !in target
    ensures '\n' !in PrintRequestLine(m, target, v)
  {
    MethodTable(m, "");
  }

  lemma RequestLineParses(m: Method, path: string, query: string, v: Version)
    requires m != Invalid && v != UnknownVersion
    requires ' ' !in path && '?' !in path
    requires query == "" || (query[0] == '?' && ' ' !in query)
    ensures RequestLine(EMPTY_REQUEST, PrintRequestLine(m, path + query, v)) ==
            LineResult(true, Request(m, v, path, query, 0, map[]))
  {
    var r := EMPTY_REQUEST.(method_ := m);
    var s := path + query + [' '] + VersionText(v);
    MethodTable(m, "");
    FindSplit(MethodToString(m), ' ', s);
    TargetParses(r, path, query, v);
    assert RequestLine(EMPTY_REQUEST, PrintRequestLine(m, path + query, v)) == Target(r, s);
  }

  lemma TargetParses(r: Request, path: string, query: string, v: Version)
    requires v != UnknownVersion && ' ' !in path && '?' !in path
    requires query == "" || (query[0] == '?' && ' ' !in query)
    ensures Target(r, path + query + [' '] + VersionText(v)) ==
            LineResult(true, r.(path := path, query := if query == "" then r.query else query, version := v))
  {
    FindSplit(path + query, ' ', VersionText(v));
    WithTargetSplits(r, path, query);
  }

  /** A request line rejected for its version has set the target all the same; one without a second space, only the
      method. Nobody reads either: the line is never accepted later. */
  lemma RejectedLineSets(r: Request, m: Method, path: string, query: string, version: string)
    requires m != Invalid && ' ' !in path && '?' !in path && (query == "" || (query[0] == '?' && ' ' !in query))
    requires VersionOf(version) == UnknownVersion
    ensures RequestLine(r, MethodToString(m) + [' '] + (path + query + [' '] + version)) ==
            LineResult(false, r.(method_ := m, path := path, query := if query == "" then r.query else query))
    ensures RequestLine(r, MethodToString(m) + [' '] + path) == LineResult(false, r.(method_ := m))
  {
    MethodTable(m, "");
    FindSplit(MethodToString(m), ' ', path + query + [' '] + version);
    FindSplit(path + query, ' ', version);
    WithTargetSplits(r.(method_ := m), path, query);
    FindSplit(MethodToString(m), ' ', path);
    FindIs(path, ' ', |path|);
  }

  lemma WithTargetSplits(r: Request, path: string, query: string)
    requires '?' !in path && (query == "" || query[0] == '?')
    ensures WithTarget(r, path + query) == if query == "" then r.(path := path) else r.(path := path, query := query)
  {
    if query == "" {
      assert path + query == path;
      FindIs(path, '?', |path|);
    } else {
      assert path + query == path + ['?'] + query[1..];
      FindSplit(path, '?', query[1..]);
    }
  }

  // ---------------------------------------------------------------- the class

  class HttpContext {
    var phase: Phase
    const request: HttpRequest

    ghost function View(): Context
      reads this, request
    {
      Context(phase, request.View())
    }

    constructor ()
      ensures View() == FRESH && fresh(request)
    {
      phase := ExpectRequestLine;
      request := new HttpRequest();
    }

    method Reset()
      modifies this`phase, request
      ensures View() == FRESH
    {
      phase := ExpectRequestLine;
      var dummy := new HttpRequest();
      request.Swap(dummy);
    }

    method ProcessRequestLine(line: string) returns (success: bool)
      modifies request
      ensures LineResult(success, request.View()) == RequestLine(old(request.View()), line)
    {
      success := true;
      var space := Find(line, ' ');
      if space != |line| {
        MethodTable(Invalid, line[..space]);
        var known := request.SetMethod(line[..space]);
        if known {
          success := ProcessTarget(line[space + 1..]);
        }
      }
    }

    /** The rest of processRequestLine, after the method and its space. */
    method ProcessTarget(s: string) returns (success: bool)
      modifies request
      ensures LineResult(success, request.View()) == Target(old(request.View()), s)
    {
      var space := Find(s, ' ');
      if space != |s| {
        var target := s[..space];
        var question := Find(target, '?');
        if question != space {
          request.path := target[..question];
          request.query := target[question..];
        } else {
          request.path := target;
        }
      }
      var start := space + 1;
      success := |s| - start == 8 && s[start..|s| - 1] == "HTTP/1.";
      if start <= |s| {
        VersionByParts(s[start..]);
      }
      if success {
        if s[|s| - 1] == '1' {
          request.version := Http11;
        } else if s[|s| - 1] == '0' {
          request.version := Http10;
        } else {
          success := false;
        }
      }
    }

    /** A line of the header block. */
    method ParseHeadLine(line: string) returns (hasMore: bool)
      requires phase == ExpectRequestHead
      modifies this`phase, request
      ensures var colon := Find(line, ':');
              && (hasMore <==> colon < |line|)
              && View() == if hasMore then Context(ExpectRequestHead, WithHeader(old(request.View()), line, colon))
                           else Context(GotAll, old(request.View()))
    {
      var colon := Find(line, ':');
      hasMore := colon != |line|;
      if hasMore {
        request.AddHeader(line, colon);
      } else {
        phase := GotAll;
      }
    }

    /** The bytes from peek() to the line end. */
    method PeekLine(buf: Buffer, crlf: nat) returns (line: string)
      requires buf.Valid() && crlf <= |buf.Contents()|
      ensures line == buf.Contents()[..crlf]
    {
      line := buf.data[buf.readIndex..buf.readIndex + crlf];
    }

    /** The body of the loop in parseRequest. */
    method ParseLine(buf: Buffer, now: int) returns (ok: bool, hasMore: bool)
      requires buf.Valid() && Parsing(View())
      modifies this`phase, request, buf`readIndex
      ensures buf.Valid()
      ensures Advance(old(View()), old(buf.Contents()), now) ==
              if hasMore then More(View(), buf.Contents()) else Stop(Parsed(ok, View(), buf.Contents()))
      ensures hasMore ==> ok && Parsing(View()) && |buf.Contents()| < |old(buf.Contents())|
    {
      ok, hasMore := true, true;
      var crlf := buf.FindCRLF();
      if crlf < 0 {
        hasMore := false;
      } else {
        var line := PeekLine(buf, crlf);
        if phase == ExpectRequestLine {
          ok := ProcessRequestLine(line);
          if ok {
            request.receiveTime := now;
            buf.Retrieve(crlf + 2);
            phase := ExpectRequestHead;
          } else {
            hasMore := false;
          }
        } else {
          hasMore := ParseHeadLine(line);
          buf.Retrieve(crlf + 2);
        }
      }
    }

    method ParseRequest(buf: Buffer, now: int) returns (ok: bool)
      requires buf.Valid() && Parsing(View())
      modifies this`phase, request, buf`readIndex
      ensures buf.Valid()
      ensures Parsed(ok, View(), buf.Contents()) == Parse(old(View()), old(buf.Contents()), now)
    {
      ok := true;
      var hasMore := true;
      ghost var goal := Parse(View(), buf.Contents(), now);
      while hasMore
        invariant buf.Valid()
        invariant if hasMore then ok && Parsing(View()) && Parse(View(), buf.Contents(), now) == goal
                  else Parsed(ok, View(), buf.Contents()) == goal
        decreases hasMore, |buf.Contents()|
      {
        ok, hasMore := ParseLine(buf, now);
      }
    }
  }
}
