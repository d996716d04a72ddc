/** http/httpResponse.cpp: the response printer. */
module HttpResponses {
  import opened Text
  import opened Buffers
  import opened HttpRequests
  import opened HttpContexts

  const PRINT_SIZE: nat := 32

  // ---------------------------------------------------------------- the ordered header map

  type Pair = (string, string)

  /** operator< on std::string, the order in which std::map iterates. */
  predicate Less(a: string, b: string) {
    b != "" && (a == "" || a[0] < b[0] || (a[0] == b[0] && Less(a[1..], b[1..])))
  }

  lemma LessOrder(a: string, b: string, c: string)
    ensures !Less(a, a)
    ensures Less(a, b) && Less(b, c) ==> Less(a, c)
    ensures a == b || Less(a, b) || Less(b, a)
  {
    if a != "" && b != "" {
      LessOrder(a[1..], b[1..], if c == "" then "" else c[1..]);
      assert a == [a[0]] + a[1..] && b == [b[0]] + b[1..];
    } else if a != "" {
      LessOrder(a[1..], "", "");
    }
  }

  predicate Sorted(fs: seq<Pair>) {
    |fs| <= 1 || (Less(fs[0].0, fs[1].0) && Sorted(fs[1..]))
  }

  /** headers_[key] = value. */
  function PutPair(fs: seq<Pair>, key: string, value: string): seq<Pair> {
    if fs == [] || Less(key, fs[0].0) then [(key, value)] + fs
    else if key == fs[0].0 then [(key, value)] + fs[1..]
    else [fs[0]] + PutPair(fs[1..], key, value)
  }

  function AsMap(fs: seq<Pair>): map<string, string> {
    if fs == [] then map[] else AsMap(fs[1..])[fs[0].0 := fs[0].1]
  }

  lemma {:induction false} SortedAbove(fs: seq<Pair>, low: string)
    requires Sorted(fs) && (fs == [] || Less(low, fs[0].0))
    ensures forall k :: k in AsMap(fs) ==> Less(low, k)
  {
    if fs != [] {
      SortedAbove(fs[1..], fs[0].0);
      forall k | k in AsMap(fs[1..]) ensures Less(low, k) { LessOrder(low, fs[0].0, k); }
    }
  }

  /** The sorted list behaves as the map it stands for, and stays sorted. */
  lemma {:induction false} PutIsUpdate(fs: seq<Pair>, key: string, value: string)
    requires Sorted(fs)
    ensures var r := PutPair(fs, key, value);
            Sorted(r) && AsMap(r) == AsMap(fs)[key := value] &&
            r != [] && (r[0].0 == key || (fs != [] && r[0] == fs[0]))
  {
    if fs == [] || Less(key, fs[0].0) {
      assert ([(key, value)] + fs)[1..] == fs;
    } else if key == fs[0].0 {
      assert ([(key, value)] + fs[1..])[1..] == fs[1..];
    } else {
      PutIsUpdate(fs[1..], key, value);
      LessOrder(key, fs[0].0, key);
      assert ([fs[0]] + PutPair(fs[1..], key, value))[1..] == PutPair(fs[1..], key, value);
    }
  }

  // ---------------------------------------------------------------- printing

  datatype Response = Response(status: nat, message: string, close: bool, fields: seq<Pair>, body: string)

  function PrintPairs(fs: seq<Pair>): string {
    if fs == [] then "" else PairLine(fs[0]) + CRLF + PrintPairs(fs[1..])
  }

  function PairLine(p: Pair): string {
    p.0 + ": " + p.1
  }

  function StatusLine(r: Response): string {
    Snprintf("HTTP/1.1 " + Dec(r.status) + " ", PRINT_SIZE) + r.message
  }

  function LengthLine(n: nat): string {
    Snprintf("Content-Length: " + Dec(n) + CRLF, PRINT_SIZE)
  }

  function ConnectionLines(r: Response): string {
    if r.close then "Connection: close\r\n" else LengthLine(|r.body|) + "Connection: Keep-Alive\r\n"
  }

  function HeaderBlock(r: Response): string {
    ConnectionLines(r) + PrintPairs(r.fields)
  }

  function Print(r: Response): string {
    StatusLine(r) + CRLF + HeaderBlock(r) + CRLF + r.body
  }

  /** The 32-byte scratch array holds the Content-Length line of every body below 10^13 bytes, and of no other. */
  lemma LengthLineIntact(n: nat)
    ensures LengthLine(n) == "Content-Length: " + Dec(n) + CRLF <==> n < Pow10(13)
  {
    DecLength(n, 13);
  }

  /** And the start of the status line of every code below 10^21. */
  lemma StatusIntact(status: nat)
    ensures Snprintf("HTTP/1.1 " + Dec(status) + " ", PRINT_SIZE) == "HTTP/1.1 " + Dec(status) + " " <==> status < Pow10(21)
  {
    DecLength(status, 21);
  }

  // ---------------------------------------------------------------- reading it back

  /** A status line (section 3.1.2 of RFC 7230): version, code and reason. */
  datatype Status = Status(version: string, code: int, reason: string)

  function ReadStatusLine(line: string): Status {
    var a := Find(line, ' ');
    var rest := if a < |line| then line[a + 1..] else "";
    var b := Find(rest, ' ');
    Status(line[..a], Value(rest[..b]), if b < |rest| then rest[b + 1..] else "")
  }

  /** The status line gives back the version, the code and the message. */
  lemma StatusRoundTrip(r: Response)
    requires r.status < Pow10(21)
    ensures ReadStatusLine(StatusLine(r)) == Status("HTTP/1.1", r.status, r.message)
  {
    StatusText(r);
    DigitsOnly(r.status);
    StatusSplits("HTTP/1.1", Dec(r.status), r.message);
  }

  lemma StatusText(r: Response)
    requires r.status < Pow10(21)
    ensures StatusLine(r) == "HTTP/1.1" + [' '] + (Dec(r.status) + [' '] + r.message)
  {
    StatusIntact(r.status);
    StatusParts(Dec(r.status), r.message);
  }

  lemma DigitsOnly(n: nat)
    ensures ' ' !in Dec(n) && '\n' !in Dec(n) && Value(Dec(n)) == n
  {
    DecValue(n);
  }

  lemma StatusOneLine(r: Response)
    requires r.status < Pow10(21) && '\n' !in r.message
    ensures '\n' !in StatusLine(r)
  {
    StatusText(r);
    DigitsOnly(r.status);
  }

  lemma StatusParts(code: string, reason: string)
    ensures "HTTP/1.1 " + code + " " + reason == "HTTP/1.1" + [' '] + (code + [' '] + reason)
  {
    assert "HTTP/1.1 " == "HTTP/1.1" + [' '];
  }

  lemma StatusSplits(version: string, code: string, reason: string)
    requires ' ' !in version && ' ' !in code
    ensures ReadStatusLine(version + [' '] + (code + [' '] + reason)) == Status(version, Value(code), reason)
  {
    FindSplit(version, ' ', code + [' '] + reason);
    FindSplit(code, ' ', reason);
  }

  /** A printed response starts with its status line, and goes on with the header block. */
  lemma StatusLineFirst(r: Response)
    requires r.status < Pow10(21) && '\n' !in r.message
    ensures var crlf := FindCrlf(Print(r));
            && crlf >= 0
            && ReadStatusLine(Print(r)[..crlf]) == Status("HTTP/1.1", r.status, r.message)
            && Print(r)[crlf + 2..] == HeaderBlock(r) + CRLF + r.body
  {
    StatusRoundTrip(r);
    StatusOneLine(r);
    Reassociate(StatusLine(r), CRLF, HeaderBlock(r), CRLF, r.body);
    FindCrlfAfterLine(StatusLine(r), HeaderBlock(r) + CRLF + r.body);
  }

  function PairField(p: Pair): Field {
    Field(p.0, " ", p.1, "")
  }

  function PairFields(fs: seq<Pair>): seq<Field> {
    if fs == [] then [] else [PairField(fs[0])] + PairFields(fs[1..])
  }

  function ConnectionPairs(r: Response): seq<Pair> {
    if r.close then [("Connection", "close")]
    else [("Content-Length", Dec(|r.body|)), ("Connection", "Keep-Alive")]
  }

  predicate PrintablePair(p: Pair) {
    ':' !in p.0 && '\n' !in p.0 && Trimmed(p.1) && '\n' !in p.1
  }

  lemma PairIsField(p: Pair)
    ensures FieldLine(PairField(p)) == PairLine(p)
    ensures PrintablePair(p) ==> WellFormedField(PairField(p))
  {
  }

  lemma PairsAreFields(fs: seq<Pair>)
    ensures PrintFields(PairFields(fs)) == PrintPairs(fs)
    ensures (forall p :: p in fs ==> PrintablePair(p)) ==> forall f :: f in PairFields(fs) ==> WellFormedField(f)
  {
    if fs != [] {
      PairsAreFields(fs[1..]);
      PairIsField(fs[0]);
      assert PairFields(fs)[1..] == PairFields(fs[1..]);
    }
  }

  /** Folding header lines into a map, when the keys are distinct, is map union. */
  lemma {:induction false} HeaderMapIsUnion(m: map<string, string>, fs: seq<Pair>)
    requires Sorted(fs)
    ensures HeaderMap(m, PairFields(fs)) == m + AsMap(fs)
    decreases |fs|
  {
    if fs != [] {
      assert PairFields(fs)[1..] == PairFields(fs[1..]);
      HeaderMapIsUnion(m[fs[0].0 := fs[0].1], fs[1..]);
      SortedHeadFresh(fs);
    }
  }

  lemma SortedHeadFresh(fs: seq<Pair>)
    requires Sorted(fs) && fs != []
    ensures fs[0].0 !in AsMap(fs[1..])
  {
    SortedAbove(fs[1..], fs[0].0);
    LessOrder(fs[0].0, "", "");
  }

  lemma ConnectionText()
    ensures PairLine(("Connection", "close")) + CRLF == "Connection: close\r\n"
    ensures PairLine(("Connection", "Keep-Alive")) + CRLF == "Connection: Keep-Alive\r\n"
    ensures PrintablePair(("Connection", "close")) && PrintablePair(("Connection", "Keep-Alive"))
  {
  }

  lemma LengthText(n: nat)
    requires n < Pow10(13)
    ensures PairLine(("Content-Length", Dec(n))) + CRLF == LengthLine(n)
    ensures PrintablePair(("Content-Length", Dec(n)))
  {
    LengthLineIntact(n);
    DecValue(n);
    var d := Dec(n);
    assert d[0] in d && d[|d| - 1] in d;
  }

  lemma ConnectionLinesAreFields(r: Response, more: seq<Pair>)
    requires |r.body| < Pow10(13)
    ensures PrintPairs(ConnectionPairs(r) + more) == ConnectionLines(r) + PrintPairs(more)
    ensures forall p :: p in ConnectionPairs(r) ==> PrintablePair(p)
    ensures HeaderMap(map[], PairFields(ConnectionPairs(r) + more)) == HeaderMap(ConnectionMap(r), PairFields(more))
  {
    ConnectionText();
    LengthText(|r.body|);
    if r.close {
      OneMorePair(("Connection", "close"), more, map[]);
    } else {
      var length, alive := ("Content-Length", Dec(|r.body|)), ("Connection", "Keep-Alive");
      OneMorePair(alive, more, map["Content-Length" := Dec(|r.body|)]);
      OneMorePair(length, [alive] + more, map[]);
      assert ConnectionPairs(r) + more == [length] + ([alive] + more);
      Gather(LengthLine(|r.body|), "Connection: Keep-Alive\r\n", PrintPairs(more), "", "", "");
    }
  }

  lemma OneMorePair(p: Pair, more: seq<Pair>, m: map<string, string>)
    ensures PrintPairs([p] + more) == PairLine(p) + CRLF + PrintPairs(more)
    ensures HeaderMap(m, PairFields([p] + more)) == HeaderMap(m[p.0 := p.1], PairFields(more))
  {
    assert ([p] + more)[1..] == more;
    assert PairFields([p] + more)[1..] == PairFields(more);
  }

  function ConnectionMap(r: Response): map<string, string> {
    if r.close then map["Connection" := "close"]
    else map["Content-Length" := Dec(|r.body|), "Connection" := "Keep-Alive"]
  }

  /** The header block of a printed response, read by the request parser, gives the connection headers
      overridden by the response's own, and leaves exactly the body; unless the application sets
      Content-Length itself, a kept-alive response announces the length of what is left. */
  lemma ResponseRoundTrip(r: Response, now: int)
    requires Sorted(r.fields) && |r.body| < Pow10(13)
    requires forall p :: p in r.fields ==> PrintablePair(p)
    ensures var p := Parse(Context(ExpectRequestHead, EMPTY_REQUEST), HeaderBlock(r) + CRLF + r.body, now);
            && p == Parsed(true, Context(GotAll, EMPTY_REQUEST.(headers := ConnectionMap(r) + AsMap(r.fields))), r.body)
            && (!r.close && "Content-Length" !in AsMap(r.fields) ==>
                  "Content-Length" in p.context.request.headers &&
                  Value(p.context.request.headers["Content-Length"]) == |p.rest|)
  {
    var ps := ConnectionPairs(r) + r.fields;
    ConnectionLinesAreFields(r, r.fields);
    PairsAreFields(ps);
    HeadersRoundTrip(EMPTY_REQUEST, PairFields(ps), r.body, now);
    HeaderMapIsUnion(ConnectionMap(r), r.fields);
    DecValue(|r.body|);
  }

  // ---------------------------------------------------------------- the class

  class HttpResponse {
    var status: nat
    var message: string
    var close: bool
    var fields: seq<Pair>
    var body: string

    ghost function View(): Response
      reads this
    {
      Response(status, message, close, fields, body)
    }

    constructor (close: bool)
      ensures View() == Response(0, "", close, [], "")
    {
      status, message, this.close, fields, body := 0, "", close, [], "";
    }

    method AddHeader(key: string, value: string)
      requires Sorted(fields)
      modifies this`fields
      ensures Sorted(fields) && AsMap(fields) == old(AsMap(fields))[key := value]
    {
      PutIsUpdate(fields, key, value);
      fields := PutPair(fields, key, value);
    }

    method AppendToBuffer(out: Buffer)
      requires out.Valid()
      modifies out, out.data
      ensures out.Valid() && (out.data == old(out.data) || fresh(out.data))
      ensures out.Contents() == old(out.Contents()) + Print(View())
    {
      ghost var before := out.Contents();
      AppendStatusLine(out);
      AppendConnectionLines(out);
      AppendFields(out);
      out.Append("\r\n");
      out.Append(body);
      assert out.Contents() == before + (StatusLine(View()) + CRLF) + ConnectionLines(View()) + PrintPairs(fields) + CRLF + body;
      Gather(before, StatusLine(View()) + CRLF, ConnectionLines(View()), PrintPairs(fields), CRLF, body);
    }

    method AppendStatusLine(out: Buffer)
      requires out.Valid()
      modifies out, out.data
      ensures out.Valid() && (out.data == old(out.data) || fresh(out.data))
      ensures out.Contents() == old(out.Contents()) + (StatusLine(View()) + CRLF)
    {
      ghost var before := out.Contents();
      var start := Snprintf("HTTP/1.1 " + Dec(status) + " ", PRINT_SIZE);
      out.Append(start);
      out.Append(message);
      out.Append("\r\n");
      assert out.Contents() == before + start + message + CRLF;
      Gather(before, start, message, CRLF, "", "");
    }

    /** The close / keep-alive branch of appendTobuffer. */
    method AppendConnectionLines(out: Buffer)
      requires out.Valid()
      modifies out, out.data
      ensures out.Valid() && (out.data == old(out.data) || fresh(out.data))
      ensures out.Contents() == old(out.Contents()) + ConnectionLines(View())
    {
      ghost var before := out.Contents();
      if close {
        out.Append("Connection: close\r\n");
      } else {
        out.Append(LengthLine(|body|));
        out.Append("Connection: Keep-Alive\r\n");
        Gather(before, LengthLine(|body|), "Connection: Keep-Alive\r\n", "", "", "");
      }
    }

    /** The loop over headers_ in appendTobuffer. */
    method AppendFields(out: Buffer)
      requires out.Valid()
      modifies out, out.data
      ensures out.Valid() && (out.data == old(out.data) || fresh(out.data))
      ensures out.Contents() == old(out.Contents()) + PrintPairs(fields)
    {
      ghost var before := out.Contents();
      var i := 0;
      while i < |fields|
        invariant 0 <= i <= |fields|
        invariant out.Valid() && (out.data == old(out.data) || fresh(out.data))
        invariant out.Contents() + PrintPairs(fields[i..]) == before + PrintPairs(fields)
      {
        ghost var c := out.Contents();
        assert fields[i..][1..] == fields[i + 1..];
        Gather(c, PairLine(fields[i]) + CRLF, PrintPairs(fields[i + 1..]), "", "", "");
        AppendField(out, fields[i]);
        i := i + 1;
      }
      assert out.Contents() + "" == out.Contents();
    }

    /** One iteration of that loop. */
    method AppendField(out: Buffer, field: Pair)
      requires out.Valid()
      modifies out, out.data
      ensures out.Valid() && (out.data == old(out.data) || fresh(out.data))
      ensures out.Contents() == old(out.Contents()) + (PairLine(field) + CRLF)
    {
      ghost var before := out.Contents();
      out.Append(field.0);
      out.Append(": ");
      out.Append(field.1);
      out.Append("\r\n");
      assert out.Contents() == before + field.0 + ": " + field.1 + CRLF;
      Gather(before, field.0, ": ", field.1, CRLF, "");
    }
  }

  /** Successive appends add one string. */
  lemma Gather(s: string, a: string, b: string, c: string, d: string, e: string)
    ensures s + a + b == s + (a + b)
    ensures s + a + b + c == s + (a + b + c)
    ensures s + a + b + c + d == s + (a + b + c + d)
    ensures s + a + b + c + d + e == s + (a + (b + c) + d + e)
  {
  }
}
