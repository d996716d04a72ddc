/** http/httpRequest.cpp: the request a parser fills in. Characters are bytes; times are integers. */
module HttpRequests {
  import opened Text

  datatype Method = Invalid | Get | Post | Head | Put | Delete

  datatype Version = UnknownVersion | Http10 | Http11

  datatype Request = Request(
    method_: Method, version: Version, path: string, query: string, receiveTime: int, headers: map<string, string>)

  const EMPTY_REQUEST := Request(Invalid, UnknownVersion, "", "", 0, map[])

  function MethodOf(s: string): Method {
    if s == "GET" then Get
    else if s == "POST" then Post
    else if s == "HEAD" then Head
    else if s == "PUT" then Put
    else if s == "DELETE" then Delete
    else Invalid
  }

  function MethodToString(m: Method): string {
    match m
    case Get => "GET"
    case Post => "POST"
    case Head => "HEAD"
    case Put => "PUT"
    case Delete => "DELETE"
    case Invalid => "unknow"
  }

  /** The two method tables are inverse, and no other spelling is a method. */
  lemma MethodTable(m: Method, s: string)
    ensures MethodOf(MethodToString(m)) == m
    ensures MethodOf(s) != Invalid ==> MethodToString(MethodOf(s)) == s
    ensures ' ' !in MethodToString(m) && '\n' !in MethodToString(m)
  {
  }

  /** addHeader on a line whose first colon is at `colon`: the field verbatim, the value trimmed. */
  function WithHeader(r: Request, line: string, colon: nat): Request
    requires colon < |line|
  {
    r.(headers := r.headers[line[..colon] := Trim(line[colon + 1..])])
  }

  class HttpRequest {
    var method_: Method
    var version: Version
    var path: string
    var query: string
    var receiveTime: int
    var headers: map<string, string>

    ghost function View(): Request
      reads this
    {
      Request(method_, version, path, query, receiveTime, headers)
    }

    constructor ()
      ensures View() == EMPTY_REQUEST
    {
      method_, version, path, query, receiveTime, headers := Invalid, UnknownVersion, "", "", 0, map[];
    }

    method SetMethod(m: string) returns (ok: bool)
      modifies this`method_
      ensures View() == old(View()).(method_ := MethodOf(m))
      ensures ok <==> exists k :: k != Invalid && m == MethodToString(k)
    {
      MethodTable(Invalid, m);
      if m == "GET" { method_ := Get; }
      else if m == "POST" { method_ := Post; }
      else if m == "HEAD" { method_ := Head; }
      else if m == "PUT" { method_ := Put; }
      else if m == "DELETE" { method_ := Delete; }
      else { method_ := Invalid; }
      ok := method_ != Invalid;
      assert ok ==> m == MethodToString(method_);
      forall k | k != Invalid && m == MethodToString(k) ensures ok { MethodTable(k, m); }
    }

    method AddHeader(line: string, colon: nat)
      requires colon < |line|
      modifies this`headers
      ensures View() == WithHeader(old(View()), line, colon)
    {
      var field := line[..colon];
      var from := colon + 1;
      while from < |line| && IsSpace(line[from])
        invariant colon + 1 <= from <= |line|
        invariant TrimLeft(line[from..]) == TrimLeft(line[colon + 1..])
      {
        assert line[from..][1..] == line[from + 1..];
        from := from + 1;
      }
      var value := line[from..];
      while value != "" && IsSpace(value[|value| - 1])
        invariant TrimRight(value) == TrimRight(line[from..])
        decreases |value|
      {
        value := value[..|value| - 1];
      }
      assert value == Trim(line[colon + 1..]);
      headers := headers[field := value];
    }

    method GetHeader(field: string) returns (value: string)
      ensures field in headers ==> value == headers[field]
      ensures field !in headers ==> value == ""
    {
      value := "";
      if field in headers {
        value := headers[field];
      }
    }

    method Swap(that: HttpRequest)
      modifies this, that
      ensures View() == old(that.View()) && that.View() == old(View())
    {
      method_, that.method_ := that.method_, method_;
      version, that.version := that.version, version;
      path, that.path := that.path, path;
      query, that.query := that.query, query;
      receiveTime, that.receiveTime := that.receiveTime, receiveTime;
      headers, that.headers := that.headers, headers;
    }
  }
}
