/** String scanning and printing shared by the buffer, the HTTP code and the server's connection names. */
module Text {

  const CRLF: string := "\r\n"

  // ---------------------------------------------------------------- searching

  /** std::find over a character range, as an offset; the length when absent. */
  function Find(s: string, c: char): (r: nat)
    ensures r <= |s|
    ensures forall k :: 0 <= k < r ==> s[k] != c
    ensures r < |s| ==> s[r] == c
  {
    if s == "" || s[0] == c then 0 else 1 + Find(s[1..], c)
  }

  /** Find is determined by its contract: the first occurrence is unique. */
  lemma FindIs(s: string, c: char, r: nat)
    requires r <= |s|
    requires forall k :: 0 <= k < r ==> s[k] != c
    requires r < |s| ==> s[r] == c
    ensures Find(s, c) == r
  {
    if s != "" && s[0] != c {
      FindIs(s[1..], c, r - 1);
    }
  }

  /** Searching for a separator splits exactly where it was put. */
  lemma FindSplit(a: string, c: char, b: string)
    requires c !in a
    ensures var s := a + [c] + b; Find(s, c) == |a| && s[..|a|] == a && s[|a| + 1..] == b
  {
    var s := a + [c] + b;
    assert forall k :: 0 <= k < |a| ==> s[k] == a[k] && a[k] in a;
    FindIs(s, c, |a|);
  }

  lemma Cut(s: string, n: nat)
    requires n < |s|
    ensures s == s[..n] + [s[n]] + s[n + 1..]
  {
  }

  /** Conversely a found separator gives back the string. */
  lemma FindJoin(s: string, c: char)
    requires Find(s, c) < |s|
    ensures var n := Find(s, c); s == s[..n] + [c] + s[n + 1..] && c !in s[..n]
  {
    Cut(s, Find(s, c));
  }

  predicate CrlfAt(s: string, i: int)
  {
    0 <= i && i + 1 < |s| && s[i] == '\r' && s[i + 1] == '\n'
  }

  /** Offset of the first CR LF pair, or -1. */
  function FindCrlf(s: string): (r: int)
    ensures r == -1 || CrlfAt(s, r)
    ensures forall k :: CrlfAt(s, k) ==> 0 <= r <= k
  {
    if |s| < 2 then -1
    else if s[0] == '\r' && s[1] == '\n' then 0
    else
      var r := FindCrlf(s[1..]);
      assert forall k :: CrlfAt(s, k) ==> 1 <= k && CrlfAt(s[1..], k - 1);
      if r == -1 then -1 else assert CrlfAt(s[1..], r); r + 1
  }

  lemma FindCrlfIs(s: string, r: int)
    requires r == -1 || CrlfAt(s, r)
    requires forall k :: CrlfAt(s, k) ==> 0 <= r <= k
    ensures FindCrlf(s) == r
  {
  }

  /** More input never moves a line end that was already found. */
  lemma FindCrlfExtend(s: string, t: string)
    requires FindCrlf(s) >= 0
    ensures FindCrlf(s + t) == FindCrlf(s)
  {
    var r := FindCrlf(s);
    assert CrlfAt(s, r);
    assert CrlfAt(s + t, r);
    forall k | CrlfAt(s + t, k) ensures r <= k
    {
      if k < r { assert CrlfAt(s, k); }
    }
    FindCrlfIs(s + t, r);
  }

  lemma FindCrlfAfterLine(line: string, rest: string)
    requires '\n' !in line
    ensures FindCrlf(line + CRLF + rest) == |line|
    ensures (line + CRLF + rest)[..|line|] == line
    ensures (line + CRLF + rest)[|line| + 2..] == rest
  {
    var s := line + CRLF + rest;
    assert CrlfAt(s, |line|);
    assert forall j :: 0 <= j < |line| ==> s[j] == line[j] && line[j] in line;
    assert s[|line|] == '\r';
    FindCrlfIs(s, |line|);
  }

  // ---------------------------------------------------------------- trimming

  /** isspace in the "C" locale. */
  predicate IsSpace(c: char)
  {
    c == ' ' || c == '\t' || c == '\n' || c == '\r' || c == 11 as char || c == 12 as char
  }

  /** The blank and the codes 9 to 13. */
  lemma SpaceCodes(c: char)
    ensures IsSpace(c) <==> c as int == 32 || 9 <= c as int <= 13
  {
  }

  predicate AllSpace(s: string)
  {
    forall k :: 0 <= k < |s| ==> IsSpace(s[k])
  }

  predicate Trimmed(s: string)
  {
    s == "" || (!IsSpace(s[0]) && !IsSpace(s[|s| - 1]))
  }

  function TrimLeft(s: string): string {
    if s == "" || !IsSpace(s[0]) then s else TrimLeft(s[1..])
  }

  function TrimRight(s: string): string {
    if s == "" || !IsSpace(s[|s| - 1]) then s else TrimRight(s[..|s| - 1])
  }

  function Trim(s: string): string
  {
    TrimRight(TrimLeft(s))
  }

  lemma TrimLeftOf(lead: string, s: string)
    requires AllSpace(lead)
    requires s == "" || !IsSpace(s[0])
    ensures TrimLeft(lead + s) == s
  {
    if lead == "" {
      assert lead + s == s;
    } else {
      assert (lead + s)[1..] == lead[1..] + s;
      TrimLeftOf(lead[1..], s);
    }
  }

  lemma TrimRightOf(s: string, trail: string)
    requires AllSpace(trail)
    requires s == "" || !IsSpace(s[|s| - 1])
    ensures TrimRight(s + trail) == s
  {
    if trail == "" {
      assert s + trail == s;
    } else {
      assert (s + trail)[..|s + trail| - 1] == s + trail[..|trail| - 1];
      TrimRightOf(s, trail[..|trail| - 1]);
    }
  }

  /** Trimming recovers a trimmed value from any padding, and nothing else. */
  lemma TrimPadded(lead: string, v: string, trail: string)
    requires AllSpace(lead) && AllSpace(trail) && Trimmed(v)
    ensures Trim(lead + v + trail) == v
  {
    if v == "" {
      assert lead + v + trail == (lead + trail) + "";
      TrimLeftOf(lead + trail, "");
    } else {
      assert lead + v + trail == lead + (v + trail);
      assert (v + trail)[0] == v[0];
      TrimLeftOf(lead, v + trail);
      TrimRightOf(v, trail);
    }
  }

  lemma Reassociate(a: string, b: string, c: string, d: string, e: string)
    ensures a + b + c + d + e == a + b + (c + d) + e == a + b + (c + d + e)
  {
  }

  lemma Associate<T>(a: seq<T>, b: seq<T>, c: seq<T>)
    ensures a + b + c == a + (b + c)
  {
  }

  // ---------------------------------------------------------------- numbers

  function Digit(d: nat): char
    requires d < 10
  {
    '0' + d as char
  }

  /** printf's %d / %zd of a non-negative number. */
  function Dec(n: nat): (s: string)
    ensures |s| >= 1
  {
    if n < 10 then [Digit(n)] else Dec(n / 10) + [Digit(n % 10)]
  }

  function Value(s: string): int
  {
    if s == "" then 0 else Value(s[..|s| - 1]) * 10 + (s[|s| - 1] as int - '0' as int)
  }

  lemma {:induction false} DecValue(n: nat)
    ensures Value(Dec(n)) == n
    ensures forall c :: c in Dec(n) ==> '0' <= c <= '9'
  {
    var s := Dec(n);
    if n < 10 {
      assert s[..0] == "";
    } else {
      DecValue(n / 10);
      assert s[..|s| - 1] == Dec(n / 10);
    }
  }

  function Pow10(k: nat): (p: nat)
    ensures p >= 1
  {
    if k == 0 then 1 else 10 * Pow10(k - 1)
  }

  lemma {:induction false} DecLength(n: nat, k: nat)
    requires k >= 1
    ensures n < Pow10(k) <==> |Dec(n)| <= k
  {
    if n >= 10 {
      if k == 1 {
        assert Pow10(1) == 10 * Pow10(0) == 10;
      } else {
        DecLength(n / 10, k - 1);
      }
    } else {
      assert Pow10(k) == 10 * Pow10(k - 1);
    }
  }

  /** snprintf into an array of the given size keeps one byte for the terminator. */
  function Snprintf(s: string, size: nat): (r: string)
    requires size >= 1
    ensures r <= s && |r| < size && (|r| == size - 1 || r == s)
  {
    if |s| < size then s else s[..size - 1]
  }
}
