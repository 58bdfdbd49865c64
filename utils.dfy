/** Request inspection helpers of the gateway (package utils): the client-key
    extraction used for rate limiting and the gateway's own health probe test.
    Strings are sequences of Unicode code points. */
module Utils {
  import opened Options

  const HealthPath := "/health"
  const MethodGet := "GET"
  const MethodPost := "POST"
  const MethodDelete := "DELETE"
  const MethodPatch := "PATCH"

  const ForwardedForHeader := "X-Forwarded-For"
  const RealIpHeader := "X-Real-Ip"

  /** Request headers, keyed by their canonical name, each with its first value. */
  type Header = map<string, string>

  /** Header lookup: the value, or the empty string when the header is absent. */
  function HeaderValue(h: Header, name: string): (v: string)
    ensures name !in h ==> v == ""
    ensures name in h ==> v == h[name]
  {
    if name in h then h[name] else ""
  }

  /** The gateway's own liveness probe: a GET of the health path. */
  predicate IsHealthCheckRequest(path: string, verb: string): (r: bool)
    ensures r <==> path == "/health" && verb == "GET"
  {
    path == HealthPath && verb == MethodGet
  }

  // ---------------------------------------------------------------------
  // Splitting and trimming

  /** The first field of a comma-separated list: the text before the first comma,
      or all of it when there is none (the first element of a split on ","). */
  function FirstField(s: string): (r: string)
    ensures |r| <= |s| && r == s[..|r|]
    ensures ',' !in r
    ensures |r| < |s| ==> s[|r|] == ','
  {
    if s == [] then []
    else if s[0] == ',' then []
    else [s[0]] + FirstField(s[1..])
  }

  /** White space as Unicode's White_Space property defines it. */
  predicate IsSpace(c: char)
  {
    var n := c as int;
    (0x09 <= n <= 0x0D) || n == 0x20 || n == 0x85 || n == 0xA0 || n == 0x1680
    || (0x2000 <= n <= 0x200A) || n == 0x2028 || n == 0x2029 || n == 0x202F
    || n == 0x205F || n == 0x3000
  }

  /** The number of white-space characters at the start of s. */
  function LeadingSpace(s: string): (n: nat)
    ensures n <= |s|
    ensures forall i :: 0 <= i < n ==> IsSpace(s[i])
    ensures n == |s| || !IsSpace(s[n])
  {
    if s != [] && IsSpace(s[0]) then
      var m := LeadingSpace(s[1..]);
      assert forall i :: 1 <= i < m + 1 ==> s[i] == s[1..][i - 1];
      1 + m
    else 0
  }

  /** The number of white-space characters at the end of s. */
  function TrailingSpace(s: string): (n: nat)
    ensures n <= |s|
    ensures forall i :: |s| - n <= i < |s| ==> IsSpace(s[i])
    ensures n == |s| || !IsSpace(s[|s| - n - 1])
  {
    if s != [] && IsSpace(s[|s| - 1]) then
      var m := TrailingSpace(s[..|s| - 1]);
      assert forall i :: |s| - 1 - m <= i < |s| - 1 ==> s[i] == s[..|s| - 1][i];
      1 + m
    else 0
  }

  /** Drops leading and trailing white space (Go's strings.TrimSpace): what is left
      starts after the leading white space and stops before the trailing white
      space of the rest. */
  function TrimSpace(s: string): (r: string)
    ensures r == [] || (!IsSpace(r[0]) && !IsSpace(r[|r| - 1]))
    ensures (s == [] || (!IsSpace(s[0]) && !IsSpace(s[|s| - 1]))) ==> r == s
  {
    var l := LeadingSpace(s);
    var rest := s[l..];
    var t := TrailingSpace(rest);
    assert t < |rest| ==> rest[|rest| - t - 1] == s[|s| - t - 1];
    s[l..|s| - t]
  }

  /** Trimming twice is trimming once. */
  lemma TrimSpaceIdempotent(s: string)
    ensures TrimSpace(TrimSpace(s)) == TrimSpace(s)
  {
  }

  /** What the trim keeps is a contiguous part of the input, and every character it
      removes from either end is white space. */
  lemma {:induction false} TrimSpaceRemovesOnlySpace(s: string)
    ensures var l := LeadingSpace(s);
            l + |TrimSpace(s)| <= |s|
            && TrimSpace(s) == s[l..l + |TrimSpace(s)|]
            && (forall i :: 0 <= i < l ==> IsSpace(s[i]))
            && (forall i :: l + |TrimSpace(s)| <= i < |s| ==> IsSpace(s[i]))
  {
    var l := LeadingSpace(s);
    var rest := s[l..];
    var t := TrailingSpace(rest);
    forall i | |s| - t <= i < |s| ensures IsSpace(s[i]) {
      assert s[i] == rest[i - l];
    }
  }

  // ---------------------------------------------------------------------
  // Host and port

  /** Index of the first occurrence of c, or -1. */
  function IndexOf(s: string, c: char): (i: int)
    ensures -1 <= i < |s|
    ensures i >= 0 ==> s[i] == c
    ensures forall j :: 0 <= j < |s| && (i < 0 || j < i) ==> s[j] != c
  {
    if s == [] then -1
    else if s[0] == c then 0
    else var j := IndexOf(s[1..], c); if j == -1 then -1 else j + 1
  }

  /** Index of the last occurrence of c, or -1. */
  function LastIndexOf(s: string, c: char): (i: int)
    ensures -1 <= i < |s|
    ensures i >= 0 ==> s[i] == c
    ensures forall j :: i < j < |s| ==> s[j] != c
  {
    if s == [] then -1
    else if s[|s| - 1] == c then |s| - 1
    else LastIndexOf(s[..|s| - 1], c)
  }

  datatype HostPort = HostPort(host: string, port: string)

  /** Splits "host:port", "[host]:port" or "[host%zone]:port" into host and port,
      following the rules of Go's net.SplitHostPort; None for a malformed address
      (no port, too many colons, a misplaced bracket). The port starts after the
      last colon. */
  function SplitHostPort(hostport: string): (r: Option<HostPort>)
    ensures r.Some? ==>
              || hostport == r.value.host + ":" + r.value.port
              || hostport == "[" + r.value.host + "]:" + r.value.port
    ensures r.Some? ==> ':' !in r.value.port && '[' !in r.value.port && ']' !in r.value.port
    ensures ':' !in hostport ==> r.None?
  {
    var i := LastIndexOf(hostport, ':');
    if i < 0 then None
    else if hostport[0] == '[' then SplitBracketedHost(hostport, i)
    else SplitPlainHost(hostport, i)
  }

  /** The "[host]:port" form: the first ']' must stand just before the last colon. */
  function SplitBracketedHost(hostport: string, i: nat): (r: Option<HostPort>)
    requires i < |hostport| && hostport[i] == ':'
    requires forall j :: i < j < |hostport| ==> hostport[j] != ':'
    requires hostport[0] == '['
    ensures r.Some? ==> hostport == "[" + r.value.host + "]:" + r.value.port
    ensures r.Some? ==> r.value.port == hostport[i + 1..]
  {
    var end := IndexOf(hostport, ']');
    if end < 0 || end + 1 != i then None
    else if '[' in hostport[1..] || ']' in hostport[end + 1..] then None
    else
      assert hostport == [hostport[0]] + hostport[1..end] + [hostport[end]] + [hostport[i]] + hostport[i + 1..];
      Some(HostPort(hostport[1..end], hostport[i + 1..]))
  }

  /** The "host:port" form: the host may hold no colon. */
  function SplitPlainHost(hostport: string, i: nat): (r: Option<HostPort>)
    requires i < |hostport| && hostport[i] == ':'
    requires forall j :: i < j < |hostport| ==> hostport[j] != ':'
    ensures r.Some? ==> hostport == r.value.host + ":" + r.value.port
    ensures r.Some? ==> r.value.port == hostport[i + 1..]
  {
    var host := hostport[..i];
    if ':' in host || '[' in hostport || ']' in hostport then None
    else
      assert hostport == host + [hostport[i]] + hostport[i + 1..];
      Some(HostPort(host, hostport[i + 1..]))
  }

  /** The inverse of SplitHostPort (Go's net.JoinHostPort): a host holding a colon
      is put in brackets. */
  function JoinHostPort(host: string, port: string): (s: string)
  {
    if ':' in host then "[" + host + "]:" + port else host + ":" + port
  }

  /** Splitting a joined address gives back its host and port, for any host and
      port that hold no bracket and a port that holds no colon. */
  lemma {:induction false} SplitJoinRoundTrip(host: string, port: string)
    requires '[' !in host && ']' !in host
    requires ':' !in port && '[' !in port && ']' !in port
    ensures SplitHostPort(JoinHostPort(host, port)) == Some(HostPort(host, port))
  {
    if ':' in host {
      SplitBracketed(host, port);
    } else {
      SplitPlain(host, port);
    }
  }

  lemma {:induction false} SplitPlain(host: string, port: string)
    requires ':' !in host && '[' !in host && ']' !in host
    requires ':' !in port && '[' !in port && ']' !in port
    ensures SplitHostPort(host + ":" + port) == Some(HostPort(host, port))
  {
    var s := host + ":" + port;
    LastColon(host, port);
    assert s[..|host|] == host && s[|host| + 1..] == port;
  }

  lemma {:induction false} SplitBracketed(host: string, port: string)
    requires '[' !in host && ']' !in host
    requires ':' !in port && '[' !in port && ']' !in port
    ensures SplitHostPort("[" + host + "]:" + port) == Some(HostPort(host, port))
  {
    var s := "[" + host + "]:" + port;
    BracketedIndexes(host, port);
    BracketedSlices(host, port);
    assert SplitBracketedHost(s, |host| + 2) == Some(HostPort(host, port));
  }

  lemma {:induction false} BracketedIndexes(host: string, port: string)
    requires ']' !in host && ':' !in port
    ensures LastIndexOf("[" + host + "]:" + port, ':') == |host| + 2
    ensures IndexOf("[" + host + "]:" + port, ']') == |host| + 1
  {
    BracketedRegroup(host, port);
    LastColon("[" + host + "]", port);
    FirstClose(host, ":" + port);
  }

  lemma {:induction false} BracketedRegroup(host: string, port: string)
    ensures "[" + host + "]:" + port == "[" + host + "]" + ":" + port
    ensures "[" + host + "]:" + port == "[" + host + "]" + (":" + port)
  {
    assert "]:" == "]" + ":";
  }

  /** The colon after a prefix is the last one when the port holds none. */
  lemma {:induction false} LastColon(pre: string, port: string)
    requires ':' !in port
    ensures LastIndexOf(pre + ":" + port, ':') == |pre|
  {
    ColonAfter(pre, port);
    LastIndexOfUnique(pre + ":" + port, ':', |pre|);
  }

  lemma {:induction false} ColonAfter(pre: string, port: string)
    requires ':' !in port
    ensures var s := pre + ":" + port;
            |pre| < |s| && s[|pre|] == ':' && forall j :: |pre| < j < |s| ==> s[j] != ':'
  {
    var front := pre + ":";
    var s := front + port;
    forall j | |front| <= j < |s| ensures s[j] != ':' {
      assert s[j] == port[j - |front|];
    }
  }

  /** The bracket closing a host without brackets is the first one. */
  lemma {:induction false} FirstClose(host: string, rest: string)
    requires ']' !in host
    ensures IndexOf("[" + host + "]" + rest, ']') == |host| + 1
  {
    CloseAfter(host, rest);
    IndexOfUnique("[" + host + "]" + rest, ']', |host| + 1);
  }

  lemma {:induction false} CloseAfter(host: string, rest: string)
    requires ']' !in host
    ensures var s := "[" + host + "]" + rest;
            |host| + 1 < |s| && s[|host| + 1] == ']' && forall j :: 0 <= j < |host| + 1 ==> s[j] != ']'
  {
    var front := "[" + host;
    var s := front + "]" + rest;
    forall j | 0 <= j < |front| ensures s[j] != ']' {
      assert s[j] == front[j];
      if j > 0 { assert front[j] == host[j - 1]; }
    }
  }

  lemma {:induction false} BracketedSlices(host: string, port: string)
    requires '[' !in host && ']' !in host && '[' !in port && ']' !in port
    ensures var s := "[" + host + "]:" + port;
            && s[0] == '[' && s[1..|host| + 1] == host && s[|host| + 3..] == port
            && '[' !in s[1..] && ']' !in s[|host| + 2..]
  {
    var s := "[" + host + "]:" + port;
    assert s[1..] == host + "]:" + port;
    assert s[|host| + 2..] == ":" + port;
  }

  lemma LastIndexOfUnique(s: string, c: char, i: nat)
    requires i < |s| && s[i] == c
    requires forall j :: i < j < |s| ==> s[j] != c
    ensures LastIndexOf(s, c) == i
  {
  }

  lemma IndexOfUnique(s: string, c: char, i: nat)
    requires i < |s| && s[i] == c
    requires forall j :: 0 <= j < i ==> s[j] != c
    ensures IndexOf(s, c) == i
  {
  }

  // ---------------------------------------------------------------------
  // Client key

  /** The key a request is rate limited under: the first X-Forwarded-For entry,
      trimmed; else X-Real-Ip as it is; else the host part of the peer address,
      or the whole peer address when it does not split. */
  function GetClientIP(header: Header, remoteAddr: string): (ip: string)
    ensures HeaderValue(header, ForwardedForHeader) != "" ==>
              && ',' !in ip
              && (ip == [] || (!IsSpace(ip[0]) && !IsSpace(ip[|ip| - 1])))
              && ip == TrimSpace(FirstField(header[ForwardedForHeader]))
    ensures HeaderValue(header, ForwardedForHeader) == "" && HeaderValue(header, RealIpHeader) != "" ==>
              ip == header[RealIpHeader]
    ensures HeaderValue(header, ForwardedForHeader) == "" && HeaderValue(header, RealIpHeader) == "" ==>
              ip == (match SplitHostPort(remoteAddr)
                     case Some(hp) => hp.host
                     case None => remoteAddr)
  {
    var xff := HeaderValue(header, ForwardedForHeader);
    if xff != "" then
      TrimSpace(FirstField(xff))
    else
      var xri := HeaderValue(header, RealIpHeader);
      if xri != "" then xri
      else
        match SplitHostPort(remoteAddr)
        case Some(hp) => hp.host
        case None => remoteAddr
  }
}
