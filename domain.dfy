/**
 * The proxy record and its parser (`Proxy::from_str`, `ProxyScheme::parse`),
 * with the value objects, the anonymity levels, the test result and the two
 * error enums of the domain layer.
 */
module Domain {
  import opened Wrappers
  import opened Text

  /** The four schemes the parser knows. */
  datatype Scheme = HTTP | HTTPS | SOCKS4 | SOCKS5

  /** `IpAdress` and `Port` are newtypes over strings; the port is kept as text. */
  datatype IpAddress = IpAddress(value: string)
  datatype Port = Port(value: string)

  /** A candidate proxy. `Proxy::new` is the constructor and the getters are
      the field selectors. */
  datatype Proxy = Proxy(ip: IpAddress, port: Port, scheme: Option<Scheme>)

  /** Anonymity levels, most anonymous first. */
  datatype Anonymity = Elite | Anonymous | Transparent

  /** The order used for scoring: a higher rank is more anonymous. */
  function AnonymityRank(a: Anonymity): nat {
    match a
    case Elite => 2
    case Anonymous => 1
    case Transparent => 0
  }

  /** The three ways `Proxy::from_str` rejects its input; each carries text. */
  datatype DomainError = InvalidScheme(text: string) | InvalidIp(text: string) | InvalidPort(text: string)

  /** Per-attempt and final failures of the proxy tester. */
  datatype ProxyTestError = ConnectionFailed | Timeout | InvalidResponse | TestFailed

  /** Rust's `u8`. */
  type U8 = x: int | 0 <= x < 256

  /** The outcome of a successful test of one proxy. */
  datatype TestResult = TestResult(
    ip: IpAddress,
    port: Port,
    scheme: Scheme,
    latencyMs: nat,
    retries: U8,
    anonymity: Anonymity,
    score: U8)

  /** The lower-case name of a scheme, as `ProxyScheme::parse` accepts it. */
  function SchemeName(s: Scheme): string {
    match s
    case HTTP => "http"
    case HTTPS => "https"
    case SOCKS4 => "socks4"
    case SOCKS5 => "socks5"
  }

  /** `ProxyScheme::parse`: the scheme whose name is `s` lower-cased, if any. */
  function ParseScheme(s: string): (r: Option<Scheme>)
    ensures r.Some? ==> SchemeName(r.value) == ToLower(s)
    ensures r.None? ==> forall sc: Scheme :: SchemeName(sc) != ToLower(s)
  {
    match ToLower(s)
    case "http" => Some(HTTP)
    case "https" => Some(HTTPS)
    case "socks4" => Some(SOCKS4)
    case "socks5" => Some(SOCKS5)
    case _ => None
  }

  /** The parser accepts exactly the four names, in any letter case. */
  lemma ParseSchemeExactly(s: string, sc: Scheme)
    ensures ParseScheme(s) == Some(sc) <==> ToLower(s) == SchemeName(sc)
  {
  }

  /** Every scheme name parses back to its scheme. */
  lemma ParseSchemeName(sc: Scheme)
    ensures ParseScheme(SchemeName(sc)) == Some(sc)
  {
    var n := SchemeName(sc);
    assert ToLower(n) == n;
  }

  /** The port text is the canonical decimal of a number in [1, 65534]. */
  predicate ValidPort(port: string) {
    match ParseU16(port)
    case None => false
    case Some(n) => 1 <= n <= 65534 && NatToString(n) == port
  }

  /** What every proxy accepted by the parser satisfies. */
  predicate WellFormed(p: Proxy) {
    && p.ip.value != []
    && ':' !in p.ip.value
    && ValidPort(p.port.value)
  }

  /** The shape check, the host check and the port check of `Proxy::from_str`,
      applied to what follows the scheme; errors carry the whole input `s`. */
  function ParseEndpoint(s: string, remainder: string, scheme: Option<Scheme>): (r: Result<Proxy, DomainError>)
    ensures r.Ok? ==> WellFormed(r.value) && r.value.scheme == scheme
    ensures r.Err? ==> r.error == InvalidIp(s) || r.error == InvalidPort(s)
  {
    var parts := Split(remainder, ':');
    if |parts| != 2 then Err(InvalidIp(s))
    else if parts[0] == [] then Err(InvalidIp(s))
    else match ParseU16(parts[1])
      case None => Err(InvalidPort(s))
      case Some(n) =>
        if n == 0 || n > 65534 then Err(InvalidPort(s))
        else
          ParseU16OfNatToString(n);
          Ok(Proxy(IpAddress(parts[0]), Port(NatToString(n)), scheme))
  }

  /** `Proxy::from_str`. */
  function FromStr(s: string): (r: Result<Proxy, DomainError>)
    ensures r.Ok? ==> WellFormed(r.value)
    ensures r.Err? && r.error.InvalidScheme? ==> IsSubstring("://", s)
  {
    match Find(s, "://")
    case Some(pos) =>
      (match ParseScheme(s[..pos])
       case None => Err(InvalidScheme(s[..pos]))
       case Some(sc) => ParseEndpoint(s, s[pos + 3..], Some(sc)))
    case None => ParseEndpoint(s, s, None)
  }

  /** The canonical text of a proxy: `scheme://host:port` or `host:port`. */
  function Format(p: Proxy): string {
    var endpoint := p.ip.value + ":" + p.port.value;
    match p.scheme
    case None => endpoint
    case Some(sc) => SchemeName(sc) + "://" + endpoint
  }

  // ---------------------------------------------------------------------------
  // Properties of the parser
  // ---------------------------------------------------------------------------

  /** A text that names a scheme contains no colon. */
  lemma SchemeTextHasNoColon(t: string)
    requires ParseScheme(t).Some?
    ensures ':' !in t
  {
    var name := ToLower(t);
    forall k | 0 <= k < |t|
      ensures t[k] != ':'
    {
      assert name[k] == LowerChar(t[k]);
      assert name[k] in name;
    }
  }

  /** An occurrence of "://" starts with a colon followed by two slashes. */
  lemma MarkerShape(s: string, i: int)
    ensures OccursAt(s, "://", i) ==> s[i] == ':' && s[i + 1] == '/' && s[i + 2] == '/'
  {
    if OccursAt(s, "://", i) {
      var m := s[i..i + 3];
      assert m[0] == s[i] && m[1] == s[i + 1] && m[2] == s[i + 2];
    }
  }

  /** `Find` returns the first occurrence. */
  lemma FindFirst(s: string, pat: string, pos: nat)
    requires OccursAt(s, pat, pos)
    requires forall j :: 0 <= j < pos ==> !OccursAt(s, pat, j)
    ensures Find(s, pat) == Some(pos)
  {
    var r := Find(s, pat);
    assert r.Some?;
    assert r.value <= pos;
  }

  /** With no colon before it, the first "://" of `t + "://" + rest` is right after `t`. */
  lemma FindMarkerAfter(t: string, rest: string)
    requires ':' !in t
    ensures Find(t + "://" + rest, "://") == Some(|t|)
  {
    var s := t + "://" + rest;
    assert s[|t|..|t| + 3] == "://";
    forall j | 0 <= j < |t|
      ensures !OccursAt(s, "://", j)
    {
      MarkerShape(s, j);
      assert s[j] == t[j];
    }
    FindFirst(s, "://", |t|);
  }

  /** `host:tail` holds no "://" when the only colon is the separator and the
      text after it does not start with a slash. */
  lemma NoMarker(host: string, tail: string)
    requires ':' !in host && ':' !in tail
    requires tail == [] || tail[0] != '/'
    ensures !IsSubstring("://", host + ":" + tail)
  {
    var s := host + ":" + tail;
    forall i | 0 <= i
      ensures !OccursAt(s, "://", i)
    {
      MarkerShape(s, i);
      if i < |host| {
        assert s[i] == host[i];
      } else if i == |host| {
        assert i + 1 < |s| ==> s[i + 1] == tail[0];
      } else if i < |s| {
        assert s[i] == tail[i - |host| - 1];
      }
    }
  }

  /** Scheme errors come first: when the text before the first "://" names no
      scheme, that text is the error, whatever follows. */
  lemma SchemeErrorFirst(s: string, pos: nat)
    requires OccursAt(s, "://", pos)
    requires forall j :: 0 <= j < pos ==> !OccursAt(s, "://", j)
    requires forall sc: Scheme :: SchemeName(sc) != ToLower(s[..pos])
    ensures FromStr(s) == Err(InvalidScheme(s[..pos]))
  {
    FindFirst(s, "://", pos);
  }

  /** Without "://", a text whose colon count is not exactly one is an invalid
      address, whatever its port looks like (IPv6 literals, `user:pass@host:port`). */
  lemma ColonCountRejected(s: string)
    requires !IsSubstring("://", s)
    requires Count(s, ':') != 1
    ensures FromStr(s) == Err(InvalidIp(s))
  {
  }

  /** After a valid scheme, the same colon rule applies to the rest. */
  lemma ColonCountRejectedAfterScheme(t: string, rest: string)
    requires ParseScheme(t).Some?
    requires Count(rest, ':') != 1
    ensures FromStr(t + "://" + rest) == Err(InvalidIp(t + "://" + rest))
  {
    SchemeTextHasNoColon(t);
    FindMarkerAfter(t, rest);
    assert (t + "://" + rest)[..|t|] == t;
    assert (t + "://" + rest)[|t| + 3..] == rest;
  }

  /** An empty host is an invalid address, before the port is looked at. */
  lemma EmptyHostRejected(tail: string)
    requires ':' !in tail
    requires tail == [] || tail[0] != '/'
    ensures FromStr(":" + tail) == Err(InvalidIp(":" + tail))
  {
    NoMarker([], tail);
    assert [] + ":" + tail == ":" + tail;
    SplitFirst([], ':', tail);
  }

  /** A port text that is not a `u16` in [1, 65534] is an invalid port. */
  lemma BadPortRejected(host: string, tail: string)
    requires host != [] && ':' !in host && ':' !in tail
    requires tail == [] || tail[0] != '/'
    requires ParseU16(tail).None? || ParseU16(tail) == Some(0) || ParseU16(tail) == Some(65535)
    ensures FromStr(host + ":" + tail) == Err(InvalidPort(host + ":" + tail))
  {
    NoMarker(host, tail);
    SplitFirst(host, ':', tail);
  }

  /** Port 0 and every port above 65534 are rejected. */
  lemma OutOfRangePortRejected(host: string, n: nat)
    requires host != [] && ':' !in host
    requires n == 0 || n > 65534
    ensures FromStr(host + ":" + NatToString(n)) == Err(InvalidPort(host + ":" + NatToString(n)))
  {
    var tail := NatToString(n);
    assert ':' !in tail by {
      forall k | 0 <= k < |tail|
        ensures tail[k] != ':'
      {
        assert IsDigit(tail[k]);
      }
    }
    assert tail[0] != '/' by { assert IsDigit(tail[0]); }
    ParseU16OfNatToString(n);
    BadPortRejected(host, tail);
  }

  /** A numeral holds no colon and does not start with a slash. */
  lemma DigitsHaveNoColon(tail: string)
    requires AllDigits(tail)
    ensures ':' !in tail
    ensures tail == [] || tail[0] != '/'
  {
    forall k | 0 <= k < |tail|
      ensures tail[k] != ':' && tail[k] != '/'
    {
      assert IsDigit(tail[k]);
    }
  }

  /** The endpoint step accepts `host:tail` when the host is non-empty and
      colon-free and the tail is a port number in range. */
  lemma EndpointAccepted(s: string, host: string, tail: string, n: nat, scheme: Option<Scheme>)
    requires host != [] && ':' !in host && ':' !in tail
    requires ParseU16(tail) == Some(n) && 1 <= n <= 65534
    ensures ParseEndpoint(s, host + ":" + tail, scheme) == Ok(Proxy(IpAddress(host), Port(NatToString(n)), scheme))
  {
    SplitFirst(host, ':', tail);
    SplitNone(tail, ':');
    assert Split(host + ":" + tail, ':') == [host, tail];
  }

  /** `host:port` parses to that host, the canonical port and no scheme. */
  lemma ParseHostPort(host: string, n: nat)
    requires host != [] && ':' !in host
    requires 1 <= n <= 65534
    ensures FromStr(host + ":" + NatToString(n)) == Ok(Proxy(IpAddress(host), Port(NatToString(n)), None))
  {
    var tail := NatToString(n);
    DigitsHaveNoColon(tail);
    NoMarker(host, tail);
    ParseU16OfNatToString(n);
    EndpointAccepted(host + ":" + tail, host, tail, n, None);
  }

  /** `scheme://host:port` parses to that host, the canonical port and the
      scheme, whatever the letter case of the scheme text. */
  lemma ParseSchemeHostPort(t: string, host: string, n: nat)
    requires ParseScheme(t).Some?
    requires host != [] && ':' !in host
    requires 1 <= n <= 65534
    ensures FromStr(t + "://" + (host + ":" + NatToString(n)))
         == Ok(Proxy(IpAddress(host), Port(NatToString(n)), ParseScheme(t)))
  {
    var tail := NatToString(n);
    var rest := host + ":" + tail;
    var s := t + "://" + rest;
    SchemeTextHasNoColon(t);
    FindMarkerAfter(t, rest);
    assert s[..|t|] == t;
    assert s[|t| + 3..] == rest;
    DigitsHaveNoColon(tail);
    ParseU16OfNatToString(n);
    EndpointAccepted(s, host, tail, n, ParseScheme(t));
  }

  /** Formatting a well-formed proxy and parsing the text gives the proxy back;
      so `Format` prints the canonical form of whatever the parser accepted. */
  lemma FormatRoundTrip(p: Proxy)
    requires WellFormed(p)
    ensures FromStr(Format(p)) == Ok(p)
  {
    var n := ParseU16(p.port.value).value;
    assert p.port.value == NatToString(n);
    match p.scheme
    case None =>
      ParseHostPort(p.ip.value, n);
    case Some(sc) =>
      ParseSchemeName(sc);
      ParseSchemeHostPort(SchemeName(sc), p.ip.value, n);
  }

  /** Parsing is stable under printing: re-parsing the canonical text of an
      accepted proxy accepts the same proxy. */
  lemma ParseFormatParse(s: string)
    requires FromStr(s).Ok?
    ensures FromStr(Format(FromStr(s).value)) == FromStr(s)
  {
    FormatRoundTrip(FromStr(s).value);
  }

  /** Leading zeros of the port are dropped: the stored port is the canonical
      decimal of the parsed number, so "0080" is stored as "80". */
  lemma LeadingZerosDropped(host: string, zeros: string, n: nat)
    requires host != [] && ':' !in host
    requires forall k :: 0 <= k < |zeros| ==> zeros[k] == '0'
    requires 1 <= n <= 65534
    ensures FromStr(host + ":" + (zeros + NatToString(n)))
         == Ok(Proxy(IpAddress(host), Port(NatToString(n)), None))
  {
    var digits := NatToString(n);
    var tail := zeros + digits;
    LeadingZerosValue(zeros, digits);
    assert AllDigits(tail);
    DigitsHaveNoColon(tail);
    assert ParseU16(tail) == Some(n);
    NoMarker(host, tail);
    EndpointAccepted(host + ":" + tail, host, tail, n, None);
  }
}
