/**
 * Header analysis and anonymity classification (`analyze_headers`,
 * `classify_proxy`): which identifying headers a header-echo body reveals, and
 * how anonymous that makes the proxy.
 */
module HeaderAnalysis {
  import opened Text
  import opened Domain

  /** Header names whose presence exposes the client's address. */
  const TransparentHeaders: seq<string> := ["x-forwarded-for", "x-real-ip", "client-ip"]

  /** Header names whose presence reveals that a proxy is in the path. */
  const ProxyHeaders: seq<string> := ["via", "forwarded", "proxy-connection"]

  /** `markers.iter().any(|h| b.contains(h))`. */
  function AnyContained(b: string, markers: seq<string>): (r: bool)
    ensures r <==> exists m :: m in markers && IsSubstring(m, b)
  {
    if markers == [] then false
    else Contains(b, markers[0]) || AnyContained(b, markers[1..])
  }

  /** `analyze_headers`: (has a transparent header, has a proxy header), both
      tested case-insensitively on the whole body. */
  function AnalyzeHeaders(body: string): (flags: (bool, bool))
    ensures flags.0 <==> (|| IsSubstring("x-forwarded-for", ToLower(body))
                          || IsSubstring("x-real-ip", ToLower(body))
                          || IsSubstring("client-ip", ToLower(body)))
    ensures flags.1 <==> (|| IsSubstring("via", ToLower(body))
                          || IsSubstring("forwarded", ToLower(body))
                          || IsSubstring("proxy-connection", ToLower(body)))
  {
    var b := ToLower(body);
    assert forall m :: m in TransparentHeaders <==> m == "x-forwarded-for" || m == "x-real-ip" || m == "client-ip";
    assert forall m :: m in ProxyHeaders <==> m == "via" || m == "forwarded" || m == "proxy-connection";
    (AnyContained(b, TransparentHeaders), AnyContained(b, ProxyHeaders))
  }

  /** The analysis ignores letter case: lower-casing the body first changes nothing. */
  lemma AnalyzeHeadersCaseInsensitive(body: string)
    ensures AnalyzeHeaders(ToLower(body)) == AnalyzeHeaders(body)
  {
    ToLowerIdempotent(body);
  }

  /** "forwarded" is part of "x-forwarded-for", so that header raises both flags. */
  lemma ForwardedForRaisesBoth(body: string)
    requires IsSubstring("x-forwarded-for", ToLower(body))
    ensures AnalyzeHeaders(body) == (true, true)
  {
    var xff: string := "x-forwarded-for";
    assert OccursAt(xff, "forwarded", 2) by {
      assert xff[2..11] == "forwarded";
    }
    SubstringTransitive("forwarded", xff, ToLower(body));
  }

  /** `classify_proxy`: the proxy is transparent when it shows the real address
      or a transparent header, else anonymous when it shows a proxy header,
      else elite. */
  function ClassifyProxy(realIp: string, proxyIp: string, hasTransparentHdr: bool, hasProxyHdr: bool): (a: Anonymity)
    ensures a == Transparent <==> proxyIp == realIp || hasTransparentHdr
    ensures a == Anonymous <==> proxyIp != realIp && !hasTransparentHdr && hasProxyHdr
    ensures a == Elite <==> proxyIp != realIp && !hasTransparentHdr && !hasProxyHdr
  {
    if proxyIp == realIp || hasTransparentHdr then Transparent
    else if hasProxyHdr then Anonymous
    else Elite
  }

  /** More evidence never makes a proxy look more anonymous. */
  lemma ClassifyMonotone(realIp: string, proxyIp: string, t1: bool, p1: bool, t2: bool, p2: bool)
    requires t1 ==> t2
    requires p1 ==> p2
    ensures AnonymityRank(ClassifyProxy(realIp, proxyIp, t2, p2)) <= AnonymityRank(ClassifyProxy(realIp, proxyIp, t1, p1))
  {
  }
}
