/**
 * `AppInputDTO::from_cli`: the command-line values carried into the
 * application, with the inline proxy list parsed up front.
 */
module AppInput {
  import opened Wrappers
  import opened Text
  import opened Domain
  import opened ProxyList
  import StringRepository

  type U16 = x: int | 0 <= x < 0x1_0000

  /** The parsed command line, as far as `from_cli` reads it. Paths and URLs
      are kept as text. */
  datatype Cli = Cli(
    file: Option<string>,
    proxies: Option<string>,
    url: Option<string>,
    timeout: U8,
    workers: U16,
    outDir: Option<string>)

  datatype AppInputDto = AppInputDto(
    file: Option<string>,
    proxies: Option<seq<Proxy>>,
    url: Option<string>,
    timeout: U8,
    workers: U16,
    outDir: Option<string>)

  /** The error `from_cli` reports before exiting with status 1. */
  datatype InputError = EmptyProxyList

  /** The inline list: comma segments, trimmed, those that parse, in order.
      Every proxy on it is well formed: a non-empty host without ':', and a
      port in 1..65534 written without leading zeros. */
  function ParseProxyList(raw: string): (list: seq<Proxy>)
    ensures |list| <= Count(raw, ',') + 1
    ensures forall p :: p in list ==> WellFormed(p)
  {
    ParsedProxies(TrimAll(Split(raw, ',')))
  }

  /** `from_cli`: no inline list gives no proxies; an inline list of which no
      segment parses is an error (the process exits); otherwise the parsed
      list. The other fields are copied unchanged. */
  function FromCli(cli: Cli): (r: Result<AppInputDto, InputError>)
    ensures cli.proxies.None? ==> r.Ok? && r.value.proxies.None?
    ensures cli.proxies.Some? ==> (r.Err? <==> ParseProxyList(cli.proxies.value) == [])
    ensures cli.proxies.Some? && r.Ok? ==> r.value.proxies == Some(ParseProxyList(cli.proxies.value))
    ensures r.Ok? ==> r.value.proxies.None? || |r.value.proxies.value| > 0
    ensures r.Ok? ==> && r.value.file == cli.file && r.value.url == cli.url
                      && r.value.timeout == cli.timeout && r.value.workers == cli.workers
                      && r.value.outDir == cli.outDir
    ensures r.Err? ==> r.error == EmptyProxyList
  {
    match cli.proxies
    case None => Ok(AppInputDto(cli.file, None, cli.url, cli.timeout, cli.workers, cli.outDir))
    case Some(raw) =>
      var parsed := ParseProxyList(raw);
      if parsed == [] then Err(EmptyProxyList)
      else Ok(AppInputDto(cli.file, Some(parsed), cli.url, cli.timeout, cli.workers, cli.outDir))
  }

  // ---------------------------------------------------------------------------
  // Properties
  // ---------------------------------------------------------------------------

  /** The list keeps input order: the proxies of `a,b` are those of `a`
      followed by those of `b`. */
  lemma ProxyListKeepsOrder(a: string, b: string)
    ensures ParseProxyList(a + "," + b) == ParseProxyList(a) + ParseProxyList(b)
  {
    var sa, sb := Split(a, ','), Split(b, ',');
    SplitConcat(a, ',', b);
    MapAppend(sa, sb, Trim);
    FilterMapAppend(TrimAll(sa), TrimAll(sb), Accepted);
  }

  /** One segment contributes its proxy when its trimmed text parses, and
      nothing otherwise. */
  lemma ProxyListOfSegment(segment: string)
    requires ',' !in segment
    ensures ParseProxyList(segment)
         == if FromStr(Trim(segment)).Ok? then [FromStr(Trim(segment)).value] else []
  {
    SplitNone(segment, ',');
    var one: seq<string> := [segment];
    assert one[..0] == [];
    ParsedProxiesSingle([Trim(segment)]);
  }

  /** A blank segment vanishes, because the parser rejects the empty text. */
  lemma BlankSegmentVanishes(a: string, blank: string)
    requires ',' !in blank && Trim(blank) == []
    ensures ParseProxyList(a + "," + blank) == ParseProxyList(a)
  {
    ProxyListKeepsOrder(a, blank);
    ProxyListOfSegment(blank);
    EmptyEntryRejected();
  }

  /** The command-line input and the inline-list repository accept the same
      proxies, in the same order. */
  lemma ProxyListMatchesRepository(raw: string)
    ensures ParseProxyList(raw) == ParsedProxies(StringRepository.New(raw).proxies)
  {
    BlankSkipRedundant(Split(raw, ','));
  }
}
