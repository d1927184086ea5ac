/**
 * The per-proxy tester (`ReqwestProxyTestService`): the scheme loop with its
 * nested retry loop, the client cache keyed by endpoint and scheme, and the
 * process-wide real-IP cell that is written once.
 *
 * The network is an oracle: whether a client can be built for a key, what the
 * real-IP lookup answers, what the two probes answer and how long an attempt
 * took, each as a function of the scheme and the attempt index. The ghost logs
 * `attempts` records the order of attempts and the backoff sleep after each.
 */
module TestService {
  import opened Wrappers
  import opened Text
  import opened Domain
  import opened HeaderAnalysis
  import opened Scoring

  /** `ProxyCacheKey`: address, port and scheme. */
  datatype CacheKey = CacheKey(ip: IpAddress, port: Port, scheme: Scheme)

  /** A pooled HTTP client: the endpoint it routes through and its settings. */
  datatype Client = Client(
    route: CacheKey,
    timeoutSecs: nat,
    poolMaxIdlePerHost: nat,
    tcpKeepaliveSecs: nat,
    poolIdleTimeoutSecs: nat)

  /** The client `get_or_create_client` builds for a key: the response timeout
      of the service, 2 idle connections per host, 10 s keep-alive, 15 s idle expiry. */
  function ConfiguredClient(key: CacheKey, timeoutSecs: nat): Client {
    Client(key, timeoutSecs, 2, 10, 15)
  }

  /** What the two probes of one attempt return: the IP-echo body and the header-echo body. */
  datatype ProbeReplies = ProbeReplies(ipBody: string, headersBody: string)

  /** The network as one call of `test` sees it. */
  datatype Network = Network(
    clientBuilds: CacheKey -> bool,
    realIpLookup: (Scheme, nat) -> Option<string>,
    probes: (Scheme, nat) -> Option<ProbeReplies>,
    elapsedMs: (Scheme, nat) -> nat)

  /** One attempt of one scheme, whether it succeeded, and how long the
      tester then slept before its next attempt. */
  datatype Attempt = Attempt(scheme: Scheme, index: nat, succeeded: bool, backoffMs: nat)

  /** The classification step of `try_scheme`: trim the echoed address, analyse
      the echoed headers, classify. */
  function ClassifyReplies(realIp: string, replies: ProbeReplies): (a: Anonymity)
    ensures a == Elite <==> (&& Trim(replies.ipBody) != realIp
                             && !AnalyzeHeaders(replies.headersBody).0
                             && !AnalyzeHeaders(replies.headersBody).1)
    ensures Trim(replies.ipBody) == realIp ==> a == Transparent
  {
    var flags := AnalyzeHeaders(replies.headersBody);
    ClassifyProxy(realIp, Trim(replies.ipBody), flags.0, flags.1)
  }

  /** A header echo naming "X-Forwarded-For" in any case always makes the
      proxy transparent, although it also contains "forwarded". */
  lemma ForwardedForIsTransparent(realIp: string, replies: ProbeReplies)
    requires IsSubstring("x-forwarded-for", ToLower(replies.headersBody))
    ensures ClassifyReplies(realIp, replies) == Transparent
  {
    ForwardedForRaisesBoth(replies.headersBody);
  }

  /** What a successful `test` reports besides its scheme and retry count: the
      proxy's address and port, the elapsed time of the winning attempt, the
      anonymity its probes show against the real address, and the score of those. */
  ghost predicate Measured(t: TestResult, proxy: Proxy, net: Network, realIp: Option<string>) {
    && t.ip == proxy.ip && t.port == proxy.port
    && t.latencyMs == net.elapsedMs(t.scheme, t.retries)
    && realIp.Some?
    && net.probes(t.scheme, t.retries).Some?
    && t.anonymity == ClassifyReplies(realIp.value, net.probes(t.scheme, t.retries).value)
    && t.score == CalculateScore(t.latencyMs, t.retries, t.anonymity)
  }

  /** The candidate schemes: the declared one alone, or the full list in its order. */
  function CandidateSchemes(proxy: Proxy, allSchemes: seq<Scheme>): (schemes: seq<Scheme>)
    ensures proxy.scheme.Some? ==> schemes == [proxy.scheme.value]
    ensures proxy.scheme.None? ==> schemes == allSchemes
  {
    match proxy.scheme
    case Some(s) => [s]
    case None => allSchemes
  }

  /** The cache after a lookup of `key`: unchanged on a hit or a failed
      build, else extended by the newly built client for `key` alone. */
  function CacheAfter(cache: map<CacheKey, Client>, key: CacheKey, builds: bool, timeoutSecs: nat): (after: map<CacheKey, Client>)
    ensures key in cache || !builds ==> after == cache
    ensures key !in cache && builds ==> after == cache[key := ConfiguredClient(key, timeoutSecs)]
  {
    if key in cache || !builds then cache else cache[key := ConfiguredClient(key, timeoutSecs)]
  }

  /** The real-IP cell after `get_real_ip`: a held address is kept; an empty
      cell takes the trimmed lookup answer, or stays empty when the lookup fails. */
  function CellAfter(cell: Option<string>, lookup: Option<string>): (after: Option<string>)
    ensures cell.Some? ==> after == cell
    ensures cell.None? ==> (after.Some? <==> lookup.Some?)
    ensures cell.None? && lookup.Some? ==> after.value == Trim(lookup.value)
  {
    if cell.Some? then cell
    else match lookup
         case None => None
         case Some(body) => Some(Trim(body))
  }

  /** The outcome of one attempt of `try_scheme`: no client is `ConnectionFailed`;
      no real address or a failed probe is `TestFailed`; else the classification. */
  function AttemptOutcome(hasClient: bool, realIp: Option<string>, replies: Option<ProbeReplies>): (r: Result<Anonymity, ProxyTestError>)
    ensures r.Ok? <==> hasClient && realIp.Some? && replies.Some?
    ensures !hasClient ==> r == Err(ConnectionFailed)
    ensures hasClient && r.Err? ==> r.error == TestFailed
    ensures r.Ok? ==> r.value == ClassifyReplies(realIp.value, replies.value)
  {
    if !hasClient then Err(ConnectionFailed)
    else if realIp.None? || replies.None? then Err(TestFailed)
    else Ok(ClassifyReplies(realIp.value, replies.value))
  }

  // ---------------------------------------------------------------------------
  // The shape of the attempt log
  // ---------------------------------------------------------------------------

  /** The sleep after failed attempt `k` (counted from 0): 100 * (k + 1) ms. */
  function Backoff(k: nat): nat {
    100 * (k + 1)
  }

  /** The first `n` attempts of `scheme`, all failed, each followed by its backoff. */
  function FailedAttempts(scheme: Scheme, n: nat): seq<Attempt> {
    if n == 0 then [] else FailedAttempts(scheme, n - 1) + [Attempt(scheme, n - 1, false, Backoff(n - 1))]
  }

  /** The log of schemes that each failed all three attempts, in list order. */
  function Exhausted(schemes: seq<Scheme>): seq<Attempt> {
    if schemes == [] then []
    else Exhausted(schemes[..|schemes| - 1]) + FailedAttempts(schemes[|schemes| - 1], 3)
  }

  /** The time a log spent sleeping between attempts. */
  function TotalBackoff(log: seq<Attempt>): nat {
    if log == [] then 0 else TotalBackoff(log[..|log| - 1]) + log[|log| - 1].backoffMs
  }

  lemma {:induction false} FailedAttemptsAt(scheme: Scheme, n: nat, k: nat)
    requires k < n
    ensures |FailedAttempts(scheme, n)| == n
    ensures FailedAttempts(scheme, n)[k] == Attempt(scheme, k, false, Backoff(k))
  {
    if k < n - 1 {
      FailedAttemptsAt(scheme, n - 1, k);
    } else if n > 1 {
      FailedAttemptsAt(scheme, n - 1, 0);
    }
  }

  /** Schemes are tried strictly in list order, three attempts each: entry `j`
      of the exhausted log is attempt `j % 3` of scheme `j / 3`. */
  lemma {:induction false} ExhaustedAt(schemes: seq<Scheme>, j: nat)
    requires j < 3 * |schemes|
    ensures |Exhausted(schemes)| == 3 * |schemes|
    ensures Exhausted(schemes)[j] == Attempt(schemes[j / 3], j % 3, false, Backoff(j % 3))
  {
    var init := schemes[..|schemes| - 1];
    var last := schemes[|schemes| - 1];
    FailedAttemptsAt(last, 3, 0);
    if j < 3 * |init| {
      ExhaustedAt(init, j);
    } else {
      if init != [] {
        ExhaustedAt(init, 0);
      } else {
        assert Exhausted(init) == [];
      }
      FailedAttemptsAt(last, 3, j - 3 * |init|);
    }
  }

  lemma {:induction false} TotalBackoffAppend(a: seq<Attempt>, b: seq<Attempt>)
    ensures TotalBackoff(a + b) == TotalBackoff(a) + TotalBackoff(b)
    decreases |b|
  {
    if b == [] {
      assert a + b == a;
    } else {
      TotalBackoffAppend(a, b[..|b| - 1]);
      assert (a + b)[..|a + b| - 1] == a + b[..|b| - 1];
    }
  }

  /** Exhausting one more scheme of the list appends its three failed attempts. */
  lemma ExhaustedSnoc(schemes: seq<Scheme>, i: nat)
    requires i < |schemes|
    ensures Exhausted(schemes[..i + 1]) == Exhausted(schemes[..i]) + FailedAttempts(schemes[i], 3)
  {
    assert schemes[..i + 1][..i] == schemes[..i];
  }

  /** The first `n` failed attempts of a scheme sleep 100 + 200 + ... + 100 * n ms. */
  lemma {:induction false} FailedAttemptsBackoff(scheme: Scheme, n: nat)
    ensures TotalBackoff(FailedAttempts(scheme, n)) == 50 * n * (n + 1)
  {
    if n > 0 {
      FailedAttemptsBackoff(scheme, n - 1);
      var init := FailedAttempts(scheme, n - 1);
      var f := init + [Attempt(scheme, n - 1, false, Backoff(n - 1))];
      assert f[..|f| - 1] == init;
      TriangleStep(n);
    }
  }

  lemma TriangleStep(n: nat)
    requires n > 0
    ensures 50 * (n - 1) * n + 100 * (n - 1 + 1) == 50 * n * (n + 1)
  {
  }

  /** A proxy whose every candidate scheme fails waits 600 ms per scheme in all. */
  lemma {:induction false} ExhaustedBackoffTotal(schemes: seq<Scheme>)
    ensures TotalBackoff(Exhausted(schemes)) == 600 * |schemes|
  {
    if schemes != [] {
      var init := schemes[..|schemes| - 1];
      var last := schemes[|schemes| - 1];
      ExhaustedBackoffTotal(init);
      TotalBackoffAppend(Exhausted(init), FailedAttempts(last, 3));
      FailedAttemptsBackoff(last, 3);
    }
  }

  // ---------------------------------------------------------------------------
  // The reference run: what `test` does to the cache and the cell, and which
  // attempt wins, as a function of the state it starts in and the network
  // ---------------------------------------------------------------------------

  /** What `test` changes besides the log: the client cache and the real-IP cell. */
  datatype ServiceState = ServiceState(cache: map<CacheKey, Client>, cell: Option<string>)

  /** The key `try_scheme` caches the client of `proxy` under for `scheme`. */
  function KeyOf(proxy: Proxy, scheme: Scheme): CacheKey {
    CacheKey(proxy.ip, proxy.port, scheme)
  }

  /** An attempt of `scheme` gets a client: one is cached, or one can be built. */
  predicate HasClient(st: ServiceState, proxy: Proxy, scheme: Scheme, net: Network) {
    KeyOf(proxy, scheme) in st.cache || net.clientBuilds(KeyOf(proxy, scheme))
  }

  /** The state after attempt `k` of `scheme`: the cache after the client
      lookup; the cell after the real-IP lookup, which only runs once there is
      a client. */
  function AttemptState(st: ServiceState, proxy: Proxy, scheme: Scheme, k: nat, net: Network, timeoutSecs: nat): ServiceState {
    var key := KeyOf(proxy, scheme);
    ServiceState(CacheAfter(st.cache, key, net.clientBuilds(key), timeoutSecs),
                 if HasClient(st, proxy, scheme, net) then CellAfter(st.cell, net.realIpLookup(scheme, k)) else st.cell)
  }

  /** The outcome of attempt `k` of `scheme` started in state `st`. */
  function AttemptResult(st: ServiceState, proxy: Proxy, scheme: Scheme, k: nat, net: Network, timeoutSecs: nat): Result<Anonymity, ProxyTestError> {
    AttemptOutcome(HasClient(st, proxy, scheme, net), AttemptState(st, proxy, scheme, k, net, timeoutSecs).cell, net.probes(scheme, k))
  }

  datatype SchemeRunOutcome = SchemeRunOutcome(after: ServiceState, success: Option<nat>)

  /** Attempts `k`, ..., 2 of `scheme` from state `st`, up to the first success. */
  function SchemeRun(st: ServiceState, proxy: Proxy, scheme: Scheme, k: nat, net: Network, timeoutSecs: nat): SchemeRunOutcome
    decreases 3 - k
  {
    if k >= 3 then SchemeRunOutcome(st, None)
    else
      var next := AttemptState(st, proxy, scheme, k, net, timeoutSecs);
      if AttemptResult(st, proxy, scheme, k, net, timeoutSecs).Ok? then SchemeRunOutcome(next, Some(k))
      else SchemeRun(next, proxy, scheme, k + 1, net, timeoutSecs)
  }

  /** The winning attempt: the index of its scheme in the candidate list, and its index. */
  datatype Win = Win(schemeIndex: nat, attempt: nat)

  datatype TestRunOutcome = TestRunOutcome(after: ServiceState, winner: Option<Win>)

  /** Schemes `i`, `i + 1`, ... of the list, each with its attempts, up to the
      first scheme with a successful attempt. */
  function TestRun(st: ServiceState, proxy: Proxy, schemes: seq<Scheme>, i: nat, net: Network, timeoutSecs: nat): TestRunOutcome
    decreases |schemes| - i
  {
    if i >= |schemes| then TestRunOutcome(st, None)
    else
      var o := SchemeRun(st, proxy, schemes[i], 0, net, timeoutSecs);
      if o.success.Some? then TestRunOutcome(o.after, Some(Win(i, o.success.value)))
      else TestRun(o.after, proxy, schemes, i + 1, net, timeoutSecs)
  }

  lemma LogAppendAssoc(a: seq<Attempt>, b: seq<Attempt>, c: seq<Attempt>)
    ensures (a + b) + c == a + (b + c)
  {
  }

  /** One scheme of the reference run. */
  lemma TestRunStep(st: ServiceState, proxy: Proxy, schemes: seq<Scheme>, i: nat, net: Network, timeoutSecs: nat)
    requires i < |schemes|
    ensures var o := SchemeRun(st, proxy, schemes[i], 0, net, timeoutSecs);
            TestRun(st, proxy, schemes, i, net, timeoutSecs)
            == if o.success.Some? then TestRunOutcome(o.after, Some(Win(i, o.success.value)))
               else TestRun(o.after, proxy, schemes, i + 1, net, timeoutSecs)
  {
  }

  /** Attempt `j` of `scheme`, in a run of its attempts that starts at `from`
      in state `st`, succeeds: there is a client, the real address is known by
      then (already in the cell, or answered by the lookup of one of the
      attempts `from` to `j`), and both probes answer. */
  predicate AttemptSucceeds(st: ServiceState, proxy: Proxy, scheme: Scheme, from: nat, j: nat, net: Network) {
    && HasClient(st, proxy, scheme, net)
    && (st.cell.Some? || exists m :: from <= m <= j && net.realIpLookup(scheme, m).Some?)
    && net.probes(scheme, j).Some?
  }

  /** One attempt: it succeeds exactly as `AttemptSucceeds` says, and the
      later attempts see the same conditions from the new state. */
  lemma AttemptSucceedsStep(st: ServiceState, proxy: Proxy, scheme: Scheme, from: nat, net: Network, timeoutSecs: nat)
    ensures AttemptResult(st, proxy, scheme, from, net, timeoutSecs).Ok? == AttemptSucceeds(st, proxy, scheme, from, from, net)
    ensures var next := AttemptState(st, proxy, scheme, from, net, timeoutSecs);
            forall j :: from < j ==> AttemptSucceeds(next, proxy, scheme, from + 1, j, net) == AttemptSucceeds(st, proxy, scheme, from, j, net)
  {
    var next := AttemptState(st, proxy, scheme, from, net, timeoutSecs);
    assert HasClient(next, proxy, scheme, net) == HasClient(st, proxy, scheme, net);
    if st.cell.None? && net.realIpLookup(scheme, from).Some? && HasClient(st, proxy, scheme, net) {
      assert from <= from <= from && net.realIpLookup(scheme, from).Some?;
    }
    forall j | from < j
      ensures AttemptSucceeds(next, proxy, scheme, from + 1, j, net) == AttemptSucceeds(st, proxy, scheme, from, j, net)
    {
      if HasClient(st, proxy, scheme, net) && st.cell.None? {
        if exists m :: from <= m <= j && net.realIpLookup(scheme, m).Some? {
          var m :| from <= m <= j && net.realIpLookup(scheme, m).Some?;
          if m > from {
            assert from + 1 <= m <= j && net.realIpLookup(scheme, m).Some?;
          }
        }
        if net.realIpLookup(scheme, from).Some? {
          assert from <= from <= j && net.realIpLookup(scheme, from).Some?;
        }
      }
    }
  }

  /** First success wins within a scheme: the run of its attempts stops at
      the first attempt that succeeds, and fails only when none does. */
  lemma {:induction false} SchemeRunFirstSuccess(st: ServiceState, proxy: Proxy, scheme: Scheme, from: nat, net: Network, timeoutSecs: nat)
    requires from <= 3
    ensures var o := SchemeRun(st, proxy, scheme, from, net, timeoutSecs);
            && (o.success.Some? ==> from <= o.success.value < 3 && AttemptSucceeds(st, proxy, scheme, from, o.success.value, net))
            && (forall j :: from <= j < 3 && (o.success.None? || j < o.success.value) ==> !AttemptSucceeds(st, proxy, scheme, from, j, net))
    decreases 3 - from
  {
    if from < 3 {
      AttemptSucceedsStep(st, proxy, scheme, from, net, timeoutSecs);
      var o := SchemeRun(st, proxy, scheme, from, net, timeoutSecs);
      if AttemptResult(st, proxy, scheme, from, net, timeoutSecs).Err? {
        var next := AttemptState(st, proxy, scheme, from, net, timeoutSecs);
        assert o == SchemeRun(next, proxy, scheme, from + 1, net, timeoutSecs);
        SchemeRunFirstSuccess(next, proxy, scheme, from + 1, net, timeoutSecs);
        forall j | from < j < 3
          ensures AttemptSucceeds(next, proxy, scheme, from + 1, j, net) == AttemptSucceeds(st, proxy, scheme, from, j, net)
        {
        }
      } else {
        assert o.success == Some(from);
      }
    }
  }

  /** Without a client an attempt changes nothing and fails. */
  lemma {:induction false} SchemeRunNoClient(st: ServiceState, proxy: Proxy, scheme: Scheme, from: nat, net: Network, timeoutSecs: nat)
    requires !HasClient(st, proxy, scheme, net)
    ensures SchemeRun(st, proxy, scheme, from, net, timeoutSecs) == SchemeRunOutcome(st, None)
    decreases 3 - from
  {
    if from < 3 {
      assert AttemptState(st, proxy, scheme, from, net, timeoutSecs) == st;
      SchemeRunNoClient(st, proxy, scheme, from + 1, net, timeoutSecs);
    }
  }

  /** When no candidate scheme can get a client, `test` fails and changes
      neither the cache nor the cell. */
  lemma {:induction false} TestRunNoClient(st: ServiceState, proxy: Proxy, schemes: seq<Scheme>, i: nat, net: Network, timeoutSecs: nat)
    requires forall k :: i <= k < |schemes| ==> !HasClient(st, proxy, schemes[k], net)
    ensures TestRun(st, proxy, schemes, i, net, timeoutSecs) == TestRunOutcome(st, None)
    decreases |schemes| - i
  {
    if i < |schemes| {
      SchemeRunNoClient(st, proxy, schemes[i], 0, net, timeoutSecs);
      TestRunNoClient(st, proxy, schemes, i + 1, net, timeoutSecs);
    }
  }

  /** With the cell empty and every real-IP lookup failing, no attempt succeeds
      and the cell stays empty. */
  lemma {:induction false} SchemeRunNoAddress(st: ServiceState, proxy: Proxy, scheme: Scheme, from: nat, net: Network, timeoutSecs: nat)
    requires st.cell.None?
    requires forall s, k :: net.realIpLookup(s, k).None?
    ensures SchemeRun(st, proxy, scheme, from, net, timeoutSecs).success.None?
    ensures SchemeRun(st, proxy, scheme, from, net, timeoutSecs).after.cell.None?
    decreases 3 - from
  {
    if from < 3 {
      assert net.realIpLookup(scheme, from).None?;
      SchemeRunNoAddress(AttemptState(st, proxy, scheme, from, net, timeoutSecs), proxy, scheme, from + 1, net, timeoutSecs);
    }
  }

  /** When the real address is unknown and cannot be looked up, `test` fails
      however the proxies answer, and the cell stays empty. */
  lemma {:induction false} TestRunNoAddress(st: ServiceState, proxy: Proxy, schemes: seq<Scheme>, i: nat, net: Network, timeoutSecs: nat)
    requires st.cell.None?
    requires forall s, k :: net.realIpLookup(s, k).None?
    ensures TestRun(st, proxy, schemes, i, net, timeoutSecs).winner.None?
    ensures TestRun(st, proxy, schemes, i, net, timeoutSecs).after.cell.None?
    decreases |schemes| - i
  {
    if i < |schemes| {
      SchemeRunNoAddress(st, proxy, schemes[i], 0, net, timeoutSecs);
      TestRunNoAddress(SchemeRun(st, proxy, schemes[i], 0, net, timeoutSecs).after, proxy, schemes, i + 1, net, timeoutSecs);
    }
  }

  /** The cache only grows: old entries stay, and a new one is the configured
      client of a buildable key of this proxy under `scheme`. */
  lemma {:induction false} SchemeRunCache(st: ServiceState, proxy: Proxy, scheme: Scheme, from: nat, net: Network, timeoutSecs: nat)
    ensures var after := SchemeRun(st, proxy, scheme, from, net, timeoutSecs).after.cache;
            && (forall k :: k in st.cache ==> k in after && after[k] == st.cache[k])
            && (forall k :: k in after && k !in st.cache ==>
                  k == KeyOf(proxy, scheme) && net.clientBuilds(k) && after[k] == ConfiguredClient(k, timeoutSecs))
    decreases 3 - from
  {
    if from < 3 {
      SchemeRunCache(AttemptState(st, proxy, scheme, from, net, timeoutSecs), proxy, scheme, from + 1, net, timeoutSecs);
    }
  }

  /** Across the whole run: old cache entries stay, and every new entry is the
      configured client of a buildable key of this proxy under a candidate scheme. */
  lemma {:induction false} TestRunCache(st: ServiceState, proxy: Proxy, schemes: seq<Scheme>, i: nat, net: Network, timeoutSecs: nat)
    ensures var after := TestRun(st, proxy, schemes, i, net, timeoutSecs).after.cache;
            && (forall k :: k in st.cache ==> k in after && after[k] == st.cache[k])
            && (forall k :: k in after && k !in st.cache ==>
                  && k.ip == proxy.ip && k.port == proxy.port && k.scheme in schemes
                  && net.clientBuilds(k) && after[k] == ConfiguredClient(k, timeoutSecs))
    decreases |schemes| - i
  {
    if i < |schemes| {
      var o := SchemeRun(st, proxy, schemes[i], 0, net, timeoutSecs);
      SchemeRunCache(st, proxy, schemes[i], 0, net, timeoutSecs);
      TestRunCache(o.after, proxy, schemes, i + 1, net, timeoutSecs);
    }
  }

  /** A win is an attempt that succeeded: its scheme is a candidate, the run
      ends holding a client for it and the real address, and its probes answered. */
  lemma TestRunWinner(st: ServiceState, proxy: Proxy, schemes: seq<Scheme>, i: nat, net: Network, timeoutSecs: nat)
    requires TestRun(st, proxy, schemes, i, net, timeoutSecs).winner.Some?
    ensures var o := TestRun(st, proxy, schemes, i, net, timeoutSecs);
            var w := o.winner.value;
            && i <= w.schemeIndex < |schemes| && w.attempt < 3
            && KeyOf(proxy, schemes[w.schemeIndex]) in o.after.cache
            && o.after.cell.Some?
            && net.probes(schemes[w.schemeIndex], w.attempt).Some?
    decreases |schemes| - i
  {
    var o := SchemeRun(st, proxy, schemes[i], 0, net, timeoutSecs);
    SchemeRunFirstSuccess(st, proxy, schemes[i], 0, net, timeoutSecs);
    if o.success.None? {
      TestRunWinner(o.after, proxy, schemes, i + 1, net, timeoutSecs);
    } else {
      SchemeRunWinnerState(st, proxy, schemes[i], 0, net, timeoutSecs);
    }
  }

  /** The state a successful scheme run ends in holds the client and the address. */
  lemma {:induction false} SchemeRunWinnerState(st: ServiceState, proxy: Proxy, scheme: Scheme, from: nat, net: Network, timeoutSecs: nat)
    requires SchemeRun(st, proxy, scheme, from, net, timeoutSecs).success.Some?
    ensures var o := SchemeRun(st, proxy, scheme, from, net, timeoutSecs);
            KeyOf(proxy, scheme) in o.after.cache && o.after.cell.Some? && net.probes(scheme, o.success.value).Some?
    decreases 3 - from
  {
    if from < 3 && AttemptResult(st, proxy, scheme, from, net, timeoutSecs).Err? {
      SchemeRunWinnerState(AttemptState(st, proxy, scheme, from, net, timeoutSecs), proxy, scheme, from + 1, net, timeoutSecs);
    }
  }

  // ---------------------------------------------------------------------------
  // The real-IP cell
  // ---------------------------------------------------------------------------

  /** A cell written at most once (`OnceCell<String>`). */
  class OnceCell {
    var value: Option<string>

    constructor ()
      ensures value == None
    {
      value := None;
    }

    /** `OnceCell::set`: stores `x` only when the cell is empty. */
    method Set(x: string) returns (stored: bool)
      modifies this
      ensures stored <==> old(value).None?
      ensures value == if stored then Some(x) else old(value)
    {
      stored := value.None?;
      if stored {
        value := Some(x);
      }
    }
  }

  // ---------------------------------------------------------------------------
  // The service
  // ---------------------------------------------------------------------------

  class ReqwestProxyTestService {
    const timeoutSecs: nat
    var cache: map<CacheKey, Client>
    const realIp: OnceCell
    ghost var attempts: seq<Attempt>

    /** Every cached client was built for the key it is stored under, with the
        service's settings: a client never serves another endpoint or scheme. */
    ghost predicate Valid()
      reads this
    {
      forall k :: k in cache ==> cache[k] == ConfiguredClient(k, timeoutSecs)
    }

    /** `ReqwestProxyTestService::new`, sharing the process-wide real-IP cell. */
    constructor (timeout: U8, cell: OnceCell)
      ensures Valid()
      ensures timeoutSecs == timeout && realIp == cell
      ensures cache == map[] && attempts == []
    {
      timeoutSecs := timeout;
      cache := map[];
      realIp := cell;
      attempts := [];
    }

    /** `get_or_create_client`: a hit returns the stored client and changes
        nothing; a miss builds, stores under `key` alone and returns the new
        client; a failed build is `ConnectionFailed` and changes nothing. */
    method GetOrCreateClient(key: CacheKey, builds: bool) returns (r: Result<Client, ProxyTestError>)
      requires Valid()
      modifies this`cache
      ensures Valid()
      ensures r.Ok? ==> r.value.route == key && key in cache && cache[key] == r.value
      ensures key in old(cache) ==> r == Ok(old(cache)[key]) && cache == old(cache)
      ensures key !in old(cache) && builds ==>
                r == Ok(ConfiguredClient(key, timeoutSecs)) && cache == old(cache)[key := r.value]
      ensures key !in old(cache) && !builds ==> r == Err(ConnectionFailed) && cache == old(cache)
    {
      if key in cache {
        return Ok(cache[key]);
      }
      if !builds {
        return Err(ConnectionFailed);
      }
      var client := ConfiguredClient(key, timeoutSecs);
      cache := cache[key := client];
      return Ok(client);
    }

    /** `get_real_ip`: once the cell holds an address it is returned without a
        lookup; otherwise the trimmed lookup answer is stored and returned, and
        a failed lookup is `TestFailed`. */
    method GetRealIp(lookup: Option<string>) returns (r: Result<string, ProxyTestError>)
      modifies realIp
      ensures old(realIp.value).Some? ==> r == Ok(old(realIp.value).value) && realIp.value == old(realIp.value)
      ensures old(realIp.value).None? && lookup.None? ==> r == Err(TestFailed) && realIp.value == None
      ensures old(realIp.value).None? && lookup.Some? ==>
                r == Ok(Trim(lookup.value)) && realIp.value == Some(Trim(lookup.value))
    {
      if realIp.value.Some? {
        return Ok(realIp.value.value);
      }
      if lookup.None? {
        return Err(TestFailed);
      }
      var ip := Trim(lookup.value);
      var _ := realIp.Set(ip);
      return Ok(ip);
    }

    /** `try_scheme`: client for (address, port, scheme), then the real
        address, then both probes; any failure fails the attempt. */
    method TryScheme(proxy: Proxy, scheme: Scheme, attempt: nat, net: Network) returns (r: Result<Anonymity, ProxyTestError>)
      requires Valid()
      modifies this`cache, realIp
      ensures Valid()
      ensures var before := ServiceState(old(cache), old(realIp.value));
              && ServiceState(cache, realIp.value) == AttemptState(before, proxy, scheme, attempt, net, timeoutSecs)
              && r == AttemptResult(before, proxy, scheme, attempt, net, timeoutSecs)
      ensures r.Ok? ==> && realIp.value.Some? && net.probes(scheme, attempt).Some?
                        && r.value == ClassifyReplies(realIp.value.value, net.probes(scheme, attempt).value)
    {
      var key := CacheKey(proxy.ip, proxy.port, scheme);
      var client := GetOrCreateClient(key, net.clientBuilds(key));
      if client.Err? {
        return Err(client.error);
      }
      var realAddr := GetRealIp(net.realIpLookup(scheme, attempt));
      if realAddr.Err? {
        return Err(realAddr.error);
      }
      var replies := net.probes(scheme, attempt);
      if replies.None? {
        return Err(TestFailed);
      }
      return Ok(ClassifyReplies(realAddr.value, replies.value));
    }

    /** The inner loop of `test` for one scheme: up to three attempts, the
        retry counter starting at 0, a 100 * (k + 1) ms sleep after failed
        attempt k; the first success is returned at once. */
    method RetryScheme(proxy: Proxy, scheme: Scheme, net: Network) returns (r: Result<TestResult, ProxyTestError>)
      requires Valid()
      modifies this`cache, this`attempts, realIp
      ensures Valid()
      ensures r.Err? ==> r.error == TestFailed && attempts == old(attempts) + FailedAttempts(scheme, 3)
      ensures r.Ok? ==> && r.value.scheme == scheme && r.value.retries <= 2
                        && attempts == old(attempts) + FailedAttempts(scheme, r.value.retries)
                                       + [Attempt(scheme, r.value.retries, true, 0)]
                        && Measured(r.value, proxy, net, realIp.value)
      ensures var o := SchemeRun(ServiceState(old(cache), old(realIp.value)), proxy, scheme, 0, net, timeoutSecs);
              && ServiceState(cache, realIp.value) == o.after
              && (r.Ok? <==> o.success.Some?)
              && (r.Ok? ==> r.value.retries == o.success.value)
    {
      var retries: U8 := 0;
      for attempt := 0 to 3
        invariant Valid()
        invariant retries == attempt
        invariant attempts == old(attempts) + FailedAttempts(scheme, attempt)
        invariant SchemeRun(ServiceState(old(cache), old(realIp.value)), proxy, scheme, 0, net, timeoutSecs)
               == SchemeRun(ServiceState(cache, realIp.value), proxy, scheme, attempt, net, timeoutSecs)
      {
        var outcome := TryScheme(proxy, scheme, attempt, net);
        if outcome.Ok? {
          attempts := attempts + [Attempt(scheme, attempt, true, 0)];
          var latency := net.elapsedMs(scheme, attempt);
          var score := CalculateScore(latency, retries, outcome.value);
          return Ok(TestResult(proxy.ip, proxy.port, scheme, latency, retries, outcome.value, score));
        }
        retries := retries + 1;
        attempts := attempts + [Attempt(scheme, attempt, false, Backoff(attempt))];
      }
      return Err(TestFailed);
    }

    /** `test`: the candidate schemes in order; the first scheme with a
        successful attempt gives the result, and `TestFailed` when none has one. */
    method Test(proxy: Proxy, allSchemes: seq<Scheme>, net: Network) returns (r: Result<TestResult, ProxyTestError>, ghost won: nat)
      requires Valid()
      modifies this`cache, this`attempts, realIp
      ensures Valid()
      ensures var schemes := CandidateSchemes(proxy, allSchemes);
              r.Err? ==> r.error == TestFailed && attempts == old(attempts) + Exhausted(schemes)
      ensures var schemes := CandidateSchemes(proxy, allSchemes);
              r.Ok? ==> && won < |schemes|
                        && r.value.scheme == schemes[won]
                        && r.value.retries <= 2
                        && attempts == old(attempts) + Exhausted(schemes[..won])
                                       + FailedAttempts(schemes[won], r.value.retries)
                                       + [Attempt(schemes[won], r.value.retries, true, 0)]
                        && Measured(r.value, proxy, net, realIp.value)
      ensures var o := TestRun(ServiceState(old(cache), old(realIp.value)), proxy, CandidateSchemes(proxy, allSchemes), 0, net, timeoutSecs);
              && ServiceState(cache, realIp.value) == o.after
              && (r.Ok? <==> o.winner.Some?)
              && (r.Ok? ==> o.winner.value == Win(won, r.value.retries))
    {
      won := 0;
      var schemes := CandidateSchemes(proxy, allSchemes);
      ghost var start := ServiceState(cache, realIp.value);
      for i := 0 to |schemes|
        invariant Valid()
        invariant attempts == old(attempts) + Exhausted(schemes[..i])
        invariant TestRun(start, proxy, schemes, 0, net, timeoutSecs)
               == TestRun(ServiceState(cache, realIp.value), proxy, schemes, i, net, timeoutSecs)
      {
        ghost var before := ServiceState(cache, realIp.value);
        TestRunStep(before, proxy, schemes, i, net, timeoutSecs);
        r := RetryScheme(proxy, schemes[i], net);
        if r.Ok? {
          won := i;
          return;
        }
        ExhaustedSnoc(schemes, i);
        LogAppendAssoc(old(attempts), Exhausted(schemes[..i]), FailedAttempts(schemes[i], 3));
      }
      assert schemes[..|schemes|] == schemes;
      return Err(TestFailed), won;
    }
  }
}
