/**
 * `StringProxyRepository`: the proxy list given inline on the command line,
 * split at commas, and its `stream_proxies`.
 */
module StringRepository {
  import opened Wrappers
  import opened Text
  import opened Domain
  import opened ProxyList

  datatype StringProxyRepository = StringProxyRepository(proxies: seq<string>)

  /** `StringProxyRepository::new`: the comma-separated segments, each trimmed,
      blank ones dropped, in input order. */
  function New(raw: string): (repo: StringProxyRepository)
    ensures |repo.proxies| <= Count(raw, ',') + 1
    ensures forall e :: e in repo.proxies ==> e != [] && Trim(e) == e && ',' !in e
  {
    NewEntriesValid(raw);
    StringProxyRepository(NonEmptyTrimmed(Split(raw, ',')))
  }

  lemma NewEntriesValid(raw: string)
    ensures forall e :: e in NonEmptyTrimmed(Split(raw, ',')) ==> e != [] && Trim(e) == e && ',' !in e
  {
    var segments := Split(raw, ',');
    forall e | e in NonEmptyTrimmed(segments)
      ensures e != [] && Trim(e) == e && ',' !in e
    {
      NonEmptyTrimmedEntries(segments, e);
      var k :| 0 <= k < |segments| && Trim(segments[k]) == e && e != [];
      assert ',' !in segments[k];
    }
  }

  /** What `stream_proxies` leads to: the proxies sent into the channel, in
      no particular order, or a panic. */
  datatype Stream = Streamed(sent: multiset<Proxy>) | Panicked

  /** `stream_proxies`: a channel sized by the number of entries (tokio panics
      on a zero-sized channel), then one send for every entry that parses. */
  method StreamProxies(repo: StringProxyRepository, maxWorker: nat) returns (out: Stream)
    requires maxWorker >= 1
    ensures out.Panicked? <==> repo.proxies == []
    ensures out.Streamed? ==> out.sent == multiset(ParsedProxies(repo.proxies))
  {
    if |repo.proxies| == 0 {
      return Panicked;
    }
    var sent: multiset<Proxy> := multiset{};
    for i := 0 to |repo.proxies|
      invariant sent == multiset(ParsedProxies(repo.proxies[..i]))
    {
      ParsedProxiesPrefix(repo.proxies, i);
      var parsed := FromStr(repo.proxies[i]);
      if parsed.Ok? {
        sent := sent + multiset{parsed.value};
      }
    }
    assert repo.proxies[..|repo.proxies|] == repo.proxies;
    return Streamed(sent);
  }

  // ---------------------------------------------------------------------------
  // Properties
  // ---------------------------------------------------------------------------

  /** Segments keep their input order: the entries of `a,b` are those of `a`
      followed by those of `b`. */
  lemma NewKeepsOrder(a: string, b: string)
    ensures New(a + "," + b).proxies == New(a).proxies + New(b).proxies
  {
    SplitConcat(a, ',', b);
    FilterMapAppend(Split(a, ','), Split(b, ','), KeepTrimmed);
  }

  /** Joining valid entries with commas and building a repository from the
      text gives the same entries back. */
  lemma NewOfJoin(entries: seq<string>)
    requires forall k :: 0 <= k < |entries| ==> entries[k] != [] && Trim(entries[k]) == entries[k] && ',' !in entries[k]
    ensures New(Join(entries, ',')).proxies == entries
  {
    if entries == [] {
      var empty: string := [];
      SplitNone(empty, ',');
      assert [empty][..0] == [];
      assert Trim(empty) == [];
    } else {
      SplitJoin(entries, ',');
      FilterMapKeepsAll(entries, KeepTrimmed);
    }
  }

  /** Building a repository from the comma-joined entries of one gives it back. */
  lemma NewIdempotent(raw: string)
    ensures New(Join(New(raw).proxies, ',')) == New(raw)
  {
    var entries := New(raw).proxies;
    assert forall k :: 0 <= k < |entries| ==> entries[k] in entries;
    NewOfJoin(entries);
  }

  /** A text without commas is one segment: the repository holds it trimmed,
      or nothing when it is blank. With `NewKeepsOrder` this fixes `New` on
      every input. */
  lemma NewOfSegment(segment: string)
    requires ',' !in segment
    ensures New(segment).proxies == if Trim(segment) == [] then [] else [Trim(segment)]
  {
    SplitNone(segment, ',');
    assert [segment][..0] == [];
  }

  /** A proxy is sent exactly when some entry parses to it; malformed entries
      are dropped without a trace. */
  lemma StreamedMembers(repo: StringProxyRepository, p: Proxy)
    ensures p in multiset(ParsedProxies(repo.proxies)) <==> exists k :: 0 <= k < |repo.proxies| && FromStr(repo.proxies[k]) == Ok(p)
  {
    ParsedProxiesMembers(repo.proxies, p);
  }
}
