/**
 * The list pipelines shared by the two repositories and the command-line
 * input: trimming entries, dropping blank ones, and keeping the entries that
 * `Proxy::from_str` accepts, in input order.
 */
module ProxyList {
  import opened Wrappers
  import opened Text
  import opened Domain

  /** `application::Error`, the error type of a repository's `stream_proxies`. */
  datatype AppError = ExternalError(message: string) | OperationFailed(message: string) | Domain(cause: DomainError) | Unexpected

  /** `filter_map`: `f` applied to each element, the `None`s dropped, order kept. */
  function FilterMap<A, B>(xs: seq<A>, f: A -> Option<B>): (r: seq<B>)
    ensures |r| <= |xs|
    decreases |xs|
  {
    if xs == [] then []
    else
      var init := FilterMap(xs[..|xs| - 1], f);
      match f(xs[|xs| - 1])
      case Some(y) => init + [y]
      case None => init
  }

  lemma {:induction false} FilterMapAppend<A, B>(xs: seq<A>, ys: seq<A>, f: A -> Option<B>)
    ensures FilterMap(xs + ys, f) == FilterMap(xs, f) + FilterMap(ys, f)
    decreases |ys|
  {
    if ys != [] {
      FilterMapAppend(xs, ys[..|ys| - 1], f);
      assert (xs + ys)[..|xs + ys| - 1] == xs + ys[..|ys| - 1];
    } else {
      assert xs + ys == xs;
    }
  }

  lemma {:induction false} FilterMapMembers<A, B>(xs: seq<A>, f: A -> Option<B>, y: B)
    ensures y in FilterMap(xs, f) <==> exists k :: 0 <= k < |xs| && f(xs[k]) == Some(y)
    decreases |xs|
  {
    if xs != [] {
      var init := xs[..|xs| - 1];
      FilterMapMembers(init, f, y);
      if exists k :: 0 <= k < |init| && f(init[k]) == Some(y) {
        var k :| 0 <= k < |init| && f(init[k]) == Some(y);
        assert f(xs[k]) == Some(y);
      }
      if exists k :: 0 <= k < |xs| && f(xs[k]) == Some(y) {
        var k :| 0 <= k < |xs| && f(xs[k]) == Some(y);
        if k < |init| {
          assert f(init[k]) == Some(y);
        }
      }
    }
  }

  /** Whatever `f` maps to satisfies `P`, so every element kept does too. */
  lemma {:induction false} FilterMapKept<A, B>(xs: seq<A>, f: A -> Option<B>, P: B -> bool)
    requires forall x :: f(x).Some? ==> P(f(x).value)
    ensures forall y :: y in FilterMap(xs, f) ==> P(y)
    decreases |xs|
  {
    if xs != [] {
      FilterMapKept(xs[..|xs| - 1], f, P);
    }
  }

  lemma {:induction false} FilterMapKeepsAll<A>(xs: seq<A>, f: A -> Option<A>)
    requires forall k :: 0 <= k < |xs| ==> f(xs[k]) == Some(xs[k])
    ensures FilterMap(xs, f) == xs
    decreases |xs|
  {
    if xs != [] {
      FilterMapKeepsAll(xs[..|xs| - 1], f);
    }
  }

  /** Elementwise `norm`. */
  function Map<A, B>(xs: seq<A>, norm: A -> B): (r: seq<B>)
    ensures |r| == |xs|
    decreases |xs|
  {
    if xs == [] then [] else Map(xs[..|xs| - 1], norm) + [norm(xs[|xs| - 1])]
  }

  lemma {:induction false} MapAt<A, B>(xs: seq<A>, norm: A -> B, k: nat)
    requires k < |xs|
    ensures Map(xs, norm)[k] == norm(xs[k])
    decreases |xs|
  {
    if k < |xs| - 1 {
      MapAt(xs[..|xs| - 1], norm, k);
    }
  }

  lemma {:induction false} MapAppend<A, B>(xs: seq<A>, ys: seq<A>, norm: A -> B)
    ensures Map(xs + ys, norm) == Map(xs, norm) + Map(ys, norm)
    decreases |ys|
  {
    if ys != [] {
      MapAppend(xs, ys[..|ys| - 1], norm);
      assert (xs + ys)[..|xs + ys| - 1] == xs + ys[..|ys| - 1];
    } else {
      assert xs + ys == xs;
    }
  }

  /** `.map(str::trim)`: every entry trimmed, nothing dropped. */
  function TrimAll(entries: seq<string>): (r: seq<string>)
    ensures |r| == |entries|
  {
    Map(entries, Trim)
  }

  /** One entry of `.map(|s| s.trim()).filter(|s| !s.is_empty())`. */
  function KeepTrimmed(s: string): (r: Option<string>)
    ensures r.Some? <==> Trim(s) != []
    ensures r.Some? ==> r.value == Trim(s) && Trim(r.value) == r.value
  {
    TrimIdempotent(s);
    if Trim(s) == [] then None else Some(Trim(s))
  }

  /** `.map(|s| s.trim()).filter(|s| !s.is_empty())`. */
  function NonEmptyTrimmed(entries: seq<string>): (r: seq<string>)
    ensures |r| <= |entries|
    ensures forall e :: e in r ==> e != [] && Trim(e) == e
  {
    FilterMapKept(entries, KeepTrimmed, (e: string) => e != [] && Trim(e) == e);
    FilterMap(entries, KeepTrimmed)
  }

  /** One entry of `.filter_map(|s| Proxy::from_str(s).ok())`. */
  function Accepted(s: string): (r: Option<Proxy>)
    ensures r.Some? <==> FromStr(s).Ok?
    ensures r.Some? ==> r.value == FromStr(s).value && WellFormed(r.value)
  {
    match FromStr(s)
    case Ok(p) => Some(p)
    case Err(_) => None
  }

  /** `.filter_map(|s| Proxy::from_str(s).ok())`: the accepted entries, parsed. */
  function ParsedProxies(entries: seq<string>): (r: seq<Proxy>)
    ensures |r| <= |entries|
    ensures forall p :: p in r ==> WellFormed(p)
  {
    FilterMapKept(entries, Accepted, WellFormed);
    FilterMap(entries, Accepted)
  }

  // ---------------------------------------------------------------------------
  // Properties
  // ---------------------------------------------------------------------------

  /** One more entry adds its proxy when it parses, and nothing otherwise. */
  lemma ParsedProxiesPrefix(entries: seq<string>, i: nat)
    requires i < |entries|
    ensures ParsedProxies(entries[..i + 1])
         == ParsedProxies(entries[..i]) + (if FromStr(entries[i]).Ok? then [FromStr(entries[i]).value] else [])
  {
    assert entries[..i + 1][..i] == entries[..i];
  }

  /** One more line: kept when it is not blank after trimming, then parsed. */
  lemma ForwardedSnoc(entries: seq<string>, e: string)
    ensures ParsedProxies(NonEmptyTrimmed(entries + [e]))
         == ParsedProxies(NonEmptyTrimmed(entries))
            + (if Trim(e) == [] || FromStr(Trim(e)).Err? then [] else [FromStr(Trim(e)).value])
  {
    var kept := if Trim(e) == [] then [] else [Trim(e)];
    NonEmptyTrimmedSnoc(entries, e);
    FilterMapAppend(NonEmptyTrimmed(entries), kept, Accepted);
    ParsedProxiesSingle(kept);
  }

  lemma NonEmptyTrimmedSnoc(entries: seq<string>, e: string)
    ensures NonEmptyTrimmed(entries + [e]) == NonEmptyTrimmed(entries) + (if Trim(e) == [] then [] else [Trim(e)])
  {
    assert (entries + [e])[..|entries|] == entries;
  }

  lemma ParsedProxiesSingle(kept: seq<string>)
    requires |kept| <= 1
    ensures ParsedProxies(kept) == if kept == [] || FromStr(kept[0]).Err? then [] else [FromStr(kept[0]).value]
  {
    if kept != [] {
      assert kept[..0] == [];
    }
  }

  /** Every kept entry is non-empty and already trimmed. */
  lemma NonEmptyTrimmedEntries(entries: seq<string>, e: string)
    ensures e in NonEmptyTrimmed(entries) <==> exists k :: 0 <= k < |entries| && Trim(entries[k]) == e && e != []
    ensures e in NonEmptyTrimmed(entries) ==> Trim(e) == e
  {
    FilterMapMembers(entries, KeepTrimmed, e);
    if e in NonEmptyTrimmed(entries) {
      var k :| 0 <= k < |entries| && KeepTrimmed(entries[k]) == Some(e);
    }
    if exists k :: 0 <= k < |entries| && Trim(entries[k]) == e && e != [] {
      var k :| 0 <= k < |entries| && Trim(entries[k]) == e && e != [];
      assert KeepTrimmed(entries[k]) == Some(e);
    }
  }

  /** A proxy is kept exactly when some entry parses to it. */
  lemma ParsedProxiesMembers(entries: seq<string>, p: Proxy)
    ensures p in ParsedProxies(entries) <==> exists k :: 0 <= k < |entries| && FromStr(entries[k]) == Ok(p)
  {
    FilterMapMembers(entries, Accepted, p);
    if p in ParsedProxies(entries) {
      var k :| 0 <= k < |entries| && Accepted(entries[k]) == Some(p);
      assert FromStr(entries[k]) == Ok(p);
    }
    if exists k :: 0 <= k < |entries| && FromStr(entries[k]) == Ok(p) {
      var k :| 0 <= k < |entries| && FromStr(entries[k]) == Ok(p);
      assert Accepted(entries[k]) == Some(p);
    }
  }

  /** The empty text is not a proxy: it has no ':' to split the port off. */
  lemma EmptyEntryRejected()
    ensures FromStr([]) == Err(InvalidIp([]))
  {
    assert Find([], "://") == None;
    SplitNone([], ':');
  }

  /** A filter whose every dropped element `parse` would reject anyway can be
      replaced by the plain map before parsing. */
  lemma {:induction false} FilterBeforeParse<A, B, C>(xs: seq<A>, keep: A -> Option<B>, norm: A -> B, parse: B -> Option<C>)
    requires forall x :: keep(x) == Some(norm(x)) || (keep(x) == None && parse(norm(x)) == None)
    ensures FilterMap(FilterMap(xs, keep), parse) == FilterMap(Map(xs, norm), parse)
    decreases |xs|
  {
    if xs != [] {
      var init, last := xs[..|xs| - 1], xs[|xs| - 1];
      FilterBeforeParse(init, keep, norm, parse);
      var part := if keep(last).Some? then [keep(last).value] else [];
      assert FilterMap(xs, keep) == FilterMap(init, keep) + part;
      FilterMapAppend(FilterMap(init, keep), part, parse);
      assert xs[..|xs| - 1] == init;
      FilterMapAppend(Map(init, norm), [norm(last)], parse);
      assert [norm(last)][..0] == [];
      if part != [] {
        assert part[..0] == [];
      }
    }
  }

  /** Dropping blank entries before parsing changes nothing, since the parser
      rejects the empty text anyway. */
  lemma BlankSkipRedundant(entries: seq<string>)
    ensures ParsedProxies(NonEmptyTrimmed(entries)) == ParsedProxies(TrimAll(entries))
  {
    EmptyEntryRejected();
    FilterBeforeParse(entries, KeepTrimmed, Trim, Accepted);
  }
}
