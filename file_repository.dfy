/**
 * `FileProxyRepository`: the proxy list read line by line from a file, and
 * its `stream_proxies`. The file system is a map from paths to the sequence
 * of results that successive line reads give; a path not in the map cannot
 * be opened.
 */
module FileRepository {
  import opened Wrappers
  import opened Text
  import opened Domain
  import opened ProxyList
  import StringRepository

  /** One `next_line` result before end of file: a line, or a read error. */
  datatype LineRead = Line(text: string) | ReadError

  datatype FileProxyRepository = FileProxyRepository(path: string)

  /** The lines that `while let Ok(Some(line))` sees: those before the first
      read error, or all of them. */
  function LinesBeforeError(results: seq<LineRead>): (lines: seq<string>)
    ensures |lines| <= |results|
    ensures forall k :: 0 <= k < |lines| ==> results[k] == Line(lines[k])
    ensures |lines| < |results| ==> results[|lines|] == ReadError
    decreases |results|
  {
    if results == [] || results[0].ReadError? then []
    else [results[0].text] + LinesBeforeError(results[1..])
  }

  /** What the file's lines forward: trimmed, blank ones skipped, parsed. */
  function Forwarded(results: seq<LineRead>): seq<Proxy> {
    ParsedProxies(NonEmptyTrimmed(LinesBeforeError(results)))
  }

  /** `stream_proxies`: open the file (a failure ends the reading task, yet
      the call still returns `Ok`), then read lines until end of file or the
      first read error; each line is trimmed, skipped when blank, and sent
      when it parses. */
  method StreamProxies(repo: FileProxyRepository, maxConcurrent: nat, files: map<string, seq<LineRead>>)
    returns (r: Result<multiset<Proxy>, AppError>)
    requires maxConcurrent >= 1
    ensures r.Ok?
    ensures repo.path !in files ==> r.value == multiset{}
    ensures repo.path in files ==> r.value == multiset(Forwarded(files[repo.path]))
  {
    if repo.path !in files {
      return Ok(multiset{});
    }
    var results := files[repo.path];
    var sent: multiset<Proxy> := multiset{};
    var i := 0;
    ghost var seen: seq<string> := [];
    while i < |results| && results[i].Line?
      invariant i <= |results|
      invariant forall k :: 0 <= k < i ==> results[k].Line?
      invariant seen == LinesBeforeError(results[..i])
      invariant sent == multiset(ParsedProxies(NonEmptyTrimmed(seen)))
      decreases |results| - i
    {
      LinesStep(results, i);
      ForwardedSnoc(seen, results[i].text);
      var line := Trim(results[i].text);
      seen := seen + [results[i].text];
      i := i + 1;
      if line == [] {
        continue;
      }
      var parsed := FromStr(line);
      if parsed.Ok? {
        sent := sent + multiset{parsed.value};
      }
    }
    LinesStop(results, i);
    return Ok(sent);
  }

  // ---------------------------------------------------------------------------
  // Properties
  // ---------------------------------------------------------------------------

  /** Reads that are all lines are seen in full. */
  lemma AllLinesSeen(results: seq<LineRead>)
    requires forall k :: 0 <= k < |results| ==> results[k].Line?
    ensures |LinesBeforeError(results)| == |results|
    ensures forall k :: 0 <= k < |results| ==> LinesBeforeError(results)[k] == results[k].text
  {
  }

  lemma LinesStep(results: seq<LineRead>, i: nat)
    requires i < |results|
    requires forall k :: 0 <= k <= i ==> results[k].Line?
    ensures LinesBeforeError(results[..i + 1]) == LinesBeforeError(results[..i]) + [results[i].text]
  {
    AllLinesSeen(results[..i + 1]);
    AllLinesSeen(results[..i]);
  }

  lemma LinesStop(results: seq<LineRead>, i: nat)
    requires i <= |results|
    requires forall k :: 0 <= k < i ==> results[k].Line?
    requires i == |results| || results[i].ReadError?
    ensures LinesBeforeError(results) == LinesBeforeError(results[..i])
  {
    AllLinesSeen(results[..i]);
  }

  /** Reading stops at the first read error: nothing after it is ever seen. */
  lemma {:induction false} ErrorHidesLater(before: seq<LineRead>, after: seq<LineRead>)
    ensures LinesBeforeError(before + [ReadError] + after) == LinesBeforeError(before)
    decreases |before|
  {
    var all := before + [ReadError] + after;
    if before == [] {
      assert all[0] == ReadError;
    } else if before[0].Line? {
      assert all[1..] == before[1..] + [ReadError] + after;
      ErrorHidesLater(before[1..], after);
    }
  }

  /** Skipping blank lines is redundant: the parser rejects them anyway. */
  lemma BlankSkipIsRedundant(results: seq<LineRead>)
    ensures Forwarded(results) == ParsedProxies(TrimAll(LinesBeforeError(results)))
  {
    BlankSkipRedundant(LinesBeforeError(results));
  }

  /** A file whose lines are the comma segments of a text forwards the same
      proxies as the inline list given as that text. */
  lemma FileAgreesWithInlineList(raw: string)
    ensures Forwarded(Map(Split(raw, ','), (t: string) => Line(t)))
         == ParsedProxies(StringRepository.New(raw).proxies)
  {
    var segments := Split(raw, ',');
    var results := Map(segments, (t: string) => Line(t));
    forall k | 0 <= k < |results|
      ensures results[k] == Line(segments[k])
    {
      MapAt(segments, (t: string) => Line(t), k);
    }
    AllLinesSeen(results);
    assert LinesBeforeError(results) == segments;
  }
}
