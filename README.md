# proxy-pulse-rs, modelled in Dafny

proxy-pulse-rs is a command-line proxy checker. It reads proxies from an inline comma-separated list or a file. It tests each proxy through every candidate scheme, with retries, and scores the proxy by latency, retry count and anonymity. This project models the logic of that tool and proves properties of it. The tool's terminal output and its network and file access are outside the model.

Modules, one per part of the program:

- `Wrappers`: `Option` and `Result`.
- `Text`: the standard-library string operations the program relies on. These are `to_lowercase`, `trim`, `find`, `contains`, `split`, `u16` parsing and `to_string`.
- `Domain`: `Proxy`, `ProxyScheme`, the value objects, the error types and `TestResult`. Also `ProxyScheme::parse` and `Proxy::from_str`.
- `HeaderAnalysis`: `analyze_headers` and `classify_proxy`.
- `Scoring`: the three band functions and `calculate_score`.
- `TestService`: `ReqwestProxyTestService`, modelled as a class.
  - It has a client cache (`map`), a write-once real-IP cell (class `OnceCell`), and a ghost log of attempts and backoff sleeps.
  - `Test` is the scheme loop. `RetryScheme` is the nested retry loop. `TryScheme`, `GetOrCreateClient` and `GetRealIp` are the steps.
  - `SchemeRun` and `TestRun` are reference runs on plain values: the cache, the cell and the winning attempt that the network's answers determine. The two loops are proved to end in exactly that state and outcome, and the reference runs carry the lemmas about first success, cache growth and the real address.
- `ProxyList`: the trim, filter and parse pipelines that the repositories and the command-line input share.
- `StringRepository`: `StringProxyRepository::new` and its `stream_proxies`.
- `FileRepository`: the line loop of `FileProxyRepository::stream_proxies`.
- `AppInput`: `AppInputDTO::from_cli`.

Modelling choices:

- **Network.** The network is an argument of type `Network`. It says whether a client can be built for a key, what the ipify lookup answers, what the two probes answer, and how many milliseconds an attempt took. Each answer is a function of the scheme and the attempt index.
- **Sleeps.** Sleeps are not performed. Each attempt is appended to the ghost `attempts` log together with the backoff that follows it.
- **Files.** Files are a `map` from path to the sequence of line reads. A read can fail (`ReadError`), and a path missing from the map is a file that cannot be opened.
- **Lowercasing.** `to_lowercase` is modelled as ASCII lowercasing plus the Kelvin sign U+212A, which lowercases to `k`. The program only compares lowercased text with ASCII scheme names and ASCII header markers. For such comparisons, these are the only characters whose lowercase form matters.
- **Trimming.** `trim` strips the full Unicode `White_Space` set, as Rust's `char::is_whitespace` does.
- **Scores.** Scores are computed on scaled integers. `10000 * final` equals `4500 * latency + 3000 * reliability + 25 * base * factor`, with the factor in percent. The result is rounded half up and clamped to 1..100.
- **Real-IP cell.** The process-wide `REAL_IP` cell is a `OnceCell` object passed to the service's constructor.
- **Empty inline list.** `StringProxyRepository::stream_proxies` opens its channel with capacity `proxies.len()`. tokio's `mpsc::channel` panics on capacity 0, so a repository holding no entries is modelled as the `Panicked` outcome.
- **Process exit.** When the inline list has no usable entry, `from_cli` prints `EmptyProxyList` and exits the process with status 1. This is modelled as `Err(EmptyProxyList)`.

Places where the repository disagrees with itself; the model follows the code:

- The `InvalidPort` message promises ports 1 to 65535. `from_str` rejects 65535, so accepted ports lie in 1..65534.
- `AppInputDTO` reads a `workers` field from the command line, while the argument declaration calls it `max_concurrent`. The model's `Cli` has `workers`.
- `DomainError::EmptyProxyList`, used by `from_cli`, is not one of the domain error variants. It is modelled as the separate `InputError`.
- `ProxyScheme` has four variants. The list returned by `get_all_scheme` is not part of this model: `Test` takes it as the `allSchemes` argument.

## Model

| member | source | states |
|---|---|---|
| Text.ToLower | src/core/domain/entities/proxy.rs:22 | same length; each character lowercased; ASCII capitals become ASCII small letters and only capitals and the Kelvin sign change |
| Text.ToLowerIdempotent | src/infrastracture/proxy_test/header_analysis.rs:4 | lowercasing twice is lowercasing once |
| Text.Trim | src/infrastracture/file/file_proxy_repository.rs:40 | the result is the input with a whitespace prefix and a whitespace suffix cut off, and it starts and ends with non-whitespace; so it is the longest such middle part |
| Text.TrimIdempotent | src/infrastracture/string/string_proxy_repository.rs:14 | trimming twice is trimming once |
| Text.Contains | src/infrastracture/proxy_test/header_analysis.rs:10-11 | true exactly when the pattern occurs somewhere in the text |
| Text.Find | src/core/domain/entities/proxy.rs:57 | returns the first position where the pattern occurs, and None exactly when it does not occur |
| Text.Split | src/infrastracture/string/string_proxy_repository.rs:13 | one more part than separators; no part contains the separator; joining the parts gives the input back |
| Text.SplitConcat | src/infrastracture/string/string_proxy_repository.rs:13 | splitting `a,b` gives the parts of `a` followed by the parts of `b` |
| Text.SplitJoin | src/infrastracture/string/string_proxy_repository.rs:13 | splitting the join of separator-free parts gives those parts back |
| Text.NatToString | src/core/domain/entities/proxy.rs:83 | the numeral has at least one digit, denotes the number and has no leading zero |
| Text.ParseU16 | src/core/domain/entities/proxy.rs:75-77 | an accepted numeral's value fits in 16 bits; the exact accepted language is ParseU16Exactly |
| Text.CanonicalNumeral | src/core/domain/entities/proxy.rs:75-83 | a numeral without a leading zero is the printed form of its own value |
| Text.ZerosThenCanonical | src/core/domain/entities/proxy.rs:75-77 | every numeral is zeros followed by the printed form of its value |
| Text.ParseU16Accepted | src/core/domain/entities/proxy.rs:75-77 | an accepted text is an optional `+`, zeros, and the printed value, which is at most 65535 |
| Text.ParseU16OfPadded | src/core/domain/entities/proxy.rs:75-77 | an optional `+`, zeros and the printed form of a value up to 65535 parse to that value |
| Text.ParseU16Exactly | src/core/domain/entities/proxy.rs:75-77 | parsing gives `v` if and only if `v` ≤ 65535 and the text is an optional `+`, then zeros, then `v` printed |
| Text.ParseU16OfNatToString | src/core/domain/entities/proxy.rs:75-83 | parsing the printed number gives it back when it is at most 65535, and fails above that |
| Text.LeadingZerosValue | src/core/domain/entities/proxy.rs:75-77 | leading zeros do not change the value of a numeral |
| Domain.ParseScheme | src/core/domain/entities/proxy.rs:21-29 | returns a scheme exactly when the lowercased text is that scheme's name, and None when it is no scheme's name |
| Domain.ParseSchemeExactly | src/core/domain/entities/proxy.rs:21-29 | parse gives scheme `sc` if and only if the lowercased text equals `sc`'s name |
| Domain.ParseSchemeName | src/core/domain/entities/proxy.rs:22-26 | every scheme's name parses back to that scheme |
| Domain.ParseEndpoint | src/core/domain/entities/proxy.rs:65-83 | on success: a well-formed proxy carrying the given scheme; otherwise InvalidIp or InvalidPort with the whole input |
| Domain.FromStr | src/core/domain/entities/proxy.rs:53-84 | every accepted proxy is well formed: non-empty colon-free host, port the canonical decimal of a number in 1..65534; InvalidScheme only when the text contains "://" |
| Domain.SchemeErrorFirst | src/core/domain/entities/proxy.rs:57-61 | when the text before the first "://" names no scheme, the result is InvalidScheme with that text, whatever follows |
| Domain.ColonCountRejected | src/core/domain/entities/proxy.rs:65-68 | without "://", a text with other than one ':' is InvalidIp |
| Domain.ColonCountRejectedAfterScheme | src/core/domain/entities/proxy.rs:57-68 | after a valid scheme, a remainder with other than one ':' is InvalidIp |
| Domain.EmptyHostRejected | src/core/domain/entities/proxy.rs:70-73 | an empty host is InvalidIp |
| Domain.BadPortRejected | src/core/domain/entities/proxy.rs:75-81 | a port that is not a u16 numeral, or that is 0 or 65535, is InvalidPort |
| Domain.OutOfRangePortRejected | src/core/domain/entities/proxy.rs:75-81 | a printed number 0 or above 65534 as port is InvalidPort |
| Domain.ParseHostPort | src/core/domain/entities/proxy.rs:53-84 | `host:p` parses to that host, port `p` and no scheme for every colon-free non-empty host and p in 1..65534 |
| Domain.ParseSchemeHostPort | src/core/domain/entities/proxy.rs:53-84 | `scheme://host:p` parses to that host, port `p` and the parsed scheme |
| Domain.FormatRoundTrip | src/core/domain/entities/proxy.rs:53-84 | every well-formed proxy, written out, parses back to itself |
| Domain.ParseFormatParse | src/core/domain/entities/proxy.rs:53-84 | writing out a parsed proxy and parsing again gives the same result |
| Domain.LeadingZerosDropped | src/core/domain/entities/proxy.rs:75-83 | a port with leading zeros is accepted and stored without them ("0080" becomes "80") |
| HeaderAnalysis.AnyContained | src/infrastracture/proxy_test/header_analysis.rs:10-11 | true exactly when some marker occurs in the text |
| HeaderAnalysis.AnalyzeHeaders | src/infrastracture/proxy_test/header_analysis.rs:3-14 | first flag iff the lowercased body contains x-forwarded-for, x-real-ip or client-ip; second iff it contains via, forwarded or proxy-connection |
| HeaderAnalysis.AnalyzeHeadersCaseInsensitive | src/infrastracture/proxy_test/header_analysis.rs:4 | the flags of a body equal the flags of its lowercased form |
| HeaderAnalysis.ForwardedForRaisesBoth | src/infrastracture/proxy_test/header_analysis.rs:6-11 | a body containing x-forwarded-for in any case raises both flags |
| HeaderAnalysis.ClassifyProxy | src/infrastracture/proxy_test/header_analysis.rs:16-29 | Transparent iff the addresses are equal or the transparent flag is set; Anonymous iff they differ, no transparent flag, proxy flag set; Elite iff they differ and neither flag is set |
| HeaderAnalysis.ClassifyMonotone | src/infrastracture/proxy_test/header_analysis.rs:22-27 | raising a header flag never makes the classification more anonymous |
| Scoring.Clamp | src/infrastracture/proxy_test/scoring.rs:49 | the result lies within the bounds and equals the input when it already does |
| Scoring.LatencyScore | src/infrastracture/proxy_test/scoring.rs:3-13 | one of 100, 90, 75, 55, 35, 20, 5; 100 exactly up to 200 ms; 5 exactly beyond 2000 ms; above 200 ms at most 90 |
| Scoring.ReliabilityScore | src/infrastracture/proxy_test/scoring.rs:15-23 | one of 100, 80, 55, 30, 10; 100 exactly at 0 retries; 10 exactly from 4 retries on |
| Scoring.AnonymityScoreX100 | src/infrastracture/proxy_test/scoring.rs:25-40 | between 45% and 100% of the level's base; the full base exactly up to 500 ms, 45% exactly beyond 2000 ms; never above 100 |
| Scoring.CalculateScore | src/infrastracture/proxy_test/scoring.rs:42-50 | the score lies in 1..100 and is the weighted sum rounded half up |
| Scoring.LatencyScoreBands | src/infrastracture/proxy_test/scoring.rs:3-13 | the latency score is one of 100, 90, 75, 55, 35, 20, 5 and is non-increasing in latency |
| Scoring.ReliabilityScoreBands | src/infrastracture/proxy_test/scoring.rs:15-23 | the reliability score is one of 100, 80, 55, 30, 10 and is non-increasing in retries |
| Scoring.AnonymityScoreOrder | src/infrastracture/proxy_test/scoring.rs:25-40 | at fixed latency Elite ≥ Anonymous ≥ Transparent; at fixed level the score does not grow with latency |
| Scoring.ScaledScoreRange | src/infrastracture/proxy_test/scoring.rs:42-47 | the weighted sum lies between 8.625 and 100 |
| Scoring.ScoreAtLeastNine | src/infrastracture/proxy_test/scoring.rs:42-49 | every score is at least 9, so the lower clamp never binds |
| Scoring.RoundMonotone | src/infrastracture/proxy_test/scoring.rs:49 | rounding does not reverse order |
| Scoring.ScoreNonIncreasingInLatency | src/infrastracture/proxy_test/scoring.rs:42-49 | higher latency never raises the score |
| Scoring.ScoreNonIncreasingInRetries | src/infrastracture/proxy_test/scoring.rs:42-49 | more retries never raise the score |
| Scoring.ScoreNonDecreasingInAnonymity | src/infrastracture/proxy_test/scoring.rs:42-49 | a more anonymous level never lowers the score |
| Scoring.ScoreOfFastElite | src/infrastracture/proxy_test/scoring.rs:42-50 | score(150 ms, 0 retries, Elite) = 100 |
| Scoring.ScoreOfSlowTransparent | src/infrastracture/proxy_test/scoring.rs:42-50 | score(1500 ms, 3 retries, Transparent) = 23 |
| TestService.ClassifyReplies | src/infrastracture/proxy_test/reqwest_test_service.rs:126-139 | Elite iff the trimmed echoed address differs from the real one and neither header flag is raised; equal addresses give Transparent |
| TestService.ForwardedForIsTransparent | src/infrastracture/proxy_test/reqwest_test_service.rs:132-139 | an echoed X-Forwarded-For header always gives Transparent |
| TestService.CandidateSchemes | src/infrastracture/proxy_test/reqwest_test_service.rs:146-150 | the declared scheme alone, or the whole scheme list in its order |
| TestService.CacheAfter | src/infrastracture/proxy_test/reqwest_test_service.rs:42-58 | a hit or a failed build leaves the cache unchanged; a successful build adds exactly that key |
| TestService.CellAfter | src/infrastracture/proxy_test/reqwest_test_service.rs:64-79 | a filled cell is kept; an empty cell takes the trimmed lookup answer, or stays empty when the lookup fails |
| TestService.AttemptOutcome | src/infrastracture/proxy_test/reqwest_test_service.rs:115-140 | success iff a client, the real address and both probe replies are all available; no client is ConnectionFailed, any other failure TestFailed; success carries the classification |
| TestService.FailedAttemptsAt | src/infrastracture/proxy_test/reqwest_test_service.rs:155-176 | failed attempt k of a scheme is logged with index k and a backoff of 100·(k+1) ms |
| TestService.ExhaustedAt | src/infrastracture/proxy_test/reqwest_test_service.rs:152-178 | when every scheme fails, log entry j is attempt j mod 3 of scheme j div 3: schemes in order, three attempts each |
| TestService.FailedAttemptsBackoff | src/infrastracture/proxy_test/reqwest_test_service.rs:173-176 | n failed attempts sleep 50·n·(n+1) ms in total (600 ms for a whole scheme) |
| TestService.ExhaustedBackoffTotal | src/infrastracture/proxy_test/reqwest_test_service.rs:152-181 | a proxy that fails every scheme has slept 600 ms per scheme |
| TestService.OnceCell.constructor | src/infrastracture/proxy_test/reqwest_test_service.rs:21 | the cell starts empty |
| TestService.OnceCell.Set | src/infrastracture/proxy_test/reqwest_test_service.rs:79 | stores the value iff the cell was empty, and otherwise leaves it unchanged |
| TestService.ReqwestProxyTestService.constructor | src/infrastracture/proxy_test/reqwest_test_service.rs:30-35 | stores the timeout, starts with an empty cache and an empty attempt log |
| TestService.ReqwestProxyTestService.GetOrCreateClient | src/infrastracture/proxy_test/reqwest_test_service.rs:37-61 | a hit returns the stored client with the cache unchanged; a miss that builds inserts the configured client under that key only; a failed build is ConnectionFailed with the cache unchanged |
| TestService.ReqwestProxyTestService.GetRealIp | src/infrastracture/proxy_test/reqwest_test_service.rs:63-81 | a filled cell is returned without a lookup; otherwise the trimmed answer is returned and stored, or TestFailed with the cell still empty |
| TestService.ReqwestProxyTestService.TryScheme | src/infrastracture/proxy_test/reqwest_test_service.rs:115-140 | keys the client by (address, port, scheme); the new cache and cell are AttemptState of the old ones and the outcome is AttemptResult, both read off the network's answers for this attempt; success carries the classification of the probe replies |
| TestService.ReqwestProxyTestService.RetryScheme | src/infrastracture/proxy_test/reqwest_test_service.rs:153-178 | the final cache and cell are those of SchemeRun from the old ones, and it succeeds iff SchemeRun does, with retries = the winning attempt; at most three attempts; failure logs three failed attempts and is TestFailed; success at attempt k logs k failures and the success, has retries = k ≤ 2, and reports the measured latency, anonymity and score |
| TestService.ReqwestProxyTestService.Test | src/infrastracture/proxy_test/reqwest_test_service.rs:145-182 | the final cache and cell are those of TestRun over the candidate schemes, and it succeeds iff TestRun has a winner, with that scheme and attempt; schemes in order; all failing gives TestFailed after three failed attempts of each; otherwise the first scheme with a success wins, earlier schemes are exhausted, no later attempt is made, and the result carries that scheme and its measurements |
| TestService.SchemeRunFirstSuccess | src/infrastracture/proxy_test/reqwest_test_service.rs:153-178 | a scheme's attempts stop at the first one that has a client, knows the real address and gets both probe answers, and fail only when no attempt does |
| TestService.TestRunNoClient | src/infrastracture/proxy_test/reqwest_test_service.rs:42-58 | when no candidate scheme can build a client, the run fails and leaves the cache and the cell as they were |
| TestService.TestRunNoAddress | src/infrastracture/proxy_test/reqwest_test_service.rs:63-81 | with an empty cell and every real-address lookup failing, the run fails whatever the probes answer and the cell stays empty |
| TestService.TestRunCache | src/infrastracture/proxy_test/reqwest_test_service.rs:42-58 | the cache only grows: old entries stay, and each new entry is the configured client of a buildable key of this proxy under a candidate scheme |
| TestService.TestRunWinner | src/infrastracture/proxy_test/reqwest_test_service.rs:152-178 | a winner is a candidate scheme and an attempt below 3; the run ends holding its client and the real address, and its probes answered |
| ProxyList.FilterMapMembers | src/infrastracture/string/string_proxy_repository.rs:29-33 | an element survives the filter-map iff some input maps to it |
| ProxyList.KeepTrimmed | src/infrastracture/string/string_proxy_repository.rs:14-16 | keeps an entry iff its trimmed text is non-empty, and keeps it trimmed |
| ProxyList.Accepted | src/core/application/dto/app_input_dto.rs:24 | keeps an entry iff `from_str` accepts it, as the well-formed proxy it parses to |
| ProxyList.NonEmptyTrimmed | src/infrastracture/string/string_proxy_repository.rs:13-16 | no more entries than the input; every kept entry is non-empty and already trimmed |
| ProxyList.ParsedProxies | src/infrastracture/string/string_proxy_repository.rs:29-33 | no more proxies than entries; every proxy produced is well formed |
| ProxyList.NonEmptyTrimmedEntries | src/infrastracture/string/string_proxy_repository.rs:13-16 | an entry is kept iff it is the non-empty trim of some input entry; kept entries are already trimmed |
| ProxyList.ParsedProxiesMembers | src/infrastracture/string/string_proxy_repository.rs:29-33 | a proxy is produced iff some entry parses to it |
| ProxyList.EmptyEntryRejected | src/core/domain/entities/proxy.rs:65-68 | the empty text is InvalidIp |
| ProxyList.BlankSkipRedundant | src/infrastracture/file/file_proxy_repository.rs:40-44 | skipping blank entries before parsing yields the same proxies as parsing every trimmed entry |
| StringRepository.New | src/infrastracture/string/string_proxy_repository.rs:12-20 | at most commas + 1 entries; every entry non-empty, trimmed and comma-free |
| StringRepository.StreamProxies | src/infrastracture/string/string_proxy_repository.rs:25-43 | panics iff the repository is empty; otherwise sends exactly the entries `from_str` accepts, as a multiset |
| StringRepository.NewKeepsOrder | src/infrastracture/string/string_proxy_repository.rs:13-17 | the entries of `a,b` are those of `a` followed by those of `b` |
| StringRepository.NewOfSegment | src/infrastracture/string/string_proxy_repository.rs:13-16 | a comma-free text gives its trim, or nothing when that is blank |
| StringRepository.NewOfJoin | src/infrastracture/string/string_proxy_repository.rs:13-17 | joining valid entries with commas and building again gives those entries back |
| StringRepository.NewIdempotent | src/infrastracture/string/string_proxy_repository.rs:12-20 | rebuilding from the joined entries gives the same repository |
| StringRepository.StreamedMembers | src/infrastracture/string/string_proxy_repository.rs:29-38 | a proxy is sent iff some stored entry parses to it |
| FileRepository.LinesBeforeError | src/infrastracture/file/file_proxy_repository.rs:39 | the lines read before the first read error or end of file, in order |
| FileRepository.StreamProxies | src/infrastracture/file/file_proxy_repository.rs:23-60 | always Ok; a file that cannot be opened sends nothing; otherwise the multiset of parsed proxies from the trimmed, non-blank lines before the first read error |
| FileRepository.ErrorHidesLater | src/infrastracture/file/file_proxy_repository.rs:39 | lines after a read error are never processed |
| FileRepository.BlankSkipIsRedundant | src/infrastracture/file/file_proxy_repository.rs:40-44 | the blank-line skip does not change which proxies are forwarded |
| FileRepository.FileAgreesWithInlineList | src/infrastracture/file/file_proxy_repository.rs:39-54 | a file holding the comma segments of a list as lines forwards the same proxies as the inline repository of that list |
| AppInput.ParseProxyList | src/core/application/dto/app_input_dto.rs:21-25 | at most commas + 1 proxies, each well formed (non-empty host without ':', port in 1..65534 without leading zeros) |
| AppInput.FromCli | src/core/application/dto/app_input_dto.rs:18-45 | no list gives no proxies; a list is an error iff no segment parses; a returned list is never empty; the other fields are copied |
| AppInput.ProxyListKeepsOrder | src/core/application/dto/app_input_dto.rs:21-25 | the proxies of `a,b` are those of `a` followed by those of `b` |
| AppInput.ProxyListOfSegment | src/core/application/dto/app_input_dto.rs:21-25 | one segment contributes its proxy when its trim parses, and nothing otherwise |
| AppInput.BlankSegmentVanishes | src/core/application/dto/app_input_dto.rs:21-25 | a blank segment adds nothing |
| AppInput.ProxyListMatchesRepository | src/core/application/dto/app_input_dto.rs:21-25 | the command-line list holds exactly the proxies, in order, that the inline repository of the same text would parse |

## Left out

- Terminal rendering: the `Display` implementations, help screens and coloured output.
- Argument declaration and path validation. The command line arrives as an already-parsed `Cli` value, so the ranges clap enforces on timeout and worker count are not carried into the model.
- Concurrency. DashMap sharding and OnceCell races are not modelled; a caller that loses the race returns its own fetched address. The Semaphore, `tokio::spawn` and `mpsc` fan-out is modelled as a sequential loop, and what is sent is a multiset because the send order is not fixed.
- Channel capacity and receivers that go away. A send to a dropped receiver is treated as delivered.
- StringRepository.StreamProxies: requires `maxWorker >= 1`, because a semaphore with no permits would leave every spawned send waiting forever.
- FileRepository.StreamProxies: requires `maxConcurrent >= 1`, for the same reason.
- The network itself: client building, the HTTP probes, the ipify lookup, `try_join!` and timing. These are answers from the `Network` argument. The test URLs and `get_all_scheme` are not part of this model.
- `get_proxy_ip` and `get_headers` are not separate members. Their trimmed and untrimmed bodies enter through `ProbeReplies` and `ClassifyReplies`.
- Sleeps: not performed; their durations are recorded in the ghost attempt log.
- Scoring.CalculateScore: computed exactly on scaled integers. That the program's f64 arithmetic gives the same rounded value, including at exact .5 ties such as 92.5, is assumed, not proved.
- `Proxy::new` and the getters are the `Proxy` datatype's constructor and fields.
- `TestResult::new` is the `TestResult` datatype's constructor.
- `src/main.rs` and the use-case wiring hold no logic beyond calling the modelled operations.
- TestService.ReqwestProxyTestService.Test: there is no `u8` overflow on the retry counter, because the loop bound keeps it at most 3.
- AppInput.ParseProxyList: its own contract states the length bound and well-formedness. Order, per-segment content and agreement with the inline repository are separate lemmas.
