# KPAC proxy scout, modelled in Dafny

This project models `KPAC::ProxyScout`, the kded module that answers
`proxiesForUrl` and `proxyForUrl` for KIO by running a proxy
auto-configuration (PAC) script. The module finds the script by WPAD
discovery, or downloads it from a configured URL or file. It queues the
requests that arrive while the fetch is running and answers them once it
finishes. It reads the script's `"PROXY host:port; SOCKS5 host:port; DIRECT"`
answers into proxy URLs. It hides proxies reported as failing for 30 minutes.
After a failed fetch it answers DIRECT for 5 minutes.

Layout:

- `foreign.dfy`: module `Foreign`. The pieces the resolver calls and does not
  implement, reduced to values:
  - the loaded script, as a function from URL to directive text or error;
  - the outcome of building a fetched script;
  - the `QUrl` and `KProtocolInfo` services, as functions.
- `qttext.dfy`: module `QtText`. The `QString` operations the parser relies on:
  - `trimmed`, `indexOf`;
  - `split`, with and without skipping empty parts, with its inverse `join`;
  - case-insensitive comparison.
- `directives.dfy`: module `Directives`.
  - `proxyTypeFor`.
  - The per-segment half of `handleRequest`: mode and address, the type, and
    the `http://` or `socks://` prefix for an address without a known protocol.
- `resolution.dfy`: module `Resolution`. The blacklist half of `handleRequest`:
  - the loop as a prefix-recursive function;
  - a stateless reference (`Survivors`, `Evicted`) that it is proved against;
  - `Resolve`, the whole of `handleRequest` on values.
- `scout.dfy`: module `Scout`.
  - The class `ProxyScout`, whose fields are the object's members
    (suspend time, script, fetcher, watcher, blacklist, request queue) plus
    the log of the replies it sends on the session bus and the log of the
    fetches it issues (a new WPAD Discovery's probe, or a `download` of a URL).
  - Its methods, with the loops of `handleRequest` and `downloadResult`
    proved against `Resolve` and `Drain`.
  - Four scenarios that run a sequence of calls.

The wall-clock time (`std::time`) is the `now` parameter of every
time-dependent operation. The configuration (`KProtocolManager::proxyType`
and `proxyConfigScript`) is the `config` parameter. A D-Bus message is
identified by a transaction number.

Behaviour of the code worth noting, which the model follows:

- The blacklist is keyed by the address as listed, which is the normalised
  form (`http://10.0.0.1:8080`). Blacklisting the raw `10.0.0.1:8080` hides
  nothing (`Resolution.RawAddressNotBlacklisted`).
- An error thrown while evaluating a loaded script degrades only that
  request to DIRECT. It does not start the suspension.
- There is no generation counter, and none is needed: `reset` deletes the
  fetcher, and with it the connection that would deliver its result, so a
  fetch started before a reset never reaches `downloadResult`. In the model
  `Reset` leaves no fetcher and `DownloadResult` requires one.
- `reset` keeps the request queue.
- After a failed fetch the fetcher is kept. Once the 5 minutes have
  passed, a request is queued behind that fetcher and no new fetch is
  started: the one Discovery probe stays the only fetch issued
  (`Scout.FailedFetch`).
- A failed fetch answers every queued request with the single string
  `"DIRECT"`, also the requests that asked for the whole list.
- A script is built only when none is loaded. A second successful fetch
  keeps the old script.
- `Discovery` derives from `Downloader` (its header is not part of this
  model), so the PAC branch of `startDownload` never discards an existing
  fetcher: a Discovery is kept and asked to download the configured script.
  Neither request method calls `startDownload` while a fetcher exists, so
  this shows only when `startDownload` is called directly.

## Model

| member | source | states |
|---|---|---|
| QtText.TrimStart | src/kpac/proxyscout.cpp:301 | the leading-white-space half of `trimmed` (`TrimStartSpec` states what it drops and keeps) |
| QtText.TrimEnd | src/kpac/proxyscout.cpp:301 | the trailing-white-space half of `trimmed` (`TrimEndSpec` states what it drops and keeps) |
| QtText.Trim | src/kpac/proxyscout.cpp:301-314 | `trimmed`, as the trailing half after the leading half (`TrimIsSlice` and `TrimEnds` state what it keeps) |
| QtText.TrimIsSlice | src/kpac/proxyscout.cpp:301 | `trimmed` cuts one slice out of the text and drops only white space around it |
| QtText.TrimEnds | src/kpac/proxyscout.cpp:301 | a trimmed text has no white space at either end |
| QtText.TrimIdempotent | src/kpac/proxyscout.cpp:307 | trimming an already trimmed segment changes nothing |
| QtText.TrimStartSpec | src/kpac/proxyscout.cpp:301 | the leading white space goes, the rest is a suffix that starts with a non-space |
| QtText.TrimEndSpec | src/kpac/proxyscout.cpp:301 | the trailing white space goes, the rest is a prefix that ends with a non-space |
| QtText.IndexOf | src/kpac/proxyscout.cpp:307-308 | `indexOf` is -1 exactly when the character is absent, and otherwise a position holding it |
| QtText.IndexOfFirst | src/kpac/proxyscout.cpp:307-308 | no occurrence of the character comes before the position `indexOf` finds |
| QtText.Split | src/kpac/proxyscout.cpp:302 | `split` never gives an empty list |
| QtText.SplitSeparatorFree | src/kpac/proxyscout.cpp:302 | no part of a split contains the separator |
| QtText.SplitAtFirst | src/kpac/proxyscout.cpp:302 | a split starts with the text before the first separator, followed by the split of the rest |
| QtText.JoinCons | src/kpac/proxyscout.cpp:302 | joining puts exactly one separator between consecutive parts |
| QtText.JoinSplit | src/kpac/proxyscout.cpp:302 | joining the parts of a split with the separator gives the text back |
| QtText.SplitJoin | src/kpac/proxyscout.cpp:302 | splitting a join of separator-free parts gives the parts back |
| QtText.SkipEmpty | src/kpac/proxyscout.cpp:302 | `SkipEmptyParts` never gives more parts than the split had |
| QtText.SkipEmptySpec | src/kpac/proxyscout.cpp:302 | `SkipEmptyParts` keeps only parts of the split, none of them empty |
| QtText.SkipEmptyKeeps | src/kpac/proxyscout.cpp:302 | every non-empty part survives `SkipEmptyParts` |
| QtText.SkipEmptyOfNonEmpty | src/kpac/proxyscout.cpp:302 | a list without empty parts is unchanged by `SkipEmptyParts` |
| QtText.FoldCase | src/kpac/proxyscout.cpp:61-70 | a character folds to a lower-case ASCII letter exactly when it is an ASCII letter, LATIN SMALL LETTER LONG S or KELVIN SIGN |
| QtText.EqualsIgnoringCase | src/kpac/proxyscout.cpp:61-70 | `compare(_, Qt::CaseInsensitive) == 0`: equal length and equal case folds position by position |
| QtText.EqualsIgnoringCaseIsFoldedEquality | src/kpac/proxyscout.cpp:61-70 | `compare(_, Qt::CaseInsensitive) == 0` holds exactly when the folded texts are equal |
| Directives.ProxyTypeFor | src/kpac/proxyscout.cpp:59-75 | `proxyTypeFor`: the chain PROXY, DIRECT, SOCKS or SOCKS5, else Unknown (`ProxyTypeForSpelling` states both directions of each case) |
| Directives.ProxyTypeForSpelling | src/kpac/proxyscout.cpp:59-75 | PROXY, DIRECT and SOCKS (or SOCKS5) are recognised in any case; every other spelling is Unknown (both directions) |
| Directives.ProxyTypeForIgnoresCase | src/kpac/proxyscout.cpp:59-75 | two spellings that differ only in case get the same type |
| Directives.KeywordTypes | src/kpac/proxyscout.cpp:59-75 | the upper-case keywords classify as PROXY, DIRECT and SOCKS |
| Directives.ModeAndAddress | src/kpac/proxyscout.cpp:308-315 | the mode and address of a trimmed segment (`ModeAndAddressSpec` states them) |
| Directives.ModeAndAddressSpec | src/kpac/proxyscout.cpp:307-314 | the mode is the text before the first space and the address the trimmed rest; a segment without a space is both |
| Directives.ModeAndAddressAtFirstSpace | src/kpac/proxyscout.cpp:307-314 | a mode without spaces, a space and a rest split into the mode and the trimmed rest |
| Directives.ModeAndAddressOfSegment | src/kpac/proxyscout.cpp:306-314 | white space, a mode, a space and a trimmed address read as that mode and address |
| Directives.ModeAndAddressOfWord | src/kpac/proxyscout.cpp:306-310 | a segment of one word reads as that word for both mode and address |
| Directives.HasKnownProtocol | src/kpac/proxyscout.cpp:323-324 | the address has a `:` and the text before the first one is a known protocol |
| Directives.NormalizeAddress | src/kpac/proxyscout.cpp:322-332 | an address with a known protocol is kept; otherwise it is `http://` or `socks://` plus the address, parsed; it is dropped exactly when that URL is invalid |
| Directives.ParseSegment | src/kpac/proxyscout.cpp:305-333 | a segment that yields a candidate never has the Unknown type |
| Directives.ParseSegmentSpec | src/kpac/proxyscout.cpp:305-333 | an Unknown mode is dropped; DIRECT always yields its address; PROXY and SOCKS are dropped exactly when their address cannot be normalised, and keep their type |
| Directives.ParseSegmentOfProxy | src/kpac/proxyscout.cpp:317-333 | a PROXY or SOCKS segment yields its normalised address, or nothing when normalisation fails |
| Directives.ParseProxySegment | src/kpac/proxyscout.cpp:305-333 | `PROXY a` and `SOCKS5 a` yield `a` normalised with their own type, or nothing |
| Directives.ParseDirectSegment | src/kpac/proxyscout.cpp:305-320 | `DIRECT` with any leading white space yields a DIRECT candidate `DIRECT` |
| Directives.Segments | src/kpac/proxyscout.cpp:301-302 | the result trimmed, split on `;`, empty parts skipped (`SegmentsSpec` states what every segment is) |
| Directives.SegmentsSpec | src/kpac/proxyscout.cpp:301-302 | the segments of a result are non-empty and free of `;` |
| Directives.Contribution | src/kpac/proxyscout.cpp:305-333 | one segment adds at most one candidate |
| Directives.Candidates | src/kpac/proxyscout.cpp:304-333 | the candidates are at most as many as the segments |
| Directives.CandidatesKnown | src/kpac/proxyscout.cpp:317-320 | no candidate has the Unknown type |
| Directives.CandidatesSnoc | src/kpac/proxyscout.cpp:304 | the loop over segments extends the candidates in segment order |
| Directives.CandidatesOfOne | src/kpac/proxyscout.cpp:304 | one segment contributes its own candidate |
| Directives.CandidatesOfTwo | src/kpac/proxyscout.cpp:304 | two segments contribute in order |
| Directives.CandidatesOfThree | src/kpac/proxyscout.cpp:304 | three segments contribute in order |
| Directives.CandidatesCommonSuffix | src/kpac/proxyscout.cpp:304-333 | segment lists with equal candidates stay equal when the same segments follow |
| Directives.UnknownSegmentsContributeNothing | src/kpac/proxyscout.cpp:317-320 | removing a segment with an unknown mode leaves the candidates unchanged |
| Resolution.Step | src/kpac/proxyscout.cpp:335-341 | the blacklist test of one candidate: listed when DIRECT or not blacklisted; listed and its entry dropped when the entry is more than 1800 s old; otherwise skipped |
| Resolution.FilterAll | src/kpac/proxyscout.cpp:305-342 | the loop over the candidates, first to last (`FilterAllIsReference` states its outcome) |
| Resolution.FilterAllSnoc | src/kpac/proxyscout.cpp:335-341 | one more candidate is one more step of the blacklist check |
| Resolution.FilterOneMoreSegment | src/kpac/proxyscout.cpp:304-341 | one more segment adds at most one blacklist step to the loop |
| Resolution.Survivors | src/kpac/proxyscout.cpp:335-341 | at most one listed address per candidate |
| Resolution.Evicted | src/kpac/proxyscout.cpp:337-340 | only existing blacklist entries more than 1800 seconds old are forgotten |
| Resolution.FilterAllIsReference | src/kpac/proxyscout.cpp:304-341 | the loop lists exactly the admitted candidates, in order, and only removes the expired entries of the proxies it met; no other entry changes |
| Resolution.FilterOutcome | src/kpac/proxyscout.cpp:304-344 | the loop's list and blacklist are the reference ones, and a loop that lists nothing leaves the blacklist as it was |
| Resolution.NoSurvivorsNoEvictions | src/kpac/proxyscout.cpp:335-344 | when nothing is listed, no blacklist entry is removed |
| Resolution.DirectAlwaysListed | src/kpac/proxyscout.cpp:335-336 | a DIRECT candidate is always listed, whatever the blacklist holds |
| Resolution.BlacklistWindow | src/kpac/proxyscout.cpp:335-341 | a proxy reported at time t is hidden until `now - t > 1800` and listed again after that |
| Resolution.Resolve | src/kpac/proxyscout.cpp:297-360 | `handleRequest` never answers an empty list |
| Resolution.ResolveMeaning | src/kpac/proxyscout.cpp:297-360 | the answer is the admitted candidates in order, and falls back to `["DIRECT"]` exactly when the script threw or none is admitted, in which case the blacklist is unchanged |
| Resolution.ResolveOnlyForgetsExpired | src/kpac/proxyscout.cpp:335-341 | resolution only removes blacklist entries, only ones more than 1800 seconds old, and changes no timestamp |
| Resolution.MixedResultSegments | src/kpac/proxyscout.cpp:301-302 | `"PROXY a1; SOCKS5 a2; DIRECT"` splits into its three directives |
| Resolution.MixedResultCandidates | src/kpac/proxyscout.cpp:304-333 | those three directives read as a proxy, a SOCKS proxy and DIRECT |
| Resolution.MixedResult | src/kpac/proxyscout.cpp:297-347 | with an empty blacklist that string resolves to `[http://a1, socks://a2, DIRECT]` (as parsed) |
| Resolution.ThreeWithEmptyBlacklist | src/kpac/proxyscout.cpp:335-336 | an empty blacklist lists every candidate in order |
| Resolution.SingleProxySegments | src/kpac/proxyscout.cpp:301-302 | `"PROXY a"` is one segment |
| Resolution.SingleProxyCandidates | src/kpac/proxyscout.cpp:305-333 | `"PROXY a"` is one PROXY candidate with the normalised address |
| Resolution.BlacklistedProxyFallsBack | src/kpac/proxyscout.cpp:335-359 | a lone proxy blacklisted less than 30 minutes ago gives `["DIRECT"]` and leaves the blacklist as it was |
| Resolution.RawAddressNotBlacklisted | src/kpac/proxyscout.cpp:322-336 | the blacklist is looked up by the normalised address, so an entry for the raw address hides nothing |
| Scout.FetcherAfterStart | src/kpac/proxyscout.cpp:175-217 | WPAD and PAC always leave a fetcher: WPAD keeps a Discovery and replaces anything else by a new one; PAC keeps any existing fetcher with its class (the cast at line 189 never fails) or creates a Downloader, and records the configured script URL; other configurations leave the fetcher alone |
| Scout.ScriptLocation | src/kpac/proxyscout.cpp:198-209 | the URL a PAC downloader fetches: the local URL of the path for a local file, the configured URL otherwise |
| Scout.WatcherAfterStart | src/kpac/proxyscout.cpp:198-209 | PAC keeps a watcher exactly when the script is a local file; other configurations leave it alone |
| Scout.StartFetches | src/kpac/proxyscout.cpp:175-217 | `startDownload` issues at most one fetch; none exactly when the configuration has no script or WPAD finds its Discovery already there; a new Discovery's probe for WPAD; for PAC one download of the URL the fetcher then records |
| Scout.Failed | src/kpac/proxyscout.cpp:231-253 | the attempt fails when the download failed, or when no script was loaded and the fetched one does not build |
| Scout.QueuedRequest | src/kpac/proxyscout.cpp:77-80 | a waiting request: the message to reply to, the URL, and whether the whole list is wanted |
| Scout.ResolverOf | src/kpac/proxyscout.cpp:258-261 | the `handleRequest` called for a queued request answers as `Resolve` does for the loaded script, and never answers an empty list |
| Scout.ReplyFor | src/kpac/proxyscout.cpp:255-267 | each reply goes to the transaction of its request |
| Scout.Drain | src/kpac/proxyscout.cpp:255-267 | one reply per queued request |
| Scout.DrainTransactions | src/kpac/proxyscout.cpp:255-267 | reply i goes to the transaction of request i, so the replies follow the queue order |
| Scout.DrainSnoc | src/kpac/proxyscout.cpp:256-262 | one more queued request adds one reply at the end |
| Scout.DrainStep | src/kpac/proxyscout.cpp:256-262 | the reply to request i is added after the replies to the requests before it |
| Scout.DrainReplyAt | src/kpac/proxyscout.cpp:255-267 | reply i answers request i against the blacklist the earlier replies left: the full list when it wants all, otherwise the first entry, or `"DIRECT"` without a script |
| Scout.DirectReplies | src/kpac/proxyscout.cpp:266-268 | the failure loop's replies, one `"DIRECT"` per request (`DirectRepliesAt` states them one by one) |
| Scout.DirectRepliesAt | src/kpac/proxyscout.cpp:264-267 | the failure loop sends one `"DIRECT"` per queued request, to that request's transaction, in order |
| Scout.DrainWithoutScript | src/kpac/proxyscout.cpp:264-267 | after a failure the replies are exactly the failure loop's `"DIRECT"` replies and the blacklist is untouched |
| Scout.DrainWithScript | src/kpac/proxyscout.cpp:255-263 | after a success, request i gets the full resolved list (never empty) when it wants all, otherwise that list's first entry |
| Scout.DrainOnlyForgetsExpired | src/kpac/proxyscout.cpp:255-263 | answering the queue only forgets blacklist entries more than 1800 seconds old |
| Scout.ProxyScout.constructor | src/kpac/proxyscout.cpp:82-92 | a new scout has no script, fetcher or watcher, an empty blacklist and queue, has issued no fetch, and is not suspended |
| Scout.ProxyScout.HandleRequest | src/kpac/proxyscout.cpp:297-360 | the loop answers exactly `Resolve` of the script's evaluation and leaves the blacklist `Resolve` gives |
| Scout.ProxyScout.ProxiesForUrl | src/kpac/proxyscout.cpp:99-126 | DIRECT with nothing changed inside 300 seconds of a failure, and the suspension cleared after; DIRECT for the script's own URL; the resolved list when a script is loaded; otherwise queued (wanting all) while a fetch runs or can be started, else DIRECT; a fetch is issued only when no fetcher existed (`StartFetches`), so requests behind a running fetch issue none |
| Scout.ProxyScout.ProxyForUrl | src/kpac/proxyscout.cpp:128-155 | as ProxiesForUrl, answering the first entry and queuing requests that want one entry; no fetch is issued while a fetcher exists |
| Scout.ProxyScout.BlackListProxy | src/kpac/proxyscout.cpp:157-160 | the proxy is recorded as failing now; no other entry changes |
| Scout.ProxyScout.Reset | src/kpac/proxyscout.cpp:162-173 | script, fetcher, watcher, blacklist and suspension are cleared; the queue and the sent replies stay |
| Scout.ProxyScout.StartDownload | src/kpac/proxyscout.cpp:175-217 | true exactly for WPAD and PAC; WPAD keeps or creates a Discovery; PAC keeps any existing fetcher, or creates a Downloader when there is none, and fetches the script, watching it exactly when it is a local file; the fetches issued are `StartFetches`, and the fetcher's script URL is the last URL downloaded |
| Scout.ProxyScout.DisconnectNetwork | src/kpac/proxyscout.cpp:219-227 | a configuration that became Defined resets the scout; any other change leaves it alone |
| Scout.ProxyScout.DownloadResult | src/kpac/proxyscout.cpp:229-277 | a script is built only when none is loaded; every queued request gets one reply in order (`Drain`); the queue is emptied; the suspension starts now exactly when the fetch or the build failed |
| Scout.ProxyScout.AnswerQueued | src/kpac/proxyscout.cpp:255-263 | the success loop sends the `Drain` replies and leaves the `Drain` blacklist |
| Scout.ProxyScout.RefuseQueued | src/kpac/proxyscout.cpp:264-267 | the failure loop sends the `DirectReplies` of the queue, one `"DIRECT"` per request in order |
| Scout.ProxyScout.ProxyScriptFileChanged | src/kpac/proxyscout.cpp:279-295 | one download of the local URL of the changed file is issued, and the fetcher records that URL |
| Scout.ProxyScout.DiscoveredScriptUrl | src/kpac/proxyscout.cpp:111 | an input, not code of the scout: discovery's download of the URL it found is logged, and that URL becomes the `scriptUrl()` compared with requests |
| Scout.FailedFetch | src/kpac/proxyscout.cpp:99-126 | a failed WPAD fetch answers its waiting request DIRECT; a request 250 s later gets DIRECT at once; a request 300 s after the failure is queued behind the kept fetcher, and the one Discovery probe is the only fetch issued |
| Scout.PacFetch | src/kpac/proxyscout.cpp:229-263 | a PAC request waits for the fetch and is answered with the resolved list; the script's own URL gets DIRECT; later URLs are resolved at once; one download is issued |
| Scout.SharedFetch | src/kpac/proxyscout.cpp:119-122 | two requests that arrive while a PAC fetch is under way are queued in order and share its one download |
| Scout.WatchedScriptChanged | src/kpac/proxyscout.cpp:198-204 | a PAC script in a local file is downloaded from its local URL and watched, and a change of the file downloads it again |

## Left out

- D-Bus transport: a delayed reply is a transaction number, and `send` appends to the `replies` log.
- Notifications (`KNotification`, `i18n`) and `qWarning`/`qCritical` output: they change no state.
- The paths of `QFileSystemWatcher`: the model keeps only whether a watcher exists.
- `QNetworkConfigurationManager`: `DisconnectNetwork` receives only whether the new state is Defined.
- `KProtocolManager::reparseConfiguration`: the configuration is a parameter of each call.
- The internals of `Script`, `Discovery` and `Downloader`: a script is a function from URL to directive text or error. A build is a script or invalid. Discovery's search is left out, except that it sets the URL it fetches (`Scout.ProxyScout.DiscoveredScriptUrl`).
- `QUrl` parsing and matching, and `KProtocolInfo::isKnownProtocol`: these are functions passed in `UrlServices`.
- The plugin factory and the destructor.
- Resolution.Resolve: treats the script's answer for a URL as fixed across calls. Scripts that keep internal state, read the clock (`timeRange`, `dateRange`, `weekdayRange`) or the host's address (`myIpAddress`) can answer differently from call to call; that is not modelled.
- The clock: each call reads it once (`now`), where the source reads `std::time` afresh for every blacklist test and for the suspension stamp; each call is treated as a single instant.
- Scout.ProxyScout.ProxiesForUrl: `time_t` is an unbounded integer, so overflow of the clock is not modelled.
- QtText.FoldCase: only characters whose case fold matters when comparing with an ASCII keyword are folded.
