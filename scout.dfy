/*
 * `KPAC::ProxyScout` (src/kpac/proxyscout.cpp): the object that answers
 * proxiesForUrl / proxyForUrl over D-Bus. It owns the loaded script, the
 * fetcher (WPAD discovery or a plain downloader), the file-watcher flag, the
 * blacklist, the queue of requests that wait for a fetch, and the time of the
 * last failed fetch. Time is the `now` parameter of each call; the replies
 * the object sends itself (`QDBusConnection::sessionBus().send`) are
 * appended to `replies`.
 */
module Scout {
  import opened Foreign
  import opened Directives
  import opened Resolution
  import Sequences

  /** How long after a failed fetch every request is answered DIRECT, in seconds. */
  const SuspendSeconds := 300

  /** The fetcher classes: WPAD `Discovery`, or a `Downloader` of a configured script URL. */
  datatype FetcherKind = Discovery | Downloader

  /** `m_downloader`: its class and `scriptUrl()`, the URL it last fetched (empty when new). */
  datatype Fetcher = Fetcher(kind: FetcherKind, scriptUrl: string)

  /** `KProtocolManager::proxyType()`, with `proxyConfigScript()` for the PAC case. */
  datatype ProxyConfig = NoProxy | ManualProxy | PacProxy(configScript: string) | WpadProxy | EnvVarProxy

  /** `ProxyScout::QueuedRequest`: the D-Bus message to reply to, the URL, and whether the whole list is wanted. */
  datatype QueuedRequest = QueuedRequest(transaction: nat, url: string, sendAll: bool)

  /** The value of a reply: a proxy list (`QStringList`) or one entry (`QString`). */
  datatype ReplyValue = ProxyList(proxies: seq<string>) | ProxyString(proxy: string)

  /** `transaction.createReply(value)`, as sent on the session bus. */
  datatype Reply = Reply(transaction: nat, value: ReplyValue)

  /** What a D-Bus call returns: a value now, or nothing yet because the reply was delayed. */
  datatype Answer<T> = Immediate(value: T) | Deferred

  /** Whether `startDownload` can start a fetch for the configuration: only for WPAD and PAC. */
  predicate StartsFetch(config: ProxyConfig)
  {
    config.WpadProxy? || config.PacProxy?
  }

  /** The URL a PAC downloader fetches: a local file goes through `QUrl::fromLocalFile(url.path())`. */
  function ScriptLocation(configScript: string, urls: UrlServices): string
  {
    if urls.isLocalFile(configScript) then urls.fromLocalFile(urls.path(configScript)) else configScript
  }

  /**
   * The fetcher after `startDownload`: WPAD keeps a Discovery and replaces
   * anything else by a new one; PAC keeps any fetcher there is (a Discovery is
   * a Downloader too, so the cast never fails), creates a Downloader when
   * there is none, and has it fetch the configured script; any other
   * configuration leaves the fetcher alone.
   */
  function FetcherAfterStart(current: Option<Fetcher>, config: ProxyConfig, urls: UrlServices): (r: Option<Fetcher>)
    ensures StartsFetch(config) ==> r.Some?
    ensures config.WpadProxy? ==> r.value.kind == Discovery
    ensures config.WpadProxy? && current.Some? && current.value.kind == Discovery ==> r == current
    ensures config.PacProxy? ==>
      && r.value.kind == (if current.Some? then current.value.kind else Downloader)
      && r.value.scriptUrl == ScriptLocation(config.configScript, urls)
    ensures !StartsFetch(config) ==> r == current
  {
    match config
    case WpadProxy =>
      if current.Some? && current.value.kind == Discovery then current else Some(Fetcher(Discovery, ""))
    case PacProxy(location) =>
      var kind := if current.Some? then current.value.kind else Downloader;
      Some(Fetcher(kind, ScriptLocation(location, urls)))
    case _ => current
  }

  /** The watcher after `startDownload`: PAC keeps one exactly when the script is a local file. */
  function WatcherAfterStart(current: bool, config: ProxyConfig, urls: UrlServices): bool
  {
    if config.PacProxy? then urls.isLocalFile(config.configScript) else current
  }

  /** A fetch the scout issues: a new WPAD `Discovery` starts probing, a `download` call fetches one URL. */
  datatype Fetch = Discover | Download(url: string)

  /**
   * The fetches `startDownload` issues: none when WPAD finds its Discovery
   * already there or the configuration has no script; a new Discovery's probe
   * for WPAD; for PAC, exactly one download of the URL the fetcher then records.
   */
  function StartFetches(current: Option<Fetcher>, config: ProxyConfig, urls: UrlServices): (r: seq<Fetch>)
    ensures |r| <= 1
    ensures r == [] <==> !StartsFetch(config) || (config.WpadProxy? && current.Some? && current.value.kind == Discovery)
    ensures config.WpadProxy? && r != [] ==> r == [Discover] && FetcherAfterStart(current, config, urls) == Some(Fetcher(Discovery, ""))
    ensures config.PacProxy? ==> r == [Download(FetcherAfterStart(current, config, urls).value.scriptUrl)]
  {
    match config
    case WpadProxy => if current.Some? && current.value.kind == Discovery then [] else [Discover]
    case PacProxy(location) => [Download(ScriptLocation(location, urls))]
    case _ => []
  }

  /** A fetch attempt failed: the download failed, or no script was loaded and the fetched one is invalid. */
  predicate Failed(success: bool, loaded: Option<Script>, build: ScriptBuild)
  {
    !success || (loaded.None? && build.Invalid?)
  }

  /** The replies of a drained queue and the blacklist they leave behind. */
  datatype Drained = Drained(replies: seq<Reply>, blackList: Blacklist)

  /** What `handleRequest` answers for a URL against a blacklist, with the new blacklist: never an empty list. */
  type Resolver = r: (string, Blacklist) -> Filtered | forall url, blackList :: |r(url, blackList).proxies| > 0
    witness (url: string, blackList: Blacklist) => Filtered(["DIRECT"], blackList)

  /** `handleRequest` with a loaded script at time `now`. */
  function ResolverOf(script: Script, now: int, urls: UrlServices): (r: Resolver)
    ensures forall url, blackList :: r(url, blackList) == Resolve(script.evaluate(url), blackList, now, urls)
  {
    var resolve := (url: string, blackList: Blacklist) => Resolve(script.evaluate(url), blackList, now, urls);
    assert forall url, blackList :: |resolve(url, blackList).proxies| > 0 by {
      forall url, blackList
        ensures |resolve(url, blackList).proxies| > 0
      {
        assert resolve(url, blackList) == Resolve(script.evaluate(url), blackList, now, urls);
      }
    }
    resolve
  }

  /**
   * The reply `downloadResult` sends one queued request, with the blacklist
   * after it: without a usable script, the string "DIRECT"; with one, the
   * full resolved list when the caller wants all of it, otherwise its first entry.
   */
  function ReplyFor(request: QueuedRequest, resolver: Option<Resolver>, blackList: Blacklist): (r: (Reply, Blacklist))
    ensures r.0.transaction == request.transaction
  {
    match resolver
    case None => (Reply(request.transaction, ProxyString("DIRECT")), blackList)
    case Some(resolve) =>
      var f := resolve(request.url, blackList);
      (Reply(request.transaction, if request.sendAll then ProxyList(f.proxies) else ProxyString(f.proxies[0])), f.blackList)
  }

  /** The loops of `downloadResult`: one reply per queued request, in queue order. */
  function Drain(queue: seq<QueuedRequest>, resolver: Option<Resolver>, blackList: Blacklist): (r: Drained)
    ensures |r.replies| == |queue|
  {
    if queue == [] then Drained([], blackList)
    else
      var before := Drain(queue[..|queue| - 1], resolver, blackList);
      var (reply, after) := ReplyFor(queue[|queue| - 1], resolver, before.blackList);
      Drained(before.replies + [reply], after)
  }

  /** Reply i goes to the transaction of request i. */
  lemma {:induction false} DrainTransactions(queue: seq<QueuedRequest>, resolver: Option<Resolver>, blackList: Blacklist)
    ensures var d := Drain(queue, resolver, blackList);
      forall i :: 0 <= i < |queue| ==> d.replies[i].transaction == queue[i].transaction
  {
    if queue != [] {
      DrainTransactions(queue[..|queue| - 1], resolver, blackList);
    }
  }

  lemma DrainSnoc(queue: seq<QueuedRequest>, request: QueuedRequest, resolver: Option<Resolver>, blackList: Blacklist)
    ensures var before := Drain(queue, resolver, blackList);
      var step := ReplyFor(request, resolver, before.blackList);
      Drain(queue + [request], resolver, blackList) == Drained(before.replies + [step.0], step.1)
  {
    assert (queue + [request])[..|queue|] == queue;
  }

  /** The reply to request i follows the replies to the requests before it. */
  lemma DrainStep(queue: seq<QueuedRequest>, i: nat, resolver: Option<Resolver>, blackList: Blacklist)
    requires i < |queue|
    ensures var before := Drain(queue[..i], resolver, blackList);
      var step := ReplyFor(queue[i], resolver, before.blackList);
      Drain(queue[..i + 1], resolver, blackList) == Drained(before.replies + [step.0], step.1)
  {
    Sequences.TakeOneMore(queue, i);
    DrainSnoc(queue[..i], queue[i], resolver, blackList);
  }

  /**
   * Reply i is the reply to request i, computed against the blacklist the
   * earlier replies left: exactly one reply per request, in order.
   */
  lemma {:induction false} DrainReplyAt(queue: seq<QueuedRequest>, resolver: Option<Resolver>, blackList: Blacklist, i: nat)
    requires i < |queue|
    ensures Drain(queue, resolver, blackList).replies[i]
            == ReplyFor(queue[i], resolver, Drain(queue[..i], resolver, blackList).blackList).0
  {
    var n := |queue|;
    var init := queue[..n - 1];
    var before := Drain(init, resolver, blackList);
    assert Drain(queue, resolver, blackList).replies
           == before.replies + [ReplyFor(queue[n - 1], resolver, before.blackList).0];
    if i < n - 1 {
      DrainReplyAt(init, resolver, blackList, i);
      assert init[..i] == queue[..i];
    } else {
      assert init == queue[..i];
    }
  }

  /** The failure loop of `downloadResult`: "DIRECT" for each queued request, in order. */
  function DirectReplies(queue: seq<QueuedRequest>): seq<Reply>
  {
    if queue == [] then []
    else DirectReplies(queue[..|queue| - 1]) + [Reply(queue[|queue| - 1].transaction, ProxyString("DIRECT"))]
  }

  /** Every queued request gets "DIRECT" on its own transaction, in queue order. */
  lemma {:induction false} DirectRepliesAt(queue: seq<QueuedRequest>)
    ensures |DirectReplies(queue)| == |queue|
    ensures forall i :: 0 <= i < |queue| ==> DirectReplies(queue)[i] == Reply(queue[i].transaction, ProxyString("DIRECT"))
  {
    if queue != [] {
      DirectRepliesAt(queue[..|queue| - 1]);
    }
  }

  /** Without a usable script every queued request is answered "DIRECT" and the blacklist is not touched. */
  lemma {:induction false} DrainWithoutScript(queue: seq<QueuedRequest>, blackList: Blacklist)
    ensures Drain(queue, None, blackList) == Drained(DirectReplies(queue), blackList)
  {
    if queue != [] {
      DrainWithoutScript(queue[..|queue| - 1], blackList);
    }
  }

  /**
   * With a script, a request that wants all of the list gets the whole
   * resolved list, never empty, and any other request gets its first entry.
   */
  lemma DrainWithScript(queue: seq<QueuedRequest>, script: Script, now: int, urls: UrlServices, blackList: Blacklist, i: nat)
    requires i < |queue|
    ensures var resolver := ResolverOf(script, now, urls);
      var f := Resolve(script.evaluate(queue[i].url), Drain(queue[..i], Some(resolver), blackList).blackList, now, urls);
      var reply := Drain(queue, Some(resolver), blackList).replies[i];
      && |f.proxies| > 0
      && reply.value == if queue[i].sendAll then ProxyList(f.proxies) else ProxyString(f.proxies[0])
  {
    DrainReplyAt(queue, Some(ResolverOf(script, now, urls)), blackList, i);
  }

  /** Draining only forgets blacklist entries, and only ones more than 30 minutes old. */
  lemma {:induction false} DrainOnlyForgetsExpired(queue: seq<QueuedRequest>, script: Script, now: int, urls: UrlServices, blackList: Blacklist)
    ensures var after := Drain(queue, Some(ResolverOf(script, now, urls)), blackList).blackList;
      && after.Keys <= blackList.Keys
      && (forall a :: a in after ==> after[a] == blackList[a])
      && (forall a :: a in blackList && a !in after ==> now - blackList[a] > BlacklistSeconds)
  {
    if queue != [] {
      var resolver := ResolverOf(script, now, urls);
      var before := Drain(queue[..|queue| - 1], Some(resolver), blackList);
      DrainOnlyForgetsExpired(queue[..|queue| - 1], script, now, urls, blackList);
      ResolveOnlyForgetsExpired(script.evaluate(queue[|queue| - 1].url), before.blackList, now, urls);
    }
  }

  class ProxyScout {
    /** The URL and protocol services of Qt and KIO the object calls. */
    const urls: UrlServices
    /** `m_suspendTime`: when the last fetch failed; 0 when not suspended. */
    var suspendTime: int
    /** `m_script`. */
    var script: Option<Script>
    /** `m_downloader`. */
    var downloader: Option<Fetcher>
    /** Whether `m_watcher` exists. */
    var watcher: bool
    /** `m_blackList`. */
    var blackList: Blacklist
    /** `m_requestQueue`. */
    var requestQueue: seq<QueuedRequest>
    /** The delayed replies sent on the session bus, oldest first. */
    var replies: seq<Reply>
    /** The fetches issued so far, oldest first. */
    var fetches: seq<Fetch>

    /**
     * A watcher exists only beside a fetcher, requests wait only while no
     * script is loaded, and a fetcher that records a script URL was last asked
     * to fetch that URL.
     */
    ghost predicate Valid()
      reads this
    {
      && (watcher ==> downloader.Some?)
      && (script.Some? ==> requestQueue == [])
      && (downloader.Some? && downloader.value.scriptUrl != [] ==> LastFetched(downloader.value.scriptUrl))
    }

    /** The most recent fetch issued downloads the URL. */
    ghost predicate LastFetched(url: string)
      reads this
    {
      fetches != [] && fetches[|fetches| - 1] == Download(url)
    }

    /** Inside the 300 seconds after a failed fetch. */
    ghost predicate Suspended(now: int)
      reads this
    {
      suspendTime != 0 && now - suspendTime < SuspendSeconds
    }

    /** The URL is the one the fetcher fetches the script from. */
    ghost predicate IsScriptUrl(url: string)
      reads this
    {
      downloader.Some? && urls.matches(url, downloader.value.scriptUrl)
    }

    constructor (urls: UrlServices)
      ensures Valid()
      ensures this.urls == urls && suspendTime == 0 && script == None && downloader == None && !watcher
      ensures blackList == map[] && requestQueue == [] && replies == [] && fetches == []
    {
      this.urls := urls;
      suspendTime := 0;
      script := None;
      downloader := None;
      watcher := false;
      blackList := map[];
      requestQueue := [];
      replies := [];
      fetches := [];
    }

    /** `handleRequest`: evaluate the loaded script for the URL and filter its answer through the blacklist. */
    method HandleRequest(url: string, now: int) returns (proxies: seq<string>)
      requires script.Some?
      modifies this`blackList
      ensures var r := Resolve(script.value.evaluate(url), old(blackList), now, urls);
        proxies == r.proxies && blackList == r.blackList
    {
      match script.value.evaluate(url) {
        case ScriptError =>
          proxies := ["DIRECT"];
        case Directives(text) =>
          var segments := Segments(text);
          var list: seq<string> := [];
          for i := 0 to |segments|
            invariant Filtered(list, blackList) == FilterAll(Candidates(segments[..i], urls), old(blackList), now)
          {
            var parsed := ParseSegment(segments[i], urls);
            FilterOneMoreSegment(segments, i, old(blackList), now, urls);
            if parsed.Some? {
              var c := parsed.value;
              if c.kind == Direct || c.address !in blackList {
                list := list + [c.address];
              } else if now - blackList[c.address] > BlacklistSeconds {
                blackList := blackList - {c.address};
                list := list + [c.address];
              }
            }
          }
          assert segments[..|segments|] == segments;
          proxies := if list != [] then list else ["DIRECT"];
      }
    }

    /** `proxiesForUrl`: the proxy list for a URL, now or as a delayed reply. */
    method ProxiesForUrl(checkUrl: string, transaction: nat, config: ProxyConfig, now: int) returns (answer: Answer<seq<string>>)
      requires Valid()
      modifies this
      ensures Valid() && replies == old(replies)
      ensures old(Suspended(now)) ==> answer == Immediate(["DIRECT"]) && unchanged(this)
      ensures !old(Suspended(now)) ==> suspendTime == 0
      ensures !old(Suspended(now)) && old(IsScriptUrl(checkUrl)) ==>
        && answer == Immediate(["DIRECT"])
        && script == old(script) && downloader == old(downloader) && watcher == old(watcher)
        && blackList == old(blackList) && requestQueue == old(requestQueue) && fetches == old(fetches)
      ensures !old(Suspended(now)) && !old(IsScriptUrl(checkUrl)) && old(script).Some? ==>
        var r := Resolve(old(script).value.evaluate(checkUrl), old(blackList), now, urls);
        && answer == Immediate(r.proxies) && blackList == r.blackList
        && script == old(script) && downloader == old(downloader) && watcher == old(watcher)
        && requestQueue == old(requestQueue) && fetches == old(fetches)
      ensures !old(Suspended(now)) && !old(IsScriptUrl(checkUrl)) && old(script).None? ==>
        var queued := old(downloader).Some? || StartsFetch(config);
        && answer == (if queued then Deferred else Immediate(["DIRECT"]))
        && requestQueue == old(requestQueue) + (if queued then [QueuedRequest(transaction, checkUrl, true)] else [])
        && downloader == (if old(downloader).Some? then old(downloader) else FetcherAfterStart(None, config, urls))
        && watcher == (if old(downloader).Some? then old(watcher) else WatcherAfterStart(old(watcher), config, urls))
        && fetches == old(fetches) + (if old(downloader).Some? then [] else StartFetches(None, config, urls))
        && script == old(script) && blackList == old(blackList)
    {
      if suspendTime != 0 {
        if now - suspendTime < SuspendSeconds {
          return Immediate(["DIRECT"]);
        }
        suspendTime := 0;
      }
      // A request for the URL the script is fetched from is answered DIRECT.
      if downloader.Some? && urls.matches(checkUrl, downloader.value.scriptUrl) {
        return Immediate(["DIRECT"]);
      }
      if script.Some? {
        var list := HandleRequest(checkUrl, now);
        return Immediate(list);
      }
      var fetching := downloader.Some?;
      if !fetching {
        fetching := StartDownload(config);
      }
      if fetching {
        requestQueue := requestQueue + [QueuedRequest(transaction, checkUrl, true)];
        return Deferred;
      }
      return Immediate(["DIRECT"]);
    }

    /** `proxyForUrl`: as proxiesForUrl, but only the first entry is answered. */
    method ProxyForUrl(checkUrl: string, transaction: nat, config: ProxyConfig, now: int) returns (answer: Answer<string>)
      requires Valid()
      modifies this
      ensures Valid() && replies == old(replies)
      ensures old(Suspended(now)) ==> answer == Immediate("DIRECT") && unchanged(this)
      ensures !old(Suspended(now)) ==> suspendTime == 0
      ensures !old(Suspended(now)) && old(IsScriptUrl(checkUrl)) ==>
        && answer == Immediate("DIRECT")
        && script == old(script) && downloader == old(downloader) && watcher == old(watcher)
        && blackList == old(blackList) && requestQueue == old(requestQueue) && fetches == old(fetches)
      ensures !old(Suspended(now)) && !old(IsScriptUrl(checkUrl)) && old(script).Some? ==>
        var r := Resolve(old(script).value.evaluate(checkUrl), old(blackList), now, urls);
        && answer == Immediate(r.proxies[0]) && blackList == r.blackList
        && script == old(script) && downloader == old(downloader) && watcher == old(watcher)
        && requestQueue == old(requestQueue) && fetches == old(fetches)
      ensures !old(Suspended(now)) && !old(IsScriptUrl(checkUrl)) && old(script).None? ==>
        var queued := old(downloader).Some? || StartsFetch(config);
        && answer == (if queued then Deferred else Immediate("DIRECT"))
        && requestQueue == old(requestQueue) + (if queued then [QueuedRequest(transaction, checkUrl, false)] else [])
        && downloader == (if old(downloader).Some? then old(downloader) else FetcherAfterStart(None, config, urls))
        && watcher == (if old(downloader).Some? then old(watcher) else WatcherAfterStart(old(watcher), config, urls))
        && fetches == old(fetches) + (if old(downloader).Some? then [] else StartFetches(None, config, urls))
        && script == old(script) && blackList == old(blackList)
    {
      if suspendTime != 0 {
        if now - suspendTime < SuspendSeconds {
          return Immediate("DIRECT");
        }
        suspendTime := 0;
      }
      // A request for the URL the script is fetched from is answered DIRECT.
      if downloader.Some? && urls.matches(checkUrl, downloader.value.scriptUrl) {
        return Immediate("DIRECT");
      }
      if script.Some? {
        var list := HandleRequest(checkUrl, now);
        return Immediate(list[0]);
      }
      var fetching := downloader.Some?;
      if !fetching {
        fetching := StartDownload(config);
      }
      if fetching {
        requestQueue := requestQueue + [QueuedRequest(transaction, checkUrl, false)];
        return Deferred;
      }
      return Immediate("DIRECT");
    }

    /** `blackListProxy`: record that the proxy failed now. */
    method BlackListProxy(proxy: string, now: int)
      modifies this`blackList
      ensures blackList == old(blackList)[proxy := now]
    {
      blackList := blackList[proxy := now];
    }

    /** `reset`: drop the script, the fetcher, the watcher, the blacklist and the suspension; waiting requests stay queued. */
    method Reset()
      requires Valid()
      modifies this
      ensures Valid()
      ensures script == None && downloader == None && !watcher && blackList == map[] && suspendTime == 0
      ensures requestQueue == old(requestQueue) && replies == old(replies) && fetches == old(fetches)
    {
      script := None;
      downloader := None;
      watcher := false;
      blackList := map[];
      suspendTime := 0;
    }

    /**
     * `startDownload`: make sure the fetcher for the configuration exists and,
     * for PAC, have it fetch the configured script (watching it when it is a
     * local file); false for a configuration without a script.
     */
    method StartDownload(config: ProxyConfig) returns (started: bool)
      requires Valid()
      modifies this`downloader, this`watcher, this`fetches
      ensures Valid()
      ensures started == StartsFetch(config)
      ensures downloader == FetcherAfterStart(old(downloader), config, urls)
      ensures watcher == WatcherAfterStart(old(watcher), config, urls)
      ensures fetches == old(fetches) + StartFetches(old(downloader), config, urls)
    {
      match config {
        case WpadProxy =>
          if downloader.Some? && downloader.value.kind != Discovery {
            downloader := None;
          }
          if downloader.None? {
            downloader := Some(Fetcher(Discovery, ""));
            fetches := fetches + [Discover];
          }
        case PacProxy(location) =>
          // Every fetcher is a Downloader, so an existing one is kept whatever its class.
          if downloader.None? {
            downloader := Some(Fetcher(Downloader, ""));
          }
          if urls.isLocalFile(location) {
            if !watcher {
              watcher := true;
            }
            ProxyScriptFileChanged(urls.path(location));
          } else {
            watcher := false;
            downloader := Some(downloader.value.(scriptUrl := location));
            fetches := fetches + [Download(location)];
          }
        case _ =>
          return false;
      }
      return true;
    }

    /** `disconnectNetwork`: a network configuration that became Defined resets everything. */
    method DisconnectNetwork(defined: bool)
      requires Valid()
      modifies this
      ensures Valid()
      ensures defined ==> script == None && downloader == None && !watcher && blackList == map[] && suspendTime == 0
      ensures !defined ==> unchanged(this)
      ensures requestQueue == old(requestQueue) && replies == old(replies) && fetches == old(fetches)
    {
      if defined {
        Reset();
      }
    }

    /**
     * `downloadResult`: the fetch finished. A script is built from the fetched
     * text only when none is loaded; a failed fetch or an invalid script makes
     * the attempt a failure. Every queued request gets one reply, the queue is
     * emptied, and a failure suspends resolution from now on.
     */
    method DownloadResult(success: bool, build: ScriptBuild, now: int)
      requires Valid() && downloader.Some?
      modifies this
      ensures Valid()
      ensures script == (if success && old(script).None? && build.Built? then Some(build.script) else old(script))
      ensures var d := Drain(old(requestQueue), if Failed(success, old(script), build) then None else Some(ResolverOf(script.value, now, urls)), old(blackList));
        replies == old(replies) + d.replies && blackList == d.blackList
      ensures requestQueue == [] && downloader == old(downloader) && watcher == old(watcher) && fetches == old(fetches)
      ensures suspendTime == (if Failed(success, old(script), build) then now else old(suspendTime))
    {
      var ok := success;
      if success && script.None? {
        match build {
          case Built(s) => script := Some(s);
          case Invalid => ok := false;
        }
      }
      assert ok == !Failed(success, old(script), build);
      ghost var resolver := if ok then Some(ResolverOf(script.value, now, urls)) else None;
      ghost var d := Drain(requestQueue, resolver, blackList);
      if ok {
        AnswerQueued(now);
      } else {
        RefuseQueued();
        DrainWithoutScript(requestQueue, blackList);
      }
      assert replies == old(replies) + d.replies && blackList == d.blackList;
      requestQueue := [];
      // A failed attempt starts the suspension.
      if !ok {
        suspendTime := now;
      }
    }

    /** The success loop of `downloadResult`: answer every queued request with the loaded script, in order. */
    method AnswerQueued(now: int)
      requires script.Some?
      modifies this`replies, this`blackList
      ensures var d := Drain(requestQueue, Some(ResolverOf(script.value, now, urls)), old(blackList));
        replies == old(replies) + d.replies && blackList == d.blackList
    {
      ghost var resolver := Some(ResolverOf(script.value, now, urls));
      for i := 0 to |requestQueue|
        invariant var d := Drain(requestQueue[..i], resolver, old(blackList));
          replies == old(replies) + d.replies && blackList == d.blackList
      {
        var request := requestQueue[i];
        DrainStep(requestQueue, i, resolver, old(blackList));
        ghost var step := ReplyFor(request, resolver, blackList);
        var list := HandleRequest(request.url, now);
        var reply := if request.sendAll then Reply(request.transaction, ProxyList(list))
                     else Reply(request.transaction, ProxyString(list[0]));
        assert reply == step.0 && blackList == step.1;
        replies := replies + [reply];
      }
      assert requestQueue[..|requestQueue|] == requestQueue;
    }

    /** The failure loop of `downloadResult`: answer every queued request "DIRECT", in order. */
    method RefuseQueued()
      modifies this`replies
      ensures replies == old(replies) + DirectReplies(requestQueue)
    {
      for i := 0 to |requestQueue|
        invariant replies == old(replies) + DirectReplies(requestQueue[..i])
      {
        Sequences.TakeOneMore(requestQueue, i);
        assert requestQueue[..i + 1][..i] == requestQueue[..i];
        replies := replies + [Reply(requestQueue[i].transaction, ProxyString("DIRECT"))];
      }
      assert requestQueue[..|requestQueue|] == requestQueue;
    }

    /**
     * `proxyScriptFileChanged`: the watched script file changed (or is first
     * watched); fetch it again from its local URL.
     */
    method ProxyScriptFileChanged(path: string)
      requires Valid() && watcher
      modifies this`downloader, this`fetches
      ensures Valid()
      ensures downloader == Some(old(downloader).value.(scriptUrl := urls.fromLocalFile(path)))
      ensures fetches == old(fetches) + [Download(urls.fromLocalFile(path))]
    {
      downloader := Some(downloader.value.(scriptUrl := urls.fromLocalFile(path)));
      fetches := fetches + [Download(urls.fromLocalFile(path))];
    }

    /**
     * An input from outside the scout: WPAD discovery found the script URL and
     * fetches it, which sets the `scriptUrl()` the scout compares requests with.
     */
    method DiscoveredScriptUrl(url: string)
      requires Valid() && downloader.Some? && downloader.value.kind == Discovery
      modifies this`downloader, this`fetches
      ensures Valid()
      ensures downloader == Some(Fetcher(Discovery, url))
      ensures fetches == old(fetches) + [Download(url)]
    {
      downloader := Some(Fetcher(Discovery, url));
      fetches := fetches + [Download(url)];
    }
  }

  /**
   * A WPAD fetch that fails: the request waiting for it is answered DIRECT;
   * a request 250 seconds later is answered DIRECT at once; a request 300
   * seconds after the failure is queued behind the fetcher of the failed
   * attempt, which is kept, so no new fetch is started for it: the one
   * Discovery probe is the only fetch ever issued.
   */
  method FailedFetch(urls: UrlServices, url: string) returns (scout: ProxyScout, first: Answer<seq<string>>, during: Answer<seq<string>>, after: Answer<seq<string>>)
    requires !urls.matches(url, "")
    ensures first == Deferred && during == Immediate(["DIRECT"]) && after == Deferred
    ensures scout.replies == [Reply(1, ProxyString("DIRECT"))]
    ensures scout.requestQueue == [QueuedRequest(3, url, true)]
    ensures scout.downloader == Some(Fetcher(Discovery, "")) && scout.suspendTime == 0
    ensures scout.fetches == [Discover]
  {
    var discovery := Some(Fetcher(Discovery, ""));
    scout := new ProxyScout(urls);
    first := scout.ProxiesForUrl(url, 1, WpadProxy, 50);
    assert scout.downloader == discovery && scout.fetches == [Discover] && scout.script == None;
    var queue := [QueuedRequest(1, url, true)];
    assert scout.requestQueue == queue;
    scout.DownloadResult(false, Invalid, 100);
    DrainWithoutScript(queue, map[]);
    assert queue[..0] == [];
    assert DirectReplies(queue) == [Reply(1, ProxyString("DIRECT"))];
    assert scout.suspendTime == 100 && scout.requestQueue == [] && scout.downloader == discovery;
    during := scout.ProxiesForUrl(url, 2, WpadProxy, 350);
    assert scout.downloader == discovery && scout.requestQueue == [] && scout.script == None;
    after := scout.ProxiesForUrl(url, 3, WpadProxy, 400);
  }

  /**
   * A PAC fetch that succeeds: the first request waits for it and is answered
   * with the resolved list once the script is built; the script's own URL is
   * answered DIRECT; any other URL is then resolved at once.
   */
  method PacFetch(urls: UrlServices, location: string, url: string, script: Script, other: string)
    returns (scout: ProxyScout, first: Answer<seq<string>>, own: Answer<seq<string>>, later: Answer<seq<string>>)
    requires !urls.isLocalFile(location) && !urls.matches(url, location)
    requires urls.matches(location, location) && !urls.matches(other, location)
    ensures first == Deferred && own == Immediate(["DIRECT"])
    ensures scout.replies == [Reply(7, ProxyList(Resolve(script.evaluate(url), map[], 20, urls).proxies))]
    ensures later == Immediate(Resolve(script.evaluate(other), map[], 40, urls).proxies)
    ensures scout.blackList == map[]
    ensures scout.requestQueue == [] && scout.suspendTime == 0 && scout.script == Some(script)
    ensures scout.fetches == [Download(location)]
  {
    scout := new ProxyScout(urls);
    first := scout.ProxiesForUrl(url, 7, PacProxy(location), 10);
    scout.DownloadResult(true, Built(script), 20);
    DrainOnlyForgetsExpired([QueuedRequest(7, url, true)], script, 20, urls, map[]);
    own := scout.ProxiesForUrl(location, 8, PacProxy(location), 30);
    later := scout.ProxiesForUrl(other, 9, PacProxy(location), 40);
    ResolveOnlyForgetsExpired(script.evaluate(other), map[], 40, urls);
  }

  /**
   * Requests that arrive while a PAC fetch is under way wait for that fetch:
   * two requests are queued in order and only one download is issued.
   */
  method SharedFetch(urls: UrlServices, location: string, first: string, second: string)
    returns (scout: ProxyScout, a: Answer<string>, b: Answer<seq<string>>)
    requires !urls.isLocalFile(location) && !urls.matches(second, location)
    ensures a == Deferred && b == Deferred
    ensures scout.requestQueue == [QueuedRequest(1, first, false), QueuedRequest(2, second, true)]
    ensures scout.fetches == [Download(location)]
  {
    scout := new ProxyScout(urls);
    a := scout.ProxyForUrl(first, 1, PacProxy(location), 10);
    b := scout.ProxiesForUrl(second, 2, PacProxy(location), 11);
  }

  /**
   * A PAC script in a local file is fetched from its local URL and watched:
   * when the file changes, the same URL is downloaded again.
   */
  method WatchedScriptChanged(urls: UrlServices, location: string, url: string)
    returns (scout: ProxyScout, answer: Answer<seq<string>>)
    requires urls.isLocalFile(location)
    ensures answer == Deferred && scout.watcher
    ensures var local := urls.fromLocalFile(urls.path(location));
      scout.fetches == [Download(local), Download(local)]
  {
    scout := new ProxyScout(urls);
    answer := scout.ProxiesForUrl(url, 1, PacProxy(location), 10);
    scout.ProxyScriptFileChanged(urls.path(location));
  }
}
