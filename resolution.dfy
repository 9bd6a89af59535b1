/*
 * The blacklist half of `ProxyScout::handleRequest` (src/kpac/proxyscout.cpp):
 * the loop that lists the candidates of a PAC result in order, hides the
 * recently failed proxies and forgets blacklist entries older than 30
 * minutes, and the fallback to DIRECT.
 */
module Resolution {
  import opened Foreign
  import opened QtText
  import opened Directives
  import Sequences

  /** `m_blackList`: proxy address to the time it was reported as failing. */
  type Blacklist = map<string, int>

  /** How long a blacklisted proxy stays hidden, in seconds. */
  const BlacklistSeconds := 1800

  /** The state the loop of handleRequest threads: the list built so far and the blacklist. */
  datatype Filtered = Filtered(proxies: seq<string>, blackList: Blacklist)

  /** The blacklist step of one iteration of the loop, for a parsed candidate. */
  function Step(c: Candidate, f: Filtered, now: int): Filtered
  {
    if c.kind == Direct || c.address !in f.blackList then
      Filtered(f.proxies + [c.address], f.blackList)
    else if now - f.blackList[c.address] > BlacklistSeconds then
      Filtered(f.proxies + [c.address], f.blackList - {c.address})
    else
      f
  }

  /** The loop of handleRequest over a list of candidates, from the first to the last. */
  function FilterAll(cands: seq<Candidate>, blackList: Blacklist, now: int): Filtered
  {
    if cands == [] then Filtered([], blackList)
    else Step(cands[|cands| - 1], FilterAll(cands[..|cands| - 1], blackList, now), now)
  }

  lemma FilterAllSnoc(cands: seq<Candidate>, c: Candidate, blackList: Blacklist, now: int)
    ensures FilterAll(cands + [c], blackList, now) == Step(c, FilterAll(cands, blackList, now), now)
  {
    assert (cands + [c])[..|cands|] == cands;
  }

  /** One more segment adds at most one step to the loop of handleRequest. */
  lemma FilterOneMoreSegment(segments: seq<string>, i: nat, blackList: Blacklist, now: int, urls: UrlServices)
    requires i < |segments|
    ensures var before := FilterAll(Candidates(segments[..i], urls), blackList, now);
      var parsed := ParseSegment(segments[i], urls);
      FilterAll(Candidates(segments[..i + 1], urls), blackList, now)
        == if parsed.None? then before else Step(parsed.value, before, now)
  {
    Sequences.TakeOneMore(segments, i);
    CandidatesSnoc(segments[..i], segments[i], urls);
    var prior := Candidates(segments[..i], urls);
    match ParseSegment(segments[i], urls) {
      case None => assert prior + [] == prior;
      case Some(c) => FilterAllSnoc(prior, c, blackList, now);
    }
  }

  /**
   * Whether a candidate is listed, judged against the blacklist as it was
   * before the loop: DIRECT always, a proxy when it is not blacklisted or its
   * entry is more than 30 minutes old.
   */
  predicate Admitted(c: Candidate, blackList: Blacklist, now: int)
  {
    c.kind == Direct || c.address !in blackList || now - blackList[c.address] > BlacklistSeconds
  }

  /** The addresses of the admitted candidates, in candidate order. */
  function Survivors(cands: seq<Candidate>, blackList: Blacklist, now: int): (r: seq<string>)
    ensures |r| <= |cands|
  {
    if cands == [] then []
    else
      var last := cands[|cands| - 1];
      Survivors(cands[..|cands| - 1], blackList, now) + (if Admitted(last, blackList, now) then [last.address] else [])
  }

  /** The blacklist entries a list of candidates lets expire: proxies whose entry is more than 30 minutes old. */
  function Evicted(cands: seq<Candidate>, blackList: Blacklist, now: int): (r: set<string>)
    ensures r <= blackList.Keys
    ensures forall a :: a in r ==> now - blackList[a] > BlacklistSeconds
  {
    if cands == [] then {}
    else
      var last := cands[|cands| - 1];
      Evicted(cands[..|cands| - 1], blackList, now)
        + (if last.kind != Direct && last.address in blackList && now - blackList[last.address] > BlacklistSeconds
           then {last.address} else {})
  }

  /**
   * The loop lists exactly the admitted candidates, in order, and its only
   * change to the blacklist is to drop the expired entries of the proxies it
   * met; no other entry changes.
   */
  lemma {:induction false} FilterAllIsReference(cands: seq<Candidate>, blackList: Blacklist, now: int)
    ensures FilterAll(cands, blackList, now)
            == Filtered(Survivors(cands, blackList, now), blackList - Evicted(cands, blackList, now))
  {
    if cands != [] {
      var init := cands[..|cands| - 1];
      var c := cands[|cands| - 1];
      FilterAllIsReference(init, blackList, now);
      var evicted := Evicted(init, blackList, now);
      var m := blackList - evicted;
      if c.kind != Direct && c.address in m && now - m[c.address] > BlacklistSeconds {
        assert m - {c.address} == blackList - (evicted + {c.address});
      } else if c.kind != Direct && c.address !in m && c.address in blackList {
        assert c.address in evicted;
        assert evicted + {c.address} == evicted;
      }
    }
  }

  /** When nothing is admitted, nothing expires either: every evicted entry belongs to an admitted proxy. */
  lemma {:induction false} NoSurvivorsNoEvictions(cands: seq<Candidate>, blackList: Blacklist, now: int)
    requires Survivors(cands, blackList, now) == []
    ensures Evicted(cands, blackList, now) == {}
  {
    if cands != [] {
      NoSurvivorsNoEvictions(cands[..|cands| - 1], blackList, now);
    }
  }

  /** Every DIRECT candidate is listed. */
  lemma {:induction false} DirectAlwaysListed(cands: seq<Candidate>, blackList: Blacklist, now: int, i: nat)
    requires i < |cands| && cands[i].kind == Direct
    ensures cands[i].address in Survivors(cands, blackList, now)
  {
    var init := cands[..|cands| - 1];
    if i < |cands| - 1 {
      assert init[i] == cands[i];
      DirectAlwaysListed(init, blackList, now, i);
    }
  }

  /** The outcome of the loop against the reference, and a loop that lists nothing leaves the blacklist alone. */
  lemma FilterOutcome(cands: seq<Candidate>, blackList: Blacklist, now: int)
    ensures var f := FilterAll(cands, blackList, now);
      && f.proxies == Survivors(cands, blackList, now)
      && f.blackList == blackList - Evicted(cands, blackList, now)
      && (f.proxies == [] ==> f.blackList == blackList)
  {
    FilterAllIsReference(cands, blackList, now);
    if Survivors(cands, blackList, now) == [] {
      NoSurvivorsNoEvictions(cands, blackList, now);
      assert blackList - {} == blackList;
    }
  }

  /**
   * `handleRequest` on values: the evaluation of the script for one URL and
   * the blacklist in, the reply list and the new blacklist out. An error
   * thrown by the script, or a result from which nothing is listed, gives
   * ["DIRECT"].
   */
  function Resolve(evaluation: Evaluation, blackList: Blacklist, now: int, urls: UrlServices): (r: Filtered)
    ensures |r.proxies| > 0
  {
    match evaluation
    case ScriptError => Filtered(["DIRECT"], blackList)
    case Directives(text) =>
      var f := FilterAll(Candidates(Segments(text), urls), blackList, now);
      if f.proxies != [] then f else Filtered(["DIRECT"], f.blackList)
  }

  /**
   * What handleRequest answers, against the stateless reference: the listed
   * candidates in order, or ["DIRECT"] exactly when the script threw or
   * nothing was admitted; in those two cases the blacklist is left as it was.
   */
  lemma ResolveMeaning(evaluation: Evaluation, blackList: Blacklist, now: int, urls: UrlServices)
    ensures var r := Resolve(evaluation, blackList, now, urls);
      match evaluation
      case ScriptError => r == Filtered(["DIRECT"], blackList)
      case Directives(text) =>
        var cands := Candidates(Segments(text), urls);
        var survivors := Survivors(cands, blackList, now);
        && r.proxies == (if survivors == [] then ["DIRECT"] else survivors)
        && r.blackList == blackList - Evicted(cands, blackList, now)
        && (survivors == [] ==> r.blackList == blackList)
  {
    match evaluation {
      case ScriptError =>
      case Directives(text) =>
        var cands := Candidates(Segments(text), urls);
        var f := FilterAll(cands, blackList, now);
        assert Resolve(evaluation, blackList, now, urls) == if f.proxies != [] then f else Filtered(["DIRECT"], f.blackList);
        FilterOutcome(cands, blackList, now);
    }
  }

  /** The resolved blacklist only loses entries, and only ones more than 30 minutes old. */
  lemma ResolveOnlyForgetsExpired(evaluation: Evaluation, blackList: Blacklist, now: int, urls: UrlServices)
    ensures var after := Resolve(evaluation, blackList, now, urls).blackList;
      && after.Keys <= blackList.Keys
      && (forall a :: a in after ==> after[a] == blackList[a])
      && (forall a :: a in blackList && a !in after ==> now - blackList[a] > BlacklistSeconds)
  {
    ResolveMeaning(evaluation, blackList, now, urls);
  }

  /** A proxy reported at time t is hidden for 30 minutes and admitted again after that. */
  lemma BlacklistWindow(kind: ProxyType, address: string, blackList: Blacklist, reported: int, now: int)
    requires kind == Proxy || kind == Socks
    ensures Admitted(Candidate(kind, address), blackList[address := reported], now) <==> now - reported > BlacklistSeconds
  {
  }

  /** The result string "PROXY a1; SOCKS5 a2; DIRECT". */
  function MixedText(a1: string, a2: string): string
  {
    "PROXY " + a1 + "; SOCKS5 " + a2 + "; DIRECT"
  }

  /** Its three `;`-separated directives. */
  function MixedParts(a1: string, a2: string): seq<string>
  {
    ["PROXY" + [' '] + a1, " " + "SOCKS5" + [' '] + a2, " " + "DIRECT"]
  }

  lemma MixedTextTrimmed(a1: string, a2: string)
    ensures Trim(MixedText(a1, a2)) == MixedText(a1, a2)
  {
    var text := MixedText(a1, a2);
    assert text[0] == 'P' && text[|text| - 1] == 'T';
    TrimUnspaced(text);
  }

  lemma MixedTextSplit(a1: string, a2: string)
    requires ';' !in a1 && ';' !in a2
    ensures Split(MixedText(a1, a2), ';') == MixedParts(a1, a2)
  {
    var parts := MixedParts(a1, a2);
    assert Join(parts[1..], ';') == parts[1] + [';'] + parts[2];
    assert MixedText(a1, a2) == Join(parts, ';');
    assert ';' !in "PROXY " && ';' !in " SOCKS5 " && ';' !in " DIRECT";
    assert ';' !in parts[0] && ';' !in parts[1] && ';' !in parts[2];
    SplitJoin(parts, ';');
  }

  /** The result string "PROXY a1; SOCKS5 a2; DIRECT" splits into its three directives. */
  lemma MixedResultSegments(a1: string, a2: string)
    requires ';' !in a1 && ';' !in a2
    ensures Segments(MixedText(a1, a2)) == MixedParts(a1, a2)
  {
    MixedTextTrimmed(a1, a2);
    MixedTextSplit(a1, a2);
    var parts := MixedParts(a1, a2);
    assert parts[0] != [] && parts[1] != [] && parts[2] != [];
    SkipEmptyOfNonEmpty(parts);
  }

  lemma MixedProxyContribution(a1: string, u1: string, urls: UrlServices)
    requires a1 != [] && Trim(a1) == a1
    requires NormalizeAddress(Proxy, a1, urls) == Some(u1)
    ensures Contribution("PROXY" + [' '] + a1, urls) == [Candidate(Proxy, u1)]
  {
    var segment := "PROXY" + [' '] + a1;
    ParseProxySegment([], Proxy, a1, urls);
    assert [] + Keyword(Proxy) + [' '] + a1 == segment;
    assert ParseSegment(segment, urls) == Some(Candidate(Proxy, u1));
  }

  lemma MixedSocksContribution(a2: string, u2: string, urls: UrlServices)
    requires a2 != [] && Trim(a2) == a2
    requires NormalizeAddress(Socks, a2, urls) == Some(u2)
    ensures Contribution(" " + "SOCKS5" + [' '] + a2, urls) == [Candidate(Socks, u2)]
  {
    assert IsSpace(" "[0]);
    ParseProxySegment(" ", Socks, a2, urls);
  }

  lemma MixedDirectContribution(urls: UrlServices)
    ensures Contribution(" " + "DIRECT", urls) == [Candidate(Direct, "DIRECT")]
  {
    assert IsSpace(" "[0]);
    ParseDirectSegment(" ", urls);
  }

  /** The three directives of that string read as a proxy, a SOCKS proxy and DIRECT. */
  lemma MixedResultCandidates(a1: string, a2: string, u1: string, u2: string, urls: UrlServices)
    requires a1 != [] && Trim(a1) == a1 && a2 != [] && Trim(a2) == a2
    requires NormalizeAddress(Proxy, a1, urls) == Some(u1) && NormalizeAddress(Socks, a2, urls) == Some(u2)
    ensures Candidates(MixedParts(a1, a2), urls)
            == [Candidate(Proxy, u1), Candidate(Socks, u2), Candidate(Direct, "DIRECT")]
  {
    var x, y, z := "PROXY" + [' '] + a1, " " + "SOCKS5" + [' '] + a2, " " + "DIRECT";
    var c1, c2, c3 := Candidate(Proxy, u1), Candidate(Socks, u2), Candidate(Direct, "DIRECT");
    calc {
      Candidates(MixedParts(a1, a2), urls);
      { assert MixedParts(a1, a2) == [x, y, z]; }
      Candidates([x, y, z], urls);
      { CandidatesOfThree(x, y, z, urls); }
      Contribution(x, urls) + Contribution(y, urls) + Contribution(z, urls);
      { MixedProxyContribution(a1, u1, urls);
        MixedSocksContribution(a2, u2, urls);
        MixedDirectContribution(urls); }
      [c1] + [c2] + [c3];
      [c1, c2, c3];
    }
  }

  lemma ThreeWithEmptyBlacklist(c1: Candidate, c2: Candidate, c3: Candidate, now: int)
    ensures FilterAll([c1, c2, c3], map[], now) == Filtered([c1.address, c2.address, c3.address], map[])
  {
    var empty: Blacklist := map[];
    assert [c1][..0] == [];
    assert FilterAll([c1], empty, now) == Filtered([c1.address], empty);
    assert [c1, c2][..1] == [c1];
    assert FilterAll([c1, c2], empty, now) == Filtered([c1.address, c2.address], empty);
    assert [c1, c2, c3][..2] == [c1, c2];
  }

  /**
   * "PROXY a1; SOCKS5 a2; DIRECT" with an empty blacklist lists the proxy
   * with `http://`, the SOCKS proxy with `socks://` and DIRECT, in that order.
   */
  lemma MixedResult(a1: string, a2: string, u1: string, u2: string, urls: UrlServices, now: int)
    requires a1 != [] && Trim(a1) == a1 && ';' !in a1 && !HasKnownProtocol(a1, urls)
    requires a2 != [] && Trim(a2) == a2 && ';' !in a2 && !HasKnownProtocol(a2, urls)
    requires urls.parseUrl("http://" + a1) == Some(u1) && urls.parseUrl("socks://" + a2) == Some(u2)
    ensures Resolve(Directives(MixedText(a1, a2)), map[], now, urls)
            == Filtered([u1, u2, "DIRECT"], map[])
  {
    MixedResultSegments(a1, a2);
    MixedResultCandidates(a1, a2, u1, u2, urls);
    ThreeWithEmptyBlacklist(Candidate(Proxy, u1), Candidate(Socks, u2), Candidate(Direct, "DIRECT"), now);
  }

  /** The result string "PROXY a" is one directive. */
  lemma SingleProxySegments(a: string)
    requires a != [] && Trim(a) == a && ';' !in a
    ensures Segments("PROXY " + a) == ["PROXY" + [' '] + a]
  {
    var text := "PROXY " + a;
    assert text == "PROXY" + [' '] + a;
    TrimEnds(a);
    assert text[0] == 'P' && text[|text| - 1] == a[|a| - 1];
    TrimUnspaced(text);
    assert ';' !in "PROXY ";
    SplitJoin([text], ';');
  }

  /**
   * "PROXY a" whose normalised address u was reported less than 30 minutes
   * ago: nothing is listed, so the answer is ["DIRECT"] and the blacklist
   * stays as it was.
   */
  lemma BlacklistedProxyFallsBack(a: string, u: string, blackList: Blacklist, urls: UrlServices, now: int)
    requires a != [] && Trim(a) == a && ';' !in a && NormalizeAddress(Proxy, a, urls) == Some(u)
    requires u in blackList && now - blackList[u] <= BlacklistSeconds
    ensures Resolve(Directives("PROXY " + a), blackList, now, urls) == Filtered(["DIRECT"], blackList)
  {
    SingleProxySegments(a);
    SingleProxyCandidates(a, u, urls);
    FilterAllSnoc([], Candidate(Proxy, u), blackList, now);
    assert [] + [Candidate(Proxy, u)] == [Candidate(Proxy, u)];
  }

  /**
   * The blacklist is looked up by the normalised address: while u has no
   * entry, "PROXY a" is listed as u whatever the blacklist holds for the raw
   * text a.
   */
  lemma RawAddressNotBlacklisted(a: string, u: string, blackList: Blacklist, urls: UrlServices, now: int)
    requires a != [] && Trim(a) == a && ';' !in a && NormalizeAddress(Proxy, a, urls) == Some(u)
    requires u !in blackList
    ensures Resolve(Directives("PROXY " + a), blackList, now, urls) == Filtered([u], blackList)
  {
    SingleProxySegments(a);
    SingleProxyCandidates(a, u, urls);
    FilterAllSnoc([], Candidate(Proxy, u), blackList, now);
    assert [] + [Candidate(Proxy, u)] == [Candidate(Proxy, u)];
  }

  lemma SingleProxyCandidates(a: string, u: string, urls: UrlServices)
    requires a != [] && Trim(a) == a && NormalizeAddress(Proxy, a, urls) == Some(u)
    ensures Candidates(["PROXY" + [' '] + a], urls) == [Candidate(Proxy, u)]
  {
    MixedProxyContribution(a, u, urls);
    CandidatesSnoc([], "PROXY" + [' '] + a, urls);
    assert [] + ["PROXY" + [' '] + a] == ["PROXY" + [' '] + a];
  }
}
