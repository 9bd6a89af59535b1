/*
 * Reading one PAC result string into candidate proxies: the `proxyTypeFor`
 * classifier and the per-segment work of `ProxyScout::handleRequest` before
 * the blacklist is consulted (src/kpac/proxyscout.cpp).
 */
module Directives {
  import opened Foreign
  import opened QtText
  import Sequences

  /** `KPAC::ProxyType`. */
  datatype ProxyType = Unknown | Proxy | Socks | Direct

  /** `proxyTypeFor`: the chained case-insensitive comparisons of the mode token. */
  function ProxyTypeFor(mode: string): ProxyType
  {
    if EqualsIgnoringCase(mode, "PROXY") then Proxy
    else if EqualsIgnoringCase(mode, "DIRECT") then Direct
    else if EqualsIgnoringCase(mode, "SOCKS") || EqualsIgnoringCase(mode, "SOCKS5") then Socks
    else Unknown
  }

  /** The mode is recognised by its lower-case spelling after folding, and by nothing else. */
  lemma ProxyTypeForSpelling(mode: string)
    ensures ProxyTypeFor(mode) == Proxy <==> Folded(mode) == "proxy"
    ensures ProxyTypeFor(mode) == Direct <==> Folded(mode) == "direct"
    ensures ProxyTypeFor(mode) == Socks <==> Folded(mode) == "socks" || Folded(mode) == "socks5"
    ensures ProxyTypeFor(mode) == Unknown <==> Folded(mode) !in {"proxy", "direct", "socks", "socks5"}
  {
    EqualsIgnoringCaseIsFoldedEquality(mode, "PROXY");
    EqualsIgnoringCaseIsFoldedEquality(mode, "DIRECT");
    EqualsIgnoringCaseIsFoldedEquality(mode, "SOCKS");
    EqualsIgnoringCaseIsFoldedEquality(mode, "SOCKS5");
    assert Folded("PROXY") == "proxy";
    assert Folded("DIRECT") == "direct";
    assert Folded("SOCKS") == "socks";
    assert Folded("SOCKS5") == "socks5";
  }

  /** Two spellings that differ only in case get the same type. */
  lemma ProxyTypeForIgnoresCase(a: string, b: string)
    requires Folded(a) == Folded(b)
    ensures ProxyTypeFor(a) == ProxyTypeFor(b)
  {
    ProxyTypeForSpelling(a);
    ProxyTypeForSpelling(b);
  }

  /**
   * Splits a trimmed segment at its first space into mode and address (the
   * address trimmed again); a segment without a space is both mode and address.
   */
  function ModeAndAddress(proxy: string): (string, string)
  {
    var index := IndexOf(proxy, ' ');
    if index == -1 then (proxy, proxy)
    else (proxy[..index], Trim(proxy[index + 1..]))
  }

  /** The mode is the text before the first space and the address the trimmed rest; without a space, both are the whole text. */
  lemma ModeAndAddressSpec(proxy: string)
    ensures var r := ModeAndAddress(proxy);
      && (' ' !in proxy ==> r == (proxy, proxy))
      && (' ' in proxy ==>
            && |r.0| < |proxy| && proxy[..|r.0|] == r.0 && ' ' !in r.0 && proxy[|r.0|] == ' '
            && r.1 == Trim(proxy[|r.0| + 1..]))
  {
    var index := IndexOf(proxy, ' ');
    if index != -1 {
      IndexOfFirst(proxy, ' ');
      assert ModeAndAddress(proxy).0 == proxy[..index];
    }
  }

  /** The scheme written for a proxy without one: `http://` for PROXY, `socks://` for SOCKS. */
  function SchemeFor(kind: ProxyType): string
    requires kind == Proxy || kind == Socks
  {
    if kind == Proxy then "http://" else "socks://"
  }

  /** The address has a `:` and the text before the first one is a known protocol. */
  predicate HasKnownProtocol(address: string, urls: UrlServices)
  {
    var colon := IndexOf(address, ':');
    colon != -1 && urls.isKnownProtocol(address[..colon])
  }

  /**
   * A PROXY or SOCKS address as the resolver lists it: unchanged when it
   * starts with a known protocol, otherwise prefixed with the scheme for its
   * kind and rewritten by URL parsing; None when that URL is not valid.
   */
  function NormalizeAddress(kind: ProxyType, address: string, urls: UrlServices): (r: Option<string>)
    requires kind == Proxy || kind == Socks
    ensures HasKnownProtocol(address, urls) ==> r == Some(address)
    ensures !HasKnownProtocol(address, urls) ==> r == urls.parseUrl(SchemeFor(kind) + address)
    ensures r.None? <==> !HasKnownProtocol(address, urls) && urls.parseUrl(SchemeFor(kind) + address).None?
  {
    var index := IndexOf(address, ':');
    if index == -1 || !urls.isKnownProtocol(address[..index]) then
      match urls.parseUrl(SchemeFor(kind) + address)
      case Some(text) => Some(text)
      case None => None
    else Some(address)
  }

  /** A classified, normalised entry of a PAC result, before the blacklist is consulted. */
  datatype Candidate = Candidate(kind: ProxyType, address: string)

  /** The mode token of a raw segment. */
  function ModeOf(segment: string): string
  {
    ModeAndAddress(Trim(segment)).0
  }

  /**
   * One `;`-separated segment of a PAC result as the loop body of
   * `handleRequest` reads it: None for an unknown mode or an invalid
   * synthesised URL.
   */
  function ParseSegment(segment: string, urls: UrlServices): (r: Option<Candidate>)
    ensures r.Some? ==> r.value.kind != Unknown
  {
    var (mode, address) := ModeAndAddress(Trim(segment));
    var kind := ProxyTypeFor(mode);
    if kind == Unknown then None
    else if kind == Direct then Some(Candidate(Direct, address))
    else
      match NormalizeAddress(kind, address, urls)
      case None => None
      case Some(normalized) => Some(Candidate(kind, normalized))
  }

  /**
   * A segment is dropped when its mode is unknown; a DIRECT segment always
   * yields its address; a PROXY or SOCKS segment is dropped exactly when its
   * address cannot be normalised, and otherwise keeps its type.
   */
  lemma ParseSegmentSpec(segment: string, urls: UrlServices)
    ensures var kind := ProxyTypeFor(ModeOf(segment));
      var address := ModeAndAddress(Trim(segment)).1;
      var r := ParseSegment(segment, urls);
      && (kind == Unknown ==> r == None)
      && (r.Some? ==> r.value.kind == kind)
      && (kind == Direct ==> r == Some(Candidate(Direct, address)))
      && (kind in {Proxy, Socks} ==> (r.None? <==> NormalizeAddress(kind, address, urls).None?))
  {
  }

  /** The mode ends at the first space; the address is the rest, trimmed. */
  lemma ModeAndAddressAtFirstSpace(mode: string, rest: string)
    requires ' ' !in mode
    ensures ModeAndAddress(mode + [' '] + rest) == (mode, Trim(rest))
  {
    var proxy := mode + [' '] + rest;
    FirstSeparator(mode, ' ', rest);
    assert proxy[..|mode|] == mode;
    assert proxy[|mode| + 1..] == rest;
  }

  /** A segment written as optional white space, a mode, one space and a trimmed address reads as that mode and address. */
  lemma ModeAndAddressOfSegment(lead: string, mode: string, address: string)
    requires forall i :: 0 <= i < |lead| ==> IsSpace(lead[i])
    requires mode != [] && !IsSpace(mode[0]) && ' ' !in mode
    requires address != [] && Trim(address) == address
    ensures ModeAndAddress(Trim(lead + mode + [' '] + address)) == (mode, address)
  {
    var core := mode + [' '] + address;
    assert lead + mode + [' '] + address == lead + core;
    TrimEnds(address);
    assert core[0] == mode[0];
    assert core[|core| - 1] == address[|address| - 1];
    TrimAfterSpaces(lead, core);
    ModeAndAddressAtFirstSpace(mode, address);
  }

  /** A segment written as optional white space and one word without spaces reads as that word, twice. */
  lemma ModeAndAddressOfWord(lead: string, word: string)
    requires forall i :: 0 <= i < |lead| ==> IsSpace(lead[i])
    requires word != [] && !IsSpace(word[0]) && !IsSpace(word[|word| - 1]) && ' ' !in word
    ensures ModeAndAddress(Trim(lead + word)) == (word, word)
  {
    TrimStartAfterSpaces(lead, word);
    assert TrimEnd(word) == word;
  }

  /** The upper-case keywords of a PAC result classify as expected. */
  lemma KeywordTypes()
    ensures ProxyTypeFor("PROXY") == Proxy
    ensures ProxyTypeFor("DIRECT") == Direct
    ensures ProxyTypeFor("SOCKS") == Socks && ProxyTypeFor("SOCKS5") == Socks
  {
    assert EqualsIgnoringCase("PROXY", "PROXY");
    assert EqualsIgnoringCase("DIRECT", "DIRECT");
    assert EqualsIgnoringCase("SOCKS", "SOCKS");
    assert !EqualsIgnoringCase("SOCKS5", "PROXY");
    assert FoldCase("SOCKS5"[0]) != FoldCase("DIRECT"[0]);
    assert EqualsIgnoringCase("SOCKS5", "SOCKS5");
  }

  /** The keyword a PAC result uses for a PROXY or SOCKS entry. */
  function Keyword(kind: ProxyType): string
    requires kind == Proxy || kind == Socks
  {
    if kind == Proxy then "PROXY" else "SOCKS5"
  }

  lemma ParseSegmentOfProxy(segment: string, mode: string, address: string, kind: ProxyType, urls: UrlServices)
    requires ModeAndAddress(Trim(segment)) == (mode, address)
    requires ProxyTypeFor(mode) == kind && (kind == Proxy || kind == Socks)
    ensures ParseSegment(segment, urls)
            == match NormalizeAddress(kind, address, urls)
               case None => None
               case Some(u) => Some(Candidate(kind, u))
  {
  }

  /** A `PROXY <address>` or `SOCKS5 <address>` segment with a trimmed address is that address, normalised. */
  lemma ParseProxySegment(lead: string, kind: ProxyType, address: string, urls: UrlServices)
    requires forall i :: 0 <= i < |lead| ==> IsSpace(lead[i])
    requires kind == Proxy || kind == Socks
    requires address != [] && Trim(address) == address
    ensures ParseSegment(lead + Keyword(kind) + [' '] + address, urls)
            == match NormalizeAddress(kind, address, urls)
               case None => None
               case Some(u) => Some(Candidate(kind, u))
  {
    KeywordTypes();
    var mode := Keyword(kind);
    assert mode[0] == if kind == Proxy then 'P' else 'S';
    assert ' ' !in mode;
    ModeAndAddressOfSegment(lead, mode, address);
    ParseSegmentOfProxy(lead + mode + [' '] + address, mode, address, kind, urls);
  }

  /** A `DIRECT` segment reads as a DIRECT candidate whose address is the word itself. */
  lemma ParseDirectSegment(lead: string, urls: UrlServices)
    requires forall i :: 0 <= i < |lead| ==> IsSpace(lead[i])
    ensures ParseSegment(lead + "DIRECT", urls) == Some(Candidate(Direct, "DIRECT"))
  {
    KeywordTypes();
    var word := "DIRECT";
    assert word[0] == 'D' && word[|word| - 1] == 'T' && ' ' !in word;
    ModeAndAddressOfWord(lead, word);
  }

  /** The segments of a PAC result: trimmed, split on `;`, empty parts skipped. */
  function Segments(result: string): seq<string>
  {
    SkipEmpty(Split(Trim(result), ';'))
  }

  /** Every segment is non-empty and free of `;`. */
  lemma SegmentsSpec(result: string)
    ensures forall s :: s in Segments(result) ==> s != [] && ';' !in s
  {
    SplitSeparatorFree(Trim(result), ';');
    SkipEmptySpec(Split(Trim(result), ';'));
  }

  /** What one segment adds to the candidates: nothing, or its candidate. */
  function Contribution(segment: string, urls: UrlServices): (r: seq<Candidate>)
    ensures |r| <= 1
  {
    match ParseSegment(segment, urls)
    case None => []
    case Some(c) => [c]
  }

  /** The candidates of a list of segments, in segment order. */
  function Candidates(segments: seq<string>, urls: UrlServices): (r: seq<Candidate>)
    ensures |r| <= |segments|
  {
    if segments == [] then []
    else Candidates(segments[..|segments| - 1], urls) + Contribution(segments[|segments| - 1], urls)
  }

  /** No candidate has the Unknown type. */
  lemma {:induction false} CandidatesKnown(segments: seq<string>, urls: UrlServices)
    ensures forall c :: c in Candidates(segments, urls) ==> c.kind != Unknown
  {
    if segments != [] {
      CandidatesKnown(segments[..|segments| - 1], urls);
    }
  }

  lemma CandidatesSnoc(segments: seq<string>, segment: string, urls: UrlServices)
    ensures Candidates(segments + [segment], urls) == Candidates(segments, urls) + Contribution(segment, urls)
  {
    assert (segments + [segment])[..|segments|] == segments;
  }

  lemma CandidatesOfOne(x: string, urls: UrlServices)
    ensures Candidates([x], urls) == Contribution(x, urls)
  {
    assert [x][..0] == [];
  }

  lemma CandidatesOfTwo(x: string, y: string, urls: UrlServices)
    ensures Candidates([x, y], urls) == Contribution(x, urls) + Contribution(y, urls)
  {
    assert [x, y][..1] == [x];
    CandidatesOfOne(x, urls);
  }

  lemma CandidatesOfThree(x: string, y: string, z: string, urls: UrlServices)
    ensures Candidates([x, y, z], urls) == Contribution(x, urls) + Contribution(y, urls) + Contribution(z, urls)
  {
    CandidatesSnoc([x, y], z, urls);
    assert [x, y] + [z] == [x, y, z];
    CandidatesOfTwo(x, y, urls);
  }

  /** Segments that end the same way add the same candidates. */
  lemma {:induction false} CandidatesCommonSuffix(a: seq<string>, b: seq<string>, after: seq<string>, urls: UrlServices)
    requires Candidates(a, urls) == Candidates(b, urls)
    ensures Candidates(a + after, urls) == Candidates(b + after, urls)
    decreases |after|
  {
    if after == [] {
      assert a + after == a && b + after == b;
    } else {
      var init := after[..|after| - 1];
      var last := after[|after| - 1];
      CandidatesCommonSuffix(a, b, init, urls);
      Sequences.AppendLast(a, after);
      Sequences.AppendLast(b, after);
      CandidatesSnoc(a + init, last, urls);
      CandidatesSnoc(b + init, last, urls);
    }
  }

  /** A segment whose mode is unknown contributes nothing: dropping it leaves the candidates as they were. */
  lemma UnknownSegmentsContributeNothing(before: seq<string>, segment: string, after: seq<string>, urls: UrlServices)
    requires ProxyTypeFor(ModeOf(segment)) == Unknown
    ensures Candidates(before + [segment] + after, urls) == Candidates(before + after, urls)
  {
    assert Contribution(segment, urls) == [];
    CandidatesSnoc(before, segment, urls);
    CandidatesCommonSuffix(before + [segment], before, after, urls);
  }
}
