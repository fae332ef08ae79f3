/** Reading a broker's endpoints, and the choice of the one to connect to. */
module Endpoints {
  import opened Wrappers
  import opened Strings
  import opened Decimal
  import Int64

  // ---------------------------------------------------------------- the pattern ([A-Za-z_]+)://([^:]+):(\d+)

  predicate IsListenerChar(c: char) {
    'A' <= c <= 'Z' || 'a' <= c <= 'z' || c == '_'
  }

  datatype Match = Match(listener: string, host: string, port: string) {
    predicate Proper() {
      && listener != "" && (forall c :: c in listener ==> 'A' <= c <= 'Z' || 'a' <= c <= 'z' || c == '_')
      && host != "" && ':' !in host
      && IsNumeral(port)
    }

    function Text(): string {
      listener + ":" + ("//" + (host + ":" + port))
    }
  }

  /** The host and the port after "://". */
  function HostAndPort(u: string): Option<(string, string)> {
    var h := IndexOf(u, ':');
    if 0 < h < |u| && Run(u[h + 1..], IsDigit) > 0 then Some((u[..h], u[h + 1..][..Run(u[h + 1..], IsDigit)])) else None
  }

  function MatchAtStart(s: string): Option<Match> {
    var k := Run(s, IsListenerChar);
    if 0 < k < |s| && s[k] == ':' && HasPrefix(s[k + 1..], "//") then
      var rest := HostAndPort(s[k + 1..][2..]);
      if rest.Some? then Some(Match(s[..k], rest.value.0, rest.value.1)) else None
    else None
  }

  function FindSubmatch(s: string): Option<Match> {
    FindFirst(s, MatchAtStart)
  }

  ghost predicate Starts(s: string, m: Match) {
    m.Proper() && HasPrefix(s, m.Text())
  }

  ghost predicate LongestStart(s: string, m: Match) {
    Starts(s, m) && forall m' :: Starts(s, m')
                      ==> |m'.listener| <= |m.listener| && |m'.host| <= |m.host| && |m'.port| <= |m.port|
  }

  /** No match starts further left and none that starts here is longer. */
  ghost predicate LeftmostLongest(s: string, i: nat, m: Match) {
    i <= |s| && LongestStart(s[i..], m) && forall j, m' :: 0 <= j < i ==> !Starts(s[j..], m')
  }

  /** The rest of the text, with the port digits going on where `after` starts with digits. */
  lemma HostAndPortOfText(host: string, port: string, after: string)
    requires host != "" && ':' !in host && IsNumeral(port)
    ensures var u := host + ([':'] + (port + after));
            && HostAndPort(u) == Some((host, (port + after)[..Run(port + after, IsDigit)]))
            && |port| <= Run(port + after, IsDigit)
  {
    var t := port + after;
    var u := host + ([':'] + t);
    FirstIndex(host, ':', t);
    assert host + [':'] + t == u;
    Separated(u, host, ':', t);
    StartsWith(port, after);
    RunCovers(t, port, IsDigit);
  }

  lemma TextParts(m: Match, after: string)
    ensures m.Text() + after == m.listener + ([':'] + ("//" + (m.host + ([':'] + (m.port + after)))))
  {
    Regroup(m.host, ":", m.port, after);
    var b := m.host + ":" + m.port;
    Regroup(m.listener, ":", "//" + b, after);
    assert ("//" + b) + after == "//" + (b + after);
  }

  /** A match at the start is found, its port being extended to the whole run of digits. */
  lemma MatchOfText(m: Match, after: string)
    requires m.Proper()
    ensures var t := m.port + after;
            && MatchAtStart(m.Text() + after) == Some(Match(m.listener, m.host, t[..Run(t, IsDigit)]))
            && |m.port| <= Run(t, IsDigit)
  {
    var u := m.host + ([':'] + (m.port + after));
    TextParts(m, after);
    Separated(m.Text() + after, m.listener, ':', "//" + u);
    RunEnds(m.listener, ":" + ("//" + u), IsListenerChar);
    StartsWith("//", u);
    assert ("//" + u)[2..] == u;
    HostAndPortOfText(m.host, m.port, after);
  }

  lemma HostAndPortOccurs(u: string)
    requires HostAndPort(u).Some?
    ensures var (host, port) := HostAndPort(u).value;
            && host != "" && ':' !in host && IsNumeral(port)
            && exists after :: u == host + ([':'] + (port + after))
  {
    var h := IndexOf(u, ':');
    var t := u[h + 1..];
    IndexIsFirst(u, ':');
    RunInClass(t, IsDigit);
    var r := Run(t, IsDigit);
    assert u == u[..h] + ([':'] + (t[..r] + t[r..]));
  }

  lemma MatchOccurs(s: string)
    requires MatchAtStart(s).Some?
    ensures Starts(s, MatchAtStart(s).value)
  {
    var m := MatchAtStart(s).value;
    var k := Run(s, IsListenerChar);
    RunInClass(s, IsListenerChar);
    var u := s[k + 1..][2..];
    HostAndPortOccurs(u);
    var after :| u == m.host + ([':'] + (m.port + after));
    Reassembled(s, k, u);
    TextParts(m, after);
    StartsWith(m.Text(), after);
  }

  lemma Reassembled(s: string, k: nat, u: string)
    requires k < |s| && s[k] == ':' && HasPrefix(s[k + 1..], "//") && u == s[k + 1..][2..]
    ensures s == s[..k] + ([':'] + ("//" + u))
  {
    assert s[k + 1..] == s[k + 1..][..2] + u;
  }

  lemma MatchIff(s: string)
    ensures forall m :: MatchAtStart(s) == Some(m) <==> LongestStart(s, m)
    ensures MatchAtStart(s).None? <==> forall m :: !Starts(s, m)
  {
    forall m | Starts(s, m)
      ensures MatchAtStart(s).Some? && var best := MatchAtStart(s).value;
              m.listener == best.listener && m.host == best.host && HasPrefix(best.port, m.port)
    {
      PortExtends(s, m);
    }
    if MatchAtStart(s).Some? {
      MatchOccurs(s);
    }
    hide Starts, MatchAtStart;
    if MatchAtStart(s).Some? {
      LongestIsUnique(s, MatchAtStart(s).value);
    }
  }

  lemma PortExtends(s: string, m: Match)
    requires Starts(s, m)
    ensures MatchAtStart(s).Some?
    ensures var best := MatchAtStart(s).value;
            m.listener == best.listener && m.host == best.host && HasPrefix(best.port, m.port)
  {
    var after := s[|m.Text()|..];
    assert s == m.Text() + after;
    hide MatchAtStart;
    MatchOfText(m, after);
    var t := m.port + after;
    assert t[..Run(t, IsDigit)][..|m.port|] == m.port;
  }

  lemma LongestIsUnique(s: string, best: Match)
    requires Starts(s, best)
    requires forall m :: Starts(s, m)
               ==> m.listener == best.listener && m.host == best.host && HasPrefix(best.port, m.port)
    ensures forall m :: m == best <==> LongestStart(s, m)
  {
    hide Starts;
    forall m | LongestStart(s, m) ensures m == best {
      assert |m.port| == |best.port|;
    }
  }

  /** The search returns a match if and only if it is the leftmost one, at its longest. */
  lemma FindIff(s: string, m: Match)
    ensures FindSubmatch(s) == Some(m) <==> exists i :: LeftmostLongest(s, i, m)
  {
    FindFirstIff(s, MatchAtStart, m);
    hide Starts, LongestStart, FindFirst;
    forall i: nat ensures FirstAt(s, MatchAtStart, i, m) <==> LeftmostLongest(s, i, m) {
      forall j | 0 <= j <= i && j <= |s|
        ensures (MatchAtStart(s[j..]) == Some(m) <==> LongestStart(s[j..], m))
        ensures MatchAtStart(s[j..]).None? <==> forall m' :: !Starts(s[j..], m')
      {
        MatchIff(s[j..]);
      }
    }
  }

  /** The search fails if and only if no part of the text fits the pattern. */
  lemma NoMatchIff(s: string)
    ensures FindSubmatch(s).None? <==> forall i, m: Match :: 0 <= i <= |s| ==> !Starts(s[i..], m)
  {
    FindFirstNone(s, MatchAtStart);
    hide Starts, FindFirst;
    forall i | 0 <= i <= |s| ensures MatchAtStart(s[i..]).None? <==> forall m :: !Starts(s[i..], m) {
      MatchIff(s[i..]);
    }
  }

  // ---------------------------------------------------------------- parsing

  datatype Endpoint = Endpoint(listener: string, host: string, port: nat)

  function ParseEndpoint(endpoint: string): Option<Endpoint> {
    var m := FindSubmatch(endpoint);
    if m.None? then None
    else
      FindProper(endpoint);
      var port := Atoi(m.value.port);
      if port.None? then None else Some(Endpoint(m.value.listener, m.value.host, port.value))
  }

  lemma FindProper(s: string)
    requires FindSubmatch(s).Some?
    ensures FindSubmatch(s).value.Proper()
  {
    FindIff(s, FindSubmatch(s).value);
  }

  /** Exactly what is parsed, and to what. */
  lemma ParseIff(s: string, e: Endpoint)
    ensures ParseEndpoint(s) == Some(e) <==>
            (e.port <= Int64.MAX_INT64
             && exists i, m :: LeftmostLongest(s, i, m) && m.listener == e.listener && m.host == e.host
                  && Value(m.port) == e.port)
  {
    hide FindSubmatch;
    if i, m :| LeftmostLongest(s, i, m) && m.listener == e.listener && m.host == e.host && Value(m.port) == e.port {
      FindIff(s, m);
    }
    if ParseEndpoint(s) == Some(e) {
      FindIff(s, FindSubmatch(s).value);
      FindProper(s);
    }
  }

  function Printed(e: Endpoint): string {
    Match(e.listener, e.host, Numeral(e.port)).Text()
  }

  /** Parsing undoes printing. */
  lemma ParsePrinted(e: Endpoint)
    requires e.listener != "" && (forall c :: c in e.listener ==> 'A' <= c <= 'Z' || 'a' <= c <= 'z' || c == '_')
    requires e.host != "" && ':' !in e.host && e.port <= Int64.MAX_INT64
    ensures ParseEndpoint(Printed(e)) == Some(e)
  {
    var m := Match(e.listener, e.host, Numeral(e.port));
    AtoiOfNumeral(e.port);
    MatchOfText(m, "");
    assert m.Text() + "" == Printed(e) && m.port + "" == m.port;
    RunEnds(m.port, "", IsDigit);
    assert m.port[..|m.port|] == m.port;
    hide MatchAtStart, Run, Numeral, Value;
  }

  /** Printing undoes parsing, for a text that is nothing but a match with a port in its shortest form. */
  lemma PrintParsed(s: string, m: Match)
    requires s == m.Text() && m.Proper() && Value(m.port) <= Int64.MAX_INT64 && Numeral(Value(m.port)) == m.port
    ensures ParseEndpoint(s).Some? && Printed(ParseEndpoint(s).value) == s
  {
    ParsePrinted(Endpoint(m.listener, m.host, Value(m.port)));
  }

  // ---------------------------------------------------------------- the choice

  /** What Zookeeper holds about a broker. */
  datatype BrokerInfo = BrokerInfo(jmxPort: int, protocolMap: map<string, string>, endpoints: seq<string>)

  datatype BrokerHost = BrokerHost(host: string, kafkaPort: int, kafkaProtocol: string, jmxPort: int)

  datatype Broker = Broker(id: string, config: BrokerHost)

  /** The configuration that an endpoint leads to, if it parses, is wanted and has a protocol. */
  function Candidate(info: BrokerInfo, preferredListener: string, endpoint: string): Option<BrokerHost> {
    var parsed := ParseEndpoint(endpoint);
    if parsed.Some? && preferredListener in ["", parsed.value.listener] && parsed.value.listener in info.protocolMap
    then Some(BrokerHost(parsed.value.host, parsed.value.port, info.protocolMap[parsed.value.listener], info.jmxPort))
    else None
  }

  predicate Usable(info: BrokerInfo, preferredListener: string, connects: (nat, BrokerHost) -> bool, k: nat)
    requires k < |info.endpoints|
  {
    var candidate := Candidate(info, preferredListener, info.endpoints[k]);
    candidate.Some? && connects(k, candidate.value)
  }

  /**
   * The first usable endpoint in order; an error if and only if there is none. `connects` is the answer of the k-th
   * connection.
   */
  method GetBrokerFromZookeeper(
    id: string, preferredListener: string, info: BrokerInfo, connects: (nat, BrokerHost) -> bool)
    returns (broker: Option<Broker>)
    ensures broker.None? <==> forall k :: 0 <= k < |info.endpoints| ==> !Usable(info, preferredListener, connects, k)
    ensures broker.Some? ==>
              exists k :: (
                && 0 <= k < |info.endpoints| && Usable(info, preferredListener, connects, k)
                && (forall l :: 0 <= l < k ==> !Usable(info, preferredListener, connects, l))
                && broker.value == Broker(id, Candidate(info, preferredListener, info.endpoints[k]).value))
  {
    for k := 0 to |info.endpoints|
      invariant forall l :: 0 <= l < k ==> !Usable(info, preferredListener, connects, l)
    {
      var parsed := ParseEndpoint(info.endpoints[k]);
      if parsed.None? {
        continue;
      }
      var Endpoint(listener, host, port) := parsed.value;
      if preferredListener != "" && preferredListener != listener {
        continue;
      }
      if listener !in info.protocolMap {
        continue;
      }
      var brokerConfig := BrokerHost(host, port, info.protocolMap[listener], info.jmxPort);
      if !connects(k, brokerConfig) {
        continue;
      }
      assert Usable(info, preferredListener, connects, k);
      return Some(Broker(id, brokerConfig));
    }
    return None;
  }

  /** With printed endpoints, the choice is the first one of the preferred listener that has a protocol and connects. */
  lemma UsableIff(info: BrokerInfo, preferredListener: string, connects: (nat, BrokerHost) -> bool, k: nat, e: Endpoint)
    requires k < |info.endpoints| && info.endpoints[k] == Printed(e)
    requires e.listener != "" && (forall c :: c in e.listener ==> 'A' <= c <= 'Z' || 'a' <= c <= 'z' || c == '_')
    requires e.host != "" && ':' !in e.host && e.port <= Int64.MAX_INT64
    ensures Usable(info, preferredListener, connects, k) <==>
            && (preferredListener == "" || preferredListener == e.listener)
            && e.listener in info.protocolMap
            && connects(k, BrokerHost(e.host, e.port, info.protocolMap[e.listener], info.jmxPort))
  {
    ParsePrinted(e);
    hide ParseEndpoint, Printed;
  }
}
