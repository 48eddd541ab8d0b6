/** The configs a rule's OpenZiti service carries, and how two of them compare. */
module Configs {
  import opened Rules

  const TCP: string := "tcp"

  datatype PortRange = PortRange(low: int, high: int)

  datatype Intercept = Intercept(protocols: seq<string>, addresses: seq<string>, portRanges: seq<PortRange>)

  function PortRanges(ports: seq<int>): seq<PortRange> {
    seq(|ports|, i requires 0 <= i < |ports| => PortRange(ports[i], ports[i]))
  }

  /** The host config does not depend on the rule, so only the intercept config is kept. */
  function InterceptOf(matcher: Matcher): Intercept {
    Intercept([TCP], [matcher.domainPattern], PortRanges(matcher.ports))
  }

  method PortRangesFromPorts(ports: seq<int>) returns (ranges: seq<PortRange>)
    ensures ranges == PortRanges(ports)
  {
    ranges := [];
    for i := 0 to |ports|
      invariant ranges == PortRanges(ports[..i])
    {
      ranges := ranges + [PortRange(ports[i], ports[i])];
    }
    assert ports[..|ports|] == ports;
  }

  method SlicesEqual<T(==)>(left: seq<T>, right: seq<T>) returns (equal: bool)
    ensures equal <==> left == right
  {
    if |left| != |right| {
      return false;
    }
    for i := 0 to |left|
      invariant left[..i] == right[..i]
    {
      if left[i] != right[i] {
        return false;
      }
    }
    return true;
  }

  method InterceptsEqual(left: Intercept, right: Intercept) returns (equal: bool)
    ensures equal <==> left == right
  {
    equal := SlicesEqual(left.protocols, right.protocols);
    if equal {
      equal := SlicesEqual(left.addresses, right.addresses);
    }
    if equal {
      equal := SlicesEqual(left.portRanges, right.portRanges);
    }
  }

  // ----- what a config catches ---------------------------------------------------------------

  /** A connection is caught by protocol, address and port together. */
  ghost predicate Catches(config: Intercept, protocol: string, address: string, port: int) {
    && protocol in config.protocols
    && address in config.addresses
    && exists range | range in config.portRanges :: range.low <= port <= range.high
  }

  /** The config catches TCP connections to the domain of the matcher on its ports, and no others. */
  ghost predicate CatchesExactly(config: Intercept, matcher: Matcher) {
    forall protocol: string, address: string, port: int ::
      Catches(config, protocol, address, port) <==>
      protocol == "tcp" && address == matcher.domainPattern && port in matcher.ports
  }

  lemma InterceptCatches(matcher: Matcher)
    ensures CatchesExactly(InterceptOf(matcher), matcher)
  {
    var ranges := PortRanges(matcher.ports);
    forall port: int
      ensures port in matcher.ports <==> exists range | range in ranges :: range.low <= port <= range.high
    {
      if port in matcher.ports {
        var i :| 0 <= i < |matcher.ports| && matcher.ports[i] == port;
        assert ranges[i] in ranges && ranges[i].low <= port <= ranges[i].high;
      }
      if range :| range in ranges && range.low <= port <= range.high {
        var i :| 0 <= i < |ranges| && ranges[i] == range;
        assert matcher.ports[i] == port;
      }
    }
  }

  /** Two matchers intercept alike exactly when domain and port list agree. */
  lemma InterceptOfInjective(m: Matcher, n: Matcher)
    ensures InterceptOf(m) == InterceptOf(n) <==> m.domainPattern == n.domainPattern && m.ports == n.ports
  {
    if InterceptOf(m) == InterceptOf(n) {
      assert [m.domainPattern][0] == [n.domainPattern][0];
      assert |m.ports| == |PortRanges(m.ports)| == |PortRanges(n.ports)| == |n.ports|;
      forall i | 0 <= i < |m.ports|
        ensures m.ports[i] == n.ports[i]
      {
        assert PortRanges(m.ports)[i].low == PortRanges(n.ports)[i].low;
      }
    }
  }
}
