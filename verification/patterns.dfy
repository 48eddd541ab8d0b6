/** Domain patterns: which hosts a pattern intercepts, and which patterns are reserved. */
module Patterns {
  import opened Wrappers
  import opened Text
  import opened Addresses

  const WILDCARD: string := "*."

  /** Exact host name, or a wildcard for exactly one non-empty label. */
  predicate DomainPatternMatchesHost(pattern: string, host: string) {
    if pattern == "" || host == "" then false
    else if HasPrefix(pattern, WILDCARD) then
      var cut := Cut(host, '.');
      cut.2 && cut.0 != "" && cut.1 == TrimPrefix(pattern, WILDCARD)
    else pattern == host
  }

  /** What a wildcard pattern covers, said without cutting anything. */
  lemma MatchesExactly(pattern: string, host: string)
    ensures DomainPatternMatchesHost(pattern, host) <==>
              host != "" &&
              if HasPrefix(pattern, WILDCARD) then
                exists head: string :: head != "" && '.' !in head && host == head + "." + pattern[2..]
              else pattern == host
  {
    if HasPrefix(pattern, WILDCARD) {
      var cut := Cut(host, '.');
      var head := cut.0;
      if DomainPatternMatchesHost(pattern, host) {
        assert head != "" && '.' !in head && host == head + "." + pattern[2..];
      }
      forall other: string | other != "" && '.' !in other && host == other + "." + pattern[2..]
        ensures DomainPatternMatchesHost(pattern, host)
      {
        CutAt(other, '.', pattern[2..]);
      }
    }
  }

  const RESERVED_SUFFIXES: seq<string> := [".agyn", ".svc", ".cluster.local"]

  /** The name is a reserved zone or lies below one. */
  predicate InZone(name: string, suffix: string) {
    name == TrimPrefix(suffix, ".") || HasSuffix(name, suffix)
  }

  predicate Reserved(name: string) {
    exists i | 0 <= i < |RESERVED_SUFFIXES| :: InZone(name, RESERVED_SUFFIXES[i])
  }

  /** Which patterns no rule may use. */
  predicate RejectsPattern(pattern: string) {
    Reserved(TrimPrefix(pattern, WILDCARD)) || OverlapsCarrierGradeNat(pattern)
  }

  /** The name is a zone or ends in a dot and the zone. */
  ghost predicate AtOrBelow(name: string, zone: string) {
    name == zone || exists head: string :: name == head + "." + zone
  }

  lemma ZoneExact(name: string, zone: string)
    ensures InZone(name, "." + zone) <==> AtOrBelow(name, zone)
  {
    var suffix := "." + zone;
    assert TrimPrefix(suffix, ".") == zone;
    if HasSuffix(name, suffix) {
      assert name == name[..|name| - |suffix|] + "." + zone;
    }
    forall head: string | name == head + "." + zone
      ensures HasSuffix(name, suffix)
    {
      assert name == head + suffix;
    }
  }

  /** Exactly which names are reserved. */
  lemma ReservedExact(name: string)
    ensures Reserved(name) <==> AtOrBelow(name, "agyn") || AtOrBelow(name, "svc") || AtOrBelow(name, "cluster.local")
  {
    hide InZone, AtOrBelow;
    ZoneExact(name, "agyn");
    ZoneExact(name, "svc");
    ZoneExact(name, "cluster.local");
    assert RESERVED_SUFFIXES[0] == "." + "agyn" && RESERVED_SUFFIXES[1] == "." + "svc";
    assert RESERVED_SUFFIXES[2] == "." + "cluster.local";
  }

  method RejectReservedDomainPattern(pattern: string) returns (rejected: bool)
    ensures rejected <==> RejectsPattern(pattern)
  {
    hide OverlapsCarrierGradeNat, InZone;
    var trimmed := TrimPrefix(pattern, WILDCARD);
    for i := 0 to |RESERVED_SUFFIXES|
      invariant forall j | 0 <= j < i :: !InZone(trimmed, RESERVED_SUFFIXES[j])
    {
      if InZone(trimmed, RESERVED_SUFFIXES[i]) {
        return true;
      }
    }
    return OverlapsCarrierGradeNat(pattern);
  }

  /** A label before a dot never reaches into a zone whose remaining name has as many dots:
      either the rest already lies in the zone, or the label together with the rest is it. */
  lemma LabelOutsideZone(head: string, rest: string, zone: string)
    requires zone != "" && zone[0] == '.'
    requires '.' !in head && HasSuffix(head + "." + rest, zone)
    ensures HasSuffix(rest, zone) || "." + rest == zone
  {
    var host := head + "." + rest;
    var k := |host| - |zone|;
    assert host[k..] == zone;
    assert host[k] == '.';
    if k < |head| {
      assert false;
    } else if k == |head| {
      assert host[k..] == "." + rest;
    } else {
      assert host[k..] == rest[k - |head| - 1..];
    }
  }

  /** The one way an accepted pattern matches a reserved name. */
  predicate Exception(pattern: string, host: string) {
    pattern == "*.local" && host == "cluster.local"
  }

  /** An accepted pattern intercepts no reserved name, bare or below, with one exception. */
  lemma ReservedNeverIntercepted(pattern: string, host: string)
    ensures !RejectsPattern(pattern) && Reserved(host) ==>
              (DomainPatternMatchesHost(pattern, host) <==> Exception(pattern, host))
  {
    hide OverlapsCarrierGradeNat, InZone, Cut;
    if !RejectsPattern(pattern) && Reserved(host) && HasPrefix(pattern, WILDCARD) {
      if DomainPatternMatchesHost(pattern, host) {
        MatchesExactly(pattern, host);
        var rest := pattern[2..];
        var head: string :| head != "" && '.' !in head && host == head + "." + rest;
        var i :| 0 <= i < |RESERVED_SUFFIXES| && InZone(host, RESERVED_SUFFIXES[i]);
        WildcardInZone(head, rest, i);
        assert pattern == "*." + rest;
      }
      ExceptionMatches();
    }
  }

  /** The exception is real: that pattern is accepted, and it does match. */
  lemma ExceptionMatches()
    ensures !RejectsPattern("*.local")
    ensures DomainPatternMatchesHost("*.local", "cluster.local") && Reserved("cluster.local")
  {
    ExceptionIsName();
    hide OverlapsCarrierGradeNat, Cut;
    assert "*.local"[2..] == "local";
    CutAt("cluster", '.', "local");
    assert "cluster" + "." + "local" == "cluster.local";
    assert InZone("cluster.local", RESERVED_SUFFIXES[2]);
  }

  /** It is neither an address nor a prefix. */
  lemma ExceptionIsName()
    ensures !OverlapsCarrierGradeNat("*.local")
  {
    hide Cut, ParseDecimal;
    CutAt("*", '.', "local");
    assert "*" + "." + "local" == "*.local";
  }

  lemma WildcardInZone(head: string, rest: string, i: nat)
    requires i < |RESERVED_SUFFIXES| && head != "" && '.' !in head
    requires InZone(head + "." + rest, RESERVED_SUFFIXES[i])
    ensures Reserved(rest) || (head + "." + rest == "cluster.local" && rest == "local")
  {
    var zone, host := RESERVED_SUFFIXES[i], head + "." + rest;
    if HasSuffix(host, zone) {
      LabelOutsideZone(head, rest, zone);
      assert InZone(rest, zone);
    } else {
      assert host == zone[1..];
      assert host[|head|] == '.';
      if i == 2 {
        assert host == "cluster.local";
        assert head == host[..7];
        assert rest == host[8..];
      }
    }
  }

  // ----- ports ---------------------------------------------------------------------------

  predicate Overlap(rulePorts: seq<int>, interceptPorts: seq<int>) {
    exists i | 0 <= i < |rulePorts| :: rulePorts[i] in interceptPorts
  }

  method PortsOverlap(rulePorts: seq<int>, interceptPorts: seq<int>) returns (overlap: bool)
    ensures overlap <==> Overlap(rulePorts, interceptPorts)
  {
    for i := 0 to |rulePorts|
      invariant forall k | 0 <= k < i :: rulePorts[k] !in interceptPorts
    {
      for j := 0 to |interceptPorts|
        invariant forall k | 0 <= k < j :: interceptPorts[k] != rulePorts[i]
      {
        if rulePorts[i] == interceptPorts[j] {
          return true;
        }
      }
    }
    return false;
  }
}
