/** Validation of a rule as canonicalisation: what is accepted, and the form it is stored in. */
module Validation {
  import opened Wrappers
  import opened Ordering
  import opened Text
  import opened Uuids
  import opened Rules
  import opened Configs
  import opened Patterns

  datatype Invalid =
    | NoopEffect | BadOrganization
    | MatcherRequired | NoDestination | TwoDestinations | BadResource | PortsOnPrivate | ReservedPattern
    | BadPort | EmptyMethod
    | BadAction | MissingHeader | BadHeaderName | BadScheme | BadUsername | BadCredential | DuplicateHeader
    | TlsOnPublic | BadCaBundle

  const DEFAULT_PORTS: seq<int> := [80, 443]
  const MIN_PORT: int := 1
  const MAX_PORT: int := 65535

  // ----- ports -----------------------------------------------------------------------------

  predicate ValidPort(port: int) {
    MIN_PORT <= port <= MAX_PORT
  }

  function PortsOrDefault(input: seq<int>): seq<int> {
    if input == [] then DEFAULT_PORTS else input
  }

  function PortSet(ports: seq<int>): set<nat> {
    set p: nat | p <= MAX_PORT && p in ports
  }

  /** Ascending ports, each in range. */
  ghost predicate CanonicalPorts(ports: seq<int>) {
    && ports != []
    && (forall i | 0 <= i < |ports| :: ValidPort(ports[i]))
    && (forall i, j | 0 <= i < j < |ports| :: ports[i] < ports[j])
  }

  function Sorted(ports: set<nat>): (r: seq<int>)
    ensures forall p: nat :: p in r <==> p in ports
    ensures forall i, j | 0 <= i < j < |r| :: r[i] < r[j]
    ensures forall i | 0 <= i < |r| :: r[i] >= 0 && r[i] in ports
  {
    var r := Ascending(ports);
    assert forall p :: p in r <==> p in Elements(r);
    r
  }

  /** The ports in use, in ascending order; any one out of range refuses the list. */
  function NormalPorts(input: seq<int>): Result<seq<int>, Invalid> {
    var ports := PortsOrDefault(input);
    if forall i | 0 <= i < |ports| :: ValidPort(ports[i]) then Ok(Sorted(PortSet(ports)))
    else Err(BadPort)
  }

  /** Accepted ports are strictly ascending, in range, and exactly the input's set or {80, 443}. */
  lemma PortsCanonical(input: seq<int>)
    ensures NormalPorts(input).Ok? <==> forall i | 0 <= i < |input| :: ValidPort(input[i])
    ensures NormalPorts(input).Ok? ==>
              var ports := NormalPorts(input).value;
              CanonicalPorts(ports) && forall p: int :: p in ports <==> p in PortsOrDefault(input)
  {
    var all := PortsOrDefault(input);
    if NormalPorts(input).Ok? {
      var ports := NormalPorts(input).value;
      forall p: int
        ensures p in ports <==> p in all
      {
        if p in ports || p in all {
          assert 0 <= p <= MAX_PORT;
          var n: nat := p;
          assert n in ports <==> n in PortSet(all);
        }
      }
      assert all[0] in ports;
    }
  }

  /** A list in canonical form is its own normal form. */
  lemma CanonicalPortsFixed(ports: seq<int>)
    requires CanonicalPorts(ports)
    ensures NormalPorts(ports) == Ok(ports)
  {
    var same: seq<nat> := ports;
    assert forall i, j :: 0 <= i < j < |same| ==> same[i] < same[j];
    var sorted: seq<nat> := Ascending(PortSet(ports));
    assert Elements(same) == PortSet(ports);
    AscendingUnique(same, sorted);
  }

  /** Same set, same list: on canonical lists position by position comparison compares sets. */
  lemma CanonicalPortsAsSets(left: seq<int>, right: seq<int>)
    requires CanonicalPorts(left) && CanonicalPorts(right)
    ensures left == right <==> forall p: nat :: p in left <==> p in right
  {
    if forall p: nat :: p in left <==> p in right {
      assert PortSet(left) == PortSet(right);
      CanonicalPortsFixed(left);
      CanonicalPortsFixed(right);
    }
  }

  method ValidatePorts(input: seq<int>) returns (r: Result<seq<int>, Invalid>)
    ensures r == NormalPorts(input)
  {
    var ports := input;
    if |ports| == 0 {
      ports := DEFAULT_PORTS;
    }
    ghost var all := ports;
    var seen: set<nat> := {};
    for i := 0 to |ports|
      invariant forall j | 0 <= j < i :: ValidPort(all[j])
      invariant seen == set p: nat | p <= MAX_PORT && p in all[..i]
    {
      if ports[i] < MIN_PORT || ports[i] > MAX_PORT {
        return Err(BadPort);
      }
      assert all[..i + 1] == all[..i] + [all[i]];
      seen := seen + {ports[i]};
    }
    assert all[..|all|] == all;
    var rest, distinct: seq<nat> := seen, [];
    while rest != {}
      invariant Elements(distinct) + rest == seen && Elements(distinct) !! rest
      decreases rest
    {
      var port :| port in rest;
      assert Elements(distinct + [port]) == Elements(distinct) + {port};
      distinct := distinct + [port];
      rest := rest - {port};
    }
    // sort.Slice: the ascending list of the same numbers
    assert Elements(distinct) == PortSet(all);
    return Ok(Sorted(Elements(distinct)));
  }

  // ----- methods ---------------------------------------------------------------------------

  function NormalMethod(raw: string): string {
    ToUpper(Trim(raw))
  }

  /** The distinct normalised methods among the first n, in order of first occurrence. */
  function FirstOccurrences(input: seq<string>, n: nat): seq<string>
    requires n <= |input|
  {
    if n == 0 then []
    else
      var found, m := FirstOccurrences(input, n - 1), NormalMethod(input[n - 1]);
      if m in found then found else found + [m]
  }

  function NormalMethods(input: seq<string>): Result<seq<string>, Invalid> {
    if forall i | 0 <= i < |input| :: NormalMethod(input[i]) != "" then
      Ok(SortStrings(FirstOccurrences(input, |input|)))
    else Err(EmptyMethod)
  }

  ghost predicate CanonicalMethods(methods: seq<string>) {
    && StringsAscending(methods)
    && forall i | 0 <= i < |methods| :: methods[i] != "" && NormalMethod(methods[i]) == methods[i]
  }

  lemma {:induction false} FirstOccurrencesExact(input: seq<string>, n: nat)
    requires n <= |input|
    ensures Distinct(FirstOccurrences(input, n))
    ensures forall m :: m in FirstOccurrences(input, n) <==> exists i :: 0 <= i < n && NormalMethod(input[i]) == m
  {
    hide NormalMethod;
    if n > 0 {
      FirstOccurrencesExact(input, n - 1);
    }
  }

  /** Accepted methods are ascending, normalised, and exactly the input's normalised methods. */
  lemma MethodsCanonical(input: seq<string>)
    requires NormalMethods(input).Ok?
    ensures CanonicalMethods(NormalMethods(input).value)
    ensures forall m :: m in NormalMethods(input).value <==> exists i :: 0 <= i < |input| && NormalMethod(input[i]) == m
  {
    var found, methods := FirstOccurrences(input, |input|), NormalMethods(input).value;
    FirstOccurrencesExact(input, |input|);
    SortStringsAscends(found);
    SameMembers(methods, found);
    forall i | 0 <= i < |methods|
      ensures methods[i] != "" && NormalMethod(methods[i]) == methods[i]
    {
      assert methods[i] in found;
      var k :| 0 <= k < |input| && NormalMethod(input[k]) == methods[i];
      UpperTrimStable(input[k]);
    }
  }

  lemma {:induction false} DistinctFirst(methods: seq<string>, n: nat)
    requires n <= |methods| && Distinct(methods)
    requires forall i | 0 <= i < |methods| :: NormalMethod(methods[i]) == methods[i]
    ensures FirstOccurrences(methods, n) == methods[..n]
  {
    hide NormalMethod;
    if n > 0 {
      DistinctFirst(methods, n - 1);
      assert methods[..n] == methods[..n - 1] + [methods[n - 1]];
    }
  }

  lemma CanonicalMethodsFixed(methods: seq<string>)
    requires CanonicalMethods(methods)
    ensures NormalMethods(methods) == Ok(methods)
  {
    SortStringsFixed(methods);
    DistinctFirst(methods, |methods|);
    assert methods[..|methods|] == methods;
  }

  method ValidateMethods(input: seq<string>) returns (r: Result<seq<string>, Invalid>)
    ensures r == NormalMethods(input)
  {
    hide NormalMethod;
    var methods, seen: set<string> := [], {};
    for i := 0 to |input|
      invariant methods == FirstOccurrences(input, i)
      invariant seen == Elements(methods)
      invariant forall j | 0 <= j < i :: NormalMethod(input[j]) != ""
    {
      var m := NormalMethod(input[i]);
      if m == "" {
        return Err(EmptyMethod);
      }
      if m !in seen {
        assert Elements(methods + [m]) == Elements(methods) + {m};
        seen := seen + {m};
        methods := methods + [m];
      }
    }
    return Ok(SortStrings(methods));
  }

  // ----- matchers --------------------------------------------------------------------------

  /** The stored form of a matcher: either a private resource or a public domain pattern. */
  function NormalMatcher(matcher: Option<Matcher>): Result<Matcher, Invalid> {
    if matcher.None? then Err(MatcherRequired)
    else
      var m := matcher.value;
      var domain, resource := ToLower(Trim(m.domainPattern)), Trim(m.privateResourceId);
      if domain == "" && resource == "" then Err(NoDestination)
      else if domain != "" && resource != "" then Err(TwoDestinations)
      else
        var methods :- NormalMethods(m.methods);
        if resource != "" then PrivateMatcher(m, resource, methods) else PublicMatcher(m, domain, methods)
  }

  function PrivateMatcher(m: Matcher, resource: string, methods: seq<string>): Result<Matcher, Invalid> {
    match ParseUuid(resource)
    case None => Err(BadResource)
    case Some(id) =>
      if m.ports != [] then Err(PortsOnPrivate)
      else Ok(Matcher("", [], methods, Trim(m.pathPattern), UuidText(id)))
  }

  function PublicMatcher(m: Matcher, domain: string, methods: seq<string>): Result<Matcher, Invalid> {
    if RejectsPattern(domain) then Err(ReservedPattern)
    else
      var ports :- NormalPorts(m.ports);
      Ok(Matcher(domain, ports, methods, Trim(m.pathPattern), ""))
  }

  method ValidateMatcher(matcher: Option<Matcher>) returns (r: Result<Matcher, Invalid>)
    ensures r == NormalMatcher(matcher)
  {
    hide Trim, ToLower, NormalMethods, NormalPorts, RejectsPattern, ParseUuid, UuidText;
    if matcher.None? {
      return Err(MatcherRequired);
    }
    var m := matcher.value;
    var domain, resource := ToLower(Trim(m.domainPattern)), Trim(m.privateResourceId);
    if domain == "" && resource == "" {
      return Err(NoDestination);
    }
    if domain != "" && resource != "" {
      return Err(TwoDestinations);
    }
    var methods :- ValidateMethods(m.methods);
    if resource != "" {
      var id := ParseUuid(resource);
      if id.None? {
        return Err(BadResource);
      }
      if |m.ports| > 0 {
        return Err(PortsOnPrivate);
      }
      return Ok(Matcher("", [], methods, Trim(m.pathPattern), UuidText(id.value)));
    }
    var rejected := RejectReservedDomainPattern(domain);
    if rejected {
      return Err(ReservedPattern);
    }
    var ports :- ValidatePorts(m.ports);
    return Ok(Matcher(domain, ports, methods, Trim(m.pathPattern), ""));
  }

  /** A matcher as the service stores it. */
  ghost predicate CanonicalMatcher(m: Matcher) {
    && CanonicalMethods(m.methods)
    && Trim(m.pathPattern) == m.pathPattern
    && if m.privateResourceId != "" then
         m.domainPattern == "" && m.ports == [] && exists id: Uuid :: UuidText(id) == m.privateResourceId
       else
         && m.domainPattern != "" && ToLower(Trim(m.domainPattern)) == m.domainPattern
         && !RejectsPattern(m.domainPattern)
         && CanonicalPorts(m.ports)
  }

  lemma MatcherCanonical(matcher: Option<Matcher>)
    ensures NormalMatcher(matcher).Ok? ==> CanonicalMatcher(NormalMatcher(matcher).value)
  {
    if NormalMatcher(matcher).Ok? {
      AcceptedMatcherCanonical(matcher);
    }
  }

  lemma AcceptedMatcherCanonical(matcher: Option<Matcher>)
    requires NormalMatcher(matcher).Ok?
    ensures CanonicalMatcher(NormalMatcher(matcher).value)
  {
    var m := matcher.value;
    MethodsCanonical(m.methods);
    PortsCanonical(m.ports);
    TrimIdempotent(m.pathPattern);
    LowerTrimStable(m.domainPattern);
    hide Trim, ToLower, NormalMethods, NormalPorts, RejectsPattern, ParseUuid, CanonicalMethods, CanonicalPorts;
    if NormalMatcher(matcher).value.privateResourceId != "" {
      var id := ParseUuid(Trim(m.privateResourceId)).value;
      assert UuidText(id) == NormalMatcher(matcher).value.privateResourceId;
    }
  }

  lemma MethodUpper(raw: string)
    ensures NormalMethod(raw) == ToUpper(Trim(raw)) && (NormalMethod(raw) == "" <==> Trim(raw) == "")
  {
  }

  /** What of a requested matcher is stored. */
  ghost predicate MatcherStoredAs(m: Matcher, v: Matcher) {
    && v.domainPattern == ToLower(Trim(m.domainPattern))
    && v.pathPattern == Trim(m.pathPattern)
    && (v.privateResourceId != "" <==> Trim(m.privateResourceId) != "")
    && (v.privateResourceId != "" ==> ParseUuid(v.privateResourceId) == ParseUuid(Trim(m.privateResourceId)))
    && (forall x :: x in v.methods <==> exists i :: 0 <= i < |m.methods| && ToUpper(Trim(m.methods[i])) == x)
    && (if v.privateResourceId != "" then v.ports == []
        else forall p: int :: p in v.ports <==> p in if m.ports == [] then [80, 443] else m.ports)
  }

  /** When a matcher is accepted, and what of it the stored form keeps. */
  lemma MatcherMeaning(m: Matcher)
    ensures var domain, resource := ToLower(Trim(m.domainPattern)), Trim(m.privateResourceId);
            NormalMatcher(Some(m)).Ok? <==>
              && (domain == "") != (resource == "")
              && (forall i | 0 <= i < |m.methods| :: Trim(m.methods[i]) != "")
              && (resource != "" ==> ParseUuid(resource).Some? && m.ports == [])
              && (domain != "" ==> !RejectsPattern(domain) && forall i | 0 <= i < |m.ports| :: 1 <= m.ports[i] <= 65535)
    ensures NormalMatcher(Some(m)).Ok? ==> MatcherStoredAs(m, NormalMatcher(Some(m)).value)
  {
    hide Trim, ToLower, NormalMethod, RejectsPattern, ParseUuid, SortStrings, Sorted, FirstOccurrences, UuidText, ToUpper;
    PortsCanonical(m.ports);
    forall i | 0 <= i < |m.methods|
      ensures NormalMethod(m.methods[i]) == ToUpper(Trim(m.methods[i])) && (NormalMethod(m.methods[i]) == "" <==> Trim(m.methods[i]) == "")
    {
      MethodUpper(m.methods[i]);
    }
    if NormalMethods(m.methods).Ok? {
      MethodsCanonical(m.methods);
    }
    var resource := Trim(m.privateResourceId);
    if resource != "" && ParseUuid(resource).Some? {
      ParseUuidText(ParseUuid(resource).value);
    }
  }

  lemma CanonicalMatcherFixed(m: Matcher)
    requires CanonicalMatcher(m)
    ensures NormalMatcher(Some(m)) == Ok(m)
  {
    CanonicalMethodsFixed(m.methods);
    assert Trim("") == "" && ToLower("") == "";
    if m.privateResourceId != "" {
      var id: Uuid :| UuidText(id) == m.privateResourceId;
      ParseUuidText(id);
      UuidTextTrimmed(id);
      hide Trim, ToLower, NormalMethods, NormalPorts, RejectsPattern, ParseUuid, UuidText, CanonicalMethods;
      hide CanonicalPorts;
    } else {
      CanonicalPortsFixed(m.ports);
      hide Trim, ToLower, NormalMethods, NormalPorts, RejectsPattern, ParseUuid, UuidText, CanonicalMethods;
      hide CanonicalPorts;
    }
  }

  /** For validated public matchers the positional comparison of intercept configs is exact:
      they are equal just when the domains agree and the port sets agree. */
  lemma InterceptsAsSets(m: Matcher, n: Matcher)
    requires CanonicalMatcher(m) && CanonicalMatcher(n) && m.privateResourceId == "" && n.privateResourceId == ""
    ensures InterceptOf(m) == InterceptOf(n) <==>
              m.domainPattern == n.domainPattern && forall p: nat :: p in m.ports <==> p in n.ports
  {
    InterceptOfInjective(m, n);
    CanonicalPortsAsSets(m.ports, n.ports);
  }

  // ----- effects ---------------------------------------------------------------------------

  predicate KnownAction(action: int) {
    action == ACTION_ALLOW || action == ACTION_DENY
  }

  /** An absent action reads as unspecified. */
  predicate IsNoopEffect(effect: Option<Effect>) {
    effect.None? ||
    (!(effect.value.action.Some? && KnownAction(effect.value.action.value)) && effect.value.inject == [])
  }

  const FORBIDDEN: set<char> := {'\r', '\n', ':'}

  predicate GoodUsername(scheme: int, username: string) {
    if scheme == SCHEME_BASIC then username != "" && !ContainsAny(username, FORBIDDEN) else username == ""
  }

  /** The stored form of a header and the secret it names. */
  function NormalHeader(header: Option<Header>): Result<(Header, Option<Uuid>), Invalid> {
    if header.None? then Err(MissingHeader)
    else
      var h := header.value;
      var name, username := Trim(h.name), Trim(h.username);
      if name == "" || ContainsAny(name, FORBIDDEN) then Err(BadHeaderName)
      else if h.scheme != SCHEME_UNSPECIFIED && h.scheme != SCHEME_BEARER && h.scheme != SCHEME_BASIC then Err(BadScheme)
      else if !GoodUsername(h.scheme, username) then Err(BadUsername)
      else
        match h.credential
        case PlainValue(text) =>
          if Trim(text) == "" then Err(BadCredential)
          else Ok((Header(name, h.scheme, username, PlainValue(Trim(text))), None))
        case SecretRef(secret) =>
          (match ParseUuid(Trim(secret))
           case None => Err(BadCredential)
           case Some(id) => Ok((Header(name, h.scheme, username, SecretRef(UuidText(id))), Some(id))))
        case NoCredential => Err(BadCredential)
  }

  datatype HeaderList = HeaderList(inject: seq<Option<Header>>, secretIds: seq<Uuid>)

  function WithHeader(list: HeaderList, header: Header, secret: Option<Uuid>): HeaderList {
    HeaderList(list.inject + [Some(header)], if secret.Some? then list.secretIds + [secret.value] else list.secretIds)
  }

  /** Header names are compared without case. */
  function LowerNames(inject: seq<Option<Header>>): set<string> {
    set i | 0 <= i < |inject| && inject[i].Some? :: ToLower(inject[i].value.name)
  }

  lemma LowerNamesGrow(inject: seq<Option<Header>>, header: Header)
    ensures LowerNames(inject + [Some(header)]) == LowerNames(inject) + {ToLower(header.name)}
  {
    hide ToLower;
    var more := inject + [Some(header)];
    assert more[|inject|] == Some(header);
    forall i | 0 <= i < |inject|
      ensures more[i] == inject[i]
    {
    }
  }

  function NormalHeaders(inject: seq<Option<Header>>, n: nat): Result<HeaderList, Invalid>
    requires n <= |inject|
  {
    if n == 0 then Ok(HeaderList([], []))
    else
      var list :- NormalHeaders(inject, n - 1);
      var (header, secret) :- NormalHeader(inject[n - 1]);
      if ToLower(header.name) in LowerNames(list.inject) then Err(DuplicateHeader) else Ok(WithHeader(list, header, secret))
  }

  function NormalEffect(effect: Option<Effect>): Result<(Effect, seq<Uuid>), Invalid> {
    if effect.None? then Ok((Effect(None, []), []))
    else if effect.value.action.Some? && !KnownAction(effect.value.action.value) then Err(BadAction)
    else
      var list :- NormalHeaders(effect.value.inject, |effect.value.inject|);
      Ok((Effect(effect.value.action, list.inject), list.secretIds))
  }

  lemma NoNames()
    ensures LowerNames([]) == {}
  {
  }

  method ValidateEffect(effect: Option<Effect>) returns (r: Result<(Effect, seq<Uuid>), Invalid>)
    ensures r == NormalEffect(effect)
  {
    hide NormalHeader, ToLower, LowerNames, WithHeader;
    NoNames();
    if effect.None? {
      return Ok((Effect(None, []), []));
    }
    if effect.value.action.Some? && !KnownAction(effect.value.action.value) {
      return Err(BadAction);
    }
    var inject := effect.value.inject;
    var list, seen: set<string> := HeaderList([], []), {};
    for i := 0 to |inject|
      invariant NormalHeaders(inject, i) == Ok(list)
      invariant seen == LowerNames(list.inject)
    {
      var valid := NormalHeader(inject[i]);
      if valid.Err? {
        FirstError(inject, i + 1, |inject|);
        return Err(valid.error);
      }
      var (header, secret) := valid.value;
      if ToLower(header.name) in seen {
        FirstError(inject, i + 1, |inject|);
        return Err(DuplicateHeader);
      }
      LowerNamesGrow(list.inject, header);
      WithHeaderInject(list, header, secret);
      seen := seen + {ToLower(header.name)};
      list := WithHeader(list, header, secret);
    }
    return Ok((Effect(effect.value.action, list.inject), list.secretIds));
  }

  /** The first bad header decides. */
  lemma {:induction false} FirstError(inject: seq<Option<Header>>, n: nat, m: nat)
    requires n <= m <= |inject| && NormalHeaders(inject, n).Err?
    ensures NormalHeaders(inject, m) == NormalHeaders(inject, n)
  {
    hide NormalHeader, LowerNames, WithHeader;
    if m > n {
      FirstError(inject, n, m - 1);
    }
  }

  /** Every header is accepted, and no two have one name, case aside. */
  predicate AcceptableHeaders(inject: seq<Option<Header>>, n: nat)
    requires n <= |inject|
  {
    && (forall i | 0 <= i < n :: NormalHeader(inject[i]).Ok?)
    && (forall i, j | 0 <= i < j < n ::
          ToLower(NormalHeader(inject[i]).value.0.name) != ToLower(NormalHeader(inject[j]).value.0.name))
  }

  /** A header as the service stores it. */
  ghost predicate CanonicalHeader(h: Header) {
    && h.name != "" && Trim(h.name) == h.name && !ContainsAny(h.name, FORBIDDEN)
    && (h.scheme == SCHEME_UNSPECIFIED || h.scheme == SCHEME_BEARER || h.scheme == SCHEME_BASIC)
    && Trim(h.username) == h.username && GoodUsername(h.scheme, h.username)
    && match h.credential
       case PlainValue(text) => text != "" && Trim(text) == text
       case SecretRef(secret) => exists id: Uuid :: UuidText(id) == secret
       case NoCredential => false
  }

  function SecretOf(h: Header): Option<Uuid> {
    if h.credential.SecretRef? then ParseUuid(h.credential.secretId) else None
  }

  lemma HeaderCanonical(header: Option<Header>)
    requires NormalHeader(header).Ok?
    ensures CanonicalHeader(NormalHeader(header).value.0)
    ensures NormalHeader(header).value.1 == SecretOf(NormalHeader(header).value.0)
  {
    var h := header.value;
    TrimIdempotent(h.name);
    TrimIdempotent(h.username);
    if h.credential.PlainValue? {
      TrimIdempotent(h.credential.text);
    } else {
      var id := ParseUuid(Trim(h.credential.secretId)).value;
      ParseUuidText(id);
      hide Trim, ContainsAny, ParseUuid;
      assert UuidText(id) == NormalHeader(header).value.0.credential.secretId;
    }
  }

  lemma CanonicalHeaderFixed(h: Header)
    requires CanonicalHeader(h)
    ensures NormalHeader(Some(h)) == Ok((h, SecretOf(h)))
  {
    hide Trim, ContainsAny, ParseUuid, UuidText, GoodUsername;
    if h.credential.SecretRef? {
      var id: Uuid :| UuidText(id) == h.credential.secretId;
      ParseUuidText(id);
      UuidTextTrimmed(id);
    }
  }

  ghost predicate CanonicalHeaders(inject: seq<Option<Header>>) {
    && (forall i | 0 <= i < |inject| :: inject[i].Some? && CanonicalHeader(inject[i].value))
    && (forall i, j | 0 <= i < j < |inject| :: ToLower(inject[i].value.name) != ToLower(inject[j].value.name))
  }

  ghost predicate CanonicalEffect(e: Effect) {
    (e.action.Some? ==> KnownAction(e.action.value)) && CanonicalHeaders(e.inject)
  }

  /** The secrets of the first n headers. */
  function SecretsOf(inject: seq<Option<Header>>, n: nat): seq<Uuid>
    requires n <= |inject|
  {
    if n == 0 then []
    else
      var before, h := SecretsOf(inject, n - 1), inject[n - 1];
      if h.Some? && SecretOf(h.value).Some? then before + [SecretOf(h.value).value] else before
  }

  lemma {:induction false} SecretsOfPrefix(inject: seq<Option<Header>>, more: seq<Option<Header>>, n: nat)
    requires n <= |inject| && inject <= more
    ensures SecretsOf(more, n) == SecretsOf(inject, n)
  {
    if n > 0 {
      SecretsOfPrefix(inject, more, n - 1);
    }
  }

  lemma HeaderAppended(inject: seq<Option<Header>>, header: Header)
    requires CanonicalHeaders(inject) && CanonicalHeader(header)
    ensures ToLower(header.name) !in LowerNames(inject) ==> CanonicalHeaders(inject + [Some(header)])
  {
    hide CanonicalHeader, ToLower;
    if ToLower(header.name) !in LowerNames(inject) {
      forall i | 0 <= i < |inject|
        ensures ToLower(inject[i].value.name) != ToLower(header.name)
      {
        assert ToLower(inject[i].value.name) in LowerNames(inject);
      }
    }
  }

  lemma NameStillFree(inject: seq<Option<Header>>, n: nat)
    requires n < |inject| && CanonicalHeaders(inject)
    ensures ToLower(inject[n].value.name) !in LowerNames(inject[..n])
  {
    hide CanonicalHeader, ToLower;
  }

  lemma HeadersStep(inject: seq<Option<Header>>, n: nat, list: HeaderList, header: Header, secret: Option<Uuid>)
    requires n < |inject| && NormalHeaders(inject, n) == Ok(list) && NormalHeader(inject[n]) == Ok((header, secret))
    requires ToLower(header.name) !in LowerNames(list.inject)
    ensures NormalHeaders(inject, n + 1) == Ok(WithHeader(list, header, secret))
  {
    hide NormalHeader, ToLower, LowerNames;
  }

  /** An accepted list ends in an accepted header under a new name. */
  lemma HeadersStepBack(inject: seq<Option<Header>>, n: nat)
    requires n < |inject| && NormalHeaders(inject, n + 1).Ok?
    ensures NormalHeaders(inject, n).Ok? && NormalHeader(inject[n]).Ok?
    ensures var list, v := NormalHeaders(inject, n).value, NormalHeader(inject[n]).value;
            && ToLower(v.0.name) !in LowerNames(list.inject)
            && NormalHeaders(inject, n + 1) == Ok(WithHeader(list, v.0, v.1))
  {
    hide NormalHeader, ToLower, LowerNames;
  }

  lemma SecretsStep(list: HeaderList, header: Header, n: nat)
    requires |list.inject| == n && list.secretIds == SecretsOf(list.inject, n)
    ensures var more := WithHeader(list, header, SecretOf(header)); more.secretIds == SecretsOf(more.inject, n + 1)
  {
    hide SecretOf;
    SecretsOfPrefix(list.inject, list.inject + [Some(header)], n);
  }

  lemma WithHeaderInject(list: HeaderList, header: Header, secret: Option<Uuid>)
    ensures WithHeader(list, header, secret).inject == list.inject + [Some(header)]
  {
  }

  /** The names taken so far are the names of the headers accepted so far. */
  lemma NamesSoFar(inject: seq<Option<Header>>, n: nat, stored: seq<Option<Header>>, name: string)
    requires n <= |inject| && |stored| == n
    requires forall i | 0 <= i < n :: NormalHeader(inject[i]).Ok? && stored[i] == Some(NormalHeader(inject[i]).value.0)
    ensures ToLower(name) in LowerNames(stored) <==>
              exists i :: 0 <= i < n && ToLower(NormalHeader(inject[i]).value.0.name) == ToLower(name)
  {
    hide NormalHeader, ToLower;
  }

  /** A list is accepted exactly if its headers are and their names differ, and then it keeps
      every header, normalised, in its place. */
  lemma {:induction false} HeadersMeaning(inject: seq<Option<Header>>, n: nat)
    requires n <= |inject|
    ensures NormalHeaders(inject, n).Ok? <==> AcceptableHeaders(inject, n)
    ensures NormalHeaders(inject, n).Ok? ==>
              var list := NormalHeaders(inject, n).value;
              && |list.inject| == n
              && forall i | 0 <= i < n :: list.inject[i] == Some(NormalHeader(inject[i]).value.0)
  {
    hide NormalHeader, ToLower, LowerNames, WithHeader;
    if n > 0 {
      HeadersMeaning(inject, n - 1);
      if NormalHeaders(inject, n).Ok? {
        HeadersStepBack(inject, n - 1);
      }
      if NormalHeaders(inject, n - 1).Ok? && NormalHeader(inject[n - 1]).Ok? {
        var list, v := NormalHeaders(inject, n - 1).value, NormalHeader(inject[n - 1]).value;
        NamesSoFar(inject, n - 1, list.inject, v.0.name);
        WithHeaderInject(list, v.0, v.1);
        if ToLower(v.0.name) !in LowerNames(list.inject) {
          HeadersStep(inject, n - 1, list, v.0, v.1);
        }
      }
    }
  }

  lemma {:induction false} HeadersCanonical(inject: seq<Option<Header>>, n: nat)
    requires n <= |inject| && NormalHeaders(inject, n).Ok?
    ensures var list := NormalHeaders(inject, n).value;
            && |list.inject| == n
            && CanonicalHeaders(list.inject)
            && list.secretIds == SecretsOf(list.inject, n)
  {
    hide NormalHeader, CanonicalHeader, ToLower, SecretOf, LowerNames, WithHeader;
    if n > 0 {
      HeadersStepBack(inject, n - 1);
      HeadersCanonical(inject, n - 1);
      HeaderCanonical(inject[n - 1]);
      var list, v := NormalHeaders(inject, n - 1).value, NormalHeader(inject[n - 1]).value;
      HeaderAppended(list.inject, v.0);
      WithHeaderInject(list, v.0, v.1);
      SecretsStep(list, v.0, n - 1);
    }
  }

  lemma CanonicalAt(inject: seq<Option<Header>>, n: nat)
    requires n < |inject| && CanonicalHeaders(inject)
    ensures inject[n].Some? && CanonicalHeader(inject[n].value)
  {
  }

  lemma PrefixStep(inject: seq<Option<Header>>, n: nat, header: Header)
    requires n < |inject| && inject[n] == Some(header)
    ensures WithHeader(HeaderList(inject[..n], SecretsOf(inject, n)), header, SecretOf(header)) ==
              HeaderList(inject[..n + 1], SecretsOf(inject, n + 1))
  {
    hide SecretOf;
  }

  lemma {:induction false} CanonicalHeadersFixed(inject: seq<Option<Header>>, n: nat)
    requires n <= |inject| && CanonicalHeaders(inject)
    ensures NormalHeaders(inject, n) == Ok(HeaderList(inject[..n], SecretsOf(inject, n)))
  {
    hide NormalHeader, CanonicalHeader, CanonicalHeaders, ToLower, SecretOf, LowerNames, WithHeader;
    if n > 0 {
      CanonicalHeadersFixed(inject, n - 1);
      CanonicalAt(inject, n - 1);
      var header := inject[n - 1].value;
      NameStillFree(inject, n - 1);
      CanonicalHeaderFixed(header);
      HeadersStep(inject, n - 1, HeaderList(inject[..n - 1], SecretsOf(inject, n - 1)), header, SecretOf(header));
      PrefixStep(inject, n - 1, header);
    }
  }

  /** Neither line break nor colon. */
  predicate Plain(s: string) {
    '\r' !in s && '\n' !in s && ':' !in s
  }

  /** What of a requested header is stored. */
  ghost predicate HeaderStoredAs(h: Header, v: Header) {
    && v.name == Trim(h.name) && v.scheme == h.scheme && v.username == Trim(h.username)
    && match h.credential
       case PlainValue(text) => v.credential == PlainValue(Trim(text))
       case SecretRef(secret) => v.credential.SecretRef? && ParseUuid(v.credential.secretId) == ParseUuid(Trim(secret))
       case NoCredential => false
  }

  lemma PlainContains(s: string)
    ensures Plain(s) <==> !ContainsAny(s, FORBIDDEN)
  {
  }

  /** Which headers are accepted, and what is stored: a plain name, a known scheme, a plain user name
      for basic and none otherwise, and a value or the id of a secret. */
  lemma HeaderMeaning(h: Header)
    ensures NormalHeader(Some(h)).Ok? <==>
              && Trim(h.name) != "" && Plain(Trim(h.name))
              && (h.scheme == SCHEME_UNSPECIFIED || h.scheme == SCHEME_BEARER || h.scheme == SCHEME_BASIC)
              && (if h.scheme == SCHEME_BASIC then Trim(h.username) != "" && Plain(Trim(h.username)) else Trim(h.username) == "")
              && match h.credential
                 case PlainValue(text) => Trim(text) != ""
                 case SecretRef(secret) => ParseUuid(Trim(secret)).Some?
                 case NoCredential => false
    ensures NormalHeader(Some(h)).Ok? ==> HeaderStoredAs(h, NormalHeader(Some(h)).value.0)
    ensures NormalHeader(Some(h)).Ok? ==>
              NormalHeader(Some(h)).value.1 == if h.credential.SecretRef? then ParseUuid(Trim(h.credential.secretId)) else None
  {
    PlainContains(Trim(h.name));
    PlainContains(Trim(h.username));
    hide Trim, ContainsAny, ParseUuid, UuidText, Plain;
    if h.credential.SecretRef? && ParseUuid(Trim(h.credential.secretId)).Some? {
      ParseUuidText(ParseUuid(Trim(h.credential.secretId)).value);
    }
  }

  /** What of a requested effect is stored: its action, and every header in its place. */
  ghost predicate EffectStoredAs(e: Effect, v: Effect) {
    && v.action == e.action && |v.inject| == |e.inject|
    && forall i | 0 <= i < |e.inject| ::
         e.inject[i].Some? && v.inject[i].Some? && HeaderStoredAs(e.inject[i].value, v.inject[i].value)
  }

  /** Which effects are accepted, which do nothing, and what is stored. */
  lemma EffectMeaning(e: Effect)
    ensures NormalEffect(Some(e)).Ok? <==>
              && (e.action == None || e.action == Some(ACTION_ALLOW) || e.action == Some(ACTION_DENY))
              && AcceptableHeaders(e.inject, |e.inject|)
    ensures NormalEffect(Some(e)).Ok? ==> EffectStoredAs(e, NormalEffect(Some(e)).value.0)
    ensures IsNoopEffect(Some(e)) <==> e.action != Some(ACTION_ALLOW) && e.action != Some(ACTION_DENY) && e.inject == []
    ensures IsNoopEffect(None)
  {
    HeadersMeaning(e.inject, |e.inject|);
    hide HeaderStoredAs, AcceptableHeaders;
    if NormalEffect(Some(e)).Ok? {
      var v := NormalEffect(Some(e)).value.0;
      forall i | 0 <= i < |e.inject|
        ensures e.inject[i].Some? && v.inject[i].Some? && HeaderStoredAs(e.inject[i].value, v.inject[i].value)
      {
        EachAcceptable(e.inject, |e.inject|, i);
        HeaderMeaning(e.inject[i].value);
      }
    }
  }

  lemma EachAcceptable(inject: seq<Option<Header>>, n: nat, i: nat)
    requires i < n <= |inject| && AcceptableHeaders(inject, n)
    ensures inject[i].Some? && NormalHeader(inject[i]).Ok?
  {
  }

  lemma EffectCanonical(effect: Option<Effect>)
    requires NormalEffect(effect).Ok?
    ensures CanonicalEffect(NormalEffect(effect).value.0)
    ensures var v := NormalEffect(effect).value; v.1 == SecretsOf(v.0.inject, |v.0.inject|)
  {
    hide CanonicalHeader, NormalHeader, ToLower, SecretOf;
    if effect.Some? {
      HeadersCanonical(effect.value.inject, |effect.value.inject|);
    }
  }

  lemma CanonicalEffectFixed(e: Effect)
    requires CanonicalEffect(e)
    ensures NormalEffect(Some(e)) == Ok((e, SecretsOf(e.inject, |e.inject|)))
  {
    CanonicalHeadersFixed(e.inject, |e.inject|);
    assert e.inject[..|e.inject|] == e.inject;
  }

  // ----- upstream TLS ------------------------------------------------------------------------

  /** The stored form of the TLS block and the secret it names. */
  function NormalTls(tls: Option<UpstreamTls>, matcher: Matcher): Result<(Option<UpstreamTls>, Option<Uuid>), Invalid> {
    if tls.None? then Ok((None, None))
    else if matcher.privateResourceId == "" then Err(TlsOnPublic)
    else
      var serverName := Trim(tls.value.serverName);
      match tls.value.trust
      case CaBundle(secret) =>
        (match ParseUuid(Trim(secret))
         case None => Err(BadCaBundle)
         case Some(id) => Ok((Some(UpstreamTls(serverName, CaBundle(UuidText(id)))), Some(id))))
      case InsecureSkipVerify(skip) =>
        Ok((Some(UpstreamTls(serverName, if skip then InsecureSkipVerify(true) else NoTrust)), None))
      case NoTrust =>
        if serverName == "" then Ok((None, None)) else Ok((Some(UpstreamTls(serverName, NoTrust)), None))
  }

  const EMPTY_BLOCK: UpstreamTls := UpstreamTls("", NoTrust)

  /** What of a requested TLS block is stored: nothing of an empty one, else its server name and
      its trust, where verification left on is no trust setting. */
  ghost predicate TlsStoredAs(t: UpstreamTls, v: Option<UpstreamTls>) {
    if t.trust == NoTrust && Trim(t.serverName) == "" then v == None
    else
      && v.Some? && v.value.serverName == Trim(t.serverName)
      && match t.trust
         case CaBundle(secret) => v.value.trust.CaBundle? && ParseUuid(v.value.trust.secretId) == ParseUuid(Trim(secret))
         case InsecureSkipVerify(skip) => v.value.trust == if skip then InsecureSkipVerify(true) else NoTrust
         case NoTrust => v.value.trust == NoTrust
  }

  /** Which TLS blocks are accepted, and what is stored. */
  lemma TlsMeaning(t: UpstreamTls, matcher: Matcher)
    ensures NormalTls(Some(t), matcher).Ok? <==>
              && matcher.privateResourceId != ""
              && (t.trust.CaBundle? ==> ParseUuid(Trim(t.trust.secretId)).Some?)
    ensures NormalTls(Some(t), matcher).Ok? ==>
              && TlsStoredAs(t, NormalTls(Some(t), matcher).value.0)
              && NormalTls(Some(t), matcher).value.1 == if t.trust.CaBundle? then ParseUuid(Trim(t.trust.secretId)) else None
  {
    hide Trim, ParseUuid, UuidText;
    if t.trust.CaBundle? && ParseUuid(Trim(t.trust.secretId)).Some? {
      ParseUuidText(ParseUuid(Trim(t.trust.secretId)).value);
    }
  }

  /** The one input whose result is not stable: verification kept on, and no server name. */
  predicate LeavesEmptyBlock(tls: Option<UpstreamTls>) {
    tls.Some? && tls.value.trust == InsecureSkipVerify(false) && Trim(tls.value.serverName) == ""
  }

  /** Validating the result again gives it back, exactly unless it is the empty block, which
      the next validation clears. */
  lemma TlsStability(tls: Option<UpstreamTls>, matcher: Matcher)
    requires NormalTls(tls, matcher).Ok?
    ensures var v := NormalTls(tls, matcher).value;
            && (NormalTls(v.0, matcher) == Ok(v) <==> !LeavesEmptyBlock(tls))
            && (LeavesEmptyBlock(tls) <==> v.0 == Some(EMPTY_BLOCK))
            && (LeavesEmptyBlock(tls) ==> v.1 == None && NormalTls(v.0, matcher) == Ok((None, None)))
            && NormalTls(None, matcher) == Ok((None, None))
  {
    if tls.Some? {
      TrimIdempotent(tls.value.serverName);
      if tls.value.trust.CaBundle? {
        var id := ParseUuid(Trim(tls.value.trust.secretId)).value;
        ParseUuidText(id);
        UuidTextTrimmed(id);
      }
    }
  }

  /** Such an input, for any private resource a request may name: the validated matcher is accepted
      as it is, and a second validation does not return the block the first one did. */
  lemma TlsNotIdempotent(resource: Uuid)
    ensures var tls, m := Some(UpstreamTls("", InsecureSkipVerify(false))), Matcher("", [], [], "", UuidText(resource));
            && NormalMatcher(Some(m)) == Ok(m)
            && NormalTls(tls, m) == Ok((Some(EMPTY_BLOCK), None))
            && NormalTls(Some(EMPTY_BLOCK), m) == Ok((None, None))
  {
    var m := Matcher("", [], [], "", UuidText(resource));
    assert CanonicalMatcher(m) by {
      hide UuidText;
      assert Trim("") == "";
    }
    CanonicalMatcherFixed(m);
    hide UuidText;
    assert Trim("") == "";
  }

  // ----- whole rules ---------------------------------------------------------------------------

  datatype RuleInput = RuleInput(
    organizationId: Uuid,
    name: string,
    description: string,
    matcher: Matcher,
    effect: Effect,
    upstreamTls: Option<UpstreamTls>,
    secretIds: seq<Uuid>)

  function AddSecret(ids: seq<Uuid>, id: Option<Uuid>): seq<Uuid> {
    if id.Some? then ids + [id.value] else ids
  }

  function NormalRule(organization: string, name: string, description: string,
                      matcher: Option<Matcher>, effect: Option<Effect>, tls: Option<UpstreamTls>)
    : Result<RuleInput, Invalid>
  {
    if IsNoopEffect(effect) then Err(NoopEffect)
    else
      match ParseUuid(Trim(organization))
      case None => Err(BadOrganization)
      case Some(organizationId) =>
        var m :- NormalMatcher(matcher);
        var (e, ids) :- NormalEffect(effect);
        var (t, ca) :- NormalTls(tls, m);
        Ok(RuleInput(organizationId, Trim(name), Trim(description), m, e, t, AddSecret(ids, ca)))
  }

  method ValidateRuleInput(organization: string, name: string, description: string,
                           matcher: Option<Matcher>, effect: Option<Effect>, tls: Option<UpstreamTls>)
    returns (r: Result<RuleInput, Invalid>)
    ensures r == NormalRule(organization, name, description, matcher, effect, tls)
  {
    hide Trim, ParseUuid, NormalMatcher, NormalEffect, NormalTls, IsNoopEffect;
    if IsNoopEffect(effect) {
      return Err(NoopEffect);
    }
    var organizationId := ParseUuid(Trim(organization));
    if organizationId.None? {
      return Err(BadOrganization);
    }
    var m :- ValidateMatcher(matcher);
    var e :- ValidateEffect(effect);
    var t :- NormalTls(tls, m);
    return Ok(RuleInput(organizationId.value, Trim(name), Trim(description), m, e.0, t.0, AddSecret(e.1, t.1)));
  }

  /** Whatever is accepted is accepted again in its stored form and comes back unchanged, with
      the same secrets, except that an empty TLS block left by the first validation is cleared
      by the second; from the second validation on nothing changes. */
  lemma Canonicalisation(organization: string, name: string, description: string,
                         matcher: Option<Matcher>, effect: Option<Effect>, tls: Option<UpstreamTls>)
    ensures NormalRule(organization, name, description, matcher, effect, tls).Ok? ==>
              var v := NormalRule(organization, name, description, matcher, effect, tls).value;
              && Revalidated(v) == Ok(if LeavesEmptyBlock(tls) then v.(upstreamTls := None) else v)
              && Revalidated(Revalidated(v).value) == Revalidated(v)
              && CanonicalMatcher(v.matcher) && CanonicalEffect(v.effect)
  {
    hide Trim, ParseUuid, UuidText, NormalMatcher, NormalEffect, NormalTls, IsNoopEffect, CanonicalMatcher;
    hide CanonicalEffect;
    hide LeavesEmptyBlock, SecretsOf;
    var accepted := NormalRule(organization, name, description, matcher, effect, tls);
    if accepted.Ok? {
      var v := accepted.value;
      TlsStability(tls, v.matcher);
      MatcherCanonical(matcher);
      CanonicalMatcherFixed(v.matcher);
      EffectCanonical(effect);
      CanonicalEffectFixed(v.effect);
      NotNoop(effect);
      UuidTextTrimmed(v.organizationId);
      ParseUuidText(v.organizationId);
      TrimIdempotent(name);
      TrimIdempotent(description);
    }
  }

  /** Which inputs are accepted, field by field, and what is stored of each. */
  lemma InputMeaning(organization: string, name: string, description: string,
                     matcher: Option<Matcher>, effect: Option<Effect>, tls: Option<UpstreamTls>)
    ensures NormalRule(organization, name, description, matcher, effect, tls).Ok? <==>
              && ParseUuid(Trim(organization)).Some?
              && NormalMatcher(matcher).Ok?
              && !IsNoopEffect(effect) && NormalEffect(effect).Ok?
              && (tls.Some? ==> NormalTls(tls, NormalMatcher(matcher).value).Ok?)
    ensures NormalRule(organization, name, description, matcher, effect, tls).Ok? ==>
              var v := NormalRule(organization, name, description, matcher, effect, tls).value;
              && ParseUuid(Trim(organization)) == Some(v.organizationId)
              && v.name == Trim(name) && v.description == Trim(description)
              && matcher.Some? && MatcherStoredAs(matcher.value, v.matcher)
              && effect.Some? && EffectStoredAs(effect.value, v.effect)
              && (if tls.Some? then TlsStoredAs(tls.value, v.upstreamTls) else v.upstreamTls == None)
  {
    hide Trim, ParseUuid, NormalMatcher, NormalEffect, NormalTls, IsNoopEffect, MatcherStoredAs, EffectStoredAs;
    hide TlsStoredAs;
    PartsMeaning(matcher, effect, tls);
  }

  lemma PartsMeaning(matcher: Option<Matcher>, effect: Option<Effect>, tls: Option<UpstreamTls>)
    ensures NormalMatcher(matcher).Ok? ==>
              matcher.Some? && MatcherStoredAs(matcher.value, NormalMatcher(matcher).value)
    ensures !IsNoopEffect(effect) && NormalEffect(effect).Ok? ==>
              effect.Some? && EffectStoredAs(effect.value, NormalEffect(effect).value.0)
    ensures NormalMatcher(matcher).Ok? && tls.Some? && NormalTls(tls, NormalMatcher(matcher).value).Ok? ==>
              TlsStoredAs(tls.value, NormalTls(tls, NormalMatcher(matcher).value).value.0)
    ensures forall m: Matcher :: NormalTls(None, m) == Ok((None, None))
  {
    hide Trim, ParseUuid, NormalEffect, MatcherStoredAs, EffectStoredAs, TlsStoredAs, NormalMethods, PrivateMatcher;
    hide PublicMatcher, ToLower, KnownAction;
    if matcher.Some? {
      MatcherMeaning(matcher.value);
    }
    if effect.Some? {
      EffectMeaning(effect.value);
    }
    if tls.Some? && NormalMatcher(matcher).Ok? {
      TlsMeaning(tls.value, NormalMatcher(matcher).value);
    }
  }

  /** Validating a stored form again, as an update of one part of a rule does. */
  function Revalidated(v: RuleInput): Result<RuleInput, Invalid> {
    NormalRule(UuidText(v.organizationId), v.name, v.description, Some(v.matcher), Some(v.effect), v.upstreamTls)
  }

  /** Validation never turns an effect into one that does nothing. */
  lemma NotNoop(effect: Option<Effect>)
    requires !IsNoopEffect(effect) && NormalEffect(effect).Ok?
    ensures !IsNoopEffect(Some(NormalEffect(effect).value.0))
  {
    HeadersCanonical(effect.value.inject, |effect.value.inject|);
  }
}
