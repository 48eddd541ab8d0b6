/** The handlers that create, update and delete rules. */
module RuleHandlers {
  import opened Wrappers
  import opened Text
  import opened Uuids
  import opened Rules
  import opened Naming
  import opened Configs
  import opened Tables
  import opened Fabric
  import opened Worlds
  import opened Passes
  import opened Convergence
  import opened Theorems
  import opened Validation
  import opened Platforms
  import opened Provisioning
  import opened Agreement
  import opened PrivateTargets

  // ----- secrets ---------------------------------------------------------------------

  /** Every secret exists in the organization. */
  predicate SecretsKnown(secrets: map<Uuid, Uuid>, organizationId: Uuid, ids: seq<Uuid>) {
    forall i | 0 <= i < |ids| :: ids[i] in secrets && secrets[ids[i]] == organizationId
  }

  method ResolveSecret(env: Env, secrets: map<Uuid, Uuid>, id: Uuid) returns (r: Result<Option<Uuid>, Error>)
    ensures PeersWork(env) ==> r.Ok?
    ensures r.Ok? ==> r.value == if id in secrets then Some(secrets[id]) else None
  {
    var lost := PeerFails(env);
    return if lost then Err(Internal) else Ok(if id in secrets then Some(secrets[id]) else None);
  }

  method ValidateSecrets(env: Env, secrets: map<Uuid, Uuid>, organizationId: Uuid, ids: seq<Uuid>)
    returns (r: Result<(), Error>)
    ensures r.Ok? ==> SecretsKnown(secrets, organizationId, ids)
    ensures PeersWork(env) ==> (r.Ok? <==> SecretsKnown(secrets, organizationId, ids))
  {
    var seen: set<Uuid> := {};
    for i := 0 to |ids|
      invariant forall j | 0 <= j < i :: ids[j] in seen
      invariant forall id | id in seen :: id in secrets && secrets[id] == organizationId
    {
      if ids[i] in seen {
        continue;
      }
      var found := ResolveSecret(env, secrets, ids[i]);
      if found.Err? {
        return Err(FailedPrecondition);
      }
      if found.value.None? {
        return Err(InvalidArgument);
      }
      if found.value.value != organizationId {
        return Err(PermissionDenied);
      }
      seen := seen + {ids[i]};
    }
    return Ok(());
  }

  // ----- create ------------------------------------------------------------------------

  datatype CreateRequest = CreateRequest(
    organizationId: string,
    name: string,
    description: string,
    matcher: Option<Matcher>,
    effect: Option<Effect>,
    upstreamTls: Option<UpstreamTls>)

  function Input(req: CreateRequest): Result<RuleInput, Invalid> {
    NormalRule(req.organizationId, req.name, req.description, req.matcher, req.effect, req.upstreamTls)
  }

  /** A newly drawn id: no row and no service was ever named for it. */
  ghost predicate Fresh(w: World, ruleId: Uuid) {
    ruleId !in w.tables.used && forall id | id in w.fabric.services :: w.fabric.services[id].name != ServiceName(ruleId)
  }

  predicate IsPrivateInput(input: RuleInput) {
    input.matcher.privateResourceId != ""
  }

  /** The row stored for a fresh id, and the service created for it. */
  function NewRule(w: World, ruleId: Uuid, input: RuleInput): Rule {
    RuleFrom(ruleId, input, if IsPrivateInput(input) then NO_ID else w.fabric.next)
  }

  function NewFabric(w: World, ruleId: Uuid, input: RuleInput): Fabric {
    if IsPrivateInput(input) then w.fabric
    else
      w.fabric.(services := w.fabric.services[w.fabric.next := RuleService(ruleId, input.matcher)],
                next := w.fabric.next + 1)
  }

  function Created(w: World, ruleId: Uuid, input: RuleInput): World {
    World(InsertRule(w.tables, NewRule(w, ruleId, input)), NewFabric(w, ruleId, input))
  }

  /** What a create may leave behind however it fails: the row or not, the service or not. */
  ghost predicate CreateLeaves(w: World, v: World, ruleId: Uuid, input: RuleInput) {
    && (v.tables == w.tables || v.tables == Created(w, ruleId, input).tables)
    && v.fabric.policies == w.fabric.policies
    && (v.fabric.services == w.fabric.services || v.fabric.services == NewFabric(w, ruleId, input).services)
  }

  /** The service of a created public rule catches exactly its domain and ports. */
  lemma CreatedCatches(w: World, ruleId: Uuid, input: RuleInput)
    ensures var v, rule := Created(w, ruleId, input), NewRule(w, ruleId, input);
            !rule.IsPrivate() ==>
              rule.serviceId in v.fabric.services && CatchesExactly(v.fabric.services[rule.serviceId].intercept, rule.matcher)
  {
    InterceptCatches(input.matcher);
    hide CatchesExactly, InterceptOf;
  }

  /** What a create stores, field by field. */
  lemma CreatedMeaning(w: World, ruleId: Uuid, req: CreateRequest)
    requires Fresh(w, ruleId) && Input(req).Ok?
    ensures var v := Created(w, ruleId, Input(req).value);
            && ruleId in v.tables.rules
            && var rule := v.tables.rules[ruleId];
               && rule.id == ruleId && ParseUuid(Trim(req.organizationId)) == Some(rule.organizationId)
               && rule.name == Trim(req.name) && rule.description == Trim(req.description)
               && req.matcher.Some? && MatcherStoredAs(req.matcher.value, rule.matcher)
               && req.effect.Some? && EffectStoredAs(req.effect.value, rule.effect)
               && (if req.upstreamTls.Some? then TlsStoredAs(req.upstreamTls.value, rule.upstreamTls)
                   else rule.upstreamTls == None)
  {
    InputMeaning(req.organizationId, req.name, req.description, req.matcher, req.effect, req.upstreamTls);
    hide Trim, ParseUuid, NormalRule, MatcherStoredAs, EffectStoredAs, TlsStoredAs, NewFabric, ServiceName;
  }

  /** On a fresh id the create call adds the service under the next id. */
  lemma FreshService(w: World, ruleId: Uuid, input: RuleInput)
    requires Sound(w) && Fresh(w, ruleId) && !IsPrivateInput(input)
    ensures CreateService(w.fabric, RuleService(ruleId, input.matcher)) == NewFabric(w, ruleId, input)
    ensures CreatedServiceId(w.fabric, RuleService(ruleId, input.matcher)) == w.fabric.next
    ensures var cleaned := DeleteService(NewFabric(w, ruleId, input), w.fabric.next);
            cleaned.services == w.fabric.services && cleaned.policies == w.fabric.policies
    ensures w.fabric.next != NO_ID
  {
    hide ServiceName;
    assert w.fabric.next !in w.fabric.services;
  }

  method ProvisionForCreate(p: Platform, env: Env, ruleId: Uuid, matcher: Matcher) returns (r: Result<ZitiId, Error>)
    requires p.Valid()
    modifies p
    ensures p.Valid() && Follows(old(p.world), p.world)
    ensures r.Ok? ==>
      if matcher.privateResourceId != "" then r.value == NO_ID else OwnsService(p.world.fabric, r.value, ruleId)
    ensures matcher.privateResourceId != "" ==> r.Ok? && p.world == old(p.world)
    ensures !env.Shared? && matcher.privateResourceId == "" ==>
      p.world == if ZitiOutcome(env, old(p.calls)) == LostRequest then old(p.world)
                 else WithFabric(old(p.world), CreateService(old(p.world).fabric, RuleService(ruleId, matcher)))
    ensures !env.Shared? && matcher.privateResourceId == "" && r.Ok? ==>
      r.value == CreatedServiceId(old(p.world).fabric, RuleService(ruleId, matcher))
    ensures !env.Shared? ==> (r.Ok? <==> matcher.privateResourceId != "" || ZitiOutcome(env, old(p.calls)) == Done)
    ensures matcher.privateResourceId == "" ==> p.calls == old(p.calls) + 1
    ensures p.statements == old(p.statements)
  {
    hide Sound, Evolves, ServiceName, CreateService, CreatedServiceId;
    if matcher.privateResourceId == "" {
      r := p.CreateService(env, ruleId, matcher);
      return;
    }
    EvolvesSelf(p.world);
    FollowsFrom(p.world, p.world);
    return Ok(NO_ID);
  }

  /** The row is stored although the answer is an error: the create call for the service, if
      there is one, answers, and then the insert's answer or the read-back is lost. */
  predicate AnswerLost(env: Env, statement: nat, call: nat, input: RuleInput) {
    (IsPrivateInput(input) || ZitiOutcome(env, call) == Done) && LosesAnswer(env, statement)
  }

  /** Where a create ends, by what becomes of its statement and of its calls: the insert is the given
      statement, the call that creates the service the given call, the cleanup the next one. */
  function CreateEnd(env: Env, statement: nat, call: nat, w: World, ruleId: Uuid, input: RuleInput): World {
    var t := if StoreOutcome(env, statement) == LostRequest then w.tables else Created(w, ruleId, input).tables;
    var f := NewFabric(w, ruleId, input);
    if IsPrivateInput(input) then World(t, f)
    else
      match ZitiOutcome(env, call)
      case LostRequest => w
      case LostReply => World(w.tables, f)
      case Done =>
        if StoreOutcome(env, statement) == Done || ZitiOutcome(env, call + 1) == LostRequest then World(t, f)
        else World(t, DeleteService(f, w.fabric.next))
  }

  /** The insert is reached and its request arrives. */
  predicate RowWritten(env: Env, statement: nat, call: nat, input: RuleInput) {
    (IsPrivateInput(input) || ZitiOutcome(env, call) == Done) && StoreOutcome(env, statement) != LostRequest
  }

  /** The service is created and not cleaned up: the answer to its creation is lost, or the insert is
      done, or the cleanup's request is lost. */
  predicate ServiceRemains(env: Env, statement: nat, call: nat, input: RuleInput) {
    && !IsPrivateInput(input)
    && (|| ZitiOutcome(env, call) == LostReply
        || (ZitiOutcome(env, call) == Done
            && (StoreOutcome(env, statement) == Done || ZitiOutcome(env, call + 1) == LostRequest)))
  }

  /** Exactly what a create leaves: the row if its statement arrived, the new service if it was not
      cleaned up, and everything else as it was. */
  lemma CreateRemains(env: Env, statement: nat, call: nat, w: World, ruleId: Uuid, input: RuleInput)
    requires Sound(w) && Fresh(w, ruleId)
    ensures var v := CreateEnd(env, statement, call, w, ruleId, input);
            && (if RowWritten(env, statement, call, input)
                then v.tables.rules == w.tables.rules[ruleId := NewRule(w, ruleId, input)] else v.tables == w.tables)
            && v.tables.attachments == w.tables.attachments
            && (if ServiceRemains(env, statement, call, input)
                then v.fabric.services == w.fabric.services[w.fabric.next := RuleService(ruleId, input.matcher)]
                else v.fabric.services == w.fabric.services)
            && v.fabric.policies == w.fabric.policies
            && w.fabric.next !in w.fabric.services
  {
    IssuedIds(w);
    hide Sound, ServiceName, RuleService;
    assert DeleteService(NewFabric(w, ruleId, input), w.fabric.next).services == w.fabric.services;
  }

  lemma CreateEndLeaves(env: Env, statement: nat, call: nat, w: World, ruleId: Uuid, input: RuleInput)
    requires Sound(w) && Fresh(w, ruleId)
    ensures CreateLeaves(w, CreateEnd(env, statement, call, w, ruleId, input), ruleId, input)
  {
    IssuedIds(w);
    hide Sound, ServiceName, RuleService;
    assert DeleteService(NewFabric(w, ruleId, input), w.fabric.next).services == w.fabric.services;
  }

  lemma InsertGuard(w: World, ruleId: Uuid, input: RuleInput, id: ZitiId)
    requires if IsPrivateInput(input) then id == NO_ID else OwnsService(w.fabric, id, ruleId)
    ensures Legal(w, DoInsertRule(RuleFrom(ruleId, input, id)))
  {
  }

  /** Provision, insert, clean up if the insert failed, read back. */
  method StoreNewRule(p: Platform, env: Env, ruleId: Uuid, input: RuleInput) returns (r: Result<Rule, Error>)
    requires p.Valid()
    requires !env.Shared? ==> Fresh(p.world, ruleId)
    modifies p
    ensures p.Valid() && Follows(old(p.world), p.world)
    ensures !env.Shared? ==> p.world == CreateEnd(env, old(p.statements), old(p.calls), old(p.world), ruleId, input)
    ensures !env.Shared? ==> CreateLeaves(old(p.world), p.world, ruleId, input)
    ensures !env.Shared? && r.Ok? ==>
      p.world == Created(old(p.world), ruleId, input) && r.value == NewRule(old(p.world), ruleId, input)
    ensures env.Quiet? ==> r.Ok?
    ensures !env.Shared? ==>
      (r.Err? && ruleId in p.world.tables.rules <==> AnswerLost(env, old(p.statements), old(p.calls), input))
    ensures StoreWorks(env) && r.Err? ==> p.world.tables == old(p.world).tables
  {
    hide Sound, Evolves, Reaches, Follows, Legal, ServiceName, CreateService, CreatedServiceId, DeleteService;
    hide RuleService, Fresh, CreateLeaves;
    ghost var start := p.world;
    if !env.Shared? {
      FreshUnstored(start, ruleId);
    }
    if !env.Shared? {
      CreateEndLeaves(env, p.statements, p.calls, start, ruleId, input);
      if !IsPrivateInput(input) {
        FreshService(start, ruleId, input);
      }
    }
    var provisioned := ProvisionForCreate(p, env, ruleId, input.matcher);
    if provisioned.Err? {
      return Err(provisioned.error);
    }
    var serviceId := provisioned.value;
    ghost var mid := p.world;
    var rule := RuleFrom(ruleId, input, serviceId);
    InsertGuard(mid, ruleId, input, serviceId);
    var stored := p.CreateRule(env, rule);
    ghost var inserted := p.world;
    FollowsTransitive(start, mid, inserted);
    if stored.Err? {
      var cleaned := DeleteRuleService(p, env, serviceId);
      FollowsTransitive(start, inserted, p.world);
      return Err(if cleaned.Err? then cleaned.error else StatusOf(stored.error));
    }
    r := p.GetRule(env, ruleId);
    FollowsTransitive(start, inserted, p.world);
    if r.Err? {
      return Err(StatusOf(r.error));
    }
  }

  /** What the handler checks before it writes anything. */
  predicate Admissible(input: RuleInput, secrets: map<Uuid, Uuid>, catalog: map<Uuid, Resource>) {
    && SecretsKnown(secrets, input.organizationId, input.secretIds)
    && TargetAllowed(catalog, input.organizationId, input.matcher, input.upstreamTls)
  }

  /** What is looked up before a create: every secret of the input in its organization, and its resource,
      if it names one. */
  lemma AdmissibleExact(input: RuleInput, secrets: map<Uuid, Uuid>, catalog: map<Uuid, Resource>, x: Uuid)
    requires input.matcher.privateResourceId == "" || input.matcher.privateResourceId == UuidText(x)
    ensures Admissible(input, secrets, catalog) <==>
              && (forall id | id in input.secretIds :: id in secrets && secrets[id] == input.organizationId)
              && (input.matcher.privateResourceId != "" ==>
                    x in catalog && catalog[x].organizationId == input.organizationId &&
                    catalog[x].protocol in if input.upstreamTls.Some? then {Https} else {Https, Http})
  {
    hide UuidText, ParseUuid;
    if input.matcher.privateResourceId != "" {
      TargetAllowedExact(catalog, input.organizationId, input.matcher, input.upstreamTls, x);
    }
  }

  method AdmitCreate(n: Networks, env: Env, secrets: map<Uuid, Uuid>, allowed: bool, req: CreateRequest)
    returns (r: Result<RuleInput, Error>)
    ensures r.Ok? ==> allowed && Input(req) == Ok(r.value) && Admissible(r.value, secrets, n.catalog)
    ensures PeersWork(env) ==> (r.Ok? <==> allowed && Input(req).Ok? && Admissible(Input(req).value, secrets, n.catalog))
    ensures Input(req).Err? ==> r == Err(InvalidArgument)
    ensures Input(req).Ok? && !allowed ==> r == Err(PermissionDenied)
  {
    hide NormalRule, TargetAllowed, SecretsKnown;
    var input := ValidateRuleInput(req.organizationId, req.name, req.description, req.matcher, req.effect, req.upstreamTls);
    if input.Err? {
      return Err(InvalidArgument);
    }
    if !allowed {
      return Err(PermissionDenied);
    }
    var v := input.value;
    var secretsFound := ValidateSecrets(env, secrets, v.organizationId, v.secretIds);
    if secretsFound.Err? {
      return Err(secretsFound.error);
    }
    var target := ValidatePrivateTarget(n, env, v.organizationId, v.matcher, v.upstreamTls);
    if target.Err? {
      return Err(target.error);
    }
    return Ok(v);
  }

  /** The flag of the resource a matcher names, after the rules changed. */
  function SyncedFor(t: Tables, mediated: set<Uuid>, matcher: Matcher): set<Uuid> {
    match ParseUuid(matcher.privateResourceId)
    case Some(id) => Synced(t, mediated, id)
    case None => mediated
  }

  method SyncMatcher(p: Platform, n: Networks, env: Env, matcher: Matcher)
    requires p.Valid()
    modifies p, n
    ensures p.Valid() && Observes(env, old(p.world), p.world)
    ensures !env.Shared? ==> n.mediated == old(n.mediated) || n.mediated == SyncedFor(p.world.tables, old(n.mediated), matcher)
    ensures Working(env) ==> n.mediated == SyncedFor(p.world.tables, old(n.mediated), matcher)
  {
    EvolvesSelf(p.world);
    FollowsFrom(p.world, p.world);
    var id := ParseUuid(matcher.privateResourceId);
    if id.Some? {
      SyncPrivateResourceMediation(p, n, env, id.value);
    }
  }

  /** Creates a rule. Refused requests change nothing; a request that fails later leaves at most
      the row, at most the one new service, and no policy changed. */
  method CreateEgressRule(p: Platform, n: Networks, env: Env, secrets: map<Uuid, Uuid>, allowed: bool,
                          req: CreateRequest, ruleId: Uuid)
    returns (r: Result<Rule, Error>)
    requires p.Valid()
    requires !env.Shared? ==> Fresh(p.world, ruleId)
    modifies p, n
    ensures p.Valid() && Follows(old(p.world), p.world)
    ensures !env.Shared? ==>
      || p.world == old(p.world)
      || (&& Input(req).Ok? && allowed && Admissible(Input(req).value, secrets, n.catalog)
          && CreateLeaves(old(p.world), p.world, ruleId, Input(req).value)
          && p.world == CreateEnd(env, old(p.statements), old(p.calls), old(p.world), ruleId, Input(req).value))
    ensures PeersWork(env) && allowed && Input(req).Ok? && Admissible(Input(req).value, secrets, n.catalog) ==>
      p.world == CreateEnd(env, old(p.statements), old(p.calls), old(p.world), ruleId, Input(req).value)
    ensures !env.Shared? && r.Ok? ==>
      && Input(req).Ok? && allowed
      && p.world == Created(old(p.world), ruleId, Input(req).value)
      && r.value == NewRule(old(p.world), ruleId, Input(req).value)
    ensures !env.Shared? && r.Ok? && !r.value.IsPrivate() ==>
      && r.value.serviceId in p.world.fabric.services
      && CatchesExactly(p.world.fabric.services[r.value.serviceId].intercept, r.value.matcher)
    ensures env.Quiet? ==> (r.Ok? <==> allowed && Input(req).Ok? && Admissible(Input(req).value, secrets, n.catalog))
    ensures env.Quiet? && r.Err? ==> p.world == old(p.world)
    ensures PeersWork(env) ==> (r.Err? && ruleId in p.world.tables.rules <==>
      (allowed && Input(req).Ok? && Admissible(Input(req).value, secrets, n.catalog)
       && AnswerLost(env, old(p.statements), old(p.calls), Input(req).value)))
    ensures StoreWorks(env) && r.Err? ==> p.world.tables == old(p.world).tables
    ensures r.Err? ==> n.mediated == old(n.mediated)
    ensures Input(req).Err? ==> r == Err(InvalidArgument)
    ensures Input(req).Ok? && !allowed ==> r == Err(PermissionDenied)
    ensures Working(env) && r.Ok? ==>
      n.mediated == SyncedFor(p.world.tables, old(n.mediated), Input(req).value.matcher)
  {
    hide Sound, Evolves, Reaches, Follows, Input, Admissible, Created, NewRule, CreateLeaves, Fresh, SyncedFor, CreateEnd;
    hide CatchesExactly;
    ghost var start := p.world;
    EvolvesSelf(start);
    FollowsFrom(start, start);
    if !env.Shared? {
      FreshUnstored(start, ruleId);
    }
    var input := AdmitCreate(n, env, secrets, allowed, req);
    if input.Err? {
      return Err(input.error);
    }
    r := StoreNewRule(p, env, ruleId, input.value);
    CreatedCatches(start, ruleId, input.value);
    if r.Ok? {
      ghost var stored := p.world;
      NewRuleMatcher(start, ruleId, input.value);
      SyncMatcher(p, n, env, r.value.matcher);
      FollowsTransitive(start, stored, p.world);
    }
  }

  lemma FreshUnstored(w: World, ruleId: Uuid)
    requires Sound(w) && Fresh(w, ruleId)
    ensures ruleId !in w.tables.used && ruleId !in w.tables.rules
  {
  }

  /** Such an error does happen: for every admissible request, when the read-back is lost. */
  method CreateWithLostReadBack(p: Platform, n: Networks, secrets: map<Uuid, Uuid>, req: CreateRequest, ruleId: Uuid)
    returns (r: Result<Rule, Error>)
    requires p.Valid() && Fresh(p.world, ruleId)
    requires Input(req).Ok? && Admissible(Input(req).value, secrets, n.catalog)
    modifies p, n
    ensures r.Err? && ruleId in p.world.tables.rules
  {
    hide Input, Admissible, Fresh, Created, NewRule, CreateLeaves, SyncedFor;
    var store := seq(p.statements + 1, i => Done) + [LostRequest];
    r := CreateEgressRule(p, n, Faulty(store, [], false), secrets, true, req, ruleId);
  }

  /** With nothing failing, a valid request with TLS settings and known secrets is accepted exactly if
      the resource it names is an https resource of its organization, and its settings are stored. */
  method CreateWithTls(p: Platform, n: Networks, secrets: map<Uuid, Uuid>, req: CreateRequest, ruleId: Uuid, x: Uuid)
    returns (r: Result<Rule, Error>)
    requires p.Valid() && Fresh(p.world, ruleId) && Input(req).Ok?
    requires Input(req).value.matcher.privateResourceId == UuidText(x) && Input(req).value.upstreamTls.Some?
    requires forall id | id in Input(req).value.secretIds :: id in secrets && secrets[id] == Input(req).value.organizationId
    modifies p, n
    ensures r.Ok? <==> x in n.catalog && n.catalog[x] == Resource(Input(req).value.organizationId, Https)
    ensures r.Ok? ==>
      ruleId in p.world.tables.rules && p.world.tables.rules[ruleId].upstreamTls == Input(req).value.upstreamTls
  {
    hide Input, TargetAllowed, CreateLeaves, CreateEnd, SyncedFor, UuidText, Sound, Reaches;
    var input := Input(req).value;
    TargetAllowedExact(n.catalog, input.organizationId, input.matcher, input.upstreamTls, x);
    r := CreateEgressRule(p, n, Quiet, secrets, true, req, ruleId);
  }

  lemma NewRuleMatcher(w: World, ruleId: Uuid, input: RuleInput)
    ensures NewRule(w, ruleId, input).matcher == input.matcher
  {
  }

  /** A create whose row was not stored leaves OpenZiti as it was, or with exactly one service
      more, and the next completed pass removes it. */
  lemma FailedCreateHeals(w: World, v: World, ruleId: Uuid, input: RuleInput)
    requires Sound(w) && Sound(v) && Fresh(w, ruleId) && CreateLeaves(w, v, ruleId, input) && ruleId !in v.tables.rules
    ensures v.tables == w.tables && v.fabric.policies == w.fabric.policies
    ensures v.fabric.services == w.fabric.services ||
            v.fabric.services == w.fabric.services[w.fabric.next := RuleService(ruleId, input.matcher)]
    ensures forall id | id in Pass(v).fabric.services :: Pass(v).fabric.services[id].name != ServiceName(ruleId)
  {
    hide Pass, Sound;
    UnmanagedGoes(v, ruleId);
  }

  // ----- update ------------------------------------------------------------------------

  datatype UpdateRequest = UpdateRequest(
    name: Option<string>,
    description: Option<string>,
    matcher: Option<Matcher>,
    effect: Option<Effect>,
    upstreamTls: Option<UpstreamTls>)

  function Or<T>(requested: Option<T>, stored: T): T {
    if requested.Some? then requested.value else stored
  }

  /** Only a change of matcher, effect or TLS block is validated; with any of them, all are. */
  predicate Revalidates(req: UpdateRequest) {
    req.matcher.Some? || req.effect.Some? || req.upstreamTls.Some?
  }

  function AmendedInput(rule: Rule, req: UpdateRequest): Result<RuleInput, Invalid> {
    NormalRule(UuidText(rule.organizationId), Or(req.name, rule.name), Or(req.description, rule.description),
               Some(Or(req.matcher, rule.matcher)), Some(Or(req.effect, rule.effect)),
               if req.upstreamTls.Some? then req.upstreamTls else rule.upstreamTls)
  }

  /** The row an update asks for, if it may be written: a change of names alone is stored as
      sent, and the private resource may not change. */
  function Amended(rule: Rule, req: UpdateRequest): Option<Rule> {
    if !Revalidates(req) then Some(rule.(name := Or(req.name, rule.name), description := Or(req.description, rule.description)))
    else
      match AmendedInput(rule, req)
      case Err(_) => None
      case Ok(input) =>
        if input.matcher.privateResourceId != rule.matcher.privateResourceId then None
        else Some(RuleFrom(rule.id, input, rule.serviceId).(organizationId := rule.organizationId))
  }

  predicate UpdateAdmissible(rule: Rule, req: UpdateRequest, secrets: map<Uuid, Uuid>, catalog: map<Uuid, Resource>) {
    Revalidates(req) ==>
      && AmendedInput(rule, req).Ok?
      && SecretsKnown(secrets, rule.organizationId, AmendedInput(rule, req).value.secretIds)
      && (req.upstreamTls.Some? ==>
            TargetAllowed(catalog, rule.organizationId, AmendedInput(rule, req).value.matcher, AmendedInput(rule, req).value.upstreamTls))
  }

  /** The service is updated only for a new matcher that intercepts differently. */
  predicate MovesService(rule: Rule, updated: Rule, req: UpdateRequest) {
    req.matcher.Some? && !updated.IsPrivate() && InterceptOf(rule.matcher) != InterceptOf(updated.matcher)
  }

  function MovedFabric(f: Fabric, rule: Rule, updated: Rule, req: UpdateRequest): Fabric {
    if MovesService(rule, updated, req) then UpdateService(f, rule.serviceId, InterceptOf(updated.matcher)) else f
  }

  /** However an update ends: nothing, the service only, or the service as needed and the row. */
  ghost predicate UpdateLeaves(w: World, v: World, rule: Rule, updated: Rule, req: UpdateRequest) {
    && v.fabric == MovedFabric(w.fabric, rule, updated, req)
    && (|| v.tables == w.tables
        || (&& v.tables == UpdateRule(w.tables, updated)
            && (MovesService(rule, updated, req) ==> rule.serviceId in w.fabric.services)))
  }

  /** Where an update ends when the call that moves the service, if one is needed, and the
      statement that writes the row become of what the environment says. */
  function UpdateEnd(env: Env, statement: nat, call: nat, w: World, rule: Rule, updated: Rule, req: UpdateRequest): World {
    var moved := MovedFabric(w.fabric, rule, updated, req);
    if MovesService(rule, updated, req) && ZitiOutcome(env, call) == LostRequest then w
    else if MovesService(rule, updated, req) && (ZitiOutcome(env, call) == LostReply || rule.serviceId !in w.fabric.services)
    then World(w.tables, moved)
    else World(if StoreOutcome(env, statement) == LostRequest then w.tables else UpdateRule(w.tables, updated), moved)
  }

  lemma UpdateEndLeaves(env: Env, statement: nat, call: nat, w: World, rule: Rule, updated: Rule, req: UpdateRequest)
    ensures var v := UpdateEnd(env, statement, call, w, rule, updated, req);
            v == w || UpdateLeaves(w, v, rule, updated, req)
  {
    hide UpdateService, MovesService;
  }

  method AmendRule(n: Networks, env: Env, secrets: map<Uuid, Uuid>, rule: Rule, req: UpdateRequest)
    returns (r: Result<Rule, Error>)
    ensures r.Ok? ==> Amended(rule, req) == Some(r.value) && UpdateAdmissible(rule, req, secrets, n.catalog)
    ensures PeersWork(env) ==> (r.Ok? <==> Amended(rule, req).Some? && UpdateAdmissible(rule, req, secrets, n.catalog))
    ensures Amended(rule, req).None? ==> r == Err(InvalidArgument)
  {
    hide NormalRule, TargetAllowed, SecretsKnown;
    var updated := rule.(name := Or(req.name, rule.name), description := Or(req.description, rule.description));
    if req.matcher.None? && req.effect.None? && req.upstreamTls.None? {
      return Ok(updated);
    }
    var tls := if req.upstreamTls.Some? then req.upstreamTls else rule.upstreamTls;
    var validated := ValidateRuleInput(UuidText(rule.organizationId), updated.name, updated.description,
                                       Some(Or(req.matcher, rule.matcher)), Some(Or(req.effect, rule.effect)), tls);
    if validated.Err? {
      return Err(InvalidArgument);
    }
    var input := validated.value;
    if input.matcher.privateResourceId != rule.matcher.privateResourceId {
      return Err(InvalidArgument);
    }
    var secretsFound := ValidateSecrets(env, secrets, rule.organizationId, input.secretIds);
    if secretsFound.Err? {
      return Err(secretsFound.error);
    }
    if req.upstreamTls.Some? {
      var target := ValidatePrivateTarget(n, env, rule.organizationId, input.matcher, input.upstreamTls);
      if target.Err? {
        return Err(target.error);
      }
    }
    return Ok(updated.(name := input.name, description := input.description, matcher := input.matcher,
                       effect := input.effect, upstreamTls := input.upstreamTls));
  }

  lemma AmendedKeeps(rule: Rule, req: UpdateRequest)
    requires Amended(rule, req).Some?
    ensures var u := Amended(rule, req).value;
            u.id == rule.id && u.serviceId == rule.serviceId && SameRule(u, rule)
  {
    hide NormalRule;
  }

  // ----- what an update stores, field by field -------------------------------------------------

  /** The requested field, or the stored one. */
  ghost predicate NamedAs(requested: Option<string>, stored: string, revalidated: bool, result: string) {
    match requested
    case Some(text) => result == if revalidated then Trim(text) else text
    case None => result == if revalidated then Trim(stored) else stored
  }

  ghost predicate TlsAmendedAs(requested: Option<UpstreamTls>, stored: Option<UpstreamTls>, revalidated: bool,
                               result: Option<UpstreamTls>) {
    match requested
    case Some(block) => TlsStoredAs(block, result)
    case None => result == if revalidated && stored == Some(EMPTY_BLOCK) then None else stored
  }

  /** Every requested field is stored as validation stores it, and every other field of a canonical row
      stays as it is, up to an empty TLS block and white space around the names. */
  lemma AmendedMeaning(rule: Rule, req: UpdateRequest)
    requires CanonicalRule(rule) && Amended(rule, req).Some?
    ensures var u, revalidated := Amended(rule, req).value, req.matcher.Some? || req.effect.Some? || req.upstreamTls.Some?;
            && NamedAs(req.name, rule.name, revalidated, u.name)
            && NamedAs(req.description, rule.description, revalidated, u.description)
            && (if req.matcher.Some? then MatcherStoredAs(req.matcher.value, u.matcher) else u.matcher == rule.matcher)
            && u.matcher.privateResourceId == rule.matcher.privateResourceId
            && (if req.effect.Some? then EffectStoredAs(req.effect.value, u.effect) else u.effect == rule.effect)
            && TlsAmendedAs(req.upstreamTls, rule.upstreamTls, revalidated, u.upstreamTls)
            && u.id == rule.id && u.organizationId == rule.organizationId && u.serviceId == rule.serviceId
  {
    hide Trim, ParseUuid, UuidText, NormalMatcher, NormalEffect, NormalTls, IsNoopEffect, MatcherStoredAs, EffectStoredAs;
    hide TlsStoredAs, CanonicalMatcher, CanonicalEffect, CanonicalTls;
    if Revalidates(req) {
      CanonicalMatcherFixed(rule.matcher);
      CanonicalEffectFixed(rule.effect);
      CanonicalTlsFixed(rule.upstreamTls, rule.matcher);
      PartsMeaning(Some(Or(req.matcher, rule.matcher)), Some(Or(req.effect, rule.effect)), req.upstreamTls);
      TlsByResource(rule.upstreamTls, rule.matcher, Amended(rule, req).value.matcher);
    }
  }

  lemma TlsByResource(tls: Option<UpstreamTls>, m: Matcher, n: Matcher)
    requires m.privateResourceId == n.privateResourceId
    ensures NormalTls(tls, m) == NormalTls(tls, n)
  {
  }

  /** An update of a canonical row is accepted exactly if each requested part is, the row's other parts
      aside, and the private resource stays. */
  lemma AmendedAccepts(rule: Rule, req: UpdateRequest)
    requires CanonicalRule(rule)
    ensures Amended(rule, req).Some? <==>
              && (req.matcher.Some? ==>
                    && NormalMatcher(req.matcher).Ok?
                    && NormalMatcher(req.matcher).value.privateResourceId == rule.matcher.privateResourceId)
              && (req.effect.Some? ==> !IsNoopEffect(req.effect) && NormalEffect(req.effect).Ok?)
              && (req.upstreamTls.Some? ==> NormalTls(req.upstreamTls, rule.matcher).Ok?)
  {
    hide Trim, ParseUuid, UuidText, NormalMatcher, NormalEffect, NormalTls, IsNoopEffect, CanonicalMatcher;
    hide CanonicalEffect, CanonicalTls;
    CanonicalMatcherFixed(rule.matcher);
    CanonicalEffectFixed(rule.effect);
    CanonicalTlsFixed(rule.upstreamTls, rule.matcher);
    UuidTextTrimmed(rule.organizationId);
    ParseUuidText(rule.organizationId);
    var m := NormalMatcher(Some(Or(req.matcher, rule.matcher)));
    if m.Ok? && m.value.privateResourceId == rule.matcher.privateResourceId {
      TlsByResource(rule.upstreamTls, rule.matcher, m.value);
      TlsByResource(req.upstreamTls, rule.matcher, m.value);
    }
  }

  /** Names are not kept canonical: an update of names alone stores what was sent. */
  lemma UpdatedNameTrimmed(rule: Rule, req: UpdateRequest)
    requires Amended(rule, req).Some?
    ensures Trimmed(Amended(rule, req).value.name) <==> Revalidates(req) || Trimmed(Or(req.name, rule.name))
  {
    hide NormalMatcher, NormalEffect, NormalTls;
    TrimYieldsTrimmed(Or(req.name, rule.name));
  }

  method InterceptsDiffer(left: Matcher, right: Matcher) returns (differ: bool)
    ensures differ <==> InterceptOf(left) != InterceptOf(right)
  {
    var a := PortRangesFromPorts(left.ports);
    var b := PortRangesFromPorts(right.ports);
    var equal := InterceptsEqual(Intercept([TCP], [left.domainPattern], a), Intercept([TCP], [right.domainPattern], b));
    return !equal;
  }

  lemma StoredServiceOwned(w: World, rule: Rule)
    requires Sound(w) && PrivateIffEmpty(w.tables.rules) && rule.id in w.tables.rules && w.tables.rules[rule.id] == rule
    ensures GoodServiceId(w.fabric, rule) && KeepsKind(w.tables, rule)
    ensures !rule.IsPrivate() ==> rule.serviceId != NO_ID
  {
  }

  lemma UpdateGuard(w: World, v: World, rule: Rule, updated: Rule, id: ZitiId)
    requires GoodServiceId(w.fabric, rule) && KeepsKind(w.tables, rule) && Evolves(w, v)
    requires updated.id == rule.id && SameRule(updated, rule) && updated.serviceId == id
    requires if rule.IsPrivate() then id == NO_ID else OwnsService(v.fabric, id, rule.id)
    ensures Legal(v, DoUpdateRule(updated))
  {
  }

  /** Moves the service if needed, then writes the row and reads it back. */
  method StoreUpdate(p: Platform, env: Env, rule: Rule, amended: Rule,
                     req: UpdateRequest) returns (r: Result<Rule, Error>)
    requires p.Valid() && GoodServiceId(p.world.fabric, rule) && KeepsKind(p.world.tables, rule)
    requires !rule.IsPrivate() ==> rule.serviceId != NO_ID
    requires amended.id == rule.id && amended.serviceId == rule.serviceId && SameRule(amended, rule)
    requires !env.Shared? ==> rule.id in p.world.tables.rules && p.world.tables.rules[rule.id] == rule
    modifies p
    ensures p.Valid() && Follows(old(p.world), p.world)
    ensures !env.Shared? ==>
      p.world == UpdateEnd(env, old(p.statements), old(p.calls), old(p.world), rule, amended, req)
    ensures !env.Shared? && r.Ok? ==>
      && p.world == World(UpdateRule(old(p.world).tables, amended), MovedFabric(old(p.world).fabric, rule, amended, req))
      && r.value == amended
      && (MovesService(rule, amended, req) ==> rule.serviceId in old(p.world).fabric.services)
    ensures env.Quiet? ==>
      (r.Ok? <==> (MovesService(rule, amended, req) ==> rule.serviceId in old(p.world).fabric.services))
    ensures env.Quiet? && r.Err? ==> p.world == old(p.world)
  {
    hide Sound, Evolves, Reaches, Follows, Legal, ServiceName, UpdateService, InterceptOf, OwnsService;
    ghost var start := p.world;
    var updated := amended;
    var differ := InterceptsDiffer(rule.matcher, updated.matcher);
    EvolvesSelf(start);
    FollowsFrom(start, start);
    if req.matcher.Some? && !updated.IsPrivate() && differ {
      UpdateOfNothing(start.fabric, updated.serviceId, InterceptOf(updated.matcher));
      var moved := UpdateRuleService(p, env, updated);
      if moved.Err? {
        return Err(moved.error);
      }
      updated := updated.(serviceId := moved.value);
    }
    ghost var mid := p.world;
    FollowsFacts(start, mid);
    OwnedStays(start, mid, rule);
    UpdateGuard(start, mid, rule, updated, updated.serviceId);
    var written := p.UpdateRule(env, updated);
    ghost var after := p.world;
    FollowsTransitive(start, mid, after);
    if written.Err? {
      return Err(StatusOf(written.error));
    }
    r := p.GetRule(env, rule.id);
    FollowsTransitive(start, after, p.world);
    if r.Err? {
      return Err(StatusOf(r.error));
    }
  }

  lemma UpdateOfNothing(f: Fabric, id: ZitiId, intercept: Intercept)
    ensures id !in f.services ==> UpdateService(f, id, intercept) == f
  {
  }

  lemma OwnedStays(w: World, v: World, rule: Rule)
    requires GoodServiceId(w.fabric, rule) && Evolves(w, v)
    ensures GoodServiceId(v.fabric, rule)
  {
  }

  /** The request passes every check made before anything is written. */
  predicate UpdateTaken(w: World, secrets: map<Uuid, Uuid>, catalog: map<Uuid, Resource>, allowed: bool, ruleId: Uuid,
                        req: UpdateRequest)
  {
    && allowed && ruleId in w.tables.rules
    && Amended(w.tables.rules[ruleId], req).Some?
    && UpdateAdmissible(w.tables.rules[ruleId], req, secrets, catalog)
  }

  /** Updates a rule. Besides success there are three ways to end: nothing changed, the service
      moved but the row did not, or everything changed but the answer was lost. */
  method UpdateEgressRule(p: Platform, n: Networks, env: Env, secrets: map<Uuid, Uuid>, allowed: bool,
                          ruleId: Uuid, req: UpdateRequest)
    returns (r: Result<Rule, Error>)
    requires p.Valid() && PrivateIffEmpty(p.world.tables.rules)
    modifies p
    ensures p.Valid() && Follows(old(p.world), p.world)
    ensures !env.Shared? ==>
      || p.world == old(p.world)
      || (&& ruleId in old(p.world).tables.rules && allowed
          && var rule := old(p.world).tables.rules[ruleId];
             && Amended(rule, req).Some? && UpdateAdmissible(rule, req, secrets, n.catalog)
             && UpdateLeaves(old(p.world), p.world, rule, Amended(rule, req).value, req))
    ensures !env.Shared? && r.Ok? ==>
      && ruleId in old(p.world).tables.rules
      && var rule := old(p.world).tables.rules[ruleId];
         && Amended(rule, req) == Some(r.value)
         && p.world == World(UpdateRule(old(p.world).tables, r.value), MovedFabric(old(p.world).fabric, rule, r.value, req))
    ensures env.Quiet? ==> (r.Ok? <==>
      && allowed && ruleId in old(p.world).tables.rules
      && var rule := old(p.world).tables.rules[ruleId];
         && Amended(rule, req).Some? && UpdateAdmissible(rule, req, secrets, n.catalog)
         && (MovesService(rule, Amended(rule, req).value, req) ==> rule.serviceId in old(p.world).fabric.services))
    ensures env.Quiet? && r.Err? ==> p.world == old(p.world)
    ensures PeersWork(env) && StoreOutcome(env, old(p.statements)) == Done &&
            UpdateTaken(old(p.world), secrets, n.catalog, allowed, ruleId, req) ==>
      var rule := old(p.world).tables.rules[ruleId];
      p.world == UpdateEnd(env, old(p.statements) + 1, old(p.calls), old(p.world), rule, Amended(rule, req).value, req)
    ensures env.Quiet? && ruleId !in old(p.world).tables.rules ==> r == Err(NotFound)
    ensures env.Quiet? && ruleId in old(p.world).tables.rules && !allowed ==> r == Err(PermissionDenied)
    ensures env.Quiet? && ruleId in old(p.world).tables.rules && allowed && Amended(old(p.world).tables.rules[ruleId], req).None? ==>
      r == Err(InvalidArgument)
  {
    hide Sound, Evolves, Reaches, Follows, Amended, UpdateAdmissible, UpdateLeaves, MovedFabric, MovesService;
    hide GoodServiceId, KeepsKind, UpdateEnd;
    ghost var start := p.world;
    var found := p.GetRule(env, ruleId);
    ghost var seen := p.world;
    if found.Err? {
      return Err(StatusOf(found.error));
    }
    var rule := found.value;
    if !allowed {
      return Err(PermissionDenied);
    }
    RowsKnown(seen);
    FollowsFacts(start, seen);
    StoredServiceOwned(seen, rule);
    var amended := AmendRule(n, env, secrets, rule, req);
    if amended.Err? {
      return Err(amended.error);
    }
    AmendedKeeps(rule, req);
    UpdateEndLeaves(env, p.statements, p.calls, seen, rule, amended.value, req);
    r := StoreUpdate(p, env, rule, amended.value, req);
    FollowsTransitive(start, seen, p.world);
  }

  // ----- delete ------------------------------------------------------------------------

  function ServiceDropped(f: Fabric, id: ZitiId): Fabric {
    if id == NO_ID then f else DeleteService(f, id)
  }

  /** Where a delete ends once the row was read and no attachment found: row before service, and no
      service without the row. */
  function DeleteEnd(env: Env, statement: nat, call: nat, w: World, ruleId: Uuid): World
    requires ruleId in w.tables.rules
  {
    var t := DeleteRule(w.tables, ruleId);
    if StoreOutcome(env, statement) == LostRequest then w
    else if StoreOutcome(env, statement) == LostReply || ZitiOutcome(env, call) == LostRequest then World(t, w.fabric)
    else World(t, ServiceDropped(w.fabric, w.tables.rules[ruleId].serviceId))
  }

  /** Deletes the row first and the service after it. */
  method DeleteEgressRule(p: Platform, n: Networks, env: Env, allowed: bool, ruleId: Uuid) returns (r: Result<(), Error>)
    requires p.Valid()
    modifies p, n
    ensures p.Valid() && Follows(old(p.world), p.world)
    ensures !env.Shared? ==>
      || p.world == old(p.world)
      || (&& allowed && ruleId in old(p.world).tables.rules && !HasAttachments(old(p.world).tables, ruleId)
          && p.world.tables == DeleteRule(old(p.world).tables, ruleId)
          && (|| p.world.fabric == old(p.world).fabric
              || p.world.fabric == ServiceDropped(old(p.world).fabric, old(p.world).tables.rules[ruleId].serviceId)))
    ensures !env.Shared? && r.Ok? ==>
      && allowed && ruleId in old(p.world).tables.rules && !HasAttachments(old(p.world).tables, ruleId)
      && p.world == World(DeleteRule(old(p.world).tables, ruleId),
                          ServiceDropped(old(p.world).fabric, old(p.world).tables.rules[ruleId].serviceId))
    ensures env.Quiet? ==> (r.Ok? <==>
      && allowed && ruleId in old(p.world).tables.rules && !HasAttachments(old(p.world).tables, ruleId)
      && var id := old(p.world).tables.rules[ruleId].serviceId; id == NO_ID || id in old(p.world).fabric.services)
    ensures !env.Shared? && allowed && ruleId in old(p.world).tables.rules && !HasAttachments(old(p.world).tables, ruleId) &&
            StoreOutcome(env, old(p.statements)) == Done && StoreOutcome(env, old(p.statements) + 1) == Done ==>
      p.world == DeleteEnd(env, old(p.statements) + 2, old(p.calls), old(p.world), ruleId)
    ensures env.Quiet? && ruleId !in old(p.world).tables.rules ==> r == Err(NotFound)
    ensures env.Quiet? && ruleId in old(p.world).tables.rules && !allowed ==> r == Err(PermissionDenied)
    ensures env.Quiet? && ruleId in old(p.world).tables.rules && allowed && HasAttachments(old(p.world).tables, ruleId) ==>
      r == Err(FailedPrecondition) && p.world == old(p.world)
    ensures Working(env) && r.Ok? ==>
      n.mediated == SyncedFor(p.world.tables, old(n.mediated), old(p.world).tables.rules[ruleId].matcher)
    ensures r.Err? ==> n.mediated == old(n.mediated)
    ensures StoreWorks(env) && r.Err? && p.world.tables != old(p.world).tables ==>
      ruleId in old(p.world).tables.rules && old(p.world).tables.rules[ruleId].serviceId != NO_ID
  {
    hide Sound, Evolves, Reaches, Follows, DeleteService, HasAttachments, SyncedFor, AttachmentsOf;
    ghost var start := p.world;
    var found := p.GetRule(env, ruleId);
    ghost var seen := p.world;
    if found.Err? {
      return Err(StatusOf(found.error));
    }
    if !allowed {
      return Err(PermissionDenied);
    }
    var count := p.CountAttachmentsByRule(env, ruleId);
    ghost var counted := p.world;
    FollowsTransitive(start, seen, counted);
    if count.Err? {
      return Err(StatusOf(count.error));
    }
    if count.value > 0 {
      return Err(FailedPrecondition);
    }
    var deleted := p.DeleteRule(env, ruleId);
    ghost var gone := p.world;
    FollowsTransitive(start, counted, gone);
    if deleted.Err? {
      return Err(StatusOf(deleted.error));
    }
    var cleaned := DeleteRuleService(p, env, found.value.serviceId);
    ghost var dropped := p.world;
    FollowsTransitive(start, gone, dropped);
    if cleaned.Err? {
      return Err(cleaned.error);
    }
    SyncMatcher(p, n, env, found.value.matcher);
    FollowsTransitive(start, dropped, p.world);
    return Ok(());
  }
}
