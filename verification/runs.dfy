/** Whole runs of handlers and passes, one at a time, with statements and calls that may fail. */
module Runs {
  import opened Wrappers
  import opened Uuids
  import opened Rules
  import opened Naming
  import opened Configs
  import opened Tables
  import opened Fabric
  import opened Worlds
  import opened Passes
  import opened Convergence
  import opened Theorems
  import opened Validation
  import opened Platforms
  import opened Agreement
  import opened PrivateTargets
  import opened References
  import opened Collisions
  import opened RuleHandlers
  import opened AttachmentHandlers
  import opened Reconciliation

  datatype Request =
    | Create(allowed: bool, create: CreateRequest, id: Uuid)
    | Update(allowed: bool, id: Uuid, update: UpdateRequest)
    | Delete(allowed: bool, id: Uuid)
    | Attach(allowed: bool, ruleId: Uuid, target: Target, id: Uuid)
    | Detach(allowed: bool, id: Uuid)
    | RunPass
    | Outside(action: Action)

  /** What others may do to OpenZiti between requests: anything but edit services. */
  predicate IsOutside(a: Action) {
    match a
    case DoDeleteService(_) => true
    case DoDeletePolicy(_) => true
    case DoEditPolicy(_, _, _) => true
    case DoForeignService(service) => !SweepsServiceName(service.name)
    case DoForeignPolicy(policy) => !SweepsPolicyName(policy.name)
    case _ => false
  }

  /** The id the handler draws, if it draws one. */
  function Drawn(request: Request): set<Uuid> {
    if request.Create? || request.Attach? then {request.id} else {}
  }

  /** Where a request may leave the world, whatever fails. */
  ghost predicate Serves(request: Request, w: World, v: World, secrets: map<Uuid, Uuid>, catalog: map<Uuid, Resource>) {
    match request
    case Create(allowed, req, id) => v == w || CreateServes(w, v, secrets, catalog, allowed, req, id)
    case Update(allowed, id, req) => v == w || UpdateServes(w, v, secrets, catalog, allowed, id, req)
    case Delete(allowed, id) => v == w || (allowed && DeleteServes(w, v, id))
    case Attach(allowed, ruleId, target, id) => AttachLeaves(w, v, ruleId, target, id)
    case Detach(allowed, id) => v == w || (allowed && DetachServes(w, v, id))
    case RunPass => Steady(w, v)
    case Outside(a) => v == Apply(w, a)
  }

  ghost predicate CreateServes(w: World, v: World, secrets: map<Uuid, Uuid>, catalog: map<Uuid, Resource>, allowed: bool,
                               req: CreateRequest, id: Uuid)
  {
    && allowed && Input(req).Ok? && Admissible(Input(req).value, secrets, catalog)
    && CreateLeaves(w, v, id, Input(req).value)
  }

  ghost predicate UpdateServes(w: World, v: World, secrets: map<Uuid, Uuid>, catalog: map<Uuid, Resource>, allowed: bool,
                               id: Uuid, req: UpdateRequest)
  {
    && UpdateTaken(w, secrets, catalog, allowed, id, req)
    && UpdateLeaves(w, v, w.tables.rules[id], Amended(w.tables.rules[id], req).value, req)
  }

  ghost predicate DeleteServes(w: World, v: World, id: Uuid) {
    && id in w.tables.rules && !HasAttachments(w.tables, id)
    && v.tables == DeleteRule(w.tables, id)
    && (v.fabric == w.fabric || v.fabric == ServiceDropped(w.fabric, w.tables.rules[id].serviceId))
  }

  ghost predicate DetachServes(w: World, v: World, id: Uuid) {
    && id in w.tables.attachments
    && v.tables == DeleteAttachment(w.tables, id)
    && (v.fabric == w.fabric || v.fabric == PolicyDropped(w.fabric, w.tables.attachments[id].policyId))
  }

  // ----- what one request keeps ------------------------------------------------------------

  /** Rows canonical, secrets and resources checked, and private exactly when without a service id. */
  ghost predicate RowsGood(w: World, secrets: map<Uuid, Uuid>, catalog: map<Uuid, Resource>) {
    && AllCanonical(w.tables) && SecretsChecked(w.tables, secrets) && TargetsFit(w.tables, catalog)
    && PrivateIffEmpty(w.tables.rules)
  }

  /** The service was updated and the row was not. */
  ghost predicate Drifts(w: World, v: World) {
    && v.tables == w.tables
    && exists id :: id in w.fabric.services && id in v.fabric.services &&
                    v.fabric.services[id].intercept != w.fabric.services[id].intercept
  }

  /** Ids not drawn yet name nothing. */
  ghost predicate Undrawn(w: World, ids: set<Uuid>) {
    forall x | x in ids :: Fresh(w, x)
  }

  /** Rows and services are old, or named for the ids drawn, or services of somebody else. */
  ghost predicate Introduces(w: World, v: World, ids: set<Uuid>) {
    && v.tables.used <= w.tables.used + ids
    && forall id | id in v.fabric.services ::
         || (id in w.fabric.services && v.fabric.services[id].name == w.fabric.services[id].name)
         || !SweepsServiceName(v.fabric.services[id].name)
         || exists r: Uuid | r in w.tables.used + ids :: v.fabric.services[id].name == ServiceName(r)
  }

  lemma UndrawnStay(w: World, v: World, ids: set<Uuid>, later: set<Uuid>)
    requires Undrawn(w, later) && Introduces(w, v, ids) && ids !! later
    ensures Undrawn(v, later)
  {
    hide ServiceName, SweepsServiceName;
    forall x | x in later
      ensures Fresh(v, x)
    {
      NamesAreSwept(x, Target(AgentTarget, 0));
      forall id | id in v.fabric.services
        ensures v.fabric.services[id].name != ServiceName(x)
      {
        if v.fabric.services[id].name == ServiceName(x) &&
           !(id in w.fabric.services && v.fabric.services[id].name == w.fabric.services[id].name) {
          var r: Uuid :| r in w.tables.used + ids && v.fabric.services[id].name == ServiceName(r);
          ServiceNameInjective(r, x);
        }
      }
    }
  }

  // ----- create ----------------------------------------------------------------------------

  lemma CreateKeepsRows(t: Tables, u: Tables, rule: Rule, secrets: map<Uuid, Uuid>)
    requires u == t || u == InsertRule(t, rule)
    requires AllCanonical(t) && SecretsChecked(t, secrets)
    requires CanonicalRule(rule) && SecretsKnown(secrets, rule.organizationId, SecretIds(rule))
    ensures AllCanonical(u) && SecretsChecked(u, secrets)
  {
    hide CanonicalRule, SecretIds;
    forall r, s | r in u.rules && s in SecretIds(u.rules[r])
      ensures s in secrets && secrets[s] == u.rules[r].organizationId
    {
      if u.rules[r] == rule {
        var i :| 0 <= i < |SecretIds(rule)| && SecretIds(rule)[i] == s;
      }
    }
  }

  lemma CreateKeepsIntercepts(w: World, v: World, ruleId: Uuid, input: RuleInput)
    requires FabricSound(w.fabric) && Fresh(w, ruleId) && CreateLeaves(w, v, ruleId, input) && InterceptsAgree(w)
    requires ruleId !in w.tables.rules
    ensures InterceptsAgree(v)
  {
    hide ServiceName, InterceptOf;
    forall r, id | r in v.tables.rules && id in v.fabric.services && v.fabric.services[id].name == ServiceName(r)
      ensures v.fabric.services[id].intercept == InterceptOf(v.tables.rules[r].matcher)
    {
      if id in w.fabric.services {
        assert v.fabric.services[id] == w.fabric.services[id];
        assert r != ruleId;
      } else {
        assert v.fabric.services[id] == RuleService(ruleId, input.matcher);
        ServiceNameInjective(r, ruleId);
      }
    }
  }

  lemma CreateIntroduces(w: World, v: World, ruleId: Uuid, input: RuleInput)
    requires CreateLeaves(w, v, ruleId, input)
    ensures Introduces(w, v, {ruleId})
  {
    hide ServiceName;
  }

  // ----- update ----------------------------------------------------------------------------

  /** A canonical matcher that is not replaced, or names a private resource, keeps intercepting
      as it did: only a moved service needs new configs. */
  lemma UnmovedIntercepts(rule: Rule, req: UpdateRequest)
    requires CanonicalRule(rule) && Amended(rule, req).Some?
    ensures MovesService(rule, Amended(rule, req).value, req) <==>
              InterceptOf(rule.matcher) != InterceptOf(Amended(rule, req).value.matcher)
  {
    hide CanonicalMatcher, CanonicalEffect, CanonicalTls, InterceptOf, IsNoopEffect, NormalEffect, NormalTls;
    hide NormalMatcher;
    if Revalidates(req) {
      CanonicalMatcherFixed(rule.matcher);
      MatcherCanonical(Some(Or(req.matcher, rule.matcher)));
      PrivateInterceptsNothing(rule.matcher);
      PrivateInterceptsNothing(Amended(rule, req).value.matcher);
    }
  }

  lemma PrivateInterceptsNothing(m: Matcher)
    requires CanonicalMatcher(m)
    ensures m.privateResourceId != "" ==> InterceptOf(m) == Intercept([TCP], [""], [])
  {
  }

  lemma UpdateKeepsRows(t: Tables, u: Tables, rule: Rule, req: UpdateRequest, secrets: map<Uuid, Uuid>,
                        catalog: map<Uuid, Resource>)
    requires AllCanonical(t) && SecretsChecked(t, secrets) && rule.id in t.rules && t.rules[rule.id] == rule
    requires Amended(rule, req).Some? && UpdateAdmissible(rule, req, secrets, catalog)
    requires u == t || u == UpdateRule(t, Amended(rule, req).value)
    ensures AllCanonical(u) && SecretsChecked(u, secrets)
    ensures forall x: Uuid :: RulesNaming(u, x) == RulesNaming(t, x)
  {
    hide CanonicalRule, SecretIds, NormalRule, TargetAllowed;
    var amended := Amended(rule, req).value;
    AmendedKeeps(rule, req);
    AmendedCanonical(rule, req);
    if u != t {
      forall r, s | r in u.rules && s in SecretIds(u.rules[r])
        ensures s in secrets && secrets[s] == u.rules[r].organizationId
      {
        if r == rule.id && Revalidates(req) {
          var ids := AmendedInput(rule, req).value.secretIds;
          var i :| 0 <= i < |ids| && ids[i] == s;
        }
      }
    }
  }

  lemma AmendedCanonical(rule: Rule, req: UpdateRequest)
    requires CanonicalRule(rule) && Amended(rule, req).Some?
    ensures CanonicalRule(Amended(rule, req).value)
    ensures SecretIds(Amended(rule, req).value) ==
              if Revalidates(req) then AmendedInput(rule, req).value.secretIds else SecretIds(rule)
  {
    hide CanonicalMatcher, CanonicalEffect, CanonicalTls, IsNoopEffect, NormalRule, SecretsOf, CaSecret;
    if Revalidates(req) {
      AcceptedIsCanonical(UuidText(rule.organizationId), Or(req.name, rule.name), Or(req.description, rule.description),
                          Some(Or(req.matcher, rule.matcher)), Some(Or(req.effect, rule.effect)),
                          if req.upstreamTls.Some? then req.upstreamTls else rule.upstreamTls, rule.id, rule.serviceId);
    }
  }

  /** What is looked up before an update: every secret of the row to be stored, if anything is validated,
      and the resource, if the request carries TLS settings. */
  lemma UpdateAdmissibleExact(rule: Rule, req: UpdateRequest, secrets: map<Uuid, Uuid>, catalog: map<Uuid, Resource>, x: Uuid)
    requires CanonicalRule(rule) && Amended(rule, req).Some?
    requires req.upstreamTls.Some? ==> rule.matcher.privateResourceId == UuidText(x)
    ensures var u := Amended(rule, req).value;
            UpdateAdmissible(rule, req, secrets, catalog) <==>
              && (req.matcher.Some? || req.effect.Some? || req.upstreamTls.Some? ==>
                    forall id | id in SecretIds(u) :: id in secrets && secrets[id] == rule.organizationId)
              && (req.upstreamTls.Some? ==>
                    x in catalog && catalog[x].organizationId == rule.organizationId &&
                    catalog[x].protocol in if u.upstreamTls.Some? then {Https} else {Https, Http})
  {
    hide UuidText, NormalRule, TargetAllowed, CanonicalRule, SecretIds;
    AmendedCanonical(rule, req);
    if req.upstreamTls.Some? {
      var u := Amended(rule, req).value;
      TargetAllowedExact(catalog, rule.organizationId, u.matcher, u.upstreamTls, x);
    }
  }

  /** An update keeps the intercepts in agreement exactly unless the service was updated and the
      row was not. */
  lemma UpdateKeepsIntercepts(w: World, v: World, rule: Rule, req: UpdateRequest)
    requires Sound(w) && rule.id in w.tables.rules && w.tables.rules[rule.id] == rule && CanonicalRule(rule)
    requires Amended(rule, req).Some? && UpdateLeaves(w, v, rule, Amended(rule, req).value, req) && InterceptsAgree(w)
    ensures InterceptsAgree(v) <==> !Drifts(w, v)
  {
    RuleFacts(w, rule.id);
    OneNamed(w);
    UnmovedIntercepts(rule, req);
    AmendedKeeps(rule, req);
    hide Sound, ServiceName, InterceptOf, CanonicalRule, Amended;
    var updated := Amended(rule, req).value;
    if MovesService(rule, updated, req) && rule.serviceId in w.fabric.services {
      MovedAgrees(w, v, rule, updated);
    } else {
      assert v.fabric == w.fabric;
      SameFabricAgrees(w, v, rule, updated);
    }
  }

  lemma OneNamed(w: World)
    requires Sound(w)
    ensures forall id, other | id in w.fabric.services && other in w.fabric.services &&
              w.fabric.services[id].name == w.fabric.services[other].name :: id == other
  {
  }

  lemma SameFabricAgrees(w: World, v: World, rule: Rule, updated: Rule)
    requires InterceptsAgree(w) && v.fabric == w.fabric
    requires rule.id in w.tables.rules && w.tables.rules[rule.id] == rule && updated.id == rule.id
    requires v.tables == w.tables || (v.tables == UpdateRule(w.tables, updated) && InterceptOf(updated.matcher) == InterceptOf(rule.matcher))
    ensures InterceptsAgree(v) && !Drifts(w, v)
  {
    hide ServiceName, InterceptOf;
  }

  lemma MovedAgrees(w: World, v: World, rule: Rule, updated: Rule)
    requires InterceptsAgree(w)
    requires rule.id in w.tables.rules && w.tables.rules[rule.id] == rule && updated.id == rule.id
    requires rule.serviceId in w.fabric.services && w.fabric.services[rule.serviceId].name == ServiceName(rule.id)
    requires forall id, other | id in w.fabric.services && other in w.fabric.services &&
               w.fabric.services[id].name == w.fabric.services[other].name :: id == other
    requires v.fabric == UpdateService(w.fabric, rule.serviceId, InterceptOf(updated.matcher))
    requires InterceptOf(updated.matcher) != InterceptOf(rule.matcher)
    requires v.tables == w.tables || v.tables == UpdateRule(w.tables, updated)
    ensures InterceptsAgree(v) <==> !Drifts(w, v)
  {
    hide ServiceName, InterceptOf;
    var id := rule.serviceId;
    assert v.fabric.services[id].intercept == InterceptOf(updated.matcher);
    assert w.fabric.services[id].intercept == InterceptOf(rule.matcher);
    if v.tables == w.tables {
      assert Drifts(w, v);
      assert v.fabric.services[id].name == ServiceName(rule.id);
    } else {
      forall r, other | r in v.tables.rules && other in v.fabric.services && v.fabric.services[other].name == ServiceName(r)
        ensures v.fabric.services[other].intercept == InterceptOf(v.tables.rules[r].matcher)
      {
        if other == id {
          ServiceNameInjective(r, rule.id);
        } else {
          assert r != rule.id;
        }
      }
    }
  }

  // ----- mediation ---------------------------------------------------------------------------

  /** One row was added, or one was removed. */
  ghost predicate OneRowApart(t: Tables, u: Tables, rule: Rule) {
    || (rule.id !in t.rules && u.rules == t.rules[rule.id := rule])
    || (rule.id in t.rules && t.rules[rule.id] == rule && u.rules == t.rules - {rule.id})
  }

  /** One row more, or one row less, matters only to the resource it names. */
  lemma OneRowNames(t: Tables, u: Tables, rule: Rule, mediated: set<Uuid>)
    requires CanonicalMatcher(rule.matcher) && MediationAgrees(t, mediated)
    requires OneRowApart(t, u, rule)
    ensures MediationAgrees(u, SyncedFor(u, mediated, rule.matcher))
  {
    var text := rule.matcher.privateResourceId;
    ResourceText(rule.matcher);
    hide CanonicalMatcher, UuidText, ParseUuid, Synced, MediationAgrees;
    forall x: Uuid | UuidText(x) != text
      ensures RulesNaming(u, x) == RulesNaming(t, x)
    {
      NamesOthers(t, u, rule, x);
    }
    match ParseUuid(text)
    case Some(id) =>
      forall x: Uuid | x != id
        ensures UuidText(x) != text
      {
        if UuidText(x) == text {
          ParseUuidText(x);
        }
      }
      SyncRestores(t, u, mediated, id);
    case None =>
      forall x: Uuid
        ensures UuidText(x) != text
      {
        ParseUuidText(x);
      }
      SameNaming(t, u, mediated);
  }

  lemma NamesOthers(t: Tables, u: Tables, rule: Rule, x: Uuid)
    requires OneRowApart(t, u, rule)
    requires UuidText(x) != rule.matcher.privateResourceId
    ensures RulesNaming(u, x) == RulesNaming(t, x)
  {
    hide UuidText;
  }

  lemma SameNaming(t: Tables, u: Tables, mediated: set<Uuid>)
    requires MediationAgrees(t, mediated) && forall x: Uuid :: RulesNaming(u, x) == RulesNaming(t, x)
    ensures MediationAgrees(u, mediated)
  {
    hide RulesNaming;
  }

  lemma ResourceText(m: Matcher)
    requires CanonicalMatcher(m)
    ensures m.privateResourceId == "" ==> ParseUuid(m.privateResourceId).None?
    ensures m.privateResourceId != "" ==>
              ParseUuid(m.privateResourceId).Some? && UuidText(ParseUuid(m.privateResourceId).value) == m.privateResourceId
  {
    if m.privateResourceId != "" {
      var id: Uuid :| UuidText(id) == m.privateResourceId;
      ParseUuidText(id);
    }
  }

  // ----- one request at a time -----------------------------------------------------------------

  /** What holds between requests. */
  ghost predicate Good(w: World, secrets: map<Uuid, Uuid>, catalog: map<Uuid, Resource>, pending: set<Uuid>) {
    RowsGood(w, secrets, catalog) && Undrawn(w, pending)
  }

  method ServeCreate(p: Platform, n: Networks, env: Env, secrets: map<Uuid, Uuid>, allowed: bool,
                     req: CreateRequest, id: Uuid,
                     ghost later: set<Uuid>)
    requires p.Valid() && !env.Shared? && Good(p.world, secrets, n.catalog, {id} + later) && id !in later
    modifies p, n
    ensures p.Valid() && Follows(old(p.world), p.world) && Good(p.world, secrets, n.catalog, later)
    ensures InterceptsAgree(old(p.world)) ==> InterceptsAgree(p.world)
    ensures Working(env) && MediationAgrees(old(p.world).tables, old(n.mediated)) ==>
      MediationAgrees(p.world.tables, n.mediated)
    ensures p.world == old(p.world) || CreateServes(old(p.world), p.world, secrets, n.catalog, allowed, req, id)
  {
    hide Sound, Evolves, Reaches, Follows, AllCanonical, SecretsChecked, TargetsFit, PrivateIffEmpty;
    hide InterceptsAgree, MediationAgrees;
    hide Admissible, Fresh, Input, CreateLeaves, Created, NewRule, SyncedFor, Introduces;
    ghost var start := p.world;
    RowsKnown(start);
    ObjectsKnown(start);
    var r := CreateEgressRule(p, n, env, secrets, allowed, req, id);
    FollowsFacts(start, p.world);
    if r.Ok? {
      CreatedIsNew(start, id, Input(req).value);
    }
    if p.world != start {
      CreateServed(start, p.world, id, req, secrets, n.catalog, old(n.mediated));
      UndrawnStay(start, p.world, {id}, later);
    }
    SameTablesMediate(start.tables, p.world.tables, n.mediated);
  }

  lemma InsertFits(t: Tables, u: Tables, rule: Rule, catalog: map<Uuid, Resource>)
    requires u == t || u == InsertRule(t, rule)
    requires TargetFits(rule, catalog)
    ensures TargetsFit(t, catalog) ==> TargetsFit(u, catalog)
  {
    hide TargetFits;
  }

  lemma SameTablesMediate(t: Tables, u: Tables, mediated: set<Uuid>)
    ensures u == t && MediationAgrees(t, mediated) ==> MediationAgrees(u, mediated)
  {
    hide MediationAgrees;
  }

  lemma CreatedIsNew(w: World, id: Uuid, input: RuleInput)
    requires Fresh(w, id)
    ensures Created(w, id, input) != w
  {
    assert id in Created(w, id, input).tables.used;
  }

  /** The row a create stores is canonical, and its secrets and its resource were checked. */
  lemma CreatedRow(w: World, id: Uuid, req: CreateRequest, secrets: map<Uuid, Uuid>, catalog: map<Uuid, Resource>)
    requires Input(req).Ok? && Admissible(Input(req).value, secrets, catalog)
    ensures var rule := NewRule(w, id, Input(req).value);
            && CanonicalRule(rule) && CanonicalMatcher(rule.matcher)
            && SecretsKnown(secrets, rule.organizationId, SecretIds(rule))
            && TargetFits(rule, catalog)
  {
    var rule := NewRule(w, id, Input(req).value);
    AcceptedIsCanonical(req.organizationId, req.name, req.description, req.matcher, req.effect, req.upstreamTls, id,
                        rule.serviceId);
    hide Input, CanonicalMatcher, CanonicalEffect, IsNoopEffect, SecretIds, SecretsKnown, ParseUuid;
  }

  lemma CreateServed(w: World, v: World, id: Uuid, req: CreateRequest, secrets: map<Uuid, Uuid>,
                     catalog: map<Uuid, Resource>,
                     mediated: set<Uuid>)
    requires Sound(w) && AllCanonical(w.tables) && SecretsChecked(w.tables, secrets) && Fresh(w, id)
    requires Input(req).Ok? && Admissible(Input(req).value, secrets, catalog) && CreateLeaves(w, v, id, Input(req).value)
    ensures AllCanonical(v.tables) && SecretsChecked(v.tables, secrets)
    ensures TargetsFit(w.tables, catalog) ==> TargetsFit(v.tables, catalog)
    ensures InterceptsAgree(w) ==> InterceptsAgree(v)
    ensures Introduces(w, v, {id})
    ensures v == Created(w, id, Input(req).value) && MediationAgrees(w.tables, mediated) ==>
              MediationAgrees(v.tables, SyncedFor(v.tables, mediated, Input(req).value.matcher))
  {
    hide Sound, FabricSound, Input, AllCanonical, SecretsChecked, CanonicalRule, SecretIds, InterceptsAgree, TargetsFit;
    hide MediationAgrees, SyncedFor, ServiceName, Introduces, Admissible, SecretsKnown, CanonicalMatcher;
    RowsKnown(w);
    ObjectsKnown(w);
    assert id !in w.tables.rules;
    var input := Input(req).value;
    var rule := NewRule(w, id, input);
    CreatedRow(w, id, req, secrets, catalog);
    InsertFits(w.tables, v.tables, rule, catalog);
    CreateKeepsRows(w.tables, v.tables, rule, secrets);
    CreateIntroduces(w, v, id, input);
    if InterceptsAgree(w) {
      CreateKeepsIntercepts(w, v, id, input);
    }
    if v == Created(w, id, input) && MediationAgrees(w.tables, mediated) {
      OneRowNames(w.tables, v.tables, rule, mediated);
    }
  }

  method ServeUpdate(p: Platform, n: Networks, env: Env, secrets: map<Uuid, Uuid>, allowed: bool, id: Uuid,
                     req: UpdateRequest,
                     ghost later: set<Uuid>)
    requires p.Valid() && !env.Shared? && Good(p.world, secrets, n.catalog, later)
    modifies p
    ensures p.Valid() && Follows(old(p.world), p.world) && Good(p.world, secrets, n.catalog, later)
    ensures InterceptsAgree(old(p.world)) ==> (InterceptsAgree(p.world) <==> !Drifts(old(p.world), p.world))
    ensures env.Quiet? ==> !Drifts(old(p.world), p.world)
    ensures MediationAgrees(old(p.world).tables, n.mediated) ==> MediationAgrees(p.world.tables, n.mediated)
    ensures p.world == old(p.world) || UpdateServes(old(p.world), p.world, secrets, n.catalog, allowed, id, req)
  {
    hide Sound, Evolves, Reaches, Follows, AllCanonical, SecretsChecked, TargetsFit, PrivateIffEmpty;
    hide InterceptsAgree, MediationAgrees;
    hide Amended, UpdateAdmissible, UpdateLeaves, MovedFabric, MovesService, Fresh, Introduces, Drifts;
    ghost var start := p.world;
    RowsKnown(start);
    ObjectsKnown(start);
    var r := UpdateEgressRule(p, n, env, secrets, allowed, id, req);
    FollowsFacts(start, p.world);
    NoDrift(start);
    if r.Ok? {
      AmendedKeeps(start.tables.rules[id], req);
      WrittenDoesNotDrift(start, start.tables.rules[id], r.value, req);
    }
    if p.world != start {
      UpdateServed(start, p.world, start.tables.rules[id], req, secrets, n.catalog, n.mediated);
      UndrawnStay(start, p.world, {}, later);
    }
  }

  lemma NoDrift(w: World)
    ensures !Drifts(w, w)
  {
  }

  /** With the row written, what the service intercepts did not change alone. */
  lemma WrittenDoesNotDrift(w: World, rule: Rule, updated: Rule, req: UpdateRequest)
    requires rule.id in w.tables.rules && w.tables.rules[rule.id] == rule && updated.id == rule.id
    ensures !Drifts(w, World(UpdateRule(w.tables, updated), MovedFabric(w.fabric, rule, updated, req)))
  {
    hide InterceptOf;
    if MovesService(rule, updated, req) {
      assert UpdateRule(w.tables, updated).rules[rule.id].matcher != w.tables.rules[rule.id].matcher;
    }
  }

  lemma UpdateServed(w: World, v: World, rule: Rule, req: UpdateRequest, secrets: map<Uuid, Uuid>,
                     catalog: map<Uuid, Resource>,
                     mediated: set<Uuid>)
    requires Sound(w) && AllCanonical(w.tables) && SecretsChecked(w.tables, secrets)
    requires rule.id in w.tables.rules && w.tables.rules[rule.id] == rule
    requires Amended(rule, req).Some? && UpdateAdmissible(rule, req, secrets, catalog)
    requires UpdateLeaves(w, v, rule, Amended(rule, req).value, req)
    ensures AllCanonical(v.tables) && SecretsChecked(v.tables, secrets)
    ensures TargetsFit(w.tables, catalog) ==> TargetsFit(v.tables, catalog)
    ensures InterceptsAgree(w) ==> (InterceptsAgree(v) <==> !Drifts(w, v))
    ensures Introduces(w, v, {})
    ensures MediationAgrees(w.tables, mediated) ==> MediationAgrees(v.tables, mediated)
  {
    hide TargetsFit, Sound, Amended, UpdateAdmissible, CanonicalRule, SecretIds, InterceptsAgree, MediationAgrees;
    hide MovedFabric, MovesService, Introduces, Drifts, SecretsChecked, RulesNaming, TargetFits;
    AmendedKeeps(rule, req);
    UpdateIntroduces(w, v, rule, Amended(rule, req).value, req);
    if TargetsFit(w.tables, catalog) {
      FitsAt(w.tables, rule.id, catalog);
      AmendedFits(rule, req, secrets, catalog);
      UpdateFits(w.tables, v.tables, rule, Amended(rule, req).value, catalog);
    }
    UpdateKeepsRows(w.tables, v.tables, rule, req, secrets, catalog);
    if InterceptsAgree(w) {
      UpdateKeepsIntercepts(w, v, rule, req);
    }
    if MediationAgrees(w.tables, mediated) {
      SameNaming(w.tables, v.tables, mediated);
    }
  }

  lemma UpdateFits(t: Tables, u: Tables, rule: Rule, updated: Rule, catalog: map<Uuid, Resource>)
    requires rule.id in t.rules && t.rules[rule.id] == rule && updated.id == rule.id && SameRule(updated, rule)
    requires u == t || u == UpdateRule(t, updated)
    requires TargetFits(updated, catalog)
    ensures TargetsFit(t, catalog) ==> TargetsFit(u, catalog)
  {
    hide ParseUuid, TargetFits;
    assert TargetFits(updated.(organizationId := rule.organizationId), catalog) <==> TargetFits(updated, catalog);
  }

  lemma FitsAt(t: Tables, r: Uuid, catalog: map<Uuid, Resource>)
    requires r in t.rules && TargetsFit(t, catalog)
    ensures TargetFits(t.rules[r], catalog)
  {
  }

  /** An update keeps the resource, and checks it against every TLS block it takes. */
  lemma AmendedFits(rule: Rule, req: UpdateRequest, secrets: map<Uuid, Uuid>, catalog: map<Uuid, Resource>)
    requires CanonicalRule(rule) && Amended(rule, req).Some? && UpdateAdmissible(rule, req, secrets, catalog)
    requires TargetFits(rule, catalog)
    ensures TargetFits(Amended(rule, req).value, catalog)
  {
    AmendedMeaning(rule, req);
    AmendedKeeps(rule, req);
    AmendedCanonical(rule, req);
    hide ParseUuid, NormalRule, MatcherStoredAs, EffectStoredAs, TlsStoredAs, CanonicalMatcher, CanonicalEffect, SecretsKnown;
    hide IsNoopEffect, SecretIds;
  }

  lemma UpdateIntroduces(w: World, v: World, rule: Rule, updated: Rule, req: UpdateRequest)
    requires UpdateLeaves(w, v, rule, updated, req)
    ensures Introduces(w, v, {})
  {
    hide ServiceName, MovesService;
  }

  method ServeDelete(p: Platform, n: Networks, env: Env, secrets: map<Uuid, Uuid>, allowed: bool, id: Uuid,
                     ghost later: set<Uuid>)
    requires p.Valid() && !env.Shared? && Good(p.world, secrets, n.catalog, later)
    modifies p, n
    ensures p.Valid() && Follows(old(p.world), p.world) && Good(p.world, secrets, n.catalog, later)
    ensures InterceptsAgree(old(p.world)) ==> InterceptsAgree(p.world)
    ensures Working(env) && MediationAgrees(old(p.world).tables, old(n.mediated)) ==>
      MediationAgrees(p.world.tables, n.mediated)
    ensures p.world == old(p.world) || (allowed && DeleteServes(old(p.world), p.world, id))
  {
    hide Sound, Evolves, Reaches, Follows, AllCanonical, SecretsChecked, TargetsFit, PrivateIffEmpty;
    hide InterceptsAgree, MediationAgrees;
    hide SyncedFor, Fresh, Introduces, DeleteRule, ServiceDropped, HasAttachments;
    ghost var start := p.world;
    RowsKnown(start);
    ObjectsKnown(start);
    var r := DeleteEgressRule(p, n, env, allowed, id);
    FollowsFacts(start, p.world);
    if r.Ok? || p.world != start {
      DeleteServed(start, p.world, id, secrets, n.catalog, old(n.mediated));
      UndrawnStay(start, p.world, {}, later);
    }
    SameTablesMediate(start.tables, p.world.tables, n.mediated);
  }

  /** Without attachments the row goes; the service goes or stays. */
  lemma DeleteServed(w: World, v: World, id: Uuid, secrets: map<Uuid, Uuid>, catalog: map<Uuid, Resource>,
                     mediated: set<Uuid>)
    requires Sound(w) && PrivateIffEmpty(w.tables.rules) && AllCanonical(w.tables) && SecretsChecked(w.tables, secrets)
    requires id in w.tables.rules && v.tables == DeleteRule(w.tables, id)
    requires v.fabric == w.fabric || v.fabric == ServiceDropped(w.fabric, w.tables.rules[id].serviceId)
    ensures AllCanonical(v.tables) && SecretsChecked(v.tables, secrets)
    ensures TargetsFit(w.tables, catalog) ==> TargetsFit(v.tables, catalog)
    ensures InterceptsAgree(w) ==> InterceptsAgree(v)
    ensures Introduces(w, v, {})
    ensures MediationAgrees(w.tables, mediated) && !HasAttachments(w.tables, id) ==>
              MediationAgrees(v.tables, SyncedFor(v.tables, mediated, w.tables.rules[id].matcher))
    ensures MediationAgrees(w.tables, mediated) && (w.tables.rules[id].serviceId != NO_ID || v.tables == w.tables) ==>
              MediationAgrees(v.tables, mediated)
  {
    RowsKnown(w);
    ObjectsKnown(w);
    DroppedFewer(w, v, id);
    FewerKept(w, v, secrets, catalog);
    var rule := w.tables.rules[id];
    assert CanonicalRule(rule);
    hide Sound, CanonicalRule, SecretIds, InterceptsAgree, MediationAgrees, SyncedFor, Introduces, AllCanonical, SecretsChecked, TargetsFit,
      HasAttachments, ServiceDropped, RulesNaming;
    if MediationAgrees(w.tables, mediated) {
      if !HasAttachments(w.tables, id) {
        MatcherOf(rule);
        OneRowNames(w.tables, v.tables, rule, mediated);
      }
      if rule.serviceId != NO_ID || v.tables == w.tables {
        PublicNamesNothing(w.tables, v.tables, rule);
        SameNaming(w.tables, v.tables, mediated);
      }
    }
  }

  lemma MatcherOf(rule: Rule)
    ensures CanonicalRule(rule) ==> CanonicalMatcher(rule.matcher)
  {
  }

  lemma PublicNamesNothing(t: Tables, u: Tables, rule: Rule)
    requires rule.id in t.rules && t.rules[rule.id] == rule && (u.rules == t.rules || u.rules == t.rules - {rule.id})
    requires u.rules != t.rules ==> !rule.IsPrivate()
    ensures forall x: Uuid :: RulesNaming(u, x) == RulesNaming(t, x)
  {
    hide UuidText;
  }

  /** Rows and services may only go. */
  ghost predicate Fewer(w: World, v: World) {
    && v.tables.used == w.tables.used
    && (forall r | r in v.tables.rules :: r in w.tables.rules && v.tables.rules[r] == w.tables.rules[r])
    && (forall id | id in v.fabric.services :: id in w.fabric.services && v.fabric.services[id] == w.fabric.services[id])
  }

  lemma DroppedFewer(w: World, v: World, id: Uuid)
    requires id in w.tables.rules && v.tables == DeleteRule(w.tables, id)
    requires v.fabric == w.fabric || v.fabric == ServiceDropped(w.fabric, w.tables.rules[id].serviceId)
    ensures Fewer(w, v)
  {
  }

  lemma FewerKept(w: World, v: World, secrets: map<Uuid, Uuid>, catalog: map<Uuid, Resource>)
    requires Fewer(w, v)
    ensures TargetsFit(w.tables, catalog) ==> TargetsFit(v.tables, catalog)
    ensures AllCanonical(w.tables) ==> AllCanonical(v.tables)
    ensures SecretsChecked(w.tables, secrets) ==> SecretsChecked(v.tables, secrets)
    ensures InterceptsAgree(w) ==> InterceptsAgree(v)
    ensures Introduces(w, v, {})
  {
    hide ServiceName, InterceptOf, CanonicalRule, SecretIds, ParseUuid;
  }

  lemma SteadyServed(w: World, v: World, secrets: map<Uuid, Uuid>, catalog: map<Uuid, Resource>,
                     ids: set<Uuid>, mediated: set<Uuid>)
    requires Sound(w) && RulesSteady(w, v) && v.tables.used <= w.tables.used + ids
    ensures AllCanonical(w.tables) ==> AllCanonical(v.tables)
    ensures SecretsChecked(w.tables, secrets) ==> SecretsChecked(v.tables, secrets)
    ensures TargetsFit(w.tables, catalog) ==> TargetsFit(v.tables, catalog)
    ensures InterceptsAgree(w) ==> InterceptsAgree(v)
    ensures Introduces(w, v, ids)
    ensures MediationAgrees(w.tables, mediated) ==> MediationAgrees(v.tables, mediated)
  {
    SteadyIntroduces(w, v, ids);
    SteadyFits(w, v, catalog);
    hide Sound, AllCanonical, SecretsChecked, TargetsFit, InterceptsAgree, Introduces, MediationAgrees;
    hide RulesSteady, RulesNaming;
    SteadyKeeps(w, v, secrets);
    if MediationAgrees(w.tables, mediated) {
      SameNaming(w.tables, v.tables, mediated);
    }
  }

  lemma SteadyFits(w: World, v: World, catalog: map<Uuid, Resource>)
    requires RulesSteady(w, v)
    ensures TargetsFit(w.tables, catalog) ==> TargetsFit(v.tables, catalog)
  {
    hide ParseUuid;
  }

  lemma SteadyIntroduces(w: World, v: World, ids: set<Uuid>)
    requires Sound(w) && RulesSteady(w, v) && v.tables.used <= w.tables.used + ids
    ensures Introduces(w, v, ids)
  {
    RowsKnown(w);
    ObjectsKnown(w);
    hide Sound, FabricSound, ServiceName;
    forall id | id in v.fabric.services
      ensures (id in w.fabric.services && v.fabric.services[id].name == w.fabric.services[id].name)
              || exists r: Uuid | r in w.tables.used + ids :: v.fabric.services[id].name == ServiceName(r)
    {
      if !(id in w.fabric.services && v.fabric.services[id] == w.fabric.services[id]) {
        var r :| r in w.tables.rules && v.fabric.services[id] == RuleService(r, w.tables.rules[r].matcher);
        assert r in w.tables.used + ids;
      }
    }
  }

  lemma UndrawnUnused(w: World, id: Uuid, later: set<Uuid>)
    requires Undrawn(w, {id} + later)
    ensures id !in w.tables.used && Undrawn(w, later)
  {
    assert Fresh(w, id);
  }

  method ServeAttach(p: Platform, n: Networks, env: Env, d: Directory, secrets: map<Uuid, Uuid>, allowed: bool,
                     ruleId: Uuid,
                     target: Target, id: Uuid, ghost later: set<Uuid>)
    requires p.Valid() && !env.Shared? && Good(p.world, secrets, n.catalog, {id} + later) && id !in later
    modifies p
    ensures p.Valid() && Follows(old(p.world), p.world) && Good(p.world, secrets, n.catalog, later)
    ensures AttachLeaves(old(p.world), p.world, ruleId, target, id)
    ensures InterceptsAgree(old(p.world)) ==> InterceptsAgree(p.world)
    ensures MediationAgrees(old(p.world).tables, n.mediated) ==> MediationAgrees(p.world.tables, n.mediated)
  {
    hide Sound, Evolves, Reaches, Follows, AllCanonical, SecretsChecked, TargetsFit, PrivateIffEmpty, InterceptsAgree, MediationAgrees,
      Introduces, RulesSteady, AttachmentsKept, Fresh, AttachedWorld, AttachAdmissible;
    ghost var start := p.world;
    UndrawnUnused(start, id, later);
    var r := CreateEgressRuleAttachment(p, env, d, allowed, ruleId, target, id);
    FollowsFacts(start, p.world);
    SteadyServed(start, p.world, secrets, n.catalog, {id}, n.mediated);
    UndrawnStay(start, p.world, {id}, later);
  }

  method ServeDetach(p: Platform, n: Networks, env: Env, secrets: map<Uuid, Uuid>, allowed: bool, id: Uuid,
                     ghost later: set<Uuid>)
    requires p.Valid() && !env.Shared? && Good(p.world, secrets, n.catalog, later)
    modifies p
    ensures p.world == old(p.world) || (allowed && DetachServes(old(p.world), p.world, id))
    ensures p.Valid() && Follows(old(p.world), p.world) && Good(p.world, secrets, n.catalog, later)
    ensures InterceptsAgree(old(p.world)) ==> InterceptsAgree(p.world)
    ensures MediationAgrees(old(p.world).tables, n.mediated) ==> MediationAgrees(p.world.tables, n.mediated)
  {
    hide Sound, Evolves, Reaches, Follows, AllCanonical, SecretsChecked, TargetsFit, PrivateIffEmpty, InterceptsAgree, MediationAgrees,
      Introduces, RulesSteady, Fresh, DeleteAttachment, PolicyDropped;
    ghost var start := p.world;
    var r := DeleteEgressRuleAttachment(p, env, allowed, id);
    FollowsFacts(start, p.world);
    DetachSteady(start, p.world, id);
    SteadyServed(start, p.world, secrets, n.catalog, {}, n.mediated);
    UndrawnStay(start, p.world, {}, later);
  }

  lemma DetachSteady(w: World, v: World, id: Uuid)
    requires v == w ||
      (&& id in w.tables.attachments && v.tables == DeleteAttachment(w.tables, id)
       && (v.fabric == w.fabric || v.fabric == PolicyDropped(w.fabric, w.tables.attachments[id].policyId)))
    ensures RulesSteady(w, v) && v.tables.used == w.tables.used
  {
  }

  method ServePass(p: Platform, n: Networks, env: Env, secrets: map<Uuid, Uuid>, ghost later: set<Uuid>)
    requires p.Valid() && !env.Shared? && Good(p.world, secrets, n.catalog, later)
    modifies p
    ensures Steady(old(p.world), p.world)
    ensures p.Valid() && Follows(old(p.world), p.world) && Good(p.world, secrets, n.catalog, later)
    ensures InterceptsAgree(old(p.world)) ==> InterceptsAgree(p.world)
    ensures MediationAgrees(old(p.world).tables, n.mediated) ==> MediationAgrees(p.world.tables, n.mediated)
  {
    hide Sound, Evolves, Reaches, Follows, AllCanonical, SecretsChecked, TargetsFit, PrivateIffEmpty, InterceptsAgree, MediationAgrees,
      Introduces, RulesSteady, Fresh, Pass, Converged, NoOrphans;
    ghost var start := p.world;
    var r := Reconcile(p, env);
    FollowsFacts(start, p.world);
    SteadyServed(start, p.world, secrets, n.catalog, {}, n.mediated);
    UndrawnStay(start, p.world, {}, later);
  }

  lemma OutsideLegal(w: World, a: Action)
    requires IsOutside(a)
    ensures Legal(w, a)
  {
  }

  /** What others do leaves the rows alone and adds no service under a managed name. */
  lemma OutsideServed(w: World, a: Action)
    requires IsOutside(a)
    ensures Apply(w, a).tables == w.tables
    ensures InterceptsAgree(w) ==> InterceptsAgree(Apply(w, a))
    ensures Introduces(w, Apply(w, a), {})
  {
    hide ServiceName, InterceptOf, SweepsServiceName, SweepsPolicyName;
    forall r: Uuid
      ensures SweepsServiceName(ServiceName(r))
    {
      NamesAreSwept(r, Target(AgentTarget, 0));
    }
  }

  method ServeOutside(p: Platform, n: Networks, secrets: map<Uuid, Uuid>, a: Action, ghost later: set<Uuid>)
    requires p.Valid() && IsOutside(a) && Good(p.world, secrets, n.catalog, later)
    modifies p
    ensures p.Valid() && Follows(old(p.world), p.world) && Good(p.world, secrets, n.catalog, later)
    ensures InterceptsAgree(old(p.world)) ==> InterceptsAgree(p.world)
    ensures MediationAgrees(old(p.world).tables, n.mediated) ==> MediationAgrees(p.world.tables, n.mediated)
    ensures p.world == Apply(old(p.world), a)
  {
    hide Sound, Evolves, Reaches, Follows, AllCanonical, SecretsChecked, TargetsFit, PrivateIffEmpty, Legal;
    hide InterceptsAgree, MediationAgrees, Introduces, Fresh, Apply, IsOutside;
    ghost var start := p.world;
    OutsideLegal(start, a);
    p.Take(a);
    FollowsFacts(start, p.world);
    OutsideServed(start, a);
    UndrawnStay(start, p.world, {}, later);
  }

  // ----- whole runs ------------------------------------------------------------------------------

  /** Every id the run will draw, from the k-th request on. */
  function ToDraw(requests: seq<Request>, k: nat): set<Uuid>
    requires k <= |requests|
    decreases |requests| - k
  {
    if k == |requests| then {} else Drawn(requests[k]) + ToDraw(requests, k + 1)
  }

  /** No id is drawn twice. */
  ghost predicate DrawsApart(requests: seq<Request>) {
    forall k | 0 <= k < |requests| :: Drawn(requests[k]) !! ToDraw(requests, k + 1)
  }

  /** One request, whatever it is. */
  method ServeOne(p: Platform, n: Networks, env: Env, d: Directory, secrets: map<Uuid, Uuid>, request: Request,
                  ghost later: set<Uuid>)
    requires p.Valid() && !env.Shared? && Drawn(request) !! later
    requires request.Outside? ==> IsOutside(request.action)
    requires Good(p.world, secrets, n.catalog, Drawn(request) + later)
    modifies p, n
    ensures p.Valid() && Follows(old(p.world), p.world) && Good(p.world, secrets, n.catalog, later)
    ensures Serves(request, old(p.world), p.world, secrets, n.catalog)
    ensures InterceptsAgree(old(p.world)) ==> (InterceptsAgree(p.world) <==> !Strands(request, old(p.world), p.world))
    ensures env.Quiet? ==> !Strands(request, old(p.world), p.world)
    ensures Working(env) && MediationAgrees(old(p.world).tables, old(n.mediated)) ==>
      MediationAgrees(p.world.tables, n.mediated)
  {
    hide Sound, Evolves, Reaches, Follows, Good, InterceptsAgree, MediationAgrees, Drifts, IsOutside, Apply;
    hide CreateServes, UpdateServes, DeleteServes, DetachServes, AttachLeaves, Steady;
    assert request.Create? || request.Attach? || Drawn(request) + later == later;
    match request {
      case Create(allowed, create, id) => ServeCreate(p, n, env, secrets, allowed, create, id, later);
      case Update(allowed, id, update) => ServeUpdate(p, n, env, secrets, allowed, id, update, later);
      case Delete(allowed, id) => ServeDelete(p, n, env, secrets, allowed, id, later);
      case Attach(allowed, ruleId, target, id) => ServeAttach(p, n, env, d, secrets, allowed, ruleId, target, id, later);
      case Detach(allowed, id) => ServeDetach(p, n, env, secrets, allowed, id, later);
      case RunPass => ServePass(p, n, env, secrets, later);
      case Outside(action) => ServeOutside(p, n, secrets, action, later);
    }
  }

  /** An update that moved the service and left the row as it was. */
  ghost predicate Strands(request: Request, w: World, v: World) {
    request.Update? && Drifts(w, v)
  }

  lemma GoodRows(w: World, secrets: map<Uuid, Uuid>, catalog: map<Uuid, Resource>, pending: set<Uuid>)
    requires Good(w, secrets, catalog, pending)
    ensures RowsGood(w, secrets, catalog)
  {
  }

  /** Serves requests, passes and what others do to OpenZiti, one after the other, and hands back
      the worlds in between. Whatever fails, stored rows stay canonical and what they name stays
      checked. The intercepts agree in every world before which no update stranded its service,
      so always if nothing fails or nothing is updated; the mediation flags agree as long as
      store and networks service work, whatever OpenZiti does. */
  method Serve(p: Platform, n: Networks, env: Env, d: Directory, secrets: map<Uuid, Uuid>, requests: seq<Request>)
    returns (ghost trace: seq<World>)
    requires p.Valid() && !env.Shared?
    requires forall k | 0 <= k < |requests| && requests[k].Outside? :: IsOutside(requests[k].action)
    requires DrawsApart(requests) && Good(p.world, secrets, n.catalog, ToDraw(requests, 0))
    requires InterceptsAgree(p.world) && MediationAgrees(p.world.tables, n.mediated)
    modifies p, n
    ensures p.Valid() && Follows(old(p.world), p.world)
    ensures |trace| == |requests| + 1 && trace[0] == old(p.world) && trace[|requests|] == p.world
    ensures IsTrace(requests, trace, secrets, n.catalog)
    ensures env.Quiet? ==> NoneStranded(requests, trace, |requests|)
    ensures env.Quiet? || (forall k | 0 <= k < |requests| :: !requests[k].Update?) ==>
      InterceptsAgree(p.world) && CatchesAgree(p.world)
    ensures Working(env) ==> MediationAgrees(p.world.tables, n.mediated)
  {
    hide Sound, Evolves, Reaches, Follows, Good, RowsGood, InterceptsAgree, MediationAgrees, Drawn, Serves, Strands;
    hide IsOutside, IsTrace, NoneStranded, CatchesAgree;
    ghost var start := p.world;
    EvolvesSelf(start);
    FollowsFrom(start, start);
    GoodRows(start, secrets, n.catalog, ToDraw(requests, 0));
    trace := TraceStarts(requests, start, secrets, n.catalog);
    for k := 0 to |requests|
      invariant p.Valid() && Follows(start, p.world) && Good(p.world, secrets, n.catalog, ToDraw(requests, k))
      invariant |trace| == k + 1 && trace[0] == start && trace[k] == p.world
      invariant IsTrace(requests, trace, secrets, n.catalog)
      invariant env.Quiet? ==> NoneStranded(requests, trace, k)
      invariant Working(env) ==> MediationAgrees(p.world.tables, n.mediated)
    {
      ghost var before := p.world;
      ServeOne(p, n, env, d, secrets, requests[k], ToDraw(requests, k + 1));
      FollowsTransitive(start, before, p.world);
      GoodRows(p.world, secrets, n.catalog, ToDraw(requests, k + 1));
      TraceGrows(requests, trace, p.world, secrets, n.catalog);
      trace := trace + [p.world];
    }
    UnstrandedAgrees(requests, trace, secrets, n.catalog);
    if InterceptsAgree(p.world) {
      AgreementCatches(p.world);
    }
  }

  /** The k-th request leads from the k-th world to the next. */
  ghost predicate Leads(requests: seq<Request>, trace: seq<World>, k: nat, secrets: map<Uuid, Uuid>, catalog: map<Uuid, Resource>)
    requires k < |requests| && k + 1 < |trace|
  {
    Serves(requests[k], trace[k], trace[k + 1], secrets, catalog)
  }

  ghost predicate StrandsAt(requests: seq<Request>, trace: seq<World>, k: nat)
    requires k < |requests| && k + 1 < |trace|
  {
    Strands(requests[k], trace[k], trace[k + 1])
  }

  /** None of the first k requests stranded a service. */
  ghost predicate NoneStranded(requests: seq<Request>, trace: seq<World>, k: nat)
    requires k <= |requests| && k < |trace|
  {
    forall i: nat | i < k :: !StrandsAt(requests, trace, i)
  }

  /** The worlds of a run: each request leads from one to the next, stored rows are good in all of
      them, and intercepts agree in each before which nothing was stranded. */
  ghost predicate IsTrace(requests: seq<Request>, trace: seq<World>, secrets: map<Uuid, Uuid>, catalog: map<Uuid, Resource>) {
    && 0 < |trace| <= |requests| + 1
    && (forall k: nat | k < |trace| - 1 :: Leads(requests, trace, k, secrets, catalog))
    && (forall k: nat | k < |trace| :: RowsGood(trace[k], secrets, catalog))
    && (forall k: nat | k < |trace| && NoneStranded(requests, trace, k) :: InterceptsAgree(trace[k]))
  }

  lemma TraceStarts(requests: seq<Request>, w: World, secrets: map<Uuid, Uuid>, catalog: map<Uuid, Resource>)
    returns (trace: seq<World>)
    requires RowsGood(w, secrets, catalog) && InterceptsAgree(w)
    ensures trace == [w] && IsTrace(requests, trace, secrets, catalog) && NoneStranded(requests, trace, 0)
  {
    hide RowsGood, InterceptsAgree, Serves, Strands;
    trace := [w];
  }

  lemma TraceGrows(requests: seq<Request>, trace: seq<World>, w: World, secrets: map<Uuid, Uuid>, catalog: map<Uuid, Resource>)
    requires IsTrace(requests, trace, secrets, catalog) && |trace| <= |requests| && RowsGood(w, secrets, catalog)
    requires Serves(requests[|trace| - 1], trace[|trace| - 1], w, secrets, catalog)
    requires InterceptsAgree(trace[|trace| - 1]) ==>
               (InterceptsAgree(w) <==> !Strands(requests[|trace| - 1], trace[|trace| - 1], w))
    ensures IsTrace(requests, trace + [w], secrets, catalog)
    ensures NoneStranded(requests, trace + [w], |trace|) <==>
              NoneStranded(requests, trace, |trace| - 1) && !Strands(requests[|trace| - 1], trace[|trace| - 1], w)
  {
    hide RowsGood, InterceptsAgree, Serves, Strands, Leads, NoneStranded;
    var more, n := trace + [w], |trace| - 1;
    SameSteps(requests, trace, w, secrets, catalog);
    forall k: nat | k <= n
      ensures NoneStranded(requests, more, k) <==> NoneStranded(requests, trace, k)
    {
      SamePrefix(requests, trace, w, k);
    }
    LastStep(requests, more, n, secrets, catalog);
  }

  lemma SameSteps(requests: seq<Request>, trace: seq<World>, w: World, secrets: map<Uuid, Uuid>, catalog: map<Uuid, Resource>)
    requires 0 < |trace| <= |requests|
    ensures forall k: nat | k < |trace| - 1 ::
              Leads(requests, trace + [w], k, secrets, catalog) <==> Leads(requests, trace, k, secrets, catalog)
  {
    hide Serves;
    forall k: nat | k < |trace| - 1
      ensures Leads(requests, trace + [w], k, secrets, catalog) <==> Leads(requests, trace, k, secrets, catalog)
    {
      assert (trace + [w])[k] == trace[k] && (trace + [w])[k + 1] == trace[k + 1];
    }
  }

  lemma SamePrefix(requests: seq<Request>, trace: seq<World>, w: World, k: nat)
    requires k < |trace| <= |requests|
    ensures NoneStranded(requests, trace + [w], k) <==> NoneStranded(requests, trace, k)
  {
    hide Strands;
    forall i: nat | i < k
      ensures StrandsAt(requests, trace + [w], i) <==> StrandsAt(requests, trace, i)
    {
      assert (trace + [w])[i] == trace[i] && (trace + [w])[i + 1] == trace[i + 1];
    }
  }

  lemma LastStep(requests: seq<Request>, trace: seq<World>, n: nat, secrets: map<Uuid, Uuid>, catalog: map<Uuid, Resource>)
    requires n < |requests| && |trace| == n + 2
    ensures Leads(requests, trace, n, secrets, catalog) <==> Serves(requests[n], trace[n], trace[n + 1], secrets, catalog)
    ensures NoneStranded(requests, trace, n + 1) <==>
              NoneStranded(requests, trace, n) && !Strands(requests[n], trace[n], trace[n + 1])
  {
    hide Serves, Strands;
    assert StrandsAt(requests, trace, n) <==> Strands(requests[n], trace[n], trace[n + 1]);
  }

  lemma UnstrandedAgrees(requests: seq<Request>, trace: seq<World>, secrets: map<Uuid, Uuid>, catalog: map<Uuid, Resource>)
    requires IsTrace(requests, trace, secrets, catalog) && |trace| == |requests| + 1
    ensures (forall k | 0 <= k < |requests| :: !requests[k].Update?) ==> NoneStranded(requests, trace, |requests|)
    ensures NoneStranded(requests, trace, |requests|) ==> InterceptsAgree(trace[|requests|])
  {
    hide Drifts, RowsGood, InterceptsAgree, Serves;
  }

  /** An empty installation, every resource on the tunnel, is a place to start. */
  lemma EmptyIsGood(secrets: map<Uuid, Uuid>, catalog: map<Uuid, Resource>, pending: set<Uuid>)
    ensures Sound(EMPTY_WORLD) && Good(EMPTY_WORLD, secrets, catalog, pending)
    ensures InterceptsAgree(EMPTY_WORLD) && MediationAgrees(EMPTY_WORLD.tables, {})
  {
    EmptyWorldSound();
    forall x: Uuid
      ensures RulesNaming(EMPTY_WORLD.tables, x) == {}
    {
    }
  }
}
