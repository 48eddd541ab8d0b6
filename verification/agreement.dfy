/** What handlers and passes that run one at a time keep true of the two worlds. */
module Agreement {
  import opened Wrappers
  import opened Text
  import opened Uuids
  import opened Rules
  import opened Naming
  import opened Configs
  import opened Tables
  import opened Fabric
  import opened Worlds
  import opened Passes
  import opened Convergence
  import opened Validation

  /** A service named for a stored rule intercepts what the stored matcher says. */
  ghost predicate InterceptsAgree(w: World) {
    forall r, id | r in w.tables.rules && id in w.fabric.services && w.fabric.services[id].name == ServiceName(r) ::
      w.fabric.services[id].intercept == InterceptOf(w.tables.rules[r].matcher)
  }

  /** The live service of a stored public rule catches exactly that rule's domain and ports. */
  ghost predicate CatchesAgree(w: World) {
    forall r | r in w.tables.rules && !w.tables.rules[r].IsPrivate() && w.tables.rules[r].serviceId in w.fabric.services ::
      CatchesExactly(w.fabric.services[w.tables.rules[r].serviceId].intercept, w.tables.rules[r].matcher)
  }

  lemma AgreementCatches(w: World)
    requires Sound(w) && InterceptsAgree(w)
    ensures CatchesAgree(w)
  {
    hide Sound, InterceptOf, CatchesExactly, ServiceName;
    forall r | r in w.tables.rules && !w.tables.rules[r].IsPrivate() && w.tables.rules[r].serviceId in w.fabric.services
      ensures CatchesExactly(w.fabric.services[w.tables.rules[r].serviceId].intercept, w.tables.rules[r].matcher)
    {
      RuleFacts(w, r);
      InterceptCatches(w.tables.rules[r].matcher);
    }
  }

  /** A TLS block as the service stores it. */
  ghost predicate CanonicalTls(tls: Option<UpstreamTls>, m: Matcher) {
    tls.Some? ==>
      && m.privateResourceId != ""
      && Trim(tls.value.serverName) == tls.value.serverName
      && match tls.value.trust
         case CaBundle(secret) => exists id: Uuid :: UuidText(id) == secret
         case InsecureSkipVerify(skip) => skip
         case NoTrust => true
  }

  ghost predicate CanonicalRule(rule: Rule) {
    && CanonicalMatcher(rule.matcher)
    && CanonicalEffect(rule.effect) && !IsNoopEffect(Some(rule.effect))
    && CanonicalTls(rule.upstreamTls, rule.matcher)
  }

  function CaSecret(tls: Option<UpstreamTls>): Option<Uuid> {
    if tls.Some? && tls.value.trust.CaBundle? then ParseUuid(tls.value.trust.secretId) else None
  }

  /** The secrets a stored rule names. */
  function SecretIds(rule: Rule): seq<Uuid> {
    AddSecret(SecretsOf(rule.effect.inject, |rule.effect.inject|), CaSecret(rule.upstreamTls))
  }

  /** The row written for an accepted input. */
  function RuleFrom(id: Uuid, input: RuleInput, serviceId: ZitiId): Rule {
    Rule(id, input.organizationId, input.name, input.description, input.matcher, input.effect, input.upstreamTls, serviceId)
  }

  lemma TlsCanonical(tls: Option<UpstreamTls>, m: Matcher)
    requires NormalTls(tls, m).Ok?
    ensures CanonicalTls(NormalTls(tls, m).value.0, m)
    ensures NormalTls(tls, m).value.1 == CaSecret(NormalTls(tls, m).value.0)
  {
    if tls.Some? {
      TrimIdempotent(tls.value.serverName);
      if tls.value.trust.CaBundle? {
        var id := ParseUuid(Trim(tls.value.trust.secretId)).value;
        ParseUuidText(id);
        assert UuidText(id) == NormalTls(tls, m).value.0.value.trust.secretId;
      }
    }
  }

  /** An accepted input makes a canonical row that names exactly the secrets reported for it. */
  lemma AcceptedIsCanonical(organization: string, name: string, description: string, matcher: Option<Matcher>,
                            effect: Option<Effect>, tls: Option<UpstreamTls>, id: Uuid, serviceId: ZitiId)
    ensures NormalRule(organization, name, description, matcher, effect, tls).Ok? ==>
              var input := NormalRule(organization, name, description, matcher, effect, tls).value;
              CanonicalRule(RuleFrom(id, input, serviceId)) && SecretIds(RuleFrom(id, input, serviceId)) == input.secretIds
  {
    hide Trim, ParseUuid, UuidText, NormalMatcher, NormalEffect, NormalTls, IsNoopEffect, CanonicalMatcher;
    hide CanonicalEffect;
    hide SecretsOf, CaSecret, CanonicalTls;
    if NormalRule(organization, name, description, matcher, effect, tls).Ok? {
      MatcherCanonical(matcher);
      EffectCanonical(effect);
      NotNoop(effect);
      TlsCanonical(tls, NormalMatcher(matcher).value);
    }
  }

  /** Validating a canonical row again accepts it, keeps matcher and effect, keeps the TLS block
      unless it is the empty one, and reports the row's secrets. */
  lemma CanonicalRevalidates(rule: Rule)
    requires CanonicalRule(rule)
    ensures var again := NormalRule(UuidText(rule.organizationId), rule.name, rule.description,
                                    Some(rule.matcher), Some(rule.effect), rule.upstreamTls);
            && again.Ok?
            && again.value.organizationId == rule.organizationId
            && again.value.matcher == rule.matcher && again.value.effect == rule.effect
            && again.value.upstreamTls == (if rule.upstreamTls == Some(EMPTY_BLOCK) then None else rule.upstreamTls)
            && again.value.secretIds == SecretIds(rule)
  {
    hide Trim, ParseUuid, UuidText, NormalMatcher, NormalEffect, NormalTls, IsNoopEffect, CanonicalMatcher;
    hide CanonicalEffect;
    hide SecretsOf, CaSecret, CanonicalTls;
    CanonicalMatcherFixed(rule.matcher);
    CanonicalEffectFixed(rule.effect);
    CanonicalTlsFixed(rule.upstreamTls, rule.matcher);
    UuidTextTrimmed(rule.organizationId);
    ParseUuidText(rule.organizationId);
  }

  lemma CanonicalTlsFixed(tls: Option<UpstreamTls>, m: Matcher)
    requires CanonicalTls(tls, m)
    ensures NormalTls(tls, m) == Ok((if tls == Some(EMPTY_BLOCK) then None else tls, CaSecret(tls)))
  {
    if tls.Some? && tls.value.trust.CaBundle? {
      var id: Uuid :| UuidText(id) == tls.value.trust.secretId;
      ParseUuidText(id);
      UuidTextTrimmed(id);
    }
  }

  // ----- the invariant of runs in which nobody interferes -------------------------------------

  ghost predicate AllCanonical(t: Tables) {
    forall r | r in t.rules :: CanonicalRule(t.rules[r])
  }

  /** Every secret a stored rule names was found in the rule's organization. */
  ghost predicate SecretsChecked(t: Tables, secrets: map<Uuid, Uuid>) {
    forall r, s | r in t.rules && s in SecretIds(t.rules[r]) :: s in secrets && secrets[s] == t.rules[r].organizationId
  }

  /** Rules keep everything but the stored id, and every service is an old one or the one a
      stored rule asks for. */
  ghost predicate RulesSteady(w: World, v: World) {
    && v.tables.rules.Keys == w.tables.rules.Keys
    && (forall r | r in w.tables.rules :: v.tables.rules[r] == w.tables.rules[r].(serviceId := v.tables.rules[r].serviceId))
    && (forall id | id in v.fabric.services ::
          || (id in w.fabric.services && v.fabric.services[id] == w.fabric.services[id])
          || exists r | r in w.tables.rules :: v.fabric.services[id] == RuleService(r, w.tables.rules[r].matcher))
  }

  /** What a pass may do, whole or cut short: fill in or replace stored ids, add services for
      stored rules, and drop or replace objects. */
  ghost predicate Steady(w: World, v: World) {
    && RulesSteady(w, v)
    && v.tables.used == w.tables.used
    && v.tables.attachments.Keys == w.tables.attachments.Keys
  }

  lemma SteadySelf(w: World)
    ensures Steady(w, w)
  {
  }

  lemma SteadyTransitive(u: World, v: World, w: World)
    requires RulesSteady(u, v) && RulesSteady(v, w)
    ensures RulesSteady(u, w)
  {
    hide RuleService;
    forall id | id in w.fabric.services
      ensures (id in u.fabric.services && w.fabric.services[id] == u.fabric.services[id])
              || exists r | r in u.tables.rules :: w.fabric.services[id] == RuleService(r, u.tables.rules[r].matcher)
    {
      if !(id in v.fabric.services && w.fabric.services[id] == v.fabric.services[id]) {
        var r :| r in v.tables.rules && w.fabric.services[id] == RuleService(r, v.tables.rules[r].matcher);
        assert u.tables.rules[r].matcher == v.tables.rules[r].matcher;
      }
    }
  }

  lemma SteadyAgrees(w: World, v: World)
    requires RulesSteady(w, v) && InterceptsAgree(w)
    ensures InterceptsAgree(v)
  {
    hide ServiceName, InterceptOf;
    forall r, id | r in v.tables.rules && id in v.fabric.services && v.fabric.services[id].name == ServiceName(r)
      ensures v.fabric.services[id].intercept == InterceptOf(v.tables.rules[r].matcher)
    {
      assert v.tables.rules[r].matcher == w.tables.rules[r].matcher;
      if !(id in w.fabric.services && v.fabric.services[id] == w.fabric.services[id]) {
        var q :| q in w.tables.rules && v.fabric.services[id] == RuleService(q, w.tables.rules[q].matcher);
        ServiceNameInjective(r, q);
      }
    }
  }

  lemma CanonicalIgnoresId(rule: Rule, id: ZitiId)
    ensures CanonicalRule(rule) ==> CanonicalRule(rule.(serviceId := id))
    ensures SecretIds(rule.(serviceId := id)) == SecretIds(rule)
  {
    hide CanonicalMatcher, CanonicalEffect, CanonicalTls, IsNoopEffect, SecretsOf, CaSecret;
  }

  lemma SteadyCanonical(t: Tables, u: Tables)
    requires u.rules.Keys == t.rules.Keys
    requires forall r | r in t.rules :: u.rules[r] == t.rules[r].(serviceId := u.rules[r].serviceId)
    ensures AllCanonical(t) ==> AllCanonical(u)
    ensures forall r | r in t.rules :: SecretIds(u.rules[r]) == SecretIds(t.rules[r])
  {
    hide CanonicalRule, SecretIds;
    forall r | r in t.rules
      ensures CanonicalRule(t.rules[r]) ==> CanonicalRule(u.rules[r])
      ensures SecretIds(u.rules[r]) == SecretIds(t.rules[r])
    {
      CanonicalIgnoresId(t.rules[r], u.rules[r].serviceId);
    }
  }

  /** Whatever part of a pass was carried out, the agreement stands. */
  lemma SteadyKeeps(w: World, v: World, secrets: map<Uuid, Uuid>)
    requires RulesSteady(w, v)
    ensures InterceptsAgree(w) ==> InterceptsAgree(v)
    ensures AllCanonical(w.tables) ==> AllCanonical(v.tables)
    ensures SecretsChecked(w.tables, secrets) ==> SecretsChecked(v.tables, secrets)
    ensures forall x: Uuid :: RulesNaming(v.tables, x) == RulesNaming(w.tables, x)
  {
    hide ServiceName, InterceptOf, CanonicalRule, SecretIds, RuleService, InterceptsAgree;
    SteadyCanonical(w.tables, v.tables);
    if InterceptsAgree(w) {
      SteadyAgrees(w, v);
    }
  }

  // ----- the steps of a pass are steady -------------------------------------------------------

  lemma ReconciledSteady(w: World, rule: Rule)
    requires Sound(w) && rule.id in w.tables.rules && w.tables.rules[rule.id] == rule && !rule.IsPrivate()
    ensures Steady(w, World(w.tables, ReconciledService(w.fabric, rule).0))
  {
    RuleFacts(w, rule.id);
    hide Sound, FabricSound, ServiceName;
  }

  lemma SetIdSteady(w: World, id: Uuid, zitiId: ZitiId)
    ensures Steady(w, World(SetServiceId(w.tables, id, zitiId), w.fabric))
    ensures Steady(w, World(SetPolicyId(w.tables, id, zitiId), w.fabric))
  {
  }

  lemma DeleteSteady(w: World, id: ZitiId)
    ensures Steady(w, World(w.tables, DeleteService(w.fabric, id)))
    ensures Steady(w, World(w.tables, DeletePolicy(w.fabric, id)))
  {
  }

  lemma SteadyStep(u: World, v: World, w: World)
    ensures Steady(u, v) && Steady(v, w) ==> Steady(u, w)
    ensures RulesSteady(u, v) && RulesSteady(v, w) ==> RulesSteady(u, w)
  {
    hide RulesSteady;
    if RulesSteady(u, v) && RulesSteady(v, w) {
      SteadyTransitive(u, v, w);
    }
  }

  /** Policies may come and go, services may only go. */
  lemma FewerServicesSteady(w: World, f: Fabric)
    requires forall id | id in f.services :: id in w.fabric.services && f.services[id] == w.fabric.services[id]
    ensures Steady(w, World(w.tables, f))
  {
  }
}
