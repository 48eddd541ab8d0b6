/** The reference counts the store answers for other services, and what they agree with. */
module References {
  import opened Wrappers
  import opened Ordering
  import opened Text
  import opened Uuids
  import opened Rules
  import opened Tables
  import opened Validation
  import opened Agreement
  import opened PrivateTargets

  // ----- secrets -----------------------------------------------------------------------------

  predicate HeaderNames(header: Option<Header>, text: string) {
    header.Some? && header.value.credential == SecretRef(text)
  }

  /** The stored texts are compared, header by header and in the TLS block. */
  predicate ReferencesSecret(rule: Rule, secretId: Uuid) {
    || (exists i | 0 <= i < |rule.effect.inject| :: HeaderNames(rule.effect.inject[i], UuidText(secretId)))
    || (rule.upstreamTls.Some? && rule.upstreamTls.value.trust == CaBundle(UuidText(secretId)))
  }

  function RulesReferencingSecret(t: Tables, secretId: Uuid): seq<Uuid> {
    AscendingIds(set r | r in t.rules && ReferencesSecret(t.rules[r], secretId))
  }

  lemma {:induction false} SecretsOfExact(inject: seq<Option<Header>>, n: nat, secretId: Uuid)
    requires n <= |inject|
    ensures secretId in SecretsOf(inject, n) <==>
              exists i | 0 <= i < n :: inject[i].Some? && SecretOf(inject[i].value) == Some(secretId)
  {
    hide SecretOf;
    if n > 0 {
      SecretsOfExact(inject, n - 1, secretId);
    }
  }

  /** A canonical text names a secret exactly if it parses to it. */
  lemma CanonicalText(text: string, id: Uuid)
    requires exists other: Uuid :: UuidText(other) == text
    ensures text == UuidText(id) <==> ParseUuid(text) == Some(id)
  {
    var other: Uuid :| UuidText(other) == text;
    ParseUuidText(other);
    ParseUuidText(id);
  }

  lemma HeaderNamesExact(h: Header, secretId: Uuid)
    requires CanonicalHeader(h)
    ensures HeaderNames(Some(h), UuidText(secretId)) <==> SecretOf(h) == Some(secretId)
  {
    hide ParseUuid, UuidText, Trim, ContainsAny;
    if h.credential.SecretRef? {
      CanonicalText(h.credential.secretId, secretId);
    }
  }

  /** The query finds a canonical rule for exactly the secrets validation reports for it. */
  lemma SecretReferencesExact(rule: Rule, secretId: Uuid)
    requires CanonicalRule(rule)
    ensures ReferencesSecret(rule, secretId) <==> secretId in SecretIds(rule)
  {
    var inject := rule.effect.inject;
    SecretsOfExact(inject, |inject|, secretId);
    forall i | 0 <= i < |inject|
      ensures inject[i].Some? && (HeaderNames(inject[i], UuidText(secretId)) <==> SecretOf(inject[i].value) == Some(secretId))
    {
      HeaderNamesExact(inject[i].value, secretId);
    }
    if rule.upstreamTls.Some? && rule.upstreamTls.value.trust.CaBundle? {
      CanonicalText(rule.upstreamTls.value.trust.secretId, secretId);
    }
  }

  /** The secrets of every stored rule: those the query lists it for are those a validation of
      the row reports, and each was found in the rule's organization. */
  lemma SecretAgreement(t: Tables, secrets: map<Uuid, Uuid>, r: Uuid, secretId: Uuid)
    requires AllCanonical(t) && SecretsChecked(t, secrets) && r in t.rules
    ensures var rule := t.rules[r];
            var again := NormalRule(UuidText(rule.organizationId), rule.name, rule.description,
                                    Some(rule.matcher), Some(rule.effect), rule.upstreamTls);
            && again.Ok?
            && (r in RulesReferencingSecret(t, secretId) <==> secretId in again.value.secretIds)
            && (r in RulesReferencingSecret(t, secretId) ==> secretId in secrets && secrets[secretId] == rule.organizationId)
  {
    hide CanonicalRule, ReferencesSecret, SecretIds, NormalRule;
    SecretReferencesExact(t.rules[r], secretId);
    CanonicalRevalidates(t.rules[r]);
    var found := RulesReferencingSecret(t, secretId);
    assert r in found <==> r in Elements(found);
  }

  // ----- private resources ----------------------------------------------------------------------

  /** A private rule names an http or https resource of its organization, and only a rule that names
      an https resource carries TLS settings. */
  ghost predicate TargetFits(rule: Rule, catalog: map<Uuid, Resource>) {
    if !rule.IsPrivate() then rule.upstreamTls == None
    else
      var id := ParseUuid(rule.matcher.privateResourceId);
      && id.Some? && id.value in catalog
      && catalog[id.value].organizationId == rule.organizationId
      && catalog[id.value].protocol != OtherProtocol
      && (rule.upstreamTls.Some? ==> catalog[id.value].protocol == Https)
  }

  ghost predicate TargetsFit(t: Tables, catalog: map<Uuid, Resource>) {
    forall r | r in t.rules :: TargetFits(t.rules[r], catalog)
  }

  /** The distinct resources named by an organization's rules; a text that is no id is skipped. */
  function MediatedResources(t: Tables, organizationId: Uuid): seq<Uuid> {
    AscendingIds(set r | r in t.rules && t.rules[r].organizationId == organizationId && t.rules[r].IsPrivate()
                         && ParseUuid(t.rules[r].matcher.privateResourceId).Some? ::
                   ParseUuid(t.rules[r].matcher.privateResourceId).value)
  }

  lemma NamedIsListed(t: Tables, catalog: map<Uuid, Resource>, x: Uuid)
    requires AllCanonical(t) && TargetsFit(t, catalog) && x in catalog
    ensures RulesNaming(t, x) != {} ==> x in MediatedResources(t, catalog[x].organizationId)
  {
    if RulesNaming(t, x) != {} {
      var r :| r in RulesNaming(t, x);
      ParseUuidText(x);
      ListedFor(t, catalog[x].organizationId, x);
      hide CanonicalRule, ParseUuid, UuidText, MediatedResources, AllCanonical;
      assert t.rules[r].IsPrivate();
    }
  }

  lemma ListedIsNamed(t: Tables, catalog: map<Uuid, Resource>, o: Uuid, x: Uuid)
    requires AllCanonical(t) && TargetsFit(t, catalog) && x in MediatedResources(t, o)
    ensures RulesNaming(t, x) != {} && x in catalog && o == catalog[x].organizationId
  {
    CanonicalResources(t);
    ListedFor(t, o, x);
    hide CanonicalRule, ParseUuid, UuidText, MediatedResources, AllCanonical;
    var r :| r in t.rules && t.rules[r].IsPrivate()
             && t.rules[r].organizationId == o && ParseUuid(t.rules[r].matcher.privateResourceId) == Some(x);
    assert r in RulesNaming(t, x);
  }

  /** The two queries about one resource agree, and no other organization is told of it: some rule
      names it exactly if it is listed for its own organization. So the mediation flag, where it
      agrees with the first query, agrees with the second. */
  lemma MediationAgreement(t: Tables, catalog: map<Uuid, Resource>, x: Uuid)
    requires AllCanonical(t) && TargetsFit(t, catalog) && x in catalog
    ensures RulesNaming(t, x) != {} <==> x in MediatedResources(t, catalog[x].organizationId)
    ensures forall o: Uuid | x in MediatedResources(t, o) :: o == catalog[x].organizationId
    ensures forall mediated: set<Uuid> | MediationAgrees(t, mediated) ::
              x in mediated <==> x in MediatedResources(t, catalog[x].organizationId)
  {
    hide AllCanonical, TargetsFit, RulesNaming, MediatedResources;
    NamedIsListed(t, catalog, x);
    forall o: Uuid | x in MediatedResources(t, o)
      ensures o == catalog[x].organizationId && RulesNaming(t, x) != {}
    {
      ListedIsNamed(t, catalog, o, x);
    }
  }

  lemma ListedFor(t: Tables, organizationId: Uuid, x: Uuid)
    ensures x in MediatedResources(t, organizationId) <==>
              exists r | r in t.rules && t.rules[r].IsPrivate() ::
                t.rules[r].organizationId == organizationId && ParseUuid(t.rules[r].matcher.privateResourceId) == Some(x)
  {
    hide ParseUuid;
    var listed := MediatedResources(t, organizationId);
    assert x in listed <==> x in Elements(listed);
  }

  lemma CanonicalResources(t: Tables)
    requires AllCanonical(t)
    ensures forall r | r in t.rules && t.rules[r].IsPrivate() ::
              var id := ParseUuid(t.rules[r].matcher.privateResourceId);
              id.Some? && UuidText(id.value) == t.rules[r].matcher.privateResourceId
  {
    forall r | r in t.rules && t.rules[r].IsPrivate()
      ensures var id := ParseUuid(t.rules[r].matcher.privateResourceId);
              id.Some? && UuidText(id.value) == t.rules[r].matcher.privateResourceId
    {
      assert CanonicalMatcher(t.rules[r].matcher);
      var id: Uuid :| UuidText(id) == t.rules[r].matcher.privateResourceId;
      ParseUuidText(id);
    }
  }
}
