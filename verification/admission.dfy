/** Who may dial what: the two worlds read through what OpenZiti does with a dial policy. */
module Admission {
  import opened Wrappers
  import opened Text
  import opened Uuids
  import opened Rules
  import opened Naming
  import opened Configs
  import opened Tables
  import opened Fabric
  import opened Worlds
  import opened Passes
  import opened Convergence
  import opened Theorems

  // ----- what a policy admits --------------------------------------------------------------------

  datatype Identity = Identity(id: ZitiId, tags: set<string>)

  /** The tag stamped on the identity of everything that runs under a target. */
  function StampedTag(target: Target): string {
    match target
    case Target(AgentTarget, id) => "agent-" + UuidText(id)
    case Target(EnvironmentTarget, id) => "environment-" + UuidText(id)
  }

  /** The tag the service of a private resource carries. */
  function ResourceTag(resourceId: string): string {
    "private-resource-" + resourceId
  }

  predicate PicksIdentity(selector: Selector, x: Identity) {
    match selector
    case ById(id) => id == x.id
    case ByTag(tag) => tag in x.tags
  }

  predicate PicksService(selector: Selector, id: ZitiId, service: Service) {
    match selector
    case ById(picked) => picked == id
    case ByTag(tag) => tag in service.roles
  }

  ghost predicate Admits(policy: Policy, x: Identity, id: ZitiId, service: Service) {
    && policy.kind == Dial
    && (exists s | s in policy.identityRoles :: PicksIdentity(s, x))
    && (exists s | s in policy.serviceRoles :: PicksService(s, id, service))
  }

  /** Some dial policy under a name of this service admits the identity to the live service. */
  ghost predicate Admitted(w: World, x: Identity, id: ZitiId) {
    && id in w.fabric.services
    && exists p | p in w.fabric.policies && SweepsPolicyName(w.fabric.policies[p].name) ::
         Admits(w.fabric.policies[p], x, id, w.fabric.services[id])
  }

  /** What a rule is about: its own service, or every service of its resource. */
  predicate Concerns(rule: Rule, id: ZitiId, service: Service) {
    if rule.IsPrivate() then ResourceTag(rule.matcher.privateResourceId) in service.roles else id == rule.serviceId
  }

  /** The policy admits what runs under the target, and nothing else, to what the rule is about. */
  ghost predicate AdmitsExactly(policy: Policy, target: Target, rule: Rule) {
    forall x, id, service ::
      Admits(policy, x, id, service) <==> StampedTag(target) in x.tags && Concerns(rule, id, service)
  }

  lemma StampedRole(target: Target)
    ensures IdentityRole(target) == ByTag(StampedTag(target))
  {
    hide UuidText;
  }

  lemma PolicyAdmits(ruleId: Uuid, target: Target, rule: Rule)
    ensures AdmitsExactly(DialPolicy(ruleId, target, ServiceRole(rule)), target, rule)
  {
    hide DialPolicyName, IdentityRole, StampedTag;
    var policy := DialPolicy(ruleId, target, ServiceRole(rule));
    StampedRole(target);
    forall x, id, service
      ensures Admits(policy, x, id, service) <==> StampedTag(target) in x.tags && Concerns(rule, id, service)
    {
      assert policy.identityRoles[0] in policy.identityRoles && policy.serviceRoles[0] in policy.serviceRoles;
    }
  }

  /** A policy that matches an attachment admits exactly its target to exactly what its rule is about. */
  lemma MatchingAdmits(policy: Policy, a: Attachment, rule: Rule)
    requires a.OneTarget() && PolicyMatchesAttachment(policy, a, rule)
    ensures AdmitsExactly(policy, a.TheTarget(), rule)
  {
    PolicyAdmits(a.ruleId, a.TheTarget(), rule);
    hide DialPolicyName, IdentityRole, ServiceRole, AdmitsExactly;
    assert policy == DialPolicy(a.ruleId, a.TheTarget(), ServiceRole(rule));
  }

  // ----- a converged world ------------------------------------------------------------------------

  /** An attachment binds a target of the identity to a rule about the service. */
  ghost predicate Entitled(w: World, x: Identity, id: ZitiId)
    requires id in w.fabric.services
  {
    exists a | Attached(w.tables, a) :: Entitles(w, a, x, id)
  }

  ghost predicate Entitles(w: World, a: Uuid, x: Identity, id: ZitiId)
    requires Attached(w.tables, a) && id in w.fabric.services
  {
    var b := w.tables.attachments[a];
    StampedTag(b.TheTarget()) in x.tags && Concerns(w.tables.rules[b.ruleId], id, w.fabric.services[id])
  }

  /** Without orphans every managed policy is the one stored for some attachment. */
  lemma PolicyOfAttachment(w: World, p: ZitiId) returns (a: Uuid)
    requires Sound(w) && Converged(w) && NoOrphans(w)
    requires p in w.fabric.policies && SweepsPolicyName(w.fabric.policies[p].name)
    ensures Attached(w.tables, a) && w.tables.attachments[a].policyId == p && PolicyMatches(w, a)
  {
    ObjectsKnown(w);
    RowsKnown(w);
    hide Sound, DialPolicyName, SweepsPolicyName, RuleSettled, PolicyMatchesAttachment, ManagedServiceNames;
    var name := w.fabric.policies[p].name;
    assert name in ManagedPolicyNames(w.tables);
    a :| a in w.tables.attachments && w.tables.attachments[a].OneTarget() &&
         name == DialPolicyName(w.tables.attachments[a].ruleId, w.tables.attachments[a].TheTarget());
    AttachmentFacts(w, a);
  }

  lemma MatchedAdmits(w: World, a: Uuid, x: Identity, id: ZitiId)
    requires PolicyMatches(w, a) && id in w.fabric.services
    ensures Admits(w.fabric.policies[w.tables.attachments[a].policyId], x, id, w.fabric.services[id]) <==>
              Entitles(w, a, x, id)
  {
    var b := w.tables.attachments[a];
    MatchingAdmits(w.fabric.policies[b.policyId], b, w.tables.rules[b.ruleId]);
    hide PolicyMatchesAttachment, Admits, StampedTag, Concerns;
  }

  /** In agreement: whoever is admitted to a live service is entitled to it, and the other way round. */
  lemma AdmittedExact(w: World, x: Identity, id: ZitiId)
    requires Sound(w) && Converged(w) && NoOrphans(w) && id in w.fabric.services
    ensures Admitted(w, x, id) <==> Entitled(w, x, id)
  {
    hide Sound, NoOrphans, RuleSettled, Admits, Entitles, PolicyMatchesAttachment, SweepsPolicyName;
    if Admitted(w, x, id) {
      var p :| p in w.fabric.policies && SweepsPolicyName(w.fabric.policies[p].name) &&
               Admits(w.fabric.policies[p], x, id, w.fabric.services[id]);
      var a := PolicyOfAttachment(w, p);
      MatchedAdmits(w, a, x, id);
    }
    if Entitled(w, x, id) {
      var a :| Attached(w.tables, a) && Entitles(w, a, x, id);
      MatchedAdmits(w, a, x, id);
      ManagedName(w, a);
    }
  }

  lemma ManagedName(w: World, a: Uuid)
    requires PolicyMatches(w, a)
    ensures SweepsPolicyName(w.fabric.policies[w.tables.attachments[a].policyId].name)
  {
    var b := w.tables.attachments[a];
    NamesAreSwept(b.ruleId, b.TheTarget());
    hide DialPolicyName, SweepsPolicyName, IdentityRole, ServiceRole;
  }

  // ----- read rule by rule ----------------------------------------------------------------------------

  /** What runs under one target. */
  predicate RunsUnder(x: Identity, target: Target) {
    x.tags == {StampedTag(target)}
  }

  lemma StampedTagInjective(t: Target, u: Target)
    requires StampedTag(t) == StampedTag(u)
    ensures t == u
  {
    hide StampedTag, IdentityRole;
    StampedRole(t);
    StampedRole(u);
    IdentityRoleInjective(t, u);
  }

  /** Some attachment binds the rule to the target. */
  ghost predicate Bound(t: Tables, r: Uuid, target: Target) {
    exists a | Attached(t, a) :: t.attachments[a].ruleId == r && t.attachments[a].TheTarget() == target
  }

  /** Some attachment binds a rule that names the resource to the target. */
  ghost predicate BoundToResource(t: Tables, resourceId: string, target: Target) {
    exists a | Attached(t, a) ::
      t.rules[t.attachments[a].ruleId].matcher.privateResourceId == resourceId && t.attachments[a].TheTarget() == target
  }

  /** A service of the resource, as the networks service creates them. */
  ghost predicate ServesResource(service: Service, resourceId: string) {
    && resourceId != "" && !SweepsServiceName(service.name)
    && forall other: string :: ResourceTag(other) in service.roles <==> other == resourceId
  }

  /** A workload may dial the service of a public rule exactly while the rule is attached to its target,
      and a service of a private resource exactly while a rule that names the resource is. */
  ghost predicate AdmissionAgrees(w: World) {
    && (forall r, x, target | r in w.tables.rules && !w.tables.rules[r].IsPrivate() && RunsUnder(x, target) ::
          Admitted(w, x, w.tables.rules[r].serviceId) <==> Bound(w.tables, r, target))
    && (forall id, x, target, resourceId | id in w.fabric.services && ServesResource(w.fabric.services[id], resourceId)
                                           && RunsUnder(x, target) ::
          Admitted(w, x, id) <==> BoundToResource(w.tables, resourceId, target))
  }

  /** A rule is about the service of a public rule only if it is that rule: two settled rules have two
      services, and no service of a rule carries a resource's tag. */
  lemma ConcernsOwn(w: World, q: Uuid, r: Uuid)
    requires Sound(w) && RuleSettled(w, q) && RuleSettled(w, r) && !w.tables.rules[r].IsPrivate()
    ensures var id := w.tables.rules[r].serviceId;
            Concerns(w.tables.rules[q], id, w.fabric.services[id]) <==> q == r
  {
    RuleFacts(w, q);
    RuleFacts(w, r);
    hide Sound, ServiceName;
    var id := w.tables.rules[r].serviceId;
    assert SERVICE_ROLE != ResourceTag(w.tables.rules[q].matcher.privateResourceId) by {
      assert SERVICE_ROLE[0] != ResourceTag(w.tables.rules[q].matcher.privateResourceId)[0];
    }
    if !w.tables.rules[q].IsPrivate() && w.tables.rules[q].serviceId == id {
      ServiceNameInjective(q, r);
    }
  }

  /** Some attachment binds the rule to a target the identity runs under. */
  ghost predicate BoundFor(t: Tables, r: Uuid, x: Identity) {
    exists a | Attached(t, a) :: t.attachments[a].ruleId == r && StampedTag(t.attachments[a].TheTarget()) in x.tags
  }

  /** Any identity, running under however many targets. */
  lemma RuleAdmission(w: World, r: Uuid, x: Identity)
    requires Sound(w) && Converged(w) && NoOrphans(w) && r in w.tables.rules && !w.tables.rules[r].IsPrivate()
    ensures Admitted(w, x, w.tables.rules[r].serviceId) <==> BoundFor(w.tables, r, x)
  {
    hide Sound, NoOrphans, Concerns, StampedTag, Admitted, ServiceName, PolicyMatches;
    var id := w.tables.rules[r].serviceId;
    assert RuleSettled(w, r);
    AdmittedExact(w, x, id);
    forall a | Attached(w.tables, a)
      ensures Entitles(w, a, x, id) <==>
        w.tables.attachments[a].ruleId == r && StampedTag(w.tables.attachments[a].TheTarget()) in x.tags
    {
      assert RuleSettled(w, w.tables.attachments[a].ruleId);
      ConcernsOwn(w, w.tables.attachments[a].ruleId, r);
    }
  }

  lemma BoundUnder(t: Tables, r: Uuid, x: Identity, target: Target)
    requires RunsUnder(x, target)
    ensures BoundFor(t, r, x) <==> Bound(t, r, target)
  {
    hide StampedTag;
    forall a | Attached(t, a)
      ensures StampedTag(t.attachments[a].TheTarget()) in x.tags <==> t.attachments[a].TheTarget() == target
    {
      if StampedTag(t.attachments[a].TheTarget()) == StampedTag(target) {
        StampedTagInjective(t.attachments[a].TheTarget(), target);
      }
    }
  }

  lemma ConcernsResource(w: World, q: Uuid, id: ZitiId, resourceId: string)
    requires Sound(w) && RuleSettled(w, q) && id in w.fabric.services && ServesResource(w.fabric.services[id], resourceId)
    ensures Concerns(w.tables.rules[q], id, w.fabric.services[id]) <==> w.tables.rules[q].matcher.privateResourceId == resourceId
  {
    NamesAreSwept(q, Target(AgentTarget, 0));
    hide Sound, ServiceName, SweepsServiceName, ResourceTag;
  }

  lemma ResourceAdmission(w: World, id: ZitiId, x: Identity, target: Target, resourceId: string)
    requires Sound(w) && Converged(w) && NoOrphans(w) && id in w.fabric.services
    requires ServesResource(w.fabric.services[id], resourceId) && RunsUnder(x, target)
    ensures Admitted(w, x, id) <==> BoundToResource(w.tables, resourceId, target)
  {
    hide Sound, NoOrphans, Concerns, StampedTag, Admitted, ServiceName, PolicyMatches, ServesResource, RuleSettled;
    AdmittedExact(w, x, id);
    forall a | Attached(w.tables, a)
      ensures Entitles(w, a, x, id) <==>
        (w.tables.rules[w.tables.attachments[a].ruleId].matcher.privateResourceId == resourceId
         && w.tables.attachments[a].TheTarget() == target)
    {
      ConcernsResource(w, w.tables.attachments[a].ruleId, id, resourceId);
      if StampedTag(w.tables.attachments[a].TheTarget()) == StampedTag(target) {
        StampedTagInjective(w.tables.attachments[a].TheTarget(), target);
      }
    }
  }

  /** The meaning of convergence. */
  lemma ConvergedAdmits(w: World)
    requires Sound(w) && Converged(w) && NoOrphans(w)
    ensures AdmissionAgrees(w)
  {
    hide Sound, Converged, NoOrphans, Admitted, Bound, BoundToResource, ServesResource, RunsUnder;
    forall r, x, target | r in w.tables.rules && !w.tables.rules[r].IsPrivate() && RunsUnder(x, target)
      ensures Admitted(w, x, w.tables.rules[r].serviceId) <==> Bound(w.tables, r, target)
    {
      RuleAdmission(w, r, x);
      BoundUnder(w.tables, r, x, target);
    }
    forall id, x, target, resourceId | id in w.fabric.services && ServesResource(w.fabric.services[id], resourceId)
                                       && RunsUnder(x, target)
      ensures Admitted(w, x, id) <==> BoundToResource(w.tables, resourceId, target)
    {
      ResourceAdmission(w, id, x, target, resourceId);
    }
  }

  /** However handlers, passes, faults and outside edits were interleaved before, after two undisturbed
      passes a workload may dial exactly what is attached to its target. */
  lemma TwoPassAdmission(run: seq<Action>)
    requires LegalRun(EMPTY_WORLD, run)
    ensures AdmissionAgrees(Pass(Pass(Execute(EMPTY_WORLD, run))))
  {
    hide Sound, Pass, Converged, NoOrphans, AdmissionAgrees, LegalRun, Execute;
    EmptyWorldSound();
    RunSound(EMPTY_WORLD, run);
    TwoPasses(Execute(EMPTY_WORLD, run));
    ConvergedAdmits(Pass(Pass(Execute(EMPTY_WORLD, run))));
  }
}
