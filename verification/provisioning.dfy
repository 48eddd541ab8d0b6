/** Provisioning services and policies, call by call, and what each helper amounts to when
    nothing interferes. */
module Provisioning {
  import opened Wrappers
  import opened Uuids
  import opened Rules
  import opened Naming
  import opened Configs
  import opened Tables
  import opened Fabric
  import opened Worlds
  import opened Passes
  import opened Convergence
  import opened Admission
  import opened Platforms

  lemma OwnsServiceStays(w: World, v: World, id: ZitiId, ruleId: Uuid)
    requires Evolves(w, v) && OwnsService(w.fabric, id, ruleId)
    ensures OwnsService(v.fabric, id, ruleId)
  {
  }

  lemma LiveOwns(w: World, id: ZitiId, ruleId: Uuid)
    requires Sound(w) && id in w.fabric.services && w.fabric.services[id].name == ServiceName(ruleId)
    ensures OwnsService(w.fabric, id, ruleId)
  {
  }

  lemma LiveOwnsPolicy(w: World, id: ZitiId, ruleId: Uuid, target: Target)
    requires Sound(w) && id in w.fabric.policies && w.fabric.policies[id].name == DialPolicyName(ruleId, target)
    ensures OwnsPolicy(w.fabric, id, ruleId, target)
  {
  }

  /** Nothing is left to do for the rule, or for the attachment. */
  predicate ServiceFits(f: Fabric, rule: Rule) {
    && rule.serviceId != NO_ID && rule.serviceId in f.services
    && ServiceMatchesRule(f.services[rule.serviceId], rule)
  }

  predicate PolicyFits(f: Fabric, a: Attachment, rule: Rule)
    requires a.OneTarget()
  {
    && a.policyId != NO_ID && a.policyId in f.policies
    && PolicyMatchesAttachment(f.policies[a.policyId], a, rule)
  }

  method UpdateRuleService(p: Platform, env: Env, rule: Rule) returns (r: Result<ZitiId, Error>)
    requires p.Valid()
    requires rule.serviceId == NO_ID || OwnsService(p.world.fabric, rule.serviceId, rule.id)
    modifies p
    ensures p.Valid() && Follows(old(p.world), p.world)
    ensures r.Ok? ==> OwnsService(p.world.fabric, r.value, rule.id)
    ensures p.statements == old(p.statements)
    ensures !env.Shared? ==> p.world.tables == old(p.world).tables
    ensures !env.Shared? && rule.serviceId != NO_ID && r.Ok? ==>
      && r.value == rule.serviceId && rule.serviceId in old(p.world).fabric.services
      && p.world.fabric == UpdateService(old(p.world).fabric, rule.serviceId, InterceptOf(rule.matcher))
    ensures !env.Shared? && rule.serviceId != NO_ID && r.Ok? ==>
      r.value in p.world.fabric.services && CatchesExactly(p.world.fabric.services[r.value].intercept, rule.matcher)
    ensures !env.Shared? && rule.serviceId != NO_ID ==>
      p.world.fabric == if ZitiOutcome(env, old(p.calls)) == LostRequest then old(p.world).fabric
                        else UpdateService(old(p.world).fabric, rule.serviceId, InterceptOf(rule.matcher))
    ensures !env.Shared? && rule.serviceId != NO_ID ==>
      (r.Ok? <==> ZitiOutcome(env, old(p.calls)) == Done && rule.serviceId in old(p.world).fabric.services)
  {
    hide Sound, Evolves, ServiceName, CatchesExactly, InterceptOf;
    ghost var start := p.world;
    if rule.serviceId == NO_ID {
      r := p.CreateService(env, rule.id, rule.matcher);
      return;
    }
    InterceptCatches(rule.matcher);
    r := p.UpdateService(env, rule.serviceId, InterceptOf(rule.matcher));
    OwnsServiceStays(start, p.world, rule.serviceId, rule.id);
    if r.Err? {
      return Err(Internal);
    }
  }

  method ReconcileRuleService(p: Platform, env: Env, rule: Rule) returns (r: Result<ZitiId, Error>)
    requires p.Valid()
    requires rule.serviceId == NO_ID || OwnsService(p.world.fabric, rule.serviceId, rule.id)
    modifies p
    ensures p.Valid() && Follows(old(p.world), p.world)
    ensures r.Ok? ==> OwnsService(p.world.fabric, r.value, rule.id)
    ensures p.statements == old(p.statements)
    ensures !env.Shared? ==> p.world.tables == old(p.world).tables
    ensures !env.Shared? && r.Ok? ==> (p.world.fabric, r.value) == ReconciledService(old(p.world).fabric, rule)
    ensures !env.Shared? ==>
      p.world.fabric == old(p.world).fabric || p.world.fabric == ReconciledService(old(p.world).fabric, rule).0
    ensures env.Quiet? ==> r.Ok?
    ensures env.Quiet? && ServiceFits(old(p.world).fabric, rule) ==> p.writes == old(p.writes)
  {
    hide Sound, Evolves, ServiceName;
    ghost var start := p.world;
    if rule.serviceId == NO_ID {
      r := p.CreateService(env, rule.id, rule.matcher);
      return;
    }
    var found := p.GetService(env, rule.serviceId);
    if found.Err? {
      if found.error != ZitiNotFound {
        return Err(Internal);
      }
      r := p.CreateService(env, rule.id, rule.matcher);
      return;
    }
    if ServiceMatchesRule(found.value, rule) {
      LiveOwns(p.world, rule.serviceId, rule.id);
      return Ok(rule.serviceId);
    }
    OwnsServiceStays(start, p.world, rule.serviceId, rule.id);
    r := UpdateRuleService(p, env, rule);
  }

  method DeleteRuleService(p: Platform, env: Env, id: ZitiId) returns (r: Result<(), Error>)
    requires p.Valid()
    modifies p
    ensures p.Valid() && Follows(old(p.world), p.world)
    ensures id == NO_ID ==> r.Ok? && p.world == old(p.world)
    ensures id != NO_ID ==>
      Performs(env, ZitiOutcome(env, old(p.calls)), old(p.world), p.world,
               WithFabric(old(p.world), DeleteService(old(p.world).fabric, id)), r.Ok?)
    ensures !env.Shared? && id != NO_ID ==>
      (r.Ok? <==> ZitiOutcome(env, old(p.calls)) == Done && id in old(p.world).fabric.services)
    ensures r.Err? ==> r.error == Internal
  {
    if id == NO_ID {
      EvolvesSelf(p.world);
      FollowsFrom(p.world, p.world);
      return Ok(());
    }
    r := p.DeleteService(env, id);
    if r.Err? {
      return Err(Internal);
    }
  }

  method DeleteAttachmentPolicy(p: Platform, env: Env, id: ZitiId) returns (r: Result<(), Error>)
    requires p.Valid()
    modifies p
    ensures p.Valid() && Follows(old(p.world), p.world)
    ensures id == NO_ID ==> r.Ok? && p.world == old(p.world)
    ensures id != NO_ID ==>
      Performs(env, ZitiOutcome(env, old(p.calls)), old(p.world), p.world,
               WithFabric(old(p.world), DeletePolicy(old(p.world).fabric, id)), r.Ok?)
    ensures !env.Shared? && id != NO_ID ==>
      (r.Ok? <==> ZitiOutcome(env, old(p.calls)) == Done && id in old(p.world).fabric.policies)
    ensures r.Err? ==> r.error == Internal
  {
    if id == NO_ID {
      EvolvesSelf(p.world);
      FollowsFrom(p.world, p.world);
      return Ok(());
    }
    r := p.DeletePolicy(env, id);
    if r.Err? {
      return Err(Internal);
    }
  }

  /** Deletes the stored policy and creates the wanted one under the freed name. */
  method ReplaceAttachmentPolicy(p: Platform, env: Env, a: Attachment, rule: Rule) returns (r: Result<ZitiId, Error>)
    requires p.Valid() && rule.id == a.ruleId && a.OneTarget() && a.policyId != NO_ID
    requires !env.Shared? ==>
      a.policyId in p.world.fabric.policies && OwnsPolicy(p.world.fabric, a.policyId, a.ruleId, a.TheTarget())
    modifies p
    ensures p.Valid() && Follows(old(p.world), p.world)
    ensures r.Ok? ==> OwnsPolicy(p.world.fabric, r.value, a.ruleId, a.TheTarget())
    ensures !env.Shared? ==> p.world.tables == old(p.world).tables
    ensures !env.Shared? ==> p.world.fabric.services == old(p.world).fabric.services
    ensures !env.Shared? && r.Ok? ==>
      (p.world.fabric, r.value) == AdoptedPolicy(DeletePolicy(old(p.world).fabric, a.policyId), WantedPolicy(a, rule))
    ensures env.Quiet? ==> r.Ok?
  {
    assert FabricSound(p.world.fabric);
    NameFreed(p.world.fabric, a, DialPolicyName(a.ruleId, a.TheTarget()));
    hide Sound, Evolves, CreatePolicy, CreatedPolicyId, Reaches, Follows, FabricSound, DialPolicyName;
    ghost var start := p.world;
    var deleted := DeleteAttachmentPolicy(p, env, a.policyId);
    if deleted.Err? {
      return Err(deleted.error);
    }
    ghost var freed := p.world;
    r := p.CreatePolicy(env, rule.id, a.TheTarget(), ServiceRole(rule), false);
    FollowsTransitive(start, freed, p.world);
    if r.Err? {
      return Err(Internal);
    }
  }

  /** The stored policy is live, or no live policy bears its name: nothing stale is there to be adopted. */
  predicate FindsOwnPolicy(f: Fabric, a: Attachment)
    requires a.OneTarget()
  {
    a.policyId in f.policies || PolicyNamed(f, DialPolicyName(a.ruleId, a.TheTarget())).None?
  }

  /** Then the policy the attachment ends up with admits exactly its target to what its rule is about. */
  lemma ReconciledAdmits(w: World, a: Attachment, rule: Rule)
    requires Sound(w) && a.OneTarget() && rule.id == a.ruleId
    requires a.policyId == NO_ID || OwnsPolicy(w.fabric, a.policyId, a.ruleId, a.TheTarget())
    ensures FindsOwnPolicy(w.fabric, a) ==>
              var (f, id) := ReconciledPolicy(w.fabric, a, rule);
              id in f.policies && AdmitsExactly(f.policies[id], a.TheTarget(), rule)
  {
    ObjectsKnown(w);
    IssuedIds(w);
    PolicyAdmits(rule.id, a.TheTarget(), rule);
    hide Sound, AdmitsExactly, DialPolicyName, CreatePolicy, CreatedPolicyId, FabricSound, PolicyMatchesAttachment;
    var wanted := WantedPolicy(a, rule);
    CreatedPolicyExact(w.fabric, wanted);
    if a.policyId in w.fabric.policies {
      if PolicyMatchesAttachment(w.fabric.policies[a.policyId], a, rule) {
        MatchingAdmits(w.fabric.policies[a.policyId], a, rule);
      } else {
        ReplaceExact(w.fabric, a.policyId, wanted);
      }
    }
  }

  method ReconcileAttachmentPolicy(p: Platform, env: Env, a: Attachment, rule: Rule) returns (r: Result<ZitiId, Error>)
    requires p.Valid() && rule.id == a.ruleId && a.OneTarget()
    requires a.policyId == NO_ID || OwnsPolicy(p.world.fabric, a.policyId, a.ruleId, a.TheTarget())
    modifies p
    ensures p.Valid() && Follows(old(p.world), p.world)
    ensures r.Ok? ==> OwnsPolicy(p.world.fabric, r.value, a.ruleId, a.TheTarget())
    ensures !env.Shared? ==> p.world.tables == old(p.world).tables
    ensures !env.Shared? ==> p.world.fabric.services == old(p.world).fabric.services
    ensures !env.Shared? && r.Ok? ==> (p.world.fabric, r.value) == ReconciledPolicy(old(p.world).fabric, a, rule)
    ensures !env.Shared? && r.Ok? && FindsOwnPolicy(old(p.world).fabric, a) ==>
      r.value in p.world.fabric.policies && AdmitsExactly(p.world.fabric.policies[r.value], a.TheTarget(), rule)
    ensures env.Quiet? ==> r.Ok?
    ensures env.Quiet? && PolicyFits(old(p.world).fabric, a, rule) ==> p.writes == old(p.writes)
  {
    ReconciledAdmits(p.world, a, rule);
    hide Sound, Evolves, DialPolicyName, CreatePolicy, CreatedPolicyId, PolicyMatchesAttachment, AdmitsExactly, FindsOwnPolicy;
    ServicesUntouched(p.world.fabric, WantedPolicy(a, rule));
    if a.policyId == NO_ID {
      r := p.CreatePolicy(env, rule.id, a.TheTarget(), ServiceRole(rule), true);
      return;
    }
    var found := p.GetPolicy(env, a.policyId);
    if found.Err? {
      if found.error != ZitiNotFound {
        return Err(Internal);
      }
      r := p.CreatePolicy(env, rule.id, a.TheTarget(), ServiceRole(rule), true);
      return;
    }
    if PolicyMatchesAttachment(found.value, a, rule) {
      MatchesByName(found.value, a, rule);
      LiveOwnsPolicy(p.world, a.policyId, a.ruleId, a.TheTarget());
      return Ok(a.policyId);
    }
    r := ReplaceAttachmentPolicy(p, env, a, rule);
  }

  lemma ServicesUntouched(f: Fabric, policy: Policy)
    ensures CreatePolicy(f, policy).services == f.services
  {
  }

  lemma MatchesByName(policy: Policy, a: Attachment, rule: Rule)
    requires a.OneTarget() && PolicyMatchesAttachment(policy, a, rule)
    ensures policy.name == DialPolicyName(a.ruleId, a.TheTarget())
  {
  }

  /** Names are unique, so deleting the stored policy frees its name for the replacement. */
  lemma NameFreed(f: Fabric, a: Attachment, name: string)
    ensures FabricSound(f) && a.policyId in f.policies && f.policies[a.policyId].name == name ==>
              PolicyNamed(DeletePolicy(f, a.policyId), name).None?
  {
  }
}
