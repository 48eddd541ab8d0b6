/** What one pass, and what two passes, achieve. */
module Convergence {
  import opened Wrappers
  import opened Ordering
  import opened Uuids
  import opened Rules
  import opened Naming
  import opened Configs
  import opened Tables
  import opened Fabric
  import opened Worlds
  import opened Passes

  // ----- the rules phase -----------------------------------------------------------

  /** The rule is private, or its stored id names a live service of its name. */
  ghost predicate RuleSettled(w: World, r: Uuid) {
    && r in w.tables.rules
    && var rule := w.tables.rules[r];
       rule.IsPrivate() ||
       (rule.serviceId in w.fabric.services && w.fabric.services[rule.serviceId].name == ServiceName(r))
  }

  /** Services were added and ids of unsettled rules stored; nothing else happened. */
  ghost predicate RulesProgress(w: World, v: World) {
    && v.tables.attachments == w.tables.attachments
    && v.tables.used == w.tables.used
    && v.tables.rules.Keys == w.tables.rules.Keys
    && (forall r | r in w.tables.rules ::
          && v.tables.rules[r] == w.tables.rules[r].(serviceId := v.tables.rules[r].serviceId)
          && (RuleSettled(w, r) ==> v.tables.rules[r] == w.tables.rules[r]))
    && v.fabric.policies == w.fabric.policies
    && FabricEvolves(w.fabric, v.fabric)
    && (forall id | id in w.fabric.services :: id in v.fabric.services && v.fabric.services[id] == w.fabric.services[id])
  }

  /** A created or found service bears the name asked for, and no other service changes. */
  lemma CreatedServiceExact(f: Fabric, service: Service)
    requires FabricSound(f)
    ensures var g, id := CreateService(f, service), CreatedServiceId(f, service);
            && id in g.services && g.services[id].name == service.name
            && g.policies == f.policies
            && FabricEvolves(f, g)
            && (forall i | i in f.services :: i in g.services && g.services[i] == f.services[i])
            && (id in f.services ==> g == f)
            && (id !in f.services ==> g.services[id] == service)
  {
  }

  /** What the invariant says of one stored rule. */
  lemma RuleFacts(w: World, r: Uuid)
    requires Sound(w) && r in w.tables.rules
    ensures FabricSound(w.fabric) && w.tables.rules[r].id == r && r in w.tables.used
    ensures w.tables.rules[r].serviceId in w.fabric.services ==>
              !w.tables.rules[r].IsPrivate() && ServiceMatchesRule(w.fabric.services[w.tables.rules[r].serviceId], w.tables.rules[r])
  {
    NamesAreSwept(r, Target(AgentTarget, 0));
  }

  lemma ReconcileRuleSettles(w: World, r: Uuid)
    requires Sound(w) && r in w.tables.rules
    ensures RulesProgress(w, ReconcileRule(w, r)) && RuleSettled(ReconcileRule(w, r), r)
    ensures RuleSettled(w, r) ==> ReconcileRule(w, r) == w
  {
    RuleFacts(w, r);
    SetSameId(w.tables, r);
    hide Sound, FabricSound, CreateService, CreatedServiceId, ServiceName;
    CreatedServiceExact(w.fabric, RuleService(r, w.tables.rules[r].matcher));
  }

  lemma ReconcileRuleSound(w: World, r: Uuid)
    requires Sound(w)
    ensures Sound(ReconcileRule(w, r))
  {
    hide Sound, CreateService, CreatedServiceId, ServiceName;
    if r in w.tables.rules && !w.tables.rules[r].IsPrivate() {
      var rule := w.tables.rules[r];
      RuleFacts(w, r);
      SetSameId(w.tables, r);
      if rule.serviceId == NO_ID || rule.serviceId !in w.fabric.services {
        var wanted := RuleService(r, rule.matcher);
        var create, store := DoCreateService(r, rule.matcher), DoSetServiceId(r, CreatedServiceId(w.fabric, wanted));
        StepSound(w, create);
        CreatedServiceExact(w.fabric, wanted);
        IssuedIds(Apply(w, create));
        StepSound(Apply(w, create), store);
        assert ReconcileRule(w, r) == Apply(Apply(w, create), store);
      }
    }
  }

  lemma IssuedIds(w: World)
    requires Sound(w)
    ensures forall id | id in w.fabric.services :: 0 < id < w.fabric.next
    ensures forall id | id in w.fabric.policies :: 0 < id < w.fabric.next
  {
  }

  lemma RulesProgressTransitive(u: World, v: World, w: World)
    requires RulesProgress(u, v) && RulesProgress(v, w)
    ensures RulesProgress(u, w)
  {
  }

  lemma SettledStays(w: World, v: World, r: Uuid)
    requires RulesProgress(w, v) && RuleSettled(w, r)
    ensures RuleSettled(v, r)
  {
  }

  ghost predicate AllSettled(w: World) {
    forall r | r in w.tables.rules :: RuleSettled(w, r)
  }

  lemma {:induction false} RulesSettle(w: World, ids: seq<Uuid>, n: nat)
    requires Sound(w) && n <= |ids|
    requires forall j | 0 <= j < |ids| :: ids[j] in w.tables.rules
    ensures var v := ReconcileRules(w, ids, n);
            && Sound(v)
            && RulesProgress(w, v)
            && (forall j | 0 <= j < n :: RuleSettled(v, ids[j]))
            && (AllSettled(w) ==> v == w)
  {
    hide Sound, RuleSettled, ReconcileRule;
    if n > 0 {
      var v, r := ReconcileRules(w, ids, n - 1), ids[n - 1];
      RulesSettle(w, ids, n - 1);
      ReconcileRuleSound(v, r);
      ReconcileRuleSettles(v, r);
      var u := ReconcileRule(v, r);
      RulesProgressTransitive(w, v, u);
      forall j | 0 <= j < n
        ensures RuleSettled(u, ids[j])
      {
        if j < n - 1 {
          SettledStays(v, u, ids[j]);
        }
      }
    }
  }

  // ----- the attachments phase -------------------------------------------------------

  ghost predicate PolicyLive(w: World, a: Uuid) {
    a in w.tables.attachments && w.tables.attachments[a].policyId in w.fabric.policies
  }

  /** The attachment's stored policy is live and is what the attachment asks for. */
  ghost predicate PolicyMatches(w: World, a: Uuid) {
    && PolicyLive(w, a)
    && Attached(w.tables, a)
    && var b := w.tables.attachments[a];
       PolicyMatchesAttachment(w.fabric.policies[b.policyId], b, w.tables.rules[b.ruleId])
  }

  /** Policies of one name changed, and the id stored for the attachment of that name. */
  ghost predicate PolicyProgress(w: World, v: World, a: Uuid) {
    && Attached(w.tables, a)
    && v.tables.rules == w.tables.rules
    && v.tables.used == w.tables.used
    && v.fabric.services == w.fabric.services
    && a in v.tables.attachments
    && v.tables.attachments == w.tables.attachments[a := w.tables.attachments[a].(policyId := v.tables.attachments[a].policyId)]
    && FabricEvolves(w.fabric, v.fabric)
    && (forall id | id in w.fabric.policies && !Bears(w.fabric, id, w.tables.attachments[a]) ::
          id in v.fabric.policies && v.fabric.policies[id] == w.fabric.policies[id])
    && (forall id | id in v.fabric.policies && !Bears(v.fabric, id, w.tables.attachments[a]) :: id in w.fabric.policies)
  }

  /** A live policy bears the name of this attachment. */
  predicate Bears(f: Fabric, id: ZitiId, b: Attachment) {
    id in f.policies && b.OneTarget() && f.policies[id].name == DialPolicyName(b.ruleId, b.TheTarget())
  }

  /** What working on an attachment achieves: its policy is live; it is right if it was live
      before; otherwise it is the bearer of its name if there was one, and right if not. */
  ghost predicate AttachmentSettled(w: World, v: World, a: Uuid) {
    && PolicyLive(v, a)
    && (PolicyLive(w, a) ==> PolicyMatches(v, a))
    && (!PolicyLive(w, a) && a in w.tables.attachments ==>
          && (forall p | Bears(w.fabric, p, w.tables.attachments[a]) ::
                && v.tables.attachments[a].policyId == p
                && p in v.fabric.policies && v.fabric.policies[p] == w.fabric.policies[p])
          && ((forall p :: !Bears(w.fabric, p, w.tables.attachments[a])) ==> PolicyMatches(v, a)))
  }

  lemma CreatedPolicyExact(f: Fabric, policy: Policy)
    requires FabricSound(f)
    ensures var g, id := CreatePolicy(f, policy), CreatedPolicyId(f, policy);
            && id in g.policies && g.policies[id].name == policy.name
            && g.services == f.services
            && FabricEvolves(f, g)
            && (forall i | i in f.policies :: i in g.policies && g.policies[i] == f.policies[i])
            && (forall i | i in g.policies :: i in f.policies || i == id)
            && (id in f.policies ==> g == f)
            && (forall i | i in f.policies && f.policies[i].name == policy.name :: i == id)
            && (id !in f.policies ==> g.policies[id] == policy)
            && (id in f.policies ==> f.policies[id].name == policy.name)
  {
  }

  /** What the invariant says of one stored attachment. */
  lemma AttachmentFacts(w: World, a: Uuid)
    requires Sound(w) && a in w.tables.attachments
    ensures var b := w.tables.attachments[a];
            && FabricSound(w.fabric)
            && a in w.tables.used
            && Attached(w.tables, a)
            && b.policyId < w.fabric.next
            && w.tables.rules[b.ruleId].id == b.ruleId
            && (b.policyId in w.fabric.policies ==>
                  b.policyId != NO_ID && w.fabric.policies[b.policyId].name == DialPolicyName(b.ruleId, b.TheTarget()))
  {
  }

  lemma ReconcileAttachmentSound(w: World, a: Uuid)
    requires Sound(w)
    ensures Sound(ReconcileAttachment(w, a))
  {
    hide Sound, CreatePolicy, CreatedPolicyId, DialPolicyName;
    if Attached(w.tables, a) {
      AttachmentFacts(w, a);
      SetSameId(w.tables, a);
      var b := w.tables.attachments[a];
      var rule := w.tables.rules[b.ruleId];
      if b.policyId == NO_ID || b.policyId !in w.fabric.policies {
        AdoptSound(w, a);
      } else if !PolicyMatchesAttachment(w.fabric.policies[b.policyId], b, rule) {
        var v := Apply(w, DoDeletePolicy(b.policyId));
        StepSound(w, DoDeletePolicy(b.policyId));
        AdoptSound(v, a);
      }
    }
  }

  /** Creating, or finding, the policy an attachment asks for and storing its id. */
  lemma AdoptSound(w: World, a: Uuid)
    requires Sound(w) && a in w.tables.attachments && Attached(w.tables, a)
    ensures var b := w.tables.attachments[a];
            var wanted := DialPolicy(b.ruleId, b.TheTarget(), ServiceRole(w.tables.rules[b.ruleId]));
            Sound(World(SetPolicyId(w.tables, a, CreatedPolicyId(w.fabric, wanted)), CreatePolicy(w.fabric, wanted)))
  {
    hide Sound, CreatePolicy, CreatedPolicyId, DialPolicyName;
    AttachmentFacts(w, a);
    var b := w.tables.attachments[a];
    var role := ServiceRole(w.tables.rules[b.ruleId]);
    var wanted := DialPolicy(b.ruleId, b.TheTarget(), role);
    var create, store := DoCreatePolicy(b.ruleId, b.TheTarget(), role), DoSetPolicyId(a, CreatedPolicyId(w.fabric, wanted));
    StepSound(w, create);
    CreatedPolicyExact(w.fabric, wanted);
    IssuedIds(Apply(w, create));
    StepSound(Apply(w, create), store);
    assert Apply(Apply(w, create), store)
        == World(SetPolicyId(w.tables, a, CreatedPolicyId(w.fabric, wanted)), CreatePolicy(w.fabric, wanted));
  }

  /** Afterwards the policy is live, and it matches unless a stale policy of the name was adopted. */
  lemma ReconcileAttachmentSettles(w: World, a: Uuid)
    requires Sound(w) && a in w.tables.attachments
    ensures var v := ReconcileAttachment(w, a);
            && PolicyProgress(w, v, a)
            && AttachmentSettled(w, v, a)
            && (PolicyMatches(w, a) ==> v == w)
  {
    hide Sound, CreatePolicy, CreatedPolicyId, DialPolicyName, FabricSound;
    AttachmentFacts(w, a);
    SetSameId(w.tables, a);
    var b := w.tables.attachments[a];
    var wanted := DialPolicy(b.ruleId, b.TheTarget(), ServiceRole(w.tables.rules[b.ruleId]));
    if !PolicyLive(w, a) {
      CreatedPolicyExact(w.fabric, wanted);
      var id := CreatedPolicyId(w.fabric, wanted);
      assert id in w.fabric.policies ==> Bears(w.fabric, id, b);
    } else if !PolicyMatches(w, a) {
      ReplaceExact(w.fabric, b.policyId, wanted);
    }
  }

  /** Deleting the holder of a name and creating under it leaves only the wanted policy there. */
  lemma ReplaceExact(f: Fabric, id: ZitiId, wanted: Policy)
    requires FabricSound(f) && id in f.policies && f.policies[id].name == wanted.name
    ensures var g := CreatePolicy(DeletePolicy(f, id), wanted);
            var created := CreatedPolicyId(DeletePolicy(f, id), wanted);
            && PolicyNamed(DeletePolicy(f, id), wanted.name).None?
            && created in g.policies && g.policies[created] == wanted
            && g.services == f.services
            && FabricEvolves(f, g)
            && (forall i | i in f.policies && i != id :: i in g.policies && g.policies[i] == f.policies[i])
            && (forall i | i in g.policies :: i in f.policies || i == created)
  {
    ObjectDeletesSound(f, id);
    CreatedPolicyExact(DeletePolicy(f, id), wanted);
  }

  /** The attachment's row, its policy if it is live, and the bearers of its name are as they were. */
  ghost predicate Kept(w: World, v: World, b: Uuid) {
    && v.tables.rules == w.tables.rules
    && b in w.tables.attachments && b in v.tables.attachments
    && v.tables.attachments[b] == w.tables.attachments[b]
    && (w.tables.attachments[b].policyId in w.fabric.policies <==> w.tables.attachments[b].policyId in v.fabric.policies)
    && (w.tables.attachments[b].policyId in w.fabric.policies ==>
          v.fabric.policies[w.tables.attachments[b].policyId] == w.fabric.policies[w.tables.attachments[b].policyId])
    && (forall p :: Bears(w.fabric, p, w.tables.attachments[b]) <==> Bears(v.fabric, p, w.tables.attachments[b]))
    && (forall p | Bears(w.fabric, p, w.tables.attachments[b]) :: v.fabric.policies[p] == w.fabric.policies[p])
  }

  /** Working on one attachment leaves every other one alone: their policies have other names. */
  lemma OthersKept(w: World, v: World, a: Uuid, b: Uuid)
    requires Sound(w) && PolicyProgress(w, v, a) && b in w.tables.attachments && b != a
    ensures Kept(w, v, b)
  {
    hide Sound, DialPolicyName;
    AttachmentFacts(w, b);
    forall p
      ensures !Bears(w.fabric, p, w.tables.attachments[a]) || !Bears(w.fabric, p, w.tables.attachments[b])
      ensures !Bears(v.fabric, p, w.tables.attachments[a]) || !Bears(v.fabric, p, w.tables.attachments[b])
    {
      NamesDiffer(w, a, b);
    }
  }

  lemma NamesDiffer(w: World, a: Uuid, b: Uuid)
    requires Sound(w) && a in w.tables.attachments && b in w.tables.attachments && a != b
    ensures var x, y := w.tables.attachments[a], w.tables.attachments[b];
            && x.OneTarget() && y.OneTarget()
            && DialPolicyName(x.ruleId, x.TheTarget()) != DialPolicyName(y.ruleId, y.TheTarget())
  {
    AttachmentFacts(w, a);
    AttachmentFacts(w, b);
    hide DialPolicyName;
    var x, y := w.tables.attachments[a], w.tables.attachments[b];
    if DialPolicyName(x.ruleId, x.TheTarget()) == DialPolicyName(y.ruleId, y.TheTarget()) {
      DialPolicyNameInjective(x.ruleId, x.TheTarget(), y.ruleId, y.TheTarget());
      TargetsUnique(w.tables, a, b);
    }
  }

  lemma KeptSelf(w: World)
    ensures OnlyPolicies(w, w)
    ensures forall b | b in w.tables.attachments :: Kept(w, w, b)
  {
  }

  lemma KeptTransitive(u: World, v: World, w: World, b: Uuid)
    requires Kept(u, v, b) && Kept(v, w, b)
    ensures Kept(u, w, b)
  {
  }

  /** Rules and services stay; of an attachment only the stored policy id may change. */
  ghost predicate OnlyPolicies(w: World, v: World) {
    && v.tables.rules == w.tables.rules
    && v.tables.used == w.tables.used
    && v.fabric.services == w.fabric.services
    && v.tables.attachments.Keys == w.tables.attachments.Keys
    && (forall a | a in w.tables.attachments ::
          v.tables.attachments[a] == w.tables.attachments[a].(policyId := v.tables.attachments[a].policyId))
  }

  lemma OnlyPoliciesStep(w: World, v: World, u: World, a: Uuid)
    requires OnlyPolicies(w, v) && PolicyProgress(v, u, a)
    ensures OnlyPolicies(w, u)
  {
  }

  lemma OnlyPoliciesKeys(w: World, v: World)
    requires OnlyPolicies(w, v)
    ensures v.tables.attachments.Keys == w.tables.attachments.Keys
  {
  }

  /** Being settled is not undone by work elsewhere, and work elsewhere before is not noticed. */
  lemma SettledAcross(w: World, v: World, u: World, a: Uuid)
    requires a in w.tables.attachments && a in v.tables.attachments
    ensures AttachmentSettled(w, v, a) && Kept(v, u, a) && Sound(v) ==> AttachmentSettled(w, u, a)
    ensures Kept(w, v, a) && AttachmentSettled(v, u, a) ==> AttachmentSettled(w, u, a)
  {
  }

  lemma {:induction false} AttachmentsSettle(w: World, ids: seq<Uuid>, n: nat)
    requires Sound(w) && n <= |ids|
    requires forall j | 0 <= j < |ids| :: ids[j] in w.tables.attachments
    requires forall i, j | 0 <= i < j < |ids| :: ids[i] != ids[j]
    ensures var v := ReconcileAttachments(w, ids, n);
            && Sound(v)
            && OnlyPolicies(w, v)
            && (forall j | 0 <= j < n :: AttachmentSettled(w, v, ids[j]))
            && (forall b | b in w.tables.attachments && (forall j | 0 <= j < n :: ids[j] != b) :: Kept(w, v, b))
            && ((forall a | a in w.tables.attachments :: PolicyMatches(w, a)) ==> v == w)
  {
    hide Sound, PolicyLive, PolicyMatches, ReconcileAttachment, PolicyProgress, Kept, AttachmentSettled, OnlyPolicies;
    if n == 0 {
      KeptSelf(w);
    } else {
      var v, a := ReconcileAttachments(w, ids, n - 1), ids[n - 1];
      AttachmentsSettle(w, ids, n - 1);
      OnlyPoliciesKeys(w, v);
      ReconcileAttachmentSound(v, a);
      ReconcileAttachmentSettles(v, a);
      var u := ReconcileAttachment(v, a);
      SettledAcross(w, v, u, a);
      OnlyPoliciesStep(w, v, u, a);
      forall b | b in w.tables.attachments && b != a
        ensures AttachmentSettled(w, v, b) ==> AttachmentSettled(w, u, b)
        ensures Kept(w, v, b) ==> Kept(w, u, b)
      {
        OthersKept(v, u, a, b);
        SettledAcross(w, v, u, b);
        if Kept(w, v, b) {
          KeptTransitive(w, v, u, b);
        }
      }
    }
  }
}
