/** The reconciliation pass, statement by statement and call by call. */
module Reconciler {
  import opened Wrappers
  import opened Ordering
  import opened Text
  import opened Uuids
  import opened Rules
  import opened Naming
  import opened Configs
  import opened Tables
  import opened Fabric
  import opened Worlds
  import opened Passes
  import opened Convergence
  import opened Theorems
  import opened Platforms
  import opened Provisioning
  import opened Agreement

  lemma SameServicesSteady(w: World, v: World)
    ensures v.tables == w.tables && v.fabric.services == w.fabric.services ==> Steady(w, v)
  {
    if v.tables == w.tables && v.fabric.services == w.fabric.services {
      FewerServicesSteady(w, v.fabric);
    }
  }

  // ----- rules ---------------------------------------------------------------------

  /** What a snapshot row still tells later: its stored id is its own, and the row, if it is
      still there, is still public. */
  lemma SnapshotRule(listed: World, w: World, rule: Rule)
    requires Sound(listed) && Evolves(listed, w)
    requires rule.id in listed.tables.rules && listed.tables.rules[rule.id] == rule
    ensures !rule.IsPrivate() ==> rule.serviceId == NO_ID || OwnsService(w.fabric, rule.serviceId, rule.id)
    ensures rule.id in w.tables.used
    ensures rule.id in w.tables.rules ==> SameRule(rule, w.tables.rules[rule.id])
  {
  }

  lemma StoreServiceGuard(w: World, rule: Rule, id: ZitiId)
    requires OwnsService(w.fabric, id, rule.id) && rule.id in w.tables.used && !rule.IsPrivate()
    requires rule.id in w.tables.rules ==> SameRule(rule, w.tables.rules[rule.id])
    ensures Legal(w, DoSetServiceId(rule.id, id))
  {
  }

  lemma FollowsEvolves(u: World, w: World, v: World)
    requires Evolves(u, w) && Follows(w, v)
    ensures Evolves(u, v)
  {
  }

  lemma PoliciesUntouched(f: Fabric, rule: Rule)
    ensures ReconciledService(f, rule).0.policies == f.policies
  {
    hide ServiceName;
  }

  method ReconcileOneRule(p: Platform, env: Env, rule: Rule, ghost listed: World) returns (r: Result<Rule, Error>)
    requires p.Valid() && Sound(listed) && Evolves(listed, p.world)
    requires rule.id in listed.tables.rules && listed.tables.rules[rule.id] == rule
    requires !env.Shared? ==> rule.id in p.world.tables.rules && p.world.tables.rules[rule.id] == rule
    modifies p
    ensures p.Valid() && Follows(old(p.world), p.world)
    ensures r.Ok? ==> r.value.id == rule.id
    ensures env.Quiet? ==> r.Ok?
    ensures !env.Shared? && r.Ok? ==>
      && p.world == ReconcileRule(old(p.world), rule.id)
      && rule.id in p.world.tables.rules && r.value == p.world.tables.rules[rule.id]
    ensures !env.Shared? ==> Steady(old(p.world), p.world)
    ensures !env.Shared? ==>
      p.world.tables.attachments == old(p.world).tables.attachments && p.world.fabric.policies == old(p.world).fabric.policies
    ensures p.statements >= old(p.statements)
    ensures env.Quiet? && (rule.IsPrivate() || ServiceFits(old(p.world).fabric, rule)) ==> p.writes == old(p.writes)
  {
    hide Sound, Evolves, Reaches, Follows, Legal, ServiceName, CreateService, CreatedServiceId, Steady;
    ghost var start := p.world;
    SteadySelf(start);
    if rule.IsPrivate() {
      EvolvesSelf(p.world);
      FollowsFrom(p.world, p.world);
      return Ok(rule);
    }
    SnapshotRule(listed, p.world, rule);
    if !env.Shared? {
      ReconciledSteady(start, rule);
      PoliciesUntouched(start.fabric, rule);
    }
    var serviceId :- ReconcileRuleService(p, env, rule);
    ghost var mid := p.world;
    if serviceId != rule.serviceId {
      FollowsEvolves(listed, start, mid);
      SnapshotRule(listed, p.world, rule);
      StoreServiceGuard(p.world, rule, serviceId);
      SetIdSteady(mid, rule.id, serviceId);
      SteadyStep(start, mid, World(SetServiceId(mid.tables, rule.id, serviceId), mid.fabric));
      var stored := p.UpdateRuleServiceId(env, rule.id, serviceId);
      FollowsTransitive(start, mid, p.world);
      if stored.Err? {
        return Err(stored.error);
      }
    } else {
      SetSameId(p.world.tables, rule.id);
    }
    return Ok(rule.(serviceId := serviceId));
  }

  lemma {:induction false} UntouchedRules(w: World, ids: seq<Uuid>, n: nat, r: Uuid)
    requires n <= |ids| && forall j | 0 <= j < n :: ids[j] != r
    ensures var v := ReconcileRules(w, ids, n);
            (r in v.tables.rules <==> r in w.tables.rules) &&
            (r in w.tables.rules ==> v.tables.rules[r] == w.tables.rules[r])
  {
    if n > 0 {
      UntouchedRules(w, ids, n - 1, r);
    }
  }

  lemma OtherRulesKept(w: World, r: Uuid)
    ensures forall q | q != r && q in w.tables.rules ::
              q in ReconcileRule(w, r).tables.rules && ReconcileRule(w, r).tables.rules[q] == w.tables.rules[q]
  {
  }

  /** The rows of a snapshot, by index and by id. */
  ghost predicate RuleSnapshot(listed: World, rules: seq<Rule>, ids: seq<Uuid>) {
    && |rules| == |ids|
    && (forall i | 0 <= i < |ids| ::
          rules[i].id == ids[i] && ids[i] in listed.tables.rules && listed.tables.rules[ids[i]] == rules[i])
    && (forall i, j | 0 <= i < j < |ids| :: ids[i] != ids[j])
  }

  lemma RuleListing(listed: World)
    requires Sound(listed)
    ensures var ids := AscendingIds(listed.tables.rules.Keys);
            && RuleSnapshot(listed, RuleRows(listed.tables), ids)
            && forall q | q in listed.tables.rules :: exists j :: 0 <= j < |ids| && ids[j] == q
  {
    IdsListed(listed.tables.rules.Keys);
  }

  /** What one turn of the loop over the listed rules may rely on. */
  lemma RulesLoopStep(listed: World, rules: seq<Rule>, ids: seq<Uuid>, i: nat)
    requires Sound(listed) && RuleSnapshot(listed, rules, ids) && i < |rules|
    ensures var w, rule := ReconcileRules(listed, ids, i), rules[i];
            && rule.id in listed.tables.rules && listed.tables.rules[rule.id] == rule
            && rule.id in w.tables.rules && w.tables.rules[rule.id] == rule
            && (AllSettled(listed) ==> rule.IsPrivate() || ServiceFits(w.fabric, rule))
  {
    UntouchedRules(listed, ids, i, ids[i]);
    RulesSettle(listed, ids, i);
    RuleFacts(listed, ids[i]);
    IssuedIds(listed);
  }

  method ReconcileAllRules(p: Platform, env: Env, rules: seq<Rule>, ghost listed: World, ghost ids: seq<Uuid>)
    returns (r: Result<map<Uuid, Rule>, Error>)
    requires p.Valid() && Sound(listed) && Evolves(listed, p.world) && RuleSnapshot(listed, rules, ids)
    requires !env.Shared? ==> p.world == listed
    modifies p
    ensures p.Valid() && Follows(old(p.world), p.world)
    ensures r.Ok? ==> forall q | q in r.value :: r.value[q].id == q
    ensures env.Quiet? ==> r.Ok?
    ensures !env.Shared? && r.Ok? ==> p.world == ReconcileRules(listed, ids, |ids|)
    ensures !env.Shared? && r.Ok? ==>
      (forall j | 0 <= j < |ids| :: ids[j] in r.value) &&
      (forall q | q in r.value :: q in p.world.tables.rules && r.value[q] == p.world.tables.rules[q])
    ensures !env.Shared? ==> Steady(old(p.world), p.world)
    ensures env.Quiet? && AllSettled(listed) ==> p.writes == old(p.writes)
  {
    hide Sound, Evolves, Reaches, Follows, ReconcileRule, AllSettled, Steady;
    ghost var start := p.world;
    SteadySelf(start);
    var byId: map<Uuid, Rule> := map[];
    EvolvesSelf(p.world);
    FollowsFrom(p.world, p.world);
    for i := 0 to |rules|
      invariant p.Valid() && Follows(start, p.world) && Evolves(listed, p.world)
      invariant !env.Shared? ==> Steady(start, p.world)
      invariant !env.Shared? ==> p.world == ReconcileRules(listed, ids, i)
      invariant forall q | q in byId :: byId[q].id == q
      invariant forall j | 0 <= j < i :: ids[j] in byId
      invariant !env.Shared? ==> forall q | q in byId :: q in p.world.tables.rules && byId[q] == p.world.tables.rules[q]
      invariant env.Quiet? && AllSettled(listed) ==> p.writes == old(p.writes)
    {
      ghost var before := p.world;
      RulesLoopStep(listed, rules, ids, i);
      var done := ReconcileOneRule(p, env, rules[i], listed);
      FollowsTransitive(start, before, p.world);
      SteadyStep(start, before, p.world);
      FollowsEvolves(listed, before, p.world);
      if done.Err? {
        return Err(done.error);
      }
      OtherRulesKept(before, ids[i]);
      byId := byId[rules[i].id := done.value];
    }
    return Ok(byId);
  }

  // ----- attachments ---------------------------------------------------------------

  lemma SnapshotAttachment(listed: World, w: World, a: Attachment)
    requires Sound(listed) && Evolves(listed, w)
    requires a.id in listed.tables.attachments && listed.tables.attachments[a.id] == a
    ensures a.OneTarget()
    ensures a.policyId == NO_ID || OwnsPolicy(w.fabric, a.policyId, a.ruleId, a.TheTarget())
    ensures a.id in w.tables.used
    ensures a.id in w.tables.attachments ==> SameBinding(a, w.tables.attachments[a.id])
  {
  }

  lemma StorePolicyGuard(w: World, a: Attachment, id: ZitiId)
    requires a.OneTarget() && OwnsPolicy(w.fabric, id, a.ruleId, a.TheTarget()) && a.id in w.tables.used
    requires a.id in w.tables.attachments ==> SameBinding(a, w.tables.attachments[a.id])
    ensures Legal(w, DoSetPolicyId(a.id, id))
  {
  }

  method ReconcileOneAttachment(p: Platform, env: Env, a: Attachment, rules: map<Uuid, Rule>, ghost listed: World)
    returns (r: Result<(), Error>)
    requires p.Valid() && Sound(listed) && Evolves(listed, p.world)
    requires a.id in listed.tables.attachments && listed.tables.attachments[a.id] == a
    requires forall q | q in rules :: rules[q].id == q
    requires !env.Shared? ==>
      && rules == p.world.tables.rules && Attached(p.world.tables, a.id)
      && p.world.tables.attachments[a.id] == a
    modifies p
    ensures p.Valid() && Follows(old(p.world), p.world)
    ensures env.Quiet? ==> r.Ok?
    ensures !env.Shared? && r.Ok? ==> p.world == ReconcileAttachment(old(p.world), a.id)
    ensures !env.Shared? ==> Steady(old(p.world), p.world)
    ensures env.Quiet? && PolicyMatches(old(p.world), a.id) && a.policyId != NO_ID ==> p.writes == old(p.writes)
  {
    hide Sound, Evolves, Reaches, Follows, Legal, DialPolicyName, CreatePolicy, CreatedPolicyId;
    hide ReconciledPolicy, PolicyMatchesAttachment;
    hide Steady;
    ghost var start := p.world;
    SteadySelf(start);
    SnapshotAttachment(listed, p.world, a);
    if a.ruleId !in rules {
      EvolvesSelf(p.world);
      FollowsFrom(p.world, p.world);
      return Err(Internal);
    }
    FittingPolicyStays(start.fabric, a, rules[a.ruleId]);
    var policy := ReconcileAttachmentPolicy(p, env, a, rules[a.ruleId]);
    ghost var mid := p.world;
    SameServicesSteady(start, mid);
    if policy.Err? {
      return Err(policy.error);
    }
    var policyId := policy.value;
    if policyId != a.policyId {
      FollowsEvolves(listed, start, mid);
      SnapshotAttachment(listed, p.world, a);
      StorePolicyGuard(p.world, a, policyId);
      SetIdSteady(mid, a.id, policyId);
      SteadyStep(start, mid, World(SetPolicyId(mid.tables, a.id, policyId), mid.fabric));
      var stored := p.UpdateAttachmentPolicyId(env, a.id, policyId);
      FollowsTransitive(start, mid, p.world);
      if stored.Err? {
        return Err(stored.error);
      }
    } else {
      SetSameId(p.world.tables, a.id);
    }
    return Ok(());
  }

  lemma FittingPolicyStays(f: Fabric, a: Attachment, rule: Rule)
    requires a.OneTarget()
    ensures PolicyFits(f, a, rule) ==> ReconciledPolicy(f, a, rule) == (f, a.policyId)
  {
  }

  /** The rows of a snapshot of the attachments, by index and by id. */
  ghost predicate AttachmentSnapshot(listed: World, rows: seq<Attachment>, ids: seq<Uuid>) {
    && |rows| == |ids|
    && (forall i | 0 <= i < |ids| ::
          rows[i].id == ids[i] && ids[i] in listed.tables.attachments && listed.tables.attachments[ids[i]] == rows[i])
    && (forall i, j | 0 <= i < j < |ids| :: ids[i] != ids[j])
  }

  lemma AttachmentListing(listed: World)
    requires Sound(listed)
    ensures AttachmentSnapshot(listed, AttachmentRows(listed.tables), AscendingIds(listed.tables.attachments.Keys))
  {
    IdsListed(listed.tables.attachments.Keys);
  }

  ghost predicate AllMatch(w: World) {
    forall a | a in w.tables.attachments :: PolicyMatches(w, a)
  }

  /** What one turn of the loop over the listed attachments may rely on. */
  lemma AttachmentsLoopStep(u: World, ids: seq<Uuid>, i: nat)
    requires Sound(u) && i < |ids|
    requires forall j | 0 <= j < |ids| :: ids[j] in u.tables.attachments
    requires forall j, k | 0 <= j < k < |ids| :: ids[j] != ids[k]
    ensures var w := ReconcileAttachments(u, ids, i);
            && w.tables.rules == u.tables.rules
            && Attached(w.tables, ids[i])
            && w.tables.attachments[ids[i]] == u.tables.attachments[ids[i]]
            && (AllMatch(u) ==> PolicyMatches(w, ids[i]) && w.tables.attachments[ids[i]].policyId != NO_ID)
  {
    hide Sound, AttachmentSettled, ReconcileAttachments;
    var w := ReconcileAttachments(u, ids, i);
    AttachmentsSettle(u, ids, i);
    AttachmentFacts(w, ids[i]);
    assert Kept(u, w, ids[i]);
  }

  method ReconcileAllAttachments(p: Platform, env: Env, rows: seq<Attachment>, rules: map<Uuid, Rule>,
                                 ghost listed: World, ghost ids: seq<Uuid>)
    returns (r: Result<(), Error>)
    requires p.Valid() && Sound(listed) && Evolves(listed, p.world) && AttachmentSnapshot(listed, rows, ids)
    requires forall q | q in rules :: rules[q].id == q
    requires !env.Shared? ==> rules == p.world.tables.rules && p.world.tables.attachments == listed.tables.attachments
    modifies p
    ensures p.Valid() && Follows(old(p.world), p.world)
    ensures env.Quiet? ==> r.Ok?
    ensures !env.Shared? && r.Ok? ==> p.world == ReconcileAttachments(old(p.world), ids, |ids|)
    ensures !env.Shared? ==> Steady(old(p.world), p.world)
    ensures env.Quiet? && AllMatch(old(p.world)) ==> p.writes == old(p.writes)
  {
    hide Sound, Evolves, Reaches, Follows, ReconcileAttachment, AllMatch, PolicyMatches, Steady;
    ghost var start := p.world;
    SteadySelf(start);
    EvolvesSelf(p.world);
    FollowsFrom(p.world, p.world);
    for i := 0 to |rows|
      invariant p.Valid() && Follows(start, p.world) && Evolves(listed, p.world)
      invariant !env.Shared? ==> Steady(start, p.world)
      invariant !env.Shared? ==> p.world == ReconcileAttachments(start, ids, i)
      invariant env.Quiet? && AllMatch(start) ==> p.writes == old(p.writes)
    {
      ghost var before := p.world;
      if !env.Shared? {
        AttachmentsLoopStep(start, ids, i);
      }
      var done := ReconcileOneAttachment(p, env, rows[i], rules, listed);
      FollowsTransitive(start, before, p.world);
      SteadyStep(start, before, p.world);
      FollowsEvolves(listed, before, p.world);
      if done.Err? {
        return Err(done.error);
      }
    }
    return Ok(());
  }
}
