/** The attach-time collision check, and what it leaves for the report to find. */
module FastFail {
  import opened Wrappers
  import opened Uuids
  import opened Rules
  import opened Patterns
  import opened Tables
  import opened Worlds
  import opened Platforms
  import opened Collisions

  function TargetGrants(d: Directory, target: Target): seq<Entry> {
    match target.kind
    case AgentTarget => d.AgentGrants(target.id)
    case EnvironmentTarget => d.EnvironmentGrants(target.id)
  }

  /** The rule is attached to this very target. */
  ghost predicate Direct(byId: map<Uuid, Rule>, attachments: seq<Attachment>, target: Target, rule: Rule) {
    exists i | 0 <= i < |attachments| ::
      attachments[i].ruleId in byId && byId[attachments[i].ruleId] == rule && Binds(attachments[i], target)
  }

  /** A public rule is refused if the target is granted a resource it meets; a private rule, if a
      public rule attached to the target meets its resource. */
  ghost predicate Rejects(d: Directory, byId: map<Uuid, Rule>, attachments: seq<Attachment>, rule: Rule, target: Target) {
    if rule.IsPrivate() then
      && rule.matcher.privateResourceId in d.resources
      && exists q :: Direct(byId, attachments, target, q) && !q.IsPrivate() && Hits(q, d.resources[rule.matcher.privateResourceId])
    else exists e | e in TargetGrants(d, target) :: Hits(rule, e.view)
  }

  /** The agents the target's attachments reach. */
  predicate ReachesTarget(x: Agent, target: Target) {
    match target.kind
    case AgentTarget => IsAgent(x, target.id)
    case EnvironmentTarget => Runs(x, target.id)
  }

  /** The stored rules, one attachment more. */
  ghost predicate Attaching(byId: map<Uuid, Rule>, rule: Rule, target: Target, b: Attachment) {
    && (forall r | r in byId :: byId[r].id == r)
    && rule.id in byId && byId[rule.id] == rule
    && b == AttachmentFor(b.id, rule.id, target, b.policyId)
  }

  lemma HoldsAfter(byId: map<Uuid, Rule>, attachments: seq<Attachment>, rule: Rule, target: Target,
                   b: Attachment, x: Agent, q: Rule)
    requires Attaching(byId, rule, target, b)
    ensures Holds(byId, attachments + [b], x, q) <==> Holds(byId, attachments, x, q) || (q == rule && ReachesTarget(x, target))
  {
    hide ParseUuid;
    var after := attachments + [b];
    assert after[|attachments|] == b;
    assert ReachesAgent(b, x) <==> ReachesTarget(x, target);
    if Holds(byId, attachments, x, q) {
      var i :| 0 <= i < |attachments| &&
        attachments[i].ruleId in byId && byId[attachments[i].ruleId] == q && ReachesAgent(attachments[i], x);
      assert after[i] == attachments[i];
    }
  }

  lemma DirectHolds(byId: map<Uuid, Rule>, attachments: seq<Attachment>, target: Target, x: Agent, q: Rule)
    requires Direct(byId, attachments, target, q) && ReachesTarget(x, target)
    ensures Holds(byId, attachments, x, q)
  {
    hide ParseUuid;
  }

  /** The triple pairs the new rule with what it meets, or the new resource with who meets it. */
  ghost predicate Brings(d: Directory, byId: map<Uuid, Rule>, attachments: seq<Attachment>, rule: Rule, target: Target,
                         x: Agent, t: Triple)
  {
    && ReachesTarget(x, target) && IsAgent(x, t.agentId)
    && if rule.IsPrivate() then
         && t.resourceId == rule.matcher.privateResourceId && t.resourceId in d.resources
         && exists q :: Holds(byId, attachments, x, q) && !q.IsPrivate() && q.id == t.ruleId && Hits(q, d.resources[t.resourceId])
       else
         && t.ruleId == rule.id
         && Dials(d, byId, attachments, x, t.resourceId) && Hits(rule, d.resources[t.resourceId])
  }

  lemma DialsAfter(d: Directory, byId: map<Uuid, Rule>, attachments: seq<Attachment>, rule: Rule,
                   target: Target, b: Attachment,
                   x: Agent, resourceId: string)
    requires Attaching(byId, rule, target, b)
    ensures Dials(d, byId, attachments + [b], x, resourceId) <==>
              || Dials(d, byId, attachments, x, resourceId)
              || (&& ReachesTarget(x, target) && ParseUuid(x.id).Some? && rule.IsPrivate()
                  && rule.matcher.privateResourceId == resourceId && resourceId in d.resources)
  {
    hide Holds, ParseUuid, ReachesTarget, Granted;
    forall q
      ensures Holds(byId, attachments + [b], x, q) <==> Holds(byId, attachments, x, q) || (q == rule && ReachesTarget(x, target))
    {
      HoldsAfter(byId, attachments, rule, target, b, x, q);
    }
  }

  /** What one more attachment adds to the report, exactly. */
  lemma AttachmentAdds(d: Directory, byId: map<Uuid, Rule>, attachments: seq<Attachment>, rule: Rule,
                       target: Target, b: Attachment,
                       x: Agent, t: Triple)
    requires Attaching(byId, rule, target, b)
    ensures Collides(d, byId, attachments + [b], x, t) <==>
              Collides(d, byId, attachments, x, t) || Brings(d, byId, attachments, rule, target, x, t)
  {
    hide Holds, ReachesTarget, Granted, Hits, Dials, ParseUuid;
    DialsAfter(d, byId, attachments, rule, target, b, x, t.resourceId);
    forall q
      ensures Holds(byId, attachments + [b], x, q) <==> Holds(byId, attachments, x, q) || (q == rule && ReachesTarget(x, target))
    {
      HoldsAfter(byId, attachments, rule, target, b, x, q);
    }
  }

  /** What is granted to an environment is granted to the agents that run it. */
  ghost predicate Expanded(d: Directory, x: Agent) {
    forall n: Uuid, a: Uuid, e | Runs(x, n) && IsAgent(x, a) && e in d.EnvironmentGrants(n) :: Granted(d.AgentGrants(a), e.id)
  }

  /** Every refusal is justified: for each listed agent of the target, the attachment would put a
      triple of the new rule, or of the new resource, into the report. */
  lemma RejectionIsReported(d: Directory, byId: map<Uuid, Rule>, attachments: seq<Attachment>, rule: Rule, target: Target,
                            b: Attachment, x: Agent)
    requires d.Agrees() && Attaching(byId, rule, target, b) && Rejects(d, byId, attachments, rule, target)
    requires ReachesTarget(x, target) && ParseUuid(x.id).Some? && Expanded(d, x)
    ensures exists t ::
              && Collides(d, byId, attachments + [b], x, t)
              && if rule.IsPrivate() then t.resourceId == rule.matcher.privateResourceId else t.ruleId == rule.id
  {
    hide Hits, ParseUuid, Holds, Collides;
    var a := ParseUuid(x.id).value;
    if rule.IsPrivate() {
      var q :| Direct(byId, attachments, target, q) && !q.IsPrivate() && Hits(q, d.resources[rule.matcher.privateResourceId]);
      DirectHolds(byId, attachments, target, x, q);
      AttachmentAdds(d, byId, attachments, rule, target, b, x, Triple(a, q.id, rule.matcher.privateResourceId));
    } else {
      var e :| e in TargetGrants(d, target) && Hits(rule, e.view);
      assert Granted(d.AgentGrants(a), e.id) && d.resources[e.id] == e.view by {
        if target.kind == AgentTarget {
          assert a == target.id;
          assert e in d.grantedToAgent[a];
        } else {
          assert e in d.EnvironmentGrants(target.id);
          assert e in d.grantedToEnvironment[target.id];
        }
      }
      AttachmentAdds(d, byId, attachments, rule, target, b, x, Triple(a, rule.id, e.id));
    }
  }

  /** What an accepted attachment may still bring: for a public rule, resources dialled some
      other way than by a grant to the target; for a private rule, public rules that reach the
      agent some other way than by an attachment to the target. */
  ghost predicate Residue(d: Directory, byId: map<Uuid, Rule>, attachments: seq<Attachment>, rule: Rule, target: Target,
                          x: Agent, t: Triple)
  {
    && ReachesTarget(x, target) && IsAgent(x, t.agentId)
    && if rule.IsPrivate() then
         && t.resourceId == rule.matcher.privateResourceId && t.resourceId in d.resources
         && !Dials(d, byId, attachments, x, t.resourceId)
         && exists q ::
              && Holds(byId, attachments, x, q) && !Direct(byId, attachments, target, q)
              && !q.IsPrivate() && q.id == t.ruleId && Hits(q, d.resources[t.resourceId])
       else
         && t.ruleId == rule.id && !Holds(byId, attachments, x, rule)
         && Dials(d, byId, attachments, x, t.resourceId) && !Granted(TargetGrants(d, target), t.resourceId)
         && Hits(rule, d.resources[t.resourceId])
  }

  /** A rule held is the one stored under its id. */
  lemma HeldById(byId: map<Uuid, Rule>, attachments: seq<Attachment>, x: Agent, q: Rule, rule: Rule)
    requires forall r | r in byId :: byId[r].id == r
    requires rule.id in byId && byId[rule.id] == rule
    requires Holds(byId, attachments, x, q) && q.id == rule.id
    ensures q == rule
  {
    hide ReachesAgent;
  }

  lemma GrantedMisses(d: Directory, byId: map<Uuid, Rule>, attachments: seq<Attachment>, rule: Rule,
                      target: Target, id: string)
    requires d.Agrees() && !rule.IsPrivate() && !Rejects(d, byId, attachments, rule, target)
    requires id in d.resources && Granted(TargetGrants(d, target), id)
    ensures !Hits(rule, d.resources[id])
  {
    hide Hits;
    var entries := TargetGrants(d, target);
    var i :| 0 <= i < |entries| && entries[i].id == id;
    assert entries[i] in entries;
    if target.kind == AgentTarget {
      assert entries[i] in d.grantedToAgent[target.id];
    } else {
      assert entries[i] in d.grantedToEnvironment[target.id];
    }
  }

  /** The residue is exact: after an accepted attachment these triples are new in the report, and
      no others are. */
  lemma AcceptedResidue(d: Directory, byId: map<Uuid, Rule>, attachments: seq<Attachment>, rule: Rule, target: Target,
                        b: Attachment, x: Agent, t: Triple)
    requires d.Agrees() && Attaching(byId, rule, target, b) && !Rejects(d, byId, attachments, rule, target)
    ensures Collides(d, byId, attachments + [b], x, t) && !Collides(d, byId, attachments, x, t) <==>
              Residue(d, byId, attachments, rule, target, x, t)
  {
    hide Hits, ParseUuid, Holds, Granted, Dials, Direct, ReachesTarget;
    AttachmentAdds(d, byId, attachments, rule, target, b, x, t);
    if rule.IsPrivate() {
      ResourceKnown(d, byId, attachments, x, t.resourceId);
      forall q | Holds(byId, attachments, x, q) && !q.IsPrivate() && q.id == t.ruleId &&
                 rule.matcher.privateResourceId in d.resources && Hits(q, d.resources[rule.matcher.privateResourceId])
        ensures !Direct(byId, attachments, target, q)
      {
      }
    } else {
      ResourceKnown(d, byId, attachments, x, t.resourceId);
      if t.resourceId in d.resources && Granted(TargetGrants(d, target), t.resourceId) {
        GrantedMisses(d, byId, attachments, rule, target, t.resourceId);
      }
      forall q | Holds(byId, attachments, x, q) && q.id == rule.id
        ensures q == rule
      {
        HeldById(byId, attachments, x, q, rule);
      }
    }
  }

  lemma ResourceKnown(d: Directory, byId: map<Uuid, Rule>, attachments: seq<Attachment>, x: Agent, id: string)
    ensures Dials(d, byId, attachments, x, id) ==> id in d.resources
  {
  }

  // ----- the residue, case by case -------------------------------------------------------------

  /** A rule reaches an agent by an attachment to the agent or by one to the environment it runs. */
  lemma HeldIsDirect(byId: map<Uuid, Rule>, attachments: seq<Attachment>, x: Agent, q: Rule)
    ensures Holds(byId, attachments, x, q) <==>
              || (ParseUuid(x.id).Some? && Direct(byId, attachments, Target(AgentTarget, ParseUuid(x.id).value), q))
              || (ParseUuid(x.environmentId).Some? &&
                  Direct(byId, attachments, Target(EnvironmentTarget, ParseUuid(x.environmentId).value), q))
  {
    hide ParseUuid;
    if Holds(byId, attachments, x, q) {
      var i :| 0 <= i < |attachments| && attachments[i].ruleId in byId && byId[attachments[i].ruleId] == q
               && ReachesAgent(attachments[i], x);
      if attachments[i].agentId.Some? {
        assert Binds(attachments[i], Target(AgentTarget, ParseUuid(x.id).value));
      } else {
        assert Binds(attachments[i], Target(EnvironmentTarget, ParseUuid(x.environmentId).value));
      }
    }
  }

  /** Attached to the environment of an agent target, or to the agent itself if the target is its
      environment. */
  ghost predicate AttachedElsewhere(byId: map<Uuid, Rule>, attachments: seq<Attachment>, target: Target, x: Agent,
                                    agent: Uuid, q: Rule)
  {
    match target.kind
    case AgentTarget =>
      && ParseUuid(x.environmentId).Some?
      && Direct(byId, attachments, Target(EnvironmentTarget, ParseUuid(x.environmentId).value), q)
    case EnvironmentTarget => Direct(byId, attachments, Target(AgentTarget, agent), q)
  }

  /** A public rule meets the resource, and is attached elsewhere only. */
  ghost predicate MetElsewhere(d: Directory, byId: map<Uuid, Rule>, attachments: seq<Attachment>, target: Target,
                               x: Agent, t: Triple)
    requires t.resourceId in d.resources
  {
    exists q ::
      && !Direct(byId, attachments, target, q) && AttachedElsewhere(byId, attachments, target, x, t.agentId, q)
      && !q.IsPrivate() && q.id == t.ruleId && Hits(q, d.resources[t.resourceId])
  }

  ghost predicate NamedByPrivate(byId: map<Uuid, Rule>, attachments: seq<Attachment>, x: Agent, resourceId: string) {
    exists q :: Holds(byId, attachments, x, q) && q.IsPrivate() && q.matcher.privateResourceId == resourceId
  }

  /** What slips through: for a public rule on an agent, exactly the resources private rules give the
      agent and no grant does; on an environment, also those granted to the agent alone; for a
      private rule, the public rules attached elsewhere. */
  ghost predicate SlipsThrough(d: Directory, byId: map<Uuid, Rule>, attachments: seq<Attachment>, rule: Rule,
                               target: Target, x: Agent, t: Triple)
  {
    && ReachesTarget(x, target) && IsAgent(x, t.agentId) && t.resourceId in d.resources
    && if rule.IsPrivate() then
         && t.resourceId == rule.matcher.privateResourceId && !Dials(d, byId, attachments, x, t.resourceId)
         && MetElsewhere(d, byId, attachments, target, x, t)
       else
         && t.ruleId == rule.id && !Holds(byId, attachments, x, rule) && Hits(rule, d.resources[t.resourceId])
         && !Granted(TargetGrants(d, target), t.resourceId)
         && (|| NamedByPrivate(byId, attachments, x, t.resourceId)
             || (target.kind == EnvironmentTarget && Granted(d.AgentGrants(t.agentId), t.resourceId)))
  }

  lemma ResidueCases(d: Directory, byId: map<Uuid, Rule>, attachments: seq<Attachment>, rule: Rule, target: Target,
                     x: Agent, t: Triple)
    ensures Residue(d, byId, attachments, rule, target, x, t) <==>
              SlipsThrough(d, byId, attachments, rule, target, x, t)
  {
    hide Hits, Holds, Granted, Direct, ParseUuid;
    forall q | ReachesTarget(x, target) && IsAgent(x, t.agentId) && !Direct(byId, attachments, target, q)
      ensures Holds(byId, attachments, x, q) <==> AttachedElsewhere(byId, attachments, target, x, t.agentId, q)
    {
      HeldIsDirect(byId, attachments, x, q);
    }
  }

  // ----- listings that hold the same ------------------------------------------------------------

  /** The same rules up to the stored service ids. */
  predicate AlikeRules(byId: map<Uuid, Rule>, other: map<Uuid, Rule>) {
    && other.Keys == byId.Keys
    && forall r | r in byId :: other[r] == byId[r].(serviceId := other[r].serviceId)
  }

  /** Every row binds what some other row binds. */
  ghost predicate BoundBy(attachments: seq<Attachment>, others: seq<Attachment>) {
    forall i | 0 <= i < |attachments| :: BoundByOne(attachments[i], others)
  }

  ghost predicate BoundByOne(b: Attachment, others: seq<Attachment>) {
    exists j: nat | j < |others| :: SameBinding(b, others[j])
  }

  lemma HeldAlike(byId: map<Uuid, Rule>, other: map<Uuid, Rule>, attachments: seq<Attachment>,
                  others: seq<Attachment>, x: Agent, q: Rule) returns (p: Rule)
    requires AlikeRules(byId, other) && BoundBy(attachments, others) && Holds(byId, attachments, x, q)
    ensures Holds(other, others, x, p) && p == q.(serviceId := p.serviceId)
  {
    hide ParseUuid;
    var i :| 0 <= i < |attachments| && attachments[i].ruleId in byId && byId[attachments[i].ruleId] == q
             && ReachesAgent(attachments[i], x);
    assert BoundByOne(attachments[i], others);
    var j: nat :| j < |others| && SameBinding(attachments[i], others[j]);
    p := other[others[j].ruleId];
  }

  lemma ReportedAlike(d: Directory, byId: map<Uuid, Rule>, other: map<Uuid, Rule>, attachments: seq<Attachment>,
                      others: seq<Attachment>, x: Agent, t: Triple)
    requires AlikeRules(byId, other) && BoundBy(attachments, others) && Collides(d, byId, attachments, x, t)
    ensures Collides(d, other, others, x, t)
  {
    hide Holds, Granted, DomainPatternMatchesHost, Overlap, ParseUuid, AlikeRules, BoundBy;
    if !Granted(d.AgentGrants(ParseUuid(x.id).value), t.resourceId) {
      var q :| Holds(byId, attachments, x, q) && q.IsPrivate() && q.matcher.privateResourceId == t.resourceId;
      var p := HeldAlike(byId, other, attachments, others, x, q);
    }
    var q :| Holds(byId, attachments, x, q) && !q.IsPrivate() && q.id == t.ruleId && Hits(q, d.resources[t.resourceId]);
    var p := HeldAlike(byId, other, attachments, others, x, q);
  }

  /** The report sees neither the order of the rows nor the stored ids. */
  lemma ReportAlike(d: Directory, byId: map<Uuid, Rule>, other: map<Uuid, Rule>, attachments: seq<Attachment>,
                    others: seq<Attachment>, x: Agent, t: Triple)
    requires AlikeRules(byId, other) && BoundBy(attachments, others) && BoundBy(others, attachments)
    ensures Collides(d, byId, attachments, x, t) <==> Collides(d, other, others, x, t)
  {
    hide Collides, BoundBy;
    if Collides(d, byId, attachments, x, t) {
      ReportedAlike(d, byId, other, attachments, others, x, t);
    }
    if Collides(d, other, others, x, t) {
      ReportedAlike(d, other, byId, others, attachments, x, t);
    }
  }

  // ----- the check itself ----------------------------------------------------------------------

  lemma RowsBind(t: Tables, rows: seq<Attachment>, target: Target, q: Rule)
    requires forall a | a in t.attachments :: t.attachments[a].OneTarget() && t.attachments[a] in rows
    requires forall i | 0 <= i < |rows| :: rows[i].id in t.attachments && t.attachments[rows[i].id] == rows[i]
    ensures BoundTo(t, target, q) <==> Direct(t.rules, rows, target, q)
  {
    if BoundTo(t, target, q) {
      var a :| a in t.attachments && InTargetColumn(t.attachments[a], target)
               && t.attachments[a].ruleId in t.rules && t.rules[t.attachments[a].ruleId] == q;
      var i :| 0 <= i < |rows| && rows[i] == t.attachments[a];
    }
    if Direct(t.rules, rows, target, q) {
      var i :| 0 <= i < |rows| && rows[i].ruleId in t.rules && t.rules[rows[i].ruleId] == q && Binds(rows[i], target);
      assert t.attachments[rows[i].id] == rows[i];
    }
  }

  /** The rules the store joins to a target are those directly attached to it. */
  lemma JoinedIsDirect(w: World, target: Target)
    requires Sound(w)
    ensures forall q :: q in TargetRows(w.tables, target) <==> Direct(w.tables.rules, AttachmentRows(w.tables), target, q)
  {
    AttachmentRowsExact(w.tables);
    RowsKnown(w);
    hide Sound, AttachmentRows, Direct, BoundTo, TargetRows;
    forall q
      ensures q in TargetRows(w.tables, target) <==> Direct(w.tables.rules, AttachmentRows(w.tables), target, q)
    {
      TargetRowsExact(w.tables, target, q);
      RowsBind(w.tables, AttachmentRows(w.tables), target, q);
    }
  }

  method ListReachableByTarget(d: Directory, env: Env, target: Target) returns (r: Result<seq<Entry>, Error>)
    ensures PeersWork(env) ==> r.Ok?
    ensures r.Ok? ==> r.value == TargetGrants(d, target)
  {
    var failed := PeerFails(env);
    return if failed then Err(Internal) else Ok(TargetGrants(d, target));
  }

  method MeetsEntry(rule: Rule, entries: seq<Entry>) returns (meets: bool)
    ensures meets <==> exists e | e in entries :: Hits(rule, e.view)
  {
    hide Hits;
    for i := 0 to |entries|
      invariant forall j | 0 <= j < i :: !Hits(rule, entries[j].view)
    {
      var hits := HitsEntry(rule, entries[i].view);
      if hits {
        return true;
      }
    }
    return false;
  }

  method MeetsPublicRule(rules: seq<Rule>, view: View) returns (meets: bool)
    ensures meets <==> exists q | q in rules :: !q.IsPrivate() && Hits(q, view)
  {
    hide Hits;
    for i := 0 to |rules|
      invariant forall j | 0 <= j < i :: rules[j].IsPrivate() || !Hits(rules[j], view)
    {
      if rules[i].IsPrivate() {
        continue;
      }
      var hits := HitsEntry(rules[i], view);
      if hits {
        return true;
      }
    }
    return false;
  }

  /** The check on a world: what the store and the directory say of it. */
  ghost predicate RejectsIn(d: Directory, w: World, rule: Rule, target: Target) {
    Rejects(d, w.tables.rules, AttachmentRows(w.tables), rule, target)
  }

  /** Lookups that fail skip the check; when none fails, it refuses exactly what Rejects says. */
  method RejectInterceptCollision(p: Platform, env: Env, d: Directory, rule: Rule, target: Target)
    returns (r: Result<(), Error>)
    requires p.Valid()
    modifies p
    ensures p.Valid() && Observes(env, old(p.world), p.world) && p.writes == old(p.writes)
    ensures p.statements >= old(p.statements)
    ensures r.Err? ==> r.error == FailedPrecondition && RejectsIn(d, p.world, rule, target)
    ensures Working(env) ==> (r.Err? <==> RejectsIn(d, p.world, rule, target))
  {
    hide Hits, AttachmentRows, Direct;
    if rule.IsPrivate() {
      r := RejectPrivateAttachmentCollision(p, env, d, rule, target);
      return;
    }
    EvolvesSelf(p.world);
    FollowsFrom(p.world, p.world);
    var response := ListReachableByTarget(d, env, target);
    if response.Err? {
      return Ok(());
    }
    var meets := MeetsEntry(rule, response.value);
    return if meets then Err(FailedPrecondition) else Ok(());
  }

  method RejectPrivateAttachmentCollision(p: Platform, env: Env, d: Directory, rule: Rule, target: Target)
    returns (r: Result<(), Error>)
    requires p.Valid() && rule.IsPrivate()
    modifies p
    ensures p.Valid() && Observes(env, old(p.world), p.world) && p.writes == old(p.writes)
    ensures p.statements >= old(p.statements)
    ensures r.Err? ==> r.error == FailedPrecondition && RejectsIn(d, p.world, rule, target)
    ensures Working(env) ==> (r.Err? <==> RejectsIn(d, p.world, rule, target))
  {
    hide Hits, AttachmentRows, Direct, TargetRows;
    EvolvesSelf(p.world);
    FollowsFrom(p.world, p.world);
    var resource := GetPrivateResource(d, env, rule.matcher.privateResourceId);
    if resource.Err? {
      return Ok(());
    }
    var attached := p.ListRulesOfTarget(env, target);
    if attached.Err? {
      return Ok(());
    }
    JoinedIsDirect(p.world, target);
    var meets := MeetsPublicRule(attached.value, resource.value);
    return if meets then Err(FailedPrecondition) else Ok(());
  }
}
