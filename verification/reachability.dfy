/** The collision report read through OpenZiti: a triple is a public service the agent is admitted to whose
    config catches the address of a private resource the agent dials. */
module Reachability {
  import opened Wrappers
  import opened Uuids
  import opened Rules
  import opened Naming
  import opened Configs
  import opened Patterns
  import opened Tables
  import opened Fabric
  import opened Worlds
  import opened Passes
  import opened Convergence
  import opened Theorems
  import opened Admission
  import opened Agreement
  import opened Collisions
  import opened FastFail

  /** The identity carries the tags of the agent and of the environment it runs, and no other target's. */
  ghost predicate StampedFor(x: Identity, agent: Agent) {
    forall target :: StampedTag(target) in x.tags <==> ReachesTarget(agent, target)
  }

  lemma ReachesByTarget(b: Attachment, agent: Agent)
    requires b.OneTarget()
    ensures ReachesAgent(b, agent) <==> ReachesTarget(agent, b.TheTarget())
  {
    hide ParseUuid;
  }

  lemma HeldIsBound(w: World, agent: Agent, x: Identity, r: Uuid)
    requires Sound(w) && StampedFor(x, agent) && r in w.tables.rules
    ensures Holds(w.tables.rules, AttachmentRows(w.tables), agent, w.tables.rules[r]) <==> BoundFor(w.tables, r, x)
  {
    hide Sound, AttachmentRows, StampedTag, ReachesAgent, ReachesTarget;
    RowsKnown(w);
    Listing(w);
    var rows, rule := AttachmentRows(w.tables), w.tables.rules[r];
    if Holds(w.tables.rules, rows, agent, rule) {
      var i :| 0 <= i < |rows| && rows[i].ruleId in w.tables.rules && w.tables.rules[rows[i].ruleId] == rule
               && ReachesAgent(rows[i], agent);
      ReachesByTarget(rows[i], agent);
      assert Attached(w.tables, rows[i].id);
    }
    if BoundFor(w.tables, r, x) {
      var a :| Attached(w.tables, a) && w.tables.attachments[a].ruleId == r
               && StampedTag(w.tables.attachments[a].TheTarget()) in x.tags;
      ReachesByTarget(w.tables.attachments[a], agent);
      assert w.tables.attachments[a] in rows;
    }
  }

  lemma Listing(w: World)
    requires Sound(w)
    ensures var rows := AttachmentRows(w.tables);
            && (forall i | 0 <= i < |rows| :: rows[i].id in w.tables.attachments && w.tables.attachments[rows[i].id] == rows[i])
            && (forall a | a in w.tables.attachments :: w.tables.attachments[a] in rows)
  {
    AttachmentRowsExact(w.tables);
  }

  /** The rules the report groups under an agent are those whose services OpenZiti admits it to. */
  lemma HeldIsAdmitted(w: World, agent: Agent, x: Identity, r: Uuid)
    requires Sound(w) && Converged(w) && NoOrphans(w) && StampedFor(x, agent)
    requires r in w.tables.rules && !w.tables.rules[r].IsPrivate()
    ensures Holds(w.tables.rules, AttachmentRows(w.tables), agent, w.tables.rules[r]) <==>
              Admitted(w, x, w.tables.rules[r].serviceId)
  {
    hide Sound, Converged, NoOrphans, AttachmentRows, Admitted, StampedFor, Holds, BoundFor;
    RuleAdmission(w, r, x);
    HeldIsBound(w, agent, x, r);
  }

  /** The config catches a connection to the resource's host on one of its ports. */
  ghost predicate CatchesResource(config: Intercept, view: View) {
    exists address: string, i: nat | i < |view.interceptPorts| ::
      Catches(config, "tcp", address, view.interceptPorts[i]) && DomainPatternMatchesHost(address, view.interceptHost)
  }

  lemma HitsIsCaught(rule: Rule, config: Intercept, view: View)
    requires CatchesExactly(config, rule.matcher)
    ensures Hits(rule, view) <==> CatchesResource(config, view)
  {
    hide Catches, DomainPatternMatchesHost;
    if Hits(rule, view) {
      var k :| 0 <= k < |rule.matcher.ports| && rule.matcher.ports[k] in view.interceptPorts;
      var i: nat :| i < |view.interceptPorts| && view.interceptPorts[i] == rule.matcher.ports[k];
      assert Catches(config, "tcp", rule.matcher.domainPattern, view.interceptPorts[i]);
    }
    if CatchesResource(config, view) {
      var address: string, i: nat :| i < |view.interceptPorts| && Catches(config, "tcp", address, view.interceptPorts[i])
                                     && DomainPatternMatchesHost(address, view.interceptHost);
      assert address == rule.matcher.domainPattern && view.interceptPorts[i] in rule.matcher.ports;
    }
  }

  /** In agreement the report names exactly the live services that the agent is admitted to and that catch
      what it would send to a private resource it dials. */
  lemma ReportMeaning(w: World, d: Directory, agent: Agent, x: Identity, t: Triple)
    requires Sound(w) && Converged(w) && NoOrphans(w) && InterceptsAgree(w) && StampedFor(x, agent)
    ensures Collides(d, w.tables.rules, AttachmentRows(w.tables), agent, t) <==>
              && IsAgent(agent, t.agentId)
              && Dials(d, w.tables.rules, AttachmentRows(w.tables), agent, t.resourceId)
              && t.ruleId in w.tables.rules && !w.tables.rules[t.ruleId].IsPrivate()
              && var id := w.tables.rules[t.ruleId].serviceId;
                 Admitted(w, x, id) && CatchesResource(w.fabric.services[id].intercept, d.resources[t.resourceId])
  {
    AgreementCatches(w);
    RowsKnown(w);
    hide Sound, NoOrphans, InterceptsAgree, AttachmentRows, Hits, Dials, IsAgent, CatchesResource, CatchesExactly, StampedFor;
    var rules, rows := w.tables.rules, AttachmentRows(w.tables);
    forall q | Holds(rules, rows, agent, q)
      ensures q.id in rules && rules[q.id] == q
    {
    }
    if t.ruleId in rules && !rules[t.ruleId].IsPrivate() {
      assert RuleSettled(w, t.ruleId);
      HeldIsAdmitted(w, agent, x, t.ruleId);
      if Dials(d, rules, rows, agent, t.resourceId) {
        ResourceKnown(d, rules, rows, agent, t.resourceId);
        HitsIsCaught(rules[t.ruleId], w.fabric.services[rules[t.ruleId].serviceId].intercept, d.resources[t.resourceId]);
      }
    }
  }
}
