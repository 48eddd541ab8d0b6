/** The two worlds the service keeps in agreement, and every atomic step that changes them. */
module Worlds {
  import opened Wrappers
  import opened Uuids
  import opened Rules
  import opened Naming
  import opened Configs
  import opened Tables
  import opened Fabric

  datatype World = World(tables: Tables, fabric: Fabric)

  const EMPTY_WORLD: World := World(Tables(map[], map[], {}), Fabric(map[], map[], 1))

  /** One statement or one call, by a handler, by a pass, or from outside. The outside may
      delete any object, edit the selectors of any policy, and create objects under names
      the sweep does not look at. */
  datatype Action =
    | DoInsertRule(rule: Rule)
    | DoUpdateRule(rule: Rule)
    | DoSetServiceId(ruleId: Uuid, serviceId: ZitiId)
    | DoDeleteRule(ruleId: Uuid)
    | DoInsertAttachment(attachment: Attachment)
    | DoSetPolicyId(attachmentId: Uuid, policyId: ZitiId)
    | DoDeleteAttachment(attachmentId: Uuid)
    | DoCreateService(ruleId: Uuid, matcher: Matcher)
    | DoUpdateService(serviceId: ZitiId, intercept: Intercept)
    | DoDeleteService(serviceId: ZitiId)
    | DoCreatePolicy(ruleId: Uuid, target: Target, serviceRole: Selector)
    | DoDeletePolicy(policyId: ZitiId)
    | DoEditPolicy(policyId: ZitiId, identityRoles: seq<Selector>, serviceRoles: seq<Selector>)
    | DoForeignService(service: Service)
    | DoForeignPolicy(policy: Policy)

  function ApplyTables(t: Tables, a: Action): Tables {
    match a
    case DoInsertRule(rule) => InsertRule(t, rule)
    case DoUpdateRule(rule) => UpdateRule(t, rule)
    case DoSetServiceId(ruleId, serviceId) => SetServiceId(t, ruleId, serviceId)
    case DoDeleteRule(ruleId) => DeleteRule(t, ruleId)
    case DoInsertAttachment(attachment) => InsertAttachment(t, attachment)
    case DoSetPolicyId(attachmentId, policyId) => SetPolicyId(t, attachmentId, policyId)
    case DoDeleteAttachment(attachmentId) => DeleteAttachment(t, attachmentId)
    case _ => t
  }

  function ApplyFabric(f: Fabric, a: Action): Fabric {
    match a
    case DoCreateService(ruleId, matcher) => CreateService(f, RuleService(ruleId, matcher))
    case DoUpdateService(serviceId, intercept) => UpdateService(f, serviceId, intercept)
    case DoDeleteService(serviceId) => DeleteService(f, serviceId)
    case DoCreatePolicy(ruleId, target, serviceRole) => CreatePolicy(f, DialPolicy(ruleId, target, serviceRole))
    case DoDeletePolicy(policyId) => DeletePolicy(f, policyId)
    case DoEditPolicy(policyId, identityRoles, serviceRoles) => EditPolicy(f, policyId, identityRoles, serviceRoles)
    case DoForeignService(service) => CreateService(f, service)
    case DoForeignPolicy(policy) => CreatePolicy(f, policy)
    case _ => f
  }

  function Apply(w: World, a: Action): World {
    World(ApplyTables(w.tables, a), ApplyFabric(w.fabric, a))
  }

  predicate GoodServiceId(f: Fabric, rule: Rule) {
    if rule.IsPrivate() then rule.serviceId == NO_ID else OwnsService(f, rule.serviceId, rule.id)
  }

  /** What each kind of step is guarded by at the moment it is taken. */
  predicate Legal(w: World, a: Action) {
    match a
    case DoInsertRule(rule) => GoodServiceId(w.fabric, rule)
    case DoUpdateRule(rule) => GoodServiceId(w.fabric, rule) && KeepsKind(w.tables, rule)
    case DoSetServiceId(ruleId, serviceId) =>
      && OwnsService(w.fabric, serviceId, ruleId)
      && ruleId in w.tables.used
      && (ruleId in w.tables.rules ==> !w.tables.rules[ruleId].IsPrivate())
    case DoInsertAttachment(b) => b.OneTarget() && OwnsPolicy(w.fabric, b.policyId, b.ruleId, b.TheTarget())
    case DoSetPolicyId(attachmentId, policyId) =>
      && attachmentId in w.tables.used
      && (attachmentId in w.tables.attachments ==>
            var b := w.tables.attachments[attachmentId];
            b.OneTarget() && OwnsPolicy(w.fabric, policyId, b.ruleId, b.TheTarget()))
    case DoForeignService(service) => !SweepsServiceName(service.name)
    case DoForeignPolicy(policy) => !SweepsPolicyName(policy.name)
    case _ => true
  }

  // ----- what every step keeps ---------------------------------------------------

  /** A stored id is empty, dangling, or names an object that belongs to exactly its row. */
  ghost predicate RuleIdsSound(rules: map<Uuid, Rule>, f: Fabric) {
    forall r | r in rules ::
      if rules[r].IsPrivate() then rules[r].serviceId == NO_ID
      else rules[r].serviceId == NO_ID || OwnsService(f, rules[r].serviceId, r)
  }

  ghost predicate PolicyIdsSound(attachments: map<Uuid, Attachment>, f: Fabric) {
    forall a | a in attachments ::
      attachments[a].OneTarget() ==>
        || attachments[a].policyId == NO_ID
        || OwnsPolicy(f, attachments[a].policyId, attachments[a].ruleId, attachments[a].TheTarget())
  }

  ghost predicate Sound(w: World) {
    && TablesSound(w.tables)
    && FabricSound(w.fabric)
    && RuleIdsSound(w.tables.rules, w.fabric)
    && PolicyIdsSound(w.tables.attachments, w.fabric)
  }

  /** What the invariant says of the rows, and of OpenZiti. */
  lemma RowsKnown(w: World)
    requires Sound(w)
    ensures forall r | r in w.tables.rules :: w.tables.rules[r].id == r && r in w.tables.used
    ensures forall a | a in w.tables.attachments ::
              && w.tables.attachments[a].id == a && a in w.tables.used
              && w.tables.attachments[a].OneTarget() && w.tables.attachments[a].ruleId in w.tables.rules
  {
  }

  lemma ObjectsKnown(w: World)
    requires Sound(w)
    ensures FabricSound(w.fabric)
  {
  }

  ghost predicate PrivateIffEmpty(rules: map<Uuid, Rule>) {
    forall r | r in rules :: rules[r].IsPrivate() <==> rules[r].serviceId == NO_ID
  }

  ghost predicate Evolves(w: World, v: World) {
    && TablesEvolve(w.tables, v.tables)
    && FabricEvolves(w.fabric, v.fabric)
    && (PrivateIffEmpty(w.tables.rules) ==> PrivateIffEmpty(v.tables.rules))
  }

  lemma EvolvesTransitive(u: World, v: World, w: World)
    requires Evolves(u, v) && Evolves(v, w)
    ensures Evolves(u, w)
  {
  }

  /** The rows a step writes keep the tables sound, whatever OpenZiti holds. */
  lemma StatementSound(w: World, a: Action)
    requires TablesSound(w.tables) && Legal(w, a)
    ensures TablesSound(ApplyTables(w.tables, a)) && TablesEvolve(w.tables, ApplyTables(w.tables, a))
  {
    var t := w.tables;
    match a
    case DoInsertRule(rule) => InsertRuleSound(t, rule);
    case DoUpdateRule(rule) => UpdateRuleSound(t, rule);
    case DoSetServiceId(ruleId, serviceId) => SetServiceIdSound(t, ruleId, serviceId);
    case DoDeleteRule(ruleId) => RowDeletesSound(t, ruleId);
    case DoInsertAttachment(b) => InsertAttachmentSound(t, b);
    case DoSetPolicyId(attachmentId, policyId) => SetPolicyIdSound(t, attachmentId, policyId);
    case DoDeleteAttachment(attachmentId) => RowDeletesSound(t, attachmentId);
    case _ =>
  }

  /** The ids a step stores belong to the rows it stores them in. */
  lemma RuleIdsWritten(w: World, a: Action)
    requires Sound(w) && Legal(w, a)
    ensures RuleIdsSound(ApplyTables(w.tables, a).rules, w.fabric)
    ensures PrivateIffEmpty(w.tables.rules) ==> PrivateIffEmpty(ApplyTables(w.tables, a).rules)
  {
  }

  lemma PolicyIdsWritten(w: World, a: Action)
    requires Sound(w) && Legal(w, a)
    ensures PolicyIdsSound(ApplyTables(w.tables, a).attachments, w.fabric)
  {
  }

  lemma CallSound(f: Fabric, a: Action)
    requires FabricSound(f)
    requires a.DoForeignService? ==> !SweepsServiceName(a.service.name)
    requires a.DoForeignPolicy? ==> !SweepsPolicyName(a.policy.name)
    ensures FabricSound(ApplyFabric(f, a)) && FabricEvolves(f, ApplyFabric(f, a))
  {
    match a
    case DoCreateService(ruleId, matcher) => CreateServiceSound(f, RuleService(ruleId, matcher));
    case DoUpdateService(id, intercept) => UpdateServiceSound(f, id, intercept);
    case DoDeleteService(id) => ObjectDeletesSound(f, id);
    case DoCreatePolicy(ruleId, target, serviceRole) => CreatePolicySound(f, DialPolicy(ruleId, target, serviceRole));
    case DoDeletePolicy(id) => ObjectDeletesSound(f, id);
    case DoEditPolicy(id, identityRoles, serviceRoles) => EditPolicySound(f, id, identityRoles, serviceRoles);
    case DoForeignService(service) => CreateServiceSound(f, service);
    case DoForeignPolicy(policy) => CreatePolicySound(f, policy);
    case _ =>
  }

  /** What a row's stored id promises survives every change of OpenZiti. */
  lemma IdsSurvive(t: Tables, f: Fabric, g: Fabric)
    requires FabricEvolves(f, g)
    ensures RuleIdsSound(t.rules, f) ==> RuleIdsSound(t.rules, g)
    ensures PolicyIdsSound(t.attachments, f) ==> PolicyIdsSound(t.attachments, g)
  {
  }

  /** Every legal step keeps the invariant and only lets the world evolve. */
  lemma StepSound(w: World, a: Action)
    requires Sound(w) && Legal(w, a)
    ensures Sound(Apply(w, a)) && Evolves(w, Apply(w, a))
  {
    StatementSound(w, a);
    CallSound(w.fabric, a);
    RuleIdsWritten(w, a);
    PolicyIdsWritten(w, a);
    IdsSurvive(ApplyTables(w.tables, a), w.fabric, ApplyFabric(w.fabric, a));
  }

  /** A guard that held once still holds later: what a process learnt does not go stale. */
  lemma GuardStable(w: World, v: World, a: Action)
    requires Sound(w) && Legal(w, a) && Evolves(w, v)
    ensures Legal(v, a)
  {
  }

  // ----- whole runs ----------------------------------------------------------------

  /** The world after a finite run, and whether each step was legal when it was taken. */
  function Execute(w: World, run: seq<Action>): World
    decreases |run|
  {
    if run == [] then w else Execute(Apply(w, run[0]), run[1..])
  }

  predicate LegalRun(w: World, run: seq<Action>)
    decreases |run|
  {
    run == [] || (Legal(w, run[0]) && LegalRun(Apply(w, run[0]), run[1..]))
  }

  ghost predicate Reaches(w: World, v: World) {
    exists run :: LegalRun(w, run) && Execute(w, run) == v
  }

  /** Whatever the interleaving, a run keeps the invariant and only lets the world evolve. */
  lemma {:induction false} RunSound(w: World, run: seq<Action>)
    requires Sound(w) && LegalRun(w, run)
    ensures Sound(Execute(w, run)) && Evolves(w, Execute(w, run))
    decreases |run|
  {
    if run != [] {
      StepSound(w, run[0]);
      RunSound(Apply(w, run[0]), run[1..]);
      EvolvesTransitive(w, Apply(w, run[0]), Execute(w, run));
    }
  }

  lemma {:induction false} ExecuteAppend(w: World, run: seq<Action>, more: seq<Action>)
    requires LegalRun(w, run) && LegalRun(Execute(w, run), more)
    ensures LegalRun(w, run + more)
    ensures Execute(w, run + more) == Execute(Execute(w, run), more)
    decreases |run|
  {
    if run == [] {
      assert run + more == more;
    } else {
      ExecuteAppend(Apply(w, run[0]), run[1..], more);
      assert (run + more)[1..] == run[1..] + more;
    }
  }

  lemma ReachesTransitive(u: World, v: World, w: World)
    requires Reaches(u, v) && Reaches(v, w)
    ensures Reaches(u, w)
  {
    var run :| LegalRun(u, run) && Execute(u, run) == v;
    var more :| LegalRun(v, more) && Execute(v, more) == w;
    ExecuteAppend(u, run, more);
  }

  lemma ReachesStep(w: World, a: Action)
    requires Legal(w, a)
    ensures Reaches(w, Apply(w, a))
  {
    assert [a][1..] == [];
    assert LegalRun(w, [a]) && Execute(w, [a]) == Apply(w, a);
  }

  lemma ReachesSelf(w: World)
    ensures Reaches(w, w)
  {
    assert LegalRun(w, []) && Execute(w, []) == w;
  }

  lemma ReachesSound(w: World, v: World)
    requires Sound(w) && Reaches(w, v)
    ensures Sound(v) && Evolves(w, v)
  {
    var run :| LegalRun(w, run) && Execute(w, run) == v;
    RunSound(w, run);
  }

  lemma EmptyWorldSound()
    ensures Sound(EMPTY_WORLD) && PrivateIffEmpty(EMPTY_WORLD.tables.rules)
  {
  }

  /** The step-level invariant of every interleaving from an empty installation: a rule is
      private exactly when its stored service id is empty, and a stored id is dangling or
      names an object whose name belongs to that row and to no other. */
  lemma EveryInterleaving(run: seq<Action>)
    requires LegalRun(EMPTY_WORLD, run)
    ensures var w := Execute(EMPTY_WORLD, run);
            && (forall r | r in w.tables.rules ::
                  && (w.tables.rules[r].IsPrivate() <==> w.tables.rules[r].serviceId == NO_ID)
                  && (w.tables.rules[r].serviceId in w.fabric.services ==>
                        forall q: Uuid ::
                          w.fabric.services[w.tables.rules[r].serviceId].name == ServiceName(q) <==> q == r))
            && (forall a | a in w.tables.attachments ::
                  w.tables.attachments[a].OneTarget() &&
                  (w.tables.attachments[a].policyId in w.fabric.policies ==>
                     forall q: Uuid, t: Target ::
                       w.fabric.policies[w.tables.attachments[a].policyId].name == DialPolicyName(q, t) <==>
                         q == w.tables.attachments[a].ruleId && t == w.tables.attachments[a].TheTarget()))
  {
    EmptyWorldSound();
    RunSound(EMPTY_WORLD, run);
    var w := Execute(EMPTY_WORLD, run);
    forall r, q: Uuid | r in w.tables.rules && w.tables.rules[r].serviceId in w.fabric.services
      ensures w.fabric.services[w.tables.rules[r].serviceId].name == ServiceName(q) <==> q == r
    {
      if ServiceName(r) == ServiceName(q) {
        ServiceNameInjective(r, q);
      }
    }
    forall a, q: Uuid, t: Target | a in w.tables.attachments && w.tables.attachments[a].policyId in w.fabric.policies
      ensures w.tables.attachments[a].OneTarget() &&
        (w.fabric.policies[w.tables.attachments[a].policyId].name == DialPolicyName(q, t) <==>
              q == w.tables.attachments[a].ruleId && t == w.tables.attachments[a].TheTarget())
    {
      var b := w.tables.attachments[a];
      if DialPolicyName(b.ruleId, b.TheTarget()) == DialPolicyName(q, t) {
        DialPolicyNameInjective(b.ruleId, b.TheTarget(), q, t);
      }
    }
  }

  /** Between any two moments of a run, a rule that is stored at the later one and had ever
      been stored at the earlier one has kept its organization and its private resource. */
  lemma ResourceNeverChanges(before: seq<Action>, after: seq<Action>, r: Uuid)
    requires LegalRun(EMPTY_WORLD, before + after)
    ensures var w, v := Execute(EMPTY_WORLD, before), Execute(EMPTY_WORLD, before + after);
            r in w.tables.used && r in v.tables.rules ==>
              r in w.tables.rules && SameRule(w.tables.rules[r], v.tables.rules[r])
  {
    EmptyWorldSound();
    SplitRun(EMPTY_WORLD, before, after);
    RunSound(EMPTY_WORLD, before);
    RunSound(Execute(EMPTY_WORLD, before), after);
  }

  lemma {:induction false} SplitRun(w: World, before: seq<Action>, after: seq<Action>)
    requires LegalRun(w, before + after)
    ensures LegalRun(w, before) && LegalRun(Execute(w, before), after)
    ensures Execute(w, before + after) == Execute(Execute(w, before), after)
    decreases |before|
  {
    if before == [] {
      assert before + after == after;
    } else {
      assert (before + after)[1..] == before[1..] + after;
      SplitRun(Apply(w, before[0]), before[1..], after);
    }
  }
}
