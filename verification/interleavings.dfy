/** Tempting claims that interleaving breaks, exactly how, and that a later pass heals them. */
module Interleavings {
  import opened Wrappers
  import opened Uuids
  import opened Rules
  import opened Naming
  import opened Configs
  import opened Tables
  import opened Fabric
  import opened Worlds
  import opened Passes
  import opened Convergence
  import opened Theorems
  import opened Platforms
  import opened Sweeps
  import opened Agreement
  import opened Reconciliation
  import opened PrivateTargets
  import opened Validation
  import opened RuleHandlers
  import opened Collisions
  import opened FastFail
  import opened AttachmentHandlers

  // ----- a pass with an old snapshot ---------------------------------------------------------

  /** The world after a pass's sweeps, when its listing is older than the world they run on. */
  function SweptLate(listed: Tables, w: World): World {
    SweptOf(w, ManagedServiceNames(listed), ManagedPolicyNames(listed))
  }

  /** A live rule's service survives such sweeps exactly if the listing had the rule. */
  lemma LateSweepExact(listed: Tables, w: World, r: Uuid)
    requires Sound(w) && RuleSettled(w, r) && !w.tables.rules[r].IsPrivate()
    ensures RuleSettled(SweptLate(listed, w), r) <==> r in listed.rules
  {
    RuleFacts(w, r);
    NamesAreSwept(r, Target(AgentTarget, 0));
    hide Sound, ServiceName, SweepsServiceName, ManagedPolicyNames;
    if ServiceName(r) in ManagedServiceNames(listed) {
      var q :| q in listed.rules && ServiceName(q) == ServiceName(r);
      ServiceNameInjective(q, r);
    }
  }

  /** The listing had an attachment of this rule to this target. */
  ghost predicate ListedBinding(listed: Tables, row: Attachment) {
    exists a | a in listed.attachments ::
      && listed.attachments[a].ruleId == row.ruleId && listed.attachments[a].OneTarget()
      && listed.attachments[a].FindTarget() == row.FindTarget()
  }

  lemma ListedName(listed: Tables, row: Attachment)
    requires row.OneTarget()
    ensures DialPolicyName(row.ruleId, row.TheTarget()) in ManagedPolicyNames(listed) <==> ListedBinding(listed, row)
  {
    hide DialPolicyName;
    if DialPolicyName(row.ruleId, row.TheTarget()) in ManagedPolicyNames(listed) {
      var a :| a in listed.attachments && listed.attachments[a].OneTarget() &&
               DialPolicyName(listed.attachments[a].ruleId, listed.attachments[a].TheTarget()) ==
               DialPolicyName(row.ruleId, row.TheTarget());
      DialPolicyNameInjective(listed.attachments[a].ruleId, listed.attachments[a].TheTarget(), row.ruleId, row.TheTarget());
    }
  }

  /** The dual for policies: an attachment's live policy survives exactly if the listing had an
      attachment of the same rule to the same target, under whatever id. */
  lemma LatePolicySweepExact(listed: Tables, w: World, a: Uuid)
    requires Sound(w) && PolicyLive(w, a)
    ensures PolicyLive(SweptLate(listed, w), a) <==> ListedBinding(listed, w.tables.attachments[a])
  {
    AttachmentFacts(w, a);
    var row := w.tables.attachments[a];
    ListedName(listed, row);
    NamesAreSwept(row.ruleId, row.TheTarget());
    hide Sound, DialPolicyName, SweepsPolicyName, ManagedServiceNames, ManagedPolicyNames, ListedBinding;
  }

  lemma SweptLateSound(listed: Tables, w: World)
    requires Sound(w)
    ensures Sound(SweptLate(listed, w))
  {
    hide SweepsServiceName, SweepsPolicyName, ServiceName, DialPolicyName, ManagedServiceNames, ManagedPolicyNames;
    assert FabricSound(SweptLate(listed, w).fabric) && FabricEvolves(w.fabric, SweptLate(listed, w).fabric);
    IdsSurvive(w.tables, w.fabric, SweptLate(listed, w).fabric);
  }

  /** Whatever the old listing cost, one whole pass gives every rule its service and every
      attachment its policy back. */
  lemma LateSweepHeals(listed: Tables, w: World)
    requires Sound(w)
    ensures forall r | r in w.tables.rules :: RuleSettled(Pass(SweptLate(listed, w)), r)
    ensures forall a | a in w.tables.attachments :: PolicyLive(Pass(SweptLate(listed, w)), a)
  {
    hide Sound, Pass, RuleSettled, PolicyLive;
    SweptLateSound(listed, w);
    OnePass(SweptLate(listed, w));
  }

  /** The sweeps of a pass whose two listings were taken in an earlier world. */
  method LateSweep(p: Platform, env: Env, rules: seq<Rule>, rows: seq<Attachment>, ghost listed: World)
    returns (r: Result<(), Error>)
    requires p.Valid() && Sound(listed) && Evolves(listed, p.world)
    requires rules == RuleRows(listed.tables) && rows == AttachmentRows(listed.tables)
    modifies p
    ensures p.Valid() && Follows(old(p.world), p.world)
    ensures env.Quiet? ==> r.Ok?
    ensures !env.Shared? && r.Ok? ==> p.world == SweptLate(listed.tables, old(p.world))
  {
    hide Sound, Evolves, Reaches, Follows, SweptOf, NamesOfRules, NamesOfAttachments, OnlyOrphansGone, Steady;
    hide RuleRows, AttachmentRows, ManagedServiceNames, ManagedPolicyNames;
    SnapshotNames(listed);
    r := SweepOrphans(p, env, rules, rows);
  }

  lemma FreshStays(w: World, v: World, x: Uuid)
    requires Sound(w) && Fresh(w, x) && Steady(w, v)
    ensures Fresh(v, x)
  {
    RowsKnown(w);
    hide Sound, ServiceName;
    forall id | id in v.fabric.services
      ensures v.fabric.services[id].name != ServiceName(x)
    {
      if r: Uuid :| r in w.tables.rules && v.fabric.services[id] == RuleService(r, w.tables.rules[r].matcher) &&
                    ServiceName(r) == ServiceName(x) {
        ServiceNameInjective(r, x);
      }
    }
  }

  lemma UnlistedRule(w: World, x: Uuid)
    requires Sound(w) && Fresh(w, x)
    ensures x !in w.tables.rules
  {
    RowsKnown(w);
  }

  /** A create on a fresh id stores the rule settled. */
  lemma CreatedSettled(w: World, x: Uuid, input: RuleInput)
    requires Fresh(w, x)
    ensures var v := Created(w, x, input);
            && x in v.tables.rules && v.tables.rules[x] == NewRule(w, x, input)
            && RuleSettled(v, x)
  {
    hide ServiceName;
  }

  /** A create handler runs between the two parts of a pass. Nothing fails, both answer success,
      and the new rule is stored with its service swept. */
  method CreateDuringPass(p: Platform, n: Networks, secrets: map<Uuid, Uuid>, req: CreateRequest, ruleId: Uuid)
    returns (created: Result<Rule, Error>, passed: Result<(), Error>)
    requires p.Valid() && Fresh(p.world, ruleId)
    modifies p, n
    ensures created.Ok? <==> Input(req).Ok? && Admissible(Input(req).value, secrets, n.catalog)
    ensures passed.Ok?
    ensures created.Ok? && !created.value.IsPrivate() ==>
      ruleId in p.world.tables.rules && !RuleSettled(p.world, ruleId)
  {
    hide Sound, Evolves, Reaches, Follows, Input, Admissible, Fresh, SyncedFor, Steady, RuleRows, AttachmentRows;
    hide Reconciled, Converged, NoOrphans, CreateLeaves, Created, NewRule, RuleSettled, SweepServices, SweepPolicies;
    hide ManagedServiceNames, ManagedPolicyNames;
    ghost var start := p.world;
    var listed := ReconcileRows(p, Quiet);
    ghost var reconciled := p.world;
    FreshStays(start, reconciled, ruleId);
    created := CreateEgressRule(p, n, Quiet, secrets, true, req, ruleId);
    ghost var stored := p.world;
    FollowsTransitive(start, reconciled, stored);
    FollowsFacts(start, stored);
    passed := LateSweep(p, Quiet, listed.value.0, listed.value.1, start);
    if created.Ok? && !created.value.IsPrivate() {
      CreatedSettled(reconciled, ruleId, Input(req).value);
      UnlistedRule(start, ruleId);
      LateSweepExact(start.tables, stored, ruleId);
    }
  }

  lemma UnattachedUnlisted(w: World, row: Attachment)
    requires row.OneTarget() && !IsAttached(w.tables, row.ruleId, row.TheTarget())
    ensures !ListedBinding(w.tables, row)
  {
  }

  /** Reconciling the rows binds nothing anew. */
  lemma ReconciledBindings(w: World, ruleId: Uuid, target: Target)
    requires Sound(w)
    ensures Sound(Reconciled(w))
    ensures IsAttached(Reconciled(w).tables, ruleId, target) <==> IsAttached(w.tables, ruleId, target)
    ensures Reconciled(w).tables.attachments.Keys == w.tables.attachments.Keys
  {
    hide Sound, Reconciled, RuleSettled, PolicyLive, PolicyMatches, Converged;
    ReconciledFacts(w);
    BindingsStay(w.tables, Reconciled(w).tables, ruleId, target);
  }

  lemma BindingsStay(t: Tables, u: Tables, ruleId: Uuid, target: Target)
    requires SameNames(t, u)
    ensures IsAttached(u, ruleId, target) <==> IsAttached(t, ruleId, target)
  {
    assert forall a | a in t.attachments ::
      u.attachments[a].ruleId == t.attachments[a].ruleId && u.attachments[a].FindTarget() == t.attachments[a].FindTarget();
  }

  /** An attach handler runs between the two parts of a pass. Nothing fails, both answer success,
      and the new attachment is stored with its policy swept. */
  method AttachDuringPass(p: Platform, d: Directory, ruleId: Uuid, target: Target, attachmentId: Uuid)
    returns (attached: Result<Attachment, Error>, passed: Result<(), Error>)
    requires p.Valid() && attachmentId !in p.world.tables.used
    modifies p
    ensures attached.Ok? <==> AttachAdmissible(d, Reconciled(old(p.world)), ruleId, target, true)
    ensures passed.Ok?
    ensures attached.Ok? ==> attachmentId in p.world.tables.attachments && !PolicyLive(p.world, attachmentId)
  {
    hide Sound, Evolves, Reaches, Follows, Steady, RuleRows, AttachmentRows, AttachAdmissible, AttachRefusal, IsAttached;
    hide Reconciled, Converged, NoOrphans, AttachLeaves, AttachedWorld, PolicyMatchesAttachment, SweepServices;
    hide SweepPolicies, ManagedServiceNames, ManagedPolicyNames, PolicyLive, RuleSettled, ListedBinding, PolicyMatches;
    ghost var start := p.world;
    ReconciledBindings(start, ruleId, target);
    var listed := ReconcileRows(p, Quiet);
    ghost var reconciled := p.world;
    SteadyUsed(start, reconciled);
    RowsKnown(reconciled);
    attached := CreateEgressRuleAttachment(p, Quiet, d, true, ruleId, target, attachmentId);
    ghost var stored := p.world;
    FollowsTransitive(start, reconciled, stored);
    FollowsFacts(start, stored);
    passed := LateSweep(p, Quiet, listed.value.0, listed.value.1, start);
    if attached.Ok? {
      AttachSettles(reconciled, ruleId, target, attachmentId);
      AttachedBinding(reconciled, stored, ruleId, target, attachmentId);
      UnattachedUnlisted(start, stored.tables.attachments[attachmentId]);
      LatePolicySweepExact(start.tables, stored, attachmentId);
    }
  }

  lemma SteadyUsed(w: World, v: World)
    requires Steady(w, v)
    ensures v.tables.used == w.tables.used && v.tables.attachments.Keys == w.tables.attachments.Keys
  {
  }

  lemma AttachedBinding(w: World, v: World, ruleId: Uuid, target: Target, attachmentId: Uuid)
    requires AttachLeaves(w, v, ruleId, target, attachmentId)
    requires attachmentId in v.tables.attachments && attachmentId !in w.tables.attachments
    ensures var row := v.tables.attachments[attachmentId];
            row.ruleId == ruleId && row.FindTarget() == Some(target)
  {
  }

  // ----- two attaches of one rule to one target -----------------------------------------------

  /** The calls of two handlers that attach the same rule to the same target: both are given the
      one policy, the second insert is refused, and its cleanup deletes the policy. */
  function Race(r: Uuid, target: Target, role: Selector, id: ZitiId, first: Uuid, second: Uuid): seq<Action> {
    [DoCreatePolicy(r, target, role), DoCreatePolicy(r, target, role),
     DoInsertAttachment(AttachmentFor(first, r, target, id)), DoInsertAttachment(AttachmentFor(second, r, target, id)),
     DoDeletePolicy(id)]
  }

  ghost predicate CanRace(w: World, r: Uuid, target: Target, first: Uuid, second: Uuid) {
    && Sound(w) && r in w.tables.rules && !IsAttached(w.tables, r, target)
    && first !in w.tables.used && second !in w.tables.used && first != second
  }

  lemma RaceCreates(w: World, r: Uuid, target: Target, role: Selector)
    requires Sound(w)
    ensures var policy := DialPolicy(r, target, role);
            var f, id := CreatePolicy(w.fabric, policy), CreatedPolicyId(w.fabric, policy);
            && CreatePolicy(f, policy) == f
            && OwnsPolicy(f, id, r, target)
            && Sound(World(w.tables, f))
  {
    var policy := DialPolicy(r, target, role);
    ObjectsKnown(w);
    CreatedPolicyExact(w.fabric, policy);
    PolicyIssued(w.fabric, policy);
    StepSound(w, DoCreatePolicy(r, target, role));
    hide DialPolicyName, Sound, FabricSound;
    assert PolicyNamed(CreatePolicy(w.fabric, policy), policy.name).Some?;
  }

  lemma SecondRefused(t: Tables, row: Attachment, other: Attachment)
    requires SameBinding(row, other)
    ensures AcceptsAttachment(t, row) ==> InsertAttachment(InsertAttachment(t, row), other) == InsertAttachment(t, row)
  {
    if AcceptsAttachment(t, row) {
      assert InsertAttachment(t, row).attachments[row.id] == row;
    }
  }

  lemma RunStep(w: World, a: Action, run: seq<Action>, v: World)
    requires Legal(w, a) && Apply(w, a) == v && LegalRun(v, run)
    ensures LegalRun(w, [a] + run) && Execute(w, [a] + run) == Execute(v, run)
  {
    hide Legal, Apply;
    assert ([a] + run)[1..] == run;
  }

  /** The worlds the race passes through. */
  lemma RaceSteps(w: World, r: Uuid, target: Target, role: Selector, first: Uuid, second: Uuid)
    requires CanRace(w, r, target, first, second)
    ensures var policy := DialPolicy(r, target, role);
            var f, id := CreatePolicy(w.fabric, policy), CreatedPolicyId(w.fabric, policy);
            var row, other := AttachmentFor(first, r, target, id), AttachmentFor(second, r, target, id);
            var t := InsertAttachment(w.tables, row);
            var w1, w2, w3 := World(w.tables, f), World(t, f), World(t, DeletePolicy(f, id));
            && Apply(w, DoCreatePolicy(r, target, role)) == w1 && Apply(w1, DoCreatePolicy(r, target, role)) == w1
            && Legal(w1, DoInsertAttachment(row)) && Apply(w1, DoInsertAttachment(row)) == w2
            && Legal(w2, DoInsertAttachment(other)) && Apply(w2, DoInsertAttachment(other)) == w2
            && Apply(w2, DoDeletePolicy(id)) == w3
            && first in w3.tables.attachments && second !in w3.tables.attachments && !PolicyLive(w3, first)
  {
    hide Sound, DialPolicyName, CreatePolicy, CreatedPolicyId, IsAttached, OwnsPolicy, AcceptsAttachment;
    hide SameBinding, Legal;
    var id := CreatedPolicyId(w.fabric, DialPolicy(r, target, role));
    var row, other := AttachmentFor(first, r, target, id), AttachmentFor(second, r, target, id);
    RaceCreates(w, r, target, role);
    NewRowAccepted(w, r, target, first, id);
    SameTarget(row, other);
    SecondRefused(w.tables, row, other);
    RowsKnown(w);
    InsertGuardRow(World(w.tables, CreatePolicy(w.fabric, DialPolicy(r, target, role))), r, target, first, id);
    InsertGuardRow(World(InsertAttachment(w.tables, row), CreatePolicy(w.fabric, DialPolicy(r, target, role))),
                   r, target, second, id);
  }

  /** The race is legal and leaves the winner's row without its policy, though nothing failed. */
  lemma RacingAttaches(w: World, r: Uuid, target: Target, role: Selector, first: Uuid, second: Uuid)
    requires CanRace(w, r, target, first, second)
    ensures var run := Race(r, target, role, CreatedPolicyId(w.fabric, DialPolicy(r, target, role)), first, second);
            && LegalRun(w, run)
            && first in Execute(w, run).tables.attachments && second !in Execute(w, run).tables.attachments
            && !PolicyLive(Execute(w, run), first)
  {
    hide Apply, CreatePolicy, CreatedPolicyId, PolicyLive, InsertAttachment, CanRace, DialPolicy;
    RaceSteps(w, r, target, role, first, second);
    var policy := DialPolicy(r, target, role);
    var f, id := CreatePolicy(w.fabric, policy), CreatedPolicyId(w.fabric, policy);
    var row, other := AttachmentFor(first, r, target, id), AttachmentFor(second, r, target, id);
    var t := InsertAttachment(w.tables, row);
    var w1, w2, w3 := World(w.tables, f), World(t, f), World(t, DeletePolicy(f, id));
    var create := DoCreatePolicy(r, target, role);
    RunStep(w2, DoDeletePolicy(id), [], w3);
    RunStep(w2, DoInsertAttachment(other), [DoDeletePolicy(id)] + [], w2);
    RunStep(w1, DoInsertAttachment(row), [DoInsertAttachment(other)] + ([DoDeletePolicy(id)] + []), w2);
    RunStep(w1, create, [DoInsertAttachment(row)] + ([DoInsertAttachment(other)] + ([DoDeletePolicy(id)] + [])), w1);
    RunStep(w, create, [create] + ([DoInsertAttachment(row)] + ([DoInsertAttachment(other)] + ([DoDeletePolicy(id)] + []))), w1);
    assert Race(r, target, role, id, first, second) ==
      [create] + ([create] + ([DoInsertAttachment(row)] + ([DoInsertAttachment(other)] + ([DoDeletePolicy(id)] + []))));
  }

  /** The next pass gives the winner a policy again. */
  lemma RaceHeals(w: World, r: Uuid, target: Target, role: Selector, first: Uuid, second: Uuid)
    requires CanRace(w, r, target, first, second)
    ensures var id := CreatedPolicyId(w.fabric, DialPolicy(r, target, role));
            PolicyLive(Pass(Execute(w, Race(r, target, role, id, first, second))), first)
  {
    hide Sound, Pass, PolicyLive, DialPolicyName, CreatedPolicyId, LegalRun, Execute;
    RacingAttaches(w, r, target, role, first, second);
    var run := Race(r, target, role, CreatedPolicyId(w.fabric, DialPolicy(r, target, role)), first, second);
    RunSound(w, run);
    OnePass(Execute(w, run));
  }

  /** The last steps of the race as the handler takes them: wherever the binding was taken meanwhile
      with its policy live, the insert is answered AlreadyExists and the cleanup costs the holder
      that policy, although nothing failed. */
  method LoseRace(p: Platform, row: Attachment) returns (r: Result<(), Error>)
    requires p.Valid() && Legal(p.world, DoInsertAttachment(row)) && row.id !in p.world.tables.used
    requires row.policyId in p.world.fabric.policies
    modifies p
    ensures p.Valid()
    ensures LiveTwin(old(p.world), row) ==> r == Err(AlreadyExists) && Costs(old(p.world), p.world)
    ensures !LiveTwin(old(p.world), row) ==> !Costs(old(p.world), p.world)
  {
    hide Sound, Legal, LiveTwin, Costs, InsertEnd, AcceptsAttachment, Duplicates, Reaches, Follows, PolicyLive;
    CleanupAfterInsert(Quiet, p.statements, p.calls, p.world, row);
    TwinTaken(p.world, row);
    r := InsertOrCleanUp(p, Quiet, row);
  }

  lemma SameTarget(a: Attachment, b: Attachment)
    requires a.ruleId == b.ruleId && a.agentId == b.agentId && a.environmentId == b.environmentId
    ensures SameBinding(a, b)
  {
  }

}
