/** Exactly when one pass is not enough. */
module SinglePass {
  import opened Wrappers
  import opened Text
  import opened Uuids
  import opened Rules
  import opened Naming
  import opened Configs
  import opened Tables
  import opened Fabric
  import opened Worlds
  import opened Passes
  import opened Convergence
  import opened Theorems
  import opened Validation
  import opened Agreement

  // ----- the ids the rules phase stores ----------------------------------------------------

  /** The rule's stored service is gone and no live service bears its name: the pass creates one. */
  predicate Undecided(f: Fabric, rule: Rule) {
    !rule.IsPrivate() && rule.serviceId !in f.services && ServiceNamed(f, ServiceName(rule.id)).None?
  }

  /** The undecided rules the pass comes to before this one. */
  function UndecidedBefore(w: World, r: Uuid): set<Uuid> {
    set q | q in w.tables.rules && q < r && Undecided(w.fabric, w.tables.rules[q])
  }

  /** The row a pass leaves for a rule, told from the world before: the stored id if its service
      is live, else that of a live service of the rule's name, else the next id not yet taken by
      an undecided rule in front of it. */
  function DecidedRule(w: World, r: Uuid): Rule
    requires r in w.tables.rules
  {
    var rule := w.tables.rules[r];
    if rule.IsPrivate() || rule.serviceId in w.fabric.services then rule
    else
      match ServiceNamed(w.fabric, ServiceName(rule.id))
      case Some(id) => rule.(serviceId := id)
      case None => rule.(serviceId := w.fabric.next + |UndecidedBefore(w, r)|)
  }

  ghost predicate RuleListingOf(w: World, ids: seq<Uuid>) {
    && (forall j | 0 <= j < |ids| :: ids[j] in w.tables.rules)
    && (forall i, j | 0 <= i < j < |ids| :: ids[i] < ids[j])
    && (forall r | r in w.tables.rules :: exists j :: 0 <= j < |ids| && ids[j] == r)
  }

  /** Going on to the next rule of the listing. */
  lemma UndecidedGrows(w: World, ids: seq<Uuid>, n: nat)
    requires n < |ids| && RuleListingOf(w, ids)
    ensures n == 0 ==> UndecidedBefore(w, ids[0]) == {}
    ensures n + 1 < |ids| ==>
              |UndecidedBefore(w, ids[n + 1])| ==
              |UndecidedBefore(w, ids[n])| + (if Undecided(w.fabric, w.tables.rules[ids[n]]) then 1 else 0)
  {
    hide Undecided;
    if n + 1 < |ids| {
      forall q | q in w.tables.rules
        ensures q < ids[n + 1] <==> q < ids[n] || q == ids[n]
      {
        var j :| 0 <= j < |ids| && ids[j] == q;
      }
      assert UndecidedBefore(w, ids[n + 1]) ==
        UndecidedBefore(w, ids[n]) + (if Undecided(w.fabric, w.tables.rules[ids[n]]) then {ids[n]} else {});
      assert ids[n] !in UndecidedBefore(w, ids[n]);
    }
    if n == 0 {
      forall q | q in w.tables.rules
        ensures q >= ids[0]
      {
        var j :| 0 <= j < |ids| && ids[j] == q;
      }
    }
  }

  /** Where the rules phase stands after n rules. */
  ghost predicate DecidedUpTo(w: World, v: World, ids: seq<Uuid>, n: nat)
    requires n <= |ids| && RuleListingOf(w, ids)
  {
    && RowsUpTo(w, v, ids, n)
    && ServicesUpTo(w.fabric, v.fabric, ids, n)
    && (n < |ids| ==> v.fabric.next == w.fabric.next + |UndecidedBefore(w, ids[n])|)
  }

  ghost predicate RowsUpTo(w: World, v: World, ids: seq<Uuid>, n: nat)
    requires n <= |ids| && RuleListingOf(w, ids)
  {
    && v.tables.rules.Keys == w.tables.rules.Keys
    && (forall j | 0 <= j < n :: v.tables.rules[ids[j]] == DecidedRule(w, ids[j]))
    && (forall j | n <= j < |ids| :: v.tables.rules[ids[j]] == w.tables.rules[ids[j]])
  }

  ghost predicate ServicesUpTo(f: Fabric, g: Fabric, ids: seq<Uuid>, n: nat)
    requires n <= |ids|
  {
    && (forall id | id in f.services :: id in g.services && g.services[id].name == f.services[id].name)
    && (forall id | id in g.services && id !in f.services :: NamedForOneOf(g.services[id].name, ids, n))
  }

  ghost predicate NamedForOneOf(name: string, ids: seq<Uuid>, n: nat)
    requires n <= |ids|
  {
    exists j | 0 <= j < n :: name == ServiceName(ids[j])
  }

  /** The rule finds its own services as they were before the pass. */
  ghost predicate Undisturbed(w: World, v: World, r: Uuid) {
    && r in w.tables.rules && r in v.tables.rules
    && v.tables.rules[r] == w.tables.rules[r] && w.tables.rules[r].id == r
    && (w.tables.rules[r].serviceId in v.fabric.services <==> w.tables.rules[r].serviceId in w.fabric.services)
    && ServiceNamed(v.fabric, ServiceName(r)) == ServiceNamed(w.fabric, ServiceName(r))
    && v.fabric.next == w.fabric.next + |UndecidedBefore(w, r)|
  }

  /** A stored id that names a live service named one before the pass. */
  lemma IdsBefore(w: World, v: World, r: Uuid)
    requires Sound(w) && r in w.tables.rules && FabricEvolves(w.fabric, v.fabric)
    ensures w.tables.rules[r].id == r
    ensures w.tables.rules[r].serviceId in v.fabric.services ==>
              w.tables.rules[r].serviceId == NO_ID || w.tables.rules[r].serviceId in w.fabric.services
  {
    RuleFacts(w, r);
  }

  lemma TurnUndisturbed(w: World, v: World, ids: seq<Uuid>, n: nat)
    requires n < |ids| && RuleListingOf(w, ids) && DecidedUpTo(w, v, ids, n)
    requires Sound(w) && Sound(v) && FabricEvolves(w.fabric, v.fabric)
    ensures Undisturbed(w, v, ids[n])
  {
    hide Sound, ServiceName, DecidedRule, UndecidedBefore, FabricEvolves;
    IdsBefore(w, v, ids[n]);
    ObjectsKnown(v);
    IssuedIds(v);
    forall id | id in v.fabric.services && v.fabric.services[id].name == ServiceName(ids[n])
      ensures id in w.fabric.services
    {
      if id !in w.fabric.services {
        var j :| 0 <= j < n && v.fabric.services[id].name == ServiceName(ids[j]);
        ServiceNameInjective(ids[j], ids[n]);
      }
    }
  }

  /** What its turn does for such a rule. */
  lemma TurnTaken(w: World, v: World, r: Uuid)
    requires Undisturbed(w, v, r) && Sound(v)
    ensures var u := ReconcileRule(v, r);
            && u.tables == v.tables.(rules := v.tables.rules[r := DecidedRule(w, r)])
            && u.fabric.next == v.fabric.next + (if Undecided(w.fabric, w.tables.rules[r]) then 1 else 0)
            && (forall id | id in v.fabric.services :: id in u.fabric.services && u.fabric.services[id] == v.fabric.services[id])
            && (forall id | id in u.fabric.services && id !in v.fabric.services :: u.fabric.services[id].name == ServiceName(r))
  {
    RuleFacts(v, r);
    SetSameId(v.tables, r);
    ObjectsKnown(v);
    IssuedIds(v);
    hide Sound, ServiceName, UndecidedBefore, FabricSound;
  }

  lemma RowsOneMore(w: World, v: World, u: World, ids: seq<Uuid>, n: nat)
    requires n < |ids| && RuleListingOf(w, ids) && RowsUpTo(w, v, ids, n)
    requires u.tables.rules == v.tables.rules[ids[n] := DecidedRule(w, ids[n])]
    ensures RowsUpTo(w, u, ids, n + 1)
  {
    hide DecidedRule;
  }

  lemma ServicesOneMore(f: Fabric, g: Fabric, h: Fabric, ids: seq<Uuid>, n: nat)
    requires n < |ids| && ServicesUpTo(f, g, ids, n)
    requires forall id | id in g.services :: id in h.services && h.services[id] == g.services[id]
    requires forall id | id in h.services && id !in g.services :: h.services[id].name == ServiceName(ids[n])
    ensures ServicesUpTo(f, h, ids, n + 1)
  {
    hide ServiceName;
  }

  lemma DecideOne(w: World, v: World, ids: seq<Uuid>, n: nat)
    requires n < |ids| && RuleListingOf(w, ids) && DecidedUpTo(w, v, ids, n)
    requires Sound(w) && Sound(v) && FabricEvolves(w.fabric, v.fabric)
    ensures DecidedUpTo(w, ReconcileRule(v, ids[n]), ids, n + 1)
  {
    hide Sound, ServiceName, Undecided, UndecidedBefore, FabricEvolves, ReconcileRule, DecidedRule, RowsUpTo, ServicesUpTo;
    TurnUndisturbed(w, v, ids, n);
    TurnTaken(w, v, ids[n]);
    UndecidedGrows(w, ids, n);
    RowsOneMore(w, v, ReconcileRule(v, ids[n]), ids, n);
    ServicesOneMore(w.fabric, v.fabric, ReconcileRule(v, ids[n]).fabric, ids, n);
  }

  lemma RulesEvolve(w: World, ids: seq<Uuid>, n: nat)
    requires Sound(w) && n <= |ids| && RuleListingOf(w, ids)
    ensures Sound(ReconcileRules(w, ids, n)) && FabricEvolves(w.fabric, ReconcileRules(w, ids, n).fabric)
  {
    hide Sound, FabricEvolves, RuleSettled, ReconcileRules;
    RulesSettle(w, ids, n);
  }

  lemma NoneDecided(w: World, ids: seq<Uuid>)
    requires RuleListingOf(w, ids)
    ensures DecidedUpTo(w, w, ids, 0)
  {
    hide Undecided;
    if ids != [] {
      UndecidedGrows(w, ids, 0);
    }
  }

  lemma {:induction false} RulesDecided(w: World, ids: seq<Uuid>, n: nat)
    requires Sound(w) && n <= |ids| && RuleListingOf(w, ids)
    ensures DecidedUpTo(w, ReconcileRules(w, ids, n), ids, n)
  {
    hide Sound, DecidedUpTo, RuleListingOf, ReconcileRule, FabricEvolves;
    if n == 0 {
      NoneDecided(w, ids);
    } else {
      RulesDecided(w, ids, n - 1);
      RulesEvolve(w, ids, n - 1);
      DecideOne(w, ReconcileRules(w, ids, n - 1), ids, n - 1);
    }
  }

  /** The rules phase stores exactly the decided ids. */
  lemma DecidedExact(w: World)
    requires Sound(w)
    ensures AllRules(w).tables.rules.Keys == w.tables.rules.Keys
    ensures forall r | r in w.tables.rules :: AllRules(w).tables.rules[r] == DecidedRule(w, r)
  {
    var ids := AscendingIds(w.tables.rules.Keys);
    IdsListed(w.tables.rules.Keys);
    hide Sound, DecidedRule, ReconcileRules, AscendingIds, UndecidedBefore, NamedForOneOf;
    RulesDecided(w, ids, |ids|);
  }

  // ----- when one pass is enough -----------------------------------------------------------

  /** The policy is the one the attachment will ask for. */
  predicate Fits(w: World, a: Uuid, p: ZitiId) {
    && Attached(w.tables, a) && p in w.fabric.policies
    && PolicyMatchesAttachment(w.fabric.policies[p], w.tables.attachments[a], DecidedRule(w, w.tables.attachments[a].ruleId))
  }

  /** The attachment's stored policy is gone, and a live policy of its name is not the one it
      asks for: the pass will adopt that policy as it is. */
  predicate AdoptsStale(w: World, a: Uuid) {
    && Attached(w.tables, a)
    && var b := w.tables.attachments[a];
       && b.policyId !in w.fabric.policies
       && var named := PolicyNamed(w.fabric, DialPolicyName(b.ruleId, b.TheTarget()));
          named.Some? && !Fits(w, a, named.value)
  }

  /** Which policy an attachment has after the reconciling phases, and whether it is right. */
  lemma AdoptionExact(w: World, u: World, v: World, a: Uuid)
    requires Sound(w) && Sound(u) && RulesProgress(w, u) && a in w.tables.attachments
    requires Attached(w.tables, a)
    requires u.tables.rules[w.tables.attachments[a].ruleId] == DecidedRule(w, w.tables.attachments[a].ruleId)
    requires OnlyPolicies(u, v) && AttachmentSettled(u, v, a)
    ensures PolicyMatches(v, a) <==> !AdoptsStale(w, a)
  {
    AttachmentFacts(w, a);
    AttachmentFacts(u, a);
    var b := w.tables.attachments[a];
    hide Sound, DialPolicyName, RuleSettled, PolicyMatchesAttachment, DecidedRule;
    match PolicyNamed(w.fabric, DialPolicyName(b.ruleId, b.TheTarget())) {
      case None =>
        assert forall p :: !Bears(u.fabric, p, b);
      case Some(p) =>
        assert Bears(u.fabric, p, b);
    }
  }

  /** One pass converges exactly if no attachment adopts a stale policy. */
  lemma OnePassExact(w: World)
    requires Sound(w)
    ensures Converged(Pass(w)) <==> forall a | a in w.tables.attachments :: !AdoptsStale(w, a)
  {
    hide Sound, AdoptsStale, RuleSettled, PolicyMatches, PolicyLive, RulesProgress, OnlyPolicies, Kept, DecidedRule;
    hide AllRules, AllAttachments, ManagedServiceNames, ManagedPolicyNames, NoOrphans, SameNames, AttachmentSettled;
    OnePass(w);
    RulesPhase(w);
    var u := AllRules(w);
    RulesPhaseKeeps(w, u);
    DecidedExact(w);
    AttachmentsPhase(u);
    var v := AllAttachments(u);
    AttachmentsPhaseKeeps(w, u, v);
    assert v == Reconciled(w);
    ReconciledFacts(w);
    SameNamesManage(w.tables, v.tables);
    assert Pass(w) == Swept(v);
    SweepFacts(v);
    forall a | a in w.tables.attachments
      ensures PolicyMatches(Pass(w), a) <==> !AdoptsStale(w, a)
    {
      AttachmentFacts(w, a);
      KeptFollows(v, Swept(v), a);
      AdoptionExact(w, u, v, a);
    }
  }

  // ----- a run after which one pass is not enough --------------------------------------

  const RULE: Rule := Rule(1, 0, "", "", Matcher("", [], [], "", UuidText(4)), Effect(Some(ACTION_ALLOW), []), None, NO_ID)
  const TARGET: Target := Target(AgentTarget, 2)
  const ROW: Attachment := AttachmentFor(3, 1, TARGET, 1)

  const POLICY: Policy := DialPolicy(1, TARGET, ServiceRole(RULE))
  const ATTACHED: Tables := Tables(map[1 := RULE], map[3 := ROW], {1, 3})

  /** A rule is attached, its policy 1 is deleted from outside, a second attach of the same
      target provisions the name again, loses the insert and fails to clean up, and the
      leftover's selectors are edited from outside so that they admit nobody. */
  const STALE_WORLD: World :=
    World(ATTACHED, Fabric(map[], map[2 := POLICY.(identityRoles := [], serviceRoles := [])], 3))

  lemma RuleAttached()
    ensures Reaches(EMPTY_WORLD, World(ATTACHED, Fabric(map[], map[1 := POLICY], 2)))
  {
    hide DialPolicyName;
    var w1 := World(Tables(map[1 := RULE], map[], {1}), Fabric(map[], map[], 1));
    var w2 := World(w1.tables, Fabric(map[], map[1 := POLICY], 2));
    StepTo(EMPTY_WORLD, EMPTY_WORLD, DoInsertRule(RULE), w1);
    StepTo(EMPTY_WORLD, w1, DoCreatePolicy(1, TARGET, ServiceRole(RULE)), w2);
    StepTo(EMPTY_WORLD, w2, DoInsertAttachment(ROW), World(ATTACHED, w2.fabric));
  }

  lemma PolicyLost()
    ensures Reaches(EMPTY_WORLD, World(ATTACHED, Fabric(map[], map[], 2)))
  {
    RuleAttached();
    hide DialPolicyName, Reaches;
    var w := World(ATTACHED, Fabric(map[], map[1 := POLICY], 2));
    assert DeletePolicy(w.fabric, 1).policies == map[];
    StepTo(EMPTY_WORLD, w, DoDeletePolicy(1), World(ATTACHED, Fabric(map[], map[], 2)));
  }

  lemma PolicyLeftOver()
    ensures Reaches(EMPTY_WORLD, World(ATTACHED, Fabric(map[], map[2 := POLICY], 3)))
  {
    PolicyLost();
    hide DialPolicyName, Reaches;
    var w := World(ATTACHED, Fabric(map[], map[], 2));
    assert CreatePolicy(w.fabric, POLICY) == Fabric(map[], map[2 := POLICY], 3);
    StepTo(EMPTY_WORLD, w, DoCreatePolicy(1, TARGET, ServiceRole(RULE)), World(ATTACHED, Fabric(map[], map[2 := POLICY], 3)));
  }

  lemma StaleWorldReached()
    ensures Reaches(EMPTY_WORLD, STALE_WORLD)
  {
    PolicyLeftOver();
    hide DialPolicyName, Reaches;
    var w := World(ATTACHED, Fabric(map[], map[2 := POLICY], 3));
    assert EditPolicy(w.fabric, 2, [], []) == STALE_WORLD.fabric;
    StepTo(EMPTY_WORLD, w, DoEditPolicy(2, [], []), STALE_WORLD);
  }

  lemma StepTo(start: World, w: World, a: Action, v: World)
    requires Reaches(start, w) || start == w
    requires Legal(w, a) && Apply(w, a) == v
    ensures Reaches(start, v)
  {
    hide Legal, Apply, LegalRun, Execute;
    ReachesSelf(start);
    ReachesStep(w, a);
    ReachesTransitive(start, w, v);
  }

  lemma StaleWorldAdopts()
    ensures AdoptsStale(STALE_WORLD, 3)
  {
    hide DialPolicyName;
    assert 2 in STALE_WORLD.fabric.policies;
    assert STALE_WORLD.fabric.policies[2].name == DialPolicyName(1, TARGET);
  }

  /** A request can store the rule: its row is in the form validation gives out. */
  lemma RuleStorable()
    ensures CanonicalRule(RULE)
  {
    hide UuidText;
    assert Trim("") == "";
    assert UuidText(4) == RULE.matcher.privateResourceId;
  }

  /** A reachable world that one pass does not bring into agreement, though two do. */
  lemma OnePassIsNotEnough()
    ensures CanonicalRule(RULE)
    ensures Reaches(EMPTY_WORLD, STALE_WORLD)
    ensures !Converged(Pass(STALE_WORLD))
    ensures Converged(Pass(Pass(STALE_WORLD)))
  {
    StaleWorldReached();
    EmptyWorldSound();
    ReachesSound(EMPTY_WORLD, STALE_WORLD);
    hide Pass, Converged, DialPolicyName, Sound, Reaches, CanonicalRule;
    RuleStorable();
    StaleWorldAdopts();
    OnePassExact(STALE_WORLD);
    TwoPasses(STALE_WORLD);
  }
}
