/** The main results about passes: two converge, one need not, and a converged world is a fixpoint. */
module Theorems {
  import opened Wrappers
  import opened Ordering
  import opened Uuids
  import opened Rules
  import opened Naming
  import opened Configs
  import opened Tables
  import opened Fabric
  import opened Worlds
  import opened Passes
  import opened Convergence

  /** Every public rule's stored id names a live service of its name, and every attachment's
      stored id names a live policy that is what the attachment asks for. */
  ghost predicate Converged(w: World) {
    && (forall r | r in w.tables.rules :: RuleSettled(w, r))
    && (forall a | a in w.tables.attachments :: PolicyMatches(w, a))
  }

  ghost predicate NoOrphans(w: World) {
    && (forall id | id in w.fabric.services :: !OrphanService(w.fabric.services[id], ManagedServiceNames(w.tables)))
    && (forall id | id in w.fabric.policies :: !OrphanPolicy(w.fabric.policies[id], ManagedPolicyNames(w.tables)))
  }

  /** The rows a later phase sees name the same objects. */
  ghost predicate SameNames(t: Tables, u: Tables) {
    && u.rules.Keys == t.rules.Keys
    && u.attachments.Keys == t.attachments.Keys
    && forall a | a in t.attachments :: SameBinding(u.attachments[a], t.attachments[a])
  }

  lemma SameNamesManage(t: Tables, u: Tables)
    requires SameNames(t, u)
    ensures ManagedServiceNames(u) == ManagedServiceNames(t)
    ensures ManagedPolicyNames(u) == ManagedPolicyNames(t)
  {
    assert forall a | a in t.attachments ::
      u.attachments[a].OneTarget() == t.attachments[a].OneTarget() &&
      u.attachments[a].FindTarget() == t.attachments[a].FindTarget() &&
      u.attachments[a].ruleId == t.attachments[a].ruleId;
  }

  lemma IdsListed(keys: set<Uuid>)
    ensures var ids := AscendingIds(keys);
            && (forall j | 0 <= j < |ids| :: ids[j] in keys)
            && (forall x | x in keys :: exists j :: 0 <= j < |ids| && ids[j] == x)
  {
    var ids := AscendingIds(keys);
    assert forall j | 0 <= j < |ids| :: ids[j] in Elements(ids);
    forall x | x in keys
      ensures exists j :: 0 <= j < |ids| && ids[j] == x
    {
      assert x in Elements(ids);
    }
  }

  lemma RulesPhase(w: World)
    requires Sound(w)
    ensures var u := AllRules(w);
            && Sound(u)
            && RulesProgress(w, u)
            && (forall r | r in w.tables.rules :: RuleSettled(u, r))
            && (AllSettled(w) ==> u == w)
  {
    hide Sound, RulesProgress, RuleSettled, AscendingIds;
    var ids := AscendingIds(w.tables.rules.Keys);
    IdsListed(w.tables.rules.Keys);
    RulesSettle(w, ids, |ids|);
  }

  lemma AttachmentsPhase(u: World)
    requires Sound(u)
    ensures var v := AllAttachments(u);
            && Sound(v)
            && OnlyPolicies(u, v)
            && (forall a | a in u.tables.attachments :: AttachmentSettled(u, v, a))
            && ((forall a | a in u.tables.attachments :: PolicyMatches(u, a)) ==> v == u)
  {
    var ids := AscendingIds(u.tables.attachments.Keys);
    IdsListed(u.tables.attachments.Keys);
    hide Sound, OnlyPolicies, AttachmentSettled, PolicyMatches, AscendingIds;
    AttachmentsSettle(u, ids, |ids|);
  }

  lemma ReconciledFacts(w: World)
    requires Sound(w)
    ensures var v := Reconciled(w);
            && Sound(v)
            && SameNames(w.tables, v.tables)
            && (forall r | r in v.tables.rules :: RuleSettled(v, r))
            && (forall a | a in v.tables.attachments :: PolicyLive(v, a) && (PolicyLive(w, a) ==> PolicyMatches(v, a)))
            && (Converged(w) ==> v == w)
  {
    hide Sound, AllRules, AllAttachments;
    hide RuleSettled, PolicyLive, PolicyMatches, RulesProgress, OnlyPolicies, SameNames;
    RulesPhase(w);
    var u := AllRules(w);
    RulesPhaseKeeps(w, u);
    AttachmentsPhase(u);
    var v := AllAttachments(u);
    AttachmentsPhaseKeeps(w, u, v);
  }

  lemma RulesPhaseKeeps(w: World, u: World)
    requires RulesProgress(w, u)
    ensures SameNames(w.tables, u.tables) && u.tables.attachments == w.tables.attachments
    ensures u.tables.rules.Keys == w.tables.rules.Keys
    ensures forall a | PolicyLive(w, a) :: PolicyLive(u, a)
  {
  }

  lemma AttachmentsPhaseKeeps(w: World, u: World, v: World)
    requires SameNames(w.tables, u.tables) && OnlyPolicies(u, v)
    ensures SameNames(w.tables, v.tables)
    ensures v.tables.rules.Keys == w.tables.rules.Keys && v.tables.attachments.Keys == w.tables.attachments.Keys
    ensures forall r | RuleSettled(u, r) :: RuleSettled(v, r)
  {
  }

  function Swept(w: World): World {
    World(w.tables, SweepPolicies(SweepServices(w.fabric, ManagedServiceNames(w.tables)), ManagedPolicyNames(w.tables)))
  }

  lemma SweptSound(w: World)
    requires Sound(w)
    ensures Sound(Swept(w))
  {
    hide SweepsServiceName, SweepsPolicyName, ServiceName, DialPolicyName, ManagedServiceNames, ManagedPolicyNames;
    assert FabricSound(Swept(w).fabric) && FabricEvolves(w.fabric, Swept(w).fabric);
    IdsSurvive(w.tables, w.fabric, Swept(w).fabric);
  }

  /** Sweeping with the names the tables manage spares every object a row relies on. */
  lemma SweepFacts(w: World)
    requires Sound(w)
    ensures NoOrphans(Swept(w))
    ensures forall r | RuleSettled(w, r) :: RuleSettled(Swept(w), r)
    ensures forall a | a in w.tables.attachments :: Kept(w, Swept(w), a)
    ensures NoOrphans(w) ==> Swept(w) == w
  {
    hide Sound, SweepsServiceName, SweepsPolicyName, ServiceName, DialPolicyName;
    forall a | a in w.tables.attachments
      ensures Kept(w, Swept(w), a)
    {
      AttachmentFacts(w, a);
      var b := w.tables.attachments[a];
      assert DialPolicyName(b.ruleId, b.TheTarget()) in ManagedPolicyNames(w.tables);
    }
  }

  lemma KeptFollows(w: World, v: World, b: Uuid)
    requires Kept(w, v, b)
    ensures PolicyLive(w, b) ==> PolicyLive(v, b)
    ensures PolicyMatches(w, b) <==> PolicyMatches(v, b)
  {
  }

  /** One pass from any sound world: it ends sound, every rule is settled, every attachment's
      policy is live, nothing is orphaned, and whoever had a live policy now has the right one. */
  lemma OnePass(w: World)
    requires Sound(w)
    ensures Sound(Pass(w)) && NoOrphans(Pass(w))
    ensures forall r | r in w.tables.rules :: RuleSettled(Pass(w), r)
    ensures forall a | a in w.tables.attachments :: PolicyLive(Pass(w), a)
    ensures forall a | a in w.tables.attachments && PolicyLive(w, a) :: PolicyMatches(Pass(w), a)
    ensures SameNames(w.tables, Pass(w).tables)
    ensures Converged(w) && NoOrphans(w) ==> Pass(w) == w
  {
    hide Sound, Reconciled, RuleSettled, PolicyLive, PolicyMatches, NoOrphans, Converged, Kept;
    hide ManagedServiceNames, ManagedPolicyNames;
    ReconciledFacts(w);
    var v := Reconciled(w);
    SameNamesManage(w.tables, v.tables);
    assert Pass(w) == Swept(v);
    SweptSound(v);
    SweepFacts(v);
    forall a | a in w.tables.attachments
      ensures PolicyLive(v, a) ==> PolicyLive(Swept(v), a)
      ensures PolicyMatches(v, a) ==> PolicyMatches(Swept(v), a)
    {
      KeptFollows(v, Swept(v), a);
    }
  }

  /** After a completed pass no service is named for a rule that is not stored. */
  lemma UnmanagedGoes(w: World, r: Uuid)
    requires Sound(w) && r !in w.tables.rules
    ensures forall id | id in Pass(w).fabric.services :: Pass(w).fabric.services[id].name != ServiceName(r)
  {
    hide Pass, ServiceName, Sound, NoOrphans, RuleSettled, PolicyLive, PolicyMatches;
    OnePass(w);
    ObjectsKnown(Pass(w));
    UnmanagedName(Pass(w), r);
  }

  predicate SameService(f: Fabric, g: Fabric, id: ZitiId) {
    id in f.services && id in g.services && g.services[id] == f.services[id]
  }

  /** A settled rule's service comes through a pass exactly as it was, whatever it intercepts:
      passes do not repair configs. */
  lemma PassKeepsService(w: World, r: Uuid)
    requires Sound(w) && RuleSettled(w, r) && !w.tables.rules[r].IsPrivate()
    ensures r in Pass(w).tables.rules && Pass(w).tables.rules[r] == w.tables.rules[r]
    ensures SameService(w.fabric, Pass(w).fabric, w.tables.rules[r].serviceId)
  {
    hide Sound, AllRules, AllAttachments, ServiceName, ManagedPolicyNames;
    RulesPhase(w);
    AttachmentsPhase(AllRules(w));
    assert ServiceName(r) in ManagedServiceNames(w.tables);
  }

  lemma UnmanagedName(w: World, r: Uuid)
    requires FabricSound(w.fabric) && NoOrphans(w) && r !in w.tables.rules
    ensures forall id | id in w.fabric.services :: w.fabric.services[id].name != ServiceName(r)
  {
    hide ServiceName, ManagedPolicyNames, PoliciesSound;
    NamesAreSwept(r, Target(AgentTarget, 0));
    if ServiceName(r) in ManagedServiceNames(w.tables) {
      var q :| q in w.tables.rules && ServiceName(q) == ServiceName(r);
      ServiceNameInjective(q, r);
    }
  }

  /** Two passes converge, from any sound world. */
  lemma TwoPasses(w: World)
    requires Sound(w)
    ensures Sound(Pass(Pass(w))) && Converged(Pass(Pass(w))) && NoOrphans(Pass(Pass(w)))
  {
    hide Sound, Pass, RuleSettled, PolicyLive, PolicyMatches, NoOrphans;
    OnePass(w);
    OnePass(Pass(w));
  }

  /** Two-pass convergence over whole runs: however handlers, passes, faults and outside edits
      were interleaved before, two undisturbed passes bring the two worlds into agreement. */
  lemma TwoPassConvergence(run: seq<Action>)
    requires LegalRun(EMPTY_WORLD, run)
    ensures var w := Pass(Pass(Execute(EMPTY_WORLD, run)));
            Converged(w) && NoOrphans(w) && Pass(w) == w
  {
    EmptyWorldSound();
    RunSound(EMPTY_WORLD, run);
    var w := Execute(EMPTY_WORLD, run);
    hide Sound, Pass, Converged, NoOrphans;
    TwoPasses(w);
    OnePass(Pass(Pass(w)));
  }

  /** The fixpoints of a pass are exactly the converged worlds without orphans. */
  lemma Fixpoint(w: World)
    requires Sound(w)
    ensures Pass(w) == w <==> Converged(w) && NoOrphans(w)
  {
    hide Sound, Pass, NoOrphans;
    OnePass(w);
  }

  function Repeat(w: World, n: nat): World
    decreases n
  {
    if n == 0 then w else Repeat(Pass(w), n - 1)
  }

  /** From the second pass on nothing changes any more. */
  lemma {:induction false} PassesStabilise(w: World, n: nat)
    requires Sound(w) && n >= 2
    ensures Repeat(w, n) == Pass(Pass(w))
  {
    TwoPasses(w);
    var v := Pass(Pass(w));
    OnePass(v);
    assert Pass(v) == v;
    assert Repeat(w, n) == Repeat(Pass(w), n - 1) == Repeat(v, n - 2);
    FixedForever(v, n - 2);
  }

  lemma {:induction false} FixedForever(w: World, n: nat)
    requires Pass(w) == w
    ensures Repeat(w, n) == w
    decreases n
  {
    if n > 0 {
      FixedForever(w, n - 1);
    }
  }
}
