/** The whole pass. */
module Reconciliation {
  import opened Wrappers
  import opened Uuids
  import opened Rules
  import opened Naming
  import opened Tables
  import opened Fabric
  import opened Worlds
  import opened Passes
  import opened Convergence
  import opened Theorems
  import opened Admission
  import opened Platforms
  import opened Reconciler
  import opened Sweeps
  import opened Agreement

  lemma SameServiceNames(t: Tables, rows: seq<Rule>)
    requires forall i | 0 <= i < |rows| :: rows[i].id in t.rules
    requires forall r | r in t.rules :: exists i :: 0 <= i < |rows| && rows[i].id == r
    ensures NamesOfRules(rows) == ManagedServiceNames(t)
  {
    hide ServiceName;
  }

  lemma SamePolicyNames(t: Tables, rows: seq<Attachment>)
    requires forall a | a in t.attachments :: t.attachments[a].OneTarget()
    requires forall i | 0 <= i < |rows| :: rows[i].id in t.attachments && t.attachments[rows[i].id] == rows[i]
    requires forall a | a in t.attachments :: exists i :: 0 <= i < |rows| && rows[i] == t.attachments[a]
    ensures NamesOfAttachments(rows) == ManagedPolicyNames(t)
  {
    hide DialPolicyName;
  }

  /** The names a snapshot manages are the names the tables manage. */
  lemma SnapshotNames(w: World)
    requires Sound(w)
    ensures NamesOfRules(RuleRows(w.tables)) == ManagedServiceNames(w.tables)
    ensures NamesOfAttachments(AttachmentRows(w.tables)) == ManagedPolicyNames(w.tables)
  {
    RuleRowsExact(w.tables);
    AttachmentRowsExact(w.tables);
    RowsKnown(w);
    hide RuleRows, AttachmentRows, Sound, NamesOfRules, NamesOfAttachments, ManagedServiceNames, ManagedPolicyNames;
    SameServiceNames(w.tables, RuleRows(w.tables));
    SamePolicyNames(w.tables, AttachmentRows(w.tables));
  }

  /** The map filled while reconciling the rules is the rules table. */
  lemma MapComplete(listed: World, v: World, ids: seq<Uuid>, byId: map<Uuid, Rule>)
    requires v.tables.rules.Keys == listed.tables.rules.Keys
    requires forall q | q in listed.tables.rules :: exists j :: 0 <= j < |ids| && ids[j] == q
    requires forall j | 0 <= j < |ids| :: ids[j] in byId
    requires forall q | q in byId :: q in v.tables.rules && byId[q] == v.tables.rules[q]
    ensures byId == v.tables.rules
  {
  }

  lemma ConvergedSteps(w: World)
    requires Sound(w) && Converged(w) && NoOrphans(w)
    ensures AllSettled(w) && AllMatch(w)
    ensures AllRules(w) == w && AllAttachments(w) == w
    ensures SweepServices(w.fabric, ManagedServiceNames(w.tables)) == w.fabric
    ensures SweepPolicies(w.fabric, ManagedPolicyNames(w.tables)) == w.fabric
  {
    hide Sound, RuleSettled, PolicyMatches, AscendingIds, ManagedServiceNames, ManagedPolicyNames;
    RulesPhase(w);
    AttachmentsPhase(w);
    assert SweepServices(w.fabric, ManagedServiceNames(w.tables)).services == w.fabric.services;
    assert SweepPolicies(w.fabric, ManagedPolicyNames(w.tables)).policies == w.fabric.policies;
  }

  /** The rules phase leaves the attachments and the set of rules as they are. */
  lemma RulesPhaseRows(w: World)
    requires Sound(w)
    ensures AllRules(w).tables.attachments == w.tables.attachments
    ensures AllRules(w).tables.rules.Keys == w.tables.rules.Keys
  {
    RulesPhase(w);
  }

  lemma Unchanged(w: World)
    requires Sound(w)
    ensures Converged(w) && NoOrphans(w) ==>
              && AllSettled(w) && AllMatch(w) && AllRules(w) == w && AllAttachments(w) == w
              && SweepServices(w.fabric, ManagedServiceNames(w.tables)) == w.fabric
              && SweepPolicies(w.fabric, ManagedPolicyNames(w.tables)) == w.fabric
  {
    hide *;
    if Converged(w) && NoOrphans(w) {
      ConvergedSteps(w);
    }
  }

  /** The rule loop over the listing of the whole table. */
  method ReconcileListedRules(p: Platform, env: Env, rules: seq<Rule>, ghost listed: World)
    returns (r: Result<map<Uuid, Rule>, Error>)
    requires p.Valid() && Follows(listed, p.world) && Sound(listed) && rules == RuleRows(listed.tables)
    requires !env.Shared? ==> p.world == listed
    modifies p
    ensures p.Valid() && Follows(old(p.world), p.world)
    ensures r.Ok? ==> forall q | q in r.value :: r.value[q].id == q
    ensures env.Quiet? ==> r.Ok?
    ensures !env.Shared? && r.Ok? ==>
      && p.world == AllRules(listed) && r.value == p.world.tables.rules
      && p.world.tables.attachments == listed.tables.attachments
    ensures !env.Shared? ==> Steady(old(p.world), p.world)
    ensures env.Quiet? && AllSettled(listed) ==> p.writes == old(p.writes)
  {
    hide Sound, Evolves, Reaches, Follows, AllSettled, ReconcileRules, AscendingIds, RuleRows, RuleSnapshot, Steady;
    RuleListing(listed);
    FollowsFacts(listed, p.world);
    ghost var ids := AscendingIds(listed.tables.rules.Keys);
    r := ReconcileAllRules(p, env, rules, listed, ids);
    if !env.Shared? && r.Ok? {
      RulesPhaseRows(listed);
      MapComplete(listed, p.world, ids, r.value);
    }
  }

  /** The first part of a pass: both tables are listed, then every listed rule and every listed
      attachment is reconciled. */
  method ReconcileRows(p: Platform, env: Env) returns (r: Result<(seq<Rule>, seq<Attachment>), Error>)
    requires p.Valid()
    modifies p
    ensures p.Valid() && Follows(old(p.world), p.world)
    ensures env.Quiet? ==> r.Ok?
    ensures !env.Shared? && r.Ok? ==>
      && p.world == Reconciled(old(p.world))
      && r.value == (RuleRows(old(p.world).tables), AttachmentRows(old(p.world).tables))
    ensures !env.Shared? ==> Steady(old(p.world), p.world)
    ensures env.Quiet? && Converged(old(p.world)) && NoOrphans(old(p.world)) ==>
      p.world == old(p.world) && p.writes == old(p.writes)
  {
    hide Sound, Evolves, Reaches, Follows, Converged, NoOrphans, AllSettled, AllMatch, AllRules;
    hide ReconcileAttachments, AscendingIds, RuleRows, AttachmentRows, AttachmentSnapshot;
    hide SweepServices, SweepPolicies, ManagedServiceNames, ManagedPolicyNames, Steady;
    ghost var start := p.world;
    SteadySelf(start);
    Unchanged(start);
    var rules :- p.ListAllRules(env);
    ghost var rulesListed := p.world;
    var rows := p.ListAllAttachments(env);
    ghost var listed := p.world;
    FollowsTransitive(start, rulesListed, listed);
    if rows.Err? {
      return Err(rows.error);
    }
    AttachmentListing(listed);
    var byId := ReconcileListedRules(p, env, rules, rulesListed);
    ghost var settled := p.world;
    FollowsFacts(listed, settled);
    FollowsTransitive(start, listed, settled);
    if byId.Err? {
      return Err(byId.error);
    }
    var matched := ReconcileAllAttachments(p, env, rows.value, byId.value, listed, AscendingIds(listed.tables.attachments.Keys));
    FollowsTransitive(start, settled, p.world);
    SteadyStep(start, settled, p.world);
    return if matched.Err? then Err(matched.error) else Ok((rules, rows.value));
  }

  /** The second part: both sweeps, with the names of the rows listed at the start. */
  method SweepOrphans(p: Platform, env: Env, rules: seq<Rule>, rows: seq<Attachment>) returns (r: Result<(), Error>)
    requires p.Valid()
    modifies p
    ensures p.Valid() && Follows(old(p.world), p.world)
    ensures env.Quiet? ==> r.Ok?
    ensures !env.Shared? && r.Ok? ==> p.world == SweptOf(old(p.world), NamesOfRules(rules), NamesOfAttachments(rows))
    ensures !env.Shared? ==> Steady(old(p.world), p.world)
    ensures !env.Shared? ==> OnlyOrphansGone(old(p.world), p.world, NamesOfRules(rules), NamesOfAttachments(rows))
    ensures env.Quiet? && SweptOf(old(p.world), NamesOfRules(rules), NamesOfAttachments(rows)) == old(p.world) ==>
      p.writes == old(p.writes)
  {
    hide Sound, Evolves, Reaches, Follows, SweepServices, SweepPolicies, NamesOfRules, NamesOfAttachments;
    hide Steady, PartlyServicesSwept, PartlyPoliciesSwept, OrphanService, OrphanPolicy, OnlyOrphansGone;
    ghost var start := p.world;
    SweptParts(start, NamesOfRules(rules), NamesOfAttachments(rows));
    var swept := DeleteOrphanServices(p, env, rules);
    ghost var cleaned := p.world;
    if !env.Shared? {
      SweepSpares(start, cleaned, cleaned, NamesOfRules(rules), NamesOfAttachments(rows));
    }
    if swept.Err? {
      return Err(swept.error);
    }
    r := DeleteOrphanServicePolicies(p, env, rows);
    FollowsTransitive(start, cleaned, p.world);
    SteadyStep(start, cleaned, p.world);
    if !env.Shared? {
      SweepSpares(start, cleaned, p.world, NamesOfRules(rules), NamesOfAttachments(rows));
    }
  }

  /** The world after both sweeps. */
  function SweptOf(w: World, services: set<string>, policies: set<string>): World {
    WithFabric(w, SweepPolicies(SweepServices(w.fabric, services), policies))
  }

  /** However far the sweeps came: what is left is as it was, and nothing but orphans is gone. */
  ghost predicate OnlyOrphansGone(w: World, v: World, services: set<string>, policies: set<string>) {
    && v.tables == w.tables
    && (forall id | id in v.fabric.services :: id in w.fabric.services && v.fabric.services[id] == w.fabric.services[id])
    && (forall id | id in v.fabric.policies :: id in w.fabric.policies && v.fabric.policies[id] == w.fabric.policies[id])
    && (forall id | id in w.fabric.services && !OrphanService(w.fabric.services[id], services) :: id in v.fabric.services)
    && (forall id | id in w.fabric.policies && !OrphanPolicy(w.fabric.policies[id], policies) :: id in v.fabric.policies)
  }

  lemma SweepSpares(w: World, u: World, v: World, services: set<string>, policies: set<string>)
    requires PartlyServicesSwept(w, w.fabric, services, u)
    ensures u == v || PartlyPoliciesSwept(u, u.fabric, policies, v) ==> OnlyOrphansGone(w, v, services, policies)
  {
    hide OrphanService, OrphanPolicy, PartlyServicesSwept, PartlyPoliciesSwept;
    ServicesSpared(w, services, u);
    if PartlyPoliciesSwept(u, u.fabric, policies, v) {
      PoliciesSpared(u, policies, v);
    }
  }

  /** If both sweeps together change nothing, neither does. */
  lemma SweptParts(w: World, services: set<string>, policies: set<string>)
    ensures SweptOf(w, services, policies) == w ==>
              SweepServices(w.fabric, services) == w.fabric && SweepPolicies(w.fabric, policies) == w.fabric
  {
    if SweptOf(w, services, policies) == w {
      assert SweepServices(w.fabric, services).services == w.fabric.services;
      assert SweepServices(w.fabric, services) == w.fabric;
    }
  }

  /** One pass over snapshots of the two tables. With nobody else running it is exactly the
      function Pass; with nothing failing either it never errors, and on a converged world it
      issues no write of any kind. */
  method Reconcile(p: Platform, env: Env) returns (r: Result<(), Error>)
    requires p.Valid()
    modifies p
    ensures p.Valid() && Follows(old(p.world), p.world)
    ensures env.Quiet? ==> r.Ok?
    ensures !env.Shared? && r.Ok? ==> p.world == Pass(old(p.world))
    ensures !env.Shared? ==> Steady(old(p.world), p.world)
    ensures env.Quiet? && Converged(old(p.world)) && NoOrphans(old(p.world)) ==> p.writes == old(p.writes)
  {
    hide Sound, Evolves, Reaches, Follows, Converged, NoOrphans, Reconciled, RuleRows, AttachmentRows, SweepServices;
    hide SweepPolicies, NamesOfRules, NamesOfAttachments, ManagedServiceNames, ManagedPolicyNames, Steady;
    ghost var start := p.world;
    SnapshotNames(start);
    Unchanged(start);
    var listed :- ReconcileRows(p, env);
    ghost var reconciled := p.world;
    r := SweepOrphans(p, env, listed.0, listed.1);
    FollowsTransitive(start, reconciled, p.world);
    SteadyStep(start, reconciled, p.world);
  }

  // ----- the reconciler's loop -----------------------------------------------------------------

  lemma {:induction false} RepeatOnceMore(w: World, n: nat)
    ensures Pass(Repeat(w, n)) == Repeat(w, n + 1)
    decreases n
  {
    hide Pass;
    if n > 0 {
      RepeatOnceMore(Pass(w), n - 1);
    }
  }

  /** A pass at once and one more on every tick; a pass that fails is only logged. Undisturbed,
      one tick is enough: both worlds agree from then on, and further ticks write nothing. */
  method Run(p: Platform, env: Env, ticks: nat)
    requires p.Valid()
    modifies p
    ensures p.Valid() && Follows(old(p.world), p.world)
    ensures env.Quiet? && ticks >= 1 ==> Converged(p.world) && NoOrphans(p.world) && AdmissionAgrees(p.world)
    ensures env.Quiet? && ticks >= 1 ==> p.world == Pass(Pass(old(p.world)))
    ensures env.Quiet? && Converged(old(p.world)) && NoOrphans(old(p.world)) ==>
      p.world == old(p.world) && p.writes == old(p.writes)
  {
    hide Sound, Evolves, Reaches, Follows, Converged, NoOrphans, Pass, Steady, AdmissionAgrees;
    ghost var start := p.world;
    StillPoint(start);
    var failed := Reconcile(p, env);
    for tick := 0 to ticks
      invariant p.Valid() && Follows(start, p.world)
      invariant env.Quiet? ==> p.world == Repeat(start, tick + 1)
      invariant env.Quiet? && Converged(start) && NoOrphans(start) ==> p.world == start && p.writes == old(p.writes)
    {
      ghost var before := p.world;
      failed := Reconcile(p, env);
      FollowsTransitive(start, before, p.world);
      RepeatOnceMore(start, tick + 1);
    }
    if ticks >= 1 {
      PassesStabilise(start, ticks + 1);
      TwoPasses(start);
      ConvergedAdmits(Pass(Pass(start)));
    }
  }

  lemma StillPoint(w: World)
    requires Sound(w)
    ensures Converged(w) && NoOrphans(w) ==> Pass(w) == w
    ensures Repeat(w, 1) == Pass(w)
  {
    hide Sound, Pass, Converged, NoOrphans;
    Fixpoint(w);
    assert Repeat(Pass(w), 0) == Pass(w);
  }
}
