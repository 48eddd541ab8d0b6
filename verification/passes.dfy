/** One reconciliation pass, as a function of the world it runs on alone and without faults. */
module Passes {
  import opened Wrappers
  import opened Uuids
  import opened Rules
  import opened Naming
  import opened Configs
  import opened Tables
  import opened Fabric
  import opened Worlds

  predicate ServiceMatchesRule(service: Service, rule: Rule) {
    service.name == ServiceName(rule.id) && service.roles == [SERVICE_ROLE]
  }

  predicate PolicyMatchesAttachment(policy: Policy, a: Attachment, rule: Rule)
    requires a.OneTarget()
  {
    && policy.name == DialPolicyName(a.ruleId, a.TheTarget())
    && policy.kind == Dial
    && policy.identityRoles == [IdentityRole(a.TheTarget())]
    && policy.serviceRoles == [ServiceRole(rule)]
  }

  /** The service a rule ends up with: its own if it is live, else the one of its name, else a new one. */
  function ReconciledService(f: Fabric, rule: Rule): (Fabric, ZitiId) {
    var id, wanted := rule.serviceId, RuleService(rule.id, rule.matcher);
    if id == NO_ID || id !in f.services then (CreateService(f, wanted), CreatedServiceId(f, wanted))
    else if ServiceMatchesRule(f.services[id], rule) then (f, id)
    else (UpdateService(f, id, wanted.intercept), id)
  }

  function ReconcileRule(w: World, r: Uuid): World {
    if r !in w.tables.rules || w.tables.rules[r].IsPrivate() then w
    else
      var (f, id) := ReconciledService(w.fabric, w.tables.rules[r]);
      World(SetServiceId(w.tables, r, id), f)
  }

  /** The first n rules of a listing, one after the other. */
  function ReconcileRules(w: World, ids: seq<Uuid>, n: nat): World
    requires n <= |ids|
  {
    if n == 0 then w else ReconcileRule(ReconcileRules(w, ids, n - 1), ids[n - 1])
  }

  function WantedPolicy(a: Attachment, rule: Rule): Policy
    requires a.OneTarget()
  {
    DialPolicy(rule.id, a.TheTarget(), ServiceRole(rule))
  }

  /** Whatever bears the name afterwards, new or old. */
  function AdoptedPolicy(f: Fabric, wanted: Policy): (Fabric, ZitiId) {
    (CreatePolicy(f, wanted), CreatedPolicyId(f, wanted))
  }

  /** The policy an attachment ends up with: its own if it matches, a replacement if its own
      is live but stale, and whatever bears the name if its own is gone. */
  function ReconciledPolicy(f: Fabric, a: Attachment, rule: Rule): (Fabric, ZitiId)
    requires a.OneTarget()
  {
    if a.policyId == NO_ID || a.policyId !in f.policies then AdoptedPolicy(f, WantedPolicy(a, rule))
    else if PolicyMatchesAttachment(f.policies[a.policyId], a, rule) then (f, a.policyId)
    else AdoptedPolicy(DeletePolicy(f, a.policyId), WantedPolicy(a, rule))
  }

  predicate Attached(t: Tables, a: Uuid) {
    a in t.attachments && t.attachments[a].OneTarget() && t.attachments[a].ruleId in t.rules
  }

  function ReconcileAttachment(w: World, a: Uuid): World {
    if !Attached(w.tables, a) then w
    else
      var b := w.tables.attachments[a];
      var (f, id) := ReconciledPolicy(w.fabric, b, w.tables.rules[b.ruleId]);
      World(SetPolicyId(w.tables, a, id), f)
  }

  function ReconcileAttachments(w: World, ids: seq<Uuid>, n: nat): World
    requires n <= |ids|
  {
    if n == 0 then w else ReconcileAttachment(ReconcileAttachments(w, ids, n - 1), ids[n - 1])
  }

  function ManagedServiceNames(t: Tables): set<string> {
    set r | r in t.rules :: ServiceName(r)
  }

  function ManagedPolicyNames(t: Tables): set<string> {
    set a | a in t.attachments && t.attachments[a].OneTarget() ::
      DialPolicyName(t.attachments[a].ruleId, t.attachments[a].TheTarget())
  }

  predicate OrphanService(service: Service, managed: set<string>) {
    SweepsServiceName(service.name) && SERVICE_ROLE in service.roles && service.name !in managed
  }

  predicate OrphanPolicy(policy: Policy, managed: set<string>) {
    SweepsPolicyName(policy.name) && policy.kind == Dial && policy.name !in managed
  }

  /** Exactly the orphans go; every other object stays as it was. */
  function SweepServices(f: Fabric, managed: set<string>): Fabric {
    f.(services := map id | id in f.services && !OrphanService(f.services[id], managed) :: f.services[id])
  }

  function SweepPolicies(f: Fabric, managed: set<string>): Fabric {
    f.(policies := map id | id in f.policies && !OrphanPolicy(f.policies[id], managed) :: f.policies[id])
  }

  /** The two reconciling phases of a pass, and the whole pass. */
  function AllRules(w: World): World {
    var ids := AscendingIds(w.tables.rules.Keys);
    ReconcileRules(w, ids, |ids|)
  }

  function AllAttachments(w: World): World {
    var ids := AscendingIds(w.tables.attachments.Keys);
    ReconcileAttachments(w, ids, |ids|)
  }

  function Reconciled(w: World): World {
    AllAttachments(AllRules(w))
  }

  function Pass(w: World): World {
    var v := Reconciled(w);
    World(v.tables,
          SweepPolicies(SweepServices(v.fabric, ManagedServiceNames(w.tables)), ManagedPolicyNames(w.tables)))
  }
}
