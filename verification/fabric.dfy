/** OpenZiti: services and service policies by id, and the management calls on them. */
module Fabric {
  import opened Wrappers
  import opened Ordering
  import opened Uuids
  import opened Rules
  import opened Naming
  import opened Configs

  datatype PolicyType = Dial | Bind

  datatype Service = Service(name: string, roles: seq<string>, intercept: Intercept)

  datatype Policy = Policy(name: string, kind: PolicyType, identityRoles: seq<Selector>, serviceRoles: seq<Selector>)

  /** `next` is the id the controller issues next; no id is issued twice. */
  datatype Fabric = Fabric(services: map<ZitiId, Service>, policies: map<ZitiId, Policy>, next: ZitiId)

  function ServiceNamed(f: Fabric, name: string): (r: Option<ZitiId>)
    ensures r.Some? ==> r.value in f.services && f.services[r.value].name == name
    ensures r.None? ==> forall id | id in f.services :: f.services[id].name != name
  {
    var ids := set id | id in f.services && f.services[id].name == name;
    if ids == {} then assert forall id | id in f.services :: id !in ids; None else Some(Min(ids))
  }

  function PolicyNamed(f: Fabric, name: string): (r: Option<ZitiId>)
    ensures r.Some? ==> r.value in f.policies && f.policies[r.value].name == name
    ensures r.None? ==> forall id | id in f.policies :: f.policies[id].name != name
  {
    var ids := set id | id in f.policies && f.policies[id].name == name;
    if ids == {} then assert forall id | id in f.policies :: id !in ids; None else Some(Min(ids))
  }

  /** Creating under a taken name leaves the holder of the name as it is. */
  function CreateService(f: Fabric, service: Service): Fabric {
    if ServiceNamed(f, service.name).Some? then f
    else f.(services := f.services[f.next := service], next := f.next + 1)
  }

  /** The id such a create call answers with. */
  function CreatedServiceId(f: Fabric, service: Service): ZitiId {
    match ServiceNamed(f, service.name)
    case Some(id) => id
    case None => f.next
  }

  function UpdateService(f: Fabric, id: ZitiId, intercept: Intercept): Fabric {
    if id in f.services then f.(services := f.services[id := f.services[id].(intercept := intercept)]) else f
  }

  function DeleteService(f: Fabric, id: ZitiId): Fabric {
    f.(services := f.services - {id})
  }

  function CreatePolicy(f: Fabric, policy: Policy): Fabric {
    if PolicyNamed(f, policy.name).Some? then f
    else f.(policies := f.policies[f.next := policy], next := f.next + 1)
  }

  function CreatedPolicyId(f: Fabric, policy: Policy): ZitiId {
    match PolicyNamed(f, policy.name)
    case Some(id) => id
    case None => f.next
  }

  function DeletePolicy(f: Fabric, id: ZitiId): Fabric {
    f.(policies := f.policies - {id})
  }

  function EditPolicy(f: Fabric, id: ZitiId, identityRoles: seq<Selector>, serviceRoles: seq<Selector>): Fabric {
    if id in f.policies then
      f.(policies := f.policies[id := f.policies[id].(identityRoles := identityRoles, serviceRoles := serviceRoles)])
    else f
  }

  /** The service a rule asks for, and the policy an attachment asks for. */
  function RuleService(ruleId: Uuid, matcher: Matcher): Service {
    Service(ServiceName(ruleId), [SERVICE_ROLE], InterceptOf(matcher))
  }

  function DialPolicy(ruleId: Uuid, target: Target, serviceRole: Selector): Policy {
    Policy(DialPolicyName(ruleId, target), Dial, [IdentityRole(target)], [serviceRole])
  }

  // ----- what every call keeps ---------------------------------------------------

  ghost predicate ServicesSound(f: Fabric) {
    && (forall id | id in f.services ::
          && 0 < id < f.next
          && (SweepsServiceName(f.services[id].name) ==> f.services[id].roles == [SERVICE_ROLE]))
    && (forall id, other | id in f.services && other in f.services && f.services[id].name == f.services[other].name ::
          id == other)
  }

  ghost predicate PoliciesSound(f: Fabric) {
    && (forall id | id in f.policies ::
          && 0 < id < f.next
          && (SweepsPolicyName(f.policies[id].name) ==> f.policies[id].kind == Dial))
    && (forall id, other | id in f.policies && other in f.policies && f.policies[id].name == f.policies[other].name ::
          id == other)
  }

  ghost predicate FabricSound(f: Fabric) {
    0 < f.next && ServicesSound(f) && PoliciesSound(f)
  }

  /** Ids are never reused and no object is renamed. */
  ghost predicate FabricEvolves(f: Fabric, g: Fabric) {
    && f.next <= g.next
    && (forall id | id in g.services && id < f.next :: id in f.services && g.services[id].name == f.services[id].name)
    && (forall id | id in g.policies && id < f.next :: id in f.policies && g.policies[id].name == f.policies[id].name)
  }

  /** The id was issued, and if it still names an object, that object carries this name. */
  predicate OwnsService(f: Fabric, id: ZitiId, ruleId: Uuid) {
    0 < id < f.next && (id in f.services ==> f.services[id].name == ServiceName(ruleId))
  }

  predicate OwnsPolicy(f: Fabric, id: ZitiId, ruleId: Uuid, target: Target) {
    0 < id < f.next && (id in f.policies ==> f.policies[id].name == DialPolicyName(ruleId, target))
  }

  lemma CreateServiceSound(f: Fabric, service: Service)
    requires FabricSound(f)
    requires SweepsServiceName(service.name) ==> service.roles == [SERVICE_ROLE]
    ensures FabricSound(CreateService(f, service))
    ensures FabricEvolves(f, CreateService(f, service))
  {
  }

  lemma CreatePolicySound(f: Fabric, policy: Policy)
    requires FabricSound(f)
    requires SweepsPolicyName(policy.name) ==> policy.kind == Dial
    ensures FabricSound(CreatePolicy(f, policy))
    ensures FabricEvolves(f, CreatePolicy(f, policy))
  {
  }

  lemma UpdateServiceSound(f: Fabric, id: ZitiId, intercept: Intercept)
    requires FabricSound(f)
    ensures FabricSound(UpdateService(f, id, intercept)) && FabricEvolves(f, UpdateService(f, id, intercept))
  {
  }

  lemma EditPolicySound(f: Fabric, id: ZitiId, identityRoles: seq<Selector>, serviceRoles: seq<Selector>)
    requires FabricSound(f)
    ensures FabricSound(EditPolicy(f, id, identityRoles, serviceRoles))
    ensures FabricEvolves(f, EditPolicy(f, id, identityRoles, serviceRoles))
  {
  }

  lemma ObjectDeletesSound(f: Fabric, id: ZitiId)
    requires FabricSound(f)
    ensures FabricSound(DeleteService(f, id)) && FabricEvolves(f, DeleteService(f, id))
    ensures FabricSound(DeletePolicy(f, id)) && FabricEvolves(f, DeletePolicy(f, id))
  {
  }
}
