/** The rule and attachment rows, and the messages they carry. */
module Rules {
  import opened Wrappers
  import opened Uuids

  /** An OpenZiti object id: the ordinal at which it was issued. 0 is the empty id. */
  type ZitiId = nat
  const NO_ID: ZitiId := 0

  const ACTION_ALLOW := 1
  const ACTION_DENY := 2

  const SCHEME_UNSPECIFIED := 0
  const SCHEME_BEARER := 1
  const SCHEME_BASIC := 2

  datatype Matcher = Matcher(
    domainPattern: string,
    ports: seq<int>,
    methods: seq<string>,
    pathPattern: string,
    privateResourceId: string)

  datatype Credential = NoCredential | PlainValue(text: string) | SecretRef(secretId: string)

  datatype Header = Header(name: string, scheme: int, username: string, credential: Credential)

  /** A header entry may be absent in a request, never in a stored rule. */
  datatype Effect = Effect(action: Option<int>, inject: seq<Option<Header>>)

  datatype Trust = NoTrust | CaBundle(secretId: string) | InsecureSkipVerify(skip: bool)

  datatype UpstreamTls = UpstreamTls(serverName: string, trust: Trust)

  datatype Rule = Rule(
    id: Uuid,
    organizationId: Uuid,
    name: string,
    description: string,
    matcher: Matcher,
    effect: Effect,
    upstreamTls: Option<UpstreamTls>,
    serviceId: ZitiId)
  {
    predicate IsPrivate() {
      matcher.privateResourceId != ""
    }
  }

  datatype TargetKind = AgentTarget | EnvironmentTarget

  datatype Target = Target(kind: TargetKind, id: Uuid)

  datatype Attachment = Attachment(
    id: Uuid,
    ruleId: Uuid,
    agentId: Option<Uuid>,
    environmentId: Option<Uuid>,
    policyId: ZitiId)
  {
    /** The database check: exactly one of the two target columns is set. */
    predicate OneTarget() {
      agentId.None? <==> environmentId.Some?
    }

    /** The environment column is looked at first; a row with neither has no target. */
    function FindTarget(): Option<Target> {
      if environmentId.Some? then Some(Target(EnvironmentTarget, environmentId.value))
      else if agentId.Some? then Some(Target(AgentTarget, agentId.value))
      else None
    }

    function TheTarget(): Target
      requires OneTarget()
    {
      FindTarget().value
    }
  }

  /** The row a create handler writes for a target. */
  function AttachmentFor(id: Uuid, ruleId: Uuid, target: Target, policyId: ZitiId): (a: Attachment)
    ensures a.OneTarget() && a.TheTarget() == target
  {
    match target
    case Target(EnvironmentTarget, targetId) => Attachment(id, ruleId, None, Some(targetId), policyId)
    case Target(AgentTarget, targetId) => Attachment(id, ruleId, Some(targetId), None, policyId)
  }
}
