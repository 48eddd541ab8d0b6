/** Private resources as the networks service keeps them, and the mediation flag the handlers
    keep in step with the rules. */
module PrivateTargets {
  import opened Wrappers
  import opened Uuids
  import opened Rules
  import opened Tables
  import opened Worlds
  import opened Platforms

  datatype Protocol = Http | Https | OtherProtocol

  datatype Resource = Resource(organizationId: Uuid, protocol: Protocol)

  class Networks {
    const catalog: map<Uuid, Resource>
    /** The resources routed through the egress gateway; all others go through the tunnel. */
    var mediated: set<Uuid>

    constructor (catalog: map<Uuid, Resource>)
      ensures this.catalog == catalog && mediated == {}
    {
      this.catalog, mediated := catalog, {};
    }

    method GetPrivateResource(env: Env, id: Uuid) returns (r: Result<Resource, Error>)
      ensures r.Ok? ==> id in catalog && r.value == catalog[id]
      ensures PeersWork(env) ==> r == if id in catalog then Ok(catalog[id]) else Err(ResourceNotFound)
    {
      var failed := PeerFails(env);
      return if failed then Err(Internal) else if id in catalog then Ok(catalog[id]) else Err(ResourceNotFound);
    }

    method SetPrivateResourceMediation(env: Env, id: Uuid, gateway: bool)
      modifies this
      ensures mediated == old(mediated) || mediated == (if gateway then old(mediated) + {id} else old(mediated) - {id})
      ensures PeersWork(env) ==> mediated == if gateway then old(mediated) + {id} else old(mediated) - {id}
    {
      var failed := PeerFails(env);
      if !failed {
        mediated := if gateway then mediated + {id} else mediated - {id};
      }
    }
  }

  /** What a rule may name: an http or https resource of its own organization, and TLS settings
      only for https. */
  predicate TargetAllowed(catalog: map<Uuid, Resource>, organizationId: Uuid, matcher: Matcher,
                          tls: Option<UpstreamTls>) {
    matcher.privateResourceId != "" ==>
      var id := ParseUuid(matcher.privateResourceId);
      && id.Some? && id.value in catalog
      && catalog[id.value].organizationId == organizationId
      && match catalog[id.value].protocol
         case Https => true
         case Http => tls.None?
         case OtherProtocol => false
  }

  method ValidatePrivateTarget(n: Networks, env: Env, organizationId: Uuid, matcher: Matcher, tls: Option<UpstreamTls>)
    returns (r: Result<(), Error>)
    ensures r.Ok? ==> TargetAllowed(n.catalog, organizationId, matcher, tls)
    ensures PeersWork(env) ==> (r.Ok? <==> TargetAllowed(n.catalog, organizationId, matcher, tls))
    ensures r.Ok? && tls.Some? && matcher.privateResourceId != "" ==>
      var id := ParseUuid(matcher.privateResourceId);
      id.Some? && id.value in n.catalog && n.catalog[id.value] == Resource(organizationId, Https)
  {
    hide ParseUuid;
    if matcher.privateResourceId == "" {
      return Ok(());
    }
    var id := ParseUuid(matcher.privateResourceId);
    if id.None? {
      return Err(FailedPrecondition);
    }
    var found := n.GetPrivateResource(env, id.value);
    if found.Err? {
      return Err(if found.error == ResourceNotFound then InvalidArgument else FailedPrecondition);
    }
    if found.value.organizationId != organizationId {
      return Err(PermissionDenied);
    }
    match found.value.protocol {
      case Https => return Ok(());
      case Http => return if tls.Some? then Err(InvalidArgument) else Ok(());
      case OtherProtocol => return Err(InvalidArgument);
    }
  }

  /** TLS settings are accepted for every https resource of the organization and for no other one; a
      rule without them may name an http resource as well. */
  lemma TargetAllowedExact(catalog: map<Uuid, Resource>, organizationId: Uuid, matcher: Matcher, tls: Option<UpstreamTls>,
                           x: Uuid)
    requires matcher.privateResourceId == UuidText(x)
    ensures TargetAllowed(catalog, organizationId, matcher, tls) <==>
              x in catalog && catalog[x].organizationId == organizationId &&
              catalog[x].protocol in if tls.Some? then {Https} else {Https, Http}
  {
    ParseUuidText(x);
    hide ParseUuid;
  }

  /** A resource goes through the gateway exactly while some stored rule names it. */
  ghost predicate MediationAgrees(t: Tables, mediated: set<Uuid>) {
    forall x: Uuid :: x in mediated <==> RulesNaming(t, x) != {}
  }

  /** The flag set from the rules as they are now. */
  function Synced(t: Tables, mediated: set<Uuid>, resourceId: Uuid): set<Uuid> {
    if RulesNaming(t, resourceId) != {} then mediated + {resourceId} else mediated - {resourceId}
  }

  method SyncPrivateResourceMediation(p: Platform, n: Networks, env: Env, resourceId: Uuid)
    requires p.Valid()
    modifies p, n
    ensures p.Valid() && Observes(env, old(p.world), p.world)
    ensures !env.Shared? ==> n.mediated == old(n.mediated) || n.mediated == Synced(p.world.tables, old(n.mediated), resourceId)
    ensures Working(env) ==> n.mediated == Synced(p.world.tables, old(n.mediated), resourceId)
  {
    var count := p.CountRulesReferencingPrivateResource(env, resourceId);
    if count.Err? {
      return;
    }
    n.SetPrivateResourceMediation(env, resourceId, count.value > 0);
  }

  /** Setting the flag of every resource a write may have touched keeps the agreement. */
  lemma SyncRestores(t: Tables, u: Tables, mediated: set<Uuid>, resourceId: Uuid)
    requires MediationAgrees(t, mediated)
    requires forall x: Uuid | x != resourceId :: RulesNaming(u, x) == RulesNaming(t, x)
    ensures MediationAgrees(u, Synced(u, mediated, resourceId))
  {
  }
}
