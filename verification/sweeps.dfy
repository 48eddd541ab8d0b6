/** The paged garbage collection at the end of a pass. */
module Sweeps {
  import opened Wrappers
  import opened Ordering
  import opened Text
  import opened Uuids
  import opened Rules
  import opened Naming
  import opened Tables
  import opened Fabric
  import opened Worlds
  import opened Passes
  import opened Convergence
  import opened Theorems
  import opened Platforms
  import opened Provisioning
  import opened Agreement

  // ----- cursors over a set of ids -------------------------------------------------

  function UpTo(listed: set<ZitiId>, token: ZitiId): set<ZitiId> {
    set id | id in listed && id <= token
  }

  function Above(listed: set<ZitiId>, token: ZitiId): set<ZitiId> {
    set id | id in listed && id > token
  }

  function IdSet(ids: seq<ZitiId>, n: nat): set<ZitiId>
    requires n <= |ids|
  {
    set j | 0 <= j < n :: ids[j]
  }

  lemma IdSetGrows(ids: seq<ZitiId>, n: nat)
    requires n < |ids|
    ensures IdSet(ids, n + 1) == IdSet(ids, n) + {ids[n]}
  {
  }

  /** Everything a walk has passed once it has worked through a page. */
  function Passed(listed: set<ZitiId>, next: ZitiId): set<ZitiId> {
    if next == NO_ID then listed else UpTo(listed, next)
  }

  /** Working through one page is what lies between the cursor and the next cursor. */
  lemma PageBetween(listed: set<ZitiId>, token: ZitiId, page: seq<ZitiId>, next: ZitiId)
    requires IsPage(Above(listed, token), page, next)
    ensures UpTo(listed, token) + IdSet(page, |page|) == Passed(listed, next)
    ensures next != NO_ID ==> |Above(listed, next)| < |Above(listed, token)|
  {
    forall id | id in listed && id > token && (next == NO_ID || id <= next)
      ensures id in IdSet(page, |page|)
    {
      assert id in Above(listed, token);
      assert id in page;
    }
    if next != NO_ID {
      assert next in Above(listed, token) && next !in Above(listed, next);
      assert Above(listed, next) <= Above(listed, token) - {next};
      SmallerSet(Above(listed, next), Above(listed, token), next);
    }
  }

  lemma SmallerSet(a: set<ZitiId>, b: set<ZitiId>, x: ZitiId)
    requires a <= b - {x} && x in b
    ensures |a| < |b|
  {
    assert b == a + (b - a);
    assert x in b - a;
  }

  // ----- services --------------------------------------------------------------------

  function NamesOfRules(rules: seq<Rule>): set<string> {
    set i | 0 <= i < |rules| :: ServiceName(rules[i].id)
  }

  /** Of the services looked at so far, exactly the orphans are gone. */
  function ServicesSwept(f: Fabric, managed: set<string>, seen: set<ZitiId>): Fabric {
    f.(services := map id | id in f.services && !(id in seen && OrphanService(f.services[id], managed)) :: f.services[id])
  }

  lemma ServicesUnswept(f: Fabric, managed: set<string>)
    requires forall id | id in f.services :: id > 0
    ensures ServicesSwept(f, managed, {}) == f
    ensures UpTo(ListedServices(f, 0), 0) == {}
    ensures ServicesSwept(f, managed, ListedServices(f, 0)) == SweepServices(f, managed)
  {
    assert ServicesSwept(f, managed, {}).services == f.services;
    assert ServicesSwept(f, managed, ListedServices(f, 0)).services == SweepServices(f, managed).services;
  }

  lemma SweepOneService(f: Fabric, managed: set<string>, seen: set<ZitiId>, id: ZitiId)
    requires id in ListedServices(f, 0) && id !in seen
    ensures id in ServicesSwept(f, managed, seen).services
    ensures ServicesSwept(f, managed, seen + {id}) ==
              if f.services[id].name !in managed then DeleteService(ServicesSwept(f, managed, seen), id)
              else ServicesSwept(f, managed, seen)
  {
    assert ServicesSwept(f, managed, seen + {id}).services ==
      if f.services[id].name !in managed then DeleteService(ServicesSwept(f, managed, seen), id).services
      else ServicesSwept(f, managed, seen).services;
  }

  /** A listed page, none of it looked at before, with the names it is stored under. */
  ghost predicate ServicePage(f: Fabric, seen: set<ZitiId>, page: Listing) {
    && |page.names| == |page.ids|
    && (forall j | 0 <= j < |page.ids| ::
          && page.ids[j] > 0 && page.ids[j] in ListedServices(f, 0) && page.ids[j] !in seen
          && page.names[j] == f.services[page.ids[j]].name)
    && (forall i, j | 0 <= i < j < |page.ids| :: page.ids[i] != page.ids[j])
  }

  /** What has been swept so far does not disturb the listing beyond the cursor. */
  lemma NextServicePage(f: Fabric, managed: set<string>, token: ZitiId, page: Listing)
    requires var g := ServicesSwept(f, managed, UpTo(ListedServices(f, 0), token));
             && IsPage(ListedServices(g, token), page.ids, page.next)
             && |page.names| == |page.ids|
             && forall i | 0 <= i < |page.ids| :: page.names[i] == g.services[page.ids[i]].name
    ensures IsPage(Above(ListedServices(f, 0), token), page.ids, page.next)
    ensures ServicePage(f, UpTo(ListedServices(f, 0), token), page)
    ensures SweepServices(f, managed) == f ==> forall j | 0 <= j < |page.names| :: page.names[j] in managed
  {
    var g := ServicesSwept(f, managed, UpTo(ListedServices(f, 0), token));
    assert ListedServices(g, token) == Above(ListedServices(f, 0), token);
    if SweepServices(f, managed) == f {
      forall j | 0 <= j < |page.names|
        ensures page.names[j] in managed
      {
        assert page.ids[j] in ListedServices(g, token);
        assert page.ids[j] in SweepServices(f, managed).services;
      }
    }
  }

  /** Some of the orphans are gone, and nothing else changed. */
  ghost predicate PartlyServicesSwept(w: World, f: Fabric, managed: set<string>, v: World) {
    exists seen :: v == WithFabric(w, ServicesSwept(f, managed, seen))
  }

  lemma PartlyServicesSweptFrom(w: World, u: World, f: Fabric, managed: set<string>, v: World)
    ensures u.tables == w.tables && PartlyServicesSwept(u, f, managed, v) ==> PartlyServicesSwept(w, f, managed, v)
  {
  }

  /** Whatever is no orphan is still there, unchanged. */
  lemma ServicesSpared(w: World, managed: set<string>, v: World)
    requires PartlyServicesSwept(w, w.fabric, managed, v)
    ensures v.tables == w.tables && v.fabric.policies == w.fabric.policies
    ensures forall id | id in v.fabric.services :: id in w.fabric.services && v.fabric.services[id] == w.fabric.services[id]
    ensures forall id | id in w.fabric.services && !OrphanService(w.fabric.services[id], managed) :: id in v.fabric.services
  {
    hide OrphanService;
  }

  lemma ServicesSweptPartly(w: World, f: Fabric, managed: set<string>, seen: set<ZitiId>)
    ensures PartlyServicesSwept(w, f, managed, WithFabric(w, ServicesSwept(f, managed, seen)))
  {
  }

  /** The listed names are those of the objects, as far as these are live. */
  ghost predicate ServiceNamesHold(f: Fabric, page: Listing) {
    && |page.names| == |page.ids|
    && forall j | 0 <= j < |page.ids| ::
         0 < page.ids[j] < f.next && (page.ids[j] in f.services ==> f.services[page.ids[j]].name == page.names[j])
  }

  lemma ServiceNamesStay(w: World, v: World, page: Listing)
    requires Evolves(w, v) && ServiceNamesHold(w.fabric, page)
    ensures ServiceNamesHold(v.fabric, page)
  {
  }

  /** The one place where a sweep deletes: under every environment the service, if it is live, bears
      a name that is not spared. No object is renamed, so that still holds when the call arrives. */
  method DeleteUnmanagedService(p: Platform, env: Env, managed: set<string>, id: ZitiId) returns (r: Result<(), Error>)
    requires p.Valid()
    requires id in p.world.fabric.services ==> p.world.fabric.services[id].name !in managed
    modifies p
    ensures p.Valid() && Follows(old(p.world), p.world)
    ensures id != NO_ID ==>
      Performs(env, ZitiOutcome(env, old(p.calls)), old(p.world), p.world,
               WithFabric(old(p.world), DeleteService(old(p.world).fabric, id)), r.Ok?)
    ensures env.Quiet? ==> (r.Ok? <==> id == NO_ID || id in old(p.world).fabric.services)
  {
    r := DeleteRuleService(p, env, id);
  }

  method DeleteUnmanagedServices(p: Platform, env: Env, managed: set<string>, page: Listing,
                                 ghost f: Fabric, ghost seen: set<ZitiId>)
    returns (r: Result<(), Error>)
    requires p.Valid() && ServiceNamesHold(p.world.fabric, page)
    requires !env.Shared? ==> p.world.fabric == ServicesSwept(f, managed, seen) && ServicePage(f, seen, page)
    modifies p
    ensures p.Valid() && Follows(old(p.world), p.world)
    ensures env.Quiet? ==> r.Ok?
    ensures !env.Shared? && r.Ok? ==>
      p.world == WithFabric(old(p.world), ServicesSwept(f, managed, seen + IdSet(page.ids, |page.ids|)))
    ensures !env.Shared? ==> PartlyServicesSwept(old(p.world), f, managed, p.world)
    ensures !env.Shared? ==> Steady(old(p.world), p.world)
    ensures (forall j | 0 <= j < |page.names| :: page.names[j] in managed) ==> p.writes == old(p.writes)
  {
    hide Steady, Sound, Evolves, Reaches, Follows, ServicesSwept, DeleteService, ListedServices;
    hide PartlyServicesSwept;
    ghost var start := p.world;
    EvolvesSelf(p.world);
    FollowsFrom(p.world, p.world);
    SteadySelf(start);
    assert seen + IdSet(page.ids, 0) == seen;
    for j := 0 to |page.ids|
      invariant p.Valid() && Follows(start, p.world) && ServiceNamesHold(p.world.fabric, page)
      invariant !env.Shared? ==> p.world == WithFabric(start, ServicesSwept(f, managed, seen + IdSet(page.ids, j)))
      invariant !env.Shared? ==> Steady(start, p.world)
      invariant (forall k | 0 <= k < j :: page.names[k] in managed) ==> p.writes == old(p.writes)
    {
      ghost var before, id := p.world, page.ids[j];
      IdSetGrows(page.ids, j);
      assert seen + IdSet(page.ids, j + 1) == (seen + IdSet(page.ids, j)) + {id};
      ServicesSweptPartly(start, f, managed, seen + IdSet(page.ids, j));
      ServicesSweptPartly(start, f, managed, seen + IdSet(page.ids, j + 1));
      if !env.Shared? {
        SweepOneService(f, managed, seen + IdSet(page.ids, j), id);
      }
      if page.names[j] !in managed {
        var deleted := DeleteUnmanagedService(p, env, managed, page.ids[j]);
        FollowsFacts(before, p.world);
        ServiceNamesStay(before, p.world, page);
        FollowsTransitive(start, before, p.world);
        DeleteSteady(before, id);
        SteadyStep(start, before, p.world);
        if deleted.Err? {
          return Err(deleted.error);
        }
      }
    }
    ServicesSweptPartly(start, f, managed, seen + IdSet(page.ids, |page.ids|));
    return Ok(());
  }

  method ServiceNames(rules: seq<Rule>) returns (managed: set<string>)
    ensures managed == NamesOfRules(rules)
  {
    managed := {};
    for i := 0 to |rules|
      invariant managed == set j | 0 <= j < i :: ServiceName(rules[j].id)
    {
      managed := managed + {ServiceName(rules[i].id)};
    }
  }

  lemma ListedServiceNames(w: World, token: ZitiId, page: Listing)
    requires Sound(w) && IsPage(ListedServices(w.fabric, token), page.ids, page.next) && |page.names| == |page.ids|
    requires forall i | 0 <= i < |page.ids| :: page.names[i] == w.fabric.services[page.ids[i]].name
    ensures ServiceNamesHold(w.fabric, page)
  {
    IssuedIds(w);
  }

  /** One page: list it, delete what is not spared, and say where the next page starts. */
  method SweepServicePage(p: Platform, env: Env, managed: set<string>, token: ZitiId, ghost start: World, ghost f: Fabric)
    returns (r: Result<ZitiId, Error>)
    requires p.Valid() && Follows(start, p.world)
    requires !env.Shared? ==>
      p.world == WithFabric(start, ServicesSwept(f, managed, UpTo(ListedServices(f, 0), token))) && Steady(start, p.world)
    modifies p
    ensures p.Valid() && Follows(start, p.world)
    ensures env.Quiet? ==> r.Ok?
    ensures !env.Shared? && r.Ok? ==>
      p.world == WithFabric(start, ServicesSwept(f, managed, Passed(ListedServices(f, 0), r.value)))
    ensures !env.Shared? && r.Ok? && r.value != NO_ID ==>
      |Above(ListedServices(f, 0), r.value)| < |Above(ListedServices(f, 0), token)|
    ensures !env.Shared? ==> PartlyServicesSwept(start, f, managed, p.world) && Steady(start, p.world)
    ensures env.Quiet? && SweepServices(f, managed) == f ==> p.writes == old(p.writes)
  {
    hide Steady, Sound, Evolves, Reaches, Follows, ServicesSwept, SweepServices, ListedServices, IsPage, UpTo, Above, IdSet;
    hide ServicePage, PartlyServicesSwept, ServiceNamesHold;
    ghost var before, listed := p.world, ListedServices(f, 0);
    ServicesSweptPartly(start, f, managed, UpTo(listed, token));
    var listing := p.ListServices(env, token);
    ghost var mid := p.world;
    FollowsTransitive(start, before, mid);
    if listing.Err? {
      return Err(listing.error);
    }
    var page := listing.value;
    FollowsFacts(before, mid);
    ListedServiceNames(mid, token, page);
    if !env.Shared? {
      NextServicePage(f, managed, token, page);
      PageBetween(listed, token, page.ids, page.next);
    }
    var swept := DeleteUnmanagedServices(p, env, managed, page, f, UpTo(listed, token));
    PartlyServicesSweptFrom(start, mid, f, managed, p.world);
    FollowsTransitive(start, mid, p.world);
    SteadyStep(start, mid, p.world);
    return if swept.Err? then Err(swept.error) else Ok(page.next);
  }

  /** Deletes, page by page, every listed service whose name no listed rule manages. */
  method DeleteOrphanServices(p: Platform, env: Env, rules: seq<Rule>) returns (r: Result<(), Error>)
    requires p.Valid()
    modifies p
    ensures p.Valid() && Follows(old(p.world), p.world)
    ensures env.Quiet? ==> r.Ok?
    ensures !env.Shared? && r.Ok? ==>
      p.world == WithFabric(old(p.world), SweepServices(old(p.world).fabric, NamesOfRules(rules)))
    ensures !env.Shared? ==> PartlyServicesSwept(old(p.world), old(p.world).fabric, NamesOfRules(rules), p.world)
    ensures !env.Shared? ==> Steady(old(p.world), p.world)
    ensures env.Quiet? && SweepServices(old(p.world).fabric, NamesOfRules(rules)) == old(p.world).fabric ==>
      p.writes == old(p.writes)
  {
    var managed := ServiceNames(rules);
    ghost var start, f := p.world, p.world.fabric;
    ghost var listed := ListedServices(f, 0);
    IssuedIds(start);
    ServicesUnswept(f, managed);
    EvolvesSelf(start);
    FollowsFrom(start, start);
    SteadySelf(start);
    hide Steady, Sound, Evolves, Reaches, Follows, ServicesSwept, SweepServices, ListedServices, NamesOfRules, UpTo, Above;
    hide PartlyServicesSwept;
    ServicesSweptPartly(start, f, managed, UpTo(listed, NO_ID));
    var token, pages := NO_ID, 0;
    while true
      invariant p.Valid() && Follows(start, p.world)
      invariant env.Shared? ==> pages <= env.deadline
      invariant !env.Shared? ==> p.world == WithFabric(start, ServicesSwept(f, managed, UpTo(listed, token)))
      invariant !env.Shared? ==> PartlyServicesSwept(start, f, managed, p.world) && Steady(start, p.world)
      invariant env.Quiet? && SweepServices(f, managed) == f ==> p.writes == old(p.writes)
      decreases if env.Shared? then env.deadline - pages else |Above(listed, token)|
    {
      if env.Shared? {
        if pages == env.deadline {
          return Err(Internal);
        }
        pages := pages + 1;
      }
      var next := SweepServicePage(p, env, managed, token, start, f);
      if next.Err? {
        return Err(next.error);
      }
      token := next.value;
      if token == NO_ID {
        return Ok(());
      }
    }
  }

  // ----- policies --------------------------------------------------------------------

  function NamesOfAttachments(rows: seq<Attachment>): set<string> {
    set i | 0 <= i < |rows| && rows[i].FindTarget().Some? :: NameOfRow(rows[i])
  }

  function NameOfRow(row: Attachment): string
    requires row.FindTarget().Some?
  {
    DialPolicyName(row.ruleId, row.FindTarget().value)
  }

  /** Of the policies looked at so far, exactly the orphans are gone. */
  function PoliciesSwept(f: Fabric, managed: set<string>, seen: set<ZitiId>): Fabric {
    f.(policies := map id | id in f.policies && !(id in seen && OrphanPolicy(f.policies[id], managed)) :: f.policies[id])
  }

  lemma PoliciesUnswept(f: Fabric, managed: set<string>)
    requires forall id | id in f.policies :: id > 0
    ensures PoliciesSwept(f, managed, {}) == f
    ensures UpTo(ListedPolicies(f, 0), 0) == {}
    ensures PoliciesSwept(f, managed, ListedPolicies(f, 0)) == SweepPolicies(f, managed)
  {
    assert PoliciesSwept(f, managed, {}).policies == f.policies;
    assert PoliciesSwept(f, managed, ListedPolicies(f, 0)).policies == SweepPolicies(f, managed).policies;
  }

  /** The listing asks for no suffix, so the loop skips names without it. */
  predicate Spares(name: string, managed: set<string>) {
    !HasSuffix(name, DIAL_SUFFIX) || name in managed
  }

  lemma SweepOnePolicy(f: Fabric, managed: set<string>, seen: set<ZitiId>, id: ZitiId)
    requires id in ListedPolicies(f, 0) && id !in seen
    ensures id in PoliciesSwept(f, managed, seen).policies
    ensures PoliciesSwept(f, managed, seen + {id}) ==
              if !Spares(f.policies[id].name, managed) then DeletePolicy(PoliciesSwept(f, managed, seen), id)
              else PoliciesSwept(f, managed, seen)
  {
    assert PoliciesSwept(f, managed, seen + {id}).policies ==
      if !Spares(f.policies[id].name, managed) then DeletePolicy(PoliciesSwept(f, managed, seen), id).policies
      else PoliciesSwept(f, managed, seen).policies;
  }

  /** A listed page, none of it looked at before, with the names it is stored under. */
  ghost predicate PolicyPage(f: Fabric, seen: set<ZitiId>, page: Listing) {
    && |page.names| == |page.ids|
    && (forall j | 0 <= j < |page.ids| ::
          && page.ids[j] > 0 && page.ids[j] in ListedPolicies(f, 0) && page.ids[j] !in seen
          && page.names[j] == f.policies[page.ids[j]].name)
    && (forall i, j | 0 <= i < j < |page.ids| :: page.ids[i] != page.ids[j])
  }

  /** What has been swept so far does not disturb the listing beyond the cursor. */
  lemma NextPolicyPage(f: Fabric, managed: set<string>, token: ZitiId, page: Listing)
    requires var g := PoliciesSwept(f, managed, UpTo(ListedPolicies(f, 0), token));
             && IsPage(ListedPolicies(g, token), page.ids, page.next)
             && |page.names| == |page.ids|
             && forall i | 0 <= i < |page.ids| :: page.names[i] == g.policies[page.ids[i]].name
    ensures IsPage(Above(ListedPolicies(f, 0), token), page.ids, page.next)
    ensures PolicyPage(f, UpTo(ListedPolicies(f, 0), token), page)
    ensures SweepPolicies(f, managed) == f ==> forall j | 0 <= j < |page.names| :: Spares(page.names[j], managed)
  {
    var g := PoliciesSwept(f, managed, UpTo(ListedPolicies(f, 0), token));
    assert ListedPolicies(g, token) == Above(ListedPolicies(f, 0), token);
    if SweepPolicies(f, managed) == f {
      forall j | 0 <= j < |page.names|
        ensures Spares(page.names[j], managed)
      {
        assert page.ids[j] in ListedPolicies(g, token);
        assert page.ids[j] in SweepPolicies(f, managed).policies;
      }
    }
  }

  /** Some of the orphans are gone, and nothing else changed. */
  ghost predicate PartlyPoliciesSwept(w: World, f: Fabric, managed: set<string>, v: World) {
    exists seen :: v == WithFabric(w, PoliciesSwept(f, managed, seen))
  }

  lemma PartlyPoliciesSweptFrom(w: World, u: World, f: Fabric, managed: set<string>, v: World)
    ensures u.tables == w.tables && PartlyPoliciesSwept(u, f, managed, v) ==> PartlyPoliciesSwept(w, f, managed, v)
  {
  }

  /** Whatever is no orphan is still there, unchanged. */
  lemma PoliciesSpared(w: World, managed: set<string>, v: World)
    requires PartlyPoliciesSwept(w, w.fabric, managed, v)
    ensures v.tables == w.tables && v.fabric.services == w.fabric.services
    ensures forall id | id in v.fabric.policies :: id in w.fabric.policies && v.fabric.policies[id] == w.fabric.policies[id]
    ensures forall id | id in w.fabric.policies && !OrphanPolicy(w.fabric.policies[id], managed) :: id in v.fabric.policies
  {
    hide OrphanPolicy;
  }

  lemma PoliciesSweptPartly(w: World, f: Fabric, managed: set<string>, seen: set<ZitiId>)
    ensures PartlyPoliciesSwept(w, f, managed, WithFabric(w, PoliciesSwept(f, managed, seen)))
  {
  }

  /** The listed names are those of the objects, as far as these are live. */
  ghost predicate PolicyNamesHold(f: Fabric, page: Listing) {
    && |page.names| == |page.ids|
    && forall j | 0 <= j < |page.ids| ::
         0 < page.ids[j] < f.next && (page.ids[j] in f.policies ==> f.policies[page.ids[j]].name == page.names[j])
  }

  lemma PolicyNamesStay(w: World, v: World, page: Listing)
    requires Evolves(w, v) && PolicyNamesHold(w.fabric, page)
    ensures PolicyNamesHold(v.fabric, page)
  {
  }

  /** The one place where a sweep deletes: under every environment the policy, if it is live, bears
      a name that is not spared. No object is renamed, so that still holds when the call arrives. */
  method DeleteUnmanagedPolicy(p: Platform, env: Env, managed: set<string>, id: ZitiId) returns (r: Result<(), Error>)
    requires p.Valid()
    requires id in p.world.fabric.policies ==> !Spares(p.world.fabric.policies[id].name, managed)
    modifies p
    ensures p.Valid() && Follows(old(p.world), p.world)
    ensures id != NO_ID ==>
      Performs(env, ZitiOutcome(env, old(p.calls)), old(p.world), p.world,
               WithFabric(old(p.world), DeletePolicy(old(p.world).fabric, id)), r.Ok?)
    ensures env.Quiet? ==> (r.Ok? <==> id == NO_ID || id in old(p.world).fabric.policies)
  {
    r := DeleteAttachmentPolicy(p, env, id);
  }

  method DeleteUnmanagedPolicies(p: Platform, env: Env, managed: set<string>, page: Listing,
                                 ghost f: Fabric, ghost seen: set<ZitiId>)
    returns (r: Result<(), Error>)
    requires p.Valid() && PolicyNamesHold(p.world.fabric, page)
    requires !env.Shared? ==> p.world.fabric == PoliciesSwept(f, managed, seen) && PolicyPage(f, seen, page)
    modifies p
    ensures p.Valid() && Follows(old(p.world), p.world)
    ensures env.Quiet? ==> r.Ok?
    ensures !env.Shared? && r.Ok? ==>
      p.world == WithFabric(old(p.world), PoliciesSwept(f, managed, seen + IdSet(page.ids, |page.ids|)))
    ensures !env.Shared? ==> PartlyPoliciesSwept(old(p.world), f, managed, p.world)
    ensures !env.Shared? ==> Steady(old(p.world), p.world)
    ensures (forall j | 0 <= j < |page.names| :: Spares(page.names[j], managed)) ==> p.writes == old(p.writes)
  {
    hide Steady, Sound, Evolves, Reaches, Follows, PoliciesSwept, DeletePolicy, ListedPolicies;
    hide PartlyPoliciesSwept;
    ghost var start := p.world;
    EvolvesSelf(p.world);
    FollowsFrom(p.world, p.world);
    SteadySelf(start);
    assert seen + IdSet(page.ids, 0) == seen;
    for j := 0 to |page.ids|
      invariant p.Valid() && Follows(start, p.world) && PolicyNamesHold(p.world.fabric, page)
      invariant !env.Shared? ==> p.world == WithFabric(start, PoliciesSwept(f, managed, seen + IdSet(page.ids, j)))
      invariant !env.Shared? ==> Steady(start, p.world)
      invariant (forall k | 0 <= k < j :: Spares(page.names[k], managed)) ==> p.writes == old(p.writes)
    {
      ghost var before, id := p.world, page.ids[j];
      IdSetGrows(page.ids, j);
      assert seen + IdSet(page.ids, j + 1) == (seen + IdSet(page.ids, j)) + {id};
      PoliciesSweptPartly(start, f, managed, seen + IdSet(page.ids, j));
      PoliciesSweptPartly(start, f, managed, seen + IdSet(page.ids, j + 1));
      if !env.Shared? {
        SweepOnePolicy(f, managed, seen + IdSet(page.ids, j), id);
      }
      if !Spares(page.names[j], managed) {
        var deleted := DeleteUnmanagedPolicy(p, env, managed, page.ids[j]);
        FollowsFacts(before, p.world);
        PolicyNamesStay(before, p.world, page);
        FollowsTransitive(start, before, p.world);
        DeleteSteady(before, id);
        SteadyStep(start, before, p.world);
        if deleted.Err? {
          return Err(deleted.error);
        }
      }
    }
    PoliciesSweptPartly(start, f, managed, seen + IdSet(page.ids, |page.ids|));
    return Ok(());
  }

  /** A row without a target manages no name. */
  method PolicyNames(rows: seq<Attachment>) returns (managed: set<string>)
    ensures managed == NamesOfAttachments(rows)
  {
    hide NameOfRow;
    managed := {};
    for i := 0 to |rows|
      invariant managed == set j | 0 <= j < i && rows[j].FindTarget().Some? :: NameOfRow(rows[j])
    {
      if rows[i].FindTarget().Some? {
        managed := managed + {NameOfRow(rows[i])};
      }
    }
  }

  lemma ListedPolicyNames(w: World, token: ZitiId, page: Listing)
    requires Sound(w) && IsPage(ListedPolicies(w.fabric, token), page.ids, page.next) && |page.names| == |page.ids|
    requires forall i | 0 <= i < |page.ids| :: page.names[i] == w.fabric.policies[page.ids[i]].name
    ensures PolicyNamesHold(w.fabric, page)
  {
    IssuedIds(w);
  }

  /** One page: list it, delete what is not spared, and say where the next page starts. */
  method SweepPolicyPage(p: Platform, env: Env, managed: set<string>, token: ZitiId, ghost start: World, ghost f: Fabric)
    returns (r: Result<ZitiId, Error>)
    requires p.Valid() && Follows(start, p.world)
    requires !env.Shared? ==>
      p.world == WithFabric(start, PoliciesSwept(f, managed, UpTo(ListedPolicies(f, 0), token))) && Steady(start, p.world)
    modifies p
    ensures p.Valid() && Follows(start, p.world)
    ensures env.Quiet? ==> r.Ok?
    ensures !env.Shared? && r.Ok? ==>
      p.world == WithFabric(start, PoliciesSwept(f, managed, Passed(ListedPolicies(f, 0), r.value)))
    ensures !env.Shared? && r.Ok? && r.value != NO_ID ==>
      |Above(ListedPolicies(f, 0), r.value)| < |Above(ListedPolicies(f, 0), token)|
    ensures !env.Shared? ==> PartlyPoliciesSwept(start, f, managed, p.world) && Steady(start, p.world)
    ensures env.Quiet? && SweepPolicies(f, managed) == f ==> p.writes == old(p.writes)
  {
    hide Steady, Sound, Evolves, Reaches, Follows, PoliciesSwept, SweepPolicies, ListedPolicies, IsPage, UpTo, Above, IdSet;
    hide PolicyPage, PartlyPoliciesSwept, PolicyNamesHold;
    ghost var before, listed := p.world, ListedPolicies(f, 0);
    PoliciesSweptPartly(start, f, managed, UpTo(listed, token));
    var listing := p.ListPolicies(env, token);
    ghost var mid := p.world;
    FollowsTransitive(start, before, mid);
    if listing.Err? {
      return Err(listing.error);
    }
    var page := listing.value;
    FollowsFacts(before, mid);
    ListedPolicyNames(mid, token, page);
    if !env.Shared? {
      NextPolicyPage(f, managed, token, page);
      PageBetween(listed, token, page.ids, page.next);
    }
    var swept := DeleteUnmanagedPolicies(p, env, managed, page, f, UpTo(listed, token));
    PartlyPoliciesSweptFrom(start, mid, f, managed, p.world);
    FollowsTransitive(start, mid, p.world);
    SteadyStep(start, mid, p.world);
    return if swept.Err? then Err(swept.error) else Ok(page.next);
  }

  /** Deletes, page by page, every listed dial policy whose name no listed attachment manages. */
  method DeleteOrphanServicePolicies(p: Platform, env: Env, rows: seq<Attachment>) returns (r: Result<(), Error>)
    requires p.Valid()
    modifies p
    ensures p.Valid() && Follows(old(p.world), p.world)
    ensures env.Quiet? ==> r.Ok?
    ensures !env.Shared? && r.Ok? ==>
      p.world == WithFabric(old(p.world), SweepPolicies(old(p.world).fabric, NamesOfAttachments(rows)))
    ensures !env.Shared? ==> PartlyPoliciesSwept(old(p.world), old(p.world).fabric, NamesOfAttachments(rows), p.world)
    ensures !env.Shared? ==> Steady(old(p.world), p.world)
    ensures env.Quiet? && SweepPolicies(old(p.world).fabric, NamesOfAttachments(rows)) == old(p.world).fabric ==>
      p.writes == old(p.writes)
  {
    var managed := PolicyNames(rows);
    ghost var start, f := p.world, p.world.fabric;
    ghost var listed := ListedPolicies(f, 0);
    IssuedIds(start);
    PoliciesUnswept(f, managed);
    EvolvesSelf(start);
    FollowsFrom(start, start);
    SteadySelf(start);
    hide Steady, Sound, Evolves, Reaches, Follows, PoliciesSwept, SweepPolicies, ListedPolicies, NamesOfAttachments, UpTo, Above;
    hide PartlyPoliciesSwept;
    PoliciesSweptPartly(start, f, managed, UpTo(listed, NO_ID));
    var token, pages := NO_ID, 0;
    while true
      invariant p.Valid() && Follows(start, p.world)
      invariant env.Shared? ==> pages <= env.deadline
      invariant !env.Shared? ==> p.world == WithFabric(start, PoliciesSwept(f, managed, UpTo(listed, token)))
      invariant !env.Shared? ==> PartlyPoliciesSwept(start, f, managed, p.world) && Steady(start, p.world)
      invariant env.Quiet? && SweepPolicies(f, managed) == f ==> p.writes == old(p.writes)
      decreases if env.Shared? then env.deadline - pages else |Above(listed, token)|
    {
      if env.Shared? {
        if pages == env.deadline {
          return Err(Internal);
        }
        pages := pages + 1;
      }
      var next := SweepPolicyPage(p, env, managed, token, start, f);
      if next.Err? {
        return Err(next.error);
      }
      token := next.value;
      if token == NO_ID {
        return Ok(());
      }
    }
  }
}
