/** The intercept-collision report: which agents can both be caught by a public rule and dial a
    private resource under the same host name and port. */
module Collisions {
  import opened Wrappers
  import opened Ordering
  import opened Text
  import opened Uuids
  import opened Rules
  import opened Patterns
  import opened Platforms

  /** An agent as the agents service lists it; both ids are texts. */
  datatype Agent = Agent(id: string, environmentId: string)

  datatype View = View(interceptHost: string, interceptPorts: seq<int>)

  datatype Entry = Entry(id: string, view: View)

  /** What the agents and networks services would answer: the pages of each organization's
      agents, the resources granted to an agent (through groups and its environment too) and to
      an environment, and each resource. */
  datatype Directory = Directory(
    agentPages: map<Uuid, seq<seq<Agent>>>,
    grantedToAgent: map<Uuid, seq<Entry>>,
    grantedToEnvironment: map<Uuid, seq<Entry>>,
    resources: map<string, View>)
  {
    function Pages(organization: Uuid): seq<seq<Agent>> {
      if organization in agentPages then agentPages[organization] else []
    }

    function AgentGrants(agent: Uuid): seq<Entry> {
      if agent in grantedToAgent then grantedToAgent[agent] else []
    }

    function EnvironmentGrants(environment: Uuid): seq<Entry> {
      if environment in grantedToEnvironment then grantedToEnvironment[environment] else []
    }

    ghost predicate Lists(organization: Uuid, agent: Agent) {
      exists i | 0 <= i < |Pages(organization)| :: agent in Pages(organization)[i]
    }

    /** A listing and a lookup never tell different things of one resource. */
    ghost predicate Agrees() {
      && (forall a, e | a in grantedToAgent && e in grantedToAgent[a] :: e.id in resources && resources[e.id] == e.view)
      && (forall n, e | n in grantedToEnvironment && e in grantedToEnvironment[n] ::
            e.id in resources && resources[e.id] == e.view)
    }
  }

  datatype Triple = Triple(agentId: Uuid, ruleId: Uuid, resourceId: string)

  predicate Hits(rule: Rule, view: View) {
    && DomainPatternMatchesHost(rule.matcher.domainPattern, view.interceptHost)
    && Overlap(rule.matcher.ports, view.interceptPorts)
  }

  /** A public rule meets a resource exactly if both use some port and the rule's pattern is the
      resource's host, or stands for it by one label. */
  lemma HitsExact(rule: Rule, view: View)
    ensures Hits(rule, view) <==>
              && !((set port | port in rule.matcher.ports) !! (set port | port in view.interceptPorts))
              && view.interceptHost != ""
              && var pattern := rule.matcher.domainPattern;
                 if HasPrefix(pattern, "*.") then
                   exists head: string :: head != "" && '.' !in head && view.interceptHost == head + "." + pattern[2..]
                 else pattern == view.interceptHost
  {
    hide DomainPatternMatchesHost;
    MatchesExactly(rule.matcher.domainPattern, view.interceptHost);
    var left, right := set port | port in rule.matcher.ports, set port | port in view.interceptPorts;
    if Overlap(rule.matcher.ports, view.interceptPorts) {
      var i :| 0 <= i < |rule.matcher.ports| && rule.matcher.ports[i] in view.interceptPorts;
      assert rule.matcher.ports[i] in left && rule.matcher.ports[i] in right;
    }
    forall port | port in left && port in right
      ensures Overlap(rule.matcher.ports, view.interceptPorts)
    {
      var i :| 0 <= i < |rule.matcher.ports| && rule.matcher.ports[i] == port;
    }
  }

  // ----- what the report should contain -----------------------------------------------------------

  /** The agent column is looked at first. */
  predicate AttachedToAgent(b: Attachment, agent: Uuid) {
    b.agentId == Some(agent)
  }

  predicate AttachedToEnvironment(b: Attachment, environment: Uuid) {
    b.agentId.None? && b.environmentId == Some(environment)
  }

  /** The record is of this agent, or runs this environment. */
  predicate IsAgent(x: Agent, agent: Uuid) {
    ParseUuid(x.id) == Some(agent)
  }

  predicate Runs(x: Agent, environment: Uuid) {
    ParseUuid(x.environmentId) == Some(environment)
  }

  /** An attachment reaches an agent directly or through the environment it runs. */
  predicate ReachesAgent(b: Attachment, x: Agent) {
    || (b.agentId.Some? && IsAgent(x, b.agentId.value))
    || (b.agentId.None? && b.environmentId.Some? && Runs(x, b.environmentId.value))
  }

  /** One of the first n attachments brings the rule to the agent. */
  ghost predicate Holds(byId: map<Uuid, Rule>, attachments: seq<Attachment>, x: Agent, rule: Rule) {
    exists i | 0 <= i < |attachments| ::
      attachments[i].ruleId in byId && byId[attachments[i].ruleId] == rule && ReachesAgent(attachments[i], x)
  }

  ghost predicate Granted(entries: seq<Entry>, resourceId: string) {
    exists i | 0 <= i < |entries| :: entries[i].id == resourceId
  }

  /** The agent can dial the resource: by a grant, or because a private rule reaches it. */
  ghost predicate Dials(d: Directory, byId: map<Uuid, Rule>, attachments: seq<Attachment>, x: Agent, resourceId: string) {
    && resourceId in d.resources
    && ParseUuid(x.id).Some?
    && (|| Granted(d.AgentGrants(ParseUuid(x.id).value), resourceId)
        || exists q :: Holds(byId, attachments, x, q) && q.IsPrivate() && q.matcher.privateResourceId == resourceId)
  }

  ghost predicate Collides(d: Directory, byId: map<Uuid, Rule>, attachments: seq<Attachment>, x: Agent, t: Triple) {
    && IsAgent(x, t.agentId)
    && Dials(d, byId, attachments, x, t.resourceId)
    && exists q :: Holds(byId, attachments, x, q) && !q.IsPrivate() && q.id == t.ruleId && Hits(q, d.resources[t.resourceId])
  }

  /** The agents looked at: those of every organization that has an attached rule. */
  ghost predicate Listed(d: Directory, byId: map<Uuid, Rule>, attachments: seq<Attachment>, x: Agent) {
    exists i | 0 <= i < |attachments| ::
      attachments[i].ruleId in byId && d.Lists(byId[attachments[i].ruleId].organizationId, x)
  }

  /** The rules by id, as the report's own map holds them. */
  function RulesById(rules: seq<Rule>, n: nat): map<Uuid, Rule>
    requires n <= |rules|
  {
    if n == 0 then map[] else RulesById(rules, n - 1)[rules[n - 1].id := rules[n - 1]]
  }

  lemma {:induction false} RulesByIdKeys(rules: seq<Rule>, n: nat)
    requires n <= |rules|
    ensures forall r | r in RulesById(rules, n) :: RulesById(rules, n)[r].id == r
  {
    if n > 0 {
      RulesByIdKeys(rules, n - 1);
    }
  }

  ghost predicate HasTriple(report: seq<Triple>, t: Triple) {
    exists i :: 0 <= i < |report| && report[i] == t
  }

  ghost predicate NoRepeats(report: seq<Triple>) {
    forall i, j | 0 <= i < j < |report| :: report[i] != report[j]
  }

  // ----- the lookups ----------------------------------------------------------------------------

  /** One page of an organization's agents, and the next page if there is one. */
  method ListAgentsPage(d: Directory, env: Env, organization: Uuid, page: nat)
    returns (r: Result<(seq<Agent>, Option<nat>), Error>)
    ensures PeersWork(env) ==> r.Ok?
    ensures r.Ok? ==>
      var pages := d.Pages(organization);
      && r.value.0 == (if page < |pages| then pages[page] else [])
      && r.value.1 == (if page + 1 < |pages| then Some(page + 1) else None)
  {
    var failed := PeerFails(env);
    var pages := d.Pages(organization);
    return if failed then Err(Internal)
      else Ok((if page < |pages| then pages[page] else [], if page + 1 < |pages| then Some(page + 1) else None));
  }

  method ListReachableBy(d: Directory, env: Env, agent: Uuid) returns (r: Result<seq<Entry>, Error>)
    ensures PeersWork(env) ==> r.Ok?
    ensures r.Ok? ==> r.value == d.AgentGrants(agent)
  {
    var failed := PeerFails(env);
    return if failed then Err(Internal) else Ok(d.AgentGrants(agent));
  }

  method GetPrivateResource(d: Directory, env: Env, resourceId: string) returns (r: Result<View, Error>)
    ensures PeersWork(env) ==> (r.Ok? <==> resourceId in d.resources)
    ensures r.Ok? ==> resourceId in d.resources && r.value == d.resources[resourceId]
  {
    var failed := PeerFails(env);
    return if failed || resourceId !in d.resources then Err(Internal) else Ok(d.resources[resourceId]);
  }

  // ----- grouping the attached rules ---------------------------------------------------------------

  predicate Binds(b: Attachment, target: Target) {
    match target.kind
    case AgentTarget => AttachedToAgent(b, target.id)
    case EnvironmentTarget => AttachedToEnvironment(b, target.id)
  }

  /** The rules the first n attachments bind to the target, in that order. */
  function RulesUnder(byId: map<Uuid, Rule>, attachments: seq<Attachment>, n: nat, target: Target): seq<Rule>
    requires n <= |attachments|
  {
    if n == 0 then []
    else
      var before, b := RulesUnder(byId, attachments, n - 1, target), attachments[n - 1];
      if b.ruleId in byId && Binds(b, target) then before + [byId[b.ruleId]] else before
  }

  lemma {:induction false} RulesUnderExact(byId: map<Uuid, Rule>, attachments: seq<Attachment>, n: nat,
                                           target: Target, q: Rule)
    requires n <= |attachments|
    ensures q in RulesUnder(byId, attachments, n, target) <==>
              exists i | 0 <= i < n ::
                attachments[i].ruleId in byId && byId[attachments[i].ruleId] == q && Binds(attachments[i], target)
  {
    if n > 0 {
      RulesUnderExact(byId, attachments, n - 1, target, q);
    }
  }

  function Lookup(m: map<Uuid, seq<Rule>>, key: Uuid): seq<Rule> {
    if key in m then m[key] else []
  }

  ghost predicate Grouped(m: map<Uuid, seq<Rule>>, byId: map<Uuid, Rule>, attachments: seq<Attachment>, n: nat,
                          kind: TargetKind)
    requires n <= |attachments|
  {
    forall k: Uuid :: Lookup(m, k) == RulesUnder(byId, attachments, n, Target(kind, k))
  }

  lemma GroupSkips(m: map<Uuid, seq<Rule>>, byId: map<Uuid, Rule>, attachments: seq<Attachment>, n: nat, kind: TargetKind)
    requires n < |attachments| && Grouped(m, byId, attachments, n, kind)
    requires attachments[n].ruleId !in byId || forall k: Uuid :: !Binds(attachments[n], Target(kind, k))
    ensures Grouped(m, byId, attachments, n + 1, kind)
  {
  }

  lemma GroupAdds(m: map<Uuid, seq<Rule>>, byId: map<Uuid, Rule>, attachments: seq<Attachment>, n: nat,
                  kind: TargetKind, key: Uuid)
    requires n < |attachments| && Grouped(m, byId, attachments, n, kind)
    requires attachments[n].ruleId in byId && Binds(attachments[n], Target(kind, key))
    ensures Grouped(m[key := Lookup(m, key) + [byId[attachments[n].ruleId]]], byId, attachments, n + 1, kind)
  {
  }

  function OrganizationsOf(byId: map<Uuid, Rule>, attachments: seq<Attachment>, n: nat): set<Uuid>
    requires n <= |attachments|
  {
    set i | 0 <= i < n && attachments[i].ruleId in byId :: byId[attachments[i].ruleId].organizationId
  }

  lemma OrganizationsStep(byId: map<Uuid, Rule>, attachments: seq<Attachment>, n: nat)
    requires n < |attachments|
    ensures OrganizationsOf(byId, attachments, n + 1) ==
              OrganizationsOf(byId, attachments, n) +
              (if attachments[n].ruleId in byId then {byId[attachments[n].ruleId].organizationId} else {})
  {
  }

  method GroupRules(byId: map<Uuid, Rule>, attachments: seq<Attachment>)
    returns (byAgent: map<Uuid, seq<Rule>>, byEnvironment: map<Uuid, seq<Rule>>, organizations: set<Uuid>)
    ensures Grouped(byAgent, byId, attachments, |attachments|, AgentTarget)
    ensures Grouped(byEnvironment, byId, attachments, |attachments|, EnvironmentTarget)
    ensures organizations == OrganizationsOf(byId, attachments, |attachments|)
  {
    byAgent, byEnvironment, organizations := map[], map[], {};
    assert Grouped(map[], byId, attachments, 0, AgentTarget) && Grouped(map[], byId, attachments, 0, EnvironmentTarget);
    assert OrganizationsOf(byId, attachments, 0) == {};
    hide Grouped, OrganizationsOf, RulesUnder;
    for i := 0 to |attachments|
      invariant Grouped(byAgent, byId, attachments, i, AgentTarget)
      invariant Grouped(byEnvironment, byId, attachments, i, EnvironmentTarget)
      invariant organizations == OrganizationsOf(byId, attachments, i)
    {
      var b := attachments[i];
      OrganizationsStep(byId, attachments, i);
      if b.ruleId in byId {
        var rule := byId[b.ruleId];
        organizations := organizations + {rule.organizationId};
        if b.agentId.Some? {
          GroupAdds(byAgent, byId, attachments, i, AgentTarget, b.agentId.value);
          GroupSkips(byEnvironment, byId, attachments, i, EnvironmentTarget);
          byAgent := byAgent[b.agentId.value := Lookup(byAgent, b.agentId.value) + [rule]];
        } else if b.environmentId.Some? {
          GroupAdds(byEnvironment, byId, attachments, i, EnvironmentTarget, b.environmentId.value);
          GroupSkips(byAgent, byId, attachments, i, AgentTarget);
          byEnvironment := byEnvironment[b.environmentId.value := Lookup(byEnvironment, b.environmentId.value) + [rule]];
        } else {
          GroupSkips(byAgent, byId, attachments, i, AgentTarget);
          GroupSkips(byEnvironment, byId, attachments, i, EnvironmentTarget);
        }
      } else {
        GroupSkips(byAgent, byId, attachments, i, AgentTarget);
        GroupSkips(byEnvironment, byId, attachments, i, EnvironmentTarget);
      }
    }
  }

  /** What is grouped under the agent and its environment is what the agent holds. */
  lemma EffectiveExact(byId: map<Uuid, Rule>, attachments: seq<Attachment>, x: Agent, q: Rule)
    requires ParseUuid(x.id).Some?
    ensures var n := |attachments|;
            var direct := RulesUnder(byId, attachments, n, Target(AgentTarget, ParseUuid(x.id).value));
            var environment := ParseUuid(x.environmentId);
            Holds(byId, attachments, x, q) <==>
              q in direct ||
              (environment.Some? && q in RulesUnder(byId, attachments, n, Target(EnvironmentTarget, environment.value)))
  {
    hide ParseUuid;
    RulesUnderExact(byId, attachments, |attachments|, Target(AgentTarget, ParseUuid(x.id).value), q);
    if ParseUuid(x.environmentId).Some? {
      RulesUnderExact(byId, attachments, |attachments|, Target(EnvironmentTarget, ParseUuid(x.environmentId).value), q);
    }
  }

  method SplitRules(effective: seq<Rule>) returns (publicRules: seq<Rule>, privateRules: seq<Rule>)
    ensures forall q :: q in publicRules <==> q in effective && !q.IsPrivate()
    ensures forall q :: q in privateRules <==> q in effective && q.IsPrivate()
  {
    publicRules, privateRules := [], [];
    for i := 0 to |effective|
      invariant forall q :: q in publicRules <==> q in effective[..i] && !q.IsPrivate()
      invariant forall q :: q in privateRules <==> q in effective[..i] && q.IsPrivate()
    {
      assert effective[..i + 1] == effective[..i] + [effective[i]];
      if effective[i].IsPrivate() {
        privateRules := privateRules + [effective[i]];
      } else {
        publicRules := publicRules + [effective[i]];
      }
    }
    assert effective[..|effective|] == effective;
  }

  // ----- listing the agents --------------------------------------------------------------------------

  method ListAgents(d: Directory, env: Env, organizations: set<Uuid>) returns (agents: seq<Agent>)
    ensures forall x | x in agents :: exists o | o in organizations :: d.Lists(o, x)
    ensures PeersWork(env) ==> forall o, x | o in organizations && d.Lists(o, x) :: x in agents
  {
    agents := [];
    var rest := organizations;
    while rest != {}
      invariant rest <= organizations
      invariant forall x | x in agents :: exists o | o in organizations :: d.Lists(o, x)
      invariant PeersWork(env) ==> forall o, x | o in organizations - rest && d.Lists(o, x) :: x in agents
      decreases rest
    {
      var organization :| organization in rest;
      var listed := ListOrganization(d, env, organization);
      agents := agents + listed;
      rest := rest - {organization};
    }
  }

  method ListOrganization(d: Directory, env: Env, organization: Uuid) returns (agents: seq<Agent>)
    ensures forall x | x in agents :: d.Lists(organization, x)
    ensures PeersWork(env) ==> forall x | d.Lists(organization, x) :: x in agents
  {
    agents := [];
    var page, pages := 0, d.Pages(organization);
    while true
      invariant page == 0 || page < |pages|
      invariant forall x | x in agents :: d.Lists(organization, x)
      invariant forall i, x | 0 <= i < page && x in pages[i] :: x in agents
      decreases |pages| - page
    {
      var response := ListAgentsPage(d, env, organization, page);
      if response.Err? {
        break;
      }
      agents := agents + response.value.0;
      if response.value.1.None? {
        break;
      }
      page := response.value.1.value;
    }
  }

  // ----- what an agent can dial ------------------------------------------------------------------------

  ghost predicate CacheSound(d: Directory, cache: map<string, View>) {
    forall id | id in cache :: id in d.resources && cache[id] == d.resources[id]
  }

  ghost predicate NamedBy(privateRules: seq<Rule>, n: nat, resourceId: string)
    requires n <= |privateRules|
  {
    exists i | 0 <= i < n :: privateRules[i].matcher.privateResourceId == resourceId
  }

  ghost predicate Dialable(d: Directory, agent: Uuid, privateRules: seq<Rule>, n: nat, resourceId: string)
    requires n <= |privateRules|
  {
    resourceId in d.resources && (Granted(d.AgentGrants(agent), resourceId) || NamedBy(privateRules, n, resourceId))
  }

  lemma DialableStep(d: Directory, agent: Uuid, privateRules: seq<Rule>, n: nat)
    requires n < |privateRules|
    ensures forall id :: Dialable(d, agent, privateRules, n + 1, id) <==>
              Dialable(d, agent, privateRules, n, id) ||
              (id in d.resources && id == privateRules[n].matcher.privateResourceId)
  {
  }

  /** The order lists the keys of the map. */
  ghost predicate Ordered(byId: map<string, Entry>, ordered: seq<string>) {
    && (forall k | 0 <= k < |ordered| :: ordered[k] in byId)
    && (forall id | id in byId :: exists k :: 0 <= k < |ordered| && ordered[k] == id)
  }

  lemma OrderedGrows(byId: map<string, Entry>, ordered: seq<string>, id: string, entry: Entry)
    requires Ordered(byId, ordered)
    ensures Ordered(byId[id := entry], ordered + [id])
  {
    var more := ordered + [id];
    assert more[|ordered|] == id;
    forall other | other in byId
      ensures exists k :: 0 <= k < |more| && more[k] == other
    {
      var k :| 0 <= k < |ordered| && ordered[k] == other;
      assert more[k] == other;
    }
  }

  ghost predicate EntriesSound(d: Directory, byId: map<string, Entry>) {
    forall id | id in byId :: byId[id].id == id && id in d.resources && byId[id].view == d.resources[id]
  }

  /** The entries of the granted resources, then of the resources the private rules name; a
      resource that cannot be looked up is left out. */
  method ReachableResources(d: Directory, env: Env, agent: Uuid, privateRules: seq<Rule>, cache: map<string, View>)
    returns (resources: seq<Entry>, newCache: map<string, View>)
    requires d.Agrees() && CacheSound(d, cache)
    ensures CacheSound(d, newCache)
    ensures forall i | 0 <= i < |resources| ::
      && resources[i].id in d.resources && resources[i].view == d.resources[resources[i].id]
      && Dialable(d, agent, privateRules, |privateRules|, resources[i].id)
    ensures PeersWork(env) ==> forall id | Dialable(d, agent, privateRules, |privateRules|, id) ::
      exists i :: 0 <= i < |resources| && resources[i].id == id
  {
    newCache := cache;
    var byId: map<string, Entry>, ordered: seq<string> := map[], [];
    assert Ordered(map[], []) && EntriesSound(d, map[]);
    var response := ListReachableBy(d, env, agent);
    if response.Ok? {
      byId, ordered := CollectGranted(d, agent, response.value);
    }
    hide Dialable, Ordered;
    for i := 0 to |privateRules|
      invariant CacheSound(d, newCache)
      invariant Ordered(byId, ordered) && EntriesSound(d, byId)
      invariant forall id | id in byId :: Dialable(d, agent, privateRules, i, id)
      invariant PeersWork(env) ==> forall id | Dialable(d, agent, privateRules, i, id) :: id in byId
    {
      DialableStep(d, agent, privateRules, i);
      var resourceId := privateRules[i].matcher.privateResourceId;
      if resourceId !in newCache {
        var fetched := GetPrivateResource(d, env, resourceId);
        if fetched.Err? {
          continue;
        }
        newCache := newCache[resourceId := fetched.value];
      }
      if resourceId in byId {
        continue;
      }
      OrderedGrows(byId, ordered, resourceId, Entry(resourceId, newCache[resourceId]));
      byId := byId[resourceId := Entry(resourceId, newCache[resourceId])];
      ordered := ordered + [resourceId];
    }
    resources := EntriesInOrder(d, byId, ordered);
  }

  method EntriesInOrder(d: Directory, byId: map<string, Entry>, ordered: seq<string>) returns (resources: seq<Entry>)
    requires Ordered(byId, ordered) && EntriesSound(d, byId)
    ensures forall i | 0 <= i < |resources| ::
      resources[i].id in byId && resources[i].id in d.resources && resources[i].view == d.resources[resources[i].id]
    ensures forall id | id in byId :: exists i :: 0 <= i < |resources| && resources[i].id == id
  {
    resources := [];
    for k := 0 to |ordered|
      invariant |resources| == k && forall j | 0 <= j < k :: resources[j] == byId[ordered[j]]
    {
      resources := resources + [byId[ordered[k]]];
    }
    forall id | id in byId
      ensures exists i :: 0 <= i < |resources| && resources[i].id == id
    {
      var k :| 0 <= k < |ordered| && ordered[k] == id;
      assert resources[k] == byId[id];
    }
  }

  method CollectGranted(d: Directory, agent: Uuid, granted: seq<Entry>) returns (byId: map<string, Entry>,
                        ordered: seq<string>)
    requires d.Agrees() && granted == d.AgentGrants(agent)
    ensures Ordered(byId, ordered) && EntriesSound(d, byId)
    ensures forall id :: id in byId <==> Dialable(d, agent, [], 0, id)
  {
    byId, ordered := map[], [];
    for i := 0 to |granted|
      invariant Ordered(byId, ordered) && EntriesSound(d, byId)
      invariant forall id :: id in byId <==> exists j | 0 <= j < i :: granted[j].id == id
    {
      assert granted[i] in d.grantedToAgent[agent];
      OrderedGrows(byId, ordered, granted[i].id, granted[i]);
      byId := byId[granted[i].id := granted[i]];
      ordered := ordered + [granted[i].id];
    }
  }

  // ----- the report -----------------------------------------------------------------------------------

  /** The text the report uses to recognise a triple it already has. */
  function Key(t: Triple): string {
    UuidText(t.agentId) + "|" + UuidText(t.ruleId) + "|" + t.resourceId
  }

  /** The key tells triples apart. */
  lemma KeyInjective(t: Triple, u: Triple)
    requires Key(t) == Key(u)
    ensures t == u
  {
    hide UuidText;
    assert Key(t)[..36] == UuidText(t.agentId) && Key(u)[..36] == UuidText(u.agentId);
    assert Key(t)[37..73] == UuidText(t.ruleId) && Key(u)[37..73] == UuidText(u.ruleId);
    assert Key(t)[74..] == t.resourceId && Key(u)[74..] == u.resourceId;
    UuidTextInjective(t.agentId, u.agentId);
    UuidTextInjective(t.ruleId, u.ruleId);
  }

  /** The keys seen are those of the triples reported. */
  ghost predicate Seen(seen: set<string>, report: seq<Triple>) {
    && (forall i | 0 <= i < |report| :: Key(report[i]) in seen)
    && (forall key | key in seen :: exists i :: 0 <= i < |report| && Key(report[i]) == key)
  }

  lemma SeenExactly(seen: set<string>, report: seq<Triple>, t: Triple)
    requires Seen(seen, report)
    ensures Key(t) in seen <==> HasTriple(report, t)
  {
    hide Key;
    if Key(t) in seen {
      var i :| 0 <= i < |report| && Key(report[i]) == Key(t);
      KeyInjective(report[i], t);
    }
  }

  lemma SeenGrows(seen: set<string>, report: seq<Triple>, c: Triple)
    requires Seen(seen, report) && NoRepeats(report) && !HasTriple(report, c)
    ensures Seen(seen + {Key(c)}, report + [c]) && NoRepeats(report + [c])
    ensures HasTriple(report + [c], c)
    ensures forall t | HasTriple(report, t) :: HasTriple(report + [c], t)
    ensures forall t | HasTriple(report + [c], t) :: t == c || HasTriple(report, t)
  {
    hide Key;
    var more := report + [c];
    assert more[|report|] == c;
    forall key | key in seen
      ensures exists i :: 0 <= i < |more| && Key(more[i]) == key
    {
      var i :| 0 <= i < |report| && Key(report[i]) == key;
      assert more[i] == report[i];
    }
    forall t | HasTriple(report, t)
      ensures HasTriple(more, t)
    {
      var i :| 0 <= i < |report| && report[i] == t;
      assert more[i] == t;
    }
  }

  /** The agent's j-th public rule meets its i-th entry. */
  ghost predicate MeetsAt(agent: Uuid, publicRules: seq<Rule>, entries: seq<Entry>, i: nat, j: nat, t: Triple)
    requires i < |entries| && j < |publicRules|
  {
    t == Triple(agent, publicRules[j].id, entries[i].id) && Hits(publicRules[j], entries[i].view)
  }

  /** Some rule meets one of the first n entries, or one of the first m rules meets the n-th. */
  ghost predicate Meets(agent: Uuid, publicRules: seq<Rule>, entries: seq<Entry>, n: nat, m: nat, t: Triple)
    requires n <= |entries| && m <= |publicRules|
  {
    exists i: nat, j: nat | i < |entries| && j < |publicRules| && (i < n || (i == n && j < m)) ::
      MeetsAt(agent, publicRules, entries, i, j, t)
  }

  lemma MeetsStep(agent: Uuid, publicRules: seq<Rule>, entries: seq<Entry>, n: nat, m: nat)
    requires n < |entries| && m < |publicRules|
    ensures forall t :: Meets(agent, publicRules, entries, n, m + 1, t) <==>
              Meets(agent, publicRules, entries, n, m, t) || MeetsAt(agent, publicRules, entries, n, m, t)
  {
    hide MeetsAt;
  }

  lemma MeetsRow(agent: Uuid, publicRules: seq<Rule>, entries: seq<Entry>, n: nat)
    requires n < |entries|
    ensures forall t :: Meets(agent, publicRules, entries, n + 1, 0, t) <==>
              Meets(agent, publicRules, entries, n, |publicRules|, t)
  {
    hide MeetsAt;
  }

  lemma MeetsNothing(agent: Uuid, publicRules: seq<Rule>, entries: seq<Entry>)
    ensures forall t :: !Meets(agent, publicRules, entries, 0, 0, t)
  {
  }

  method ReportAgent(agent: Uuid, publicRules: seq<Rule>, entries: seq<Entry>, seen: set<string>, report: seq<Triple>)
    returns (newSeen: set<string>, newReport: seq<Triple>)
    requires Seen(seen, report) && NoRepeats(report)
    ensures Seen(newSeen, newReport) && NoRepeats(newReport)
    ensures forall t :: HasTriple(newReport, t) <==> HasTriple(report, t) || Meets(agent, publicRules, entries, |entries|, 0, t)
  {
    hide Seen, NoRepeats, HasTriple, Meets, Key, Hits;
    newSeen, newReport := seen, report;
    MeetsNothing(agent, publicRules, entries);
    for i := 0 to |entries|
      invariant Seen(newSeen, newReport) && NoRepeats(newReport)
      invariant forall t :: HasTriple(newReport, t) <==> HasTriple(report, t) || Meets(agent, publicRules, entries, i, 0, t)
    {
      for j := 0 to |publicRules|
        invariant Seen(newSeen, newReport) && NoRepeats(newReport)
        invariant forall t :: HasTriple(newReport, t) <==> HasTriple(report, t) || Meets(agent, publicRules, entries, i, j, t)
      {
        MeetsStep(agent, publicRules, entries, i, j);
        var rule, reachable := publicRules[j], entries[i];
        var overlap := HitsEntry(rule, reachable.view);
        if !overlap {
          continue;
        }
        var t := Triple(agent, rule.id, reachable.id);
        SeenExactly(newSeen, newReport, t);
        if Key(t) in newSeen {
          continue;
        }
        SeenGrows(newSeen, newReport, t);
        newSeen := newSeen + {Key(t)};
        newReport := newReport + [t];
      }
      MeetsRow(agent, publicRules, entries, i);
    }
  }

  method HitsEntry(rule: Rule, view: View) returns (hits: bool)
    ensures hits <==> Hits(rule, view)
  {
    if !DomainPatternMatchesHost(rule.matcher.domainPattern, view.interceptHost) {
      return false;
    }
    hits := PortsOverlap(rule.matcher.ports, view.interceptPorts);
  }

  lemma DialableIsDials(d: Directory, byId: map<Uuid, Rule>, attachments: seq<Attachment>, x: Agent, agent: Uuid,
                        privateRules: seq<Rule>, id: string)
    requires IsAgent(x, agent)
    requires forall q :: q in privateRules <==> Holds(byId, attachments, x, q) && q.IsPrivate()
    ensures Dialable(d, agent, privateRules, |privateRules|, id) <==> Dials(d, byId, attachments, x, id)
  {
    hide Holds, Granted, ParseUuid;
    if Dials(d, byId, attachments, x, id) && !Granted(d.AgentGrants(agent), id) {
      var q :| Holds(byId, attachments, x, q) && q.IsPrivate() && q.matcher.privateResourceId == id;
      assert q in privateRules;
    }
    if NamedBy(privateRules, |privateRules|, id) {
      var i :| 0 <= i < |privateRules| && privateRules[i].matcher.privateResourceId == id;
      assert privateRules[i] in privateRules;
    }
  }

  /** What meets among the agent's public rules and the entries found for it is what collides;
      with nothing missing among the entries, it is exactly that. */
  lemma MeetsIsCollides(d: Directory, byId: map<Uuid, Rule>, attachments: seq<Attachment>, x: Agent, agent: Uuid,
                        publicRules: seq<Rule>, privateRules: seq<Rule>, entries: seq<Entry>, t: Triple)
    requires IsAgent(x, agent)
    requires forall q :: q in publicRules <==> Holds(byId, attachments, x, q) && !q.IsPrivate()
    requires forall q :: q in privateRules <==> Holds(byId, attachments, x, q) && q.IsPrivate()
    requires forall i | 0 <= i < |entries| ::
      && entries[i].id in d.resources && entries[i].view == d.resources[entries[i].id]
      && Dialable(d, agent, privateRules, |privateRules|, entries[i].id)
    ensures Meets(agent, publicRules, entries, |entries|, 0, t) ==> Collides(d, byId, attachments, x, t)
    ensures (forall id | Dialable(d, agent, privateRules, |privateRules|, id) ::
               exists i :: 0 <= i < |entries| && entries[i].id == id) ==>
            Collides(d, byId, attachments, x, t) ==> Meets(agent, publicRules, entries, |entries|, 0, t)
  {
    hide Holds, Granted, ParseUuid, Dialable, Hits, Dials;
    DialableIsDials(d, byId, attachments, x, agent, privateRules, t.resourceId);
    if Meets(agent, publicRules, entries, |entries|, 0, t) {
      var i: nat, j: nat :| i < |entries| && j < |publicRules| && MeetsAt(agent, publicRules, entries, i, j, t);
      assert publicRules[j] in publicRules;
    }
    if Collides(d, byId, attachments, x, t) &&
       forall id | Dialable(d, agent, privateRules, |privateRules|, id) :: exists i :: 0 <= i < |entries| && entries[i].id == id {
      var q :| Holds(byId, attachments, x, q) && !q.IsPrivate() && q.id == t.ruleId && Hits(q, d.resources[t.resourceId]);
      var i: nat :| i < |entries| && entries[i].id == t.resourceId;
      assert q in publicRules;
      var j: nat :| j < |publicRules| && publicRules[j] == q;
      assert MeetsAt(agent, publicRules, entries, i, j, t);
    }
  }

  lemma OneAgent(d: Directory, byId: map<Uuid, Rule>, attachments: seq<Attachment>, x: Agent, agent: Uuid,
                 publicRules: seq<Rule>, privateRules: seq<Rule>, entries: seq<Entry>)
    requires IsAgent(x, agent)
    requires forall q :: q in publicRules <==> Holds(byId, attachments, x, q) && !q.IsPrivate()
    requires forall q :: q in privateRules <==> Holds(byId, attachments, x, q) && q.IsPrivate()
    requires forall i | 0 <= i < |entries| ::
      && entries[i].id in d.resources && entries[i].view == d.resources[entries[i].id]
      && Dialable(d, agent, privateRules, |privateRules|, entries[i].id)
    ensures forall t | Meets(agent, publicRules, entries, |entries|, 0, t) :: Collides(d, byId, attachments, x, t)
    ensures (forall id | Dialable(d, agent, privateRules, |privateRules|, id) ::
               exists i :: 0 <= i < |entries| && entries[i].id == id) ==>
            forall t | Collides(d, byId, attachments, x, t) :: Meets(agent, publicRules, entries, |entries|, 0, t)
  {
    hide *;
    forall t
      ensures Meets(agent, publicRules, entries, |entries|, 0, t) ==> Collides(d, byId, attachments, x, t)
      ensures (forall id | Dialable(d, agent, privateRules, |privateRules|, id) ::
                 exists i :: 0 <= i < |entries| && entries[i].id == id) ==>
              Collides(d, byId, attachments, x, t) ==> Meets(agent, publicRules, entries, |entries|, 0, t)
    {
      MeetsIsCollides(d, byId, attachments, x, agent, publicRules, privateRules, entries, t);
    }
  }

  ghost predicate Found(d: Directory, byId: map<Uuid, Rule>, attachments: seq<Attachment>, agents: seq<Agent>,
                        n: nat, t: Triple)
    requires n <= |agents|
  {
    exists k | 0 <= k < n :: Collides(d, byId, attachments, agents[k], t)
  }

  lemma FoundStep(d: Directory, byId: map<Uuid, Rule>, attachments: seq<Attachment>, agents: seq<Agent>, n: nat)
    requires n < |agents|
    ensures forall t :: Found(d, byId, attachments, agents, n + 1, t) <==>
              Found(d, byId, attachments, agents, n, t) || Collides(d, byId, attachments, agents[n], t)
  {
    hide Collides;
  }

  method EffectiveRules(byAgent: map<Uuid, seq<Rule>>, byEnvironment: map<Uuid, seq<Rule>>, agent: Uuid, x: Agent,
                        ghost byId: map<Uuid, Rule>, ghost attachments: seq<Attachment>)
    returns (effective: seq<Rule>)
    requires Grouped(byAgent, byId, attachments, |attachments|, AgentTarget)
    requires Grouped(byEnvironment, byId, attachments, |attachments|, EnvironmentTarget)
    requires IsAgent(x, agent)
    ensures forall q :: q in effective <==> Holds(byId, attachments, x, q)
  {
    hide Holds, ParseUuid, RulesUnder;
    effective := Lookup(byAgent, agent);
    var environment := ParseUuid(x.environmentId);
    if environment.Some? {
      effective := effective + Lookup(byEnvironment, environment.value);
    }
    forall q
      ensures q in effective <==> Holds(byId, attachments, x, q)
    {
      EffectiveExact(byId, attachments, x, q);
    }
  }

  method MapRules(rules: seq<Rule>) returns (byId: map<Uuid, Rule>)
    ensures byId == RulesById(rules, |rules|)
  {
    byId := map[];
    for i := 0 to |rules|
      invariant byId == RulesById(rules, i)
    {
      byId := byId[rules[i].id := rules[i]];
    }
  }

  /** The report never repeats a triple and never invents one; when every lookup succeeds, it
      holds every collision of every listed agent. The resource cache and the set of keys seen
      do not show. */
  method CollectInterceptCollisions(d: Directory, env: Env, rules: seq<Rule>, attachments: seq<Attachment>)
    returns (report: seq<Triple>)
    requires d.Agrees()
    ensures NoRepeats(report)
    ensures forall t | HasTriple(report, t) ::
      exists x :: Listed(d, RulesById(rules, |rules|), attachments, x) && Collides(d, RulesById(rules, |rules|), attachments, x, t)
    ensures PeersWork(env) ==>
      forall x, t | Listed(d, RulesById(rules, |rules|), attachments, x) && Collides(d, RulesById(rules, |rules|), attachments, x, t) ::
        HasTriple(report, t)
  {
    if |attachments| == 0 {
      return [];
    }
    var byId := MapRules(rules);
    var byAgent, byEnvironment, organizations := GroupRules(byId, attachments);
    var agents := ListAgents(d, env, organizations);
    report := ReportAgents(d, env, byId, attachments, byAgent, byEnvironment, agents);
    ListedAgents(d, env, byId, attachments, agents);
    hide Collides, NoRepeats, HasTriple, Listed, RulesById;
  }

  lemma ListedAgents(d: Directory, env: Env, byId: map<Uuid, Rule>, attachments: seq<Attachment>, agents: seq<Agent>)
    requires forall x | x in agents :: exists o | o in OrganizationsOf(byId, attachments, |attachments|) :: d.Lists(o, x)
    ensures forall k | 0 <= k < |agents| :: Listed(d, byId, attachments, agents[k])
    ensures (forall o, x | o in OrganizationsOf(byId, attachments, |attachments|) && d.Lists(o, x) :: x in agents) ==>
              forall x | Listed(d, byId, attachments, x) :: exists k :: 0 <= k < |agents| && agents[k] == x
  {
    forall k | 0 <= k < |agents|
      ensures Listed(d, byId, attachments, agents[k])
    {
      assert agents[k] in agents;
      var o :| o in OrganizationsOf(byId, attachments, |attachments|) && d.Lists(o, agents[k]);
    }
  }

  method ReportAgents(d: Directory, env: Env, byId: map<Uuid, Rule>, attachments: seq<Attachment>,
                      byAgent: map<Uuid, seq<Rule>>, byEnvironment: map<Uuid, seq<Rule>>, agents: seq<Agent>)
    returns (report: seq<Triple>)
    requires d.Agrees()
    requires Grouped(byAgent, byId, attachments, |attachments|, AgentTarget)
    requires Grouped(byEnvironment, byId, attachments, |attachments|, EnvironmentTarget)
    ensures NoRepeats(report)
    ensures forall t | HasTriple(report, t) :: Found(d, byId, attachments, agents, |agents|, t)
    ensures PeersWork(env) ==> forall t | Found(d, byId, attachments, agents, |agents|, t) :: HasTriple(report, t)
  {
    hide Seen, NoRepeats, Found, Grouped, Meets, Holds, Collides, Dialable, ParseUuid;
    report := [];
    var seen: set<string>, cache: map<string, View> := {}, map[];
    NothingYet(d, byId, attachments, agents);
    for k := 0 to |agents|
      invariant Seen(seen, report) && NoRepeats(report) && CacheSound(d, cache)
      invariant forall t | HasTriple(report, t) :: Found(d, byId, attachments, agents, k, t)
      invariant PeersWork(env) ==> forall t | Found(d, byId, attachments, agents, k, t) :: HasTriple(report, t)
    {
      FoundStep(d, byId, attachments, agents, k);
      var id := ParseUuid(agents[k].id);
      if id.None? {
        NoAgent(d, byId, attachments, agents[k]);
        continue;
      }
      var effective := EffectiveRules(byAgent, byEnvironment, id.value, agents[k], byId, attachments);
      var publicRules, privateRules := SplitRules(effective);
      if |publicRules| == 0 {
        NoPublicRule(d, byId, attachments, agents[k]);
        continue;
      }
      var entries;
      entries, cache := ReachableResources(d, env, id.value, privateRules, cache);
      seen, report := ReportAgent(id.value, publicRules, entries, seen, report);
      OneAgent(d, byId, attachments, agents[k], id.value, publicRules, privateRules, entries);
    }
  }

  lemma NothingYet(d: Directory, byId: map<Uuid, Rule>, attachments: seq<Attachment>, agents: seq<Agent>)
    ensures Seen({}, []) && NoRepeats([])
    ensures forall t :: !Found(d, byId, attachments, agents, 0, t)
  {
  }

  lemma NoAgent(d: Directory, byId: map<Uuid, Rule>, attachments: seq<Attachment>, x: Agent)
    requires ParseUuid(x.id).None?
    ensures forall t :: !Collides(d, byId, attachments, x, t)
  {
    hide ParseUuid;
  }

  lemma NoPublicRule(d: Directory, byId: map<Uuid, Rule>, attachments: seq<Attachment>, x: Agent)
    requires forall q | Holds(byId, attachments, x, q) :: q.IsPrivate()
    ensures forall t :: !Collides(d, byId, attachments, x, t)
  {
    hide ParseUuid, Holds;
  }
}
