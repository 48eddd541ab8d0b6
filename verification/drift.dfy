/** When an update strands its service, that it happens, and that no pass repairs it. */
module Drift {
  import opened Wrappers
  import opened Text
  import opened Uuids
  import opened Rules
  import opened Naming
  import opened Configs
  import opened Tables
  import opened Fabric
  import opened Worlds
  import opened Passes
  import opened Convergence
  import opened Theorems
  import opened Addresses
  import opened Patterns
  import opened Validation
  import opened Platforms
  import opened Agreement
  import opened PrivateTargets
  import opened RuleHandlers
  import opened SinglePass
  import opened Runs

  // ----- the exact condition --------------------------------------------------------------------

  /** What a caller can see before the update: it replaces the matcher of a public rule by one
      that intercepts differently, and the rule's stored service is live. */
  predicate CanStrand(w: World, rule: Rule, req: UpdateRequest) {
    && Amended(rule, req).Some?
    && MovesService(rule, Amended(rule, req).value, req)
    && rule.serviceId in w.fabric.services
  }

  /** The move takes effect and either its answer or the statement after it is lost. */
  predicate LosesRow(env: Env, statement: nat, call: nat) {
    || ZitiOutcome(env, call) == LostReply
    || (ZitiOutcome(env, call) == Done && StoreOutcome(env, statement) == LostRequest)
  }

  ghost predicate Agreeing(w: World, rule: Rule) {
    && Sound(w) && InterceptsAgree(w)
    && rule.id in w.tables.rules && w.tables.rules[rule.id] == rule && CanonicalRule(rule)
  }

  lemma MovedDrifts(w: World, rule: Rule, req: UpdateRequest)
    requires Agreeing(w, rule) && CanStrand(w, rule, req)
    ensures Drifts(w, World(w.tables, MovedFabric(w.fabric, rule, Amended(rule, req).value, req)))
  {
    RuleFacts(w, rule.id);
    hide Sound, ServiceName, InterceptOf, Amended, CanonicalRule;
    var v := World(w.tables, MovedFabric(w.fabric, rule, Amended(rule, req).value, req));
    var id := rule.serviceId;
    assert id in v.fabric.services && v.fabric.services[id].intercept != w.fabric.services[id].intercept;
  }

  lemma UnmovedKeeps(w: World, v: World, rule: Rule, req: UpdateRequest)
    requires Agreeing(w, rule) && Amended(rule, req).Some? && !CanStrand(w, rule, req)
    requires UpdateLeaves(w, v, rule, Amended(rule, req).value, req)
    ensures !Drifts(w, v)
  {
    hide Sound, ServiceName, InterceptOf, Amended, CanonicalRule;
    assert v.fabric == w.fabric;
  }

  /** An update can end in disagreement exactly if it can strand the service. */
  lemma UpdateCanDrift(w: World, rule: Rule, req: UpdateRequest)
    requires Agreeing(w, rule) && Amended(rule, req).Some?
    ensures (exists v :: UpdateLeaves(w, v, rule, Amended(rule, req).value, req) && !InterceptsAgree(v)) <==>
            CanStrand(w, rule, req)
  {
    hide Sound, InterceptsAgree, Amended, CanonicalRule, Drifts, MovedFabric, MovesService;
    forall v | UpdateLeaves(w, v, rule, Amended(rule, req).value, req)
      ensures InterceptsAgree(v) <==> !Drifts(w, v)
      ensures !CanStrand(w, rule, req) ==> !Drifts(w, v)
    {
      UpdateKeepsIntercepts(w, v, rule, req);
      if !CanStrand(w, rule, req) {
        UnmovedKeeps(w, v, rule, req);
      }
    }
    if CanStrand(w, rule, req) {
      MovedDrifts(w, rule, req);
      assert UpdateLeaves(w, World(w.tables, MovedFabric(w.fabric, rule, Amended(rule, req).value, req)), rule,
                          Amended(rule, req).value, req);
    }
  }

  /** With what becomes of its call and its statement given, the update ends in disagreement
      exactly if it can strand the service and loses the row after the move. */
  lemma DriftExact(env: Env, statement: nat, call: nat, w: World, rule: Rule, req: UpdateRequest)
    requires Agreeing(w, rule) && Amended(rule, req).Some?
    ensures !InterceptsAgree(UpdateEnd(env, statement, call, w, rule, Amended(rule, req).value, req)) <==>
            CanStrand(w, rule, req) && LosesRow(env, statement, call)
  {
    hide Sound, InterceptsAgree, Amended, CanonicalRule, Drifts, MovedFabric, UpdateLeaves, MovesService;
    var updated := Amended(rule, req).value;
    var v := UpdateEnd(env, statement, call, w, rule, updated, req);
    UpdateEndLeaves(env, statement, call, w, rule, updated, req);
    NoDrift(w);
    AmendedKeeps(rule, req);
    WrittenDoesNotDrift(w, rule, updated, req);
    if v != w {
      UpdateKeepsIntercepts(w, v, rule, req);
    }
    if CanStrand(w, rule, req) {
      MovedDrifts(w, rule, req);
    } else if v != w {
      UnmovedKeeps(w, v, rule, req);
    }
  }

  // ----- it happens, and stays --------------------------------------------------------------------

  /** The handler itself strands the service of every rule it can, when the row's statement is lost. */
  method UpdateWithLostRow(p: Platform, n: Networks, secrets: map<Uuid, Uuid>, ruleId: Uuid, req: UpdateRequest)
    returns (r: Result<Rule, Error>)
    requires p.Valid() && PrivateIffEmpty(p.world.tables.rules) && InterceptsAgree(p.world)
    requires UpdateTaken(p.world, secrets, n.catalog, true, ruleId, req)
    requires CanonicalRule(p.world.tables.rules[ruleId]) && CanStrand(p.world, p.world.tables.rules[ruleId], req)
    modifies p
    ensures r.Err? && p.world.tables == old(p.world).tables && !InterceptsAgree(p.world)
  {
    hide Sound, InterceptsAgree, CanonicalRule, Amended, UpdateAdmissible, UpdateLeaves, MovedFabric, MovesService;
    ghost var start := p.world;
    RowsKnown(start);
    var store := seq(p.statements + 1, i => Done) + [LostRequest];
    var env := Faulty(store, [], false);
    DriftExact(env, p.statements + 1, p.calls, start, start.tables.rules[ruleId], req);
    r := UpdateEgressRule(p, n, env, secrets, true, ruleId, req);
    AmendedKeeps(start.tables.rules[ruleId], req);
    MoveChangesRow(start.tables, start.tables.rules[ruleId], Amended(start.tables.rules[ruleId], req).value, req);
  }

  lemma MoveChangesRow(t: Tables, rule: Rule, updated: Rule, req: UpdateRequest)
    requires rule.id in t.rules && t.rules[rule.id] == rule && updated.id == rule.id && MovesService(rule, updated, req)
    ensures UpdateRule(t, updated) != t
  {
    assert UpdateRule(t, updated).rules[rule.id].matcher != t.rules[rule.id].matcher;
  }

  /** A settled public rule whose service intercepts something else. */
  ghost predicate Disagrees(w: World, r: Uuid) {
    && RuleSettled(w, r) && !w.tables.rules[r].IsPrivate()
    && w.fabric.services[w.tables.rules[r].serviceId].intercept != InterceptOf(w.tables.rules[r].matcher)
  }

  /** Passes leave a disagreement exactly as it is, however many there are. */
  lemma {:induction false} PassesKeepDisagreement(w: World, r: Uuid, n: nat)
    requires Sound(w) && Disagrees(w, r)
    ensures Disagrees(Repeat(w, n), r) && !InterceptsAgree(Repeat(w, n))
    decreases n
  {
    hide Sound, Pass, ServiceName;
    if n > 0 {
      OnePass(w);
      PassKeepsService(w, r);
      PassesKeepDisagreement(Pass(w), r, n - 1);
    }
  }

  // ----- a run from an empty installation ------------------------------------------------------------

  function Named(letter: char): Matcher {
    Matcher([letter], [443], [], "", "")
  }

  const MOVED_RULE: Rule := Rule(1, 0, "", "", Named('a'), Effect(Some(ACTION_ALLOW), []), None, 1)
  const REQUEST: UpdateRequest := UpdateRequest(None, None, Some(Named('b')), None, None)

  const SETTLED: World :=
    World(Tables(map[1 := MOVED_RULE], map[], {1}), Fabric(map[1 := RuleService(1, Named('a'))], map[], 2))

  /** The service was moved, the row was not written. */
  const STRANDED: World :=
    World(Tables(map[1 := MOVED_RULE], map[], {1}), Fabric(map[1 := RuleService(1, Named('b'))], map[], 2))

  lemma LetterCanonical(letter: char)
    requires 'a' <= letter <= 'z'
    ensures CanonicalMatcher(Named(letter))
  {
    assert Trim([letter]) == [letter];
    assert ToLower([letter]) == [letter];
    assert ParseAddress([letter]).None? && ParseCidr([letter]).None?;
  }

  lemma NamedRuleCanonical(letter: char)
    requires 'a' <= letter <= 'z'
    ensures CanonicalRule(MOVED_RULE.(matcher := Named(letter)))
  {
    hide CanonicalMatcher, Named;
    LetterCanonical(letter);
  }

  lemma RuleIsCanonical()
    ensures CanonicalRule(MOVED_RULE)
    ensures Amended(MOVED_RULE, REQUEST) == Some(MOVED_RULE.(matcher := Named('b')))
  {
    hide CanonicalRule, CanonicalMatcher, NormalMatcher, NormalEffect, NormalTls, IsNoopEffect, ParseUuid, UuidText;
    NamedRuleCanonical('a');
    NamedRuleCanonical('b');
    CanonicalRevalidates(MOVED_RULE.(matcher := Named('b')));
    assert Trim("") == "";
  }

  lemma StrandedReached()
    ensures Reaches(EMPTY_WORLD, SETTLED) && Reaches(EMPTY_WORLD, STRANDED)
  {
    hide ServiceName, Reaches, InterceptOf;
    var w1 := World(EMPTY_WORLD.tables, SETTLED.fabric);
    ReachesSelf(EMPTY_WORLD);
    StepTo(EMPTY_WORLD, EMPTY_WORLD, DoCreateService(1, Named('a')), w1);
    StepTo(EMPTY_WORLD, w1, DoInsertRule(MOVED_RULE), SETTLED);
    assert UpdateService(SETTLED.fabric, 1, InterceptOf(Named('b'))) == STRANDED.fabric;
    StepTo(EMPTY_WORLD, SETTLED, DoUpdateService(1, InterceptOf(Named('b'))), STRANDED);
  }

  lemma RequestStrands()
    ensures InterceptsAgree(SETTLED)
    ensures CanStrand(SETTLED, MOVED_RULE, REQUEST)
    ensures UpdateLeaves(SETTLED, STRANDED, MOVED_RULE, Amended(MOVED_RULE, REQUEST).value, REQUEST)
  {
    hide CanonicalRule, ServiceName, InterceptOf, Amended;
    RuleIsCanonical();
    InterceptOfInjective(Named('a'), Named('b'));
    assert UpdateService(SETTLED.fabric, 1, InterceptOf(Named('b'))) == STRANDED.fabric;
  }

  lemma StrandedDisagrees()
    ensures Disagrees(STRANDED, 1)
  {
    hide ServiceName, InterceptOf;
    InterceptOfInjective(Named('a'), Named('b'));
  }

  /** A reachable world, a canonical rule and a request that strands its service; no number of
      passes brings the two together again. */
  lemma DriftHappens(n: nat)
    ensures Reaches(EMPTY_WORLD, SETTLED) && InterceptsAgree(SETTLED) && CanonicalRule(MOVED_RULE)
    ensures CanStrand(SETTLED, MOVED_RULE, REQUEST)
    ensures Reaches(EMPTY_WORLD, STRANDED)
    ensures UpdateLeaves(SETTLED, STRANDED, MOVED_RULE, Amended(MOVED_RULE, REQUEST).value, REQUEST)
    ensures !InterceptsAgree(Repeat(STRANDED, n))
  {
    hide Sound, Reaches, CanonicalRule, Amended, Repeat, CanStrand, UpdateLeaves, InterceptsAgree, Disagrees;
    StrandedReached();
    EmptyWorldSound();
    ReachesSound(EMPTY_WORLD, STRANDED);
    RuleIsCanonical();
    RequestStrands();
    StrandedDisagrees();
    PassesKeepDisagreement(STRANDED, 1, n);
  }
}
