/** The database and OpenZiti as one handler or one pass sees them: every statement and call
    is one atomic step, others may step in between, and any of them may fail. */
module Platforms {
  import opened Wrappers
  import opened Ordering
  import opened Text
  import opened Uuids
  import opened Rules
  import opened Naming
  import opened Configs
  import opened Tables
  import opened Fabric
  import opened Worlds
  import T = Tables
  import F = Fabric

  datatype Outcome = Done | LostRequest | LostReply

  /** Quiet: nobody else runs and nothing fails. Faulty: nobody else runs, but any statement and
      any OpenZiti call may fail, before or after it took effect; `store` and `ziti` list what
      becomes of each, and `peers` says whether calls to other services may fail. Shared: any
      finite run of legal steps by others may happen before each step, anything may fail, and
      the context is cancelled after at most `deadline` more pages of a listing. */
  datatype Env =
    | Quiet
    | Faulty(store: seq<Outcome>, ziti: seq<Outcome>, peers: bool)
    | Shared(deadline: nat)

  function Scripted(script: seq<Outcome>, k: nat): Outcome {
    if k < |script| then script[k] else Done
  }

  /** What becomes of the k-th statement, and of the k-th OpenZiti call. */
  function StoreOutcome(env: Env, k: nat): Outcome {
    if env.Faulty? then Scripted(env.store, k) else Done
  }

  function ZitiOutcome(env: Env, k: nat): Outcome {
    if env.Faulty? then Scripted(env.ziti, k) else Done
  }

  /** The insert is the given statement, the read-back the next one: the insert takes effect, and
      its own answer or the read-back is lost. */
  predicate LosesAnswer(env: Env, insert: nat) {
    || StoreOutcome(env, insert) == LostReply
    || (StoreOutcome(env, insert) == Done && StoreOutcome(env, insert + 1) != Done)
  }

  predicate StoreWorks(env: Env) {
    env.Quiet? || (env.Faulty? && env.store == [])
  }

  predicate PeersWork(env: Env) {
    env.Quiet? || (env.Faulty? && !env.peers)
  }

  predicate Working(env: Env) {
    StoreWorks(env) && PeersWork(env)
  }

  /** Whether a call to another service fails. */
  method PeerFails(env: Env) returns (failed: bool)
    ensures PeersWork(env) ==> !failed
  {
    failed := false;
    if !PeersWork(env) {
      failed := *;
    }
  }

  datatype Error =
    | InvalidArgument | PermissionDenied | FailedPrecondition | NotFound | Internal
    | RuleNotFound | AttachmentNotFound | AlreadyExists | RuleHasAttachments | ZitiNotFound | ResourceNotFound

  /** How a store error is answered. */
  function StatusOf(e: Error): Error {
    match e
    case RuleNotFound => NotFound
    case AttachmentNotFound => NotFound
    case AlreadyExists => AlreadyExists
    case RuleHasAttachments => FailedPrecondition
    case _ => Internal
  }

  const PAGE_SIZE: nat := 100

  /** Everything known of an earlier world carries over. */
  ghost predicate Follows(w: World, v: World) {
    && Sound(v)
    && Evolves(w, v)
    && forall u | Evolves(u, w) :: Evolves(u, v)
  }

  lemma FollowsFrom(w: World, v: World)
    requires Sound(v) && Evolves(w, v)
    ensures Follows(w, v)
  {
    forall u | Evolves(u, w)
      ensures Evolves(u, v)
    {
      EvolvesTransitive(u, w, v);
    }
  }

  lemma FollowsFacts(w: World, v: World)
    requires Follows(w, v)
    ensures Sound(v) && Evolves(w, v)
    ensures PrivateIffEmpty(w.tables.rules) ==> PrivateIffEmpty(v.tables.rules)
  {
  }

  lemma FollowsTransitive(u: World, v: World, w: World)
    requires Follows(u, v) && Follows(v, w)
    ensures Follows(u, w)
  {
  }

  lemma EvolvesSelf(w: World)
    ensures Evolves(w, w)
  {
  }

  /** What a mutating step does to the world: alone, it takes effect unless the request is lost,
      and it answers only if nothing is lost. */
  ghost predicate Performs(env: Env, o: Outcome, w: World, v: World, next: World, ok: bool) {
    && Follows(w, v)
    && (!env.Shared? ==> v == (if o == LostRequest then w else next) && (ok ==> o == Done))
  }

  function WithTables(w: World, t: Tables): World {
    World(t, w.fabric)
  }

  function WithFabric(w: World, f: Fabric): World {
    World(w.tables, f)
  }

  ghost predicate Observes(env: Env, w: World, v: World) {
    && Follows(w, v)
    && (!env.Shared? ==> v == w)
  }

  class Platform {
    ghost const initial: World
    var world: World
    /** How many mutating steps were issued through this object, and how many statements and
        OpenZiti calls of any kind. */
    var writes: nat
    var statements: nat
    var calls: nat

    ghost predicate Valid()
      reads this`world
    {
      Sound(initial) && Sound(world) && Reaches(initial, world)
    }

    constructor (start: World)
      requires Sound(start)
      ensures Valid() && world == start && initial == start
      ensures writes == 0 && statements == 0 && calls == 0
    {
      initial, world, writes, statements, calls := start, start, 0, 0, 0;
      new;
      ReachesSelf(start);
    }

    /** Others run: any finite sequence of legal steps. The body is the run in which nobody does
        anything; callers may rely on no more than what holds of every run. */
    method Interfere(env: Env)
      requires Valid()
      modifies this`world
      ensures Valid() && Observes(env, old(world), world)
      ensures env.Shared? ==> Reaches(old(world), world)
    {
      ReachesSelf(world);
      EvolvesSelf(world);
      FollowsFrom(world, world);
    }

    /** What becomes of a step: as planned, or anything while others run. */
    method Roll(env: Env, planned: Outcome) returns (o: Outcome)
      ensures !env.Shared? ==> o == planned
    {
      o := planned;
      if env.Shared? {
        o := *;
      }
    }

    /** The world takes one legal step. */
    method Take(a: Action)
      requires Valid() && Legal(world, a)
      modifies this`world
      ensures Valid() && world == Apply(old(world), a) && Follows(old(world), world)
    {
      StepSound(world, a);
      ReachesStep(world, a);
      ReachesTransitive(initial, world, Apply(world, a));
      FollowsFrom(world, Apply(world, a));
      world := Apply(world, a);
    }

    /** One atomic step, possibly after others ran, possibly failing. */
    method Step(env: Env, a: Action, planned: Outcome) returns (o: Outcome, before: World)
      requires Valid() && Legal(world, a)
      modifies this`world, this`writes
      ensures Valid() && Performs(env, planned, old(world), world, Apply(old(world), a), o == Done)
      ensures writes == old(writes) + 1
      ensures Observes(env, old(world), before)
      ensures world == if o == LostRequest then before else Apply(before, a)
      ensures !env.Shared? ==> o == planned
    {
      var start := world;
      Interfere(env);
      GuardStable(start, world, a);
      before := world;
      writes := writes + 1;
      o := Roll(env, planned);
      if o != LostRequest {
        Take(a);
        FollowsTransitive(start, before, world);
      }
    }

    /** One atomic read, possibly after others ran, possibly failing. */
    method Look(env: Env, planned: Outcome) returns (ok: bool)
      requires Valid()
      modifies this`world
      ensures Valid() && Observes(env, old(world), world)
      ensures !env.Shared? ==> (ok <==> planned == Done)
    {
      Interfere(env);
      var o := Roll(env, planned);
      ok := o == Done;
    }

    // ----- statements ----------------------------------------------------------------

    method CreateRule(env: Env, rule: Rule) returns (r: Result<(), Error>)
      requires Valid() && Legal(world, DoInsertRule(rule))
      modifies this`world, this`writes, this`statements
      ensures statements == old(statements) + 1
      ensures Valid() && Performs(env, StoreOutcome(env, old(statements)), old(world), world,
        WithTables(old(world), T.InsertRule(old(world).tables, rule)), r.Ok?)
      ensures r.Ok? ==> rule.id in world.tables.rules && world.tables.rules[rule.id] == rule
      ensures !env.Shared? ==> (r.Ok? <==> StoreOutcome(env, old(statements)) == Done && AcceptsRule(old(world).tables, rule))
    {
      var o, before := Step(env, DoInsertRule(rule), StoreOutcome(env, statements));
      statements := statements + 1;
      if o != Done {
        return Err(Internal);
      }
      return if AcceptsRule(before.tables, rule) then Ok(()) else Err(AlreadyExists);
    }

    method UpdateRule(env: Env, rule: Rule) returns (r: Result<(), Error>)
      requires Valid() && Legal(world, DoUpdateRule(rule))
      modifies this`world, this`writes, this`statements
      ensures statements == old(statements) + 1
      ensures Valid() && Performs(env, StoreOutcome(env, old(statements)), old(world), world,
        WithTables(old(world), T.UpdateRule(old(world).tables, rule)), r.Ok?)
      ensures !env.Shared? ==> (r.Ok? <==> StoreOutcome(env, old(statements)) == Done && rule.id in old(world).tables.rules)
    {
      var o, before := Step(env, DoUpdateRule(rule), StoreOutcome(env, statements));
      statements := statements + 1;
      if o != Done {
        return Err(Internal);
      }
      return if rule.id in before.tables.rules then Ok(()) else Err(RuleNotFound);
    }

    method UpdateRuleServiceId(env: Env, ruleId: Uuid, serviceId: ZitiId) returns (r: Result<(), Error>)
      requires Valid() && Legal(world, DoSetServiceId(ruleId, serviceId))
      modifies this`world, this`writes, this`statements
      ensures statements == old(statements) + 1
      ensures Valid() && Performs(env, StoreOutcome(env, old(statements)), old(world), world,
        WithTables(old(world), T.SetServiceId(old(world).tables, ruleId, serviceId)), r.Ok?)
      ensures writes == old(writes) + 1
      ensures !env.Shared? ==> (r.Ok? <==> StoreOutcome(env, old(statements)) == Done && ruleId in old(world).tables.rules)
    {
      var o, before := Step(env, DoSetServiceId(ruleId, serviceId), StoreOutcome(env, statements));
      statements := statements + 1;
      if o != Done {
        return Err(Internal);
      }
      return if ruleId in before.tables.rules then Ok(()) else Err(RuleNotFound);
    }

    method DeleteRule(env: Env, ruleId: Uuid) returns (r: Result<(), Error>)
      requires Valid()
      modifies this`world, this`writes, this`statements
      ensures statements == old(statements) + 1
      ensures Valid() && Performs(env, StoreOutcome(env, old(statements)), old(world), world,
        WithTables(old(world), T.DeleteRule(old(world).tables, ruleId)), r.Ok?)
      ensures r.Ok? ==> ruleId !in world.tables.rules
      ensures !env.Shared? ==>
        (r.Ok? <==> StoreOutcome(env, old(statements)) == Done && ruleId in old(world).tables.rules &&
                    !HasAttachments(old(world).tables, ruleId))
    {
      var o, before := Step(env, DoDeleteRule(ruleId), StoreOutcome(env, statements));
      statements := statements + 1;
      if o != Done {
        return Err(Internal);
      }
      if HasAttachments(before.tables, ruleId) {
        return Err(RuleHasAttachments);
      }
      return if ruleId in before.tables.rules then Ok(()) else Err(RuleNotFound);
    }

    method CreateAttachment(env: Env, a: Attachment) returns (r: Result<(), Error>)
      requires Valid() && Legal(world, DoInsertAttachment(a))
      modifies this`world, this`writes, this`statements
      ensures statements == old(statements) + 1
      ensures Valid() && Performs(env, StoreOutcome(env, old(statements)), old(world), world,
        WithTables(old(world), T.InsertAttachment(old(world).tables, a)), r.Ok?)
      ensures r.Ok? ==> a.id in world.tables.attachments && world.tables.attachments[a.id] == a
      ensures !env.Shared? ==>
        (r.Ok? <==> StoreOutcome(env, old(statements)) == Done && AcceptsAttachment(old(world).tables, a))
      ensures r == Err(AlreadyExists) ==> Duplicates(world.tables, a)
      ensures !env.Shared? && StoreOutcome(env, old(statements)) == Done && r.Err? ==>
        r.error == if Duplicates(old(world).tables, a) then AlreadyExists else Internal
    {
      var o, before := Step(env, DoInsertAttachment(a), StoreOutcome(env, statements));
      statements := statements + 1;
      if o != Done {
        return Err(Internal);
      }
      if AcceptsAttachment(before.tables, a) {
        return Ok(());
      }
      return Err(if Duplicates(before.tables, a) then AlreadyExists else Internal);
    }

    method UpdateAttachmentPolicyId(env: Env, attachmentId: Uuid, policyId: ZitiId) returns (r: Result<(), Error>)
      requires Valid() && Legal(world, DoSetPolicyId(attachmentId, policyId))
      modifies this`world, this`writes, this`statements
      ensures statements == old(statements) + 1
      ensures Valid() && Performs(env, StoreOutcome(env, old(statements)), old(world), world,
        WithTables(old(world), T.SetPolicyId(old(world).tables, attachmentId, policyId)), r.Ok?)
      ensures writes == old(writes) + 1
      ensures !env.Shared? ==>
        (r.Ok? <==> StoreOutcome(env, old(statements)) == Done && attachmentId in old(world).tables.attachments)
    {
      var o, before := Step(env, DoSetPolicyId(attachmentId, policyId), StoreOutcome(env, statements));
      statements := statements + 1;
      if o != Done {
        return Err(Internal);
      }
      return if attachmentId in before.tables.attachments then Ok(()) else Err(AttachmentNotFound);
    }

    method DeleteAttachment(env: Env, attachmentId: Uuid) returns (r: Result<(), Error>)
      requires Valid()
      modifies this`world, this`writes, this`statements
      ensures statements == old(statements) + 1
      ensures Valid() && Performs(env, StoreOutcome(env, old(statements)), old(world), world,
        WithTables(old(world), T.DeleteAttachment(old(world).tables, attachmentId)), r.Ok?)
      ensures !env.Shared? ==>
        (r.Ok? <==> StoreOutcome(env, old(statements)) == Done && attachmentId in old(world).tables.attachments)
    {
      var o, before := Step(env, DoDeleteAttachment(attachmentId), StoreOutcome(env, statements));
      statements := statements + 1;
      if o != Done {
        return Err(Internal);
      }
      return if attachmentId in before.tables.attachments then Ok(()) else Err(AttachmentNotFound);
    }

    method GetRule(env: Env, ruleId: Uuid) returns (r: Result<Rule, Error>)
      requires Valid()
      modifies this`world, this`statements
      ensures statements == old(statements) + 1
      ensures Valid() && Observes(env, old(world), world)
      ensures r.Ok? ==> ruleId in world.tables.rules && r.value == world.tables.rules[ruleId]
      ensures !env.Shared? ==> (r.Ok? <==> StoreOutcome(env, old(statements)) == Done && ruleId in old(world).tables.rules)
      ensures !env.Shared? && StoreOutcome(env, old(statements)) == Done && r.Err? ==> r.error == RuleNotFound
    {
      var ok := Look(env, StoreOutcome(env, statements));
      statements := statements + 1;
      if !ok {
        return Err(Internal);
      }
      return if ruleId in world.tables.rules then Ok(world.tables.rules[ruleId]) else Err(RuleNotFound);
    }

    method GetAttachment(env: Env, attachmentId: Uuid) returns (r: Result<Attachment, Error>)
      requires Valid()
      modifies this`world, this`statements
      ensures statements == old(statements) + 1
      ensures Valid() && Observes(env, old(world), world)
      ensures r.Ok? ==> attachmentId in world.tables.attachments && r.value == world.tables.attachments[attachmentId]
      ensures !env.Shared? ==>
        (r.Ok? <==> StoreOutcome(env, old(statements)) == Done && attachmentId in old(world).tables.attachments)
      ensures !env.Shared? && StoreOutcome(env, old(statements)) == Done && r.Err? ==> r.error == AttachmentNotFound
    {
      var ok := Look(env, StoreOutcome(env, statements));
      statements := statements + 1;
      if !ok {
        return Err(Internal);
      }
      return
        if attachmentId in world.tables.attachments then Ok(world.tables.attachments[attachmentId])
        else Err(AttachmentNotFound);
    }

    /** Whether the rule is already attached to the target. */
    method FindAttachment(env: Env, ruleId: Uuid, target: Target) returns (r: Result<bool, Error>)
      requires Valid()
      modifies this`world, this`statements
      ensures statements == old(statements) + 1
      ensures Valid() && Observes(env, old(world), world)
      ensures r.Ok? ==> (r.value <==> IsAttached(world.tables, ruleId, target))
      ensures !env.Shared? ==> (r.Ok? <==> StoreOutcome(env, old(statements)) == Done)
    {
      var ok := Look(env, StoreOutcome(env, statements));
      statements := statements + 1;
      if !ok {
        return Err(Internal);
      }
      return Ok(IsAttached(world.tables, ruleId, target));
    }

    method CountAttachmentsByRule(env: Env, ruleId: Uuid) returns (r: Result<nat, Error>)
      requires Valid()
      modifies this`world, this`statements
      ensures statements == old(statements) + 1
      ensures Valid() && Observes(env, old(world), world)
      ensures r.Ok? ==> (r.value > 0 <==> HasAttachments(world.tables, ruleId))
      ensures !env.Shared? ==> (r.Ok? <==> StoreOutcome(env, old(statements)) == Done)
    {
      var ok := Look(env, StoreOutcome(env, statements));
      statements := statements + 1;
      if !ok {
        return Err(Internal);
      }
      CountPositive(world.tables, ruleId);
      return Ok(|AttachmentsOf(world.tables, ruleId)|);
    }

    method ListAllRules(env: Env) returns (r: Result<seq<Rule>, Error>)
      requires Valid()
      modifies this`world, this`statements
      ensures statements == old(statements) + 1
      ensures Valid() && Observes(env, old(world), world)
      ensures r.Ok? ==> r.value == RuleRows(world.tables)
      ensures !env.Shared? ==> (r.Ok? <==> StoreOutcome(env, old(statements)) == Done)
    {
      var ok := Look(env, StoreOutcome(env, statements));
      statements := statements + 1;
      return if ok then Ok(RuleRows(world.tables)) else Err(Internal);
    }

    method ListAllAttachments(env: Env) returns (r: Result<seq<Attachment>, Error>)
      requires Valid()
      modifies this`world, this`statements
      ensures statements == old(statements) + 1
      ensures Valid() && Observes(env, old(world), world)
      ensures r.Ok? ==> r.value == AttachmentRows(world.tables)
      ensures !env.Shared? ==> (r.Ok? <==> StoreOutcome(env, old(statements)) == Done)
    {
      var ok := Look(env, StoreOutcome(env, statements));
      statements := statements + 1;
      return if ok then Ok(AttachmentRows(world.tables)) else Err(Internal);
    }

    /** The rules attached to a target, joined and ordered by rule id. */
    method ListRulesOfTarget(env: Env, target: Target) returns (r: Result<seq<Rule>, Error>)
      requires Valid()
      modifies this`world, this`statements
      ensures statements == old(statements) + 1
      ensures Valid() && Observes(env, old(world), world)
      ensures r.Ok? ==> r.value == TargetRows(world.tables, target)
      ensures !env.Shared? ==> (r.Ok? <==> StoreOutcome(env, old(statements)) == Done)
    {
      var ok := Look(env, StoreOutcome(env, statements));
      statements := statements + 1;
      return if ok then Ok(TargetRows(world.tables, target)) else Err(Internal);
    }

    method CountRulesReferencingPrivateResource(env: Env, resourceId: Uuid) returns (r: Result<nat, Error>)
      requires Valid()
      modifies this`world, this`statements
      ensures statements == old(statements) + 1
      ensures Valid() && Observes(env, old(world), world)
      ensures r.Ok? ==> r.value == |RulesNaming(world.tables, resourceId)|
      ensures !env.Shared? ==> (r.Ok? <==> StoreOutcome(env, old(statements)) == Done)
    {
      var ok := Look(env, StoreOutcome(env, statements));
      statements := statements + 1;
      return if ok then Ok(|RulesNaming(world.tables, resourceId)|) else Err(Internal);
    }

    // ----- OpenZiti calls --------------------------------------------------------------

    /** CreateService with return_existing: the holder of the name, new or old. */
    method CreateService(env: Env, ruleId: Uuid, matcher: Matcher) returns (r: Result<ZitiId, Error>)
      requires Valid()
      modifies this`world, this`writes, this`calls
      ensures calls == old(calls) + 1
      ensures Valid() && Performs(env, ZitiOutcome(env, old(calls)), old(world), world,
        WithFabric(old(world), F.CreateService(old(world).fabric, RuleService(ruleId, matcher))), r.Ok?)
      ensures r.Ok? ==> OwnsService(world.fabric, r.value, ruleId)
      ensures !env.Shared? ==> (r.Ok? <==> ZitiOutcome(env, old(calls)) == Done)
      ensures !env.Shared? && r.Ok? ==> r.value == CreatedServiceId(old(world).fabric, RuleService(ruleId, matcher))
    {
      var o, before := Step(env, DoCreateService(ruleId, matcher), ZitiOutcome(env, calls));
      calls := calls + 1;
      if o != Done {
        return Err(Internal);
      }
      ServiceIssued(before.fabric, RuleService(ruleId, matcher));
      return Ok(CreatedServiceId(before.fabric, RuleService(ruleId, matcher)));
    }

    method GetService(env: Env, id: ZitiId) returns (r: Result<Service, Error>)
      requires Valid()
      modifies this`world, this`calls
      ensures calls == old(calls) + 1
      ensures Valid() && Observes(env, old(world), world)
      ensures r.Ok? ==> id in world.fabric.services && r.value == world.fabric.services[id]
      ensures r == Err(ZitiNotFound) ==> id !in world.fabric.services
      ensures !env.Shared? && ZitiOutcome(env, old(calls)) == Done ==>
        r == if id in old(world).fabric.services then Ok(old(world).fabric.services[id]) else Err(ZitiNotFound)
    {
      var ok := Look(env, ZitiOutcome(env, calls));
      calls := calls + 1;
      if !ok {
        return Err(Internal);
      }
      return if id in world.fabric.services then Ok(world.fabric.services[id]) else Err(ZitiNotFound);
    }

    method UpdateService(env: Env, id: ZitiId, intercept: Intercept) returns (r: Result<ZitiId, Error>)
      requires Valid()
      modifies this`world, this`writes, this`calls
      ensures calls == old(calls) + 1
      ensures Valid() && Performs(env, ZitiOutcome(env, old(calls)), old(world), world,
        WithFabric(old(world), F.UpdateService(old(world).fabric, id, intercept)), r.Ok?)
      ensures r.Ok? ==> r.value == id
      ensures !env.Shared? && r.Ok? ==> id in old(world).fabric.services
      ensures !env.Shared? ==> (r.Ok? <==> ZitiOutcome(env, old(calls)) == Done && id in old(world).fabric.services)
    {
      var o, before := Step(env, DoUpdateService(id, intercept), ZitiOutcome(env, calls));
      calls := calls + 1;
      if o != Done {
        return Err(Internal);
      }
      return if id in before.fabric.services then Ok(id) else Err(ZitiNotFound);
    }

    method DeleteService(env: Env, id: ZitiId) returns (r: Result<(), Error>)
      requires Valid()
      modifies this`world, this`writes, this`calls
      ensures calls == old(calls) + 1
      ensures Valid() && Performs(env, ZitiOutcome(env, old(calls)), old(world), world,
        WithFabric(old(world), F.DeleteService(old(world).fabric, id)), r.Ok?)
      ensures writes == old(writes) + 1
      ensures r.Ok? ==> id !in world.fabric.services
      ensures !env.Shared? ==> (r.Ok? <==> ZitiOutcome(env, old(calls)) == Done && id in old(world).fabric.services)
    {
      var o, before := Step(env, DoDeleteService(id), ZitiOutcome(env, calls));
      calls := calls + 1;
      if o != Done {
        return Err(Internal);
      }
      return if id in before.fabric.services then Ok(()) else Err(ZitiNotFound);
    }

    /** CreateServicePolicy: with return_existing the holder of the name, else an error if taken. */
    method CreatePolicy(env: Env, ruleId: Uuid, target: Target, serviceRole: Selector, returnExisting: bool)
      returns (r: Result<ZitiId, Error>)
      requires Valid()
      modifies this`world, this`writes, this`calls
      ensures calls == old(calls) + 1
      ensures Valid() && Performs(env, ZitiOutcome(env, old(calls)), old(world), world,
        WithFabric(old(world), F.CreatePolicy(old(world).fabric, DialPolicy(ruleId, target, serviceRole))), r.Ok?)
      ensures r.Ok? ==> OwnsPolicy(world.fabric, r.value, ruleId, target)
      ensures !env.Shared? && r.Ok? ==>
        r.value == CreatedPolicyId(old(world).fabric, DialPolicy(ruleId, target, serviceRole))
      ensures !env.Shared? ==>
        (r.Ok? <==> ZitiOutcome(env, old(calls)) == Done &&
                    (returnExisting || PolicyNamed(old(world).fabric, DialPolicyName(ruleId, target)).None?))
    {
      var o, before := Step(env, DoCreatePolicy(ruleId, target, serviceRole), ZitiOutcome(env, calls));
      calls := calls + 1;
      if o != Done {
        return Err(Internal);
      }
      if !returnExisting && PolicyNamed(before.fabric, DialPolicyName(ruleId, target)).Some? {
        return Err(AlreadyExists);
      }
      PolicyIssued(before.fabric, DialPolicy(ruleId, target, serviceRole));
      return Ok(CreatedPolicyId(before.fabric, DialPolicy(ruleId, target, serviceRole)));
    }

    method GetPolicy(env: Env, id: ZitiId) returns (r: Result<Policy, Error>)
      requires Valid()
      modifies this`world, this`calls
      ensures calls == old(calls) + 1
      ensures Valid() && Observes(env, old(world), world)
      ensures r.Ok? ==> id in world.fabric.policies && r.value == world.fabric.policies[id]
      ensures r == Err(ZitiNotFound) ==> id !in world.fabric.policies
      ensures !env.Shared? && ZitiOutcome(env, old(calls)) == Done ==>
        r == if id in old(world).fabric.policies then Ok(old(world).fabric.policies[id]) else Err(ZitiNotFound)
    {
      var ok := Look(env, ZitiOutcome(env, calls));
      calls := calls + 1;
      if !ok {
        return Err(Internal);
      }
      return if id in world.fabric.policies then Ok(world.fabric.policies[id]) else Err(ZitiNotFound);
    }

    method DeletePolicy(env: Env, id: ZitiId) returns (r: Result<(), Error>)
      requires Valid()
      modifies this`world, this`writes, this`calls
      ensures calls == old(calls) + 1
      ensures Valid() && Performs(env, ZitiOutcome(env, old(calls)), old(world), world,
        WithFabric(old(world), F.DeletePolicy(old(world).fabric, id)), r.Ok?)
      ensures writes == old(writes) + 1
      ensures r.Ok? ==> id !in world.fabric.policies
      ensures !env.Shared? ==> (r.Ok? <==> ZitiOutcome(env, old(calls)) == Done && id in old(world).fabric.policies)
    {
      var o, before := Step(env, DoDeletePolicy(id), ZitiOutcome(env, calls));
      calls := calls + 1;
      if o != Done {
        return Err(Internal);
      }
      return if id in before.fabric.policies then Ok(()) else Err(ZitiNotFound);
    }

    /** One page of the services with the managed prefix and role, above the token. */
    method ListServices(env: Env, token: ZitiId) returns (r: Result<Listing, Error>)
      requires Valid()
      modifies this`world, this`calls
      ensures calls == old(calls) + 1
      ensures Valid() && Observes(env, old(world), world)
      ensures r.Ok? ==> IsPage(ListedServices(world.fabric, token), r.value.ids, r.value.next)
      ensures r.Ok? ==> |r.value.names| == |r.value.ids|
      ensures r.Ok? ==>
        forall i | 0 <= i < |r.value.ids| :: r.value.names[i] == world.fabric.services[r.value.ids[i]].name
      ensures !env.Shared? ==> (r.Ok? <==> ZitiOutcome(env, old(calls)) == Done)
    {
      var ok := Look(env, ZitiOutcome(env, calls));
      calls := calls + 1;
      if !ok {
        return Err(Internal);
      }
      var f := world.fabric;
      var (page, next) := FirstPage(ListedServices(f, token));
      return Ok(Listing(page, seq(|page|, i requires 0 <= i < |page| => f.services[page[i]].name), next));
    }

    method ListPolicies(env: Env, token: ZitiId) returns (r: Result<Listing, Error>)
      requires Valid()
      modifies this`world, this`calls
      ensures calls == old(calls) + 1
      ensures Valid() && Observes(env, old(world), world)
      ensures r.Ok? ==> IsPage(ListedPolicies(world.fabric, token), r.value.ids, r.value.next)
      ensures r.Ok? ==> |r.value.names| == |r.value.ids|
      ensures r.Ok? ==>
        forall i | 0 <= i < |r.value.ids| :: r.value.names[i] == world.fabric.policies[r.value.ids[i]].name
      ensures !env.Shared? ==> (r.Ok? <==> ZitiOutcome(env, old(calls)) == Done)
    {
      var ok := Look(env, ZitiOutcome(env, calls));
      calls := calls + 1;
      if !ok {
        return Err(Internal);
      }
      var f := world.fabric;
      var (page, next) := FirstPage(ListedPolicies(f, token));
      return Ok(Listing(page, seq(|page|, i requires 0 <= i < |page| => f.policies[page[i]].name), next));
    }
  }

  datatype Listing = Listing(ids: seq<ZitiId>, names: seq<string>, next: ZitiId)

  function AttachmentsOf(t: Tables, ruleId: Uuid): set<Uuid> {
    set a | a in t.attachments && t.attachments[a].ruleId == ruleId
  }

  lemma CountPositive(t: Tables, ruleId: Uuid)
    ensures |AttachmentsOf(t, ruleId)| > 0 <==> HasAttachments(t, ruleId)
  {
    if HasAttachments(t, ruleId) {
      var a :| a in t.attachments && t.attachments[a].ruleId == ruleId;
      assert a in AttachmentsOf(t, ruleId);
    }
  }

  /** What the sweep asks the listing for; the policy listing has no suffix filter. */
  function ListedServices(f: Fabric, token: ZitiId): set<ZitiId> {
    set id | id in f.services && id > token && SweepsServiceName(f.services[id].name) && SERVICE_ROLE in f.services[id].roles
  }

  function ListedPolicies(f: Fabric, token: ZitiId): set<ZitiId> {
    set id | id in f.policies && id > token && HasPrefix(f.policies[id].name, NAME_PREFIX) && f.policies[id].kind == Dial
  }

  /** A page of a listing with a stable key cursor: ascending ids; what is left for later lies
      above the token handed out, and no token means nothing is left. */
  ghost predicate IsPage(listed: set<ZitiId>, page: seq<ZitiId>, next: ZitiId) {
    && (forall i, j | 0 <= i < j < |page| :: page[i] < page[j])
    && (forall i | 0 <= i < |page| :: page[i] in listed)
    && (next != NO_ID ==> page != [] && next == page[|page| - 1])
    && (forall id | id in listed && (next == NO_ID || id <= next) :: id in page)
  }

  function FirstPage(listed: set<ZitiId>): (r: (seq<ZitiId>, ZitiId))
    requires 0 !in listed
    ensures IsPage(listed, r.0, r.1)
  {
    PageExact(listed, PAGE_SIZE);
    var page := Page(listed, PAGE_SIZE);
    assert forall i | 0 <= i < |page| :: page[i] in page;
    assert forall id :: id in page <==> id in Elements(page);
    (page, if |Ascending(listed)| <= PAGE_SIZE then NO_ID else page[PAGE_SIZE - 1])
  }

  predicate IsAttached(t: Tables, ruleId: Uuid, target: Target) {
    exists a | a in t.attachments :: t.attachments[a].ruleId == ruleId && t.attachments[a].FindTarget() == Some(target)
  }

  lemma ServiceIssued(f: Fabric, service: Service)
    requires FabricSound(f)
    ensures var g, id := CreateService(f, service), CreatedServiceId(f, service);
            0 < id < g.next && id in g.services && g.services[id].name == service.name
  {
  }

  lemma PolicyIssued(f: Fabric, policy: Policy)
    requires FabricSound(f)
    ensures var g, id := CreatePolicy(f, policy), CreatedPolicyId(f, policy);
            0 < id < g.next && id in g.policies && g.policies[id].name == policy.name
  {
  }
}
