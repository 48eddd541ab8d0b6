/** The handlers that attach rules to targets and detach them. */
module AttachmentHandlers {
  import opened Wrappers
  import opened Uuids
  import opened Rules
  import opened Naming
  import opened Configs
  import opened Tables
  import opened Fabric
  import opened Worlds
  import opened Passes
  import opened Convergence
  import opened Theorems
  import opened Admission
  import opened Platforms
  import opened Provisioning
  import opened Reconciler
  import opened Agreement
  import opened Collisions
  import opened FastFail

  /** The row a successful attach stores once the rule's service is settled. */
  function NewRow(w: World, ruleId: Uuid, target: Target, attachmentId: Uuid): Attachment
    requires ruleId in w.tables.rules
  {
    AttachmentFor(attachmentId, ruleId, target, CreatedPolicyId(w.fabric, NewPolicy(w, ruleId, target)))
  }

  function NewPolicy(w: World, ruleId: Uuid, target: Target): Policy
    requires ruleId in w.tables.rules
  {
    DialPolicy(ruleId, target, ServiceRole(w.tables.rules[ruleId]))
  }

  /** A successful attach: settle the rule as a pass would, adopt or create the policy, insert. */
  function AttachedWorld(w: World, ruleId: Uuid, target: Target, attachmentId: Uuid): World {
    var u := ReconcileRule(w, ruleId);
    if ruleId !in u.tables.rules then u
    else
      World(InsertAttachment(u.tables, NewRow(u, ruleId, target, attachmentId)),
            CreatePolicy(u.fabric, NewPolicy(u, ruleId, target)))
  }

  /** Every attachment stored before is still stored, and if its policy was live, that policy is
      live and as it was. */
  ghost predicate AttachmentsKept(w: World, v: World) {
    forall a | a in w.tables.attachments ::
      && a in v.tables.attachments && v.tables.attachments[a] == w.tables.attachments[a]
      && var id := w.tables.attachments[a].policyId;
         id in w.fabric.policies ==> id in v.fabric.policies && v.fabric.policies[id] == w.fabric.policies[id]
  }

  /** Beside settling the rule, an attach adds at most its own row. */
  ghost predicate AttachLeaves(w: World, v: World, ruleId: Uuid, target: Target, attachmentId: Uuid) {
    && RulesSteady(w, v)
    && AttachmentsKept(w, v)
    && v.tables.attachments.Keys <= w.tables.attachments.Keys + {attachmentId}
    && (attachmentId in v.tables.attachments && attachmentId !in w.tables.attachments ==>
          v.tables.attachments[attachmentId].ruleId == ruleId && v.tables.attachments[attachmentId].FindTarget() == Some(target))
    && v.tables.used <= w.tables.used + {attachmentId}
  }

  // ----- what a failed attach spares ------------------------------------------------------

  /** The policy of a target that is not attached is nobody's stored policy. */
  lemma CleanupSpares(w: World, id: ZitiId, ruleId: Uuid, target: Target)
    requires Sound(w) && OwnsPolicy(w.fabric, id, ruleId, target) && !IsAttached(w.tables, ruleId, target)
    ensures id in w.fabric.policies ==> forall a | a in w.tables.attachments :: w.tables.attachments[a].policyId != id
  {
    if id in w.fabric.policies {
      forall a | a in w.tables.attachments
        ensures w.tables.attachments[a].policyId != id
      {
        AttachmentFacts(w, a);
        var b := w.tables.attachments[a];
        if b.policyId == id {
          DialPolicyNameInjective(b.ruleId, b.TheTarget(), ruleId, target);
        }
      }
    }
  }

  /** Some attachment that was stored with its policy live has lost that policy. */
  ghost predicate Costs(w: World, v: World) {
    exists a | a in w.tables.attachments :: PolicyLive(w, a) && !PolicyLive(v, a)
  }

  /** Somebody else's row binds the same rule to the same target, with its policy live. */
  ghost predicate LiveTwin(w: World, row: Attachment) {
    exists a | a in w.tables.attachments :: SameBinding(row, w.tables.attachments[a]) && PolicyLive(w, a)
  }

  /** Names are injective: an attachment with a live policy holds the row's policy exactly if it is
      the row's twin. */
  lemma TwinHoldsPolicy(w: World, row: Attachment, a: Uuid)
    requires Sound(w) && Legal(w, DoInsertAttachment(row)) && row.policyId in w.fabric.policies
    requires PolicyLive(w, a)
    ensures w.tables.attachments[a].policyId == row.policyId <==> SameBinding(row, w.tables.attachments[a])
  {
    AttachmentFacts(w, a);
    hide Sound, DialPolicyName;
    var b := w.tables.attachments[a];
    if b.policyId == row.policyId {
      DialPolicyNameInjective(b.ruleId, b.TheTarget(), row.ruleId, row.TheTarget());
    }
  }

  /** Deleting the policy of a row costs a stored attachment its own exactly if the row has a
      twin with a live policy. */
  lemma CleanupExact(w: World, row: Attachment)
    requires Sound(w) && Legal(w, DoInsertAttachment(row)) && row.policyId in w.fabric.policies
    ensures Costs(w, Apply(w, DoDeletePolicy(row.policyId))) <==> LiveTwin(w, row)
  {
    hide Sound, SameBinding, Legal;
    forall a | PolicyLive(w, a)
      ensures !PolicyLive(Apply(w, DoDeletePolicy(row.policyId)), a) <==> SameBinding(row, w.tables.attachments[a])
    {
      TwinHoldsPolicy(w, row, a);
    }
  }

  /** Where an insert and the cleanup after its failure end, by what becomes of the statement and
      of the call. */
  function InsertEnd(env: Env, statement: nat, call: nat, w: World, row: Attachment): World {
    var t := if StoreOutcome(env, statement) == LostRequest then w.tables else InsertAttachment(w.tables, row);
    if StoreOutcome(env, statement) == Done && AcceptsAttachment(w.tables, row) then World(t, w.fabric)
    else World(t, if ZitiOutcome(env, call) == LostRequest then w.fabric else DeletePolicy(w.fabric, row.policyId))
  }

  /** What an attach costs others is decided by OpenZiti alone. */
  lemma CostsByFabric(w: World, row: Attachment, f: Fabric)
    requires row.id !in w.tables.attachments
    ensures Costs(w, World(InsertAttachment(w.tables, row), f)) <==> Costs(w, World(w.tables, f))
  {
    hide AcceptsAttachment;
    assert forall a | a in w.tables.attachments ::
      PolicyLive(World(InsertAttachment(w.tables, row), f), a) <==> PolicyLive(World(w.tables, f), a);
  }

  lemma CostsNobody(w: World, id: ZitiId)
    ensures !Costs(w, w)
    ensures id !in w.fabric.policies ==> DeletePolicy(w.fabric, id) == w.fabric
    ensures World(w.tables, DeletePolicy(w.fabric, id)) == Apply(w, DoDeletePolicy(id))
  {
    if id !in w.fabric.policies {
      assert DeletePolicy(w.fabric, id).policies == w.fabric.policies;
    }
  }

  lemma TwinTaken(w: World, row: Attachment)
    ensures LiveTwin(w, row) ==> Duplicates(w.tables, row) && !AcceptsAttachment(w.tables, row)
  {
    hide SameBinding;
  }

  /** The race condition of an attach, exactly: inserting a fresh row and cleaning up costs a stored
      attachment its live policy if and only if the row's binding is stored, with its policy and
      the row's live, when the insert is refused, and the cleanup's request arrives. Then the
      refusal is a unique violation; a refusal on any other ground costs nobody. */
  lemma CleanupAfterInsert(env: Env, statement: nat, call: nat, w: World, row: Attachment)
    requires Sound(w) && Legal(w, DoInsertAttachment(row)) && row.id !in w.tables.used
    ensures Costs(w, InsertEnd(env, statement, call, w, row)) <==>
      row.policyId in w.fabric.policies && ZitiOutcome(env, call) != LostRequest && LiveTwin(w, row)
    ensures Costs(w, InsertEnd(env, statement, call, w, row)) ==> Duplicates(w.tables, row)
  {
    hide Sound, Legal, SameBinding, Apply, InsertAttachment, AcceptsAttachment, Duplicates, Costs, LiveTwin, DeletePolicy;
    hide StoreOutcome, ZitiOutcome;
    RowsKnown(w);
    CostsNobody(w, row.policyId);
    TwinTaken(w, row);
    CostsByFabric(w, row, w.fabric);
    CostsByFabric(w, row, DeletePolicy(w.fabric, row.policyId));
    assert World(w.tables, w.fabric) == w;
    if row.policyId in w.fabric.policies {
      CleanupExact(w, row);
    }
  }

  /** A row for an unattached target under a fresh id is accepted. */
  lemma NewRowAccepted(w: World, ruleId: Uuid, target: Target, attachmentId: Uuid, policyId: ZitiId)
    requires Sound(w) && ruleId in w.tables.rules && !IsAttached(w.tables, ruleId, target) && attachmentId !in w.tables.used
    ensures AcceptsAttachment(w.tables, AttachmentFor(attachmentId, ruleId, target, policyId))
    ensures attachmentId !in w.tables.attachments
    ensures attachmentId in InsertAttachment(w.tables, AttachmentFor(attachmentId, ruleId, target, policyId)).attachments
  {
    var row := AttachmentFor(attachmentId, ruleId, target, policyId);
    forall a | a in w.tables.attachments
      ensures !SameBinding(row, w.tables.attachments[a])
    {
      assert SameBinding(row, w.tables.attachments[a]) ==> w.tables.attachments[a].FindTarget() == Some(target);
    }
  }

  lemma InsertGuardRow(w: World, ruleId: Uuid, target: Target, attachmentId: Uuid, id: ZitiId)
    requires OwnsPolicy(w.fabric, id, ruleId, target)
    ensures Legal(w, DoInsertAttachment(AttachmentFor(attachmentId, ruleId, target, id)))
  {
  }

  /** Nobody's live policy is lost. */
  ghost predicate PoliciesKept(w: World, f: Fabric) {
    && f.services == w.fabric.services
    && forall a | a in w.tables.attachments ::
         var id := w.tables.attachments[a].policyId;
         id in w.fabric.policies ==> id in f.policies && f.policies[id] == w.fabric.policies[id]
  }

  /** Creating the policy of an unattached target, and deleting it again, keeps everybody else's. */
  lemma PolicyStepsKeep(w: World, ruleId: Uuid, target: Target, serviceRole: Selector)
    requires Sound(w) && !IsAttached(w.tables, ruleId, target)
    ensures var policy := DialPolicy(ruleId, target, serviceRole);
            && PoliciesKept(w, w.fabric)
            && PoliciesKept(w, CreatePolicy(w.fabric, policy))
            && PoliciesKept(w, DeletePolicy(CreatePolicy(w.fabric, policy), CreatedPolicyId(w.fabric, policy)))
            && 0 < CreatedPolicyId(w.fabric, policy)
  {
    hide Sound, DialPolicyName, CreatePolicy, CreatedPolicyId, FabricSound, FabricEvolves, IsAttached, Evolves, Legal;
    var policy := DialPolicy(ruleId, target, serviceRole);
    var f, id := CreatePolicy(w.fabric, policy), CreatedPolicyId(w.fabric, policy);
    ObjectsKnown(w);
    CreatedPolicyExact(w.fabric, policy);
    PolicyIssued(w.fabric, policy);
    CreateAlwaysLegal(w, ruleId, target, serviceRole);
    CleanupSpares(World(w.tables, f), id, ruleId, target);
  }

  lemma CreateAlwaysLegal(w: World, ruleId: Uuid, target: Target, serviceRole: Selector)
    requires Sound(w)
    ensures Sound(World(w.tables, CreatePolicy(w.fabric, DialPolicy(ruleId, target, serviceRole))))
  {
    hide Sound, CreatePolicy, DialPolicy, Evolves;
    StepSound(w, DoCreatePolicy(ruleId, target, serviceRole));
  }

  /** With nobody's live policy lost, the row may be there or not. */
  lemma StoreShape(w: World, f: Fabric, ruleId: Uuid, target: Target, attachmentId: Uuid, policyId: ZitiId)
    requires PoliciesKept(w, f) && attachmentId !in w.tables.attachments
    ensures AttachLeaves(w, World(w.tables, f), ruleId, target, attachmentId)
    ensures var t := InsertAttachment(w.tables, AttachmentFor(attachmentId, ruleId, target, policyId));
            AttachLeaves(w, World(t, f), ruleId, target, attachmentId)
  {
  }

  // ----- attach ------------------------------------------------------------------------------

  /** Inserts the row, and if that fails for any reason deletes the policy provisioned for it. */
  method InsertOrCleanUp(p: Platform, env: Env, row: Attachment) returns (r: Result<(), Error>)
    requires p.Valid() && Legal(p.world, DoInsertAttachment(row))
    modifies p
    ensures p.Valid() && Follows(old(p.world), p.world)
    ensures !env.Shared? ==> p.world == InsertEnd(env, old(p.statements), old(p.calls), old(p.world), row)
    ensures !env.Shared? ==>
      (r.Ok? <==> StoreOutcome(env, old(p.statements)) == Done && AcceptsAttachment(old(p.world).tables, row))
    ensures !env.Shared? && StoreOutcome(env, old(p.statements)) == Done && ZitiOutcome(env, old(p.calls)) == Done &&
            row.policyId in old(p.world).fabric.policies && r.Err? ==>
      r.error == if Duplicates(old(p.world).tables, row) then AlreadyExists else Internal
    ensures r.Ok? ==> row.id in p.world.tables.attachments && p.world.tables.attachments[row.id] == row
    ensures r.Ok? ==> p.statements == old(p.statements) + 1
  {
    hide Sound, Evolves, Reaches, Follows, AcceptsAttachment, Duplicates, InsertAttachment, DeletePolicy, DialPolicyName;
    ghost var start := p.world;
    var inserted := p.CreateAttachment(env, row);
    ghost var after := p.world;
    if inserted.Err? {
      InsertedFabric(start, row);
      var cleaned := DeleteAttachmentPolicy(p, env, row.policyId);
      FollowsTransitive(start, after, p.world);
      return Err(if cleaned.Err? then cleaned.error else StatusOf(inserted.error));
    }
    return Ok(());
  }

  lemma InsertedFabric(w: World, row: Attachment)
    requires Legal(w, DoInsertAttachment(row))
    ensures row.policyId != NO_ID
  {
  }

  /** Where the storing part of an attach ends: the call that creates the policy is the given one, the
      insert the given statement, the cleanup the next call. */
  function AttachEnd(env: Env, statement: nat, call: nat, w: World, ruleId: Uuid, target: Target, attachmentId: Uuid): World
    requires ruleId in w.tables.rules
  {
    var provisioned := WithFabric(w, CreatePolicy(w.fabric, NewPolicy(w, ruleId, target)));
    match ZitiOutcome(env, call)
    case LostRequest => w
    case LostReply => provisioned
    case Done => InsertEnd(env, statement, call + 1, provisioned, NewRow(w, ruleId, target, attachmentId))
  }

  /** A live policy bears the name. */
  ghost predicate HasPolicy(f: Fabric, name: string) {
    exists id | id in f.policies :: f.policies[id].name == name
  }

  /** Exactly what it leaves: the row if its statement arrived, a policy of its name unless that was
      created or found and cleaned up again, and every other policy as it was. */
  lemma AttachRemains(env: Env, statement: nat, call: nat, w: World, ruleId: Uuid, target: Target, attachmentId: Uuid)
    requires Sound(w) && ruleId in w.tables.rules && !IsAttached(w.tables, ruleId, target) && attachmentId !in w.tables.used
    ensures var v, name := AttachEnd(env, statement, call, w, ruleId, target, attachmentId), DialPolicyName(ruleId, target);
            && (attachmentId in v.tables.attachments <==>
                  ZitiOutcome(env, call) == Done && StoreOutcome(env, statement) != LostRequest)
            && (HasPolicy(v.fabric, name) <==>
                  match ZitiOutcome(env, call)
                  case LostRequest => HasPolicy(w.fabric, name)
                  case LostReply => true
                  case Done => StoreOutcome(env, statement) == Done || ZitiOutcome(env, call + 1) == LostRequest)
            && (forall id | id in w.fabric.policies && w.fabric.policies[id].name != name ::
                  id in v.fabric.policies && v.fabric.policies[id] == w.fabric.policies[id])
  {
    hide Sound, DialPolicyName, CreatePolicy, CreatedPolicyId, FabricSound, FabricEvolves, IsAttached, AcceptsAttachment;
    hide StoreOutcome, ZitiOutcome, ServiceRole, IdentityRole, SweepsPolicyName;
    var policy := NewPolicy(w, ruleId, target);
    ObjectsKnown(w);
    RowsKnown(w);
    CreatedPolicyExact(w.fabric, policy);
    NewRowAccepted(w, ruleId, target, attachmentId, CreatedPolicyId(w.fabric, policy));
    CreatePolicySound(w.fabric, policy);
    OneBearer(CreatePolicy(w.fabric, policy), CreatedPolicyId(w.fabric, policy));
  }

  lemma OneBearer(f: Fabric, id: ZitiId)
    requires FabricSound(f) && id in f.policies
    ensures HasPolicy(f, f.policies[id].name) && !HasPolicy(DeletePolicy(f, id), f.policies[id].name)
  {
  }

  /** Provision the policy, insert the row, clean up if that failed, read back. */
  method StoreAttachment(p: Platform, env: Env, rule: Rule, target: Target, attachmentId: Uuid)
    returns (r: Result<Attachment, Error>)
    requires p.Valid()
    requires !env.Shared? ==>
      && rule.id in p.world.tables.rules && p.world.tables.rules[rule.id] == rule
      && !IsAttached(p.world.tables, rule.id, target) && attachmentId !in p.world.tables.used
    modifies p
    ensures p.Valid() && Follows(old(p.world), p.world)
    ensures !env.Shared? ==>
      p.world == AttachEnd(env, old(p.statements), old(p.calls), old(p.world), rule.id, target, attachmentId)
    ensures !env.Shared? ==> AttachLeaves(old(p.world), p.world, rule.id, target, attachmentId)
    ensures r.Ok? ==> attachmentId in p.world.tables.attachments && p.world.tables.attachments[attachmentId] == r.value
    ensures !env.Shared? && r.Ok? ==>
      && r.value == NewRow(old(p.world), rule.id, target, attachmentId)
      && p.world == World(InsertAttachment(old(p.world).tables, r.value),
                          CreatePolicy(old(p.world).fabric, NewPolicy(old(p.world), rule.id, target)))
    ensures env.Quiet? ==> r.Ok?
    ensures !env.Shared? ==> (r.Err? && attachmentId in p.world.tables.attachments <==>
      (ZitiOutcome(env, old(p.calls)) == Done && LosesAnswer(env, old(p.statements))))
  {
    hide Sound, Evolves, Reaches, Follows, Legal, DialPolicyName, CreatePolicy, CreatedPolicyId, IsAttached, AttachLeaves;
    hide PoliciesKept, InsertAttachment, OwnsPolicy, DeletePolicy, AcceptsAttachment;
    ghost var start := p.world;
    ghost var policy := DialPolicy(rule.id, target, ServiceRole(rule));
    ghost var id := CreatedPolicyId(start.fabric, policy);
    RowsKnown(start);
    if !env.Shared? {
      PolicyStepsKeep(start, rule.id, target, ServiceRole(rule));
      NewRowAccepted(start, rule.id, target, attachmentId, id);
      StoreShape(start, start.fabric, rule.id, target, attachmentId, id);
      StoreShape(start, CreatePolicy(start.fabric, policy), rule.id, target, attachmentId, id);
      StoreShape(start, DeletePolicy(CreatePolicy(start.fabric, policy), id), rule.id, target, attachmentId, id);
    }
    var created := p.CreatePolicy(env, rule.id, target, ServiceRole(rule), true);
    ghost var mid := p.world;
    if created.Err? {
      return Err(created.error);
    }
    var row := AttachmentFor(attachmentId, rule.id, target, created.value);
    InsertGuardRow(mid, rule.id, target, attachmentId, created.value);
    var inserted := InsertOrCleanUp(p, env, row);
    ghost var after := p.world;
    FollowsTransitive(start, mid, after);
    if inserted.Err? {
      return Err(inserted.error);
    }
    r := p.GetAttachment(env, attachmentId);
    FollowsTransitive(start, after, p.world);
    if r.Err? {
      return Err(StatusOf(r.error));
    }
  }

  /** An error with the row stored does happen: when the read-back is lost. */
  method StoreWithLostReadBack(p: Platform, rule: Rule, target: Target, attachmentId: Uuid)
    returns (r: Result<Attachment, Error>)
    requires p.Valid() && rule.id in p.world.tables.rules && p.world.tables.rules[rule.id] == rule
    requires !IsAttached(p.world.tables, rule.id, target) && attachmentId !in p.world.tables.used
    modifies p
    ensures r.Err? && attachmentId in p.world.tables.attachments
  {
    hide Sound, Evolves, Reaches, Follows, AttachLeaves, IsAttached, NewRow, NewPolicy, CreatePolicy, InsertAttachment;
    var store := seq(p.statements + 1, i => Done) + [LostRequest];
    r := StoreAttachment(p, Faulty(store, [], false), rule, target, attachmentId);
  }

  /** What the handler checks before it writes anything. */
  ghost predicate AttachAdmissible(d: Directory, w: World, ruleId: Uuid, target: Target, allowed: bool) {
    && allowed && ruleId in w.tables.rules
    && !IsAttached(w.tables, ruleId, target)
    && !RejectsIn(d, w, w.tables.rules[ruleId], target)
  }

  /** Why an attach is refused. */
  ghost function AttachRefusal(w: World, ruleId: Uuid, target: Target, allowed: bool): Error {
    if ruleId !in w.tables.rules then NotFound
    else if !allowed then PermissionDenied
    else if IsAttached(w.tables, ruleId, target) then AlreadyExists
    else FailedPrecondition
  }

  method AdmitAttach(p: Platform, env: Env, d: Directory, allowed: bool, ruleId: Uuid, target: Target)
    returns (r: Result<Rule, Error>, ghost listed: World)
    requires p.Valid()
    modifies p
    ensures p.Valid() && Follows(old(p.world), p.world) && (!env.Shared? ==> p.world == old(p.world))
    ensures p.statements >= old(p.statements)
    ensures r.Ok? ==>
      && Sound(listed) && Evolves(listed, p.world)
      && ruleId in listed.tables.rules && listed.tables.rules[ruleId] == r.value && r.value.id == ruleId
    ensures !env.Shared? && r.Ok? ==>
      && allowed && listed == p.world && !IsAttached(p.world.tables, ruleId, target)
    ensures env.Quiet? ==> (r.Ok? <==> AttachAdmissible(d, old(p.world), ruleId, target, allowed))
    ensures env.Quiet? && r.Err? ==> r.error == AttachRefusal(old(p.world), ruleId, target, allowed)
  {
    hide Sound, Evolves, Reaches, Follows, RejectsIn, IsAttached;
    ghost var start := p.world;
    var found := p.GetRule(env, ruleId);
    listed := p.world;
    if found.Err? {
      return Err(StatusOf(found.error)), listed;
    }
    if !allowed {
      return Err(PermissionDenied), listed;
    }
    RowsKnown(listed);
    var existing := p.FindAttachment(env, ruleId, target);
    ghost var looked := p.world;
    FollowsTransitive(start, listed, looked);
    if existing.Err? {
      return Err(StatusOf(existing.error)), listed;
    }
    if existing.value {
      return Err(AlreadyExists), listed;
    }
    var checked := RejectInterceptCollision(p, env, d, found.value, target);
    FollowsTransitive(start, looked, p.world);
    FollowsTransitive(listed, looked, p.world);
    FollowsFacts(listed, p.world);
    if checked.Err? {
      return Err(checked.error), listed;
    }
    return Ok(found.value), listed;
  }

  /** After settling the rule, the storing part ended as the fates of its statement and calls say. */
  ghost predicate StoresAttachment(env: Env, w: World, v: World, first: nat, ruleId: Uuid, target: Target, attachmentId: Uuid) {
    exists u, statement: nat, call: nat ::
      && OnlyRules(w, u) && ruleId in u.tables.rules && statement >= first
      && v == AttachEnd(env, statement, call, u, ruleId, target, attachmentId)
  }

  /** Attaches a rule. However it ends, every other attachment keeps its row and its live policy. */
  method CreateEgressRuleAttachment(p: Platform, env: Env, d: Directory, allowed: bool, ruleId: Uuid, target: Target,
                                    attachmentId: Uuid)
    returns (r: Result<Attachment, Error>)
    requires p.Valid()
    requires !env.Shared? ==> attachmentId !in p.world.tables.used
    modifies p
    ensures p.Valid() && Follows(old(p.world), p.world)
    ensures !env.Shared? ==> AttachLeaves(old(p.world), p.world, ruleId, target, attachmentId)
    ensures !env.Shared? && r.Ok? ==>
      && allowed && ruleId in old(p.world).tables.rules && !IsAttached(old(p.world).tables, ruleId, target)
      && p.world == AttachedWorld(old(p.world), ruleId, target, attachmentId)
      && attachmentId in p.world.tables.attachments && r.value == p.world.tables.attachments[attachmentId]
    ensures !env.Shared? && r.Ok? && PolicyNamed(old(p.world).fabric, DialPolicyName(ruleId, target)).None? ==>
      && r.value.policyId in p.world.fabric.policies
      && AdmitsExactly(p.world.fabric.policies[r.value.policyId], target, p.world.tables.rules[ruleId])
      && RuleSettled(p.world, ruleId)
    ensures env.Quiet? ==> (r.Ok? <==> AttachAdmissible(d, old(p.world), ruleId, target, allowed))
    ensures env.Quiet? && r.Err? ==>
      p.world == old(p.world) && r.error == AttachRefusal(old(p.world), ruleId, target, allowed)
    ensures !env.Shared? ==>
      OnlyRules(old(p.world), p.world) ||
      StoresAttachment(env, old(p.world), p.world, old(p.statements), ruleId, target, attachmentId)
    ensures !env.Shared? && r.Err? && attachmentId in p.world.tables.attachments ==>
      exists insert :: old(p.statements) <= insert && LosesAnswer(env, insert)
  {
    hide Sound, Evolves, Reaches, Follows, AttachLeaves, AttachAdmissible, AttachRefusal, IsAttached;
    hide CreatePolicy, CreatedPolicyId, ReconcileRule, Steady, AdmitsExactly, DialPolicyName, RuleSettled;
    ghost var start := p.world;
    if !env.Shared? {
      AttachAdmits(start, ruleId, target, attachmentId);
    }
    var admitted, listed := AdmitAttach(p, env, d, allowed, ruleId, target);
    ghost var seen := p.world;
    NothingLeft(start, ruleId, target, attachmentId);
    if !env.Shared? {
      RowsKnown(start);
    }
    if admitted.Err? {
      return Err(admitted.error);
    }
    var settled := ReconcileOneRule(p, env, admitted.value, listed);
    ghost var mid := p.world;
    FollowsTransitive(start, seen, mid);
    if !env.Shared? {
      SettledLeaves(start, mid, ruleId, target, attachmentId);
    }
    if settled.Err? {
      return Err(settled.error);
    }
    r := StoreAttachment(p, env, settled.value, target, attachmentId);
    FollowsTransitive(start, mid, p.world);
    if !env.Shared? {
      LeavesCompose(start, mid, p.world, ruleId, target, attachmentId);
    }
  }

  lemma NothingLeft(w: World, ruleId: Uuid, target: Target, attachmentId: Uuid)
    ensures AttachLeaves(w, w, ruleId, target, attachmentId) && OnlyRules(w, w)
  {
    SteadySelf(w);
  }

  /** Settling a rule touches neither attachments nor policies. */
  ghost predicate OnlyRules(w: World, v: World) {
    Steady(w, v) && v.tables.attachments == w.tables.attachments && v.fabric.policies == w.fabric.policies
  }

  lemma SettledLeaves(w: World, v: World, ruleId: Uuid, target: Target, attachmentId: Uuid)
    requires OnlyRules(w, v)
    ensures AttachLeaves(w, v, ruleId, target, attachmentId)
    ensures IsAttached(v.tables, ruleId, target) <==> IsAttached(w.tables, ruleId, target)
    ensures v.tables.used == w.tables.used
  {
  }

  lemma LeavesCompose(u: World, v: World, w: World, ruleId: Uuid, target: Target, attachmentId: Uuid)
    requires OnlyRules(u, v) && AttachLeaves(v, w, ruleId, target, attachmentId)
    ensures AttachLeaves(u, w, ruleId, target, attachmentId)
  {
    hide RulesSteady;
    SteadyStep(u, v, w);
  }

  /** A successful attach leaves the rule settled and the new row's policy live; the policy is
      right exactly unless a stale one of the same name was there to be adopted. */
  lemma AttachSettles(w: World, ruleId: Uuid, target: Target, attachmentId: Uuid)
    requires Sound(w) && ruleId in w.tables.rules && !IsAttached(w.tables, ruleId, target) && attachmentId !in w.tables.used
    ensures var v := AttachedWorld(w, ruleId, target, attachmentId);
            && RuleSettled(v, ruleId)
            && attachmentId in v.tables.attachments && PolicyLive(v, attachmentId)
            && v.tables.attachments[attachmentId].OneTarget()
            && (PolicyMatches(v, attachmentId) <==>
                  forall id | id in w.fabric.policies && w.fabric.policies[id].name == DialPolicyName(ruleId, target) ::
                    PolicyMatchesAttachment(w.fabric.policies[id], v.tables.attachments[attachmentId], v.tables.rules[ruleId]))
  {
    ReconcileRuleSettles(w, ruleId);
    ReconcileRuleSound(w, ruleId);
    hide Sound, ReconcileRule;
    var u := ReconcileRule(w, ruleId);
    ProgressRows(w, u, ruleId, target);
    InsertedSettles(u, ruleId, target, attachmentId);
  }

  /** With no live policy of its name before, the new policy admits exactly what runs under the target to
      exactly what the rule is about. */
  lemma AttachAdmits(w: World, ruleId: Uuid, target: Target, attachmentId: Uuid)
    requires Sound(w) && attachmentId !in w.tables.used
    ensures ruleId in w.tables.rules && !IsAttached(w.tables, ruleId, target) &&
            PolicyNamed(w.fabric, DialPolicyName(ruleId, target)).None? ==>
              var v := AttachedWorld(w, ruleId, target, attachmentId);
              && RuleSettled(v, ruleId) && PolicyLive(v, attachmentId)
              && AdmitsExactly(v.fabric.policies[v.tables.attachments[attachmentId].policyId], target, v.tables.rules[ruleId])
  {
    hide Sound, IsAttached, AttachedWorld, DialPolicyName, RuleSettled, AdmitsExactly, PolicyMatchesAttachment;
    hide AlikeRules;
    if ruleId in w.tables.rules && !IsAttached(w.tables, ruleId, target) &&
       PolicyNamed(w.fabric, DialPolicyName(ruleId, target)).None? {
      AttachSettles(w, ruleId, target, attachmentId);
      AttachedRows(w, ruleId, target, attachmentId);
      var v := AttachedWorld(w, ruleId, target, attachmentId);
      var b := v.tables.attachments[attachmentId];
      MatchingAdmits(v.fabric.policies[b.policyId], b, v.tables.rules[b.ruleId]);
    }
  }

  lemma ProgressRows(w: World, u: World, ruleId: Uuid, target: Target)
    requires RulesProgress(w, u)
    ensures u.fabric.policies == w.fabric.policies && u.tables.used == w.tables.used
    ensures IsAttached(u.tables, ruleId, target) <==> IsAttached(w.tables, ruleId, target)
  {
  }

  lemma InsertedSettles(u: World, ruleId: Uuid, target: Target, attachmentId: Uuid)
    requires Sound(u) && RuleSettled(u, ruleId) && !IsAttached(u.tables, ruleId, target) && attachmentId !in u.tables.used
    ensures var row, policy := NewRow(u, ruleId, target, attachmentId), NewPolicy(u, ruleId, target);
            var v := World(InsertAttachment(u.tables, row), CreatePolicy(u.fabric, policy));
            && RuleSettled(v, ruleId)
            && attachmentId in v.tables.attachments && v.tables.attachments[attachmentId] == row
            && v.tables.rules == u.tables.rules
            && PolicyLive(v, attachmentId)
            && (PolicyMatches(v, attachmentId) <==>
                  forall id | id in u.fabric.policies && u.fabric.policies[id].name == DialPolicyName(ruleId, target) ::
                    PolicyMatchesAttachment(u.fabric.policies[id], row, u.tables.rules[ruleId]))
  {
    var row, policy := NewRow(u, ruleId, target, attachmentId), NewPolicy(u, ruleId, target);
    ObjectsKnown(u);
    RowsKnown(u);
    CreatedPolicyExact(u.fabric, policy);
    NewRowAccepted(u, ruleId, target, attachmentId, row.policyId);
    hide Sound, FabricSound, CreatePolicy, CreatedPolicyId, DialPolicyName, AcceptsAttachment, IdentityRole, ServiceRole;
  }

  // ----- what a successful attach adds to the report ------------------------------------------

  lemma ProgressAlike(w: World, u: World)
    requires RulesProgress(w, u)
    ensures AlikeRules(u.tables.rules, w.tables.rules) && u.tables.rules.Keys == w.tables.rules.Keys
    ensures u.tables.attachments == w.tables.attachments && u.tables.used == w.tables.used
  {
    hide FabricEvolves, RuleSettled;
  }

  lemma AttachedRows(w: World, ruleId: Uuid, target: Target, attachmentId: Uuid)
    requires Sound(w) && ruleId in w.tables.rules && !IsAttached(w.tables, ruleId, target) && attachmentId !in w.tables.used
    ensures var v := AttachedWorld(w, ruleId, target, attachmentId);
            && Sound(v) && AlikeRules(v.tables.rules, w.tables.rules)
            && attachmentId !in w.tables.attachments && attachmentId in v.tables.attachments
            && v.tables.attachments == w.tables.attachments[attachmentId := v.tables.attachments[attachmentId]]
            && v.tables.attachments[attachmentId] ==
                 AttachmentFor(attachmentId, ruleId, target, v.tables.attachments[attachmentId].policyId)
  {
    hide Sound, ReconcileRule, IsAttached, CreatePolicy, CreatedPolicyId, AcceptsAttachment, RulesProgress, RuleSettled;
    hide AlikeRules, DialPolicy;
    ReconcileRuleSettles(w, ruleId);
    ReconcileRuleSound(w, ruleId);
    RowsKnown(w);
    var u := ReconcileRule(w, ruleId);
    ProgressRows(w, u, ruleId, target);
    ProgressAlike(w, u);
    NewRowAccepted(u, ruleId, target, attachmentId, NewRow(u, ruleId, target, attachmentId).policyId);
    AttachedSound(u, ruleId, target, attachmentId);
  }

  lemma AttachedSound(u: World, ruleId: Uuid, target: Target, attachmentId: Uuid)
    requires Sound(u) && ruleId in u.tables.rules
    ensures Sound(World(InsertAttachment(u.tables, NewRow(u, ruleId, target, attachmentId)),
                        CreatePolicy(u.fabric, NewPolicy(u, ruleId, target))))
  {
    hide Sound, DialPolicyName;
    var row, policy := NewRow(u, ruleId, target, attachmentId), NewPolicy(u, ruleId, target);
    var create, insert := DoCreatePolicy(ruleId, target, ServiceRole(u.tables.rules[ruleId])), DoInsertAttachment(row);
    ObjectsKnown(u);
    StepSound(u, create);
    PolicyIssued(u.fabric, policy);
    InsertGuardRow(Apply(u, create), ruleId, target, attachmentId, row.policyId);
    StepSound(Apply(u, create), insert);
  }

  lemma MembersBind(rows: seq<Attachment>, others: seq<Attachment>)
    requires forall b | b in rows :: b in others
    ensures BoundBy(rows, others)
  {
    forall i | 0 <= i < |rows|
      ensures BoundByOne(rows[i], others)
    {
      assert rows[i] in others;
      var j: nat :| j < |others| && others[j] == rows[i];
      assert SameBinding(rows[i], others[j]);
    }
  }

  lemma ListedRow(t: Tables, b: Attachment)
    requires AttachmentsSound(t)
    ensures b in AttachmentRows(t) <==> b.id in t.attachments && t.attachments[b.id] == b
  {
    AttachmentRowsExact(t);
    hide AttachmentRows, AttachmentsSound;
    if b in AttachmentRows(t) {
      var i :| 0 <= i < |AttachmentRows(t)| && AttachmentRows(t)[i] == b;
    }
  }

  /** The listing after the insert binds what the listing before and the new row bind. */
  lemma ListedAfter(t: Tables, u: Tables, b: Attachment)
    requires AttachmentsSound(t) && AttachmentsSound(u) && b.id !in t.attachments
    requires u.attachments == t.attachments[b.id := b]
    ensures BoundBy(AttachmentRows(u), AttachmentRows(t) + [b]) && BoundBy(AttachmentRows(t) + [b], AttachmentRows(u))
  {
    hide AttachmentRows, AttachmentsSound, BoundBy;
    forall c
      ensures c in AttachmentRows(u) <==> c in AttachmentRows(t) + [b]
    {
      ListedRow(t, c);
      ListedRow(u, c);
    }
    MembersBind(AttachmentRows(u), AttachmentRows(t) + [b]);
    MembersBind(AttachmentRows(t) + [b], AttachmentRows(u));
  }

  /** The report on the world a successful attach leaves, agent by agent: beside what was reported
      before, exactly what slips through the check. */
  lemma AttachReports(d: Directory, w: World, ruleId: Uuid, target: Target, attachmentId: Uuid, x: Agent, t: Triple)
    requires Sound(w) && d.Agrees() && AttachAdmissible(d, w, ruleId, target, true) && attachmentId !in w.tables.used
    ensures var v := AttachedWorld(w, ruleId, target, attachmentId);
            Collides(d, v.tables.rules, AttachmentRows(v.tables), x, t) <==>
              || Collides(d, w.tables.rules, AttachmentRows(w.tables), x, t)
              || SlipsThrough(d, w.tables.rules, AttachmentRows(w.tables), w.tables.rules[ruleId], target, x, t)
  {
    hide Sound, AttachmentRows, Collides, SlipsThrough, Residue, Rejects, AttachedWorld, IsAttached, BoundBy, AttachmentsSound;
    var v, rule, rows := AttachedWorld(w, ruleId, target, attachmentId), w.tables.rules[ruleId], AttachmentRows(w.tables);
    AttachedRows(w, ruleId, target, attachmentId);
    RowsKnown(w);
    var b := v.tables.attachments[attachmentId];
    RowsAreSound(w);
    RowsAreSound(v);
    ListedAfter(w.tables, v.tables, b);
    ReportAlike(d, v.tables.rules, w.tables.rules, AttachmentRows(v.tables), rows + [b], x, t);
    AttachmentAdds(d, w.tables.rules, rows, rule, target, b, x, t);
    AcceptedResidue(d, w.tables.rules, rows, rule, target, b, x, t);
    ResidueCases(d, w.tables.rules, rows, rule, target, x, t);
  }

  lemma RowsAreSound(w: World)
    requires Sound(w)
    ensures AttachmentsSound(w.tables)
  {
  }

  // ----- detach ------------------------------------------------------------------------------

  function PolicyDropped(f: Fabric, id: ZitiId): Fabric {
    if id == NO_ID then f else DeletePolicy(f, id)
  }

  /** Where a detach ends once both rows were read: row before policy, and no policy without the row. */
  function DetachEnd(env: Env, statement: nat, call: nat, w: World, attachmentId: Uuid): World
    requires attachmentId in w.tables.attachments
  {
    var t := DeleteAttachment(w.tables, attachmentId);
    if StoreOutcome(env, statement) == LostRequest then w
    else if StoreOutcome(env, statement) == LostReply || ZitiOutcome(env, call) == LostRequest then World(t, w.fabric)
    else World(t, PolicyDropped(w.fabric, w.tables.attachments[attachmentId].policyId))
  }

  /** Deletes the row first and the policy after it. */
  method DeleteEgressRuleAttachment(p: Platform, env: Env, allowed: bool,
                                    attachmentId: Uuid) returns (r: Result<(), Error>)
    requires p.Valid()
    modifies p
    ensures p.Valid() && Follows(old(p.world), p.world)
    ensures !env.Shared? ==>
      || p.world == old(p.world)
      || (&& allowed && attachmentId in old(p.world).tables.attachments
          && p.world.tables == DeleteAttachment(old(p.world).tables, attachmentId)
          && (|| p.world.fabric == old(p.world).fabric
              || p.world.fabric == PolicyDropped(old(p.world).fabric, old(p.world).tables.attachments[attachmentId].policyId)))
    ensures !env.Shared? && r.Ok? ==>
      && attachmentId in old(p.world).tables.attachments
      && p.world == World(DeleteAttachment(old(p.world).tables, attachmentId),
                          PolicyDropped(old(p.world).fabric, old(p.world).tables.attachments[attachmentId].policyId))
    ensures env.Quiet? ==> (r.Ok? <==>
      && allowed && attachmentId in old(p.world).tables.attachments
      && var id := old(p.world).tables.attachments[attachmentId].policyId; id == NO_ID || id in old(p.world).fabric.policies)
    ensures !env.Shared? && allowed && attachmentId in old(p.world).tables.attachments &&
            StoreOutcome(env, old(p.statements)) == Done && StoreOutcome(env, old(p.statements) + 1) == Done ==>
      p.world == DetachEnd(env, old(p.statements) + 2, old(p.calls), old(p.world), attachmentId)
    ensures env.Quiet? && attachmentId !in old(p.world).tables.attachments ==> r == Err(NotFound)
    ensures env.Quiet? && attachmentId in old(p.world).tables.attachments && !allowed ==> r == Err(PermissionDenied)
  {
    hide Sound, Evolves, Reaches, Follows, DeletePolicy, DeleteAttachment;
    ghost var start := p.world;
    var found := p.GetAttachment(env, attachmentId);
    ghost var seen := p.world;
    if found.Err? {
      return Err(StatusOf(found.error));
    }
    RowsKnown(seen);
    var rule := p.GetRule(env, found.value.ruleId);
    ghost var looked := p.world;
    FollowsTransitive(start, seen, looked);
    if rule.Err? {
      return Err(StatusOf(rule.error));
    }
    if !allowed {
      return Err(PermissionDenied);
    }
    if found.value.FindTarget().None? {
      return Err(Internal);
    }
    var deleted := p.DeleteAttachment(env, attachmentId);
    ghost var gone := p.world;
    FollowsTransitive(start, looked, gone);
    if deleted.Err? {
      return Err(StatusOf(deleted.error));
    }
    r := DeleteAttachmentPolicy(p, env, found.value.policyId);
    FollowsTransitive(start, gone, p.world);
  }

}
