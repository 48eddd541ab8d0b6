/** The database: two tables, their constraints, and the statements the store issues. */
module Tables {
  import opened Wrappers
  import opened Ordering
  import opened Uuids
  import opened Rules

  /** `used` holds every id that ever named a row. A fresh UUID is never one of them, so an
      insert under a used id is a primary key violation or cannot arise. */
  datatype Tables = Tables(rules: map<Uuid, Rule>, attachments: map<Uuid, Attachment>, used: set<Uuid>)

  predicate HasAttachments(t: Tables, ruleId: Uuid) {
    exists a | a in t.attachments :: t.attachments[a].ruleId == ruleId
  }

  predicate SameBinding(a: Attachment, b: Attachment) {
    a.ruleId == b.ruleId && a.agentId == b.agentId && a.environmentId == b.environmentId
  }

  predicate AcceptsRule(t: Tables, rule: Rule) {
    rule.id !in t.used
  }

  function InsertRule(t: Tables, rule: Rule): Tables {
    if AcceptsRule(t, rule) then t.(rules := t.rules[rule.id := rule], used := t.used + {rule.id}) else t
  }

  /** The statement sets every column but the organization. */
  function UpdateRule(t: Tables, rule: Rule): Tables {
    if rule.id in t.rules then
      t.(rules := t.rules[rule.id := rule.(organizationId := t.rules[rule.id].organizationId)])
    else t
  }

  function SetServiceId(t: Tables, ruleId: Uuid, serviceId: ZitiId): Tables {
    if ruleId in t.rules then t.(rules := t.rules[ruleId := t.rules[ruleId].(serviceId := serviceId)]) else t
  }

  /** The foreign key restricts deleting a rule that has attachments. */
  function DeleteRule(t: Tables, ruleId: Uuid): Tables {
    if HasAttachments(t, ruleId) then t else t.(rules := t.rules - {ruleId})
  }

  /** Primary key, foreign key, one-target check and the two unique indexes. */
  predicate AcceptsAttachment(t: Tables, a: Attachment) {
    && a.id !in t.used
    && a.ruleId in t.rules
    && a.OneTarget()
    && forall b | b in t.attachments :: !SameBinding(a, t.attachments[b])
  }

  /** A row of this id or of this binding is stored: the unique violations. */
  predicate Duplicates(t: Tables, a: Attachment) {
    a.id in t.used || exists b | b in t.attachments :: SameBinding(a, t.attachments[b])
  }

  function InsertAttachment(t: Tables, a: Attachment): Tables {
    if AcceptsAttachment(t, a) then t.(attachments := t.attachments[a.id := a], used := t.used + {a.id}) else t
  }

  function SetPolicyId(t: Tables, attachmentId: Uuid, policyId: ZitiId): Tables {
    if attachmentId in t.attachments then
      t.(attachments := t.attachments[attachmentId := t.attachments[attachmentId].(policyId := policyId)])
    else t
  }

  function DeleteAttachment(t: Tables, attachmentId: Uuid): Tables {
    t.(attachments := t.attachments - {attachmentId})
  }

  // ----- what every statement keeps ---------------------------------------------

  ghost predicate RulesSound(t: Tables) {
    forall r | r in t.rules :: t.rules[r].id == r && r in t.used
  }

  ghost predicate AttachmentsSound(t: Tables) {
    && (forall a | a in t.attachments ::
          && t.attachments[a].id == a
          && a in t.used
          && t.attachments[a].ruleId in t.rules
          && t.attachments[a].OneTarget())
    && (forall a, b | a in t.attachments && b in t.attachments && SameBinding(t.attachments[a], t.attachments[b]) ::
          a == b)
  }

  ghost predicate TablesSound(t: Tables) {
    RulesSound(t) && AttachmentsSound(t)
  }

  /** A rule's organization and private resource never change. */
  predicate SameRule(r: Rule, q: Rule) {
    r.organizationId == q.organizationId && r.matcher.privateResourceId == q.matcher.privateResourceId
  }

  /** A row that disappears never returns, and a row's identity never changes. */
  ghost predicate TablesEvolve(t: Tables, u: Tables) {
    && t.used <= u.used
    && (forall r | r in u.rules && r in t.used :: r in t.rules && SameRule(t.rules[r], u.rules[r]))
    && (forall a | a in u.attachments && a in t.used ::
          a in t.attachments && SameBinding(t.attachments[a], u.attachments[a]))
  }

  /** The row was once stored, and a row still stored has the same organization and resource. */
  predicate KeepsKind(t: Tables, rule: Rule) {
    rule.id in t.used && (rule.id in t.rules ==> SameRule(t.rules[rule.id], rule))
  }

  lemma InsertRuleSound(t: Tables, rule: Rule)
    requires TablesSound(t)
    ensures TablesSound(InsertRule(t, rule)) && TablesEvolve(t, InsertRule(t, rule))
  {
  }

  lemma SetServiceIdSound(t: Tables, ruleId: Uuid, serviceId: ZitiId)
    requires TablesSound(t)
    ensures TablesSound(SetServiceId(t, ruleId, serviceId)) && TablesEvolve(t, SetServiceId(t, ruleId, serviceId))
  {
  }

  lemma UpdateRuleSound(t: Tables, rule: Rule)
    requires TablesSound(t) && KeepsKind(t, rule)
    ensures TablesSound(UpdateRule(t, rule)) && TablesEvolve(t, UpdateRule(t, rule))
  {
  }

  lemma RowDeletesSound(t: Tables, id: Uuid)
    requires TablesSound(t)
    ensures TablesSound(DeleteRule(t, id)) && TablesEvolve(t, DeleteRule(t, id))
    ensures TablesSound(DeleteAttachment(t, id)) && TablesEvolve(t, DeleteAttachment(t, id))
  {
  }

  lemma InsertAttachmentSound(t: Tables, a: Attachment)
    requires TablesSound(t)
    ensures TablesSound(InsertAttachment(t, a)) && TablesEvolve(t, InsertAttachment(t, a))
  {
  }

  lemma SetPolicyIdSound(t: Tables, attachmentId: Uuid, policyId: ZitiId)
    requires TablesSound(t)
    ensures TablesSound(SetPolicyId(t, attachmentId, policyId)) && TablesEvolve(t, SetPolicyId(t, attachmentId, policyId))
  {
  }

  /** Two attachments of one rule to one target are one row. */
  lemma TargetsUnique(t: Tables, a: Uuid, b: Uuid)
    requires TablesSound(t) && a in t.attachments && b in t.attachments
    requires t.attachments[a].ruleId == t.attachments[b].ruleId
    requires t.attachments[a].TheTarget() == t.attachments[b].TheTarget()
    ensures a == b
  {
    assert SameBinding(t.attachments[a], t.attachments[b]);
  }

  /** Storing the id already stored changes nothing. */
  lemma SetSameId(t: Tables, id: Uuid)
    ensures id in t.rules ==> SetServiceId(t, id, t.rules[id].serviceId) == t
    ensures id in t.attachments ==> SetPolicyId(t, id, t.attachments[id].policyId) == t
  {
    if id in t.rules {
      assert t.rules[id := t.rules[id]] == t.rules;
    }
    if id in t.attachments {
      assert t.attachments[id := t.attachments[id]] == t.attachments;
    }
  }

  // ----- listings ----------------------------------------------------------------

  function AscendingIds(ids: set<Uuid>): (r: seq<Uuid>)
    ensures Elements(r) == ids
    ensures forall i, j :: 0 <= i < j < |r| ==> r[i] < r[j]
  {
    var r := Ascending(ids);
    assert forall i | 0 <= i < |r| :: r[i] in Elements(r);
    r
  }

  /** Every row, ordered by id. */
  function RuleRows(t: Tables): seq<Rule> {
    var ids := AscendingIds(t.rules.Keys);
    seq(|ids|, i requires 0 <= i < |ids| => assert ids[i] in Elements(ids); t.rules[ids[i]])
  }

  function AttachmentRows(t: Tables): seq<Attachment> {
    var ids := AscendingIds(t.attachments.Keys);
    seq(|ids|, i requires 0 <= i < |ids| => assert ids[i] in Elements(ids); t.attachments[ids[i]])
  }

  /** A listing holds each row once, in ascending order of id. */
  lemma RuleRowsExact(t: Tables)
    requires RulesSound(t)
    ensures var rows := RuleRows(t);
            && (forall i | 0 <= i < |rows| :: rows[i].id in t.rules && t.rules[rows[i].id] == rows[i])
            && (forall i, j | 0 <= i < j < |rows| :: rows[i].id < rows[j].id)
            && (forall r | r in t.rules :: t.rules[r] in rows)
  {
    var ids, rows := AscendingIds(t.rules.Keys), RuleRows(t);
    forall i | 0 <= i < |rows|
      ensures rows[i].id == ids[i] && ids[i] in t.rules && rows[i] == t.rules[ids[i]]
    {
      assert ids[i] in Elements(ids);
    }
    forall r | r in t.rules
      ensures t.rules[r] in rows
    {
      assert r in Elements(ids);
      var i :| 0 <= i < |ids| && ids[i] == r;
      assert rows[i] == t.rules[r];
    }
  }

  lemma AttachmentRowsExact(t: Tables)
    requires AttachmentsSound(t)
    ensures var rows := AttachmentRows(t);
            && (forall i | 0 <= i < |rows| :: rows[i].id in t.attachments && t.attachments[rows[i].id] == rows[i])
            && (forall i, j | 0 <= i < j < |rows| :: rows[i].id < rows[j].id)
            && (forall a | a in t.attachments :: t.attachments[a] in rows)
  {
    var ids, rows := AscendingIds(t.attachments.Keys), AttachmentRows(t);
    forall i | 0 <= i < |rows|
      ensures rows[i].id == ids[i] && ids[i] in t.attachments && rows[i] == t.attachments[ids[i]]
    {
      assert ids[i] in Elements(ids);
    }
    forall a | a in t.attachments
      ensures t.attachments[a] in rows
    {
      assert a in Elements(ids);
      var i :| 0 <= i < |ids| && ids[i] == a;
      assert rows[i] == t.attachments[a];
    }
  }

  // ----- queries -------------------------------------------------------------------

  /** The column a lookup by target filters on. */
  predicate InTargetColumn(a: Attachment, target: Target) {
    match target.kind
    case AgentTarget => a.agentId == Some(target.id)
    case EnvironmentTarget => a.environmentId == Some(target.id)
  }

  predicate BoundTo(t: Tables, target: Target, rule: Rule) {
    exists a | a in t.attachments ::
      InTargetColumn(t.attachments[a], target) && t.attachments[a].ruleId in t.rules && t.rules[t.attachments[a].ruleId] == rule
  }

  /** The rules joined to the attachments of a target, ordered by rule id. */
  function TargetRows(t: Tables, target: Target): seq<Rule> {
    var ids := AscendingIds(set a | a in t.attachments && InTargetColumn(t.attachments[a], target) && t.attachments[a].ruleId in t.rules ::
                              t.attachments[a].ruleId);
    seq(|ids|, i requires 0 <= i < |ids| => assert ids[i] in Elements(ids); t.rules[ids[i]])
  }

  lemma TargetRowsExact(t: Tables, target: Target, rule: Rule)
    ensures rule in TargetRows(t, target) <==> BoundTo(t, target, rule)
  {
    var bound := set a | a in t.attachments && InTargetColumn(t.attachments[a], target) && t.attachments[a].ruleId in t.rules ::
                   t.attachments[a].ruleId;
    var ids, rows := AscendingIds(bound), TargetRows(t, target);
    if rule in rows {
      var i :| 0 <= i < |rows| && rows[i] == rule;
      assert ids[i] in Elements(ids);
    }
    if BoundTo(t, target, rule) {
      var a :| a in t.attachments && InTargetColumn(t.attachments[a], target) && t.attachments[a].ruleId in t.rules
               && t.rules[t.attachments[a].ruleId] == rule;
      assert t.attachments[a].ruleId in Elements(ids);
      var i :| 0 <= i < |ids| && ids[i] == t.attachments[a].ruleId;
      assert rows[i] == rule;
    }
  }

  /** The rules whose matcher names the private resource, as canonical text. */
  function RulesNaming(t: Tables, resourceId: Uuid): set<Uuid> {
    set r | r in t.rules && t.rules[r].matcher.privateResourceId == UuidText(resourceId)
  }
}
