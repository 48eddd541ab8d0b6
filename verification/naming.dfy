/** The names and role selectors under which OpenZiti objects are managed. */
module Naming {
  import opened Text
  import opened Uuids
  import opened Rules

  const NAME_PREFIX: string := "egress-rule-"
  const DIAL_SUFFIX: string := "-dial"
  const SERVICE_ROLE: string := "egress-services"

  /** A selector picks one object by id ("@id") or every object with a tag ("#tag"). */
  datatype Selector = ById(id: ZitiId) | ByTag(tag: string)

  function ServiceName(ruleId: Uuid): string {
    NAME_PREFIX + UuidText(ruleId)
  }

  function KindText(kind: TargetKind): string {
    if kind == AgentTarget then "agent" else "environment"
  }

  function DialPolicyName(ruleId: Uuid, target: Target): string {
    NAME_PREFIX + UuidText(ruleId) + "-" + KindText(target.kind) + "-" + UuidText(target.id) + DIAL_SUFFIX
  }

  function IdentityRole(target: Target): Selector {
    ByTag(KindText(target.kind) + "-" + UuidText(target.id))
  }

  /** A public rule's policy dials its own service; a private one the resource's tag. */
  function ServiceRole(rule: Rule): Selector {
    if rule.IsPrivate() then ByTag("private-resource-" + rule.matcher.privateResourceId)
    else ById(rule.serviceId)
  }

  lemma ServiceNameInjective(r: Uuid, q: Uuid)
    requires ServiceName(r) == ServiceName(q)
    ensures r == q
  {
    assert UuidText(r) == ServiceName(r)[|NAME_PREFIX|..];
    assert UuidText(q) == ServiceName(q)[|NAME_PREFIX|..];
    UuidTextInjective(r, q);
  }

  /** Where the three variable parts of a dial policy name sit. */
  lemma DialPolicyNameParts(r: Uuid, t: Target)
    ensures var n, k := DialPolicyName(r, t), |KindText(t.kind)|;
            && |n| == 91 + k
            && n[12..48] == UuidText(r)
            && n[50 + k..86 + k] == UuidText(t.id)
  {
    hide UuidText, KindText;
    var n, kind := DialPolicyName(r, t), KindText(t.kind);
    var head := NAME_PREFIX + UuidText(r);
    assert n == head + ("-" + kind + "-" + UuidText(t.id) + DIAL_SUFFIX);
    assert n[12..48] == head[12..48] == UuidText(r);
    var front := head + "-" + kind + "-";
    assert n == front + (UuidText(t.id) + DIAL_SUFFIX);
    assert n[|front|..|front| + 36] == UuidText(t.id);
  }

  /** A dial policy name determines the rule, the kind of target and the target. */
  lemma DialPolicyNameInjective(r: Uuid, t: Target, q: Uuid, u: Target)
    requires DialPolicyName(r, t) == DialPolicyName(q, u)
    ensures r == q && t == u
  {
    hide UuidText, DialPolicyName;
    DialPolicyNameParts(r, t);
    DialPolicyNameParts(q, u);
    assert t.kind == u.kind;
    UuidTextInjective(r, q);
    UuidTextInjective(t.id, u.id);
  }

  /** Which listed services the sweep looks at. */
  predicate SweepsServiceName(name: string) {
    HasPrefix(name, NAME_PREFIX)
  }

  /** Which listed policies the sweep looks at. */
  predicate SweepsPolicyName(name: string) {
    HasPrefix(name, NAME_PREFIX) && HasSuffix(name, DIAL_SUFFIX)
  }

  /** Every name the service gives out passes the sweep's own filter. */
  lemma NamesAreSwept(r: Uuid, t: Target)
    ensures SweepsServiceName(ServiceName(r))
    ensures SweepsPolicyName(DialPolicyName(r, t))
  {
    var front := NAME_PREFIX + UuidText(r) + "-" + KindText(t.kind) + "-" + UuidText(t.id);
    assert DialPolicyName(r, t) == front + DIAL_SUFFIX;
    assert NAME_PREFIX <= front;
  }

  lemma IdentityRoleInjective(t: Target, u: Target)
    requires IdentityRole(t) == IdentityRole(u)
    ensures t == u
  {
    var s, v := IdentityRole(t).tag, IdentityRole(u).tag;
    assert |s| == |KindText(t.kind)| + 37 && |v| == |KindText(u.kind)| + 37;
    assert t.kind == u.kind;
    var k := |KindText(t.kind)| + 1;
    assert s[k..] == UuidText(t.id) && v[k..] == UuidText(u.id);
    UuidTextInjective(t.id, u.id);
  }
}
