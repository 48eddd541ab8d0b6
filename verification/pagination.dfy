/** Keyset pagination: one page, and a whole walk while rows come and go. */
module Pagination {
  import opened Wrappers
  import opened Ordering
  import opened Uuids
  import opened Rules
  import opened Tables

  const DEFAULT_PAGE_SIZE: int := 50
  const MAX_PAGE_SIZE: int := 100

  function NormalizePageSize(size: int): (limit: nat)
    ensures 1 <= limit <= MAX_PAGE_SIZE
    ensures 1 <= size <= MAX_PAGE_SIZE ==> limit == size
    ensures size <= 0 ==> limit == 50
    ensures size > 100 ==> limit == 100
  {
    if size <= 0 then DEFAULT_PAGE_SIZE else if size > MAX_PAGE_SIZE then MAX_PAGE_SIZE else size
  }

  datatype KindFilter = AnyKind | PublicOnly | PrivateOnly

  datatype RuleFilter = RuleFilter(privateResourceId: Option<Uuid>, kind: KindFilter)

  predicate Matches(rule: Rule, organizationId: Uuid, filter: RuleFilter) {
    && rule.organizationId == organizationId
    && (filter.privateResourceId.Some? ==> rule.matcher.privateResourceId == UuidText(filter.privateResourceId.value))
    && match filter.kind
       case AnyKind => true
       case PublicOnly => !rule.IsPrivate()
       case PrivateOnly => rule.IsPrivate()
  }

  function MatchingRules(t: Tables, organizationId: Uuid, filter: RuleFilter): set<Uuid> {
    set r | r in t.rules && Matches(t.rules[r], organizationId, filter)
  }

  function MatchingAttachments(t: Tables, organizationId: Uuid, ruleId: Option<Uuid>, agentId: Option<Uuid>): set<Uuid> {
    set a | a in t.attachments
            && t.attachments[a].ruleId in t.rules && t.rules[t.attachments[a].ruleId].organizationId == organizationId
            && (ruleId.Some? ==> t.attachments[a].ruleId == ruleId.value)
            && (agentId.Some? ==> t.attachments[a].agentId == agentId)
  }

  function Beyond(ids: set<Uuid>, cursor: Option<Uuid>): set<Uuid> {
    set id | id in ids && (cursor.Some? ==> id > cursor.value)
  }

  /** A page: ascending, all of it matching and beyond the cursor; without a next cursor nothing
      is left, with one it is the last id and everything not shown lies beyond it. */
  ghost predicate IsPageOf(ids: set<Uuid>, cursor: Option<Uuid>, page: seq<Uuid>, next: Option<Uuid>) {
    && (forall i, j | 0 <= i < j < |page| :: page[i] < page[j])
    && (forall i | 0 <= i < |page| :: page[i] in Beyond(ids, cursor))
    && (next.Some? ==> page != [] && next.value == page[|page| - 1])
    && (forall id | id in Beyond(ids, cursor) && (next.None? || id <= next.value) :: id in page)
  }

  /** ORDER BY id LIMIT n over the rows beyond the cursor. */
  function Query(ids: set<Uuid>, cursor: Option<Uuid>, n: nat): (rows: seq<Uuid>)
    ensures IsPrefix(Beyond(ids, cursor), rows, n)
  {
    PageExact(Beyond(ids, cursor), n);
    var rows := Page(Beyond(ids, cursor), n);
    assert forall i | 0 <= i < |rows| :: rows[i] in rows;
    assert forall id :: id in rows <==> id in Elements(rows);
    rows
  }

  /** The first n of a set, ascending. */
  ghost predicate IsPrefix(ids: set<Uuid>, rows: seq<Uuid>, n: nat) {
    && |rows| <= n
    && (forall i, j | 0 <= i < j < |rows| :: rows[i] < rows[j])
    && (forall i | 0 <= i < |rows| :: rows[i] in ids)
    && (|rows| < n ==> forall id | id in ids :: id in rows)
    && (forall id | id in ids && id !in rows :: forall i | 0 <= i < |rows| :: rows[i] < id)
  }

  lemma Truncated(ids: set<Uuid>, rows: seq<Uuid>, limit: nat, cursor: Option<Uuid>)
    requires limit > 0 && IsPrefix(Beyond(ids, cursor), rows, limit + 1) && |rows| == limit + 1
    ensures IsPageOf(ids, cursor, rows[..limit], Some(rows[limit - 1]))
  {
    var page := rows[..limit];
    forall id | id in Beyond(ids, cursor) && id <= rows[limit - 1]
      ensures id in page
    {
      if id in rows {
        var i :| 0 <= i < |rows| && rows[i] == id;
        assert i < limit && page[i] == id;
      }
    }
  }

  lemma Untruncated(ids: set<Uuid>, rows: seq<Uuid>, limit: nat, cursor: Option<Uuid>)
    requires IsPrefix(Beyond(ids, cursor), rows, limit + 1) && |rows| <= limit
    ensures IsPageOf(ids, cursor, rows, None)
  {
  }

  /** One row more than the page is asked for, to learn whether there is a next page. */
  method FetchPage(ids: set<Uuid>, pageSize: int, cursor: Option<Uuid>) returns (page: seq<Uuid>, next: Option<Uuid>)
    ensures IsPageOf(ids, cursor, page, next)
    ensures |page| <= NormalizePageSize(pageSize)
    ensures next.Some? ==> |page| == NormalizePageSize(pageSize)
  {
    hide IsPageOf, Beyond;
    var limit := NormalizePageSize(pageSize);
    page, next := Query(ids, cursor, limit + 1), None;
    if |page| > limit {
      Truncated(ids, page, limit, cursor);
      next := Some(page[limit - 1]);
      page := page[..limit];
    } else {
      Untruncated(ids, page, limit, cursor);
    }
  }

  lemma PageWithin(ids: set<Uuid>, cursor: Option<Uuid>, page: seq<Uuid>, next: Option<Uuid>)
    requires IsPageOf(ids, cursor, page, next)
    ensures forall i | 0 <= i < |page| :: page[i] in ids
  {
    assert forall i | 0 <= i < |page| :: page[i] in Beyond(ids, cursor);
  }

  function RuleIds(rules: seq<Rule>): seq<Uuid> {
    seq(|rules|, i requires 0 <= i < |rules| => rules[i].id)
  }

  function AttachmentIds(rows: seq<Attachment>): seq<Uuid> {
    seq(|rows|, i requires 0 <= i < |rows| => rows[i].id)
  }

  /** What each filter lets through: the text of the resource it names, or any, and private or public
      rules only, or both. */
  predicate Shows(resourceId: string, filter: RuleFilter) {
    && (filter.privateResourceId == None || resourceId == UuidText(filter.privateResourceId.value))
    && (resourceId == "" ==> filter.kind != PrivateOnly)
    && (resourceId != "" ==> filter.kind != PublicOnly)
  }

  lemma MatchesShows(rule: Rule, organizationId: Uuid, filter: RuleFilter)
    ensures Matches(rule, organizationId, filter) <==>
              rule.organizationId == organizationId && Shows(rule.matcher.privateResourceId, filter)
  {
  }

  /** A page of the rules of an organization that pass the filter. */
  method ListRules(t: Tables, organizationId: Uuid, filter: RuleFilter, pageSize: int, cursor: Option<Uuid>)
    returns (rules: seq<Rule>, next: Option<Uuid>)
    requires RulesSound(t)
    ensures IsPageOf(MatchingRules(t, organizationId, filter), cursor, RuleIds(rules), next)
    ensures |rules| <= NormalizePageSize(pageSize)
    ensures next.Some? ==> |rules| == NormalizePageSize(pageSize)
    ensures forall i | 0 <= i < |rules| :: rules[i].id in t.rules && rules[i] == t.rules[rules[i].id]
    ensures forall i | 0 <= i < |rules| ::
      rules[i].organizationId == organizationId && Shows(rules[i].matcher.privateResourceId, filter)
  {
    hide IsPageOf, Matches, Shows, Beyond;
    var ids;
    ids, next := FetchPage(MatchingRules(t, organizationId, filter), pageSize, cursor);
    PageWithin(MatchingRules(t, organizationId, filter), cursor, ids, next);
    rules := seq(|ids|, i requires 0 <= i < |ids| && ids[i] in t.rules => t.rules[ids[i]]);
    assert RuleIds(rules) == ids;
    forall i | 0 <= i < |rules|
      ensures rules[i].organizationId == organizationId && Shows(rules[i].matcher.privateResourceId, filter)
    {
      assert ids[i] in MatchingRules(t, organizationId, filter);
      MatchesShows(rules[i], organizationId, filter);
    }
  }

  /** A page of the attachments of an organization's rules. */
  method ListAttachments(t: Tables, organizationId: Uuid, ruleId: Option<Uuid>, agentId: Option<Uuid>, pageSize: int,
                         cursor: Option<Uuid>)
    returns (rows: seq<Attachment>, next: Option<Uuid>)
    requires AttachmentsSound(t)
    ensures IsPageOf(MatchingAttachments(t, organizationId, ruleId, agentId), cursor, AttachmentIds(rows), next)
    ensures |rows| <= NormalizePageSize(pageSize)
    ensures next.Some? ==> |rows| == NormalizePageSize(pageSize)
    ensures forall i | 0 <= i < |rows| :: rows[i].id in t.attachments && rows[i] == t.attachments[rows[i].id]
    ensures forall i | 0 <= i < |rows| ::
      && rows[i].ruleId in t.rules && t.rules[rows[i].ruleId].organizationId == organizationId
      && (ruleId == None || rows[i].ruleId == ruleId.value) && (agentId == None || rows[i].agentId == agentId)
  {
    hide IsPageOf;
    var ids;
    ids, next := FetchPage(MatchingAttachments(t, organizationId, ruleId, agentId), pageSize, cursor);
    PageWithin(MatchingAttachments(t, organizationId, ruleId, agentId), cursor, ids, next);
    rows := seq(|ids|, i requires 0 <= i < |ids| && ids[i] in t.attachments => t.attachments[ids[i]]);
    assert AttachmentIds(rows) == ids;
    forall i | 0 <= i < |rows|
      ensures ids[i] in MatchingAttachments(t, organizationId, ruleId, agentId)
    {
    }
  }

  // ----- a whole walk ------------------------------------------------------------------------------

  /** What a walk has shown after k fetches of a store that changes in between: ascending, each
      id matching when it was fetched, and up to the cursor nothing missed that matched at
      every fetch. */
  ghost predicate WalkedTo(view: nat -> Tables, organizationId: Uuid, filter: RuleFilter, k: nat, cursor: Option<Uuid>,
                           ids: seq<Uuid>)
  {
    && (forall i, j | 0 <= i < j < |ids| :: ids[i] < ids[j])
    && (forall i | 0 <= i < |ids| :: exists f | 0 <= f < k :: ids[i] in MatchingRules(view(f), organizationId, filter))
    && (cursor.None? ==> ids == [])
    && (cursor.Some? ==>
          && (forall i | 0 <= i < |ids| :: ids[i] <= cursor.value)
          && (forall id: Uuid | id <= cursor.value && (forall f | 0 <= f < k :: id in MatchingRules(view(f), organizationId, filter)) ::
                id in ids))
  }

  /** The walk is over: nothing that matched throughout is missing. */
  ghost predicate WalkedAll(view: nat -> Tables, organizationId: Uuid, filter: RuleFilter, k: nat, ids: seq<Uuid>) {
    && (forall i, j | 0 <= i < j < |ids| :: ids[i] < ids[j])
    && (forall i | 0 <= i < |ids| :: exists f | 0 <= f < k :: ids[i] in MatchingRules(view(f), organizationId, filter))
    && (forall id: Uuid | (forall f | 0 <= f < k :: id in MatchingRules(view(f), organizationId, filter)) :: id in ids)
  }

  function IdsAbove(cursor: Option<Uuid>): nat {
    if cursor.None? then Pow16(32) else Pow16(32) - 1 - cursor.value
  }

  lemma NextPageWalks(view: nat -> Tables, organizationId: Uuid, filter: RuleFilter, k: nat,
                      cursor: Option<Uuid>, ids: seq<Uuid>,
                      page: seq<Uuid>, next: Option<Uuid>)
    requires WalkedTo(view, organizationId, filter, k, cursor, ids)
    requires IsPageOf(MatchingRules(view(k), organizationId, filter), cursor, page, next)
    ensures next.Some? ==>
      WalkedTo(view, organizationId, filter, k + 1, next, ids + page) && IdsAbove(next) < IdsAbove(cursor)
    ensures next.None? ==> WalkedAll(view, organizationId, filter, k + 1, ids + page)
  {
    hide Matches;
    var all, matching := ids + page, MatchingRules(view(k), organizationId, filter);
    forall i, j | 0 <= i < j < |all|
      ensures all[i] < all[j]
    {
      if i < |ids| <= j {
        assert page[j - |ids|] in Beyond(matching, cursor);
      }
    }
    forall i | 0 <= i < |all|
      ensures exists f | 0 <= f < k + 1 :: all[i] in MatchingRules(view(f), organizationId, filter)
    {
      if i >= |ids| {
        assert page[i - |ids|] in Beyond(matching, cursor);
      }
    }
    forall id: Uuid | (next.None? || id <= next.value) && forall f | 0 <= f < k + 1 :: id in MatchingRules(view(f), organizationId, filter)
      ensures id in all
    {
      if !(cursor.Some? && id <= cursor.value) {
        assert id in Beyond(matching, cursor);
      }
    }
    if next.Some? {
      assert page[|page| - 1] in Beyond(matching, cursor);
    }
  }

  /** Follows the cursor to the end while the store changes between fetches and the caller asks
      for pages of any size. It ends, repeats nothing, and misses nothing present throughout. */
  method WalkRules(view: nat -> Tables, size: nat -> int, organizationId: Uuid, filter: RuleFilter)
    returns (rules: seq<Rule>, fetches: nat)
    requires forall f: nat :: RulesSound(view(f))
    ensures WalkedAll(view, organizationId, filter, fetches, RuleIds(rules))
    ensures forall i | 0 <= i < |rules| :: exists f: nat | f < fetches :: ShownBy(view(f), rules[i])
  {
    hide WalkedTo, WalkedAll, IsPageOf, RulesSound;
    rules, fetches := [], 0;
    var cursor: Option<Uuid> := None;
    NothingWalked(view, organizationId, filter);
    assert RuleIds([]) == [];
    while true
      invariant WalkedTo(view, organizationId, filter, fetches, cursor, RuleIds(rules))
      invariant forall i | 0 <= i < |rules| :: exists f: nat | f < fetches :: ShownBy(view(f), rules[i])
      decreases IdsAbove(cursor)
    {
      var page, next := ListRules(view(fetches), organizationId, filter, size(fetches), cursor);
      NextPageWalks(view, organizationId, filter, fetches, cursor, RuleIds(rules), RuleIds(page), next);
      assert RuleIds(rules + page) == RuleIds(rules) + RuleIds(page);
      assert forall i | 0 <= i < |page| :: ShownBy(view(fetches), page[i]);
      rules, fetches := rules + page, fetches + 1;
      if next.None? {
        return;
      }
      cursor := next;
    }
  }

  /** The row as the store held it. */
  predicate ShownBy(t: Tables, rule: Rule) {
    rule.id in t.rules && t.rules[rule.id] == rule
  }

  lemma NothingWalked(view: nat -> Tables, organizationId: Uuid, filter: RuleFilter)
    ensures WalkedTo(view, organizationId, filter, 0, None, [])
  {
  }
}
