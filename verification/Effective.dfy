/** GetEffectiveAuthorityByPrincipal: what a principal may do, from the grants table and the clock. */
module Effective {
  import opened Wrappers
  import opened Text
  import opened Sorting
  import opened Normalize
  import opened AuthorityTypes
  import opened Replay

  datatype CapKey = CapKey(capability: string, scopeKind: string, scopeId: string)
  datatype Policy = Policy(key: CapKey, grantIds: seq<string>)
  datatype EffectiveAuthority = EffectiveAuthority(
    principal: string, computedAt: nat, activeGrants: seq<Grant>, policies: seq<Policy>)

  predicate InEffect(g: Grant, principal: string, now: nat) {
    && g.grantee == principal && g.status == "accepted"
    && (g.effectiveAt.None? || g.effectiveAt.value <= now)
    && (g.expiresAt.None? || g.expiresAt.value > now)
  }

  /** newer takes effect away from the grant called id. */
  predicate Ends(newer: Grant, id: string) {
    newer.supersedes == id && (newer.status == "accepted" || newer.status == "revoked" || newer.status == "superseded")
  }

  predicate Ended(grants: Grants, id: string) {
    exists n :: n in grants && Ends(grants[n], id)
  }

  predicate Active(grants: Grants, principal: string, now: nat, id: string) {
    id in grants && InEffect(grants[id], principal, now) && !Ended(grants, id)
  }

  /** The active grant called id holds this capability on this scope. */
  predicate Holds(g: Grant, key: CapKey) {
    key.capability in NormalizeList(g.capabilities) && key.scopeKind == g.scopeKind && key.scopeId == g.scopeId
  }

  ghost predicate Gives(grants: Grants, principal: string, now: nat, key: CapKey, id: string) {
    Active(grants, principal, now, id) && Holds(grants[id], key)
  }

  /** The same, clause by clause: an accepted grant of the principal that has begun and not run out, and that no
      accepted, revoked or superseded grant supersedes. */
  ghost predicate InForce(grants: Grants, principal: string, now: nat, id: string) {
    && id in grants && grants[id].grantee == principal && grants[id].status == "accepted"
    && (grants[id].effectiveAt.Some? ==> grants[id].effectiveAt.value <= now)
    && (grants[id].expiresAt.Some? ==> now < grants[id].expiresAt.value)
    && (forall n :: n in grants && grants[n].supersedes == id ==>
          grants[n].status !in {"accepted", "revoked", "superseded"})
  }

  lemma ActiveIff(grants: Grants, principal: string, now: nat, id: string)
    ensures Active(grants, principal, now, id) <==> InForce(grants, principal, now, id)
  {}

  // ----- Orders -----

  /** order by created_at desc, grant_id desc. */
  datatype RowKey = RowKey(createdAt: nat, grantId: string)

  predicate NewestFirst(a: RowKey, b: RowKey) {
    a.createdAt > b.createdAt || (a.createdAt == b.createdAt && StringLe(b.grantId, a.grantId))
  }

  lemma NewestFirstOrder()
    ensures TotalOrder(NewestFirst)
  {
    StringOrder();
    assert TotalOrder(StringLe);
    forall a, b ensures NewestFirst(a, b) || NewestFirst(b, a) {
      assert StringLe(a.grantId, b.grantId) || StringLe(b.grantId, a.grantId);
    }
    forall a, b | NewestFirst(a, b) && NewestFirst(b, a) ensures a == b { StringLeTotal(a.grantId, b.grantId); }
    forall a, b, c | NewestFirst(a, b) && NewestFirst(b, c) ensures NewestFirst(a, c) {
      if a.createdAt == c.createdAt { StringLeTransitive(c.grantId, b.grantId, a.grantId); }
    }
  }

  predicate CapKeyLe(a: CapKey, b: CapKey) {
    if a.capability != b.capability then StringLe(a.capability, b.capability)
    else if a.scopeKind != b.scopeKind then StringLe(a.scopeKind, b.scopeKind)
    else StringLe(a.scopeId, b.scopeId)
  }

  lemma CapKeyOrder()
    ensures TotalOrder(CapKeyLe)
  {
    forall a, b ensures CapKeyLe(a, b) || CapKeyLe(b, a)
                ensures CapKeyLe(a, b) && CapKeyLe(b, a) ==> a == b
    {
      StringLeTotal(a.capability, b.capability);
      StringLeTotal(a.scopeKind, b.scopeKind);
      StringLeTotal(a.scopeId, b.scopeId);
    }
    forall a, b, c | CapKeyLe(a, b) && CapKeyLe(b, c) ensures CapKeyLe(a, c) {
      StringLeTotal(a.capability, b.capability);
      StringLeTotal(a.scopeKind, b.scopeKind);
      if StringLe(a.capability, b.capability) && StringLe(b.capability, c.capability) {
        StringLeTransitive(a.capability, b.capability, c.capability);
      }
      if StringLe(a.scopeKind, b.scopeKind) && StringLe(b.scopeKind, c.scopeKind) {
        StringLeTransitive(a.scopeKind, b.scopeKind, c.scopeKind);
      }
      if StringLe(a.scopeId, b.scopeId) && StringLe(b.scopeId, c.scopeId) {
        StringLeTransitive(a.scopeId, b.scopeId, c.scopeId);
      }
      StringLeTotal(a.capability, c.capability);
      StringLeTotal(b.capability, c.capability);
      StringLeTotal(b.scopeKind, c.scopeKind);
    }
  }

  // ----- The query and the grouping loop -----

  function KeyAt(grants: Grants, id: string): RowKey {
    RowKey(if id in grants then grants[id].createdAt else 0, id)
  }

  /** The ids of the active grants, each once, newest first. */
  ghost predicate ActiveIds(ids: seq<string>, grants: Grants, principal: string, now: nat) {
    && (forall id :: id in ids <==> Active(grants, principal, now, id))
    && Distinct(ids)
    && (forall i, j :: 0 <= i < j < |ids| ==> NewestFirst(KeyAt(grants, ids[i]), KeyAt(grants, ids[j])))
  }

  ghost predicate Rows(active: seq<Grant>, grants: Grants, ids: seq<string>) {
    |active| == |ids| && forall i :: 0 <= i < |ids| ==> ids[i] in grants && active[i] == grants[ids[i]]
  }

  /** The rows of the active grants, each once, newest first. */
  ghost predicate ExactActive(active: seq<Grant>, grants: Grants, principal: string, now: nat) {
    exists ids :: ActiveIds(ids, grants, principal, now) && Rows(active, grants, ids)
  }

  /** There is one such list. */
  lemma ActiveIdsUnique(a: seq<string>, b: seq<string>, grants: Grants, principal: string, now: nat)
    requires ActiveIds(a, grants, principal, now) && ActiveIds(b, grants, principal, now)
    ensures a == b
  {
    hide Active, NewestFirst, TotalOrder;
    NewestFirstOrder();
    var ka := seq(|a|, i requires 0 <= i < |a| => KeyAt(grants, a[i]));
    var kb := seq(|b|, i requires 0 <= i < |b| => KeyAt(grants, b[i]));
    forall k ensures k in ka <==> k in kb {
      if k in ka {
        var i :| 0 <= i < |a| && ka[i] == k;
        assert a[i] in b;
        var j :| 0 <= j < |b| && b[j] == a[i];
        assert kb[j] == k;
      }
      if k in kb {
        var i :| 0 <= i < |b| && kb[i] == k;
        assert b[i] in a;
        var j :| 0 <= j < |a| && a[j] == b[i];
        assert ka[j] == k;
      }
    }
    SortedByMembers(NewestFirst, ka, kb);
    assert |a| == |ka| && |b| == |kb|;
    forall i | 0 <= i < |a| ensures a[i] == b[i] { assert ka[i].grantId == a[i] && kb[i].grantId == b[i]; }
  }

  lemma ActiveUnique(a: seq<Grant>, b: seq<Grant>, grants: Grants, principal: string, now: nat)
    requires ExactActive(a, grants, principal, now) && ExactActive(b, grants, principal, now)
    ensures a == b
  {
    hide ActiveIds;
    var ia :| ActiveIds(ia, grants, principal, now) && Rows(a, grants, ia);
    var ib :| ActiveIds(ib, grants, principal, now) && Rows(b, grants, ib);
    ActiveIdsUnique(ia, ib, grants, principal, now);
  }

  lemma WhereClause(grants: Grants, principal: string, now: nat, ended: set<string>, found: set<RowKey>)
    requires ended == set n | n in grants && grants[n].status in {"accepted", "revoked", "superseded"} ::
                        grants[n].supersedes
    requires found == set id | id in grants && grants[id].grantee == principal && grants[id].status == "accepted"
                               && (grants[id].effectiveAt.None? || grants[id].effectiveAt.value <= now)
                               && (grants[id].expiresAt.None? || grants[id].expiresAt.value > now)
                               && id !in ended
                        :: RowKey(grants[id].createdAt, id)
    ensures forall k :: k in found <==> InForce(grants, principal, now, k.grantId) && k == KeyAt(grants, k.grantId)
    ensures forall id :: InForce(grants, principal, now, id) <==> Active(grants, principal, now, id)
  {
    forall id ensures InForce(grants, principal, now, id) <==> Active(grants, principal, now, id) {
      ActiveIff(grants, principal, now, id);
    }
  }

  /** The select statement: the active grants' ids, newest first. */
  method QueryActive(grants: Grants, principal: string, now: nat) returns (ids: seq<string>)
    ensures ActiveIds(ids, grants, principal, now)
    ensures forall id :: id in ids <==> InForce(grants, principal, now, id)
  {
    hide InForce, Active, NewestFirst, Ranking, Sort;
    var ended := set n | n in grants && grants[n].status in {"accepted", "revoked", "superseded"} ::
      grants[n].supersedes;
    var found := set id | id in grants && grants[id].grantee == principal && grants[id].status == "accepted"
                          && (grants[id].effectiveAt.None? || grants[id].effectiveAt.value <= now)
                          && (grants[id].expiresAt.None? || grants[id].expiresAt.value > now)
                          && id !in ended
                     :: RowKey(grants[id].createdAt, id);
    WhereClause(grants, principal, now, ended, found);
    var listed := Listed(found);
    NewestFirstOrder();
    SortCorrect(NewestFirst, listed);
    SortDistinct(NewestFirst, listed);
    var sorted := Sort(NewestFirst, listed);
    forall k ensures k in sorted <==> k in found { SortMembers(NewestFirst, listed, k); }
    ids := seq(|sorted|, i requires 0 <= i < |sorted| => sorted[i].grantId);
    forall i | 0 <= i < |sorted|
      ensures Active(grants, principal, now, ids[i]) && sorted[i] == KeyAt(grants, ids[i])
    {
      assert sorted[i] in found;
    }
    forall id | Active(grants, principal, now, id) ensures id in ids {
      ActiveStored(grants, principal, now, id);
      assert KeyAt(grants, id) in sorted;
      var i :| 0 <= i < |sorted| && sorted[i] == KeyAt(grants, id);
      assert ids[i] == id;
    }
  }

  ghost predicate ById(grants: Grants) {
    forall id :: id in grants ==> grants[id].grantId == id
  }

  /** The grant lets its holder do this: its capabilities name it, apart from surrounding spaces, and its scope is
      the one asked for. */
  ghost predicate Confers(g: Grant, key: CapKey) {
    && key.scopeKind == g.scopeKind && key.scopeId == g.scopeId && key.capability != ""
    && exists v :: v in g.capabilities && TrimSpace(v) == key.capability
  }

  /** The grants listed are those in force, and the policies say what they confer: one entry for each capability
      and scope that some listed grant confers, naming exactly the grants that do. */
  ghost predicate Reads(active: seq<Grant>, policies: seq<Policy>, grants: Grants, principal: string, now: nat) {
    && GrantOrder(active) && PolicyOrder(policies)
    && (forall g :: g in active
          <==> g.grantId in grants && grants[g.grantId] == g && InForce(grants, principal, now, g.grantId))
    && (forall key :: key in PolicyKeys(policies) <==> exists g :: g in active && Confers(g, key))
    && (forall p, x :: p in policies ==>
          (x in p.grantIds <==> x != "" && exists g :: g in active && Confers(g, p.key) && TrimSpace(g.grantId) == x))
  }

  ghost function PolicyKeys(policies: seq<Policy>): set<CapKey> {
    set i | 0 <= i < |policies| :: policies[i].key
  }

  lemma HoldsIff(g: Grant, key: CapKey)
    ensures Holds(g, key) <==> Confers(g, key)
  {
    NormalizeListSpec(g.capabilities);
    hide NormalizeList, TrimSpace;
  }

  lemma ActiveReads(active: seq<Grant>, grants: Grants, principal: string, now: nat)
    requires ById(grants) && ExactActive(active, grants, principal, now)
    ensures forall g :: g in active
              <==> g.grantId in grants && grants[g.grantId] == g && InForce(grants, principal, now, g.grantId)
  {
    hide InForce, Active, NewestFirst;
    var ids :| ActiveIds(ids, grants, principal, now) && Rows(active, grants, ids);
    forall g
      ensures g in active
          <==> g.grantId in grants && grants[g.grantId] == g && InForce(grants, principal, now, g.grantId)
    {
      ActiveIff(grants, principal, now, g.grantId);
      if g in active {
        var i :| 0 <= i < |active| && active[i] == g;
        assert ids[i] in ids && g.grantId == ids[i];
      }
      if g.grantId in grants && grants[g.grantId] == g && Active(grants, principal, now, g.grantId) {
        var i :| 0 <= i < |ids| && ids[i] == g.grantId;
        assert active[i] == g;
      }
    }
  }

  lemma GivesIff(active: seq<Grant>, grants: Grants, principal: string, now: nat, key: CapKey, id: string)
    requires ById(grants) && ExactActive(active, grants, principal, now)
    ensures Gives(grants, principal, now, key, id) <==> exists g :: g in active && Confers(g, key) && g.grantId == id
  {
    hide InForce, Active, Holds, Confers, ExactActive;
    ActiveReads(active, grants, principal, now);
    ActiveIff(grants, principal, now, id);
    if Gives(grants, principal, now, key, id) {
      ActiveStored(grants, principal, now, id);
      HoldsIff(grants[id], key);
      assert grants[id].grantId == id && grants[id] in active;
    }
    if exists g :: g in active && Confers(g, key) && g.grantId == id {
      var g :| g in active && Confers(g, key) && g.grantId == id;
      HoldsIff(g, key);
    }
  }

  /** Newest first, then by descending id. */
  ghost predicate GrantOrder(active: seq<Grant>) {
    forall i, j :: 0 <= i < j < |active| ==>
      && active[i].createdAt >= active[j].createdAt && active[i].grantId != active[j].grantId
      && (active[i].createdAt == active[j].createdAt ==> StringLe(active[j].grantId, active[i].grantId))
  }

  /** By capability, then by kind and id of the scope, and each only once; so are the ids in an entry. */
  ghost predicate PolicyOrder(policies: seq<Policy>) {
    && (forall i, j :: 0 <= i < j < |policies| ==>
          var a, b := policies[i].key, policies[j].key;
          && StringLe(a.capability, b.capability)
          && (a.capability == b.capability ==> StringLe(a.scopeKind, b.scopeKind))
          && (a.capability == b.capability && a.scopeKind == b.scopeKind ==>
                StringLe(a.scopeId, b.scopeId) && a.scopeId != b.scopeId))
    && (forall p :: p in policies ==> Sorted(StringLe, p.grantIds) && Distinct(p.grantIds))
  }

  lemma ActiveInOrder(active: seq<Grant>, grants: Grants, principal: string, now: nat)
    requires ById(grants) && ExactActive(active, grants, principal, now)
    ensures GrantOrder(active)
  {
    hide Active, StringLe;
    var ids :| ActiveIds(ids, grants, principal, now) && Rows(active, grants, ids);
    forall i, j | 0 <= i < j < |active|
      ensures active[i].createdAt >= active[j].createdAt && active[i].grantId != active[j].grantId
      ensures active[i].createdAt == active[j].createdAt ==> StringLe(active[j].grantId, active[i].grantId)
    {
      assert NewestFirst(KeyAt(grants, ids[i]), KeyAt(grants, ids[j]));
    }
  }

  lemma PoliciesInOrder(policies: seq<Policy>, grants: Grants, principal: string, now: nat)
    requires ExactPolicies(policies, grants, principal, now)
    ensures PolicyOrder(policies)
  {
    hide Gives, ListedAs, StringLe;
    forall i, j | 0 <= i < j < |policies|
      ensures var a, b := policies[i].key, policies[j].key;
              && StringLe(a.capability, b.capability)
              && (a.capability == b.capability ==> StringLe(a.scopeKind, b.scopeKind))
              && (a.capability == b.capability && a.scopeKind == b.scopeKind ==>
                    StringLe(a.scopeId, b.scopeId) && a.scopeId != b.scopeId)
    {
      StringLeTotal(policies[i].key.capability, policies[j].key.capability);
      StringLeTotal(policies[i].key.scopeKind, policies[j].key.scopeKind);
    }
    forall p | p in policies
      ensures Sorted(StringLe, p.grantIds) && Distinct(p.grantIds)
    {
      var i :| 0 <= i < |policies| && policies[i] == p;
      assert ExactPolicy(policies[i], grants, principal, now);
    }
  }

  /** So the answer to a request can be read off the table and off the grants it lists. */
  lemma AnswerReads(active: seq<Grant>, policies: seq<Policy>, grants: Grants, principal: string, now: nat)
    requires ById(grants) && ExactActive(active, grants, principal, now)
    requires ExactPolicies(policies, grants, principal, now)
    ensures Reads(active, policies, grants, principal, now)
  {
    hide InForce, Gives, Confers, ExactActive, TrimSpace, ById, ListedAs, GrantOrder, PolicyOrder;
    ActiveReads(active, grants, principal, now);
    ActiveInOrder(active, grants, principal, now);
    PoliciesInOrder(policies, grants, principal, now);
    forall key
      ensures key in PolicyKeys(policies) <==> exists g :: g in active && Confers(g, key)
    {
      PolicyKeyIff(active, policies, grants, principal, now, key);
    }
    forall p, x | p in policies
      ensures x in p.grantIds <==> x != "" && exists g :: g in active && Confers(g, p.key) && TrimSpace(g.grantId) == x
    {
      var i :| 0 <= i < |policies| && policies[i] == p;
      assert ExactPolicy(policies[i], grants, principal, now);
      ListedIff(active, grants, principal, now, p.key, x);
    }
  }

  lemma ListedIff(active: seq<Grant>, grants: Grants, principal: string, now: nat, key: CapKey, x: string)
    requires ById(grants) && ExactActive(active, grants, principal, now)
    ensures ListedAs(grants, principal, now, key, x)
        <==> x != "" && exists g :: g in active && Confers(g, key) && TrimSpace(g.grantId) == x
  {
    hide Gives, Confers, ExactActive, TrimSpace, ById;
    if ListedAs(grants, principal, now, key, x) {
      var id :| Gives(grants, principal, now, key, id) && TrimSpace(id) == x;
      GivesIff(active, grants, principal, now, key, id);
    }
    if x != "" && exists g :: g in active && Confers(g, key) && TrimSpace(g.grantId) == x {
      var g :| g in active && Confers(g, key) && TrimSpace(g.grantId) == x;
      GivesIff(active, grants, principal, now, key, g.grantId);
    }
  }

  lemma PolicyKeyIff(active: seq<Grant>, policies: seq<Policy>, grants: Grants, principal: string, now: nat,
                     key: CapKey)
    requires ById(grants) && ExactActive(active, grants, principal, now)
    requires ExactPolicies(policies, grants, principal, now)
    ensures key in PolicyKeys(policies) <==> exists g :: g in active && Confers(g, key)
  {
    hide Gives, Confers, ExactActive, TrimSpace, ById, ListedAs;
    if key in PolicyKeys(policies) {
      var i :| 0 <= i < |policies| && policies[i].key == key;
      assert ExactPolicy(policies[i], grants, principal, now);
      var id :| Gives(grants, principal, now, key, id);
      GivesIff(active, grants, principal, now, key, id);
    }
    if exists g :: g in active && Confers(g, key) {
      var g :| g in active && Confers(g, key);
      GivesIff(active, grants, principal, now, key, g.grantId);
      var i :| 0 <= i < |policies| && policies[i].key == key;
      assert key in PolicyKeys(policies);
    }
  }

  type CapabilityMap = map<CapKey, seq<string>>

  predicate HoldsIn(grants: Grants, id: string, key: CapKey) {
    id in grants && Holds(grants[id], key)
  }

  /** The map groups exactly the ids of `done` under the keys they hold. */
  ghost predicate Groups(m: CapabilityMap, grants: Grants, done: seq<string>) {
    && (forall key, id :: key in m && id in m[key] ==> id in done && HoldsIn(grants, id, key))
    && (forall key, id :: id in done && HoldsIn(grants, id, key) ==> key in m && id in m[key])
    && (forall key :: key in m ==> m[key] != [])
  }

  function Entry(m: CapabilityMap, key: CapKey): seq<string> {
    if key in m then m[key] else []
  }

  predicate Touched(key: CapKey, caps: seq<string>, item: Grant) {
    key.capability in caps && key.scopeKind == item.scopeKind && key.scopeId == item.scopeId
  }

  /** r is m with id appended under each key of item whose capability is listed. */
  ghost predicate Extended(r: CapabilityMap, m: CapabilityMap, caps: seq<string>, id: string, item: Grant) {
    && (forall key :: key in r <==> key in m || Touched(key, caps, item))
    && (forall key :: key in r ==> r[key] == Entry(m, key) + if Touched(key, caps, item) then [id] else [])
  }

  lemma ExtendedGroups(r: CapabilityMap, m: CapabilityMap, grants: Grants, done: seq<string>, id: string)
    requires id in grants && Groups(m, grants, done)
    requires Extended(r, m, NormalizeList(grants[id].capabilities), id, grants[id])
    ensures Groups(r, grants, done + [id])
  {
    hide NormalizeList;
    forall key ensures Touched(key, NormalizeList(grants[id].capabilities), grants[id]) == HoldsIn(grants, id, key) {}
  }

  lemma ExtendNothing(m: CapabilityMap, id: string, item: Grant)
    ensures Extended(m, m, [], id, item)
  {}

  lemma ExtendStep(r: CapabilityMap, m: CapabilityMap, caps: seq<string>, cap: string, id: string, item: Grant)
    requires Extended(r, m, caps, id, item) && cap !in caps
    ensures var key := CapKey(cap, item.scopeKind, item.scopeId);
            Extended(r[key := Entry(r, key) + [id]], m, caps + [cap], id, item)
  {
    var key := CapKey(cap, item.scopeKind, item.scopeId);
    var r' := r[key := Entry(r, key) + [id]];
    assert Entry(r, key) == Entry(m, key) by { assert !Touched(key, caps, item); }
    forall k ensures Touched(k, caps + [cap], item) <==> Touched(k, caps, item) || k == key {}
    forall k | k in r' ensures r'[k] == Entry(m, k) + if Touched(k, caps + [cap], item) then [id] else [] {
      if k != key { assert k in r; }
    }
  }

  /** The inner loop: one grant's id goes under each of its capabilities. */
  method AddGrant(m: CapabilityMap, id: string, item: Grant) returns (r: CapabilityMap)
    ensures Extended(r, m, NormalizeList(item.capabilities), id, item)
  {
    hide NormalizeList, Extended, Sorted, Members;
    r := m;
    assert Extended(r, m, [], id, item) by { ExtendNothing(m, id, item); }
    var caps := NormalizeStringList(item.capabilities);
    for i := 0 to |caps|
      invariant Extended(r, m, caps[..i], id, item)
    {
      var key := CapKey(caps[i], item.scopeKind, item.scopeId);
      assert caps[i] !in caps[..i];
      assert caps[..i + 1] == caps[..i] + [caps[i]];
      ExtendStep(r, m, caps[..i], caps[i], id, item);
      r := r[key := Entry(r, key) + [id]];
    }
    assert caps[..|caps|] == caps;
  }

  /** The grants giving p.key are listed by their trimmed ids, sorted and without repeats, and there are some. */
  ghost predicate ExactPolicy(p: Policy, grants: Grants, principal: string, now: nat) {
    && Sorted(StringLe, p.grantIds) && Distinct(p.grantIds)
    && (forall x :: x in p.grantIds <==> ListedAs(grants, principal, now, p.key, x))
    && (exists id :: Gives(grants, principal, now, p.key, id))
  }

  ghost predicate ListedAs(grants: Grants, principal: string, now: nat, key: CapKey, x: string) {
    x != "" && exists id :: Gives(grants, principal, now, key, id) && TrimSpace(id) == x
  }

  /** One entry per capability and scope that some active grant holds, in key order, with exactly those
      grants' ids. */
  ghost predicate ExactPolicies(policies: seq<Policy>, grants: Grants, principal: string, now: nat) {
    && (forall i :: 0 <= i < |policies| ==> ExactPolicy(policies[i], grants, principal, now))
    && (forall i, j :: 0 <= i < j < |policies| ==>
          policies[i].key != policies[j].key && CapKeyLe(policies[i].key, policies[j].key))
    && (forall key, id :: Gives(grants, principal, now, key, id) ==>
          exists i :: 0 <= i < |policies| && policies[i].key == key)
  }

  lemma GroupsNothing(grants: Grants)
    ensures Groups(map[], grants, [])
  {}

  lemma GroupedKeys(m: CapabilityMap, grants: Grants, principal: string, now: nat, ids: seq<string>, key: CapKey,
                    id: string)
    requires forall d :: d in ids <==> Active(grants, principal, now, d)
    requires Groups(m, grants, ids) && Gives(grants, principal, now, key, id)
    ensures key in m
  {
    hide Holds;
  }

  lemma ActiveStored(grants: Grants, principal: string, now: nat, id: string)
    requires Active(grants, principal, now, id)
    ensures id in grants
  {}

  lemma GroupedPolicy(m: CapabilityMap, grants: Grants, principal: string, now: nat, ids: seq<string>, key: CapKey)
    requires forall id :: id in ids <==> Active(grants, principal, now, id)
    requires Groups(m, grants, ids) && key in m
    ensures ExactPolicy(Policy(key, NormalizeList(m[key])), grants, principal, now)
  {
    hide Active, Holds, TrimSpace;
    var p := Policy(key, NormalizeList(m[key]));
    NormalizeListSpec(m[key]);
    forall id ensures Gives(grants, principal, now, key, id) <==> id in m[key] {
      if Active(grants, principal, now, id) { ActiveStored(grants, principal, now, id); }
    }
    assert m[key][0] in m[key];
    assert Gives(grants, principal, now, key, m[key][0]);
    forall x ensures x in p.grantIds <==> ListedAs(grants, principal, now, key, x) {
      assert x in p.grantIds <==> x in Members(m[key]);
    }
  }

  /** The policies part of the answer, from the ids the query returned. */
  method Policies(grants: Grants, principal: string, now: nat, ids: seq<string>) returns (policies: seq<Policy>)
    requires Distinct(ids)
    requires forall id :: id in ids <==> Active(grants, principal, now, id)
    ensures ExactPolicies(policies, grants, principal, now)
  {
    hide NormalizeList, Active, Holds, Extended, InEffect, Ended, Groups, ExactPolicy;
    var m: CapabilityMap := map[];
    assert Groups(m, grants, []) by { GroupsNothing(grants); }
    for i := 0 to |ids|
      invariant Groups(m, grants, ids[..i])
    {
      assert ids[i] in ids;
      ActiveStored(grants, principal, now, ids[i]);
      assert ids[..i + 1] == ids[..i] + [ids[i]];
      var extended := AddGrant(m, ids[i], grants[ids[i]]);
      ExtendedGroups(extended, m, grants, ids[..i], ids[i]);
      m := extended;
    }
    assert ids[..|ids|] == ids;
    var listed := Listed(m.Keys);
    CapKeyOrder();
    SortCorrect(CapKeyLe, listed);
    SortDistinct(CapKeyLe, listed);
    var keys := Sort(CapKeyLe, listed);
    forall k ensures k in keys <==> k in m { SortMembers(CapKeyLe, listed, k); }
    policies := [];
    for i := 0 to |keys|
      invariant |policies| == i
      invariant forall j :: 0 <= j < i ==>
                  policies[j].key == keys[j] && ExactPolicy(policies[j], grants, principal, now)
    {
      assert keys[i] in keys;
      var normalized := NormalizeStringList(m[keys[i]]);
      GroupedPolicy(m, grants, principal, now, ids, keys[i]);
      policies := policies + [Policy(keys[i], normalized)];
    }
    forall key, id | Gives(grants, principal, now, key, id)
      ensures exists i :: 0 <= i < |policies| && policies[i].key == key
    {
      GroupedKeys(m, grants, principal, now, ids, key, id);
      assert key in keys;
      var i :| 0 <= i < |keys| && keys[i] == key;
      assert policies[i].key == key;
    }
  }
}
