/** The authority operations of RuntimeService, run without interference. */
module AuthorityService {
  import opened Wrappers
  import opened Text
  import opened Helpers
  import opened Normalize
  import opened AuthorityTypes
  import opened Registry
  import opened Paging
  import opened Replay
  import opened GrantDraft
  import opened AuthorityLedger
  import opened Effective
  import opened AuthorityRuns
  import opened AuthorityTheorems

  /** GetAuthorityGrant: lookup by trimmed id. */
  function FindGrant(grants: Grants, id: string): Result<Grant> {
    if TrimSpace(id) in grants then Ok(grants[TrimSpace(id)]) else Err("not found")
  }

  lemma NoLegacyGrants(l: Ledger, grants: Grants)
    requires LedgerValid(l) && PrefixReplay(grants, AuthorityRows(l.rows)) && AuthorityRows(l.rows) == []
    ensures grants == map[]
  {
    hide LedgerValid, Decodable;
    LedgerDecodes(l);
    var rows := AuthorityRows(l.rows);
    var n :| 0 <= n <= |rows| && grants == GrantsOf(rows[..n]);
    assert rows[..n] == [];
  }

  lemma RowIdsPositive(l: Ledger)
    requires LedgerValid(l)
    ensures forall i :: 0 <= i < |l.rows| ==> 1 <= l.rows[i].rowId
  {}

  lemma WholeReplay(rows: seq<Row>)
    requires AllDecodable(rows)
    ensures PrefixReplay(GrantsOf(rows), rows)
  {
    assert rows[..|rows|] == rows;
  }

  /** Whatever is drafted from a replayed prefix may be appended. */
  lemma DraftSound(l: Ledger, grants: Grants, bundles: Bundles, input: GrantInput, freshId: string, now: nat)
    requires LedgerValid(l) && PrefixReplay(grants, AuthorityRows(l.rows)) && !Blank(freshId)
    requires Decide(grants, bundles, input, freshId, now).Ok?
    ensures var d := Decide(grants, bundles, input, freshId, now).value;
            && PayloadError(GrantPayload(d.grant, d.bundle)).None?
               && d.grant.supersedes == TrimSpace(d.grant.supersedes)
            && (d.grant.supersedes != "" ==>
                  NamedBefore(d.grant.supersedes, AuthorityRows(l.rows), |AuthorityRows(l.rows)|))
  {
    DraftReplays(grants, bundles, input, freshId, now);
    hide Decide, PayloadError, TrimSpace;
    var d := Decide(grants, bundles, input, freshId, now).value;
    if d.grant.supersedes != "" { TableIdsNamed(l, grants, d.grant.supersedes); }
  }

  /** Appending a drafted grant is accepted, and leaves the projection a replay of a prefix. */
  lemma AppendSound(l: Ledger, grants: Grants, d: Draft, now: nat)
    requires LedgerValid(l) && PrefixReplay(grants, AuthorityRows(l.rows))
    requires PayloadError(GrantPayload(d.grant, d.bundle)).None? && d.grant.supersedes == TrimSpace(d.grant.supersedes)
    requires d.grant.supersedes != "" ==>
               NamedBefore(d.grant.supersedes, AuthorityRows(l.rows), |AuthorityRows(l.rows)|)
    ensures var appended := Registry.Append(l, GrantAppend(d), "", now);
            && appended.1.Ok? && LedgerValid(appended.0) && PrefixReplay(grants, AuthorityRows(appended.0.rows))
  {
    hide LedgerValid, Decodable, PrefixReplay, PayloadError, TrimSpace, InputError, GrantAppend;
    LedgerDecodes(l);
    GrantAppendAccepted(d, "", now);
    GrantAppendKeeps(l, d, "", now);
    var l' := Registry.Append(l, GrantAppend(d), "", now).0;
    LedgerDecodes(l');
    AuthorityRowsGrow(l.rows, l'.rows);
    PrefixReplayGrows(grants, AuthorityRows(l.rows), AuthorityRows(l'.rows));
  }

  /** The table row carries what was asked for. */
  ghost predicate ShownAsAsked(g: Grant, input: GrantInput, freshId: string, grants: Grants, bundles: Bundles, now: nat)
  {
    var ended := TrimSpace(input.supersedes);
    && (ended != "" ==> ended in grants)
    && exists asked: Grant ::
         && Carries(asked, input, freshId, if ended != "" then Some(grants[ended]) else None, bundles, now)
         && Shows(g, asked, now)
  }

  /** A request accepted under a new id is what the next replay shows under it. */
  lemma AskedIsShown(l: Ledger, grants: Grants, bundles: Bundles, input: GrantInput, freshId: string, now: nat)
    requires LedgerValid(l) && PrefixReplay(grants, AuthorityRows(l.rows)) && !Blank(freshId)
    requires Decide(grants, bundles, input, freshId, now).Ok?
    ensures IndexExact(l)
    ensures var d := Decide(grants, bundles, input, freshId, now).value;
            var id := if Blank(input.grantId) then freshId else input.grantId;
            var rows := AuthorityRows(Registry.Append(l, GrantAppend(d), "", now).0.rows);
            && d.grant.grantId == id && AllDecodable(rows)
            && ("auth-" + id !in l.changeSets ==>
                  id in GrantsOf(rows) && ShownAsAsked(GrantsOf(rows)[id], input, freshId, grants, bundles, now))
  {
    LedgerDecodes(l);
    DraftCarries(grants, bundles, input, freshId, now);
    DraftSound(l, grants, bundles, input, freshId, now);
    var d := Decide(grants, bundles, input, freshId, now).value;
    hide LedgerValid, PayloadError, GrantsOf, PrefixReplay, Decide, Registry.Append, GrantAppend, TrimSpace, Normalized,
         Shows, AuthorityRows;
    GrantAppendKeeps(l, d, "", now);
    LedgerDecodes(Registry.Append(l, GrantAppend(d), "", now).0);
    if "auth-" + d.grant.grantId !in l.changeSets {
      var rows := AuthorityRows(Registry.Append(l, GrantAppend(d), "", now).0.rows);
      var n := |AuthorityRows(l.rows)|;
      assert rows[n] == DraftRow(l, d, now);
      LastRowShown(rows, n);
    }
  }

  class Service {
    const registry: RegistryTables
    var grants: Grants
    var bundles: Bundles

    ghost predicate Valid()
      reads this, registry
    {
      registry.Valid() && LedgerValid(registry.State()) && PrefixReplay(grants, AuthorityRows(registry.rows))
    }

    /** The projection shows the whole ledger. */
    ghost predicate Fresh()
      requires Valid()
      reads this, registry
    {
      grants == GrantsOf(AuthorityRows(registry.rows))
    }

    constructor ()
      ensures Valid() && fresh(registry) && registry.State() == EMPTY_LEDGER && grants == map[] && bundles == map[]
    {
      registry := new RegistryTables();
      grants, bundles := map[], map[];
      new;
      InitInv();
    }

    /** authorityStateNeedsMaterialize: comparing two counts decides staleness exactly. */
    method NeedsMaterialize() returns (needs: bool)
      requires Valid()
      ensures needs <==> !Fresh()
    {
      LedgerDecodes(registry.State());
      var rows := ReadAuthorityRows(registry.rows, PAGE_LIMIT);
      CountDecides(registry.State(), grants);
      needs := |grants| != |rows|;
    }

    /** MaterializeAuthorityState: never fails on a valid ledger, and leaves a fresh projection. */
    method MaterializeAuthorityState() returns (r: Result<nat>)
      requires Valid()
      modifies this
      ensures Valid() && Fresh()
      ensures bundles == BundlesOf(AuthorityRows(registry.rows), old(bundles))
      ensures r == Ok(|AuthorityRows(registry.rows)|)
    {
      hide LedgerValid, Decodable, GrantsOf, BundlesOf, PrefixReplay, AllDecodable, AuthorityRows;
      RowIdsPositive(registry.State());
      LedgerDecodes(registry.State());
      var rows := ReadAuthorityRows(registry.rows, PAGE_LIMIT);
      if |rows| == 0 {
        NoLegacyGrants(registry.State(), grants);
        assert grants == map[];
      }
      var rebuilt := Rebuild(rows, Tables(grants, bundles));
      assert rebuilt.Ok?;
      grants, bundles := rebuilt.value.grants, rebuilt.value.bundles;
      WholeReplay(rows);
      return Ok(|rows|);
    }

    method EnsureMaterialized() returns (r: Result<nat>)
      requires Valid()
      modifies this
      ensures Valid() && Fresh() && r.Ok?
      ensures bundles == if old(Fresh()) then old(bundles) else BundlesOf(AuthorityRows(registry.rows), old(bundles))
    {
      var needs := NeedsMaterialize();
      if !needs {
        return Ok(0);
      }
      r := MaterializeAuthorityState();
    }

    /** UpsertAuthorityBundle. */
    method UpsertAuthorityBundle(id: string, displayName: string, capabilities: seq<string>, status: string,
                                 metadata: string)
      returns (r: Result<Bundle>)
      requires Valid()
      modifies this
      ensures Valid() && grants == old(grants)
      ensures r.Ok? <==> !Blank(id) && NormalizeList(capabilities) != []
      ensures r.Err? ==> bundles == old(bundles)
      ensures r.Ok? ==>
                && bundles == old(bundles)[TrimSpace(id) := r.value] && r.value.bundleId == TrimSpace(id)
                && r.value.displayName == (if Blank(displayName) then None else Some(TrimSpace(displayName)))
                && r.value.capabilities == NormalizeList(capabilities) && r.value.metadata == metadata
                && r.value.status == (if Blank(status) then "active" else TrimSpace(status))
    {
      if Blank(id) {
        return Err("bundle_id is required");
      }
      var caps := NormalizeStringList(capabilities);
      if |caps| == 0 {
        return Err("capabilities are required");
      }
      var bundle := Bundle(TrimSpace(id), NullString(displayName), caps, StatusOrDefault(status, "active"), metadata);
      bundles := bundles[TrimSpace(id) := bundle];
      return Ok(bundle);
    }

    /** CreateAuthorityGrant: drafted from a fresh projection, appended, replayed and read back. */
    method CreateAuthorityGrant(input: GrantInput, freshId: string, now: nat) returns (r: Result<Grant>)
      requires Valid() && !Blank(freshId)
      modifies this, registry
      ensures Valid() && Fresh()
      ensures var before := GrantsOf(AuthorityRows(old(registry.rows)));
              var known := if old(Fresh()) then old(bundles)
                           else BundlesOf(AuthorityRows(old(registry.rows)), old(bundles));
              match Decide(before, known, input, freshId, now)
              case Err(e) => r == Err(e) && registry.State() == old(registry.State())
              case Ok(d) => registry.State() == Registry.Append(old(registry.State()), GrantAppend(d), "", now).0
                            && r == FindGrant(grants, d.grant.grantId)
      ensures var before := GrantsOf(AuthorityRows(old(registry.rows)));
              var known := if old(Fresh()) then old(bundles)
                           else BundlesOf(AuthorityRows(old(registry.rows)), old(bundles));
              Decide(before, known, input, freshId, now).Ok? ==>
                var id := if Blank(input.grantId) then freshId else input.grantId;
                && ("auth-" + id !in old(registry.changeSets) ==>
                      id in grants && ShownAsAsked(grants[id], input, freshId, before, known, now))
                && r == (if TrimSpace(id) in grants then Ok(grants[TrimSpace(id)]) else Err("not found"))
    {
      hide LedgerValid, Decodable, GrantsOf, BundlesOf, PrefixReplay, Decide, Registry.Append, PayloadError, Blank,
           TrimSpace, ShownAsAsked;
      LedgerDecodes(registry.State());
      var ensured := EnsureMaterialized();
      ghost var known := bundles;
      var decision := DecideGrant(grants, bundles, input, freshId, now);
      if decision.Err? {
        return Err(decision.error);
      }
      var d := decision.value;
      DraftSound(registry.State(), grants, bundles, input, freshId, now);
      AppendSound(registry.State(), grants, d, now);
      var appended := registry.AppendRegistryChangeSet(GrantAppend(d), "", now);
      assert appended.Ok?;
      var rebuilt := MaterializeAuthorityState();
      r := FindGrant(grants, d.grant.grantId);
      AskedIsShown(old(registry.State()), GrantsOf(AuthorityRows(old(registry.rows))), known, input, freshId, now);
    }

    /** GetEffectiveAuthorityByPrincipal: the exact active grants, newest first, and their capabilities. */
    method GetEffectiveAuthorityByPrincipal(principalId: string, now: nat) returns (r: Result<EffectiveAuthority>)
      requires Valid()
      modifies this
      ensures Valid() && Fresh()
      ensures r.Err? <==> Blank(principalId)
      ensures r.Ok? ==>
                && r.value.principal == TrimSpace(principalId) && r.value.computedAt == now
                && ExactPolicies(r.value.policies, grants, TrimSpace(principalId), now)
                && ExactActive(r.value.activeGrants, grants, TrimSpace(principalId), now)
                && Reads(r.value.activeGrants, r.value.policies, grants, TrimSpace(principalId), now)
    {
      hide LedgerValid, Decodable, GrantsOf, BundlesOf, PrefixReplay, Active, InForce, ExactPolicies, TrimSpace, Reads,
           ById;
      var ensured := EnsureMaterialized();
      if TrimSpace(principalId) == "" {
        return Err("principal_id is required");
      }
      var principal := TrimSpace(principalId);
      var ids := QueryActive(grants, principal, now);
      forall id | id in ids ensures id in grants { ActiveStored(grants, principal, now, id); }
      forall i | 0 <= i < |ids| ensures ids[i] in grants { assert ids[i] in ids; }
      var table := grants;
      var active := seq(|ids|, i requires 0 <= i < |ids| && ids[i] in table => table[ids[i]]);
      assert Rows(active, grants, ids);
      var policies := Policies(grants, principal, now, ids);
      TableKeyed(registry.State(), grants);
      AnswerReads(active, policies, grants, principal, now);
      return Ok(EffectiveAuthority(principal, now, active, policies));
    }
  }
}
