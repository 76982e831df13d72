/** The part of CreateAuthorityGrant that reads the projection and composes the grant to append. */
module GrantDraft {
  import opened Wrappers
  import opened Text
  import opened Helpers
  import opened Normalize
  import opened AuthorityTypes
  import opened Registry
  import opened Paging
  import opened Replay

  datatype GrantInput = GrantInput(
    grantId: string, grantor: string, grantee: string, bundleId: string, scopeKind: string, scopeId: string,
    delegationMode: string, basis: string, status: string, effectiveAt: Option<nat>, expiresAt: Option<nat>,
    supersedes: string, reason: string, evidenceRefs: seq<string>, metadata: string)

  datatype Draft = Draft(grant: Grant, bundle: BundleSnapshot)

  const STATUSES := {"proposed", "accepted", "rejected", "revoked", "expired", "superseded"}

  function Inherit(value: string, inherited: string): string {
    if Blank(value) then inherited else value
  }

  /** Fields left blank are taken from the superseded grant. */
  function Inherited(input: GrantInput, from: Grant): GrantInput {
    input.(grantee := Inherit(input.grantee, from.grantee),
           bundleId := Inherit(input.bundleId, from.bundleId),
           scopeKind := Inherit(input.scopeKind, from.scopeKind),
           scopeId := Inherit(input.scopeId, from.scopeId),
           delegationMode := Inherit(input.delegationMode, from.delegationMode),
           basis := Inherit(input.basis, from.basis))
  }

  /** A revocation or supersession repeats the capabilities of what it ends; a grant takes its bundle's. */
  function Snapshot(status: string, bundle: Bundle, superseded: Option<Grant>): seq<string> {
    if superseded.Some? && superseded.value.capabilities != [] && (status == "revoked" || status == "superseded")
    then NormalizeList(superseded.value.capabilities)
    else NormalizeList(bundle.capabilities)
  }

  /** From the required-field checks to the composed grant; input has its inherited fields filled in. */
  function Compose(
      input: GrantInput, status: string, superseded: Option<Grant>, bundles: Bundles, now: nat): Result<Draft>
  {
    if Blank(input.grantee) then Err("grantee_principal_id is required")
    else if Blank(input.bundleId) then Err("bundle_id is required")
    else if Blank(input.scopeKind) || Blank(input.scopeId) then Err("scope_kind and scope_id are required")
    else if TrimSpace(input.bundleId) !in bundles then Err("not found")
    else
      var bundle := bundles[TrimSpace(input.bundleId)];
      var capabilities := Snapshot(status, bundle, superseded);
      if capabilities == [] then Err("no capabilities")
      else Ok(Draft(
        Grant(input.grantId, TrimSpace(input.grantor), TrimSpace(input.grantee), TrimSpace(input.bundleId),
              capabilities, TrimSpace(input.scopeKind), TrimSpace(input.scopeId),
              StatusOrDefault(input.delegationMode, "none"), StatusOrDefault(input.basis, "delegated"), status,
              if input.effectiveAt.None? && status == "accepted" then Some(now) else input.effectiveAt,
              input.expiresAt, input.supersedes, TrimSpace(input.reason), NormalizeList(input.evidenceRefs),
              input.metadata, now),
        BundleSnapshot(bundle.bundleId, if bundle.displayName.Some? then bundle.displayName.value else "",
                       NormalizeList(bundle.capabilities), bundle.status, bundle.metadata)))
  }

  /** CreateAuthorityGrant up to the append; freshId is the random id drawn when none is given. */
  function Decide(grants: Grants, bundles: Bundles, input: GrantInput, freshId: string, now: nat): Result<Draft> {
    var status := StatusOrDefault(input.status, "accepted");
    var named := input.(grantId := if Blank(input.grantId) then freshId else input.grantId,
                        supersedes := TrimSpace(input.supersedes));
    if status !in STATUSES then Err("status")
    else if named.supersedes == "" then Compose(named, status, None, bundles, now)
    else if named.supersedes !in grants then Err("not found")
    else Compose(Inherited(named, grants[named.supersedes]), status, Some(grants[named.supersedes]), bundles, now)
  }

  /** The change set that carries a grant. */
  function GrantAppend(d: Draft): AppendInput {
    var id := "auth-" + d.grant.grantId;
    AppendInput(id, AUTHORITY.reference, AUTHORITY.seedId, AUTHORITY.realizationId, id,
                StatusOrDefault(d.grant.grantor, "system"), "authority",
                [RowInput(GRANT_CREATE, d.grant.grantId, d.grant.grantId, GrantPayload(d.grant, d.bundle))])
  }

  lemma TrimmedNotBlank(s: string)
    requires !Blank(s)
    ensures !Blank(TrimSpace(s))
  {
    TrimSpaceIdempotent(s);
  }

  /** Every draft replays, has capabilities, and supersedes only a grant that is in the table. */
  lemma DraftReplays(grants: Grants, bundles: Bundles, input: GrantInput, freshId: string, now: nat)
    requires !Blank(freshId) && Decide(grants, bundles, input, freshId, now).Ok?
    ensures var g := Decide(grants, bundles, input, freshId, now).value.grant;
            && PayloadError(GrantPayload(g, Decide(grants, bundles, input, freshId, now).value.bundle)).None?
            && g.capabilities != []
            && g.supersedes == TrimSpace(g.supersedes)
            && (g.supersedes != "" ==> g.supersedes in grants)
  {
    TrimSpaceIdempotent(input.supersedes);
    var status := StatusOrDefault(input.status, "accepted");
    var named := input.(grantId := if Blank(input.grantId) then freshId else input.grantId,
                        supersedes := TrimSpace(input.supersedes));
    var filled := if named.supersedes == "" then named else Inherited(named, grants[named.supersedes]);
    var superseded := if named.supersedes == "" then None else Some(grants[named.supersedes]);
    ComposeReplays(filled, status, superseded, bundles, now);
  }

  lemma ComposeReplays(input: GrantInput, status: string, superseded: Option<Grant>, bundles: Bundles, now: nat)
    requires !Blank(input.grantId) && Compose(input, status, superseded, bundles, now).Ok?
    ensures var d := Compose(input, status, superseded, bundles, now).value;
            PayloadError(GrantPayload(d.grant, d.bundle)).None? && d.grant.capabilities != []
            && d.grant.supersedes == input.supersedes && d.grant.grantId == input.grantId
  {
    TrimmedNotBlank(input.grantee);
    TrimmedNotBlank(input.bundleId);
    TrimmedNotBlank(input.scopeKind);
    TrimmedNotBlank(input.scopeId);
  }

  /** What a request gives, or else the grant it supersedes. */
  function Given(value: string, inherited: string): string {
    TrimSpace(if Blank(value) then inherited else value)
  }

  /** The grant that blank fields are taken from; a request that supersedes nothing leaves them blank. */
  function From(ended: Option<Grant>): Grant {
    if ended.Some? then ended.value
    else Grant("", "", "", "", [], "", "", "", "", "", None, None, "", "", [], "", 0)
  }

  /** Where an accepted request's capabilities come from: a revocation or supersession repeats those of the grant it
      ends, if that has any, and any other request takes its bundle's. */
  function Granted(status: string, bundle: Bundle, ended: Option<Grant>): seq<string> {
    if ended.Some? && ended.value.capabilities != [] && status in {"revoked", "superseded"}
    then ended.value.capabilities else bundle.capabilities
  }

  /** The grant g carries what was asked for: its own times, and for every field left blank that of the grant it
      ends. */
  ghost predicate Carries(g: Grant, input: GrantInput, freshId: string, ended: Option<Grant>, bundles: Bundles,
                          now: nat)
  {
    && g.grantId == (if Blank(input.grantId) then freshId else input.grantId)
    && g.status == (if Blank(input.status) then "accepted" else TrimSpace(input.status))
    && g.supersedes == TrimSpace(input.supersedes)
    && g.grantee == Given(input.grantee, From(ended).grantee) != ""
    && g.bundleId == Given(input.bundleId, From(ended).bundleId)
    && g.scopeKind == Given(input.scopeKind, From(ended).scopeKind) != ""
    && g.scopeId == Given(input.scopeId, From(ended).scopeId) != ""
    && (g.delegationMode == if Given(input.delegationMode, From(ended).delegationMode) == "" then "none"
                            else Given(input.delegationMode, From(ended).delegationMode))
    && (g.basis == if Given(input.basis, From(ended).basis) == "" then "delegated"
                   else Given(input.basis, From(ended).basis))
    && (g.effectiveAt == if input.effectiveAt.None? && g.status == "accepted" then Some(now) else input.effectiveAt)
    && g.expiresAt == input.expiresAt && g.createdAt == now && g.metadata == input.metadata
    && g.grantor == TrimSpace(input.grantor) && g.reason == TrimSpace(input.reason)
    && g.bundleId in bundles && g.capabilities != []
    && Normalized(g.capabilities, Granted(g.status, bundles[g.bundleId], ended))
    && Normalized(g.evidenceRefs, input.evidenceRefs)
  }

  /** The payload's copy of the bundle. */
  ghost predicate Copies(b: BundleSnapshot, bundle: Bundle) {
    && b.bundleId == bundle.bundleId && b.status == bundle.status && b.metadata == bundle.metadata
    && b.displayName == (if bundle.displayName.Some? then bundle.displayName.value else "")
    && Normalized(b.capabilities, bundle.capabilities)
  }

  /** An accepted request is drafted as it was made. */
  lemma DraftCarries(grants: Grants, bundles: Bundles, input: GrantInput, freshId: string, now: nat)
    requires Decide(grants, bundles, input, freshId, now).Ok?
    ensures var d := Decide(grants, bundles, input, freshId, now).value;
            var id := TrimSpace(input.supersedes);
            && (id != "" ==> id in grants)
            && Carries(d.grant, input, freshId, if id != "" then Some(grants[id]) else None, bundles, now)
            && Copies(d.bundle, bundles[d.grant.bundleId])
  {
    hide TrimSpace, Normalized, Compose, Granted, Given, Inherit, StatusOrDefault, Copies;
    StatusIs(input.status, "accepted");
    var id := TrimSpace(input.supersedes);
    var ended := if id != "" then Some(grants[id]) else None;
    var status := StatusOrDefault(input.status, "accepted");
    var named := input.(grantId := if Blank(input.grantId) then freshId else input.grantId, supersedes := id);
    var from := From(ended);
    InheritedField(input.grantee, from.grantee, "");
    InheritedField(input.bundleId, from.bundleId, "");
    InheritedField(input.scopeKind, from.scopeKind, "");
    InheritedField(input.scopeId, from.scopeId, "");
    InheritedField(input.delegationMode, from.delegationMode, "none");
    InheritedField(input.basis, from.basis, "delegated");
    if id == "" {
      ComposeCarries(named, status, None, bundles, now);
    } else {
      ComposeCarries(Inherited(named, grants[id]), status, ended, bundles, now);
    }
  }

  lemma StatusIs(value: string, fallback: string)
    ensures StatusOrDefault(value, fallback) == if Blank(value) then fallback else TrimSpace(value)
  {}

  lemma InheritedField(value: string, inherited: string, fallback: string)
    ensures TrimSpace(Inherit(value, inherited)) == Given(value, inherited)
    ensures inherited == "" ==> TrimSpace(value) == Given(value, inherited)
    ensures StatusOrDefault(Inherit(value, inherited), fallback)
         == if Given(value, inherited) == "" then fallback else Given(value, inherited)
    ensures inherited == "" ==> StatusOrDefault(value, fallback) == StatusOrDefault(Inherit(value, inherited), fallback)
  {
    TrimSpaceFixpoint("");
    hide TrimSpace;
  }

  /** The composed grant, from the request with its inherited fields filled in. */
  lemma ComposeCarries(input: GrantInput, status: string, ended: Option<Grant>, bundles: Bundles, now: nat)
    requires Compose(input, status, ended, bundles, now).Ok?
    ensures var g := Compose(input, status, ended, bundles, now).value.grant;
            && g.grantId == input.grantId && g.status == status && g.supersedes == input.supersedes
            && g.grantee == TrimSpace(input.grantee) != "" && g.bundleId == TrimSpace(input.bundleId)
            && g.scopeKind == TrimSpace(input.scopeKind) != "" && g.scopeId == TrimSpace(input.scopeId) != ""
            && g.delegationMode == StatusOrDefault(input.delegationMode, "none")
            && g.basis == StatusOrDefault(input.basis, "delegated")
            && (g.effectiveAt
                == if input.effectiveAt.None? && status == "accepted" then Some(now) else input.effectiveAt)
            && g.expiresAt == input.expiresAt && g.createdAt == now && g.metadata == input.metadata
            && g.grantor == TrimSpace(input.grantor) && g.reason == TrimSpace(input.reason)
            && g.bundleId in bundles && g.capabilities != []
            && Normalized(g.capabilities, Granted(status, bundles[g.bundleId], ended))
            && Normalized(g.evidenceRefs, input.evidenceRefs)
            && Copies(Compose(input, status, ended, bundles, now).value.bundle, bundles[g.bundleId])
  {
    hide TrimSpace, NormalizeList, Normalized, StatusOrDefault;
    var bundle := bundles[TrimSpace(input.bundleId)];
    NormalizedList(Granted(status, bundle, ended));
    NormalizedList(bundle.capabilities);
    NormalizedList(input.evidenceRefs);
  }

  /** From the required-field checks of CreateAuthorityGrant to the composed grant. */
  method ComposeGrant(input: GrantInput, status: string, superseded: Option<Grant>, bundles: Bundles, now: nat)
    returns (r: Result<Draft>)
    ensures r == Compose(input, status, superseded, bundles, now)
  {
    hide TrimSpace, NormalizeList;
    var grantee, bundleId := TrimSpace(input.grantee), TrimSpace(input.bundleId);
    var scopeKind, scopeId := TrimSpace(input.scopeKind), TrimSpace(input.scopeId);
    if grantee == "" {
      return Err("grantee_principal_id is required");
    }
    if bundleId == "" {
      return Err("bundle_id is required");
    }
    if scopeKind == "" || scopeId == "" {
      return Err("scope_kind and scope_id are required");
    }
    if bundleId !in bundles {
      return Err("not found");
    }
    var bundle := bundles[bundleId];
    var listed := NormalizeStringList(bundle.capabilities);
    var capabilities := listed;
    if superseded.Some? && |superseded.value.capabilities| > 0 && (status == "revoked" || status == "superseded") {
      capabilities := NormalizeStringList(superseded.value.capabilities);
    }
    if |capabilities| == 0 {
      return Err("no capabilities");
    }
    var effectiveAt := input.effectiveAt;
    if effectiveAt.None? && status == "accepted" {
      effectiveAt := Some(now);
    }
    var evidenceRefs := NormalizeStringList(input.evidenceRefs);
    var grant := Grant(input.grantId, TrimSpace(input.grantor), grantee, bundleId, capabilities, scopeKind, scopeId,
                       StatusOrDefault(input.delegationMode, "none"), StatusOrDefault(input.basis, "delegated"), status,
                       effectiveAt, input.expiresAt, input.supersedes, TrimSpace(input.reason), evidenceRefs,
                       input.metadata, now);
    var name := if bundle.displayName.Some? then bundle.displayName.value else "";
    return Ok(Draft(grant, BundleSnapshot(bundle.bundleId, name, listed, bundle.status, bundle.metadata)));
  }

  /** CreateAuthorityGrant up to the append. */
  method DecideGrant(grants: Grants, bundles: Bundles, request: GrantInput, freshId: string, now: nat)
    returns (r: Result<Draft>)
    ensures r == Decide(grants, bundles, request, freshId, now)
  {
    hide TrimSpace, Compose;
    var input := request;
    if Blank(input.grantId) {
      input := input.(grantId := freshId);
    }
    var status := StatusOrDefault(input.status, "accepted");
    if status !in STATUSES {
      return Err("status");
    }
    input := input.(supersedes := TrimSpace(input.supersedes));
    if input.supersedes == "" {
      r := ComposeGrant(input, status, None, bundles, now);
      return;
    }
    if input.supersedes !in grants {
      return Err("not found");
    }
    var superseded := grants[input.supersedes];
    if Blank(input.grantee) {
      input := input.(grantee := superseded.grantee);
    }
    if Blank(input.bundleId) {
      input := input.(bundleId := superseded.bundleId);
    }
    if Blank(input.scopeKind) {
      input := input.(scopeKind := superseded.scopeKind);
    }
    if Blank(input.scopeId) {
      input := input.(scopeId := superseded.scopeId);
    }
    if Blank(input.delegationMode) {
      input := input.(delegationMode := superseded.delegationMode);
    }
    if Blank(input.basis) {
      input := input.(basis := superseded.basis);
    }
    r := ComposeGrant(input, status, Some(superseded), bundles, now);
  }

  /** What a request leaves open is taken from the grant it supersedes, if that names one. */
  function Filled(grants: Grants, input: GrantInput): GrantInput
    requires TrimSpace(input.supersedes) == "" || TrimSpace(input.supersedes) in grants
  {
    if TrimSpace(input.supersedes) == "" then input else Inherited(input, grants[TrimSpace(input.supersedes)])
  }

  /** A request is accepted exactly when its status is known, the grant it supersedes exists, everything required
      is given or inherited, its bundle exists, and some capability comes with it: the bundle's, or, for a
      revocation or supersession, those of the grant it ends when that has any. */
  lemma DraftAcceptedIff(grants: Grants, bundles: Bundles, input: GrantInput, freshId: string, now: nat)
    ensures var status := StatusOrDefault(input.status, "accepted");
            var id := TrimSpace(input.supersedes);
            Decide(grants, bundles, input, freshId, now).Ok? <==>
              && status in STATUSES && (id == "" || id in grants)
              && var e := Filled(grants, input);
                 && !Blank(e.grantee) && !Blank(e.bundleId) && !Blank(e.scopeKind) && !Blank(e.scopeId)
                 && TrimSpace(e.bundleId) in bundles
                 && Members(Source(grants, bundles[TrimSpace(e.bundleId)], id, status)) != {}
  {
    var status := StatusOrDefault(input.status, "accepted");
    var id := TrimSpace(input.supersedes);
    hide TrimSpace, NormalizeList, Members, StatusOrDefault;
    if status in STATUSES && (id == "" || id in grants) {
      var e := Filled(grants, input);
      if TrimSpace(e.bundleId) in bundles {
        NoMembers(Source(grants, bundles[TrimSpace(e.bundleId)], id, status));
      }
    }
  }

  /** Where the capabilities of a grant come from. */
  function Source(grants: Grants, bundle: Bundle, id: string, status: string): seq<string>
    requires id == "" || id in grants
  {
    if id != "" && grants[id].capabilities != [] && (status == "revoked" || status == "superseded")
    then grants[id].capabilities
    else bundle.capabilities
  }

  /** A revocation that names only the grant it ends carries that grant's grantee, bundle, scope and
      capabilities, whatever has become of the bundle's own capability list since. */
  lemma RevocationMirrors(grants: Grants, bundles: Bundles, input: GrantInput, freshId: string, now: nat)
    requires TrimSpace(input.supersedes) in grants && TrimSpace(input.supersedes) != ""
    requires Blank(input.grantee) && Blank(input.bundleId) && Blank(input.scopeKind) && Blank(input.scopeId)
    requires StatusOrDefault(input.status, "accepted") == "revoked"
    requires Decide(grants, bundles, input, freshId, now).Ok?
    ensures var g := Decide(grants, bundles, input, freshId, now).value.grant;
            var ended := grants[TrimSpace(input.supersedes)];
            && g.grantee == TrimSpace(ended.grantee) && g.bundleId == TrimSpace(ended.bundleId)
            && g.scopeKind == TrimSpace(ended.scopeKind) && g.scopeId == TrimSpace(ended.scopeId)
            && (ended.capabilities != [] ==> g.capabilities == NormalizeList(ended.capabilities))
  {
    hide TrimSpace, NormalizeList;
  }
}
