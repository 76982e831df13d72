/** Replaying authority rows into runtime_authority_grants and runtime_authority_bundles. */
module Replay {
  import opened Wrappers
  import opened Text
  import opened Helpers
  import opened Sorting
  import opened Normalize
  import opened AuthorityTypes
  import opened Registry
  import opened Paging
  import opened Upserts

  type Grants = map<string, Grant>
  type Bundles = map<string, Bundle>

  /** The checks that materializeAuthorityGrantPayload makes; any other payload decodes to a blank grant. */
  function PayloadError(p: Payload): Option<string> {
    match p
    case OtherPayload(_) => Some("grant_id")
    case GrantPayload(g, _) =>
      if Blank(g.grantId) then Some("grant_id")
      else if Blank(g.bundleId) then Some("bundle_id")
      else if Blank(g.grantee) then Some("grantee_principal_id")
      else if Blank(g.scopeKind) || Blank(g.scopeId) then Some("scope")
      else None
  }

  predicate Decodable(row: Row) {
    PayloadError(row.payload).None?
  }

  /** The grant as its table row stores it. */
  function Stored(g: Grant, acceptedAt: nat): Grant {
    g.(grantor := TrimSpace(g.grantor), capabilities := NormalizeList(g.capabilities),
       effectiveAt := NullTime(g.effectiveAt), expiresAt := NullTime(g.expiresAt),
       supersedes := TrimSpace(g.supersedes), reason := TrimSpace(g.reason),
       evidenceRefs := NormalizeList(g.evidenceRefs),
       createdAt := if g.createdAt == 0 then acceptedAt else g.createdAt)
  }

  function StoredRow(row: Row): Grant
    requires Decodable(row)
  {
    Stored(row.payload.grant, row.acceptedAt)
  }

  /** What one payload writes to its bundle's row. */
  datatype BundleEdit = BundleEdit(bundleId: string, displayName: Option<string>, capabilities: seq<string>,
                                   metadata: string)

  function EditOf(row: Row): BundleEdit
    requires Decodable(row)
  {
    EditOfPayload(row.payload.bundle, row.payload.grant)
  }

  function EditOfPayload(b: BundleSnapshot, g: Grant): BundleEdit {
    BundleEdit(
      if TrimSpace(b.bundleId) != "" then TrimSpace(b.bundleId) else TrimSpace(g.bundleId),
      NullString(b.displayName),
      if NormalizeList(b.capabilities) != [] then NormalizeList(b.capabilities) else NormalizeList(g.capabilities),
      b.metadata)
  }

  /** insert ... on conflict (bundle_id) do update of upsertAuthorityBundleMaterialized. */
  function UpsertBundle(bundles: Bundles, e: BundleEdit): Bundles {
    if e.bundleId in bundles then
      var stored := bundles[e.bundleId];
      bundles[e.bundleId := Bundle(e.bundleId,
                                   if e.displayName.Some? then e.displayName else stored.displayName,
                                   if e.capabilities != [] then e.capabilities else stored.capabilities,
                                   "active", e.metadata)]
    else bundles[e.bundleId := Bundle(e.bundleId, e.displayName, e.capabilities, "active", e.metadata)]
  }

  ghost predicate AllDecodable(rows: seq<Row>) {
    forall i :: 0 <= i < |rows| ==> Decodable(rows[i])
  }

  /** What each row writes to the grants table, under its grant id. */
  ghost function GrantEntries(rows: seq<Row>): seq<(string, Grant)>
    requires AllDecodable(rows)
  {
    seq(|rows|, i requires 0 <= i < |rows| => (rows[i].payload.grant.grantId, StoredRow(rows[i])))
  }

  /** The grants table left by upserting these rows in order into an empty table. */
  ghost function GrantsOf(rows: seq<Row>): Grants
    requires AllDecodable(rows)
  {
    TableOf(GrantEntries(rows))
  }

  /** The bundles table left by upserting these rows' bundles in order. */
  ghost function BundlesOf(rows: seq<Row>, bundles: Bundles): Bundles
    requires AllDecodable(rows)
  {
    if rows == [] then bundles
    else UpsertBundle(BundlesOf(rows[..|rows| - 1], bundles), EditOf(rows[|rows| - 1]))
  }

  /** The list holds the values' trimmed non-blank members, each once and in order. */
  ghost predicate Normalized(list: seq<string>, values: seq<string>) {
    && Sorted(StringLe, list) && Distinct(list)
    && (forall x :: x in list <==> x != "" && exists v :: v in values && TrimSpace(v) == x)
  }

  lemma NormalizedList(values: seq<string>)
    ensures Normalized(NormalizeList(values), values)
  {
    NormalizeListSpec(values);
    hide NormalizeList, TrimSpace;
  }

  /** The table row g shows the grant p of a payload accepted at this time: all of its fields, its lists without
      blanks and repeats, the zero time as no time, and the acceptance as its creation when it has none. */
  ghost predicate Shows(g: Grant, p: Grant, acceptedAt: nat) {
    && g.grantId == p.grantId && g.grantee == p.grantee && g.bundleId == p.bundleId
    && g.scopeKind == p.scopeKind && g.scopeId == p.scopeId && g.status == p.status
    && g.delegationMode == p.delegationMode && g.basis == p.basis && g.metadata == p.metadata
    && g.grantor == TrimSpace(p.grantor) && g.supersedes == TrimSpace(p.supersedes) && g.reason == TrimSpace(p.reason)
    && Normalized(g.capabilities, p.capabilities) && Normalized(g.evidenceRefs, p.evidenceRefs)
    && g.effectiveAt == (if p.effectiveAt == Some(0) then None else p.effectiveAt)
    && g.expiresAt == (if p.expiresAt == Some(0) then None else p.expiresAt)
    && g.createdAt == (if p.createdAt != 0 then p.createdAt else acceptedAt)
  }

  lemma StoredShows(g: Grant, acceptedAt: nat)
    ensures Shows(Stored(g, acceptedAt), g, acceptedAt)
  {
    hide NormalizeList, TrimSpace, Normalized;
    NormalizedList(g.capabilities);
    NormalizedList(g.evidenceRefs);
  }

  /** The bundle row b shows a payload whose bundle id, trimmed, is this one: the payload's name when it has one,
      and its capabilities, or else its grant's, when there are any; what was stored before otherwise. */
  ghost predicate ShowsBundle(b: Bundle, id: string, before: Option<Bundle>, p: Payload)
    requires p.GrantPayload?
  {
    var name := TrimSpace(p.bundle.displayName);
    var listed := if Members(p.bundle.capabilities) != {} then p.bundle.capabilities else p.grant.capabilities;
    && b.bundleId == id && b.status == "active" && b.metadata == p.bundle.metadata
    && b.displayName == (if name != "" then Some(name) else if before.Some? then before.value.displayName else None)
    && (Members(listed) != {} || before.None? ==> Normalized(b.capabilities, listed))
    && (Members(listed) == {} && before.Some? ==> b.capabilities == before.value.capabilities)
  }

  /** materializeAuthorityGrantPayload for one row. */
  method MaterializePayload(row: Row, grants: Grants, bundles: Bundles) returns (r: Result<(Grants, Bundles)>)
    ensures r.Ok? <==> Decodable(row)
    ensures r.Ok? ==>
              r.value == (grants[row.payload.grant.grantId := StoredRow(row)], UpsertBundle(bundles, EditOf(row)))
    ensures r.Ok? ==>
              && row.payload.GrantPayload? && row.payload.grant.grantId in r.value.0
              && Shows(r.value.0[row.payload.grant.grantId], row.payload.grant, row.acceptedAt)
    ensures r.Ok? ==>
              var named := TrimSpace(row.payload.bundle.bundleId);
              var id := if named != "" then named else TrimSpace(row.payload.grant.bundleId);
              && id in r.value.1 && r.value.1 == bundles[id := r.value.1[id]]
              && ShowsBundle(r.value.1[id], id, if id in bundles then Some(bundles[id]) else None, row.payload)
  {
    hide NormalizeList, TrimSpace, Normalized, Members, ShowsBundle;
    match row.payload {
      case OtherPayload(_) => return Err("grant_id");
      case GrantPayload(grant, bundle) =>
        if Blank(grant.grantId) {
          return Err("grant_id");
        }
        if Blank(grant.bundleId) {
          return Err("bundle_id");
        }
        if Blank(grant.grantee) {
          return Err("grantee_principal_id");
        }
        if Blank(grant.scopeKind) || Blank(grant.scopeId) {
          return Err("scope");
        }
        var edited := UpsertMaterializedBundle(bundle, grant, bundles);
        BundleShown(bundles, row);
        var createdAt := grant.createdAt;
        if createdAt == 0 {
          createdAt := row.acceptedAt;
        }
        var capabilities := NormalizeStringList(grant.capabilities);
        var evidenceRefs := NormalizeStringList(grant.evidenceRefs);
        var stored := Grant(grant.grantId, TrimSpace(grant.grantor), grant.grantee, grant.bundleId, capabilities,
                            grant.scopeKind, grant.scopeId, grant.delegationMode, grant.basis, grant.status,
                            NullTime(grant.effectiveAt), NullTime(grant.expiresAt), TrimSpace(grant.supersedes),
                            TrimSpace(grant.reason), evidenceRefs, grant.metadata, createdAt);
        StoredShows(grant, row.acceptedAt);
        return Ok((grants[grant.grantId := stored], edited));
    }
  }

  /** upsertAuthorityBundleMaterialized; a payload that replays always names a bundle. */
  method UpsertMaterializedBundle(bundle: BundleSnapshot, grant: Grant, bundles: Bundles) returns (r: Bundles)
    requires !Blank(grant.bundleId)
    ensures r == UpsertBundle(bundles, EditOfPayload(bundle, grant))
  {
    hide NormalizeList, TrimSpace;
    var bundleId := TrimSpace(bundle.bundleId);
    if bundleId == "" {
      bundleId := TrimSpace(grant.bundleId);
    }
    var capabilities := NormalizeStringList(bundle.capabilities);
    if |capabilities| == 0 {
      capabilities := NormalizeStringList(grant.capabilities);
    }
    var displayName := NullString(bundle.displayName);
    if bundleId in bundles {
      if displayName.None? {
        displayName := bundles[bundleId].displayName;
      }
      if |capabilities| == 0 {
        capabilities := bundles[bundleId].capabilities;
      }
    }
    r := bundles[bundleId := Bundle(bundleId, displayName, capabilities, "active", bundle.metadata)];
  }

  lemma NoMembers(values: seq<string>)
    ensures NormalizeList(values) == [] <==> Members(values) == {}
  {
    NormalizeListSpec(values);
    hide NormalizeList;
    if NormalizeList(values) != [] {
      assert NormalizeList(values)[0] in NormalizeList(values);
      assert NormalizeList(values)[0] in Members(values);
    }
  }

  lemma BundleShown(bundles: Bundles, row: Row)
    requires Decodable(row)
    ensures var e := EditOf(row);
            var t := UpsertBundle(bundles, e);
            && e.bundleId in t && t == bundles[e.bundleId := t[e.bundleId]]
            && ShowsBundle(t[e.bundleId], e.bundleId, if e.bundleId in bundles then Some(bundles[e.bundleId]) else None,
                           row.payload)
  {
    var b, g := row.payload.bundle, row.payload.grant;
    NoMembers(b.capabilities);
    NoMembers(g.capabilities);
    NormalizedList(b.capabilities);
    NormalizedList(g.capabilities);
    hide NormalizeList, TrimSpace, Normalized, Members;
  }

  lemma ReplayStep(rows: seq<Row>, i: nat, bundles: Bundles)
    requires i < |rows| && AllDecodable(rows[..i]) && Decodable(rows[i])
    ensures AllDecodable(rows[..i + 1])
    ensures GrantsOf(rows[..i + 1]) == GrantsOf(rows[..i])[rows[i].payload.grant.grantId := StoredRow(rows[i])]
    ensures BundlesOf(rows[..i + 1], bundles) == UpsertBundle(BundlesOf(rows[..i], bundles), EditOf(rows[i]))
  {
    hide EditOf, StoredRow, PayloadError, UpsertBundle;
    var next := rows[..i + 1];
    assert next[..i] == rows[..i] && next[i] == rows[i];
    assert AllDecodable(next);
    assert GrantEntries(next)[..i] == GrantEntries(rows[..i]);
  }

  datatype Tables = Tables(grants: Grants, bundles: Bundles)

  /** The tables a rebuild from these rows leaves. */
  ghost function Replayed(rows: seq<Row>, before: Tables): Tables
    requires AllDecodable(rows)
  {
    Tables(GrantsOf(rows), BundlesOf(rows, before.bundles))
  }

  /** The table shows, for each grant id, the payload of the last row naming it, and no other id. */
  ghost predicate ShowsLastPayloads(grants: Grants, rows: seq<Row>) {
    && AllDecodable(rows)
    && (forall i :: 0 <= i < |rows| && LastNamed(rows, i) ==> ShowsRow(grants, rows[i]))
    && (forall id :: id in grants ==> exists i :: 0 <= i < |rows| && GrantId(rows[i]) == id)
  }

  ghost predicate ShowsRow(grants: Grants, row: Row)
    requires Decodable(row)
  {
    GrantId(row) in grants && Shows(grants[GrantId(row)], row.payload.grant, row.acceptedAt)
  }

  ghost predicate LastNamed(rows: seq<Row>, i: nat)
    requires AllDecodable(rows) && i < |rows|
  {
    forall j :: i < j < |rows| ==> GrantId(rows[j]) != GrantId(rows[i])
  }

  /** What a payload carries, field by field, is what a rebuild shows. */
  lemma RebuiltShowsPayloads(rows: seq<Row>)
    requires AllDecodable(rows)
    ensures ShowsLastPayloads(GrantsOf(rows), rows)
  {
    hide PayloadError, StoredRow, GrantsOf, LastNamed, ShowsRow;
    forall i | 0 <= i < |rows| && LastNamed(rows, i)
      ensures ShowsRow(GrantsOf(rows), rows[i])
    {
      LastRowShown(rows, i);
    }
    forall id | id in GrantsOf(rows)
      ensures exists i :: 0 <= i < |rows| && GrantId(rows[i]) == id
    {
      var i := TableIdNamed(rows, id);
    }
  }

  lemma LastRowWins(rows: seq<Row>, i: nat)
    requires AllDecodable(rows) && i < |rows| && LastNamed(rows, i)
    ensures GrantId(rows[i]) in GrantsOf(rows) && GrantsOf(rows)[GrantId(rows[i])] == StoredRow(rows[i])
  {
    hide StoredRow, PayloadError;
    assert LastForKey(GrantEntries(rows), i);
    LastWriterWins(GrantEntries(rows), i);
  }

  lemma LastRowShown(rows: seq<Row>, i: nat)
    requires AllDecodable(rows) && i < |rows| && LastNamed(rows, i)
    ensures ShowsRow(GrantsOf(rows), rows[i])
  {
    hide Shows, Stored, GrantsOf;
    LastRowWins(rows, i);
    StoredShows(rows[i].payload.grant, rows[i].acceptedAt);
  }

  /** The clear-and-insert transaction: one upsert per row; an undecodable payload rolls everything back. */
  method Rebuild(rows: seq<Row>, before: Tables) returns (r: Result<Tables>)
    ensures r.Ok? <==> AllDecodable(rows)
    ensures r.Ok? ==> r.value == Replayed(rows, before)
    ensures r.Ok? ==> ShowsLastPayloads(r.value.grants, rows)
  {
    hide Shows, ShowsBundle, ShowsLastPayloads, Decodable, UpsertBundle, EditOf, StoredRow;
    var tables := before.(grants := map[]);
    assert rows[..0] == [] && GrantsOf([]) == map[];
    for i := 0 to |rows|
      invariant AllDecodable(rows[..i])
      invariant tables == Replayed(rows[..i], before)
    {
      var step := MaterializePayload(rows[i], tables.grants, tables.bundles);
      if step.Err? {
        return Err(step.error);
      }
      ReplayStep(rows, i, before.bundles);
      tables := Tables(step.value.0, step.value.1);
    }
    assert rows[..|rows|] == rows;
    RebuiltShowsPayloads(rows);
    return Ok(tables);
  }

  /** The id a row's grant has. */
  function GrantId(row: Row): string
    requires Decodable(row)
  {
    row.payload.grant.grantId
  }

  /** A rebuilt table holds, for each id, the grant of the last row naming it, and nothing else. */
  lemma RebuiltTableIsLastWriter(rows: seq<Row>)
    requires AllDecodable(rows)
    ensures forall i :: 0 <= i < |rows| && (forall j :: i < j < |rows| ==> GrantId(rows[j]) != GrantId(rows[i])) ==>
              GrantId(rows[i]) in GrantsOf(rows) && GrantsOf(rows)[GrantId(rows[i])] == StoredRow(rows[i])
    ensures forall id :: id in GrantsOf(rows) ==> exists i :: 0 <= i < |rows| && GrantId(rows[i]) == id
  {
    hide StoredRow, PayloadError;
    var entries := GrantEntries(rows);
    forall i | 0 <= i < |rows| && (forall j :: i < j < |rows| ==> GrantId(rows[j]) != GrantId(rows[i]))
      ensures GrantId(rows[i]) in GrantsOf(rows) && GrantsOf(rows)[GrantId(rows[i])] == StoredRow(rows[i])
    {
      assert LastForKey(entries, i);
      LastWriterWins(entries, i);
    }
    forall id | id in GrantsOf(rows) ensures exists i :: 0 <= i < |rows| && GrantId(rows[i]) == id {
      var i := EveryKeyWritten(entries, id);
      assert GrantId(rows[i]) == id;
    }
  }

  lemma TableIdNamed(rows: seq<Row>, id: string) returns (i: nat)
    requires AllDecodable(rows) && id in GrantsOf(rows)
    ensures i < |rows| && GrantId(rows[i]) == id
  {
    hide StoredRow, Decodable;
    i := EveryKeyWritten(GrantEntries(rows), id);
  }

  ghost predicate DistinctIds(rows: seq<Row>)
    requires AllDecodable(rows)
  {
    forall i, j :: 0 <= i < j < |rows| ==> GrantId(rows[i]) != GrantId(rows[j])
  }

  /** With one row per grant id, the table has exactly one entry per row. */
  lemma TableOfDistinctRows(rows: seq<Row>)
    requires AllDecodable(rows) && DistinctIds(rows)
    ensures |GrantsOf(rows)| == |rows|
    ensures forall i :: 0 <= i < |rows| ==>
              GrantId(rows[i]) in GrantsOf(rows) && GrantsOf(rows)[GrantId(rows[i])] == StoredRow(rows[i])
    ensures forall id :: id in GrantsOf(rows) ==> exists i :: 0 <= i < |rows| && GrantId(rows[i]) == id
  {
    hide StoredRow, PayloadError;
    var entries := GrantEntries(rows);
    TableOfDistinct(entries);
    forall i | 0 <= i < |rows|
      ensures GrantId(rows[i]) in GrantsOf(rows) && GrantsOf(rows)[GrantId(rows[i])] == StoredRow(rows[i])
    {
      assert entries[i].0 == GrantId(rows[i]);
    }
    forall id | id in GrantsOf(rows) ensures exists i :: 0 <= i < |rows| && GrantId(rows[i]) == id {
      var i :| 0 <= i < |entries| && entries[i].0 == id;
      assert GrantId(rows[i]) == id;
    }
  }

  // ----- Rebuilding twice -----

  /** All edits of one bundle folded into a single edit; null names and empty lists keep what was there. */
  ghost function Combined(rows: seq<Row>, id: string): (r: Option<BundleEdit>)
    requires AllDecodable(rows)
    ensures r.Some? ==> r.value.bundleId == id
  {
    if rows == [] then None
    else
      var earlier := Combined(rows[..|rows| - 1], id);
      var e := EditOf(rows[|rows| - 1]);
      if e.bundleId != id then earlier
      else if earlier.None? then Some(e)
      else Some(BundleEdit(id,
                           if e.displayName.Some? then e.displayName else earlier.value.displayName,
                           if e.capabilities != [] then e.capabilities else earlier.value.capabilities,
                           e.metadata))
  }

  /** A replay does to each bundle what its combined edit does. */
  lemma {:induction false} ReplayIsCombinedEdit(rows: seq<Row>, bundles: Bundles, id: string)
    requires AllDecodable(rows)
    ensures match Combined(rows, id)
            case None => (id in BundlesOf(rows, bundles) <==> id in bundles)
                         && (id in bundles ==> BundlesOf(rows, bundles)[id] == bundles[id])
            case Some(e) => id in BundlesOf(rows, bundles)
                            && BundlesOf(rows, bundles)[id] == UpsertBundle(bundles, e)[id]
  {
    hide EditOf, PayloadError;
    if rows != [] {
      ReplayIsCombinedEdit(rows[..|rows| - 1], bundles, id);
    }
  }

  /** Rebuilding twice is rebuilding once: the grants table ignores what it replaces, and a bundle that the
      first replay wrote is rewritten to itself. */
  lemma RebuildTwice(rows: seq<Row>, before: Tables)
    requires AllDecodable(rows)
    ensures Replayed(rows, Replayed(rows, before)) == Replayed(rows, before)
  {
    hide EditOf, PayloadError, GrantsOf;
    var bundles := before.bundles;
    var once := BundlesOf(rows, bundles);
    var twice := BundlesOf(rows, once);
    forall id ensures id in twice <==> id in once
              ensures id in once ==> twice[id] == once[id]
    {
      ReplayIsCombinedEdit(rows, bundles, id);
      ReplayIsCombinedEdit(rows, once, id);
    }
    assert twice == once;
  }

  /** A bundle edit outside the ledger is undone by replay: a replayed bundle's capabilities depend on the
      rows alone as soon as one of them lists any. */
  lemma ReplayResetsCapabilities(rows: seq<Row>, id: string, bundles: Bundles, edited: Bundles)
    requires AllDecodable(rows)
    requires Combined(rows, id).Some? && Combined(rows, id).value.capabilities != []
    ensures id in BundlesOf(rows, bundles) && id in BundlesOf(rows, edited)
    ensures BundlesOf(rows, edited)[id].capabilities == BundlesOf(rows, bundles)[id].capabilities
  {
    ReplayIsCombinedEdit(rows, bundles, id);
    ReplayIsCombinedEdit(rows, edited, id);
  }
}
