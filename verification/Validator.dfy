/** The contract validator, loop by loop, each accepting exactly what is well formed. */
module Validator {
  import opened Wrappers
  import opened Text
  import opened ContractTypes
  import opened WellFormed

  // ----- Growing a set of seen names -----

  lemma NamesStep(values: seq<string>, i: nat)
    requires i < |values|
    ensures Names(values[..i + 1]) == Names(values[..i]) + {TrimSpace(values[i])}
    ensures TrimSpace(values[i]) in Names(values)
  {
    hide TrimSpace;
    var next := values[..i + 1];
    assert TrimSpace(next[i]) in Names(next);
    forall x | x in Names(values[..i])
      ensures x in Names(next)
    {
      var j :| 0 <= j < i && TrimSpace(values[..i][j]) == x;
      assert next[j] == values[j];
    }
    forall x | x in Names(next)
      ensures x in Names(values[..i]) + {TrimSpace(values[i])}
    {
      var j :| 0 <= j <= i && TrimSpace(next[j]) == x;
      if j < i { assert TrimSpace(values[..i][j]) in Names(values[..i]); }
    }
  }

  lemma UniqueStep(values: seq<string>, i: nat)
    requires i < |values| && Unique(values[..i])
    ensures Blank(values[i]) ==> !Unique(values)
    ensures TrimSpace(values[i]) in Names(values[..i]) ==> !Unique(values)
    ensures !Blank(values[i]) && TrimSpace(values[i]) !in Names(values[..i]) ==> Unique(values[..i + 1])
    ensures Names(values[..i + 1]) == Names(values[..i]) + {TrimSpace(values[i])}
    ensures TrimSpace(values[i]) in Names(values)
  {
    NamesStep(values, i);
    hide TrimSpace, Blank;
    var next := values[..i + 1];
    assert next == values[..i] + [values[i]];
    forall j | 0 <= j < i
      ensures TrimSpace(next[j]) in Names(values[..i]) && next[j] == values[..i][j]
    {
      assert TrimSpace(values[..i][j]) in Names(values[..i]);
    }
    if TrimSpace(values[i]) in Names(values[..i]) {
      var j :| 0 <= j < i && TrimSpace(values[..i][j]) == TrimSpace(values[i]);
      assert TrimSpace(values[j]) == TrimSpace(values[i]);
    }
  }

  lemma UniqueWhole(values: seq<string>)
    ensures values[..|values|] == values && values[..0] == [] && Unique([]) && Names([]) == {}
  {}

  // ----- References -----

  /** strings.Split(ref, "#")[0]. */
  method CutHash(ref: string) returns (path: string)
    ensures path == BeforeHash(ref)
  {
    path := "";
    for i := 0 to |ref|
      invariant BeforeHash(ref) == path + BeforeHash(ref[i..])
    {
      if ref[i] == '#' {
        return;
      }
      assert ref[i..][1..] == ref[i + 1..];
      path := path + [ref[i]];
    }
  }

  /** validateContractRef; `stored` stands for the file system. */
  method ValidateContractRef(field: string, ref: string, stored: string -> bool) returns (r: Result<()>)
    ensures r.Ok? <==> RefResolves(ref, stored)
  {
    var cut := CutHash(ref);
    var path := TrimSpace(cut);
    if path == "" {
      return Err(field + ": reference must include a file path");
    }
    if !stored(path) {
      return Err(field + " does not resolve");
    }
    return Ok(());
  }

  method ValidateRequiredRef(field: string, ref: string, stored: string -> bool) returns (r: Result<()>)
    ensures r.Ok? <==> Required(ref, stored)
  {
    if Blank(ref) {
      return Err(field + " is required");
    }
    r := ValidateContractRef(field, ref, stored);
  }

  method ValidateOptionalRef(field: string, ref: string, stored: string -> bool) returns (r: Result<()>)
    ensures r.Ok? <==> Optional(ref, stored)
  {
    if Blank(ref) {
      return Ok(());
    }
    r := ValidateContractRef(field, ref, stored);
  }

  method ValidateLinks(l: Links, stored: string -> bool) returns (r: Result<()>)
    ensures r.Ok? <==> LinksResolve(l, stored)
  {
    hide Required, Optional;
    r := ValidateRequiredRef("links.seed_design", l.seedDesign, stored);
    if r.Err? {
      return;
    }
    r := ValidateRequiredRef("links.realization_readme", l.realizationReadme, stored);
    if r.Err? {
      return;
    }
    r := ValidateOptionalRef("links.seed_brief", l.seedBrief, stored);
    if r.Err? {
      return;
    }
    r := ValidateOptionalRef("links.seed_acceptance", l.seedAcceptance, stored);
    if r.Err? {
      return;
    }
    r := ValidateOptionalRef("links.kernel_agent_principles", l.kernelAgentPrinciples, stored);
    if r.Err? {
      return;
    }
    r := ValidateOptionalRef("links.seed_agent_principles", l.seedAgentPrinciples, stored);
  }

  /** The checks up to the links. */
  method ValidateHeader(c: Contract, entry: Entry, stored: string -> bool) returns (r: Result<()>)
    ensures r.Ok? <==> HeaderValid(c, entry, stored)
  {
    hide TrimSpace, LinksResolve;
    if TrimSpace(c.contractVersion) != "v1" {
      return Err("contract_version must be v1");
    }
    if TrimSpace(c.surfaceKind) !in SURFACE_KINDS {
      return Err("surface_kind is not allowed");
    }
    if TrimSpace(c.seedId) != entry.seedId {
      return Err("seed_id must match the realization manifest");
    }
    if TrimSpace(c.realizationId) != entry.realizationId {
      return Err("realization_id must match the realization manifest");
    }
    if TrimSpace(c.summary) == "" {
      return Err("summary is required");
    }
    r := ValidateLinks(c.links, stored);
  }

  // ----- Lists of names -----

  method ValidateSubset(field: string, items: seq<string>, allowed: set<string>) returns (r: Result<()>)
    ensures r.Ok? <==> SubsetOf(items, allowed)
  {
    hide TrimSpace, Unique, Names;
    if |items| == 0 {
      return Err(field + " must declare at least one value");
    }
    UniqueWhole(items);
    var seen: set<string> := {};
    for i := 0 to |items|
      invariant Unique(items[..i]) && seen == Names(items[..i]) && seen <= allowed
    {
      UniqueStep(items, i);
      var value := TrimSpace(items[i]);
      if value == "" {
        return Err(field + " is required");
      }
      if value !in allowed {
        return Err(field + " must reference a declared value");
      }
      if value in seen {
        return Err(field + " is duplicated");
      }
      seen := seen + {value};
    }
    return Ok(());
  }

  method ValidateNamedList(items: seq<string>, allowed: set<string>, field: string) returns (r: Result<set<string>>)
    ensures r.Ok? <==> SubsetOf(items, allowed)
    ensures r.Ok? ==> r.value == Names(items)
  {
    hide TrimSpace, Unique, Names;
    if |items| == 0 {
      return Err(field + " must declare at least one value");
    }
    UniqueWhole(items);
    var out: set<string> := {};
    for i := 0 to |items|
      invariant Unique(items[..i]) && out == Names(items[..i]) && out <= allowed
    {
      UniqueStep(items, i);
      var value := TrimSpace(items[i]);
      if value == "" {
        return Err(field + " is required");
      }
      if value !in allowed {
        return Err(field + " is not allowed");
      }
      if value in out {
        return Err(field + " is duplicated");
      }
      out := out + {value};
    }
    return Ok(out);
  }

  // ----- Sections and layouts -----

  method ValidateFieldList(field: string, items: seq<Field>) returns (r: Result<()>)
    ensures r.Ok? <==> FieldsValid(items)
  {
    hide TrimSpace, Unique, Names;
    var names := FieldNames(items);
    UniqueWhole(names);
    var seen: set<string> := {};
    for i := 0 to |items|
      invariant Unique(names[..i]) && seen == Names(names[..i])
      invariant forall j :: 0 <= j < i ==> DescribedField(items[j])
    {
      UniqueStep(names, i);
      var name := TrimSpace(items[i].name);
      if name == "" {
        return Err(field + ".name is required");
      }
      if name in seen {
        return Err(field + ".name is duplicated");
      }
      if Blank(items[i].fieldType) {
        return Err(field + ".type is required");
      }
      if Blank(items[i].summary) {
        return Err(field + ".summary is required");
      }
      seen := seen + {name};
    }
    return Ok(());
  }

  method ValidateDataSection(field: string, section: Section) returns (r: Result<()>)
    ensures r.Ok? <==> SectionValid(section)
  {
    hide Blank, FieldsValid;
    if Blank(section.summary) {
      return Err(field + ".summary is required");
    }
    if |section.fields| == 0 {
      return Err(field + ".fields must declare at least one field");
    }
    r := ValidateFieldList(field + ".fields", section.fields);
  }

  method ValidateOptionalDataSection(field: string, section: Section) returns (r: Result<()>)
    ensures r.Ok? <==> OptionalSectionValid(section)
  {
    hide SectionValid;
    if Blank(section.summary) && |section.fields| == 0 {
      return Ok(());
    }
    r := ValidateDataSection(field, section);
  }

  method ValidateDataLayout(field: string, layout: Layout) returns (r: Result<()>)
    ensures r.Ok? <==> LayoutValid(layout)
  {
    hide SectionValid, OptionalSectionValid;
    if Blank(layout.sharedMetadata.summary) && |layout.sharedMetadata.fields| == 0
       && Blank(layout.publicPayload.summary) && |layout.publicPayload.fields| == 0
       && Blank(layout.privatePayload.summary) && |layout.privatePayload.fields| == 0
       && Blank(layout.runtimeOnly.summary) && |layout.runtimeOnly.fields| == 0 {
      return Ok(());
    }
    r := ValidateDataSection(field + ".shared_metadata", layout.sharedMetadata);
    if r.Err? {
      return;
    }
    r := ValidateOptionalDataSection(field + ".public_payload", layout.publicPayload);
    if r.Err? {
      return;
    }
    r := ValidateOptionalDataSection(field + ".private_payload", layout.privatePayload);
    if r.Err? {
      return;
    }
    r := ValidateOptionalDataSection(field + ".runtime_only", layout.runtimeOnly);
  }

  // ----- Capabilities, objects, relations -----

  method ValidateCapabilities(items: seq<Capability>) returns (r: Result<set<string>>)
    ensures r.Ok? <==> CapabilitiesValid(items)
    ensures r.Ok? ==> r.value == Names(CapabilityNames(items))
  {
    hide TrimSpace, Unique, Names;
    if |items| == 0 {
      return Err("capabilities must declare at least one kernel capability binding");
    }
    var names := CapabilityNames(items);
    UniqueWhole(names);
    var out: set<string> := {};
    for i := 0 to |items|
      invariant Unique(names[..i]) && out == Names(names[..i]) && out <= CAPABILITIES
      invariant forall j :: 0 <= j < i ==> !Blank(items[j].summary)
    {
      UniqueStep(names, i);
      var name := TrimSpace(items[i].name);
      if name == "" {
        return Err("capabilities.name is required");
      }
      if name !in CAPABILITIES {
        return Err("capabilities.name is not allowed");
      }
      if name in out {
        return Err("capabilities.name is duplicated");
      }
      if Blank(items[i].summary) {
        return Err("capabilities.summary is required");
      }
      out := out + {name};
    }
    return Ok(out);
  }

  method ValidateObjects(items: seq<DomainObject>, capabilities: set<string>, stored: string -> bool)
    returns (r: Result<set<string>>)
    ensures r.Ok? <==> ObjectsValid(items, capabilities, stored)
    ensures r.Ok? ==> r.value == Names(Kinds(items))
  {
    hide TrimSpace, Unique, Names, RefResolves, SubsetOf, LayoutValid;
    if |items| == 0 {
      return Err("domain_objects must declare at least one domain object");
    }
    var kinds := Kinds(items);
    UniqueWhole(kinds);
    var out: set<string> := {};
    for i := 0 to |items|
      invariant Unique(kinds[..i]) && out == Names(kinds[..i])
      invariant forall j :: 0 <= j < i ==> ObjectValid(items[j], capabilities, stored)
    {
      UniqueStep(kinds, i);
      var item := items[i];
      var kind := TrimSpace(item.kind);
      if kind == "" {
        return Err("domain_objects.kind is required");
      }
      if kind in out {
        return Err("domain_objects.kind is duplicated");
      }
      if Blank(item.summary) {
        return Err("domain_objects.summary is required");
      }
      var schema := ValidateRequiredRef("domain_objects.schema_ref", item.schemaRef, stored);
      if schema.Err? {
        return Err(schema.error);
      }
      var subset := ValidateSubset("domain_objects.capabilities", item.capabilities, capabilities);
      if subset.Err? {
        return Err(subset.error);
      }
      var layout := ValidateDataLayout("domain_objects.data_layout", item.layout);
      if layout.Err? {
        return Err(layout.error);
      }
      out := out + {kind};
    }
    return Ok(out);
  }

  method ValidateRelation(item: Relation, kinds: set<string>, capabilities: set<string>, stored: string -> bool)
    returns (r: Result<()>)
    ensures r.Ok? <==> RelationValid(item, kinds, capabilities, stored)
  {
    hide TrimSpace, RefResolves, SubsetOf, FieldsValid;
    if Blank(item.summary) {
      return Err("domain_relations.summary is required");
    }
    r := ValidateSubset("domain_relations.from_kinds", item.fromKinds, kinds);
    if r.Err? {
      return;
    }
    r := ValidateSubset("domain_relations.to_kinds", item.toKinds, kinds);
    if r.Err? {
      return;
    }
    if TrimSpace(item.cardinality) !in CARDINALITIES {
      return Err("domain_relations.cardinality is not allowed");
    }
    if TrimSpace(item.visibility) !in VISIBILITIES {
      return Err("domain_relations.visibility is not allowed");
    }
    r := ValidateRequiredRef("domain_relations.schema_ref", item.schemaRef, stored);
    if r.Err? {
      return;
    }
    r := ValidateSubset("domain_relations.capabilities", item.capabilities, capabilities);
    if r.Err? {
      return;
    }
    r := ValidateFieldList("domain_relations.attributes", item.attributes);
  }

  method ValidateRelations(items: seq<Relation>, kinds: set<string>, capabilities: set<string>, stored: string -> bool)
    returns (r: Result<()>)
    ensures r.Ok? <==> RelationsValid(items, kinds, capabilities, stored)
  {
    hide TrimSpace, Unique, Names, RelationValid;
    var names := RelationKinds(items);
    UniqueWhole(names);
    var seen: set<string> := {};
    for i := 0 to |items|
      invariant Unique(names[..i]) && seen == Names(names[..i])
      invariant forall j :: 0 <= j < i ==> RelationValid(items[j], kinds, capabilities, stored)
    {
      UniqueStep(names, i);
      var kind := TrimSpace(items[i].kind);
      if kind == "" {
        return Err("domain_relations.kind is required");
      }
      if kind in seen {
        return Err("domain_relations.kind is duplicated");
      }
      var checked := ValidateRelation(items[i], kinds, capabilities, stored);
      if checked.Err? {
        return checked;
      }
      seen := seen + {kind};
    }
    return Ok(());
  }

  // ----- Data views -----

  /** Modes covered by the first n views. */
  ghost function Covered(views: seq<DataView>, n: nat): set<string>
    requires n <= |views|
  {
    if n == 0 then {} else Covered(views, n - 1) + Names(views[n - 1].authModes)
  }

  lemma CoveredBy(views: seq<DataView>, n: nat, mode: string)
    requires n <= |views|
    ensures mode in Covered(views, n) <==> exists i :: i < n && Shows(views, i, mode)
  {
    hide Names;
    if n > 0 {
      CoveredBy(views, n - 1, mode);
      assert mode in Names(views[n - 1].authModes) <==> Shows(views, n - 1, mode);
    }
  }

  /** No mode is shown by two of the first n views. */
  ghost predicate Disjoint(views: seq<DataView>, n: nat)
    requires n <= |views|
  {
    forall i, j, mode :: i < n && j < n && Shows(views, i, mode) && Shows(views, j, mode) ==> i == j
  }

  lemma DisjointStep(views: seq<DataView>, n: nat)
    requires n < |views| && Disjoint(views, n)
    ensures Disjoint(views, n + 1) <==> Covered(views, n) !! Names(views[n].authModes)
  {
    hide Names;
    if Covered(views, n) !! Names(views[n].authModes) {
      forall i, j, mode | i < n + 1 && j < n + 1 && Shows(views, i, mode) && Shows(views, j, mode) ensures i == j {
        CoveredBy(views, n, mode);
      }
    } else {
      var mode :| mode in Covered(views, n) && mode in Names(views[n].authModes);
      CoveredBy(views, n, mode);
      var i :| i < n && Shows(views, i, mode);
      assert Shows(views, n, mode);
    }
  }

  /** With every view's modes among the projection's, a partition is: covered once, and all covered. */
  lemma PartitionIs(views: seq<DataView>, modes: set<string>)
    requires forall i :: 0 <= i < |views| ==> Names(views[i].authModes) <= modes
    ensures ViewsPartition(views, modes) <==> Disjoint(views, |views|) && modes <= Covered(views, |views|)
  {
    hide Names;
    forall mode ensures mode in Covered(views, |views|) <==> exists i :: i < |views| && Shows(views, i, mode) {
      CoveredBy(views, |views|, mode);
    }
    if ViewsPartition(views, modes) {
      forall i, j, mode | i < |views| && j < |views| && Shows(views, i, mode) && Shows(views, j, mode) ensures i == j {
        assert mode in Names(views[i].authModes);
      }
    }
  }

  /** The inner loop of validateDataViews: the view's modes join the covered ones unless one is there already.
      A view does not repeat a mode, so only earlier views can cover it. */
  method CoverModes(modes: seq<string>, covered: set<string>) returns (r: Result<set<string>>)
    requires Unique(modes)
    ensures r.Ok? <==> covered !! Names(modes)
    ensures r.Ok? ==> r.value == covered + Names(modes)
  {
    hide TrimSpace, Names, Unique;
    UniqueWhole(modes);
    var out := covered;
    for i := 0 to |modes|
      invariant Unique(modes[..i]) && out == covered + Names(modes[..i]) && covered !! Names(modes[..i])
    {
      UniqueStep(modes, i);
      var mode := TrimSpace(modes[i]);
      if mode in out {
        return Err("auth mode is already covered by another data view");
      }
      out := out + {mode};
    }
    return Ok(out);
  }

  lemma ValidViews(views: seq<DataView>, projectionModes: seq<string>, authModes: set<string>, i: nat)
    requires i < |views| && ViewsValid(views, projectionModes, authModes)
    ensures ViewValid(views[i], Names(projectionModes)) && Disjoint(views, i + 1)
  {
    hide Names, SubsetOf;
    forall j | 0 <= j < |views| ensures Names(views[j].authModes) <= Names(projectionModes) {
      assert ViewValid(views[j], Names(projectionModes));
      SubsetNames(views[j].authModes, Names(projectionModes));
    }
    PartitionIs(views, Names(projectionModes));
  }

  lemma ViewsFail(views: seq<DataView>, projectionModes: seq<string>, authModes: set<string>, i: nat)
    requires i < |views| && (ViewValid(views[i], Names(projectionModes)) ==> !Disjoint(views, i + 1))
    ensures !ViewsValid(views, projectionModes, authModes)
  {
    hide ViewsValid, ViewValid, Disjoint, Names;
    if ViewsValid(views, projectionModes, authModes) { ValidViews(views, projectionModes, authModes, i); }
  }

  lemma SubsetNames(items: seq<string>, allowed: set<string>)
    requires SubsetOf(items, allowed)
    ensures Names(items) <= allowed && Unique(items) && items != []
  {}

  method ValidateDataViews(field: string, views: seq<DataView>, projectionModes: seq<string>, authModes: set<string>)
    returns (r: Result<()>)
    ensures r.Ok? <==> ViewsValid(views, projectionModes, authModes)
  {
    hide TrimSpace, Names, SubsetOf, Unique, Blank, ViewsPartition, Disjoint, Covered;
    if |views| == 0 {
      return Ok(());
    }
    var modes := ValidateNamedList(projectionModes, authModes, field + ".projection_auth_modes");
    if modes.Err? {
      return Err(modes.error);
    }
    var covered: set<string> := {};
    NothingCovered(views);
    for i := 0 to |views|
      invariant covered == Covered(views, i) && Disjoint(views, i)
      invariant forall j :: 0 <= j < i ==> ViewValid(views[j], modes.value) && Names(views[j].authModes) <= modes.value
    {
      var view := views[i];
      var own := ValidateSubset(field + ".auth_modes", view.authModes, modes.value);
      if own.Err? {
        ViewsFail(views, projectionModes, authModes, i);
        return own;
      }
      var sections := ValidateSubset(field + ".sections", view.sections, LAYOUT_SECTIONS);
      if sections.Err? || Blank(view.summary) {
        ViewsFail(views, projectionModes, authModes, i);
        return Err(field + ": sections or summary");
      }
      SubsetNames(view.authModes, modes.value);
      DisjointStep(views, i);
      var cover := CoverModes(view.authModes, covered);
      if cover.Err? {
        ViewsFail(views, projectionModes, authModes, i);
        return Err(cover.error);
      }
      CoveredStep(views, i);
      covered := cover.value;
    }
    PartitionIs(views, modes.value);
    r := CheckCovered(field, projectionModes, covered);
  }

  lemma NothingCovered(views: seq<DataView>)
    ensures Covered(views, 0) == {} && Disjoint(views, 0)
  {}

  lemma CoveredStep(views: seq<DataView>, n: nat)
    requires n < |views|
    ensures Covered(views, n + 1) == Covered(views, n) + Names(views[n].authModes)
  {}

  /** The last loop of validateDataViews. */
  method CheckCovered(field: string, projectionModes: seq<string>, covered: set<string>) returns (r: Result<()>)
    ensures r.Ok? <==> Names(projectionModes) <= covered
  {
    hide TrimSpace;
    for i := 0 to |projectionModes|
      invariant forall j :: 0 <= j < i ==> TrimSpace(projectionModes[j]) in covered
    {
      if TrimSpace(projectionModes[i]) !in covered {
        assert TrimSpace(projectionModes[i]) in Names(projectionModes);
        return Err(field + " must cover every projection auth mode");
      }
    }
    return Ok(());
  }

  // ----- Projections -----

  method ValidateProjection(
    item: Projection, seedId: string, kinds: set<string>, capabilities: set<string>, authModes: set<string>)
      returns (r: Result<()>)
    ensures r.Ok? <==> ProjectionValid(item, seedId, kinds, capabilities, authModes)
  {
    hide TrimSpace, SubsetOf, ViewsValid;
    if Blank(item.summary) {
      return Err("projections.summary is required");
    }
    if Blank(item.path) || !("/v1/projections/" + seedId + "/" <= TrimSpace(item.path)) {
      return Err("projections.path is outside the seed");
    }
    r := ValidateSubset("projections.object_kinds", item.objectKinds, kinds);
    if r.Err? {
      return;
    }
    r := ValidateSubset("projections.auth_modes", item.authModes, authModes);
    if r.Err? {
      return;
    }
    r := ValidateSubset("projections.capabilities", item.capabilities, capabilities);
    if r.Err? {
      return;
    }
    if TrimSpace(item.freshness) !in FRESHNESSES {
      return Err("projections.freshness is not allowed");
    }
    r := ValidateDataViews("projections.data_views", item.dataViews, item.authModes, authModes);
  }

  method ValidateProjections(
    seedId: string, items: seq<Projection>, kinds: set<string>, capabilities: set<string>, authModes: set<string>)
    returns (r: Result<set<string>>)
    ensures r.Ok? <==> ProjectionsValid(items, seedId, kinds, capabilities, authModes)
    ensures r.Ok? ==> r.value == Names(ProjectionNames(items))
  {
    hide TrimSpace, Unique, Names, ProjectionValid;
    if |items| == 0 {
      return Err("projections must declare at least one projection");
    }
    var names, allPaths := ProjectionNames(items), ProjectionPaths(items);
    UniqueWhole(names);
    UniqueWhole(allPaths);
    var out: set<string>, paths: set<string> := {}, {};
    for i := 0 to |items|
      invariant Unique(names[..i]) && out == Names(names[..i]) && Unique(allPaths[..i]) && paths == Names(allPaths[..i])
      invariant forall j :: 0 <= j < i ==> ProjectionValid(items[j], seedId, kinds, capabilities, authModes)
    {
      UniqueStep(names, i);
      UniqueStep(allPaths, i);
      var name, path := TrimSpace(items[i].name), TrimSpace(items[i].path);
      if name == "" || name in out {
        return Err("projections.name is required and unique");
      }
      if path == "" || path in paths {
        return Err("projections.path is required and unique");
      }
      var checked := ValidateProjection(items[i], seedId, kinds, capabilities, authModes);
      if checked.Err? {
        return Err(checked.error);
      }
      out, paths := out + {name}, paths + {path};
    }
    return Ok(out);
  }

  // ----- Commands -----

  method ValidateErrorCodes(field: string, items: seq<ErrorCode>, commandModes: seq<string>, authModes: set<string>)
    returns (r: Result<()>)
    ensures r.Ok? <==> ErrorCodesValid(items, commandModes, authModes)
  {
    hide TrimSpace, Unique, Names, SubsetOf;
    if |items| == 0 {
      return Ok(());
    }
    var allowedModes := authModes;
    if |commandModes| > 0 {
      var named := ValidateNamedList(commandModes, authModes, field + ".command_auth_modes");
      if named.Err? {
        return Err(named.error);
      }
      allowedModes := named.value;
    }
    var codes := Codes(items);
    UniqueWhole(codes);
    var seen: set<string> := {};
    for i := 0 to |items|
      invariant Unique(codes[..i]) && seen == Names(codes[..i])
      invariant forall j :: 0 <= j < i ==> ErrorCodeValid(items[j], allowedModes)
    {
      UniqueStep(codes, i);
      var code := TrimSpace(items[i].code);
      if code == "" || code in seen {
        return Err(field + ".code is required and unique");
      }
      if Blank(items[i].summary) {
        return Err(field + ".summary is required");
      }
      if |items[i].authModes| > 0 {
        var subset := ValidateSubset(field + ".auth_modes", items[i].authModes, allowedModes);
        if subset.Err? {
          return subset;
        }
      }
      seen := seen + {code};
    }
    return Ok(());
  }

  method ValidateCommand(
    item: Command, seedId: string, kinds: set<string>, projections: set<string>, capabilities: set<string>,
    authModes: set<string>, stored: string -> bool) returns (r: Result<()>)
    ensures r.Ok? <==> CommandValid(item, seedId, kinds, projections, capabilities, authModes, stored)
  {
    hide TrimSpace, SubsetOf, OptionalSectionValid, ErrorCodesValid, RefResolves;
    if Blank(item.summary) {
      return Err("commands.summary is required");
    }
    if Blank(item.path) || !("/v1/commands/" + seedId + "/" <= TrimSpace(item.path)) {
      return Err("commands.path is outside the seed");
    }
    r := ValidateSubset("commands.object_kinds", item.objectKinds, kinds);
    if r.Err? {
      return;
    }
    r := ValidateSubset("commands.auth_modes", item.authModes, authModes);
    if r.Err? {
      return;
    }
    if TrimSpace(item.idempotency) !in IDEMPOTENCIES {
      return Err("commands.idempotency is not allowed");
    }
    r := ValidateRequiredRef("commands.input_schema_ref", item.inputSchemaRef, stored);
    if r.Err? {
      return;
    }
    r := ValidateRequiredRef("commands.result_schema_ref", item.resultSchemaRef, stored);
    if r.Err? {
      return;
    }
    r := ValidateSubset("commands.capabilities", item.capabilities, capabilities);
    if r.Err? {
      return;
    }
    if TrimSpace(item.projection) !in projections {
      return Err("commands.projection must reference a declared projection");
    }
    if TrimSpace(item.consistency) !in WRITE_VISIBILITIES {
      return Err("commands.consistency is not allowed");
    }
    r := ValidateOptionalDataSection("commands.runtime_context", item.runtimeContext);
    if r.Err? {
      return;
    }
    r := ValidateErrorCodes("commands.error_codes", item.errorCodes, item.authModes, authModes);
  }

  method ValidateCommands(
    seedId: string, items: seq<Command>, kinds: set<string>, projections: set<string>, capabilities: set<string>,
    authModes: set<string>, stored: string -> bool) returns (r: Result<set<string>>)
    ensures r.Ok? <==> CommandsValid(items, seedId, kinds, projections, capabilities, authModes, stored)
    ensures r.Ok? ==> r.value == Names(CommandNames(items))
  {
    hide TrimSpace, Unique, Names, CommandValid;
    var names, allPaths := CommandNames(items), CommandPaths(items);
    UniqueWhole(names);
    UniqueWhole(allPaths);
    var out: set<string>, paths: set<string> := {}, {};
    for i := 0 to |items|
      invariant Unique(names[..i]) && out == Names(names[..i]) && Unique(allPaths[..i]) && paths == Names(allPaths[..i])
      invariant forall j :: 0 <= j < i ==>
                  CommandValid(items[j], seedId, kinds, projections, capabilities, authModes, stored)
    {
      UniqueStep(names, i);
      UniqueStep(allPaths, i);
      var name, path := TrimSpace(items[i].name), TrimSpace(items[i].path);
      if name == "" || name in out {
        return Err("commands.name is required and unique");
      }
      if path == "" || path in paths {
        return Err("commands.path is required and unique");
      }
      var checked := ValidateCommand(items[i], seedId, kinds, projections, capabilities, authModes, stored);
      if checked.Err? {
        return Err(checked.error);
      }
      out, paths := out + {name}, paths + {path};
    }
    return Ok(out);
  }

  // ----- Surfaces -----

  method ValidateSurface(item: Surface, projections: set<string>, commands: set<string>, authModes: set<string>)
    returns (r: Result<()>)
    ensures r.Ok? <==> SurfaceValid(item, projections, commands, authModes)
  {
    hide TrimSpace, SubsetOf;
    if Blank(item.summary) {
      return Err("ui_surfaces.summary is required");
    }
    if Blank(item.path) || !("/" <= TrimSpace(item.path)) {
      return Err("ui_surfaces.path must start with a slash");
    }
    r := ValidateSubset("ui_surfaces.auth_modes", item.authModes, authModes);
    if r.Err? {
      return;
    }
    if |item.usesProjections| == 0 && |item.mutatesCommands| == 0 {
      return Err("ui_surfaces must declare at least one projection or command reference");
    }
    if |item.usesProjections| > 0 {
      r := ValidateSubset("ui_surfaces.uses_projections", item.usesProjections, projections);
      if r.Err? {
        return;
      }
    }
    if |item.mutatesCommands| > 0 {
      r := ValidateSubset("ui_surfaces.mutates_commands", item.mutatesCommands, commands);
      if r.Err? {
        return;
      }
    }
    return Ok(());
  }

  method ValidateUISurfaces(items: seq<Surface>, projections: set<string>, commands: set<string>,
                            authModes: set<string>)
    returns (r: Result<()>)
    ensures r.Ok? <==> SurfacesValid(items, projections, commands, authModes)
  {
    hide TrimSpace, Unique, Names, SurfaceValid;
    var names, allPaths := SurfaceNames(items), SurfacePaths(items);
    UniqueWhole(names);
    UniqueWhole(allPaths);
    var seenNames: set<string>, seenPaths: set<string> := {}, {};
    for i := 0 to |items|
      invariant Unique(names[..i]) && seenNames == Names(names[..i])
      invariant Unique(allPaths[..i]) && seenPaths == Names(allPaths[..i])
      invariant forall j :: 0 <= j < i ==> SurfaceValid(items[j], projections, commands, authModes)
    {
      UniqueStep(names, i);
      UniqueStep(allPaths, i);
      var name, path := TrimSpace(items[i].name), TrimSpace(items[i].path);
      if name == "" || name in seenNames {
        return Err("ui_surfaces.name is required and unique");
      }
      if path == "" || path in seenPaths {
        return Err("ui_surfaces.path is required and unique");
      }
      var checked := ValidateSurface(items[i], projections, commands, authModes);
      if checked.Err? {
        return checked;
      }
      seenNames, seenPaths := seenNames + {name}, seenPaths + {path};
    }
    return Ok(());
  }

  // ----- The whole contract -----

  /** validateInteractionContract: accepts exactly the well-formed contracts. */
  method ValidateInteractionContract(c: Contract, entry: Entry, stored: string -> bool) returns (r: Result<()>)
    ensures r.Ok? <==> ContractValid(c, entry, stored)
  {
    hide TrimSpace, Names, SubsetOf, CapabilitiesValid, ObjectsValid, RelationsValid, ProjectionsValid, CommandsValid,
         SurfacesValid, HeaderValid, CapabilityNames, Kinds, ProjectionNames, CommandNames;
    r := ValidateHeader(c, entry, stored);
    if r.Err? {
      return;
    }
    var authModes := ValidateNamedList(c.authModes, AUTH_MODES, "auth_modes");
    if authModes.Err? {
      return Err(authModes.error);
    }
    var capabilities := ValidateCapabilities(c.capabilities);
    if capabilities.Err? {
      return Err(capabilities.error);
    }
    var kinds := ValidateObjects(c.objects, capabilities.value, stored);
    if kinds.Err? {
      return Err(kinds.error);
    }
    r := ValidateRelations(c.relations, kinds.value, capabilities.value, stored);
    if r.Err? {
      return;
    }
    if TrimSpace(c.writeVisibility) !in WRITE_VISIBILITIES {
      return Err("consistency.write_visibility is not allowed");
    }
    if TrimSpace(c.projectionFreshness) !in FRESHNESSES {
      return Err("consistency.projection_freshness is not allowed");
    }
    var projections := ValidateProjections(entry.seedId, c.projections, kinds.value, capabilities.value,
                                           authModes.value);
    if projections.Err? {
      return Err(projections.error);
    }
    if c.surfaceKind == "interactive" && |c.commands| == 0 {
      return Err("interactive realizations must declare at least one command");
    }
    var commands := ValidateCommands(entry.seedId, c.commands, kinds.value, projections.value, capabilities.value,
                                     authModes.value, stored);
    if commands.Err? {
      return Err(commands.error);
    }
    r := ValidateUISurfaces(c.surfaces, projections.value, commands.value, authModes.value);
  }

  // ----- What the commands check misses -----

  /** The check that an interactive contract has a command compares the surface kind as written, while the
      allowed kinds are compared without surrounding spaces.  A well-formed contract stripped of its commands
      and of the surfaces that use them stays well formed exactly when the new surface kind is allowed and is
      not literally "interactive": writing it with a space around it is enough. */
  lemma CommandlessIff(c: Contract, entry: Entry, stored: string -> bool, kind: string)
    requires ContractValid(c, entry, stored)
    ensures ContractValid(c.(surfaceKind := kind, commands := [], surfaces := []), entry, stored)
        <==> TrimSpace(kind) in SURFACE_KINDS && kind != "interactive"
  {
    hide TrimSpace, Names, SubsetOf, CapabilitiesValid, ObjectsValid, RelationsValid, ProjectionsValid,
         ConsistencyValid, LinksResolve, Blank;
    var stripped := c.(surfaceKind := kind, commands := [], surfaces := []);
    assert Unique([]);
    assert CommandNames([]) == [] && CommandPaths([]) == [] && SurfaceNames([]) == [] && SurfacePaths([]) == [];
  }

  /** The padded kind is one such kind. */
  lemma PaddedInteractive()
    ensures TrimSpace(" interactive") == "interactive" && " interactive" != "interactive"
  {
    var s := " interactive";
    assert IsSpace(s[0]) && !IsSpace(s[1]) && !IsSpace(s[|s| - 1]);
    assert SkipLeft(s, 0) == SkipLeft(s, 1) == 1;
    assert SkipRight(s, 1, |s|) == |s|;
  }
}
