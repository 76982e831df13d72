/** When an interaction contract is well formed: the declarative counterpart of the validator. */
module WellFormed {
  import opened Text
  import opened ContractTypes

  const SURFACE_KINDS := {"bootstrap_only", "interactive", "read_only"}
  const AUTH_MODES := {"access_link", "anonymous", "service_token", "session"}
  const LAYOUT_SECTIONS := {"private_payload", "public_payload", "runtime_only", "shared_metadata"}
  const CARDINALITIES := {"many_to_many", "many_to_one", "one_to_many", "one_to_one"}
  const VISIBILITIES := {"mixed", "private", "public", "runtime_only"}
  const CAPABILITIES := {
    "access_links", "activity_events", "assignments", "auth_challenges", "consent", "guard_decisions", "handles",
    "jobs", "memberships", "messages", "notification_preferences", "outbox", "principal_identifiers", "principals",
    "publications", "risk_events", "search_documents", "search_facets", "sessions", "state_transitions",
    "subscriptions", "threads", "uploads"}
  const IDEMPOTENCIES := {"none", "recommended", "required"}
  const WRITE_VISIBILITIES := {"async_job", "eventual", "read_your_writes"}
  const FRESHNESSES := {"direct", "eventual", "materialized"}

  /** No value is blank and no two are equal, spaces around them aside. */
  ghost predicate Unique(values: seq<string>) {
    && (forall i :: 0 <= i < |values| ==> !Blank(values[i]))
    && (forall i, j :: 0 <= i < j < |values| ==> TrimSpace(values[i]) != TrimSpace(values[j]))
  }

  ghost function Names(values: seq<string>): set<string> {
    set i | 0 <= i < |values| :: TrimSpace(values[i])
  }

  ghost predicate SubsetOf(items: seq<string>, allowed: set<string>) {
    items != [] && Unique(items) && Names(items) <= allowed
  }

  function BeforeHash(ref: string): string {
    if ref == "" || ref[0] == '#' then "" else [ref[0]] + BeforeHash(ref[1..])
  }

  /** The reference names a path that exists inside the repository; `stored` answers for trimmed paths. */
  predicate RefResolves(ref: string, stored: string -> bool) {
    !Blank(BeforeHash(ref)) && stored(TrimSpace(BeforeHash(ref)))
  }

  predicate Required(ref: string, stored: string -> bool) {
    !Blank(ref) && RefResolves(ref, stored)
  }

  predicate Optional(ref: string, stored: string -> bool) {
    Blank(ref) || RefResolves(ref, stored)
  }

  predicate LinksResolve(l: Links, stored: string -> bool) {
    && Required(l.seedDesign, stored) && Required(l.realizationReadme, stored) && Optional(l.seedBrief, stored)
    && Optional(l.seedAcceptance, stored) && Optional(l.kernelAgentPrinciples, stored)
       && Optional(l.seedAgentPrinciples, stored)
  }

  // ----- Names and paths of each list -----

  ghost function CapabilityNames(items: seq<Capability>): seq<string> {
    seq(|items|, i requires 0 <= i < |items| => items[i].name)
  }

  ghost function Kinds(items: seq<DomainObject>): seq<string> {
    seq(|items|, i requires 0 <= i < |items| => items[i].kind)
  }

  ghost function RelationKinds(items: seq<Relation>): seq<string> {
    seq(|items|, i requires 0 <= i < |items| => items[i].kind)
  }

  ghost function FieldNames(items: seq<Field>): seq<string> {
    seq(|items|, i requires 0 <= i < |items| => items[i].name)
  }

  ghost function ProjectionNames(items: seq<Projection>): seq<string> {
    seq(|items|, i requires 0 <= i < |items| => items[i].name)
  }

  ghost function ProjectionPaths(items: seq<Projection>): seq<string> {
    seq(|items|, i requires 0 <= i < |items| => items[i].path)
  }

  ghost function CommandNames(items: seq<Command>): seq<string> {
    seq(|items|, i requires 0 <= i < |items| => items[i].name)
  }

  ghost function CommandPaths(items: seq<Command>): seq<string> {
    seq(|items|, i requires 0 <= i < |items| => items[i].path)
  }

  ghost function Codes(items: seq<ErrorCode>): seq<string> {
    seq(|items|, i requires 0 <= i < |items| => items[i].code)
  }

  ghost function SurfaceNames(items: seq<Surface>): seq<string> {
    seq(|items|, i requires 0 <= i < |items| => items[i].name)
  }

  ghost function SurfacePaths(items: seq<Surface>): seq<string> {
    seq(|items|, i requires 0 <= i < |items| => items[i].path)
  }

  // ----- Parts -----

  predicate DescribedField(f: Field) {
    !Blank(f.fieldType) && !Blank(f.summary)
  }

  ghost predicate FieldsValid(items: seq<Field>) {
    Unique(FieldNames(items)) && forall i :: 0 <= i < |items| ==> DescribedField(items[i])
  }

  predicate HasContent(s: Section) {
    !Blank(s.summary) || s.fields != []
  }

  ghost predicate SectionValid(s: Section) {
    !Blank(s.summary) && s.fields != [] && FieldsValid(s.fields)
  }

  ghost predicate OptionalSectionValid(s: Section) {
    HasContent(s) ==> SectionValid(s)
  }

  /** A layout that says anything describes the shared metadata. */
  ghost predicate LayoutValid(l: Layout) {
    (HasContent(l.sharedMetadata) || HasContent(l.publicPayload) || HasContent(l.privatePayload)
     || HasContent(l.runtimeOnly)) ==>
      && SectionValid(l.sharedMetadata) && OptionalSectionValid(l.publicPayload)
      && OptionalSectionValid(l.privatePayload) && OptionalSectionValid(l.runtimeOnly)
  }

  ghost predicate CapabilitiesValid(items: seq<Capability>) {
    && items != [] && Unique(CapabilityNames(items)) && Names(CapabilityNames(items)) <= CAPABILITIES
    && forall i :: 0 <= i < |items| ==> !Blank(items[i].summary)
  }

  ghost predicate ObjectValid(o: DomainObject, capabilities: set<string>, stored: string -> bool) {
    !Blank(o.summary) && Required(o.schemaRef, stored) && SubsetOf(o.capabilities, capabilities)
    && LayoutValid(o.layout)
  }

  ghost predicate ObjectsValid(items: seq<DomainObject>, capabilities: set<string>, stored: string -> bool) {
    && items != [] && Unique(Kinds(items))
    && forall i :: 0 <= i < |items| ==> ObjectValid(items[i], capabilities, stored)
  }

  ghost predicate RelationValid(r: Relation, kinds: set<string>, capabilities: set<string>, stored: string -> bool) {
    && !Blank(r.summary) && SubsetOf(r.fromKinds, kinds) && SubsetOf(r.toKinds, kinds)
    && TrimSpace(r.cardinality) in CARDINALITIES && TrimSpace(r.visibility) in VISIBILITIES
    && Required(r.schemaRef, stored) && SubsetOf(r.capabilities, capabilities) && FieldsValid(r.attributes)
  }

  ghost predicate RelationsValid(items: seq<Relation>, kinds: set<string>, capabilities: set<string>,
                                 stored: string -> bool) {
    && Unique(RelationKinds(items))
    && forall i :: 0 <= i < |items| ==> RelationValid(items[i], kinds, capabilities, stored)
  }

  predicate ConsistencyValid(writeVisibility: string, projectionFreshness: string) {
    TrimSpace(writeVisibility) in WRITE_VISIBILITIES && TrimSpace(projectionFreshness) in FRESHNESSES
  }

  /** View i is for this mode. */
  ghost predicate Shows(views: seq<DataView>, i: int, mode: string) {
    0 <= i < |views| && mode in Names(views[i].authModes)
  }

  ghost predicate ViewValid(v: DataView, modes: set<string>) {
    SubsetOf(v.authModes, modes) && SubsetOf(v.sections, LAYOUT_SECTIONS) && !Blank(v.summary)
  }

  /** Declared data views partition the projection's own modes: each mode has exactly one view. */
  ghost predicate ViewsPartition(views: seq<DataView>, modes: set<string>) {
    forall mode :: mode in modes ==>
      (exists i :: Shows(views, i, mode)) && (forall i, j :: Shows(views, i, mode) && Shows(views, j, mode) ==> i == j)
  }

  ghost predicate ViewsValid(views: seq<DataView>, projectionModes: seq<string>, authModes: set<string>) {
    views != [] ==>
      && SubsetOf(projectionModes, authModes)
      && (forall i :: 0 <= i < |views| ==> ViewValid(views[i], Names(projectionModes)))
      && ViewsPartition(views, Names(projectionModes))
  }

  predicate PathUnder(path: string, prefix: string) {
    !Blank(path) && prefix <= TrimSpace(path)
  }

  ghost predicate ProjectionValid(p: Projection, seedId: string, kinds: set<string>, capabilities: set<string>,
                                  authModes: set<string>) {
    && !Blank(p.summary) && PathUnder(p.path, "/v1/projections/" + seedId + "/")
    && SubsetOf(p.objectKinds, kinds) && SubsetOf(p.authModes, authModes) && SubsetOf(p.capabilities, capabilities)
    && TrimSpace(p.freshness) in FRESHNESSES && ViewsValid(p.dataViews, p.authModes, authModes)
  }

  ghost predicate ProjectionsValid(items: seq<Projection>, seedId: string, kinds: set<string>,
                                   capabilities: set<string>, authModes: set<string>) {
    && items != [] && Unique(ProjectionNames(items)) && Unique(ProjectionPaths(items))
    && forall i :: 0 <= i < |items| ==> ProjectionValid(items[i], seedId, kinds, capabilities, authModes)
  }

  ghost predicate ErrorCodeValid(e: ErrorCode, modes: set<string>) {
    !Blank(e.summary) && (e.authModes != [] ==> SubsetOf(e.authModes, modes))
  }

  ghost predicate ErrorCodesValid(items: seq<ErrorCode>, commandModes: seq<string>, authModes: set<string>) {
    items != [] ==>
      && (commandModes != [] ==> SubsetOf(commandModes, authModes))
      && Unique(Codes(items))
      && forall i :: 0 <= i < |items| ==>
           ErrorCodeValid(items[i], if commandModes != [] then Names(commandModes) else authModes)
  }

  ghost predicate CommandValid(
      c: Command, seedId: string, kinds: set<string>, projections: set<string>, capabilities: set<string>,
      authModes: set<string>, stored: string -> bool) {
    && !Blank(c.summary) && PathUnder(c.path, "/v1/commands/" + seedId + "/")
    && SubsetOf(c.objectKinds, kinds) && SubsetOf(c.authModes, authModes) && TrimSpace(c.idempotency) in IDEMPOTENCIES
    && Required(c.inputSchemaRef, stored) && Required(c.resultSchemaRef, stored)
       && SubsetOf(c.capabilities, capabilities)
    && TrimSpace(c.projection) in projections && TrimSpace(c.consistency) in WRITE_VISIBILITIES
    && OptionalSectionValid(c.runtimeContext) && ErrorCodesValid(c.errorCodes, c.authModes, authModes)
  }

  ghost predicate CommandsValid(
      items: seq<Command>, seedId: string, kinds: set<string>, projections: set<string>, capabilities: set<string>,
      authModes: set<string>, stored: string -> bool) {
    && Unique(CommandNames(items)) && Unique(CommandPaths(items))
    && forall i :: 0 <= i < |items| ==>
         CommandValid(items[i], seedId, kinds, projections, capabilities, authModes, stored)
  }

  ghost predicate SurfaceValid(s: Surface, projections: set<string>, commands: set<string>, authModes: set<string>) {
    && !Blank(s.summary) && PathUnder(s.path, "/") && SubsetOf(s.authModes, authModes)
    && (s.usesProjections != [] || s.mutatesCommands != [])
    && (s.usesProjections != [] ==> SubsetOf(s.usesProjections, projections))
    && (s.mutatesCommands != [] ==> SubsetOf(s.mutatesCommands, commands))
  }

  ghost predicate SurfacesValid(items: seq<Surface>, projections: set<string>, commands: set<string>,
                                authModes: set<string>) {
    && Unique(SurfaceNames(items)) && Unique(SurfacePaths(items))
    && forall i :: 0 <= i < |items| ==> SurfaceValid(items[i], projections, commands, authModes)
  }

  /** The identity of a realization's manifest. */
  datatype Entry = Entry(seedId: string, realizationId: string)

  predicate HeaderValid(c: Contract, entry: Entry, stored: string -> bool) {
    && TrimSpace(c.contractVersion) == "v1" && TrimSpace(c.surfaceKind) in SURFACE_KINDS
    && TrimSpace(c.seedId) == entry.seedId && TrimSpace(c.realizationId) == entry.realizationId
    && !Blank(c.summary) && LinksResolve(c.links, stored)
  }

  /** Every reference inside the contract is closed, names and paths are unique, and an interactive contract has
      a command.  The last check looks at the surface kind as written. */
  ghost predicate ContractValid(c: Contract, entry: Entry, stored: string -> bool) {
    var modes, capabilities := Names(c.authModes), Names(CapabilityNames(c.capabilities));
    var kinds := Names(Kinds(c.objects));
    var projections, commands := Names(ProjectionNames(c.projections)), Names(CommandNames(c.commands));
    && HeaderValid(c, entry, stored)
    && SubsetOf(c.authModes, AUTH_MODES)
    && CapabilitiesValid(c.capabilities)
    && ObjectsValid(c.objects, capabilities, stored)
    && RelationsValid(c.relations, kinds, capabilities, stored)
    && ConsistencyValid(c.writeVisibility, c.projectionFreshness)
    && ProjectionsValid(c.projections, entry.seedId, kinds, capabilities, modes)
    && (c.surfaceKind == "interactive" ==> c.commands != [])
    && CommandsValid(c.commands, entry.seedId, kinds, projections, capabilities, modes, stored)
    && SurfacesValid(c.surfaces, projections, commands, modes)
  }
}
