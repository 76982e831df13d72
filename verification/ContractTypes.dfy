/** Interaction contracts as they are read from YAML. */
module ContractTypes {

  datatype Links = Links(
    seedDesign: string, seedBrief: string, seedAcceptance: string, realizationReadme: string,
    kernelAgentPrinciples: string, seedAgentPrinciples: string)

  datatype Capability = Capability(name: string, summary: string)
  datatype Field = Field(name: string, fieldType: string, summary: string)
  datatype Section = Section(summary: string, fields: seq<Field>)
  datatype Layout = Layout(sharedMetadata: Section, publicPayload: Section, privatePayload: Section,
                           runtimeOnly: Section)

  datatype DomainObject = DomainObject(kind: string, summary: string, schemaRef: string, capabilities: seq<string>,
                                       layout: Layout)

  datatype Relation = Relation(
    kind: string, summary: string, fromKinds: seq<string>, toKinds: seq<string>, cardinality: string,
    visibility: string, schemaRef: string, capabilities: seq<string>, attributes: seq<Field>)

  datatype ErrorCode = ErrorCode(code: string, summary: string, authModes: seq<string>)

  datatype Command = Command(
    name: string, summary: string, path: string, objectKinds: seq<string>, authModes: seq<string>, idempotency: string,
    inputSchemaRef: string, resultSchemaRef: string, capabilities: seq<string>, projection: string, consistency: string,
    runtimeContext: Section, errorCodes: seq<ErrorCode>)

  datatype DataView = DataView(authModes: seq<string>, sections: seq<string>, summary: string)

  datatype Projection = Projection(
    name: string, summary: string, path: string, objectKinds: seq<string>, authModes: seq<string>,
    capabilities: seq<string>, freshness: string, dataViews: seq<DataView>)

  datatype Surface = Surface(
    name: string, summary: string, path: string, authModes: seq<string>, usesProjections: seq<string>,
    mutatesCommands: seq<string>)

  datatype Contract = Contract(
    contractVersion: string, surfaceKind: string, seedId: string, realizationId: string, summary: string, links: Links,
    authModes: seq<string>, capabilities: seq<Capability>, objects: seq<DomainObject>, relations: seq<Relation>,
    commands: seq<Command>, projections: seq<Projection>, surfaces: seq<Surface>,
    writeVisibility: string, projectionFreshness: string)
}
