/** The records of the authority ledger.  Instants count from Go's zero time, so 0 is time.IsZero. */
module AuthorityTypes {
  import opened Wrappers

  datatype Grant = Grant(
    grantId: string, grantor: string, grantee: string, bundleId: string, capabilities: seq<string>,
    scopeKind: string, scopeId: string, delegationMode: string, basis: string, status: string,
    effectiveAt: Option<nat>, expiresAt: Option<nat>, supersedes: string,
    reason: string, evidenceRefs: seq<string>, metadata: string, createdAt: nat)

  /** A row of runtime_authority_bundles; displayName is null when absent. */
  datatype Bundle = Bundle(bundleId: string, displayName: Option<string>, capabilities: seq<string>,
                           status: string, metadata: string)

  /** The bundle as a grant payload carries it; a nil name reads back as the empty string. */
  datatype BundleSnapshot = BundleSnapshot(bundleId: string, displayName: string, capabilities: seq<string>,
                                           status: string, metadata: string)

  /** The payload of a registry row: a grant event, or anything else. */
  datatype Payload = GrantPayload(grant: Grant, bundle: BundleSnapshot) | OtherPayload(json: string)
}
