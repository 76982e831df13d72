/** From the request to the answer: what a created grant means for every later reader, whoever works in between. */
module GrantLaws {
  import opened Wrappers
  import opened Text
  import opened Normalize
  import opened AuthorityTypes
  import opened Registry
  import opened Paging
  import opened Replay
  import opened GrantDraft
  import opened AuthorityLedger
  import opened Effective
  import opened AuthorityRuns
  import opened AuthorityTheorems

  /** Session q holds the draft of this request, made at this time from some earlier state of the tables. */
  ghost predicate Holding(
      s: State, q: nat, grants: Grants, bundles: Bundles, input: GrantInput, freshId: string, drafted: nat)
  {
    && Inv(s) && q in s.sessions && Decide(grants, bundles, input, freshId, drafted).Ok?
    && s.sessions[q] == Drafted(Decide(grants, bundles, input, freshId, drafted).value)
  }

  function IdOf(input: GrantInput, freshId: string): string {
    if Blank(input.grantId) then freshId else input.grantId
  }

  ghost function EndedBy(grants: Grants, input: GrantInput): Option<Grant>
    requires TrimSpace(input.supersedes) != "" ==> TrimSpace(input.supersedes) in grants
  {
    if TrimSpace(input.supersedes) != "" then Some(grants[TrimSpace(input.supersedes)]) else None
  }

  /** A draft appended under an id that was used before changes no authority row. */
  lemma TakenIdChangesNothing(s: State, q: nat, now: nat)
    requires Inv(s) && q in s.sessions && s.sessions[q].Drafted?
    requires "auth-" + s.sessions[q].draft.grant.grantId in s.ledger.changeSets
    ensures AuthorityRows(Step(s, AppendDraft(q, now)).ledger.rows) == AuthorityRows(s.ledger.rows)
  {
    hide LedgerValid, GrantsOf, PrefixReplay, Registry.Append, GrantAppend, AuthorityRows, PayloadError, NamedBefore,
         Extends, TrimSpace, AllDecodable;
    LedgerDecodes(s.ledger);
    assert SessionValid(s.ledger, s.sessions[q]);
    GrantAppendKeeps(s.ledger, s.sessions[q].draft, "", now);
  }

  /** Appended under a new id, the draft is the payload of the last authority row. */
  lemma DraftIsLastRow(s: State, q: nat, now: nat)
    requires Inv(s) && q in s.sessions && s.sessions[q].Drafted?
    requires "auth-" + s.sessions[q].draft.grant.grantId !in s.ledger.changeSets
    ensures var t := Step(s, AppendDraft(q, now));
            var rows, n := AuthorityRows(t.ledger.rows), |AuthorityRows(s.ledger.rows)|;
            && Inv(t) && AllDecodable(rows) && |rows| == n + 1 && rows[..n] == AuthorityRows(s.ledger.rows)
            && rows[n].payload.GrantPayload? && rows[n].payload.grant == s.sessions[q].draft.grant
            && rows[n].acceptedAt == now
  {
    hide LedgerValid, GrantsOf, PrefixReplay, Registry.Append, GrantAppend, AuthorityRows, PayloadError, NamedBefore,
         Extends, TrimSpace, AllDecodable;
    AppendDraftKeeps(s, q, now);
    LedgerDecodes(s.ledger);
    LedgerDecodes(Step(s, AppendDraft(q, now)).ledger);
    assert SessionValid(s.ledger, s.sessions[q]);
    GrantAppendKeeps(s.ledger, s.sessions[q].draft, "", now);
  }

  /** What every later fresh projection shows of a grant created under a new id is what was asked for. */
  lemma CreatedGrantShown(s: State, q: nat, grants: Grants, bundles: Bundles, input: GrantInput, freshId: string,
                          drafted: nat, now: nat, events: seq<Event>)
    returns (asked: Grant)
    requires Holding(s, q, grants, bundles, input, freshId, drafted) && AllAllowed(events)
    requires "auth-" + IdOf(input, freshId) !in s.ledger.changeSets
    ensures TrimSpace(input.supersedes) != "" ==> TrimSpace(input.supersedes) in grants
    ensures Carries(asked, input, freshId, EndedBy(grants, input), bundles, drafted)
    ensures var t := AuthorityRuns.Run(Step(s, AppendDraft(q, now)), events);
            && Inv(t)
            && (FreshProjection(t) ==> asked.grantId in t.grants && Shows(t.grants[asked.grantId], asked, now))
  {
    asked := Decide(grants, bundles, input, freshId, drafted).value.grant;
    DraftCarries(grants, bundles, input, freshId, drafted);
    hide Decide, Inv, Step, FreshProjection, Shows, AllAllowed, PayloadError, AuthorityRows, TrimSpace, Normalized,
         AuthorityRuns.Run;
    DraftIsLastRow(s, q, now);
    FirstPayloadWins(Step(s, AppendDraft(q, now)), events, |AuthorityRows(s.ledger.rows)|);
  }

  /** A grant created under a new id is in force, for a reader of any later fresh projection, exactly when it was
      asked for as accepted, the reader asks for its grantee at a time within the interval asked for, which begins
      at the drafting when it is left open, and no row of the ledger ends it. */
  lemma CreatedGrantInForceIff(s: State, q: nat, grants: Grants, bundles: Bundles, input: GrantInput, freshId: string,
                               drafted: nat, now: nat, events: seq<Event>, principal: string, at: nat)
    requires Holding(s, q, grants, bundles, input, freshId, drafted) && AllAllowed(events)
    requires "auth-" + IdOf(input, freshId) !in s.ledger.changeSets
    ensures TrimSpace(input.supersedes) != "" ==> TrimSpace(input.supersedes) in grants
    ensures var t := AuthorityRuns.Run(Step(s, AppendDraft(q, now)), events);
            var id := IdOf(input, freshId);
            && Inv(t) && AllDecodable(AuthorityRows(t.ledger.rows))
            && (FreshProjection(t) ==>
                  (InForce(t.grants, principal, at, id) <==>
                     && (Blank(input.status) || TrimSpace(input.status) == "accepted")
                     && principal == Given(input.grantee, From(EndedBy(grants, input)).grantee)
                     && (if input.effectiveAt.Some? then input.effectiveAt.value <= at else drafted <= at)
                     && (input.expiresAt.Some? && input.expiresAt.value != 0 ==> at < input.expiresAt.value)
                     && !EndedInLedger(AuthorityRows(t.ledger.rows), id)))
  {
    hide FreshProjection, Decide, TrimSpace, Given, Normalized, InForce, EndedInLedger, Ended, AllAllowed,
         AuthorityRuns.Run, Step, AuthorityRows, LedgerValid, PrefixReplay, SessionValid, GrantsOf, Active, Shows;
    var asked := CreatedGrantShown(s, q, grants, bundles, input, freshId, drafted, now, events);
    var t := AuthorityRuns.Run(Step(s, AppendDraft(q, now)), events);
    LedgerDecodes(t.ledger);
    if FreshProjection(t) {
      ShownInForce(t.grants[asked.grantId], asked, now, principal, at);
      FreshInForceIff(t, asked.grantId, principal, at);
    }
  }

  /** The clauses of the query but the last, on a row that shows this payload. */
  ghost predicate Current(g: Grant, principal: string, at: nat) {
    && g.grantee == principal && g.status == "accepted"
    && (g.effectiveAt.Some? ==> g.effectiveAt.value <= at)
    && (g.expiresAt.Some? && g.expiresAt.value != 0 ==> at < g.expiresAt.value)
  }

  lemma ShownInForce(g: Grant, asked: Grant, now: nat, principal: string, at: nat)
    requires Shows(g, asked, now)
    ensures Current(g, principal, at) <==> Current(asked, principal, at)
    ensures g.expiresAt != Some(0)
  {
    hide TrimSpace, Normalized;
  }

  lemma FreshInForceIff(t: State, id: string, principal: string, at: nat)
    requires Inv(t) && FreshProjection(t) && id in t.grants
    requires t.grants[id].expiresAt != Some(0)
    ensures AllDecodable(AuthorityRows(t.ledger.rows))
    ensures InForce(t.grants, principal, at, id)
        <==> Current(t.grants[id], principal, at) && !EndedInLedger(AuthorityRows(t.ledger.rows), id)
  {
    LedgerDecodes(t.ledger);
    FreshEnds(t.ledger, id);
    hide LedgerValid, PrefixReplay, SessionValid, GrantsOf, AuthorityRows, EndedInLedger;
  }

  /** It confers the capabilities its bundle listed, or, for a revocation or supersession, those of the grant it
      ends, on the scope asked for. */
  lemma CreatedGrantConfersIff(s: State, q: nat, grants: Grants, bundles: Bundles, input: GrantInput, freshId: string,
                               drafted: nat, now: nat, events: seq<Event>, key: CapKey)
    requires Holding(s, q, grants, bundles, input, freshId, drafted) && AllAllowed(events)
    requires "auth-" + IdOf(input, freshId) !in s.ledger.changeSets
    ensures TrimSpace(input.supersedes) != "" ==> TrimSpace(input.supersedes) in grants
    ensures var t := AuthorityRuns.Run(Step(s, AppendDraft(q, now)), events);
            var ended, id := EndedBy(grants, input), IdOf(input, freshId);
            var bundleId := Given(input.bundleId, From(ended).bundleId);
            var status := if Blank(input.status) then "accepted" else TrimSpace(input.status);
            && Inv(t) && bundleId in bundles
            && (FreshProjection(t) ==>
                  && id in t.grants
                  && (Confers(t.grants[id], key) <==>
                        && key.capability in Members(Granted(status, bundles[bundleId], ended))
                        && key.scopeKind == Given(input.scopeKind, From(ended).scopeKind)
                        && key.scopeId == Given(input.scopeId, From(ended).scopeId)))
  {
    var asked := CreatedGrantShown(s, q, grants, bundles, input, freshId, drafted, now, events);
    var t := AuthorityRuns.Run(Step(s, AppendDraft(q, now)), events);
    var status := if Blank(input.status) then "accepted" else TrimSpace(input.status);
    var ended := EndedBy(grants, input);
    if FreshProjection(t) {
      var g := t.grants[asked.grantId];
      TwiceNormalized(g.capabilities, asked.capabilities, Granted(status, bundles[asked.bundleId], ended),
                      key.capability);
      hide Inv, FreshProjection, Decide, TrimSpace, Given, Normalized, Granted, Members, AllAllowed,
           AuthorityRuns.Run, Step;
    }
  }

  lemma TwiceNormalized(outer: seq<string>, inner: seq<string>, values: seq<string>, c: string)
    requires Normalized(inner, values) && Normalized(outer, inner)
    ensures c != "" && (exists v :: v in outer && TrimSpace(v) == c) <==> c in Members(values)
  {
    forall v | v in values ensures TrimSpace(TrimSpace(v)) == TrimSpace(v) { TrimSpaceIdempotent(v); }
    hide TrimSpace;
    assert forall x :: x in inner ==> TrimSpace(x) == x;
    assert forall x :: x in outer ==> TrimSpace(x) == x;
  }

  /** An accepted grant, a revocation or a supersession that is created under a new id ends the grant it names for
      every later reader: no answer from any fresh projection lists it, for any principal at any time. */
  lemma CreatedEndIsFinal(s: State, q: nat, grants: Grants, bundles: Bundles, input: GrantInput, freshId: string,
                          drafted: nat, now: nat, events: seq<Event>, principal: string, at: nat, active: seq<Grant>)
    requires Holding(s, q, grants, bundles, input, freshId, drafted) && AllAllowed(events)
    requires "auth-" + IdOf(input, freshId) !in s.ledger.changeSets && TrimSpace(input.supersedes) != ""
    requires Blank(input.status) || TrimSpace(input.status) in {"accepted", "revoked", "superseded"}
    ensures var t := AuthorityRuns.Run(Step(s, AppendDraft(q, now)), events);
            && Inv(t)
            && (FreshProjection(t) && ExactActive(active, t.grants, principal, at) ==>
                  forall g :: g in active ==> g.grantId != TrimSpace(input.supersedes))
  {
    var asked := CreatedGrantShown(s, q, grants, bundles, input, freshId, drafted, now, events);
    var t := AuthorityRuns.Run(Step(s, AppendDraft(q, now)), events);
    if FreshProjection(t) && ExactActive(active, t.grants, principal, at) {
      assert t.grants[asked.grantId].supersedes
             == TrimSpace(input.supersedes) by { TrimSpaceIdempotent(input.supersedes); }
      TableKeyed(t.ledger, t.grants);
      ActiveReads(active, t.grants, principal, at);
      assert !InForce(t.grants, principal, at, TrimSpace(input.supersedes));
    }
  }
}
