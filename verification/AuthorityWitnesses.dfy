/** Closed runs of the authority system, step by step. */
module AuthorityWitnesses {
  import opened Wrappers
  import opened Text
  import opened Normalize
  import opened AuthorityTypes
  import opened Registry
  import opened Paging
  import opened Replay
  import opened GrantDraft
  import opened AuthorityLedger
  import opened AuthorityRuns
  import opened AuthorityTheorems

  // ----- A rebuild of a ledger with one grant -----

  function RebuildEvents(p: nat): seq<Event> {
    [BeginRead(p)] + ([ReadPage(p, 1)] + ([ReadPage(p, 1)] + [CommitRebuild(p)]))
  }

  lemma OneRowPages(row: Row, limit: nat)
    requires IsAuthorityRow(row) && row.rowId > 0 && limit > 0
    ensures Page([row], AUTHORITY, 0, limit) == [row] && Page([row], AUTHORITY, row.rowId, limit) == []
    ensures GrantRows([row]) == [row]
  {
    hide IsGrantRow;
    assert [row][1..] == [];
  }

  function At(s: State, p: nat, x: Session): State {
    s.(sessions := s.sessions[p := x])
  }

  lemma FirstPage(s: State, p: nat, row: Row)
    requires s.ledger.rows == [row] && IsAuthorityRow(row) && row.rowId > 0
    ensures Step(At(s, p, Reading(0, [])), ReadPage(p, 1)) == At(s, p, Reading(row.rowId, [row]))
  {
    OneRowPages(row, 1);
    hide IsAuthorityRow, Page, GrantRows;
    assert [] + [row] == [row];
    assert At(At(s, p, Reading(0, [])), p, Reading(row.rowId, [row])) == At(s, p, Reading(row.rowId, [row]));
  }

  lemma LastPage(s: State, p: nat, row: Row)
    requires s.ledger.rows == [row] && IsAuthorityRow(row) && row.rowId > 0
    ensures Step(At(s, p, Reading(row.rowId, [row])), ReadPage(p, 1)) == At(s, p, ReadDone([row]))
  {
    OneRowPages(row, 1);
    hide IsAuthorityRow, Page, GrantRows;
    assert At(At(s, p, Reading(row.rowId, [row])), p, ReadDone([row])) == At(s, p, ReadDone([row]));
  }

  lemma CommitOne(s: State, p: nat, row: Row)
    requires Decodable(row)
    ensures var t := Step(At(s, p, ReadDone([row])), CommitRebuild(p));
            t.ledger == s.ledger && GrantId(row) in t.grants && |t.grants| == 1 && t.sessions == s.sessions - {p}
  {
    hide Decodable, BundlesOf, GrantsOf;
    assert AllDecodable([row]);
    OneGrant(row);
    assert At(s, p, ReadDone([row])).sessions - {p} == s.sessions - {p};
  }

  lemma OneGrant(row: Row)
    requires Decodable(row) && AllDecodable([row])
    ensures GrantId(row) in GrantsOf([row]) && |GrantsOf([row])| == 1
  {
    hide Decodable, GrantsOf, StoredRow;
    TableOfDistinctRows([row]);
    assert [row][0] == row;
  }

  /** A rebuild of a ledger with a single row, an authority row, leaves a table with its grant. */
  lemma RebuildOfOne(s: State, p: nat, row: Row)
    requires s.ledger.rows == [row] && IsAuthorityRow(row) && Decodable(row) && row.rowId > 0
    ensures var t := AuthorityRuns.Run(s, RebuildEvents(p));
            t.ledger == s.ledger && GrantId(row) in t.grants && |t.grants| == 1 && t.sessions == s.sessions - {p}
  {
    FirstPage(s, p, row);
    LastPage(s, p, row);
    CommitOne(s, p, row);
    assert Step(s, BeginRead(p)) == At(s, p, Reading(0, []));
    hide IsAuthorityRow, Decodable, Step, At, AuthorityRuns.Run;
    RunCons(s, BeginRead(p), [ReadPage(p, 1)] + ([ReadPage(p, 1)] + [CommitRebuild(p)]));
    RunCons(At(s, p, Reading(0, [])), ReadPage(p, 1), [ReadPage(p, 1)] + [CommitRebuild(p)]);
    RunCons(At(s, p, Reading(row.rowId, [row])), ReadPage(p, 1), [CommitRebuild(p)]);
    RunLast(At(s, p, ReadDone([row])), CommitRebuild(p));
  }

  lemma DraftNamed(grants: Grants, bundles: Bundles, input: GrantInput, freshId: string, now: nat)
    requires Decide(grants, bundles, input, freshId, now).Ok?
    ensures Decide(grants, bundles, input, freshId, now).value.grant.grantId
         == if Blank(input.grantId) then freshId else input.grantId
  {
    hide TrimSpace, NormalizeList;
  }

  // ----- The first grant -----

  function CreateEvents(): seq<Event> {
    [EditBundle(BUNDLE)] + ([DraftGrant(1, REQUEST, "g", 1)] + [AppendDraft(1, 1)])
  }

  /** One worker creates the first grant. */
  lemma FirstCreate() returns (row: Row)
    ensures var s := AuthorityRuns.Run(INIT, CreateEvents());
            && s.ledger.rows == [row] && IsAuthorityRow(row) && Decodable(row) && row.rowId > 0
            && row.changeSetId == "auth-g" && LedgerValid(s.ledger)
  {
    RequestAccepted(1);
    DraftNamed(map[], map["b" := BUNDLE], REQUEST, "g", 1);
    InitInv();
    var s1 := INIT.(bundles := map["b" := BUNDLE]);
    assert Step(INIT, EditBundle(BUNDLE)) == s1;
    StepKeeps(INIT, EditBundle(BUNDLE));
    hide Decide, Inv, Step, Blank, AuthorityRuns.Run, IsAuthorityRow, Decodable, Registry.Append, GrantAppend;
    var d := Decide(map[], map["b" := BUNDLE], REQUEST, "g", 1).value;
    DraftStored(s1, 1, REQUEST, "g", 1);
    var s2 := s1.(sessions := map[1 := Drafted(d)]);
    RunCons(INIT, EditBundle(BUNDLE), [DraftGrant(1, REQUEST, "g", 1)] + [AppendDraft(1, 1)]);
    RunCons(s1, DraftGrant(1, REQUEST, "g", 1), [AppendDraft(1, 1)]);
    RunLast(s2, AppendDraft(1, 1));
    row := DraftRow(EMPTY_LEDGER, d, 1);
    FirstAppend(s2, d);
  }

  lemma FirstAppend(s: State, d: Draft)
    requires Inv(s) && s.ledger == EMPTY_LEDGER && 1 in s.sessions && s.sessions[1] == Drafted(d)
    ensures var row := DraftRow(EMPTY_LEDGER, d, 1);
            var t := Step(s, AppendDraft(1, 1));
            && t.sessions == s.sessions - {1} && row.rowId > 0
            && t.ledger.rows == [row] && IsAuthorityRow(row) && Decodable(row) && LedgerValid(t.ledger)
  {
    AppendDraftKeeps(s, 1, 1);
    assert SessionValid(s.ledger, s.sessions[1]);
    FirstAppendStores(s, d);
    hide LedgerValid, PrefixReplay, Registry.Append, GrantAppend, AuthorityRows, TrimSpace, PayloadError,
         IsAuthorityRow, SessionValid, Step;
    DraftRowIsAuthority(EMPTY_LEDGER, d, 1);
  }

  lemma FirstAppendStores(s: State, d: Draft)
    requires Inv(s) && s.ledger == EMPTY_LEDGER && 1 in s.sessions && s.sessions[1] == Drafted(d)
    ensures var t := Step(s, AppendDraft(1, 1));
            t.sessions == s.sessions - {1} && t.ledger.rows == [DraftRow(EMPTY_LEDGER, d, 1)]
  {
    hide LedgerValid, PrefixReplay, Registry.Append, GrantAppend, AuthorityRows, SessionValid, DraftRow, IndexExact;
    LedgerDecodes(s.ledger);
    ValidLedger(s.ledger);
    GrantAppendStores(EMPTY_LEDGER, d, "", 1);
    assert [] + [DraftRow(EMPTY_LEDGER, d, 1)] == [DraftRow(EMPTY_LEDGER, d, 1)];
  }

  lemma ValidLedger(l: Ledger)
    requires LedgerValid(l)
    ensures Valid(l)
  {}
}
