/** What every registry keeps about its authority rows, and how appends add to them. */
module AuthorityLedger {
  import opened Wrappers
  import opened Text
  import opened AuthorityTypes
  import opened Registry
  import opened Paging
  import opened Replay
  import opened GrantDraft

  predicate IsAuthorityRow(row: Row) {
    Matches(AUTHORITY, row) && IsGrantRow(row)
  }

  /** An authority row is the single row of its grant's own change set and replays. */
  ghost predicate WellFormedAuthorityRow(row: Row) {
    Decodable(row) && row.rowOrder == 0 && row.changeSetId == "auth-" + GrantId(row)
  }

  ghost predicate AuthorityRowsWellFormed(rows: seq<Row>) {
    forall i :: 0 <= i < |rows| && IsAuthorityRow(rows[i]) ==> WellFormedAuthorityRow(rows[i])
  }

  /** The grant id row k supersedes belongs to a strictly earlier row. */
  ghost predicate SupersedesEarlier(rows: seq<Row>)
    requires AllDecodable(rows)
  {
    forall k :: 0 <= k < |rows| && StoredRow(rows[k]).supersedes != "" ==>
          NamedBefore(StoredRow(rows[k]).supersedes, rows, k)
  }

  ghost predicate NamedBefore(id: string, rows: seq<Row>, k: int)
    requires AllDecodable(rows) && k <= |rows|
  {
    exists j :: 0 <= j < k && GrantId(rows[j]) == id
  }

  ghost predicate LedgerValid(l: Ledger) {
    && Valid(l)
    && AuthorityRowsWellFormed(l.rows)
    && AllDecodable(AuthorityRows(l.rows))
    && DistinctIds(AuthorityRows(l.rows))
    && SupersedesEarlier(AuthorityRows(l.rows))
  }

  // ----- Authority rows are exactly the rows that should be replayed -----

  lemma GrantRowsOf(rows: seq<Row>, row: Row)
    ensures row in GrantRows(rows) <==> row in rows && IsGrantRow(row)
  {
    hide IsGrantRow;
    if rows != [] {
      assert rows == [rows[0]] + rows[1..];
      GrantRowsOf(rows[1..], row);
    }
  }

  lemma AllMatchesOf(rows: seq<Row>, q: RowQuery, row: Row)
    ensures row in AllMatches(rows, q) <==> row in rows && Matches(q, row)
  {
    hide Matches;
    if rows != [] {
      assert rows == [rows[0]] + rows[1..];
      AllMatchesOf(rows[1..], q, row);
    }
  }

  lemma AuthorityRowsOf(rows: seq<Row>, row: Row)
    ensures row in AuthorityRows(rows) <==> row in rows && IsAuthorityRow(row)
  {
    hide IsGrantRow, Matches;
    AllMatchesOf(rows, AUTHORITY, row);
    GrantRowsOf(AllMatches(rows, AUTHORITY), row);
  }

  /** The rows a rebuild replays are the authority's own grant rows, in the order of the ledger. */
  lemma AuthorityRowsAre(rows: seq<Row>, row: Row)
    requires Increasing(rows)
    ensures row in AuthorityRows(rows)
        <==> row in rows && row.reference == "runtime-authority" && row.seedId == "kernel-runtime"
             && row.realizationId == "authority" && TrimSpace(row.rowType) == "authority.grant.create"
    ensures Increasing(AuthorityRows(rows))
  {
    AuthorityRowsOf(rows, row);
    AuthorityRowsIncrease(rows);
    hide TrimSpace, AuthorityRows;
  }

  lemma GrantRowsIncrease(rows: seq<Row>)
    requires Increasing(rows)
    ensures Increasing(GrantRows(rows))
  {
    hide IsGrantRow;
    if rows != [] {
      GrantRowsIncrease(rows[1..]);
      forall row | row in GrantRows(rows[1..]) ensures rows[0].rowId < row.rowId { GrantRowsOf(rows[1..], row); }
    }
  }

  lemma AllMatchesIncrease(rows: seq<Row>, q: RowQuery)
    requires Increasing(rows)
    ensures Increasing(AllMatches(rows, q))
  {
    hide Matches;
    if rows != [] {
      AllMatchesIncrease(rows[1..], q);
      forall row | row in AllMatches(rows[1..], q)
        ensures rows[0].rowId < row.rowId
      {
        AllMatchesOf(rows[1..], q, row);
      }
    }
  }

  lemma AuthorityRowsIncrease(rows: seq<Row>)
    requires Increasing(rows)
    ensures Increasing(AuthorityRows(rows))
  {
    AllMatchesIncrease(rows, AUTHORITY);
    GrantRowsIncrease(AllMatches(rows, AUTHORITY));
  }

  /** Grant ids are unique because each grant owns the change set named after it. */
  lemma AuthorityIdsDistinct(l: Ledger)
    requires Valid(l) && AuthorityRowsWellFormed(l.rows)
    ensures AllDecodable(AuthorityRows(l.rows)) && DistinctIds(AuthorityRows(l.rows))
  {
    hide PayloadError, IsAuthorityRow, AuthorityRows, RowsAgree, OrdersContiguous, ChangeSetsPopulated;
    var rows := AuthorityRows(l.rows);
    AuthorityRowsIncrease(l.rows);
    forall i | 0 <= i < |rows| ensures rows[i] in l.rows && WellFormedAuthorityRow(rows[i]) {
      AuthorityRowsOf(l.rows, rows[i]);
    }
    forall i, j | 0 <= i < j < |rows| ensures GrantId(rows[i]) != GrantId(rows[j]) {
      var a :| 0 <= a < |l.rows| && l.rows[a] == rows[i];
      var b :| 0 <= b < |l.rows| && l.rows[b] == rows[j];
      assert rows[i].rowId < rows[j].rowId && a != b;
      assert KeyOf(l.rows[a]) != KeyOf(l.rows[b]);
    }
  }

  // ----- Appends -----

  /** A row list without a grant row adds nothing to the authority rows. */
  lemma NoGrantRows(rows: seq<Row>)
    requires forall i :: 0 <= i < |rows| ==> !IsGrantRow(rows[i])
    ensures AuthorityRows(rows) == []
  {
    hide IsGrantRow;
    if AuthorityRows(rows) != [] {
      var row := AuthorityRows(rows)[0];
      assert row in AuthorityRows(rows);
      AuthorityRowsOf(rows, row);
      assert false;
    }
  }

  /** None of the rows asks to be an authority row. */
  predicate NoGrantInput(items: seq<RowInput>) {
    forall i :: 0 <= i < |items| ==> TrimSpace(items[i].rowType) != GRANT_CREATE
  }

  lemma InsertRowsNoGrant(l: Ledger, cs: ChangeSet, items: seq<RowInput>, from: nat)
    requires IndexExact(l) && from <= |items| && NoGrantInput(items)
    ensures var l' := InsertRows(l, cs, items, from).0;
            l.rows <= l'.rows && forall i :: |l.rows| <= i < |l'.rows| ==> !IsGrantRow(l'.rows[i])
    decreases |items| - from
  {
    hide TrimSpace;
    if from < |items| {
      var first := InsertRow(l, cs, from, items[from]).0;
      assert forall i :: |l.rows| <= i < |first.rows| ==> !IsGrantRow(first.rows[i]) by {
        TrimSpaceIdempotent(items[from].rowType);
      }
      InsertRowIndex(l, cs, from, items[from]);
      InsertRowsNoGrant(first, cs, items, from + 1);
      var l' := InsertRows(l, cs, items, from).0;
      forall i | |l.rows| <= i < |l'.rows| ensures !IsGrantRow(l'.rows[i]) {
        if i < |first.rows| { assert l'.rows[i] == first.rows[i]; }
      }
    }
  }

  /** Growing by rows that are not grant rows keeps everything about the authority rows. */
  lemma GrowWithoutGrants(l: Ledger, l': Ledger)
    requires LedgerValid(l) && Valid(l') && l.rows <= l'.rows
    requires forall i :: |l.rows| <= i < |l'.rows| ==> !IsGrantRow(l'.rows[i])
    ensures LedgerValid(l') && AuthorityRows(l'.rows) == AuthorityRows(l.rows)
  {
    hide WellFormedAuthorityRow, Matches, IsGrantRow, AllDecodable, DistinctIds, SupersedesEarlier, Valid;
    AuthorityRowsGrow(l.rows, l'.rows);
    NoGrantRows(l'.rows[|l.rows|..]);
    assert AuthorityRows(l.rows) + [] == AuthorityRows(l.rows);
    forall i | 0 <= i < |l'.rows| && IsAuthorityRow(l'.rows[i]) ensures WellFormedAuthorityRow(l'.rows[i]) {
      assert i < |l.rows|;
      assert l'.rows[i] == l.rows[i];
    }
  }

  lemma OtherAppendRows(l: Ledger, input: AppendInput, freshId: string, now: nat)
    requires IndexExact(l) && NoGrantInput(input.rows)
    ensures var l' := Append(l, input, freshId, now).0;
            l.rows <= l'.rows && forall i :: |l.rows| <= i < |l'.rows| ==> !IsGrantRow(l'.rows[i])
  {
    hide IsGrantRow, RequestedChangeSet, InputError, NoGrantInput;
    if InputError(input).None? {
      var cs := Target(l, RequestedChangeSet(input, freshId, now));
      InsertRowsNoGrant(Opened(l, cs), cs, input.rows, 0);
    }
  }

  /** Appends of other rows leave the authority rows as they are, even into a grant's change set. */
  lemma OtherAppendKeeps(l: Ledger, input: AppendInput, freshId: string, now: nat)
    requires LedgerValid(l) && NoGrantInput(input.rows)
    ensures var l' := Append(l, input, freshId, now).0;
            LedgerValid(l') && Extends(l, l') && AuthorityRows(l'.rows) == AuthorityRows(l.rows)
  {
    hide Append, IsGrantRow, AuthorityRowsWellFormed, AllDecodable, DistinctIds, SupersedesEarlier;
    AppendKeepsValid(l, input, freshId, now);
    OtherAppendRows(l, input, freshId, now);
    GrowWithoutGrants(l, Append(l, input, freshId, now).0);
  }

  /** The row that carries a draft, if it is stored. */
  function DraftRow(l: Ledger, d: Draft, now: nat): Row {
    var id := "auth-" + d.grant.grantId;
    Row(l.nextRowId, id, AUTHORITY.reference, AUTHORITY.seedId, AUTHORITY.realizationId, 0, GRANT_CREATE,
        TrimSpace(d.grant.grantId), TrimSpace(d.grant.grantId), GrantPayload(d.grant, d.bundle), now)
  }

  /** The change set of a new grant: named after it, the authority's own, and accepted by the grantor, or by the
      system when there is none. */
  lemma GrantAppendOpens(l: Ledger, d: Draft, now: nat)
    requires Valid(l)
    ensures var id := "auth-" + d.grant.grantId;
            var l' := Append(l, GrantAppend(d), "", now).0;
            && id in l'.changeSets && l'.changeSets == l.changeSets[id := l'.changeSets[id]]
            && (id !in l.changeSets ==>
                  var cs := l'.changeSets[id];
                  && cs.id == id && cs.idempotencyKey == TrimSpace(id) && cs.acceptedAt == now
                  && cs.reference == "runtime-authority" && cs.seedId == "kernel-runtime"
                  && cs.realizationId == "authority"
                  && cs.acceptedBy == (if TrimSpace(d.grant.grantor) == "" then "system"
                                       else TrimSpace(d.grant.grantor)))
  {
    GrantAppendAccepted(d, "", now);
    AuthorityQueryTrimmed();
    TrimSpaceFixpoint("system");
    TrimSpaceIdempotent(d.grant.grantor);
    hide TrimSpace, Append, InputError, RequestedChangeSet;
    AppendStoresRequest(l, GrantAppend(d), "", now);
  }

  lemma GrantAppendAccepted(d: Draft, freshId: string, now: nat)
    ensures InputError(GrantAppend(d)).None?
    ensures var cs := RequestedChangeSet(GrantAppend(d), freshId, now);
            && cs.id == "auth-" + d.grant.grantId && cs.reference == AUTHORITY.reference
               && cs.seedId == AUTHORITY.seedId
            && cs.realizationId == AUTHORITY.realizationId && cs.acceptedAt == now
    ensures TrimSpace(GRANT_CREATE) == GRANT_CREATE
  {
    AuthorityQueryTrimmed();
    TrimSpaceFixpoint(GRANT_CREATE);
    var rows := GrantAppend(d).rows;
    assert rows[1..] == [];
    assert !FirstBlankRowType(rows);
  }

  /** Appending a draft stores its row exactly when the grant's change set does not exist yet. */
  lemma GrantAppendStores(l: Ledger, d: Draft, freshId: string, now: nat)
    requires Valid(l)
    ensures var l' := Append(l, GrantAppend(d), freshId, now).0;
            l'.rows == if "auth-" + d.grant.grantId in l.changeSets then l.rows else l.rows + [DraftRow(l, d, now)]
  {
    GrantAppendAccepted(d, freshId, now);
    var input := GrantAppend(d);
    var wanted := RequestedChangeSet(input, freshId, now);
    assert InputError(input).None?;
    hide RequestedChangeSet, InputError, TrimSpace;
    var cs := Target(l, wanted);
    var o := Opened(l, cs);
    if wanted.id in l.changeSets {
      assert HasRow(l, wanted.id, 0);
    } else {
      assert RowKey(wanted.id, 0) !in l.index;
    }
    assert InsertRows(o, cs, input.rows, 0).0 == InsertRow(o, cs, 0, input.rows[0]).0;
  }

  /** A draft that replays and supersedes only a ledger grant keeps the ledger valid when appended. */
  lemma GrantAppendKeeps(l: Ledger, d: Draft, freshId: string, now: nat)
    requires LedgerValid(l)
    requires PayloadError(GrantPayload(d.grant, d.bundle)).None? && d.grant.supersedes == TrimSpace(d.grant.supersedes)
    requires d.grant.supersedes != "" ==>
               NamedBefore(d.grant.supersedes, AuthorityRows(l.rows), |AuthorityRows(l.rows)|)
    ensures var l' := Append(l, GrantAppend(d), freshId, now).0;
            && LedgerValid(l') && Extends(l, l')
            && AuthorityRows(l'.rows) == if "auth-" + d.grant.grantId in l.changeSets then AuthorityRows(l.rows)
                                         else AuthorityRows(l.rows) + [DraftRow(l, d, now)]
  {
    hide RequestedChangeSet, InputError, Append, PayloadError, EditOf;
    var l' := Append(l, GrantAppend(d), freshId, now).0;
    AppendKeepsValid(l, GrantAppend(d), freshId, now);
    GrantAppendStores(l, d, freshId, now);
    if "auth-" + d.grant.grantId !in l.changeSets {
      var row := DraftRow(l, d, now);
      GrantAppendAccepted(d, freshId, now);
      DraftRowIsAuthority(l, d, now);
      AuthorityRowsGrow(l.rows, l'.rows);
      assert l'.rows[|l.rows|..] == [row];
      AddAuthorityRow(l, l', row);
    }
  }

  lemma DraftRowIsAuthority(l: Ledger, d: Draft, now: nat)
    requires PayloadError(GrantPayload(d.grant, d.bundle)).None?
    ensures IsAuthorityRow(DraftRow(l, d, now)) && WellFormedAuthorityRow(DraftRow(l, d, now))
    ensures AuthorityRows([DraftRow(l, d, now)]) == [DraftRow(l, d, now)]
  {
    hide PayloadError;
    TrimSpaceFixpoint(GRANT_CREATE);
    var rows := [DraftRow(l, d, now)];
    assert rows[1..] == [];
    assert AllMatches([], AUTHORITY) == [] && GrantRows([]) == [];
    assert AllMatches(rows, AUTHORITY) == rows + [] == rows;
    assert GrantRows(rows) == rows + [] == rows;
  }

  lemma AddAuthorityRow(l: Ledger, l': Ledger, row: Row)
    requires LedgerValid(l) && Valid(l') && l'.rows == l.rows + [row]
    requires WellFormedAuthorityRow(row) && AuthorityRows(l'.rows) == AuthorityRows(l.rows) + [row]
    requires StoredRow(row).supersedes != "" ==>
               NamedBefore(StoredRow(row).supersedes, AuthorityRows(l.rows), |AuthorityRows(l.rows)|)
    ensures LedgerValid(l')
  {
    hide PayloadError, StoredRow, IsAuthorityRow, Valid;
    assert AuthorityRowsWellFormed(l'.rows) by {
      forall i | 0 <= i < |l'.rows| && IsAuthorityRow(l'.rows[i]) ensures WellFormedAuthorityRow(l'.rows[i]) {
        if i < |l.rows| { assert l'.rows[i] == l.rows[i]; }
      }
    }
    AuthorityIdsDistinct(l');
    var rows, rows' := AuthorityRows(l.rows), AuthorityRows(l'.rows);
    forall k | 0 <= k < |rows'| && StoredRow(rows'[k]).supersedes != ""
      ensures NamedBefore(StoredRow(rows'[k]).supersedes, rows', k)
    {
      var id := StoredRow(rows'[k]).supersedes;
      assert NamedBefore(id, rows, k) by { if k < |rows| { assert rows'[k] == rows[k]; } }
      var j :| 0 <= j < k && GrantId(rows[j]) == id;
      assert GrantId(rows'[j]) == id;
    }
  }
}
