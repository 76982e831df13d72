/** The legacy migration that every rebuild starts with: count the authority rows, and when there are none, list
    the grants table and append its grants under one change set.  The three statements are not one transaction,
    so another worker may create and rebuild between the count and the listing. */
module LegacyMigration {
  import opened Wrappers
  import opened Text
  import opened Normalize
  import opened Helpers
  import opened AuthorityTypes
  import opened Registry
  import opened Paging
  import opened Upserts
  import opened Replay
  import opened GrantDraft
  import opened AuthorityLedger
  import opened AuthorityRuns
  import opened AuthorityTheorems
  import opened AuthorityWitnesses

  const MIGRATION := "authority-legacy-migration"

  /** The grants of the table, each once, with whatever bundle was read for it. */
  ghost predicate Lists(grants: Grants, listed: seq<Draft>) {
    && |listed| == |grants|
    && (forall i, j :: 0 <= i < j < |listed| ==> listed[i].grant.grantId != listed[j].grant.grantId)
    && (forall i :: 0 <= i < |listed| ==>
          listed[i].grant.grantId in grants && grants[listed[i].grant.grantId] == listed[i].grant)
  }

  function MigrationItems(listed: seq<Draft>): seq<RowInput> {
    seq(|listed|, i requires 0 <= i < |listed| =>
      RowInput(GRANT_CREATE, listed[i].grant.grantId, listed[i].grant.grantId,
               GrantPayload(listed[i].grant, listed[i].bundle)))
  }

  function MigrationInput(listed: seq<Draft>): AppendInput {
    AppendInput(MIGRATION, AUTHORITY.reference, AUTHORITY.seedId, AUTHORITY.realizationId, MIGRATION, MIGRATION,
                "authority", MigrationItems(listed))
  }

  /** The ledger the migration leaves, given what it listed. */
  ghost function Migrated(l: Ledger, listed: seq<Draft>, now: nat): Ledger {
    if listed == [] then l else LedgerAfter(l, MigrationInput(listed), "", now)
  }

  /** The change set the migration writes to: its own, or one that somebody has already opened under its name. */
  ghost function Opens(l: Ledger, listed: seq<Draft>, now: nat): ChangeSet {
    Target(l, RequestedChangeSet(MigrationInput(listed), "", now))
  }

  predicate ForAuthority(cs: ChangeSet) {
    cs.reference == AUTHORITY.reference && cs.seedId == AUTHORITY.seedId && cs.realizationId == AUTHORITY.realizationId
  }

  /** Of the orders below n, how many a change set has rows at. */
  ghost function Occupied(l: Ledger, id: string, n: nat): (m: nat)
    ensures m <= n
  {
    if n == 0 then 0 else if HasRow(l, id, n - 1) then n else Occupied(l, id, n - 1)
  }

  /** The migration adds rows to the authority's ledger when it lists n grants. */
  ghost predicate MigrationAdds(l: Ledger, n: nat) {
    n > 0 && (MIGRATION in l.changeSets ==>
                ForAuthority(l.changeSets[MIGRATION]) && !HasRow(l, MIGRATION, n - 1))
  }

  function MigrationRow(l: Ledger, cs: ChangeSet, d: Draft, k: nat): Row {
    Row(l.nextRowId + k, cs.id, cs.reference, cs.seedId, cs.realizationId, k, GRANT_CREATE,
        TrimSpace(d.grant.grantId), TrimSpace(d.grant.grantId), GrantPayload(d.grant, d.bundle), cs.acceptedAt)
  }

  /** The rows it stores: those from order m on. */
  ghost function MigrationRows(l: Ledger, cs: ChangeSet, listed: seq<Draft>, m: nat): seq<Row>
    requires m <= |listed|
  {
    seq(|listed| - m, k requires 0 <= k < |listed| - m => MigrationRow(l, cs, listed[m + k], m + k))
  }

  /** The rows it adds to the authority's. */
  ghost function Added(l: Ledger, listed: seq<Draft>, now: nat): seq<Row> {
    var cs := Opens(l, listed, now);
    if ForAuthority(cs) then MigrationRows(l, cs, listed, Occupied(l, MIGRATION, |listed|)) else []
  }

  // ----- The rows it stores -----

  /** The row an item is stored as, when nothing is stored at its order. */
  function StoredAs(cs: ChangeSet, item: RowInput, order: nat, rowId: nat): Row {
    Row(rowId, cs.id, cs.reference, cs.seedId, cs.realizationId, order, TrimSpace(item.rowType),
        TrimSpace(item.objectId), TrimSpace(item.claimId), item.payload, cs.acceptedAt)
  }

  lemma InsertRowNew(l: Ledger, cs: ChangeSet, order: nat, item: RowInput)
    requires IndexExact(l) && RowKey(cs.id, order) !in l.index
    ensures var first := InsertRow(l, cs, order, item).0;
            && first.rows == l.rows + [StoredAs(cs, item, order, l.nextRowId)] && first.nextRowId == l.nextRowId + 1
            && first.index == l.index[RowKey(cs.id, order) := |l.rows|] && IndexExact(first)
  {
    InsertRowIndex(l, cs, order, item);
    hide TrimSpace, IndexExact;
  }

  lemma InsertRowsStep(l: Ledger, cs: ChangeSet, items: seq<RowInput>, from: nat)
    requires IndexExact(l) && from < |items| && IndexExact(InsertRow(l, cs, from, items[from]).0)
    ensures InsertRows(l, cs, items, from).0 == InsertRows(InsertRow(l, cs, from, items[from]).0, cs, items, from + 1).0
  {
    hide InsertRow, IndexExact;
  }

  /** The rows items[from..] are stored as, when nothing is stored at their orders. */
  ghost function RowsFor(cs: ChangeSet, items: seq<RowInput>, from: nat, next: nat): seq<Row>
    requires from <= |items|
  {
    seq(|items| - from, k requires 0 <= k < |items| - from => StoredAs(cs, items[from + k], from + k, next + k))
  }

  lemma {:induction false} InsertRowsNew(l: Ledger, cs: ChangeSet, items: seq<RowInput>, from: nat)
    requires IndexExact(l) && from <= |items|
    requires forall k :: from <= k < |items| ==> RowKey(cs.id, k) !in l.index
    ensures InsertRows(l, cs, items, from).0.rows == l.rows + RowsFor(cs, items, from, l.nextRowId)
    decreases |items| - from
  {
    hide InsertRow, IndexExact, StoredAs;
    if from < |items| {
      var first := InsertRow(l, cs, from, items[from]).0;
      InsertRowNew(l, cs, from, items[from]);
      InsertRowsStep(l, cs, items, from);
      InsertRowsNew(first, cs, items, from + 1);
      assert RowsFor(cs, items, from, l.nextRowId)
          == [StoredAs(cs, items[from], from, l.nextRowId)] + RowsFor(cs, items, from + 1, l.nextRowId + 1);
    } else {
      assert RowsFor(cs, items, from, l.nextRowId) == [];
      assert l.rows + [] == l.rows;
    }
  }

  lemma InsertRowOld(l: Ledger, cs: ChangeSet, order: nat, item: RowInput)
    requires IndexExact(l) && RowKey(cs.id, order) in l.index
    ensures InsertRow(l, cs, order, item).0 == l.(nextRowId := l.nextRowId + 1)
  {
    hide TrimSpace, IndexExact;
  }

  /** Rows that are stored already are passed over. */
  lemma {:induction false} InsertRowsOld(l: Ledger, cs: ChangeSet, items: seq<RowInput>, from: nat, m: nat)
    requires IndexExact(l) && from <= m <= |items|
    requires forall k :: from <= k < m ==> RowKey(cs.id, k) in l.index
    ensures IndexExact(l.(nextRowId := l.nextRowId + (m - from)))
    ensures InsertRows(l, cs, items, from).0 == InsertRows(l.(nextRowId := l.nextRowId + (m - from)), cs, items, m).0
    decreases m - from
  {
    hide InsertRow, InsertRows, IndexExact;
    SameIndexNext(l, m - from);
    if from < m {
      InsertRowOld(l, cs, from, items[from]);
      SameIndexNext(l, 1);
      InsertRowsStep(l, cs, items, from);
      InsertRowsOld(l.(nextRowId := l.nextRowId + 1), cs, items, from + 1, m);
    } else {
      assert l.(nextRowId := l.nextRowId + 0) == l;
    }
  }

  lemma SameIndexNext(l: Ledger, n: nat)
    requires IndexExact(l)
    ensures IndexExact(l.(nextRowId := l.nextRowId + n))
  {}

  lemma {:induction false} NoBlankTypes(items: seq<RowInput>, rowType: string)
    requires !Blank(rowType) && forall i :: 0 <= i < |items| ==> items[i].rowType == rowType
    ensures !FirstBlankRowType(items)
    decreases |items|
  {
    hide Blank;
    if items != [] { NoBlankTypes(items[1..], rowType); }
  }

  lemma MigrationAccepted(listed: seq<Draft>, now: nat)
    requires listed != []
    ensures InputError(MigrationInput(listed)).None?
    ensures var cs := RequestedChangeSet(MigrationInput(listed), "", now);
            cs.id == MIGRATION && ForAuthority(cs) && cs.acceptedAt == now
  {
    AuthorityQueryTrimmed();
    TrimSpaceFixpoint(GRANT_CREATE);
    hide TrimSpace;
    NoBlankTypes(MigrationItems(listed), GRANT_CREATE);
  }

  lemma StoredRowHasChangeSet(l: Ledger, key: RowKey)
    requires Valid(l) && key in l.index
    ensures key.changeSetId in l.changeSets
  {
    assert KeyOf(l.rows[l.index[key]]) == key;
  }

  lemma NoRowsWithoutChangeSet(l: Ledger, id: string)
    requires Valid(l) && id !in l.changeSets
    ensures forall k: nat :: RowKey(id, k) !in l.index
  {
    hide Valid;
    forall k: nat ensures RowKey(id, k) !in l.index {
      if RowKey(id, k) in l.index { StoredRowHasChangeSet(l, RowKey(id, k)); }
    }
  }

  lemma NoRowAt(l: Ledger, id: string, k: nat)
    requires Valid(l) && id !in l.changeSets
    ensures !HasRow(l, id, k)
  {
    NoRowsWithoutChangeSet(l, id);
  }

  lemma OccupiedIs(l: Ledger, id: string, n: nat, k: nat)
    requires OrdersContiguous(l) && k < n
    ensures HasRow(l, id, k) <==> k < Occupied(l, id, n)
  {
    hide OrdersContiguous;
    if HasRow(l, id, n - 1) {
      if k < n - 1 { LowerOrder(l, id, k, n - 1); }
    } else if k < n - 1 {
      OccupiedIs(l, id, n - 1, k);
    }
  }

  lemma LowerOrder(l: Ledger, id: string, j: nat, k: nat)
    requires OrdersContiguous(l) && HasRow(l, id, k) && j < k
    ensures HasRow(l, id, j)
  {}

  lemma SameIndex(l: Ledger, cs: ChangeSet)
    requires IndexExact(l)
    ensures IndexExact(Opened(l, cs)) && Opened(l, cs).rows == l.rows && Opened(l, cs).nextRowId == l.nextRowId
  {}

  lemma OccupiedKeys(l: Ledger, id: string, n: nat)
    requires OrdersContiguous(l)
    ensures forall k: nat :: k < n ==> (RowKey(id, k) in l.index <==> k < Occupied(l, id, n))
  {
    hide OrdersContiguous, Occupied;
    forall k: nat | k < n
      ensures RowKey(id, k) in l.index <==> k < Occupied(l, id, n)
    {
      OccupiedIs(l, id, n, k);
    }
  }

  /** The insert of listed grants passes over the orders that are taken and fills the others. */
  lemma RowsFilled(l: Ledger, cs: ChangeSet, items: seq<RowInput>)
    requires IndexExact(l) && OrdersContiguous(l)
    ensures var m := Occupied(l, cs.id, |items|);
            InsertRows(l, cs, items, 0).0.rows == l.rows + RowsFor(cs, items, m, l.nextRowId + m)
  {
    hide InsertRows, RowsFor, IndexExact, OrdersContiguous, Occupied;
    var m := Occupied(l, cs.id, |items|);
    OccupiedKeys(l, cs.id, |items|);
    SameIndexNext(l, m);
    InsertRowsOld(l, cs, items, 0, m);
    InsertRowsNew(l.(nextRowId := l.nextRowId + m), cs, items, m);
  }

  lemma FilledAlike(l: Ledger, o: Ledger, cs: ChangeSet, items: seq<RowInput>)
    requires IndexExact(o) && OrdersContiguous(o) && o.rows == l.rows && o.nextRowId == l.nextRowId
    requires Occupied(o, cs.id, |items|) == Occupied(l, cs.id, |items|)
    ensures var m := Occupied(l, cs.id, |items|);
            InsertRows(o, cs, items, 0).0.rows == l.rows + RowsFor(cs, items, m, l.nextRowId + m)
  {
    hide *;
    RowsFilled(o, cs, items);
  }

  lemma OpenedRowsFilled(l: Ledger, cs: ChangeSet, items: seq<RowInput>)
    requires IndexExact(l) && OrdersContiguous(l)
    ensures IndexExact(Opened(l, cs))
    ensures var m := Occupied(l, cs.id, |items|);
            InsertRows(Opened(l, cs), cs, items, 0).0.rows == l.rows + RowsFor(cs, items, m, l.nextRowId + m)
  {
    hide *;
    SameIndex(l, cs);
    OpenedContiguous(l, cs);
    SameOccupied(l, cs, cs.id, |items|);
    FilledAlike(l, Opened(l, cs), cs, items);
  }

  lemma SameMigrationRows(l: Ledger, listed: seq<Draft>, cs: ChangeSet, m: nat)
    requires m <= |listed|
    ensures RowsFor(cs, MigrationItems(listed), m, l.nextRowId + m) == MigrationRows(l, cs, listed, m)
  {
    TrimSpaceFixpoint(GRANT_CREATE);
    hide TrimSpace;
    var items := MigrationItems(listed);
    var a, b := RowsFor(cs, items, m, l.nextRowId + m), MigrationRows(l, cs, listed, m);
    assert |a| == |b|;
    forall k | 0 <= k < |a|
      ensures a[k] == b[k]
    {
      assert a[k] == StoredAs(cs, items[m + k], m + k, l.nextRowId + m + k);
    }
  }

  lemma OpensMigration(l: Ledger, listed: seq<Draft>, now: nat)
    requires Valid(l) && listed != []
    ensures InputError(MigrationInput(listed)).None? && Opens(l, listed, now).id == MIGRATION
    ensures MIGRATION in l.changeSets ==> Opens(l, listed, now) == l.changeSets[MIGRATION]
    ensures MIGRATION !in l.changeSets ==>
              ForAuthority(Opens(l, listed, now)) && Opens(l, listed, now).acceptedAt == now
  {
    MigrationAccepted(listed, now);
    hide RequestedChangeSet, InputError;
  }

  /** The migration stores one row for each listed grant whose order in its change set is free. */
  lemma MigrationAppends(l: Ledger, listed: seq<Draft>, now: nat)
    requires Valid(l) && listed != []
    ensures var m := Occupied(l, MIGRATION, |listed|);
            Migrated(l, listed, now).rows == l.rows + MigrationRows(l, Opens(l, listed, now), listed, m)
  {
    hide *;
    OpensMigration(l, listed, now);
    ValidParts(l);
    var cs := Opens(l, listed, now);
    ItemsMatch(listed);
    UnfoldMigrated(l, listed, now);
    OpenedRowsFilled(l, cs, MigrationItems(listed));
    SameMigrationRows(l, listed, cs, Occupied(l, cs.id, |listed|));
  }

  lemma ValidParts(l: Ledger)
    requires Valid(l)
    ensures IndexExact(l) && OrdersContiguous(l)
  {}

  lemma UnfoldMigrated(l: Ledger, listed: seq<Draft>, now: nat)
    requires IndexExact(l) && listed != [] && InputError(MigrationInput(listed)).None?
    ensures var cs := Opens(l, listed, now);
            && IndexExact(Opened(l, cs))
            && Migrated(l, listed, now).rows == InsertRows(Opened(l, cs), cs, MigrationItems(listed), 0).0.rows
  {
    SameIndex(l, Opens(l, listed, now));
    hide IndexExact, InputError, RequestedChangeSet, InsertRows, MigrationItems;
  }

  lemma ItemsMatch(listed: seq<Draft>)
    ensures |MigrationItems(listed)| == |listed|
  {}

  lemma SameOccupied(l: Ledger, cs: ChangeSet, id: string, n: nat)
    ensures Occupied(Opened(l, cs), id, n) == Occupied(l, id, n)
  {}

  // ----- The same grants again -----

  lemma AllAuthority(rows: seq<Row>)
    requires forall i :: 0 <= i < |rows| ==> IsAuthorityRow(rows[i])
    ensures AuthorityRows(rows) == rows
  {
    hide TrimSpace, IsGrantRow, Matches;
    if rows != [] {
      AllAuthority(rows[1..]);
      assert Matches(AUTHORITY, rows[0]) && IsGrantRow(rows[0]) by { assert IsAuthorityRow(rows[0]); }
      assert AllMatches(rows, AUTHORITY) == [rows[0]] + AllMatches(rows[1..], AUTHORITY);
    }
  }

  lemma MigrationRowIsAuthority(l: Ledger, cs: ChangeSet, d: Draft, k: nat)
    ensures IsAuthorityRow(MigrationRow(l, cs, d, k)) <==> ForAuthority(cs)
  {
    TrimSpaceFixpoint(GRANT_CREATE);
    hide TrimSpace;
  }

  lemma NoneAuthority(rows: seq<Row>)
    requires forall i :: 0 <= i < |rows| ==> !IsAuthorityRow(rows[i])
    ensures AuthorityRows(rows) == []
  {
    hide IsAuthorityRow;
    if AuthorityRows(rows) != [] {
      AuthorityRowsOf(rows, AuthorityRows(rows)[0]);
    }
  }

  lemma StoredAuthorityRows(l: Ledger, cs: ChangeSet, listed: seq<Draft>, m: nat)
    requires m <= |listed|
    ensures AuthorityRows(MigrationRows(l, cs, listed, m))
            == if ForAuthority(cs) then MigrationRows(l, cs, listed, m) else []
  {
    hide AuthorityRows, IsAuthorityRow, MigrationRow, ForAuthority;
    var rows := MigrationRows(l, cs, listed, m);
    forall i | 0 <= i < |rows|
      ensures IsAuthorityRow(rows[i]) <==> ForAuthority(cs)
    {
      MigrationRowIsAuthority(l, cs, listed[m + i], m + i);
    }
    if ForAuthority(cs) { AllAuthority(rows); } else { NoneAuthority(rows); }
  }

  lemma MigratedAuthorityRows(l: Ledger, listed: seq<Draft>, now: nat)
    requires Valid(l)
    ensures AuthorityRows(Migrated(l, listed, now).rows)
         == AuthorityRows(l.rows) + (if listed == [] then [] else Added(l, listed, now))
  {
    if listed == [] {
      NothingMigrated(l, now);
    } else {
      hide Valid, Migrated, AuthorityRows, MigrationRows, Occupied, Opens, ForAuthority;
      MigrationAppends(l, listed, now);
      var m := Occupied(l, MIGRATION, |listed|);
      var added := MigrationRows(l, Opens(l, listed, now), listed, m);
      StoredAuthorityRows(l, Opens(l, listed, now), listed, m);
      var rows := Migrated(l, listed, now).rows;
      AuthorityRowsGrow(l.rows, rows);
      assert rows[|l.rows|..] == added;
    }
  }

  /** The migration adds authority rows exactly when it lists grants and its change set is new, or is the
      authority's and has room. */
  lemma AddsIff(l: Ledger, listed: seq<Draft>, now: nat)
    requires Valid(l) && listed != []
    ensures Added(l, listed, now) != [] <==> MigrationAdds(l, |listed|)
    ensures MigrationAdds(l, |listed|) ==>
              ForAuthority(Opens(l, listed, now)) && Occupied(l, MIGRATION, |listed|) < |listed|
              && Added(l, listed, now)
                 == MigrationRows(l, Opens(l, listed, now), listed, Occupied(l, MIGRATION, |listed|))
  {
    hide Valid, Opens, Occupied, HasRow, OrdersContiguous, InputError, MigrationInput, ForAuthority;
    OpensMigration(l, listed, now);
    ValidParts(l);
    OccupiedIs(l, MIGRATION, |listed|, |listed| - 1);
    if MIGRATION !in l.changeSets { NoRowAt(l, MIGRATION, |listed| - 1); }
    var rows := MigrationRows(l, Opens(l, listed, now), listed, Occupied(l, MIGRATION, |listed|));
    assert |rows| == |listed| - Occupied(l, MIGRATION, |listed|);
  }

  /** Storing a stored grant again changes nothing, unless it lacks a creation time and now gets one. */
  lemma StoredTwice(g: Grant, t: nat, u: nat)
    ensures Stored(Stored(g, t), u) == Stored(g, t) <==> Stored(g, t).createdAt != 0 || u == 0
  {
    TrimSpaceIdempotent(g.grantor);
    TrimSpaceIdempotent(g.supersedes);
    TrimSpaceIdempotent(g.reason);
    NormalizeListIdempotent(g.capabilities);
    NormalizeListIdempotent(g.evidenceRefs);
    hide TrimSpace, NormalizeList;
  }

  /** The row stores the grant as it was listed. */
  predicate Keeps(d: Draft, cs: ChangeSet) {
    d.grant.createdAt != 0 || cs.acceptedAt == 0
  }

  lemma StoredRepeats(l: Ledger, cs: ChangeSet, row: Row, d: Draft, k: nat)
    requires Decodable(row) && d.grant == StoredRow(row)
    ensures Decodable(MigrationRow(l, cs, d, k)) && GrantId(MigrationRow(l, cs, d, k)) == GrantId(row)
    ensures StoredRow(MigrationRow(l, cs, d, k)) == StoredRow(row) <==> Keeps(d, cs)
  {
    hide TrimSpace, NormalizeList, NullTime;
    StoredTwice(row.payload.grant, row.acceptedAt, cs.acceptedAt);
  }

  /** Each migrated row repeats the id of a row the ledger already has. */
  lemma MigrationRowRepeats(l: Ledger, grants: Grants, cs: ChangeSet, d: Draft, k: nat) returns (j: nat)
    requires LedgerValid(l) && PrefixReplay(grants, AuthorityRows(l.rows))
    requires d.grant.grantId in grants && grants[d.grant.grantId] == d.grant
    ensures AllDecodable(AuthorityRows(l.rows)) && j < |AuthorityRows(l.rows)| && Decodable(MigrationRow(l, cs, d, k))
    ensures GrantId(MigrationRow(l, cs, d, k)) == GrantId(AuthorityRows(l.rows)[j]) == d.grant.grantId
    ensures StoredRow(MigrationRow(l, cs, d, k)) == StoredRow(AuthorityRows(l.rows)[j]) <==> Keeps(d, cs)
  {
    hide LedgerValid, AuthorityRows, PrefixReplay, StoredRow, Decodable, MigrationRow;
    j := ListedFromRow(l, grants, d.grant.grantId);
    StoredRepeats(l, cs, AuthorityRows(l.rows)[j], d, k);
  }

  lemma DecodesBoth(rows: seq<Row>, added: seq<Row>)
    requires AllDecodable(rows) && AllDecodable(added)
    ensures AllDecodable(rows + added)
  {
    hide Decodable;
  }

  lemma AddedDecodes(l: Ledger, grants: Grants, cs: ChangeSet, listed: seq<Draft>, m: nat)
    requires LedgerValid(l) && PrefixReplay(grants, AuthorityRows(l.rows)) && Lists(grants, listed) && m <= |listed|
    ensures AllDecodable(MigrationRows(l, cs, listed, m))
  {
    hide LedgerValid, AuthorityRows, PrefixReplay, Decodable, MigrationRow;
    forall i | m <= i < |listed|
      ensures Decodable(MigrationRow(l, cs, listed[i], i))
    {
      var j := MigrationRowRepeats(l, grants, cs, listed[i], i);
    }
  }

  lemma AllAddedDecode(l: Ledger, grants: Grants, listed: seq<Draft>, now: nat)
    requires LedgerValid(l) && PrefixReplay(grants, AuthorityRows(l.rows)) && Lists(grants, listed)
    ensures AllDecodable(Added(l, listed, now))
  {
    hide LedgerValid, AuthorityRows, PrefixReplay, AllDecodable, MigrationRows, Lists, Occupied, Opens, ForAuthority;
    NothingDecodes();
    AddedDecodes(l, grants, Opens(l, listed, now), listed, Occupied(l, MIGRATION, |listed|));
  }

  lemma MigratedDecodes(l: Ledger, grants: Grants, listed: seq<Draft>, now: nat)
    requires LedgerValid(l) && PrefixReplay(grants, AuthorityRows(l.rows)) && Lists(grants, listed)
    ensures AllDecodable(AuthorityRows(Migrated(l, listed, now).rows))
    ensures AllDecodable(Added(l, listed, now))
  {
    hide LedgerValid, Valid, AuthorityRows, PrefixReplay, AllDecodable, Migrated, Lists, Added;
    LedgerDecodes(l);
    ValidLedger(l);
    MigratedAuthorityRows(l, listed, now);
    AllAddedDecode(l, grants, listed, now);
    assert AuthorityRows(l.rows) + [] == AuthorityRows(l.rows);
    DecodesBoth(AuthorityRows(l.rows), Added(l, listed, now));
  }

  lemma NothingDecodes()
    ensures AllDecodable([])
  {}

  lemma NothingMigrated(l: Ledger, now: nat)
    ensures Migrated(l, [], now) == l
  {}

  /** The first row added repeats an id. */
  lemma AddedRepeats(l: Ledger, grants: Grants, listed: seq<Draft>, now: nat) returns (j: nat)
    requires LedgerValid(l) && PrefixReplay(grants, AuthorityRows(l.rows)) && Lists(grants, listed)
    requires MigrationAdds(l, |listed|)
    ensures var rows := AuthorityRows(Migrated(l, listed, now).rows);
            var n := |AuthorityRows(l.rows)|;
            AllDecodable(rows) && j < n < |rows| && GrantId(rows[j]) == GrantId(rows[n])
  {
    MigratedDecodes(l, grants, listed, now);
    ValidLedger(l);
    AddsIff(l, listed, now);
    var cs, m := Opens(l, listed, now), Occupied(l, MIGRATION, |listed|);
    hide LedgerValid, Valid, AuthorityRows, PrefixReplay, Decodable, Migrated, MigrationRow, MigrationAdds, Occupied,
         Opens, ForAuthority;
    MigratedAuthorityRows(l, listed, now);
    j := MigrationRowRepeats(l, grants, cs, listed[m], m);
    assert Added(l, listed, now)[0] == MigrationRow(l, cs, listed[m], m);
  }

  /** The migration keeps grant ids unique exactly when it adds nothing: whatever it lists is in the ledger
      already. */
  lemma MigrationHarmlessIff(l: Ledger, grants: Grants, listed: seq<Draft>, now: nat)
    requires LedgerValid(l) && PrefixReplay(grants, AuthorityRows(l.rows)) && Lists(grants, listed)
    ensures AllDecodable(AuthorityRows(Migrated(l, listed, now).rows))
    ensures DistinctIds(AuthorityRows(Migrated(l, listed, now).rows)) <==> !MigrationAdds(l, |grants|)
  {
    MigratedDecodes(l, grants, listed, now);
    RowsDistinct(l);
    ValidLedger(l);
    hide LedgerValid, Valid, AuthorityRows, PrefixReplay, Decodable, Migrated, MigrationAdds, Added, Occupied, Opens;
    MigratedAuthorityRows(l, listed, now);
    if MigrationAdds(l, |listed|) {
      var j := AddedRepeats(l, grants, listed, now);
    } else {
      if listed != [] { AddsIff(l, listed, now); }
      assert AuthorityRows(l.rows) + [] == AuthorityRows(l.rows);
    }
  }

  // ----- What a harmful migration does, and what it does not -----

  /** A list of authority rows with a repeated id never has as many rows as any table replayed from it. */
  lemma RepeatedIdCounts(rows: seq<Row>, i: nat, j: nat, n: nat)
    requires AllDecodable(rows) && i < j < |rows| && GrantId(rows[i]) == GrantId(rows[j]) && n <= |rows|
    ensures AllDecodable(rows[..n]) && |GrantsOf(rows[..n])| < |rows|
  {
    hide Decodable, StoredRow;
    if n < |rows| {
      TableSize(GrantEntries(rows[..n]));
    } else {
      assert rows[..n] == rows;
      var entries := GrantEntries(rows);
      assert entries[i].0 == GrantId(rows[i]) && entries[j].0 == GrantId(rows[j]);
      TableOfRepeated(entries, i, j);
    }
  }

  /** After a migration that added anything, the staleness check asks for a rebuild for ever: in no later ledger
      does the number of authority rows agree with the size of a table replayed from some of them. */
  lemma CountsNeverAgree(l: Ledger, grants: Grants, listed: seq<Draft>, now: nat, later: Ledger, n: nat)
    requires LedgerValid(l) && PrefixReplay(grants, AuthorityRows(l.rows)) && Lists(grants, listed)
    requires MigrationAdds(l, |grants|)
    requires Extends(Migrated(l, listed, now), later) && AllDecodable(AuthorityRows(later.rows))
    requires n <= |AuthorityRows(later.rows)|
    ensures AllDecodable(AuthorityRows(later.rows)[..n])
    ensures |GrantsOf(AuthorityRows(later.rows)[..n])| != |AuthorityRows(later.rows)|
  {
    hide LedgerValid, Valid, AuthorityRows, PrefixReplay, Decodable, Migrated, GrantsOf, MigrationAdds;
    var j := AddedRepeats(l, grants, listed, now);
    AuthorityRowsGrow(Migrated(l, listed, now).rows, later.rows);
    var before, rows := AuthorityRows(Migrated(l, listed, now).rows), AuthorityRows(later.rows);
    var k := |AuthorityRows(l.rows)|;
    assert rows[j] == before[j] && rows[k] == before[k];
    RepeatedIdCounts(rows, j, k, n);
  }

  /** A row that stores what the table already holds under its id changes nothing. */
  lemma RepeatReplays(rows: seq<Row>, row: Row)
    requires AllDecodable(rows) && Decodable(row)
    requires GrantId(row) in GrantsOf(rows) && GrantsOf(rows)[GrantId(row)] == StoredRow(row)
    ensures AllDecodable(rows + [row]) && GrantsOf(rows + [row]) == GrantsOf(rows)
  {
    hide Decodable, StoredRow, GrantsOf;
    var more := rows + [row];
    assert more[..|rows|] == rows && more[..|rows| + 1] == more;
    assert AllDecodable(more);
    ReplayStep(more, |rows|, map[]);
  }

  lemma {:induction false} RepeatsReplay(rows: seq<Row>, added: seq<Row>)
    requires AllDecodable(rows) && AllDecodable(added)
    requires forall k :: 0 <= k < |added| ==>
               GrantId(added[k]) in GrantsOf(rows) && GrantsOf(rows)[GrantId(added[k])] == StoredRow(added[k])
    ensures AllDecodable(rows + added) && GrantsOf(rows + added) == GrantsOf(rows)
  {
    hide Decodable, StoredRow, GrantsOf;
    if added == [] {
      assert rows + added == rows;
    } else {
      var n := |added| - 1;
      RepeatsReplay(rows, added[..n]);
      RepeatReplays(rows + added[..n], added[n]);
      assert rows + added[..n] + [added[n]] == rows + added;
    }
  }

  lemma MigrationRowKnown(l: Ledger, grants: Grants, cs: ChangeSet, d: Draft, k: nat)
    requires LedgerValid(l) && PrefixReplay(grants, AuthorityRows(l.rows))
    requires d.grant.grantId in grants && grants[d.grant.grantId] == d.grant
    ensures AllDecodable(AuthorityRows(l.rows)) && Decodable(MigrationRow(l, cs, d, k))
    ensures var row, grants' := MigrationRow(l, cs, d, k), GrantsOf(AuthorityRows(l.rows));
            GrantId(row) == d.grant.grantId && GrantId(row) in grants'
            && (grants'[GrantId(row)] == StoredRow(row) <==> Keeps(d, cs))
  {
    hide LedgerValid, AuthorityRows, PrefixReplay, StoredRow, Decodable, MigrationRow, GrantsOf, Keeps;
    var j := MigrationRowRepeats(l, grants, cs, d, k);
    RowsDistinct(l);
    TableOfDistinctRows(AuthorityRows(l.rows));
  }

  /** Every grant the migration adds a row for is stored there as it was. */
  ghost predicate AllKept(l: Ledger, listed: seq<Draft>, now: nat) {
    forall k :: Occupied(l, MIGRATION, |listed|) <= k < |listed| ==> Keeps(listed[k], Opens(l, listed, now))
  }

  lemma AddedRow(l: Ledger, listed: seq<Draft>, now: nat, i: nat)
    requires i < |Added(l, listed, now)|
    ensures var m := Occupied(l, MIGRATION, |listed|);
            m + i < |listed| && |Added(l, listed, now)| == |listed| - m
            && Added(l, listed, now)[i] == MigrationRow(l, Opens(l, listed, now), listed[m + i], m + i)
  {
    hide Occupied, Opens, ForAuthority, MigrationRow;
  }

  lemma AddedKnown(l: Ledger, grants: Grants, listed: seq<Draft>, now: nat, i: nat)
    requires LedgerValid(l) && PrefixReplay(grants, AuthorityRows(l.rows)) && Lists(grants, listed)
    requires i < |Added(l, listed, now)| && AllDecodable(AuthorityRows(l.rows))
    ensures var row, m := Added(l, listed, now)[i], Occupied(l, MIGRATION, |listed|);
            var table := GrantsOf(AuthorityRows(l.rows));
            && m + i < |listed| && Decodable(row) && GrantId(row) == listed[m + i].grant.grantId
               && GrantId(row) in table
            && (table[GrantId(row)] == StoredRow(row) <==> Keeps(listed[m + i], Opens(l, listed, now)))
  {
    hide LedgerValid, AuthorityRows, PrefixReplay, MigrationRow, GrantsOf, StoredRow, Decodable, Opens, Occupied, Keeps,
         Added;
    AddedRow(l, listed, now, i);
    var m := Occupied(l, MIGRATION, |listed|);
    MigrationRowKnown(l, grants, Opens(l, listed, now), listed[m + i], m + i);
  }

  lemma KeptReplay(l: Ledger, grants: Grants, listed: seq<Draft>, now: nat)
    requires LedgerValid(l) && PrefixReplay(grants, AuthorityRows(l.rows)) && Lists(grants, listed)
    requires AllKept(l, listed, now)
    ensures AllDecodable(AuthorityRows(l.rows)) && AllDecodable(AuthorityRows(l.rows) + Added(l, listed, now))
    ensures GrantsOf(AuthorityRows(l.rows) + Added(l, listed, now)) == GrantsOf(AuthorityRows(l.rows))
  {
    LedgerDecodes(l);
    MigratedDecodes(l, grants, listed, now);
    hide LedgerValid, AuthorityRows, PrefixReplay, GrantsOf, StoredRow, Decodable, Opens, Occupied, Keeps, Added, Lists;
    var rows, added := AuthorityRows(l.rows), Added(l, listed, now);
    forall k | 0 <= k < |added|
      ensures GrantId(added[k]) in GrantsOf(rows) && GrantsOf(rows)[GrantId(added[k])] == StoredRow(added[k])
    {
      AddedKnown(l, grants, listed, now, k);
    }
    RepeatsReplay(rows, added);
  }

  /** The last row with an id decides; a row added after a stored one with the same id changes the table unless it
      stores the same. */
  lemma LastRowDecides(rows: seq<Row>, added: seq<Row>, i: nat)
    requires AllDecodable(rows) && AllDecodable(added) && AllDecodable(rows + added) && i < |added|
    requires forall j :: i < j < |added| ==> GrantId(added[j]) != GrantId(added[i])
    requires GrantId(added[i]) in GrantsOf(rows) && GrantsOf(rows)[GrantId(added[i])] != StoredRow(added[i])
    ensures GrantsOf(rows + added) != GrantsOf(rows)
  {
    hide Decodable, StoredRow, GrantsOf;
    var whole, at := rows + added, |rows| + i;
    assert whole[at] == added[i];
    forall j | at < j < |whole|
      ensures GrantId(whole[j]) != GrantId(whole[at])
    {
      assert whole[j] == added[j - |rows|];
    }
    RebuiltTableIsLastWriter(whole);
  }

  lemma AddedCount(l: Ledger, listed: seq<Draft>, now: nat)
    requires Valid(l) && MigrationAdds(l, |listed|)
    ensures |Added(l, listed, now)| == |listed| - Occupied(l, MIGRATION, |listed|)
  {
    AddsSomething(l, |listed|);
    AddsIff(l, listed, now);
    hide Valid, Opens, Occupied, MigrationAdds, ForAuthority, Added;
  }

  lemma AddedIdsDiffer(l: Ledger, grants: Grants, listed: seq<Draft>, now: nat, i: nat, j: nat)
    requires LedgerValid(l) && PrefixReplay(grants, AuthorityRows(l.rows)) && Lists(grants, listed)
    requires i < j < |Added(l, listed, now)| && AllDecodable(Added(l, listed, now))
    ensures GrantId(Added(l, listed, now)[j]) != GrantId(Added(l, listed, now)[i])
  {
    LedgerDecodes(l);
    hide LedgerValid, AuthorityRows, PrefixReplay, GrantsOf, StoredRow, Decodable, Opens, Occupied, Keeps, Added;
    AddedKnown(l, grants, listed, now, i);
    AddedKnown(l, grants, listed, now, j);
  }

  lemma AddedIsLast(l: Ledger, grants: Grants, listed: seq<Draft>, now: nat, i: nat)
    requires LedgerValid(l) && PrefixReplay(grants, AuthorityRows(l.rows)) && Lists(grants, listed)
    requires i < |Added(l, listed, now)| && AllDecodable(Added(l, listed, now))
    ensures forall j :: i < j < |Added(l, listed, now)| ==>
              GrantId(Added(l, listed, now)[j]) != GrantId(Added(l, listed, now)[i])
  {
    hide LedgerValid, AuthorityRows, PrefixReplay, Added, Lists, Decodable;
    forall j | i < j < |Added(l, listed, now)|
      ensures GrantId(Added(l, listed, now)[j]) != GrantId(Added(l, listed, now)[i])
    {
      AddedIdsDiffer(l, grants, listed, now, i, j);
    }
  }

  lemma RowsDecode(l: Ledger)
    requires LedgerValid(l)
    ensures AllDecodable(AuthorityRows(l.rows))
  {
    LedgerDecodes(l);
    hide LedgerValid;
  }

  lemma ChangedReplay(l: Ledger, grants: Grants, listed: seq<Draft>, now: nat, k: nat)
    requires LedgerValid(l) && PrefixReplay(grants, AuthorityRows(l.rows)) && Lists(grants, listed)
    requires MigrationAdds(l, |listed|) && Occupied(l, MIGRATION, |listed|) <= k < |listed|
    requires !Keeps(listed[k], Opens(l, listed, now))
    ensures AllDecodable(AuthorityRows(l.rows)) && AllDecodable(AuthorityRows(l.rows) + Added(l, listed, now))
    ensures GrantsOf(AuthorityRows(l.rows) + Added(l, listed, now)) != GrantsOf(AuthorityRows(l.rows))
  {
    hide LedgerValid, Valid, AuthorityRows, PrefixReplay, GrantsOf, StoredRow, Decodable, Opens, Occupied, Keeps,
         MigrationAdds, Added, Lists, AllDecodable, GrantId, Migrated;
    RowsDecode(l);
    ValidLedger(l);
    MigratedDecodes(l, grants, listed, now);
    AddedCount(l, listed, now);
    DecodesBoth(AuthorityRows(l.rows), Added(l, listed, now));
    var i := k - Occupied(l, MIGRATION, |listed|);
    AddedKnown(l, grants, listed, now, i);
    AddedIsLast(l, grants, listed, now, i);
    LastRowDecides(AuthorityRows(l.rows), Added(l, listed, now), i);
  }

  /** What a rebuild shows is the same with the migrated rows as without exactly when every grant it adds has a
      creation time, or its change set was accepted at time zero. */
  lemma MigrationKeepsGrantsIff(l: Ledger, grants: Grants, listed: seq<Draft>, now: nat)
    requires LedgerValid(l) && PrefixReplay(grants, AuthorityRows(l.rows)) && Lists(grants, listed)
    ensures AllDecodable(AuthorityRows(l.rows)) && AllDecodable(AuthorityRows(Migrated(l, listed, now).rows))
    ensures GrantsOf(AuthorityRows(Migrated(l, listed, now).rows)) == GrantsOf(AuthorityRows(l.rows))
        <==> !MigrationAdds(l, |grants|) || AllKept(l, listed, now)
  {
    LedgerDecodes(l);
    ValidLedger(l);
    MigratedDecodes(l, grants, listed, now);
    MigratedAuthorityRows(l, listed, now);
    hide LedgerValid, Valid, AuthorityRows, PrefixReplay, AllDecodable, Migrated, GrantsOf, Added, Opens, Occupied,
         Keeps, MigrationAdds;
    assert AuthorityRows(l.rows) + [] == AuthorityRows(l.rows);
    if MigrationAdds(l, |listed|) {
      assert listed != [] by { AddsSomething(l, |listed|); }
      if AllKept(l, listed, now) {
        KeptReplay(l, grants, listed, now);
      } else {
        var k :| Occupied(l, MIGRATION, |listed|) <= k < |listed| && !Keeps(listed[k], Opens(l, listed, now));
        ChangedReplay(l, grants, listed, now, k);
      }
    } else if listed != [] {
      AddsIff(l, listed, now);
    }
  }

  lemma AddsSomething(l: Ledger, n: nat)
    requires MigrationAdds(l, n)
    ensures n > 0
  {}

  // ----- Such a migration is reachable -----

  lemma RowOfChangeSet(l: Ledger, id: string) returns (i: nat)
    requires Valid(l) && id in l.changeSets
    ensures i < |l.rows| && l.rows[i].changeSetId == id
  {
    assert HasRow(l, id, 0);
    i := l.index[RowKey(id, 0)];
    assert KeyOf(l.rows[i]) == RowKey(id, 0);
  }

  lemma OneChangeSet(l: Ledger, row: Row, id: string)
    requires Valid(l) && l.rows == [row] && row.changeSetId != id
    ensures id !in l.changeSets
  {
    hide Valid;
    if id in l.changeSets { var i := RowOfChangeSet(l, id); }
  }

  /** Every table keyed by grant id can be listed. */
  lemma {:induction false} Listing(grants: Grants) returns (listed: seq<Draft>)
    requires forall id :: id in grants ==> grants[id].grantId == id
    ensures Lists(grants, listed)
    decreases |grants|
  {
    if grants == map[] {
      listed := [];
    } else {
      var id :| id in grants;
      var fewer := grants - {id};
      assert fewer.Keys == grants.Keys - {id};
      var rest := Listing(fewer);
      listed := [Draft(grants[id], BundleSnapshot("", "", [], "", ""))] + rest;
      assert forall i :: 0 < i < |listed| ==> listed[i] == rest[i - 1];
    }
  }

  /** Such a race is reachable: a worker counts no authority rows in the empty system, another one creates a
      grant and rebuilds, and what the first then lists and appends repeats that grant's id. */
  lemma MigrationRaceHappens(now: nat) returns (listed: seq<Draft>)
    ensures AuthorityRows(INIT.ledger.rows) == [] && AllAllowed(CreateEvents() + RebuildEvents(1))
    ensures var s := AuthorityRuns.Run(INIT, CreateEvents() + RebuildEvents(1));
            && Inv(s) && Lists(s.grants, listed) && AllDecodable(AuthorityRows(Migrated(s.ledger, listed, now).rows))
            && !DistinctIds(AuthorityRows(Migrated(s.ledger, listed, now).rows))
  {
    assert AuthorityRows(INIT.ledger.rows) == [];
    hide Decide, Step, Blank, AuthorityRuns.Run, IsAuthorityRow, Decodable, LedgerValid, Migrated, PrefixReplay,
         AuthorityRows, DistinctIds, Lists;
    var events := CreateEvents() + RebuildEvents(1);
    EveryRun(events);
    var row := FirstCreate();
    RunConcat(INIT, CreateEvents(), RebuildEvents(1));
    var s := AuthorityRuns.Run(INIT, CreateEvents());
    RebuildOfOne(s, 1, row);
    ValidLedger(s.ledger);
    OneChangeSet(s.ledger, row, MIGRATION);
    var grants := AuthorityRuns.Run(INIT, events).grants;
    TableKeyed(s.ledger, grants);
    listed := Listing(grants);
    MigrationHarmlessIff(s.ledger, grants, listed, now);
  }
}
