/** The append-only registry of runtime_registry.go: change sets and their rows. */
module Registry {
  import opened Wrappers
  import opened Text
  import opened AuthorityTypes

  datatype ChangeSet = ChangeSet(
    id: string, reference: string, seedId: string, realizationId: string,
    idempotencyKey: string, acceptedBy: string, metadata: string, acceptedAt: nat)

  datatype Row = Row(
    rowId: nat, changeSetId: string, reference: string, seedId: string, realizationId: string,
    rowOrder: nat, rowType: string, objectId: string, claimId: string, payload: Payload, acceptedAt: nat)

  datatype RowInput = RowInput(rowType: string, objectId: string, claimId: string, payload: Payload)

  datatype AppendInput = AppendInput(
    changeSetId: string, reference: string, seedId: string, realizationId: string,
    idempotencyKey: string, acceptedBy: string, metadata: string, rows: seq<RowInput>)

  datatype Appended = Appended(changeSet: ChangeSet, rows: seq<Row>)

  /** What the conflict target of runtime_registry_rows compares. */
  datatype RowKey = RowKey(changeSetId: string, rowOrder: nat)

  /** The two tables.  index is the unique index on (change_set_id, row_order) and gives a row's position;
      nextRowId is the row_id sequence, which an insert consumes even when it hits a conflict. */
  datatype Ledger = Ledger(changeSets: map<string, ChangeSet>, rows: seq<Row>, index: map<RowKey, nat>, nextRowId: nat)

  const EMPTY_LEDGER := Ledger(map[], [], map[], 1)

  function KeyOf(row: Row): RowKey {
    RowKey(row.changeSetId, row.rowOrder)
  }

  /** The unique index describes the rows, so no two rows share a key. */
  ghost predicate IndexExact(l: Ledger) {
    && (forall key :: key in l.index ==> l.index[key] < |l.rows| && KeyOf(l.rows[l.index[key]]) == key)
    && (forall i :: 0 <= i < |l.rows| ==> KeyOf(l.rows[i]) in l.index && l.index[KeyOf(l.rows[i])] == i)
  }

  /** Insert one row of a change set; a row already at that order is kept and returned. */
  function InsertRow(l: Ledger, cs: ChangeSet, order: nat, item: RowInput): (Ledger, Row)
    requires IndexExact(l)
  {
    var key := RowKey(cs.id, order);
    if key in l.index then (l.(nextRowId := l.nextRowId + 1), l.rows[l.index[key]])
    else
      var row := Row(l.nextRowId, cs.id, cs.reference, cs.seedId, cs.realizationId, order,
                     TrimSpace(item.rowType), TrimSpace(item.objectId), TrimSpace(item.claimId),
                     item.payload, cs.acceptedAt);
      (Ledger(l.changeSets, l.rows + [row], l.index[key := |l.rows|], l.nextRowId + 1), row)
  }

  lemma InsertRowIndex(l: Ledger, cs: ChangeSet, order: nat, item: RowInput)
    requires IndexExact(l)
    ensures IndexExact(InsertRow(l, cs, order, item).0)
  {}

  /** Insert items[from..] at their own orders. */
  function InsertRows(l: Ledger, cs: ChangeSet, items: seq<RowInput>, from: nat): (r: (Ledger, seq<Row>))
    requires IndexExact(l) && from <= |items|
    ensures IndexExact(r.0)
    decreases |items| - from
  {
    if from == |items| then (l, [])
    else
      var first := InsertRow(l, cs, from, items[from]);
      InsertRowIndex(l, cs, from, items[from]);
      var rest := InsertRows(first.0, cs, items, from + 1);
      (rest.0, [first.1] + rest.1)
  }

  function FirstBlankRowType(items: seq<RowInput>): bool {
    items != [] && (Blank(items[0].rowType) || FirstBlankRowType(items[1..]))
  }

  function InputError(input: AppendInput): Option<string> {
    if Blank(input.reference) || Blank(input.seedId) || Blank(input.realizationId) then
      Some("reference, seed_id, and realization_id are required")
    else if input.rows == [] then Some("at least one row is required")
    else if FirstBlankRowType(input.rows) then Some("row_type is required")
    else None
  }

  /** The change set as it would be inserted; freshId is the random id drawn when none is given. */
  function RequestedChangeSet(input: AppendInput, freshId: string, now: nat): ChangeSet {
    ChangeSet(
      if input.changeSetId == "" then freshId else input.changeSetId,
      TrimSpace(input.reference), TrimSpace(input.seedId), TrimSpace(input.realizationId),
      TrimSpace(input.idempotencyKey),
      if TrimSpace(input.acceptedBy) == "" then "system" else TrimSpace(input.acceptedBy),
      input.metadata, now)
  }

  /** The state in which an accepted append inserts its rows. */
  function Opened(l: Ledger, cs: ChangeSet): Ledger {
    l.(changeSets := l.changeSets[cs.id := cs])
  }

  /** The change set an append writes to: the stored one when the id is taken. */
  function Target(l: Ledger, wanted: ChangeSet): ChangeSet {
    if wanted.id in l.changeSets then l.changeSets[wanted.id] else wanted
  }

  /** The transaction of AppendRegistryChangeSet. */
  function AppendTx(l: Ledger, wanted: ChangeSet, rows: seq<RowInput>): (r: (Ledger, Appended))
    requires IndexExact(l)
    ensures IndexExact(r.0)
  {
    var cs := Target(l, wanted);
    var inserted := InsertRows(Opened(l, cs), cs, rows, 0);
    (inserted.0, Appended(cs, inserted.1))
  }

  /** AppendRegistryChangeSet. */
  function Append(l: Ledger, input: AppendInput, freshId: string, now: nat): (r: (Ledger, Result<Appended>))
    requires IndexExact(l)
    ensures IndexExact(r.0)
  {
    match InputError(input)
    case Some(e) => (l, Err(e))
    case None =>
      var done := AppendTx(l, RequestedChangeSet(input, freshId, now), input.rows);
      (done.0, Ok(done.1))
  }

  // ----- What every ledger keeps -----

  ghost predicate HasRow(l: Ledger, id: string, order: nat) {
    RowKey(id, order) in l.index
  }

  ghost predicate RowIdsIncrease(l: Ledger) {
    && 1 <= l.nextRowId
    && (forall i :: 0 <= i < |l.rows| ==> 1 <= l.rows[i].rowId < l.nextRowId)
    && (forall i, j :: 0 <= i < j < |l.rows| ==> l.rows[i].rowId < l.rows[j].rowId)
  }

  ghost predicate Agrees(row: Row, cs: ChangeSet) {
    && row.changeSetId == cs.id && row.reference == cs.reference && row.seedId == cs.seedId
    && row.realizationId == cs.realizationId && row.acceptedAt == cs.acceptedAt
  }

  ghost predicate RowsAgree(l: Ledger) {
    forall i :: 0 <= i < |l.rows| ==>
      l.rows[i].changeSetId in l.changeSets && Agrees(l.rows[i], l.changeSets[l.rows[i].changeSetId])
  }

  ghost predicate OrdersContiguous(l: Ledger) {
    forall id, j: nat, k: nat :: HasRow(l, id, k) && j < k ==> HasRow(l, id, j)
  }

  ghost predicate ChangeSetsPopulated(l: Ledger) {
    forall id :: id in l.changeSets ==> l.changeSets[id].id == id && HasRow(l, id, 0)
  }

  ghost predicate RowsValid(l: Ledger) {
    IndexExact(l) && RowIdsIncrease(l) && RowsAgree(l) && OrdersContiguous(l)
  }

  /** Each row agrees with its change set, orders run without gap or repeat from 0, row ids increase. */
  ghost predicate Valid(l: Ledger) {
    RowsValid(l) && ChangeSetsPopulated(l)
  }

  /** l' holds everything l holds, unchanged and in the same place. */
  ghost predicate Extends(l: Ledger, l': Ledger) {
    && l.rows <= l'.rows
    && l.nextRowId <= l'.nextRowId
    && (forall id :: id in l.changeSets ==> id in l'.changeSets && l'.changeSets[id] == l.changeSets[id])
    && (forall key :: key in l.index ==> key in l'.index && l'.index[key] == l.index[key])
    && (forall i :: |l.rows| <= i < |l'.rows| ==> l.nextRowId <= l'.rows[i].rowId)
  }

  lemma ExtendsTransitive(a: Ledger, b: Ledger, c: Ledger)
    requires Extends(a, b) && Extends(b, c)
    ensures Extends(a, c)
  {
    forall i | |a.rows| <= i < |c.rows| ensures a.nextRowId <= c.rows[i].rowId {
      if i < |b.rows| { assert c.rows[i] == b.rows[i]; }
    }
  }

  ghost predicate HasRowsBelow(l: Ledger, id: string, from: nat) {
    forall k: nat :: k < from ==> HasRow(l, id, k)
  }

  lemma InsertRowContiguous(l: Ledger, cs: ChangeSet, order: nat, item: RowInput)
    requires IndexExact(l) && OrdersContiguous(l)
    requires HasRowsBelow(l, cs.id, order)
    ensures OrdersContiguous(InsertRow(l, cs, order, item).0)
  {
    var l' := InsertRow(l, cs, order, item).0;
    forall id, j: nat, k: nat | HasRow(l', id, k) && j < k ensures HasRow(l', id, j) {
      if HasRow(l, id, k) { assert HasRow(l, id, j); } else { assert HasRow(l, cs.id, j); }
    }
  }

  /** One insert keeps the rows valid, touches nothing stored, and leaves a row at its order. */
  lemma InsertRowKeeps(l: Ledger, cs: ChangeSet, order: nat, item: RowInput)
    requires RowsValid(l) && cs.id in l.changeSets && l.changeSets[cs.id] == cs
    requires HasRowsBelow(l, cs.id, order)
    ensures var r := InsertRow(l, cs, order, item);
            && RowsValid(r.0) && Extends(l, r.0) && r.0.changeSets == l.changeSets
            && HasRow(r.0, cs.id, order) && r.0.rows[r.0.index[RowKey(cs.id, order)]] == r.1
  {
    InsertRowIndex(l, cs, order, item);
    InsertRowContiguous(l, cs, order, item);
    InsertRowAgrees(l, cs, order, item);
    InsertRowIncreases(l, cs, order, item);
    InsertRowExtends(l, cs, order, item);
    hide OrdersContiguous, RowsAgree, TrimSpace, IndexExact, RowIdsIncrease, Extends, InsertRow;
  }

  lemma InsertRowAgrees(l: Ledger, cs: ChangeSet, order: nat, item: RowInput)
    requires IndexExact(l) && RowsAgree(l) && cs.id in l.changeSets && l.changeSets[cs.id] == cs
    ensures RowsAgree(InsertRow(l, cs, order, item).0)
  {
    hide TrimSpace;
  }

  lemma InsertRowIncreases(l: Ledger, cs: ChangeSet, order: nat, item: RowInput)
    requires IndexExact(l) && RowIdsIncrease(l)
    ensures RowIdsIncrease(InsertRow(l, cs, order, item).0)
  {
    hide TrimSpace, KeyOf;
  }

  lemma InsertRowExtends(l: Ledger, cs: ChangeSet, order: nat, item: RowInput)
    requires IndexExact(l)
    ensures var r := InsertRow(l, cs, order, item);
            && Extends(l, r.0) && r.0.changeSets == l.changeSets
            && HasRow(r.0, cs.id, order) && r.0.index[RowKey(cs.id, order)] < |r.0.rows|
            && r.0.rows[r.0.index[RowKey(cs.id, order)]] == r.1
  {
    hide TrimSpace;
  }

  /** What is stored at the orders of a change set, from `from` on. */
  ghost predicate StoredFrom(l: Ledger, id: string, from: nat, rows: seq<Row>) {
    IndexExact(l) && forall k: nat :: from <= k < from + |rows| ==>
      HasRow(l, id, k) && l.rows[l.index[RowKey(id, k)]] == rows[k - from]
  }

  lemma StoredFromStable(l: Ledger, l': Ledger, id: string, from: nat, rows: seq<Row>)
    requires StoredFrom(l, id, from, rows) && Extends(l, l') && IndexExact(l')
    ensures StoredFrom(l', id, from, rows)
  {
    forall k: nat | from <= k < from + |rows|
      ensures HasRow(l', id, k) && l'.rows[l'.index[RowKey(id, k)]] == rows[k - from]
    {
      assert HasRow(l, id, k);
    }
  }

  lemma StoredFromCons(l: Ledger, id: string, from: nat, row: Row, rest: seq<Row>)
    requires IndexExact(l) && HasRow(l, id, from) && l.rows[l.index[RowKey(id, from)]] == row
    requires StoredFrom(l, id, from + 1, rest)
    ensures StoredFrom(l, id, from, [row] + rest)
  {
    var rows := [row] + rest;
    forall k: nat | from <= k < from + |rows|
      ensures HasRow(l, id, k) && l.rows[l.index[RowKey(id, k)]] == rows[k - from]
    {
      if k > from { assert rows[k - from] == rest[k - (from + 1)]; }
    }
  }

  lemma HasRowsGrow(l: Ledger, l': Ledger, id: string, from: nat)
    requires HasRowsBelow(l, id, from) && Extends(l, l') && HasRow(l', id, from)
    ensures HasRowsBelow(l', id, from + 1)
  {
    forall k: nat | k < from + 1
      ensures HasRow(l', id, k)
    {
      if k < from { assert HasRow(l, id, k); }
    }
  }

  lemma RowStays(l: Ledger, l': Ledger, key: RowKey)
    requires IndexExact(l) && IndexExact(l') && Extends(l, l') && key in l.index
    ensures key in l'.index && l'.rows[l'.index[key]] == l.rows[l.index[key]]
  {
    var i := l.index[key];
    assert l'.rows[..|l.rows|][i] == l'.rows[i];
  }

  /** Inserting the rows of a change set keeps everything valid and returns what is now stored. */
  lemma {:induction false} InsertRowsKeep(l: Ledger, cs: ChangeSet, items: seq<RowInput>, from: nat)
    requires from <= |items|
    requires RowsValid(l) && cs.id in l.changeSets && l.changeSets[cs.id] == cs && HasRowsBelow(l, cs.id, from)
    ensures var r := InsertRows(l, cs, items, from);
            && RowsValid(r.0) && Extends(l, r.0) && r.0.changeSets == l.changeSets
            && |r.1| == |items| - from && StoredFrom(r.0, cs.id, from, r.1)
    decreases |items| - from
  {
    if from < |items| {
      hide InsertRow, Extends, StoredFrom, IndexExact, RowIdsIncrease, RowsAgree, OrdersContiguous, HasRowsBelow;
      var first := InsertRow(l, cs, from, items[from]);
      InsertRowKeeps(l, cs, from, items[from]);
      HasRowsGrow(l, first.0, cs.id, from);
      InsertRowsKeep(first.0, cs, items, from + 1);
      var rest := InsertRows(first.0, cs, items, from + 1);
      ExtendsTransitive(l, first.0, rest.0);
      RowStays(first.0, rest.0, RowKey(cs.id, from));
      StoredFromCons(rest.0, cs.id, from, first.1, rest.1);
    } else {
      hide IndexExact, RowIdsIncrease, RowsAgree, OrdersContiguous;
    }
  }

  /** Where every row is already stored, inserting again adds nothing and returns the stored rows. */
  lemma {:induction false} InsertRowsAgain(l: Ledger, cs: ChangeSet, items: seq<RowInput>, from: nat, stored: seq<Row>)
    requires from <= |items| && |stored| == |items| - from && StoredFrom(l, cs.id, from, stored)
    ensures InsertRows(l, cs, items, from) == (l.(nextRowId := l.nextRowId + |items| - from), stored)
    decreases |items| - from
  {
    if from < |items| {
      assert HasRow(l, cs.id, from);
      var l1 := l.(nextRowId := l.nextRowId + 1);
      assert StoredFrom(l1, cs.id, from + 1, stored[1..]) by {
        forall k: nat | from + 1 <= k < from + |stored|
          ensures HasRow(l1, cs.id, k) && l1.rows[l1.index[RowKey(cs.id, k)]] == stored[1..][k - (from + 1)]
        {
          assert HasRow(l, cs.id, k);
        }
      }
      InsertRowsAgain(l1, cs, items, from + 1, stored[1..]);
      assert stored == [stored[0]] + stored[1..];
    }
  }

  lemma OpenedValid(l: Ledger, wanted: ChangeSet)
    requires Valid(l)
    ensures var cs := Target(l, wanted);
            RowsValid(Opened(l, cs)) && Extends(l, Opened(l, cs)) && Opened(l, cs).changeSets[cs.id] == cs
  {
    var o := Opened(l, Target(l, wanted));
    OpenedContiguous(l, Target(l, wanted));
    hide OrdersContiguous;
  }

  lemma OpenedContiguous(l: Ledger, cs: ChangeSet)
    requires OrdersContiguous(l)
    ensures OrdersContiguous(Opened(l, cs))
  {
    var o := Opened(l, cs);
    forall id, j: nat, k: nat | HasRow(o, id, k) && j < k ensures HasRow(o, id, j) {
      assert HasRow(l, id, k) && HasRow(l, id, j);
    }
  }

  lemma AppendTxKeepsValid(l: Ledger, wanted: ChangeSet, rows: seq<RowInput>)
    requires Valid(l) && rows != []
    ensures var r := AppendTx(l, wanted, rows);
            && Valid(r.0) && Extends(l, r.0)
            && |r.1.rows| == |rows| && StoredFrom(r.0, r.1.changeSet.id, 0, r.1.rows)
            && r.1.changeSet.id == wanted.id && r.0.changeSets == l.changeSets[wanted.id := r.1.changeSet]
  {
    var cs := Target(l, wanted);
    OpenedValid(l, wanted);
    InsertRowsKeep(Opened(l, cs), cs, rows, 0);
    var l1 := AppendTx(l, wanted, rows).0;
    ExtendsTransitive(l, Opened(l, cs), l1);
    forall id | id in l1.changeSets ensures l1.changeSets[id].id == id && HasRow(l1, id, 0) {
      if id in l.changeSets { assert HasRow(l, id, 0); } else { assert HasRow(l1, cs.id, 0); }
    }
  }

  lemma AppendTxStored(l: Ledger, cs: ChangeSet, wanted: ChangeSet, rows: seq<RowInput>, stored: seq<Row>)
    requires StoredFrom(l, cs.id, 0, stored) && |stored| == |rows|
    requires wanted.id == cs.id && cs.id in l.changeSets && l.changeSets[cs.id] == cs
    ensures AppendTx(l, wanted, rows) == (l.(nextRowId := l.nextRowId + |rows|), Appended(cs, stored))
  {
    InsertRowsAgain(l, cs, rows, 0, stored);
    assert Opened(l, cs) == l by { assert l.changeSets[cs.id := cs] == l.changeSets; }
  }

  lemma AppendTxAgain(l: Ledger, wanted: ChangeSet, rows: seq<RowInput>, later: Ledger, wanted2: ChangeSet)
    requires Valid(l) && rows != [] && wanted2.id == wanted.id
    requires Extends(AppendTx(l, wanted, rows).0, later) && IndexExact(later)
    ensures AppendTx(later, wanted2, rows)
         == (later.(nextRowId := later.nextRowId + |rows|), AppendTx(l, wanted, rows).1)
  {
    var first := AppendTx(l, wanted, rows);
    var cs := first.1.changeSet;
    assert |first.1.rows| == |rows| && cs.id == wanted.id && cs.id in first.0.changeSets
           && first.0.changeSets[cs.id] == cs
        && StoredFrom(first.0, cs.id, 0, first.1.rows) by {
      AppendTxKeepsValid(l, wanted, rows);
    }
    assert StoredFrom(later, cs.id, 0, first.1.rows) by {
      StoredFromStable(first.0, later, cs.id, 0, first.1.rows);
    }
    AppendTxStored(later, cs, wanted2, rows, first.1.rows);
  }

  /** Appends keep the ledger valid and never touch what is stored. */
  lemma AppendKeepsValid(l: Ledger, input: AppendInput, freshId: string, now: nat)
    requires Valid(l)
    ensures Valid(Append(l, input, freshId, now).0)
    ensures Extends(l, Append(l, input, freshId, now).0)
  {
    if InputError(input).None? {
      AppendTxKeepsValid(l, RequestedChangeSet(input, freshId, now), input.rows);
    }
  }

  /** Repeating an append that names its change set, however much later and whatever was appended in
      between, stores nothing and returns what the first append returned. */
  lemma AppendIdempotent(
      l: Ledger, input: AppendInput, fresh1: string, now1: nat, later: Ledger, fresh2: string, now2: nat)
    requires Valid(l) && input.changeSetId != ""
    requires Extends(Append(l, input, fresh1, now1).0, later) && IndexExact(later)
    ensures var again := Append(later, input, fresh2, now2);
            again.1 == Append(l, input, fresh1, now1).1 && again.0 == later.(nextRowId := again.0.nextRowId)
  {
    if InputError(input).None? {
      AppendTxAgain(l, RequestedChangeSet(input, fresh1, now1), input.rows,
                    later, RequestedChangeSet(input, fresh2, now2));
    }
  }

  // ----- Whole histories -----

  datatype Request = Request(input: AppendInput, freshId: string, now: nat)

  function Run(l: Ledger, requests: seq<Request>): (r: Ledger)
    requires IndexExact(l)
    ensures IndexExact(r)
    decreases |requests|
  {
    if requests == [] then l
    else Run(Append(l, requests[0].input, requests[0].freshId, requests[0].now).0, requests[1..])
  }

  /** Over every history of appends: the ledger stays valid and only grows. */
  lemma {:induction false} RunAppendOnly(l: Ledger, requests: seq<Request>)
    requires Valid(l)
    ensures Valid(Run(l, requests)) && Extends(l, Run(l, requests))
    decreases |requests|
  {
    if requests != [] {
      var r := requests[0];
      var l1 := Append(l, r.input, r.freshId, r.now).0;
      AppendKeepsValid(l, r.input, r.freshId, r.now);
      RunAppendOnly(l1, requests[1..]);
      ExtendsTransitive(l, l1, Run(l1, requests[1..]));
    }
  }

  /** A retried append is answered as the first time, after any history. */
  lemma RetryAfterAnyHistory(l: Ledger, first: Request, between: seq<Request>, retry: Request)
    requires Valid(l) && first.input == retry.input && first.input.changeSetId != ""
    ensures var l1 := Append(l, first.input, first.freshId, first.now).0;
            var l2 := Run(l1, between);
            var again := Append(l2, retry.input, retry.freshId, retry.now);
            && again.1 == Append(l, first.input, first.freshId, first.now).1
            && again.0 == l2.(nextRowId := again.0.nextRowId)
  {
    AppendKeepsValid(l, first.input, first.freshId, first.now);
    var l1 := Append(l, first.input, first.freshId, first.now).0;
    RunAppendOnly(l1, between);
    AppendIdempotent(l, first.input, first.freshId, first.now, Run(l1, between), retry.freshId, retry.now);
  }

  /** Going on from order `from` in state l completes `whole`, given the rows appended so far. */
  ghost predicate ResumesAt(l: Ledger, cs: ChangeSet, items: seq<RowInput>, from: nat, appended: seq<Row>,
                            whole: (Ledger, seq<Row>))
    requires IndexExact(l) && from <= |items|
  {
    var rest := InsertRows(l, cs, items, from);
    whole.0 == rest.0 && whole.1 == appended + rest.1
  }

  lemma ResumesNext(l: Ledger, cs: ChangeSet, items: seq<RowInput>, from: nat, appended: seq<Row>,
                    whole: (Ledger, seq<Row>))
    requires IndexExact(l) && from < |items| && ResumesAt(l, cs, items, from, appended, whole)
    ensures var first := InsertRow(l, cs, from, items[from]);
            IndexExact(first.0) && ResumesAt(first.0, cs, items, from + 1, appended + [first.1], whole)
  {
    InsertRowIndex(l, cs, from, items[from]);
    hide InsertRow, IndexExact;
    var first := InsertRow(l, cs, from, items[from]);
    var rest := InsertRows(first.0, cs, items, from + 1);
    assert (appended + [first.1]) + rest.1 == appended + ([first.1] + rest.1);
  }

  lemma ResumesEnd(l: Ledger, cs: ChangeSet, items: seq<RowInput>, appended: seq<Row>, whole: (Ledger, seq<Row>))
    requires IndexExact(l)
    ensures ResumesAt(l, cs, items, |items|, appended, whole) <==> whole == (l, appended)
  {
    hide IndexExact;
    assert appended + [] == appended;
  }

  // ----- What an append stores -----

  lemma {:induction false} FirstBlankIff(items: seq<RowInput>)
    ensures FirstBlankRowType(items) <==> exists i :: 0 <= i < |items| && TrimSpace(items[i].rowType) == ""
    decreases |items|
  {
    hide TrimSpace;
    if items != [] {
      FirstBlankIff(items[1..]);
      if i :| 0 <= i < |items| && TrimSpace(items[i].rowType) == "" {
        assert i > 0 ==> items[1..][i - 1] == items[i];
      }
    }
  }

  /** The row stored at its order: the one that was there, or the item's own. */
  ghost predicate StoresItem(l: Ledger, cs: ChangeSet, order: nat, item: RowInput, row: Row)
    requires IndexExact(l)
  {
    if RowKey(cs.id, order) in l.index then row == l.rows[l.index[RowKey(cs.id, order)]]
    else
      && row.changeSetId == cs.id && row.rowOrder == order
      && row.reference == cs.reference && row.seedId == cs.seedId && row.realizationId == cs.realizationId
      && row.rowType == TrimSpace(item.rowType) && row.objectId == TrimSpace(item.objectId)
      && row.claimId == TrimSpace(item.claimId) && row.payload == item.payload && row.acceptedAt == cs.acceptedAt
  }

  lemma {:induction false} InsertedRows(l: Ledger, cs: ChangeSet, items: seq<RowInput>, from: nat)
    requires IndexExact(l) && from <= |items|
    ensures var rows := InsertRows(l, cs, items, from).1;
            && |rows| == |items| - from
            && forall k :: from <= k < |items| ==> StoresItem(l, cs, k, items[k], rows[k - from])
    decreases |items| - from
  {
    hide InsertRow, StoresItem, IndexExact;
    if from < |items| {
      InsertRowIndex(l, cs, from, items[from]);
      FirstStored(l, cs, from, items[from]);
      var first := InsertRow(l, cs, from, items[from]);
      InsertedRows(first.0, cs, items, from + 1);
      var rest := InsertRows(first.0, cs, items, from + 1).1;
      forall k | from + 1 <= k < |items|
        ensures StoresItem(l, cs, k, items[k], rest[k - from - 1])
      {
        LaterOrder(l, cs, from, items[from], k, items[k], rest[k - from - 1]);
      }
    }
  }

  lemma FirstStored(l: Ledger, cs: ChangeSet, order: nat, item: RowInput)
    requires IndexExact(l)
    ensures StoresItem(l, cs, order, item, InsertRow(l, cs, order, item).1)
  {
    hide TrimSpace;
  }

  lemma LaterOrder(l: Ledger, cs: ChangeSet, order: nat, item: RowInput, k: nat, later: RowInput, row: Row)
    requires IndexExact(l) && IndexExact(InsertRow(l, cs, order, item).0) && order < k
    requires StoresItem(InsertRow(l, cs, order, item).0, cs, k, later, row)
    ensures StoresItem(l, cs, k, later, row)
  {
    hide TrimSpace;
  }

  /** An append is refused for want of an identity, of rows or of a row type.  Otherwise it answers with its change
      set, which is as requested unless the id is taken, and with one row per item, each stored as given unless its
      order is taken. */
  lemma AppendStoresRequest(l: Ledger, input: AppendInput, freshId: string, now: nat)
    requires Valid(l)
    ensures var r := Append(l, input, freshId, now);
            var id := if input.changeSetId == "" then freshId else input.changeSetId;
            && (r.1.Err? <==> TrimSpace(input.reference) == "" || TrimSpace(input.seedId) == ""
                              || TrimSpace(input.realizationId) == "" || input.rows == []
                              || exists i :: 0 <= i < |input.rows| && TrimSpace(input.rows[i].rowType) == "")
            && (r.1.Err? ==> r.0 == l)
            && (r.1.Ok? ==>
                  var cs, rows := r.1.value.changeSet, r.1.value.rows;
                  && r.0.changeSets == l.changeSets[id := cs] && |rows| == |input.rows|
                  && (forall k :: 0 <= k < |rows| ==> StoresItem(l, cs, k, input.rows[k], rows[k]))
                  && (if id in l.changeSets then cs == l.changeSets[id]
                      else
                        && cs.id == id && cs.reference == TrimSpace(input.reference)
                        && cs.seedId == TrimSpace(input.seedId) && cs.realizationId == TrimSpace(input.realizationId)
                        && cs.idempotencyKey == TrimSpace(input.idempotencyKey) && cs.metadata == input.metadata
                        && cs.acceptedBy == (if TrimSpace(input.acceptedBy) == "" then "system"
                                             else TrimSpace(input.acceptedBy))
                        && cs.acceptedAt == now))
  {
    FirstBlankIff(input.rows);
    if InputError(input).None? { TxStores(l, RequestedChangeSet(input, freshId, now), input.rows); }
    hide TrimSpace, AppendTx, StoresItem, FirstBlankRowType;
  }

  lemma TxStores(l: Ledger, wanted: ChangeSet, items: seq<RowInput>)
    requires Valid(l)
    ensures var r := AppendTx(l, wanted, items);
            && r.0.changeSets == l.changeSets[wanted.id := r.1.changeSet] && |r.1.rows| == |items|
            && r.1.changeSet == (if wanted.id in l.changeSets then l.changeSets[wanted.id] else wanted)
            && forall k :: 0 <= k < |items| ==> StoresItem(l, r.1.changeSet, k, items[k], r.1.rows[k])
  {
    var cs := Target(l, wanted);
    TargetNamed(l, wanted);
    InsertedRows(Opened(l, cs), cs, items, 0);
    InsertKeepsChangeSets(Opened(l, cs), cs, items, 0);
    hide InsertRows, Valid, IndexExact, StoresItem;
    forall k | 0 <= k < |items|
      ensures StoresItem(l, cs, k, items[k], InsertRows(Opened(l, cs), cs, items, 0).1[k])
    {
      SameStored(l, cs, k, items[k], InsertRows(Opened(l, cs), cs, items, 0).1[k]);
    }
  }

  lemma SameStored(l: Ledger, cs: ChangeSet, k: nat, item: RowInput, row: Row)
    requires IndexExact(l) && IndexExact(Opened(l, cs)) && StoresItem(Opened(l, cs), cs, k, item, row)
    ensures StoresItem(l, cs, k, item, row)
  {}

  lemma TargetNamed(l: Ledger, wanted: ChangeSet)
    requires Valid(l)
    ensures Target(l, wanted).id == wanted.id && IndexExact(l) && IndexExact(Opened(l, Target(l, wanted)))
  {}

  lemma {:induction false} InsertKeepsChangeSets(l: Ledger, cs: ChangeSet, items: seq<RowInput>, from: nat)
    requires IndexExact(l) && from <= |items|
    ensures InsertRows(l, cs, items, from).0.changeSets == l.changeSets
    decreases |items| - from
  {
    hide TrimSpace;
    if from < |items| {
      InsertRowIndex(l, cs, from, items[from]);
      InsertKeepsChangeSets(InsertRow(l, cs, from, items[from]).0, cs, items, from + 1);
    }
  }

  /** The registry tables as the service updates them. */
  class RegistryTables {
    var changeSets: map<string, ChangeSet>
    var rows: seq<Row>
    var index: map<RowKey, nat>
    var nextRowId: nat

    function State(): Ledger reads this {
      Ledger(changeSets, rows, index, nextRowId)
    }

    ghost predicate Valid() reads this {
      IndexExact(State())
    }

    constructor ()
      ensures State() == EMPTY_LEDGER && Valid()
    {
      changeSets, rows, index, nextRowId := map[], [], map[], 1;
    }

    method AppendRegistryChangeSet(input: AppendInput, freshId: string, now: nat) returns (r: Result<Appended>)
      requires Valid()
      modifies this
      ensures Valid()
      ensures (State(), r) == Append(old(State()), input, freshId, now)
    {
      match InputError(input) {
        case Some(e) => return Err(e);
        case None =>
      }
      var appended := Commit(RequestedChangeSet(input, freshId, now), input.rows);
      return Ok(appended);
    }

    method Commit(wanted: ChangeSet, items: seq<RowInput>) returns (r: Appended)
      requires Valid()
      modifies this
      ensures Valid()
      ensures (State(), r) == AppendTx(old(State()), wanted, items)
    {
      var changeSet := wanted;
      if changeSet.id in changeSets {
        changeSet := changeSets[changeSet.id];
      }
      changeSets := changeSets[changeSet.id := changeSet];
      var appended := InsertAll(changeSet, items);
      return Appended(changeSet, appended);
    }

    method InsertAll(changeSet: ChangeSet, items: seq<RowInput>) returns (appended: seq<Row>)
      requires Valid()
      modifies this
      ensures Valid()
      ensures (State(), appended) == InsertRows(old(State()), changeSet, items, 0)
    {
      ghost var whole := InsertRows(State(), changeSet, items, 0);
      appended := [];
      assert ResumesAt(State(), changeSet, items, 0, [], whole);
      hide InsertRow, InsertRows, ResumesAt;
      for i := 0 to |items|
        invariant Valid()
        invariant ResumesAt(State(), changeSet, items, i, appended, whole)
      {
        ResumesNext(State(), changeSet, items, i, appended, whole);
        var stored := InsertOrKeep(changeSet, i, items[i]);
        appended := appended + [stored];
      }
      ResumesEnd(State(), changeSet, items, appended, whole);
    }

    /** The insert ... on conflict (change_set_id, row_order) statement. */
    method InsertOrKeep(changeSet: ChangeSet, order: nat, item: RowInput) returns (stored: Row)
      requires Valid()
      modifies this
      ensures Valid()
      ensures (State(), stored) == InsertRow(old(State()), changeSet, order, item)
    {
      var key := RowKey(changeSet.id, order);
      if key in index {
        stored := rows[index[key]];
      } else {
        stored := Row(nextRowId, changeSet.id, changeSet.reference, changeSet.seedId, changeSet.realizationId, order,
                      TrimSpace(item.rowType), TrimSpace(item.objectId), TrimSpace(item.claimId),
                      item.payload, changeSet.acceptedAt);
        index := index[key := |rows|];
        rows := rows + [stored];
      }
      nextRowId := nextRowId + 1;
    }
  }
}
