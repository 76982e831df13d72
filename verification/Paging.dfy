/** Cursor paging over the registry rows (listRegistryRowsWithQuery) and the replay loop built on it. */
module Paging {
  import opened Wrappers
  import opened Text
  import opened Helpers
  import opened AuthorityTypes
  import opened Registry

  /** Blank fields match everything. */
  datatype RowQuery = RowQuery(reference: string, seedId: string, realizationId: string)

  predicate Matches(q: RowQuery, row: Row) {
    && (q.reference == "" || row.reference == q.reference)
    && (q.seedId == "" || row.seedId == q.seedId)
    && (q.realizationId == "" || row.realizationId == q.realizationId)
  }

  /** The first `limit` matching rows past the cursor; rows are stored in row-id order. */
  function Page(rows: seq<Row>, q: RowQuery, after: nat, limit: nat): seq<Row> {
    if rows == [] || limit == 0 then []
    else if Matches(q, rows[0]) && rows[0].rowId > after then [rows[0]] + Page(rows[1..], q, after, limit - 1)
    else Page(rows[1..], q, after, limit)
  }

  function AllMatches(rows: seq<Row>, q: RowQuery): seq<Row> {
    if rows == [] then []
    else (if Matches(q, rows[0]) then [rows[0]] else []) + AllMatches(rows[1..], q)
  }

  /** The matching rows up to and including the cursor. */
  function MatchesUntil(rows: seq<Row>, q: RowQuery, after: nat): seq<Row> {
    if rows == [] then []
    else (if Matches(q, rows[0]) && rows[0].rowId <= after then [rows[0]] else []) + MatchesUntil(rows[1..], q, after)
  }

  ghost predicate Increasing(rows: seq<Row>) {
    forall i, j :: 0 <= i < j < |rows| ==> rows[i].rowId < rows[j].rowId
  }

  lemma UntilNone(rows: seq<Row>, q: RowQuery, after: nat)
    requires forall i :: 0 <= i < |rows| ==> after < rows[i].rowId
    ensures MatchesUntil(rows, q, after) == []
  {
    if rows != [] { UntilNone(rows[1..], q, after); }
  }

  lemma PageMembers(rows: seq<Row>, q: RowQuery, after: nat, limit: nat)
    ensures forall i :: 0 <= i < |Page(rows, q, after, limit)| ==>
              var row := Page(rows, q, after, limit)[i]; row in rows && Matches(q, row) && row.rowId > after
  {
    if rows != [] && limit != 0 {
      assert rows == [rows[0]] + rows[1..];
      if Matches(q, rows[0]) && rows[0].rowId > after { PageMembers(rows[1..], q, after, limit - 1); }
      else { PageMembers(rows[1..], q, after, limit); }
    }
  }

  /** page picks up exactly where the cursor stands; empty means nothing is left. */
  ghost predicate Continues(rows: seq<Row>, q: RowQuery, after: nat, page: seq<Row>) {
    && (page == [] ==> MatchesUntil(rows, q, after) == AllMatches(rows, q))
    && (page != [] ==>
          var last := page[|page| - 1].rowId;
          last > after && MatchesUntil(rows, q, last) == MatchesUntil(rows, q, after) + page)
  }

  lemma PageStarts(rows: seq<Row>, q: RowQuery, after: nat, tail: seq<Row>)
    requires rows != [] && Increasing(rows) && Matches(q, rows[0]) && rows[0].rowId > after
    requires tail != [] ==> tail[|tail| - 1] in rows[1..] && Continues(rows[1..], q, after, tail)
    ensures Continues(rows, q, after, [rows[0]] + tail)
  {
    var head, rest, page := rows[0], rows[1..], [rows[0]] + tail;
    var last := page[|page| - 1].rowId;
    assert MatchesUntil(rows, q, after) == [] by { UntilNone(rows, q, after); }
    assert MatchesUntil(rest, q, after) == [] by { UntilNone(rest, q, after); }
    assert head.rowId <= last;
    if tail == [] {
      assert MatchesUntil(rest, q, last) == [] by { UntilNone(rest, q, last); }
    } else {
      assert last == tail[|tail| - 1].rowId;
      assert MatchesUntil(rest, q, last) == tail;
    }
    assert MatchesUntil(rows, q, last) == page;
  }

  lemma PageSkips(rows: seq<Row>, q: RowQuery, after: nat, page: seq<Row>)
    requires rows != [] && Increasing(rows) && !(Matches(q, rows[0]) && rows[0].rowId > after)
    requires page != [] ==> page[|page| - 1] in rows[1..]
    requires Continues(rows[1..], q, after, page)
    ensures Continues(rows, q, after, page)
  {}

  lemma {:induction false} PageContinues(rows: seq<Row>, q: RowQuery, after: nat, limit: nat)
    requires Increasing(rows) && limit > 0
    ensures Continues(rows, q, after, Page(rows, q, after, limit))
  {
    if rows != [] {
      var rest := rows[1..];
      if Matches(q, rows[0]) && rows[0].rowId > after {
        if limit > 1 { PageContinues(rest, q, after, limit - 1); }
        PageMembers(rest, q, after, limit - 1);
        PageStarts(rows, q, after, Page(rest, q, after, limit - 1));
      } else {
        PageContinues(rest, q, after, limit);
        PageMembers(rest, q, after, limit);
        PageSkips(rows, q, after, Page(rest, q, after, limit));
      }
    }
  }

  /** Rows appended later do not change what lies behind a cursor. */
  lemma {:induction false} UntilStable(rows: seq<Row>, more: seq<Row>, q: RowQuery, after: nat)
    requires rows <= more
    requires forall i :: |rows| <= i < |more| ==> after < more[i].rowId
    ensures MatchesUntil(more, q, after) == MatchesUntil(rows, q, after)
  {
    if rows == [] {
      UntilNone(more, q, after);
    } else {
      assert more[1..][..|rows| - 1] == rows[1..];
      forall i | |rows| - 1 <= i < |more[1..]|
        ensures after < more[1..][i].rowId
      {
        assert more[1..][i] == more[i + 1];
      }
      UntilStable(rows[1..], more[1..], q, after);
    }
  }

  lemma {:induction false} AllMatchesConcat(a: seq<Row>, b: seq<Row>, q: RowQuery)
    ensures AllMatches(a + b, q) == AllMatches(a, q) + AllMatches(b, q)
  {
    hide Matches;
    if a == [] {
      assert a + b == b;
    } else {
      assert (a + b)[1..] == a[1..] + b;
      AllMatchesConcat(a[1..], b, q);
    }
  }

  // ----- The authority rows -----

  const AUTHORITY := RowQuery("runtime-authority", "kernel-runtime", "authority")
  const GRANT_CREATE := "authority.grant.create"
  const PAGE_LIMIT := 5000

  predicate IsGrantRow(row: Row) {
    TrimSpace(row.rowType) == GRANT_CREATE
  }

  function GrantRows(rows: seq<Row>): seq<Row> {
    if rows == [] then []
    else (if IsGrantRow(rows[0]) then [rows[0]] else []) + GrantRows(rows[1..])
  }

  lemma {:induction false} GrantRowsConcat(a: seq<Row>, b: seq<Row>)
    ensures GrantRows(a + b) == GrantRows(a) + GrantRows(b)
  {
    hide IsGrantRow;
    if a == [] {
      assert a + b == b;
    } else {
      assert (a + b)[1..] == a[1..] + b;
      GrantRowsConcat(a[1..], b);
    }
  }

  /** Every authority row of the registry, in row-id order. */
  function AuthorityRows(rows: seq<Row>): seq<Row> {
    GrantRows(AllMatches(rows, AUTHORITY))
  }

  /** The authority rows a replay has collected when its cursor stands at `after`. */
  function AuthorityUntil(rows: seq<Row>, after: nat): seq<Row> {
    GrantRows(MatchesUntil(rows, AUTHORITY, after))
  }

  lemma AuthorityPage(rows: seq<Row>, after: nat, limit: nat)
    requires Increasing(rows) && limit > 0
    ensures var page := Page(rows, AUTHORITY, after, limit);
            && (page == [] ==> AuthorityUntil(rows, after) == AuthorityRows(rows))
            && (page != [] ==>
                  var last := page[|page| - 1].rowId;
                  last > after && AuthorityUntil(rows, last) == AuthorityUntil(rows, after) + GrantRows(page))
  {
    PageContinues(rows, AUTHORITY, after, limit);
    GrantRowsConcat(MatchesUntil(rows, AUTHORITY, after), Page(rows, AUTHORITY, after, limit));
  }

  /** The authority rows only ever grow at the end. */
  lemma AuthorityRowsGrow(rows: seq<Row>, more: seq<Row>)
    requires rows <= more
    ensures AuthorityRows(more) == AuthorityRows(rows) + AuthorityRows(more[|rows|..])
  {
    assert more == rows + more[|rows|..];
    AllMatchesConcat(rows, more[|rows|..], AUTHORITY);
    GrantRowsConcat(AllMatches(rows, AUTHORITY), AllMatches(more[|rows|..], AUTHORITY));
  }

  method ListRegistryRows(rows: seq<Row>, q: RowQuery, after: nat, limit: int) returns (items: seq<Row>)
    ensures var trimmed := RowQuery(TrimSpace(q.reference), TrimSpace(q.seedId), TrimSpace(q.realizationId));
            items == Page(rows, trimmed, after, ClampLimit(limit, 500, 5000))
  {
    var trimmed := RowQuery(TrimSpace(q.reference), TrimSpace(q.seedId), TrimSpace(q.realizationId));
    items := Page(rows, trimmed, after, ClampLimit(limit, 500, 5000));
  }

  ghost function Remaining(rows: seq<Row>, after: nat): nat {
    if rows == [] then 0 else (if rows[0].rowId > after then 1 else 0) + Remaining(rows[1..], after)
  }

  lemma RemainingDrops(rows: seq<Row>, before: nat, after: nat)
    requires before < after
    ensures Remaining(rows, after) <= Remaining(rows, before)
    ensures (exists row :: row in rows && row.rowId == after) ==> Remaining(rows, after) < Remaining(rows, before)
  {
    if rows != [] { RemainingDrops(rows[1..], before, after); }
  }

  lemma AuthorityQueryTrimmed()
    ensures TrimSpace(AUTHORITY.reference) == AUTHORITY.reference
    ensures TrimSpace(AUTHORITY.seedId) == AUTHORITY.seedId
    ensures TrimSpace(AUTHORITY.realizationId) == AUTHORITY.realizationId
  {
    TrimSpaceFixpoint(AUTHORITY.reference);
    TrimSpaceFixpoint(AUTHORITY.seedId);
    TrimSpaceFixpoint(AUTHORITY.realizationId);
  }

  lemma NothingYet(rows: seq<Row>)
    requires forall i :: 0 <= i < |rows| ==> 1 <= rows[i].rowId
    ensures AuthorityUntil(rows, 0) == []
  {
    UntilNone(rows, AUTHORITY, 0);
  }

  /** The paging loop of materializeAuthorityStateTx: whatever the page size, it ends and has visited every
      authority row once, in row-id order. */
  method ReadAuthorityRows(rows: seq<Row>, limit: int) returns (filtered: seq<Row>)
    requires Increasing(rows)
    requires forall i :: 0 <= i < |rows| ==> 1 <= rows[i].rowId
    ensures filtered == AuthorityRows(rows)
  {
    hide IsGrantRow, TrimSpace, Page, Increasing, Matches, AuthorityUntil, AuthorityRows;
    AuthorityQueryTrimmed();
    NothingYet(rows);
    filtered := [];
    var after := 0;
    while true
      invariant filtered == AuthorityUntil(rows, after)
      decreases Remaining(rows, after)
    {
      var page := ListRegistryRows(rows, AUTHORITY, after, limit);
      AuthorityPage(rows, after, ClampLimit(limit, 500, 5000));
      if |page| == 0 {
        break;
      }
      ghost var collected := filtered;
      for i := 0 to |page|
        invariant filtered == collected + GrantRows(page[..i])
      {
        assert page[..i + 1] == page[..i] + [page[i]];
        GrantRowsConcat(page[..i], [page[i]]);
        if IsGrantRow(page[i]) {
          filtered := filtered + [page[i]];
        }
      }
      assert page[..|page|] == page;
      PageMembers(rows, AUTHORITY, after, ClampLimit(limit, 500, 5000));
      RemainingDrops(rows, after, page[|page| - 1].rowId);
      after := page[|page| - 1].rowId;
    }
  }
}
