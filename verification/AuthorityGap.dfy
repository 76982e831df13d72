/** What a reader can see between its staleness check and its own query.

    Reading the effective authority of a principal first makes sure the projection is fresh and then selects
    from it; the two are separate statements, and the steps of other workers may fall between them. */
module AuthorityGap {
  import opened Wrappers
  import opened Text
  import opened AuthorityTypes
  import opened Registry
  import opened Paging
  import opened Replay
  import opened GrantDraft
  import opened AuthorityLedger
  import opened AuthorityRuns
  import opened AuthorityTheorems
  import opened AuthorityWitnesses

  // ----- The last rebuild committed -----

  predicate Commits(s: State, e: Event) {
    e.CommitRebuild? && e.p in s.sessions && s.sessions[e.p].ReadDone?
  }

  /** The rows that the last rebuild committed in this run had read. */
  ghost function LastCommitted(s: State, events: seq<Event>): Option<seq<Row>>
    decreases |events|
  {
    if events == [] then None else
      var later := LastCommitted(Step(s, events[0]), events[1..]);
      if later.None? && Commits(s, events[0]) then Some(s.sessions[events[0].p].filtered) else later
  }

  /** No grant of a is missing from b or differs there. */
  ghost predicate Covers(a: Grants, b: Grants) {
    forall id :: id in a ==> id in b && b[id] == a[id]
  }

  /** The table replays the first n of these rows. */
  ghost predicate IsReplayOf(grants: Grants, rows: seq<Row>, n: nat)
    requires AllDecodable(rows)
  {
    n <= |rows| && grants == GrantsOf(rows[..n])
  }

  lemma StepWrites(s: State, e: Event)
    requires Inv(s)
    ensures !Commits(s, e) ==> Step(s, e).grants == s.grants
    ensures Commits(s, e) ==>
              var filtered := s.sessions[e.p].filtered;
              && AllDecodable(filtered) && Step(s, e).grants == GrantsOf(filtered)
              && filtered <= AuthorityRows(s.ledger.rows)
  {
    if Commits(s, e) {
      CommitKeeps(s, e.p);
      assert SessionValid(s.ledger, s.sessions[e.p]);
    } else {
      hide Inv, LedgerAfter, ReadNext, CheckNext, Decide;
    }
  }

  /** The table at the end of a run is what its last commit put there, or what it was. */
  lemma {:induction false} LastCommitWins(s: State, events: seq<Event>)
    requires Inv(s) && AllAllowed(events)
    ensures var t := AuthorityRuns.Run(s, events);
            var last := LastCommitted(s, events);
            && Inv(t) && AllDecodable(AuthorityRows(t.ledger.rows))
            && (last.None? ==> t.grants == s.grants)
            && (last.Some? ==>
                  && last.value <= AuthorityRows(t.ledger.rows)
                  && IsReplayOf(t.grants, AuthorityRows(t.ledger.rows), |last.value|))
    decreases |events|
  {
    RunKeeps(s, events);
    var t := AuthorityRuns.Run(s, events);
    LedgerDecodes(t.ledger);
    hide Allowed, Step, Inv, Commits, AuthorityRows, GrantsOf, AllDecodable, Extends;
    if events != [] {
      var s1 := Step(s, events[0]);
      assert Allowed(events[0]);
      StepKeeps(s, events[0]);
      StepWrites(s, events[0]);
      forall i | 0 <= i < |events[1..]| ensures Allowed(events[1..][i]) { assert events[1..][i] == events[i + 1]; }
      LastCommitWins(s1, events[1..]);
      if LastCommitted(s1, events[1..]).None? && Commits(s, events[0]) {
        RunKeeps(s1, events[1..]);
        StaysPrefix(s.ledger, s1.ledger, t.ledger, s.sessions[events[0].p].filtered);
      }
    }
  }

  lemma StaysPrefix(l: Ledger, between: Ledger, last: Ledger, filtered: seq<Row>)
    requires Extends(l, between) && Extends(between, last) && filtered <= AuthorityRows(l.rows)
    ensures filtered <= AuthorityRows(last.rows)
    ensures AuthorityRows(last.rows)[..|filtered|] == filtered
  {
    ExtendsTransitive(l, between, last);
    hide AuthorityRows;
    assert l.rows <= last.rows;
    AuthorityRowsGrow(l.rows, last.rows);
  }

  // ----- Exactly when the gap is harmless -----

  /** Replays of two prefixes of distinct rows: the longer covers the shorter, and only it does. */
  lemma LongerCovers(rows: seq<Row>, n: nat, m: nat)
    requires AllDecodable(rows) && DistinctIds(rows) && n <= |rows| && m <= |rows|
    ensures AllDecodable(rows[..n]) && AllDecodable(rows[..m])
    ensures Covers(GrantsOf(rows[..n]), GrantsOf(rows[..m])) <==> n <= m
  {
    hide Decodable, GrantsOf, StoredRow;
    PrefixDistinct(rows, n);
    PrefixDistinct(rows, m);
    TableOfDistinctRows(rows[..n]);
    TableOfDistinctRows(rows[..m]);
    if n > m {
      TailMissing(rows, n, m);
    } else {
      forall id | id in GrantsOf(rows[..n])
        ensures id in GrantsOf(rows[..m]) && GrantsOf(rows[..m])[id] == GrantsOf(rows[..n])[id]
      {
        var i :| 0 <= i < n && GrantId(rows[..n][i]) == id;
        assert rows[..n][i] == rows[..m][i];
      }
    }
  }

  /** The grant of row m is in the replay of more rows, and not in that of the rows before it. */
  lemma TailMissing(rows: seq<Row>, n: nat, m: nat)
    requires AllDecodable(rows) && DistinctIds(rows) && m < n <= |rows|
    ensures AllDecodable(rows[..n]) && GrantId(rows[m]) in GrantsOf(rows[..n])
    ensures AllDecodable(rows[..m]) && GrantId(rows[m]) !in GrantsOf(rows[..m])
  {
    hide Decodable, GrantsOf, StoredRow;
    PrefixDistinct(rows, n);
    PrefixDistinct(rows, m);
    TableOfDistinctRows(rows[..n]);
    TableOfDistinctRows(rows[..m]);
    assert rows[..n][m] == rows[m];
    assert forall i :: 0 <= i < m ==> GrantId(rows[..m][i]) != GrantId(rows[m]);
  }

  /** The reader's check found the projection fresh in s; its query runs after events.  The query sees every
      grant the check had vouched for, unchanged, exactly when the last rebuild committed in between, if any,
      had read at least as many authority rows as the ledger held at the check. */
  lemma SelectSeesCheckedIff(s: State, events: seq<Event>)
    requires Inv(s) && FreshProjection(s) && AllAllowed(events)
    ensures var last := LastCommitted(s, events);
            Covers(s.grants, AuthorityRuns.Run(s, events).grants)
            <==> (last.Some? ==> |last.value| >= |AuthorityRows(s.ledger.rows)|)
  {
    var t := AuthorityRuns.Run(s, events);
    var known := AuthorityRows(s.ledger.rows);
    var rows := AuthorityRows(t.ledger.rows);
    LastCommitWins(s, events);
    if LastCommitted(s, events).Some? {
      RunKeeps(s, events);
      hide LedgerValid, PrefixReplay, AuthorityRows, SessionValid, GrantsOf, Allowed, LastCommitted, DistinctIds,
           AuthorityRuns.Run, AllDecodable;
      LedgerDecodes(t.ledger);
      RowsDistinct(t.ledger);
      ExtendsItself(t.ledger);
      StaysPrefix(s.ledger, t.ledger, t.ledger, known);
      LongerCovers(rows, |known|, |LastCommitted(s, events).value|);
    }
  }

  // ----- The gap is real -----

  function CheckEvents(q: nat): seq<Event> {
    [BeginCheck(q)] + ([CheckPage(q, 1)] + [CheckPage(q, 1)])
  }

  lemma CountPages(s: State, q: nat, row: Row)
    requires s.ledger.rows == [row] && IsAuthorityRow(row) && row.rowId > 0
    ensures Step(At(s, q, Counting(s.grants, 0, 0)), CheckPage(q, 1)) == At(s, q, Counting(s.grants, row.rowId, 1))
    ensures Step(At(s, q, Counting(s.grants, row.rowId, 1)), CheckPage(q, 1))
            == At(s, q, Counted(s.grants, |s.grants| != 1))
  {
    OneRowPages(row, 1);
    hide IsAuthorityRow, Page, GrantRows;
    AtTwice(s, q, Counting(s.grants, 0, 0), Counting(s.grants, row.rowId, 1));
    AtTwice(s, q, Counting(s.grants, row.rowId, 1), Counted(s.grants, |s.grants| != 1));
  }

  lemma AtTwice(s: State, q: nat, x: Session, y: Session)
    ensures At(At(s, q, x), q, y) == At(s, q, y)
  {}

  lemma CountOne(s: State, q: nat, row: Row)
    requires s.ledger.rows == [row] && IsAuthorityRow(row) && row.rowId > 0
    ensures AuthorityRuns.Run(s, CheckEvents(q)) == At(s, q, Counted(s.grants, |s.grants| != 1))
  {
    var s1, s2 := At(s, q, Counting(s.grants, 0, 0)), At(s, q, Counting(s.grants, row.rowId, 1));
    CountPages(s, q, row);
    assert Step(s, BeginCheck(q)) == s1;
    hide IsAuthorityRow, Step, At, AuthorityRuns.Run;
    RunCons(s, BeginCheck(q), [CheckPage(q, 1)] + [CheckPage(q, 1)]);
    RunCons(s1, CheckPage(q, 1), [CheckPage(q, 1)]);
    RunLast(s2, CheckPage(q, 1));
  }

  function CreateOne(): seq<Event> {
    [DraftGrant(1, REQUEST, "g", 1)] + [AppendDraft(1, 1)]
  }

  /** A worker creates the first grant while session 0 has read the empty ledger. */
  lemma CreateAfterRead() returns (row: Row)
    ensures var t := AuthorityRuns.Run(AuthorityRuns.Run(INIT, EmptyRead()), CreateOne());
            && t.ledger.rows == [row] && IsAuthorityRow(row) && Decodable(row) && row.rowId > 0
            && t.sessions == map[0 := ReadDone([])]
  {
    RequestAccepted(1);
    EmptyReadDone();
    RaceAllowed();
    EveryRun(EmptyRead());
    hide Decide, Inv, Step, Blank, AuthorityRuns.Run, IsAuthorityRow, Decodable, EmptyRead, AllAllowed;
    var s := AuthorityRuns.Run(INIT, EmptyRead());
    var d := Decide(s.grants, s.bundles, REQUEST, "g", 1).value;
    DraftStored(s, 1, REQUEST, "g", 1);
    var s1 := s.(sessions := s.sessions[1 := Drafted(d)]);
    RunCons(s, DraftGrant(1, REQUEST, "g", 1), [AppendDraft(1, 1)]);
    RunLast(s1, AppendDraft(1, 1));
    FirstAppend(s1, d);
    row := DraftRow(EMPTY_LEDGER, d, 1);
    assert s1.sessions - {1} == map[0 := ReadDone([])];
  }

  /** Session 0 reads the empty ledger; a grant is created; a rebuild makes the projection fresh; reader 2 checks it. */
  function BeforeSelect(): seq<Event> {
    EmptyRead() + (CreateOne() + (RebuildEvents(1) + CheckEvents(2)))
  }

  lemma BeforeSelectAllowed()
    ensures AllAllowed(BeforeSelect()) && AllAllowed([CommitRebuild(0)])
  {
    RaceAllowed();
    hide TrimSpace;
    forall i | 0 <= i < |BeforeSelect()| ensures Allowed(BeforeSelect()[i]) {}
  }

  lemma CheckedState() returns (row: Row)
    ensures var s := AuthorityRuns.Run(INIT, BeforeSelect());
            && s.ledger.rows == [row] && IsAuthorityRow(row) && |s.grants| == 1
            && s.sessions == map[0 := ReadDone([]), 2 := Counted(s.grants, false)]
  {
    row := CreateAfterRead();
    var s0 := AuthorityRuns.Run(INIT, EmptyRead());
    var s1 := AuthorityRuns.Run(s0, CreateOne());
    var s2 := AuthorityRuns.Run(s1, RebuildEvents(1));
    RunConcat(INIT, EmptyRead(), CreateOne() + (RebuildEvents(1) + CheckEvents(2)));
    RunConcat(s0, CreateOne(), RebuildEvents(1) + CheckEvents(2));
    RunConcat(s1, RebuildEvents(1), CheckEvents(2));
    hide AuthorityRuns.Run, IsAuthorityRow, Decodable, EmptyRead, CreateOne, RebuildEvents, CheckEvents;
    RebuildOfOne(s1, 1, row);
    assert s1.sessions - {1} == map[0 := ReadDone([])];
    CountOne(s2, 2, row);
  }

  /** A stale answer is reachable: reader 2's check finds the projection fresh with the one grant there is, an
      old rebuild commits, and the query finds no grant at all. */
  lemma StaleAnswerHappens()
    ensures AllAllowed(BeforeSelect() + [CommitRebuild(0)])
    ensures var s := AuthorityRuns.Run(INIT, BeforeSelect());
            && Inv(s) && FreshProjection(s) && |s.grants| == 1
            && 2 in s.sessions && s.sessions[2] == Counted(s.grants, false)
            && AuthorityRuns.Run(INIT, BeforeSelect() + [CommitRebuild(0)]).grants == map[]
  {
    BeforeSelectAllowed();
    hide BeforeSelect, Inv, FreshProjection, Step, AuthorityRuns.Run, Allowed, IsAuthorityRow, GrantsOf, AuthorityRows;
    var row := CheckedState();
    CountCheckIsExact(BeforeSelect());
    OneAuthorityRow(row);
    var s := AuthorityRuns.Run(INIT, BeforeSelect());
    RunConcat(INIT, BeforeSelect(), [CommitRebuild(0)]);
    RunLast(s, CommitRebuild(0));
    CommitKeeps(s, 0);
    NoRowsNoGrants();
  }

  lemma NoRowsNoGrants()
    ensures GrantsOf([]) == map[]
  {}

  lemma OneAuthorityRow(row: Row)
    requires IsAuthorityRow(row)
    ensures AuthorityRows([row]) == [row]
  {
    assert [row][1..] == [];
    assert AllMatches([], AUTHORITY) == [] && GrantRows([]) == [];
    hide IsGrantRow, Matches;
    assert AllMatches([row], AUTHORITY) == [row];
    assert GrantRows([row]) == [row];
  }
}
