/** What holds of the authority ledger over every interleaving. */
module AuthorityTheorems {
  import opened Wrappers
  import opened Text
  import opened Sorting
  import opened Normalize
  import opened AuthorityTypes
  import opened Registry
  import opened Paging
  import opened Replay
  import opened GrantDraft
  import opened AuthorityLedger
  import opened Effective
  import opened AuthorityRuns

  // ----- Freshness -----

  /** In every reachable state the cheap row count is exact: it asks for a rebuild iff the table is stale. */
  lemma CountCheckIsExact(events: seq<Event>)
    requires AllAllowed(events)
    ensures var s := AuthorityRuns.Run(INIT, events);
            && Inv(s)
            && (|s.grants| == |AuthorityRows(s.ledger.rows)| <==> FreshProjection(s))
  {
    EveryRun(events);
    var s := AuthorityRuns.Run(INIT, events);
    CountDecides(s.ledger, s.grants);
  }

  /** A commit can put back an older projection when rows were appended since its last read; it leaves a fresh
      one exactly when none were, and the next count check tells the two apart. */
  lemma StaleCommit(s: State, p: nat)
    requires Inv(s) && p in s.sessions && s.sessions[p].ReadDone?
    ensures var s' := Step(s, CommitRebuild(p));
            && Inv(s')
            && (FreshProjection(s') <==> |s.sessions[p].filtered| == |AuthorityRows(s.ledger.rows)|)
            && (FreshProjection(s') <==> |s'.grants| == |AuthorityRows(s'.ledger.rows)|)
  {
    hide LedgerValid, Decodable, GrantsOf, PrefixReplay;
    CommitKeeps(s, p);
    var s' := Step(s, CommitRebuild(p));
    var filtered, rows := s.sessions[p].filtered, AuthorityRows(s.ledger.rows);
    CountDecides(s'.ledger, s'.grants);
    assert SessionValid(s.ledger, s.sessions[p]);
    LedgerDecodes(s.ledger);
    RowsDistinct(s.ledger);
    assert DistinctIds(filtered) by {
      forall i, j | 0 <= i < j < |filtered| ensures GrantId(filtered[i]) != GrantId(filtered[j]) {
        assert filtered[i] == rows[i] && filtered[j] == rows[j];
      }
    }
    TableOfDistinctRows(filtered);
  }

  /** Another worker creates a grant, then session p commits. */
  function Race(p: nat, q: nat, input: GrantInput, freshId: string, now: nat): seq<Event> {
    [DraftGrant(q, input, freshId, now)] + ([AppendDraft(q, now)] + [CommitRebuild(p)])
  }

  lemma RunCons(s: State, e: Event, rest: seq<Event>)
    ensures AuthorityRuns.Run(s, [e] + rest) == AuthorityRuns.Run(Step(s, e), rest)
  {
    hide Step;
    assert ([e] + rest)[1..] == rest;
  }

  lemma RunConcat(s: State, a: seq<Event>, b: seq<Event>)
    ensures AuthorityRuns.Run(s, a + b) == AuthorityRuns.Run(AuthorityRuns.Run(s, a), b)
    decreases |a|
  {
    hide Step;
    if a == [] {
      assert a + b == b;
    } else {
      assert (a + b)[1..] == a[1..] + b;
      RunConcat(Step(s, a[0]), a[1..], b);
    }
  }

  lemma RunLast(s: State, e: Event)
    ensures AuthorityRuns.Run(s, [e]) == Step(s, e)
  {
    hide Step;
    assert [e][1..] == [];
  }

  lemma DraftStored(s: State, q: nat, input: GrantInput, freshId: string, now: nat)
    requires Inv(s) && !Blank(freshId) && Decide(s.grants, s.bundles, input, freshId, now).Ok?
    ensures var d := Decide(s.grants, s.bundles, input, freshId, now).value;
            var s1 := s.(sessions := s.sessions[q := Drafted(d)]);
            Step(s, DraftGrant(q, input, freshId, now)) == s1 && Inv(s1) && SessionValid(s.ledger, Drafted(d))
  {
    hide Inv, Decide, Blank, SessionValid;
    StepKeeps(s, DraftGrant(q, input, freshId, now));
    DraftKeeps(s, q, input, freshId, now);
  }

  /** Appending a draft whose change set is new adds one authority row. */
  lemma DraftAppended(s: State, q: nat, now: nat)
    requires Inv(s) && q in s.sessions && s.sessions[q].Drafted?
    requires "auth-" + s.sessions[q].draft.grant.grantId !in s.ledger.changeSets
    ensures var s2 := Step(s, AppendDraft(q, now));
            && Inv(s2) && s2.sessions == s.sessions - {q} && Extends(s.ledger, s2.ledger)
            && |AuthorityRows(s2.ledger.rows)| == |AuthorityRows(s.ledger.rows)| + 1
  {
    hide LedgerValid, GrantsOf, PrefixReplay, Registry.Append, GrantAppend, AuthorityRows, PayloadError, NamedBefore,
         Extends, TrimSpace, AllDecodable;
    AppendDraftKeeps(s, q, now);
    LedgerDecodes(s.ledger);
    assert SessionValid(s.ledger, s.sessions[q]);
    GrantAppendKeeps(s.ledger, s.sessions[q].draft, "", now);
  }

  /** A new grant that is created between a rebuild's last read and its commit makes that commit stale. */
  lemma CreateRacesCommit(s: State, p: nat, q: nat, input: GrantInput, freshId: string, now: nat)
    requires Inv(s) && !Blank(freshId) && p != q && p in s.sessions && s.sessions[p].ReadDone?
    requires Decide(s.grants, s.bundles, input, freshId, now).Ok?
    requires var d := Decide(s.grants, s.bundles, input, freshId, now).value;
             "auth-" + d.grant.grantId !in s.ledger.changeSets
    ensures var s' := AuthorityRuns.Run(s, Race(p, q, input, freshId, now));
            Inv(s') && !FreshProjection(s')
  {
    var filtered := s.sessions[p].filtered;
    assert filtered <= AuthorityRows(s.ledger.rows) by { assert SessionValid(s.ledger, s.sessions[p]); }
    hide Inv, Decide, FreshProjection, AuthorityRows, Blank, Step, Extends, SessionValid;
    var s1 := Step(s, DraftGrant(q, input, freshId, now));
    var s2 := Step(s1, AppendDraft(q, now));
    DraftStored(s, q, input, freshId, now);
    DraftAppended(s1, q, now);
    StaleCommit(s2, p);
    RunCons(s, DraftGrant(q, input, freshId, now), [AppendDraft(q, now)] + [CommitRebuild(p)]);
    RunCons(s1, AppendDraft(q, now), [CommitRebuild(p)]);
    RunLast(s2, CommitRebuild(p));
  }

  const BUNDLE := Bundle("b", None, ["read"], "active", "")

  const REQUEST := GrantInput("g", "", "u", "b", "seed", "s", "", "", "", None, None, "", "", [], "")

  lemma RequestAccepted(now: nat)
    ensures Decide(map[], map["b" := BUNDLE], REQUEST, "g", now).Ok?
    ensures !Blank("g")
  {
    TrimSpaceFixpoint("");
    TrimSpaceFixpoint("b");
    TrimSpaceFixpoint("g");
    TrimSpaceFixpoint("u");
    TrimSpaceFixpoint("s");
    TrimSpaceFixpoint("seed");
    TrimSpaceFixpoint("read");
    hide TrimSpace;
    assert BUNDLE.capabilities[0] == "read";
    assert "read" in Members(BUNDLE.capabilities);
    DraftAcceptedIff(map[], map["b" := BUNDLE], REQUEST, "g", now);
  }

  /** A rebuild that has read an empty ledger to its end. */
  function EmptyRead(): seq<Event> {
    [EditBundle(BUNDLE)] + ([BeginRead(0)] + [ReadPage(0, 1)])
  }

  lemma EmptyReadDone()
    ensures AuthorityRuns.Run(INIT, EmptyRead())
            == State(EMPTY_LEDGER, map[], map["b" := BUNDLE], map[0 := ReadDone([])])
  {
    var s1 := INIT.(bundles := map["b" := BUNDLE]);
    var s2 := s1.(sessions := map[0 := Reading(0, [])]);
    assert Step(INIT, EditBundle(BUNDLE)) == s1;
    assert Step(s1, BeginRead(0)) == s2;
    RunCons(INIT, EditBundle(BUNDLE), [BeginRead(0)] + [ReadPage(0, 1)]);
    RunCons(s1, BeginRead(0), [ReadPage(0, 1)]);
    RunLast(s2, ReadPage(0, 1));
  }

  lemma RaceAllowed()
    ensures AllAllowed(EmptyRead()) && AllAllowed(EmptyRead() + Race(0, 1, REQUEST, "g", 1)) && !Blank("g")
  {
    TrimSpaceFixpoint("g");
    hide TrimSpace;
  }

  /** A stale commit is reachable: from the empty system, one session reads, another creates a grant, and the
      first then commits a table the grant is missing from. */
  lemma StaleCommitHappens()
    ensures var events := EmptyRead() + Race(0, 1, REQUEST, "g", 1);
            && AllAllowed(events) && Inv(AuthorityRuns.Run(INIT, events))
            && !FreshProjection(AuthorityRuns.Run(INIT, events))
  {
    RaceAllowed();
    RequestAccepted(1);
    EmptyReadDone();
    hide Decide, Inv, Step, FreshProjection, Blank, AllAllowed, EmptyRead, Race, AuthorityRuns.Run;
    EveryRun(EmptyRead());
    var s := AuthorityRuns.Run(INIT, EmptyRead());
    CreateRacesCommit(s, 0, 1, REQUEST, "g", 1);
    RunConcat(INIT, EmptyRead(), Race(0, 1, REQUEST, "g", 1));
  }

  // ----- Supersession -----

  /** path names authority rows, each superseding the next. */
  ghost predicate SupersessionPath(rows: seq<Row>, path: seq<nat>)
    requires AllDecodable(rows)
  {
    && (forall i :: 0 <= i < |path| ==> path[i] < |rows|)
    && (forall i :: 0 <= i < |path| - 1 ==> Supersedes(rows, path[i], path[i + 1]))
  }

  ghost predicate Supersedes(rows: seq<Row>, a: nat, b: nat)
    requires AllDecodable(rows)
  {
    a < |rows| && b < |rows| && StoredRow(rows[a]).supersedes != "" && StoredRow(rows[a]).supersedes == GrantId(rows[b])
  }

  lemma SupersedesBack(rows: seq<Row>, a: nat, b: nat)
    requires AllDecodable(rows) && DistinctIds(rows) && SupersedesEarlier(rows) && Supersedes(rows, a, b)
    ensures b < a
  {
    hide StoredRow, Decodable;
    assert NamedBefore(StoredRow(rows[a]).supersedes, rows, a);
    var j :| 0 <= j < a && GrantId(rows[j]) == StoredRow(rows[a]).supersedes;
    assert j == b;
  }

  /** In every reachable ledger a supersession chain runs strictly backwards, so it never comes back. */
  lemma {:induction false} SupersessionAcyclic(s: State, path: seq<nat>)
    requires Inv(s) && SupersessionPath(AuthorityRows(s.ledger.rows), path) && |path| >= 2
    ensures path[|path| - 1] < path[0]
  {
    hide StoredRow, Decodable, LedgerValid;
    var rows := AuthorityRows(s.ledger.rows);
    LedgerDecodes(s.ledger);
    RowsDistinct(s.ledger);
    var n := |path| - 1;
    assert Supersedes(rows, path[n - 1], path[n]);
    SupersedesBack(rows, path[n - 1], path[n]);
    if n > 1 {
      SupersessionAcyclic(s, path[..n]);
    }
  }

  /** The row's payload is an accepted, revoked or superseded grant that supersedes id. */
  ghost predicate EndingRow(row: Row, id: string)
    requires Decodable(row)
  {
    && TrimSpace(row.payload.grant.supersedes) == id
    && row.payload.grant.status in {"accepted", "revoked", "superseded"}
  }

  /** Some authority row of the ledger takes effect away from id. */
  ghost predicate EndedInLedger(rows: seq<Row>, id: string)
    requires AllDecodable(rows)
  {
    exists k :: 0 <= k < |rows| && EndingRow(rows[k], id)
  }

  lemma EndingIff(row: Row, id: string)
    requires Decodable(row)
    ensures Ends(StoredRow(row), id) <==> EndingRow(row, id)
  {
    hide TrimSpace, NormalizeList;
  }

  lemma FreshEnds(l: Ledger, id: string)
    requires LedgerValid(l)
    ensures Ended(GrantsOf(AuthorityRows(l.rows)), id) <==> EndedInLedger(AuthorityRows(l.rows), id)
  {
    hide StoredRow, Decodable, Ends, EndingRow, GrantsOf, Valid, AuthorityRowsWellFormed, SupersedesEarlier;
    var rows := AuthorityRows(l.rows);
    var grants := GrantsOf(rows);
    TableOfDistinctRows(rows);
    if Ended(grants, id) {
      var n :| n in grants && Ends(grants[n], id);
      var k :| 0 <= k < |rows| && GrantId(rows[k]) == n;
      EndingIff(rows[k], id);
    }
    if EndedInLedger(rows, id) {
      var k :| 0 <= k < |rows| && EndingRow(rows[k], id);
      EndingIff(rows[k], id);
      assert Ends(grants[GrantId(rows[k])], id);
    }
  }

  /** Once an accepted, revoked or superseded grant supersedes id, no fresh projection at any later point of
      any run lists id as active, for any principal and at any time. */
  lemma EndedForever(s: State, events: seq<Event>, id: string, principal: string, now: nat)
    requires Inv(s) && AllAllowed(events)
    requires AllDecodable(AuthorityRows(s.ledger.rows)) && EndedInLedger(AuthorityRows(s.ledger.rows), id)
    ensures var s' := AuthorityRuns.Run(s, events);
            && Inv(s') && AllDecodable(AuthorityRows(s'.ledger.rows))
            && EndedInLedger(AuthorityRows(s'.ledger.rows), id)
            && (FreshProjection(s') ==> !Active(s'.grants, principal, now, id))
  {
    hide StoredRow, Decodable, EndingRow, GrantsOf, LedgerValid, PrefixReplay, Ended;
    RunKeeps(s, events);
    var s' := AuthorityRuns.Run(s, events);
    var rows, rows' := AuthorityRows(s.ledger.rows), AuthorityRows(s'.ledger.rows);
    LedgerDecodes(s'.ledger);
    AuthorityRowsGrow(s.ledger.rows, s'.ledger.rows);
    var k :| 0 <= k < |rows| && EndingRow(rows[k], id);
    assert rows'[k] == rows[k];
    FreshEnds(s'.ledger, id);
  }

  lemma RowShown(rows: seq<Row>, k: nat)
    requires AllDecodable(rows) && k < |rows|
    ensures Shows(StoredRow(rows[k]), rows[k].payload.grant, rows[k].acceptedAt)
  {
    hide Shows, Stored;
    StoredShows(rows[k].payload.grant, rows[k].acceptedAt);
  }

  /** The first accepted payload for a grant id is what every later fresh projection shows, whatever is
      created under the same id afterwards. */
  lemma FirstPayloadWins(s: State, events: seq<Event>, k: nat)
    requires Inv(s) && AllAllowed(events)
    requires AllDecodable(AuthorityRows(s.ledger.rows)) && k < |AuthorityRows(s.ledger.rows)|
    ensures var s' := AuthorityRuns.Run(s, events);
            var row := AuthorityRows(s.ledger.rows)[k];
            && Inv(s')
            && (FreshProjection(s') ==> ShowsRow(s'.grants, row) && s'.grants[GrantId(row)] == StoredRow(row))
  {
    RowShown(AuthorityRows(s.ledger.rows), k);
    hide StoredRow, Decodable, LedgerValid, PrefixReplay, GrantsOf, Shows;
    RunKeeps(s, events);
    var s' := AuthorityRuns.Run(s, events);
    AuthorityRowsGrow(s.ledger.rows, s'.ledger.rows);
    LedgerDecodes(s'.ledger);
    RowsDistinct(s'.ledger);
    TableOfDistinctRows(AuthorityRows(s'.ledger.rows));
    assert AuthorityRows(s'.ledger.rows)[k] == AuthorityRows(s.ledger.rows)[k];
  }

  // ----- Effective authority is a function of ledger and clock -----

  /** A grant of a replayed table is the stored grant of one row. */
  lemma ListedFromRow(l: Ledger, grants: Grants, id: string) returns (j: nat)
    requires LedgerValid(l) && PrefixReplay(grants, AuthorityRows(l.rows)) && id in grants
    ensures j < |AuthorityRows(l.rows)| && AllDecodable(AuthorityRows(l.rows))
    ensures GrantId(AuthorityRows(l.rows)[j]) == id && grants[id] == StoredRow(AuthorityRows(l.rows)[j])
  {
    hide LedgerValid, Decodable, DistinctIds, AuthorityRows, GrantsOf, StoredRow;
    LedgerDecodes(l);
    RowsDistinct(l);
    var rows := AuthorityRows(l.rows);
    var n :| 0 <= n <= |rows| && grants == GrantsOf(rows[..n]);
    PrefixDistinct(rows, n);
    TableOfDistinctRows(rows[..n]);
    j :| 0 <= j < n && GrantId(rows[..n][j]) == id;
    assert rows[..n][j] == rows[j];
  }

  lemma TableKeyed(l: Ledger, grants: Grants)
    requires LedgerValid(l) && PrefixReplay(grants, AuthorityRows(l.rows))
    ensures ById(grants)
  {
    hide LedgerValid, AuthorityRows, PrefixReplay, Decodable;
    forall id | id in grants
      ensures grants[id].grantId == id
    {
      var j := ListedFromRow(l, grants, id);
    }
  }

  /** The row's payload is an accepted grant of the principal that has begun and not run out; the zero time is no
      time. */
  ghost predicate RowInEffect(row: Row, principal: string, now: nat)
    requires Decodable(row)
  {
    var p := row.payload.grant;
    && p.grantee == principal && p.status == "accepted"
    && (p.effectiveAt.Some? ==> p.effectiveAt.value <= now)
    && (p.expiresAt.Some? && p.expiresAt.value != 0 ==> now < p.expiresAt.value)
  }

  /** The row's payload is that grant, and it confers the capability. */
  ghost predicate RowGives(row: Row, principal: string, now: nat, key: CapKey, id: string)
    requires Decodable(row)
  {
    row.payload.grant.grantId == id && RowInEffect(row, principal, now) && Confers(row.payload.grant, key)
  }

  /** The authority rows themselves, read without any table, give id the capability: some payload names it. */
  ghost predicate LedgerGives(rows: seq<Row>, principal: string, now: nat, key: CapKey, id: string)
    requires AllDecodable(rows)
  {
    && !EndedInLedger(rows, id)
    && exists k :: 0 <= k < |rows| && RowGives(rows[k], principal, now, key, id)
  }

  lemma RowInEffectIff(row: Row, principal: string, now: nat)
    requires Decodable(row)
    ensures InEffect(StoredRow(row), principal, now) <==> RowInEffect(row, principal, now)
  {
    hide TrimSpace, NormalizeList;
  }

  /** A capability of a payload is a capability of the grant stored from it, and no other is. */
  lemma RowConfersIff(row: Row, key: CapKey)
    requires Decodable(row)
    ensures Holds(StoredRow(row), key) <==> Confers(row.payload.grant, key)
  {
    NormalizeListIdempotent(row.payload.grant.capabilities);
    NormalizeListSpec(row.payload.grant.capabilities);
    hide TrimSpace, NormalizeList;
  }

  lemma RowGivesIff(row: Row, principal: string, now: nat, key: CapKey, id: string)
    requires Decodable(row)
    ensures RowGives(row, principal, now, key, id)
        <==> GrantId(row) == id && InEffect(StoredRow(row), principal, now) && Holds(StoredRow(row), key)
  {
    hide StoredRow, InEffect, RowInEffect, Holds, Confers;
    RowInEffectIff(row, principal, now);
    RowConfersIff(row, key);
  }

  /** A fresh projection gives exactly what the ledger gives. */
  lemma EffectiveIsLedger(s: State, principal: string, now: nat, key: CapKey, id: string)
    requires Inv(s) && FreshProjection(s)
    ensures Gives(s.grants, principal, now, key, id)
        <==> LedgerGives(AuthorityRows(s.ledger.rows), principal, now, key, id)
  {
    hide StoredRow, Decodable, GrantsOf, PrefixReplay, Ended, EndedInLedger, InEffect, RowGives, Holds, Valid,
         AuthorityRowsWellFormed, SupersedesEarlier;
    var rows := AuthorityRows(s.ledger.rows);
    FreshEnds(s.ledger, id);
    TableOfDistinctRows(rows);
    forall k | 0 <= k < |rows|
      ensures RowGives(rows[k], principal, now, key, id)
          <==> GrantId(rows[k]) == id && InEffect(StoredRow(rows[k]), principal, now) && Holds(StoredRow(rows[k]), key)
    {
      RowGivesIff(rows[k], principal, now, key, id);
    }
    if Gives(s.grants, principal, now, key, id) {
      var k :| 0 <= k < |rows| && GrantId(rows[k]) == id;
      assert s.grants[id] == StoredRow(rows[k]);
    }
  }

  ghost function KeysOf(policies: seq<Policy>): seq<CapKey> {
    seq(|policies|, i requires 0 <= i < |policies| => policies[i].key)
  }

  lemma KeysExact(policies: seq<Policy>, grants: Grants, principal: string, now: nat, key: CapKey)
    requires ExactPolicies(policies, grants, principal, now)
    ensures key in KeysOf(policies) <==> exists id :: Gives(grants, principal, now, key, id)
  {
    hide Gives;
    if key in KeysOf(policies) {
      var i :| 0 <= i < |policies| && KeysOf(policies)[i] == key;
      assert ExactPolicy(policies[i], grants, principal, now);
    }
    if exists id :: Gives(grants, principal, now, key, id) {
      var id :| Gives(grants, principal, now, key, id);
      var i :| 0 <= i < |policies| && policies[i].key == key;
      assert KeysOf(policies)[i] == key;
    }
  }

  /** The description of the answer determines it. */
  lemma PoliciesUnique(a: seq<Policy>, b: seq<Policy>, ga: Grants, gb: Grants, principal: string, now: nat)
    requires ExactPolicies(a, ga, principal, now) && ExactPolicies(b, gb, principal, now)
    requires forall key, id :: Gives(ga, principal, now, key, id) <==> Gives(gb, principal, now, key, id)
    ensures a == b
  {
    hide Gives, TrimSpace;
    var ka, kb := KeysOf(a), KeysOf(b);
    forall key ensures key in ka <==> key in kb {
      KeysExact(a, ga, principal, now, key);
      KeysExact(b, gb, principal, now, key);
    }
    CapKeyOrder();
    SortedByMembers(CapKeyLe, ka, kb);
    forall i | 0 <= i < |a| ensures a[i] == b[i] {
      assert ka[i] == a[i].key && kb[i] == b[i].key;
      assert ExactPolicy(a[i], ga, principal, now) && ExactPolicy(b[i], gb, principal, now);
      StringOrder();
      forall x ensures x in a[i].grantIds <==> x in b[i].grantIds {
        assert ListedAs(ga, principal, now, a[i].key, x) <==> ListedAs(gb, principal, now, a[i].key, x);
      }
      SortedByMembers(StringLe, a[i].grantIds, b[i].grantIds);
    }
    assert |ka| == |a| && |kb| == |b|;
  }

  /** Two fresh projections of ledgers with the same authority rows answer alike at the same time, whatever
      was done to bundles, to other registry rows or by other workers. */
  lemma AnswerDependsOnLedgerAndClock(s: State, t: State, a: EffectiveAuthority, b: EffectiveAuthority)
    requires Inv(s) && Inv(t) && FreshProjection(s) && FreshProjection(t)
    requires AuthorityRows(s.ledger.rows) == AuthorityRows(t.ledger.rows)
    requires a.principal == b.principal && a.computedAt == b.computedAt
    requires ExactPolicies(a.policies, s.grants, a.principal, a.computedAt)
    requires ExactPolicies(b.policies, t.grants, b.principal, b.computedAt)
    requires ExactActive(a.activeGrants, s.grants, a.principal, a.computedAt)
    requires ExactActive(b.activeGrants, t.grants, b.principal, b.computedAt)
    ensures a == b
  {
    hide Inv, Gives, LedgerGives, ExactPolicies, ExactActive, AuthorityRows;
    assert s.grants == t.grants;
    PoliciesUnique(a.policies, b.policies, s.grants, t.grants, a.principal, a.computedAt);
    ActiveUnique(a.activeGrants, b.activeGrants, s.grants, a.principal, a.computedAt);
  }
}
