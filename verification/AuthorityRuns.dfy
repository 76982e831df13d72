/** The authority ledger and its projection as a concurrent system.

    Every transaction or statement is one atomic step; any number of workers interleave.  A rebuild is a series
    of page reads followed by one commit that clears and refills the grants table, so appends may fall between
    the pages and before the commit.  A create first drafts its grant from the projection as it is, and
    appends it later.  The staleness check counts the grants table and then pages through the registry. */
module AuthorityRuns {
  import opened Wrappers
  import opened Text
  import opened AuthorityTypes
  import opened Registry
  import opened Paging
  import opened Replay
  import opened GrantDraft
  import opened AuthorityLedger
  import opened Effective

  datatype Session =
    | Reading(after: nat, filtered: seq<Row>)
    | ReadDone(filtered: seq<Row>)
    | Drafted(draft: Draft)
    | Counting(observed: Grants, after: nat, counted: nat)
    | Counted(observed: Grants, needed: bool)

  datatype State = State(ledger: Ledger, grants: Grants, bundles: Bundles, sessions: map<nat, Session>)

  datatype Event =
    | Append(input: AppendInput, freshId: string, now: nat)
    | EditBundle(bundle: Bundle)
    | BeginRead(p: nat)
    | ReadPage(p: nat, limit: nat)
    | CommitRebuild(p: nat)
    | DraftGrant(p: nat, request: GrantInput, freshId: string, now: nat)
    | AppendDraft(p: nat, now: nat)
    | BeginCheck(p: nat)
    | CheckPage(p: nat, limit: nat)

  const INIT := State(EMPTY_LEDGER, map[], map[], map[])

  /** What the environment may ask: other appends bring no authority rows, ids drawn are not blank. */
  predicate Allowed(e: Event) {
    match e
    case Append(input, _, _) => NoGrantInput(input.rows)
    case ReadPage(_, limit) => limit > 0
    case CheckPage(_, limit) => limit > 0
    case DraftGrant(_, _, freshId, _) => !Blank(freshId)
    case _ => true
  }

  ghost function LedgerAfter(l: Ledger, input: AppendInput, freshId: string, now: nat): Ledger {
    if IndexExact(l) then Registry.Append(l, input, freshId, now).0 else l
  }

  /** A rebuild reads its next page, or finds that there is none. */
  function ReadNext(rows: seq<Row>, x: Session, limit: nat): Session
    requires x.Reading?
  {
    var page := Page(rows, AUTHORITY, x.after, limit);
    if page == [] then ReadDone(x.filtered) else Reading(page[|page| - 1].rowId, x.filtered + GrantRows(page))
  }

  /** A staleness check counts its next page, or compares the counts. */
  function CheckNext(rows: seq<Row>, x: Session, limit: nat): Session
    requires x.Counting?
  {
    var page := Page(rows, AUTHORITY, x.after, limit);
    if page == [] then Counted(x.observed, |x.observed| != x.counted)
    else Counting(x.observed, page[|page| - 1].rowId, x.counted + |GrantRows(page)|)
  }

  ghost function Step(s: State, e: Event): State {
    match e
    case Append(input, freshId, now) => s.(ledger := LedgerAfter(s.ledger, input, freshId, now))
    case EditBundle(bundle) => s.(bundles := s.bundles[bundle.bundleId := bundle])
    case BeginRead(p) => s.(sessions := s.sessions[p := Reading(0, [])])
    case ReadPage(p, limit) =>
      if p in s.sessions && s.sessions[p].Reading? then
        s.(sessions := s.sessions[p := ReadNext(s.ledger.rows, s.sessions[p], limit)])
      else s
    case CommitRebuild(p) =>
      if p in s.sessions && s.sessions[p].ReadDone? && AllDecodable(s.sessions[p].filtered) then
        var filtered := s.sessions[p].filtered;
        State(s.ledger, GrantsOf(filtered), BundlesOf(filtered, s.bundles), s.sessions - {p})
      else s
    case DraftGrant(p, input, freshId, now) =>
      var decision := Decide(s.grants, s.bundles, input, freshId, now);
      if decision.Ok? then s.(sessions := s.sessions[p := Drafted(decision.value)]) else s
    case AppendDraft(p, now) =>
      if p in s.sessions && s.sessions[p].Drafted? then
        s.(ledger := LedgerAfter(s.ledger, GrantAppend(s.sessions[p].draft), "", now), sessions := s.sessions - {p})
      else s
    case BeginCheck(p) => s.(sessions := s.sessions[p := Counting(s.grants, 0, 0)])
    case CheckPage(p, limit) =>
      if p in s.sessions && s.sessions[p].Counting? then
        s.(sessions := s.sessions[p := CheckNext(s.ledger.rows, s.sessions[p], limit)])
      else s
  }

  ghost function Run(s: State, events: seq<Event>): State
    decreases |events|
  {
    if events == [] then s else Run(Step(s, events[0]), events[1..])
  }

  predicate AllAllowed(events: seq<Event>) {
    forall i :: 0 <= i < |events| ==> Allowed(events[i])
  }

  // ----- The invariant -----

  /** The table is the replay of some prefix of the authority rows. */
  ghost predicate PrefixReplay(grants: Grants, rows: seq<Row>)
    requires AllDecodable(rows)
  {
    exists n :: 0 <= n <= |rows| && grants == GrantsOf(rows[..n])
  }

  ghost predicate SessionValid(l: Ledger, x: Session)
    requires LedgerValid(l)
  {
    match x
    case Reading(after, filtered) => after < l.nextRowId && filtered == AuthorityUntil(l.rows, after)
    case ReadDone(filtered) => filtered <= AuthorityRows(l.rows)
    case Drafted(d) =>
      && PayloadError(GrantPayload(d.grant, d.bundle)).None? && d.grant.supersedes == TrimSpace(d.grant.supersedes)
      && (d.grant.supersedes != "" ==>
            NamedBefore(d.grant.supersedes, AuthorityRows(l.rows), |AuthorityRows(l.rows)|))
    case Counting(observed, after, counted) =>
      after < l.nextRowId && counted == |AuthorityUntil(l.rows, after)| && PrefixReplay(observed, AuthorityRows(l.rows))
    case Counted(observed, _) => PrefixReplay(observed, AuthorityRows(l.rows))
  }

  ghost predicate Inv(s: State) {
    && LedgerValid(s.ledger)
    && PrefixReplay(s.grants, AuthorityRows(s.ledger.rows))
    && (forall p :: p in s.sessions ==> SessionValid(s.ledger, s.sessions[p]))
  }

  /** The projection shows the whole ledger. */
  ghost predicate FreshProjection(s: State)
    requires Inv(s)
  {
    s.grants == GrantsOf(AuthorityRows(s.ledger.rows))
  }

  // ----- Growth of the ledger keeps what sessions know -----

  lemma PrefixReplayGrows(grants: Grants, rows: seq<Row>, more: seq<Row>)
    requires AllDecodable(rows) && AllDecodable(more) && rows <= more && PrefixReplay(grants, rows)
    ensures PrefixReplay(grants, more)
  {
    var n :| 0 <= n <= |rows| && grants == GrantsOf(rows[..n]);
    assert more[..n] == rows[..n];
  }

  lemma NamedBeforeGrows(id: string, rows: seq<Row>, more: seq<Row>)
    requires AllDecodable(rows) && AllDecodable(more) && rows <= more && NamedBefore(id, rows, |rows|)
    ensures NamedBefore(id, more, |more|)
  {
    var j :| 0 <= j < |rows| && GrantId(rows[j]) == id;
    assert GrantId(more[j]) == id;
  }

  lemma SessionGrows(l: Ledger, l': Ledger, x: Session)
    requires LedgerValid(l) && LedgerValid(l') && Extends(l, l') && SessionValid(l, x)
    ensures SessionValid(l', x)
  {
    hide PayloadError, GrantsOf, TrimSpace, NamedBefore, PrefixReplay, LedgerValid;
    assert AllDecodable(AuthorityRows(l.rows)) && AllDecodable(AuthorityRows(l'.rows)) by {
      LedgerDecodes(l);
      LedgerDecodes(l');
    }
    AuthorityRowsGrow(l.rows, l'.rows);
    match x {
      case Reading(after, _) => UntilStable(l.rows, l'.rows, AUTHORITY, after);
      case ReadDone(_) =>
      case Drafted(d) =>
        if d.grant.supersedes != "" {
          NamedBeforeGrows(d.grant.supersedes, AuthorityRows(l.rows), AuthorityRows(l'.rows));
        }
      case Counting(observed, after, _) =>
        UntilStable(l.rows, l'.rows, AUTHORITY, after);
        PrefixReplayGrows(observed, AuthorityRows(l.rows), AuthorityRows(l'.rows));
      case Counted(observed, _) => PrefixReplayGrows(observed, AuthorityRows(l.rows), AuthorityRows(l'.rows));
    }
  }

  lemma LedgerDecodes(l: Ledger)
    requires LedgerValid(l)
    ensures AllDecodable(AuthorityRows(l.rows)) && Increasing(l.rows) && IndexExact(l)
    ensures forall i :: 0 <= i < |l.rows| ==> l.rows[i].rowId < l.nextRowId
  {}

  lemma RowsDistinct(l: Ledger)
    requires LedgerValid(l)
    ensures DistinctIds(AuthorityRows(l.rows)) && SupersedesEarlier(AuthorityRows(l.rows))
  {}

  lemma PrefixDistinct(rows: seq<Row>, n: nat)
    requires AllDecodable(rows) && DistinctIds(rows) && n <= |rows|
    ensures AllDecodable(rows[..n]) && DistinctIds(rows[..n])
  {
    hide Decodable;
  }

  lemma LedgerStep(s: State, l': Ledger, sessions: map<nat, Session>)
    requires Inv(s) && LedgerValid(l') && Extends(s.ledger, l')
    requires forall p :: p in sessions ==> p in s.sessions && sessions[p] == s.sessions[p]
    ensures Inv(s.(ledger := l', sessions := sessions))
  {
    hide SessionValid, LedgerValid, PrefixReplay;
    LedgerDecodes(s.ledger);
    LedgerDecodes(l');
    AuthorityRowsGrow(s.ledger.rows, l'.rows);
    PrefixReplayGrows(s.grants, AuthorityRows(s.ledger.rows), AuthorityRows(l'.rows));
    forall p | p in sessions ensures SessionValid(l', sessions[p]) {
      SessionGrows(s.ledger, l', s.sessions[p]);
    }
  }

  // ----- Reading pages -----

  /** One page of authority rows, as seen from a valid ledger. */
  lemma PageStep(l: Ledger, after: nat, limit: nat)
    requires LedgerValid(l) && limit > 0
    ensures var page := Page(l.rows, AUTHORITY, after, limit);
            && (page == [] ==> AuthorityUntil(l.rows, after) == AuthorityRows(l.rows))
            && (page != [] ==> page[|page| - 1].rowId < l.nextRowId)
            && (page != [] ==>
                  AuthorityUntil(l.rows, page[|page| - 1].rowId) == AuthorityUntil(l.rows, after) + GrantRows(page))
  {
    hide LedgerValid;
    LedgerDecodes(l);
    AuthorityPage(l.rows, after, limit);
    PageMembers(l.rows, AUTHORITY, after, limit);
    var page := Page(l.rows, AUTHORITY, after, limit);
    if page != [] {
      assert page[|page| - 1] in l.rows;
    }
  }

  lemma ReadNextValid(l: Ledger, x: Session, limit: nat)
    requires LedgerValid(l) && limit > 0 && x.Reading? && SessionValid(l, x)
    ensures var next := ReadNext(l.rows, x, limit);
            SessionValid(l, next) && (next.ReadDone? ==> next.filtered == AuthorityRows(l.rows))
  {
    hide LedgerValid, PrefixReplay, Page, AuthorityRows, AuthorityUntil;
    PageStep(l, x.after, limit);
  }

  /** A finished check asks for a rebuild iff the table it counted was not the replay of all these rows. */
  ghost predicate VerdictExact(rows: seq<Row>, x: Session) {
    && AllDecodable(AuthorityRows(rows))
    && (x.Counted? ==> (x.needed <==> x.observed != GrantsOf(AuthorityRows(rows))))
  }

  lemma CheckNextValid(l: Ledger, x: Session, limit: nat)
    requires LedgerValid(l) && limit > 0 && x.Counting? && SessionValid(l, x)
    ensures var next := CheckNext(l.rows, x, limit);
            SessionValid(l, next) && VerdictExact(l.rows, next)
  {
    hide LedgerValid, PrefixReplay, GrantsOf, Page, AuthorityRows, AuthorityUntil, AllDecodable;
    PageStep(l, x.after, limit);
    LedgerDecodes(l);
    CountDecides(l, x.observed);
  }

  /** A rebuild's reads, whatever was appended between them, end with exactly the authority rows of the
      ledger at the moment of the last read. */
  lemma ReadPageKeeps(s: State, p: nat, limit: nat)
    requires Inv(s) && limit > 0 && p in s.sessions && s.sessions[p].Reading?
    ensures Inv(Step(s, ReadPage(p, limit)))
    ensures var after := Step(s, ReadPage(p, limit)).sessions;
            p in after && (after[p].ReadDone? ==> after[p].filtered == AuthorityRows(s.ledger.rows))
  {
    hide LedgerValid, PrefixReplay, ReadNext, SessionValid, AuthorityRows;
    ReadNextValid(s.ledger, s.sessions[p], limit);
  }

  /** A check that finds the counts equal has counted a table that was the replay of the whole ledger, as the
      ledger stands when the check ends. */
  lemma CheckPageKeeps(s: State, p: nat, limit: nat)
    requires Inv(s) && limit > 0 && p in s.sessions && s.sessions[p].Counting?
    ensures Inv(Step(s, CheckPage(p, limit)))
    ensures var after := Step(s, CheckPage(p, limit)).sessions;
            p in after && VerdictExact(s.ledger.rows, after[p])
  {
    hide LedgerValid, PrefixReplay, CheckNext, SessionValid, VerdictExact;
    CheckNextValid(s.ledger, s.sessions[p], limit);
  }

  /** A replayed prefix of rows with distinct ids has one grant per row. */
  lemma PrefixSize(rows: seq<Row>, n: nat)
    requires AllDecodable(rows) && DistinctIds(rows) && n <= |rows|
    ensures AllDecodable(rows[..n]) && |GrantsOf(rows[..n])| == n
  {
    hide Decodable, GrantsOf;
    PrefixDistinct(rows, n);
    TableOfDistinctRows(rows[..n]);
  }

  /** Equal counts never hide staleness: a prefix replay with as many grants as the ledger has authority rows
      is the replay of all of them. */
  lemma CountDecides(l: Ledger, grants: Grants)
    requires LedgerValid(l) && PrefixReplay(grants, AuthorityRows(l.rows))
    ensures |grants| == |AuthorityRows(l.rows)| <==> grants == GrantsOf(AuthorityRows(l.rows))
  {
    hide LedgerValid, Decodable, DistinctIds, AuthorityRows, GrantsOf;
    LedgerDecodes(l);
    RowsDistinct(l);
    var rows := AuthorityRows(l.rows);
    var n :| 0 <= n <= |rows| && grants == GrantsOf(rows[..n]);
    PrefixSize(rows, n);
    PrefixSize(rows, |rows|);
    assert rows[..|rows|] == rows;
  }

  // ----- Drafts -----

  lemma DraftKeeps(s: State, p: nat, input: GrantInput, freshId: string, now: nat)
    requires Inv(s) && !Blank(freshId) && Decide(s.grants, s.bundles, input, freshId, now).Ok?
    ensures SessionValid(s.ledger, Drafted(Decide(s.grants, s.bundles, input, freshId, now).value))
  {
    DraftReplays(s.grants, s.bundles, input, freshId, now);
    var d := Decide(s.grants, s.bundles, input, freshId, now).value;
    hide Decide, PayloadError, TrimSpace;
    if d.grant.supersedes != "" {
      TableIdsNamed(s.ledger, s.grants, d.grant.supersedes);
    }
  }

  lemma PrefixNames(rows: seq<Row>, n: nat, id: string)
    requires AllDecodable(rows) && n <= |rows|
    requires AllDecodable(rows[..n]) && id in GrantsOf(rows[..n])
    ensures NamedBefore(id, rows, |rows|)
  {
    hide Decodable, GrantsOf;
    var i := TableIdNamed(rows[..n], id);
    assert GrantId(rows[i]) == id;
  }

  /** Every id in the table is the id of an authority row. */
  lemma TableIdsNamed(l: Ledger, grants: Grants, id: string)
    requires LedgerValid(l) && PrefixReplay(grants, AuthorityRows(l.rows)) && id in grants
    ensures NamedBefore(id, AuthorityRows(l.rows), |AuthorityRows(l.rows)|)
  {
    hide LedgerValid, Decodable, DistinctIds, AuthorityRows, GrantsOf, NamedBefore;
    LedgerDecodes(l);
    RowsDistinct(l);
    var rows := AuthorityRows(l.rows);
    var n :| 0 <= n <= |rows| && grants == GrantsOf(rows[..n]);
    PrefixNames(rows, n, id);
  }

  // ----- Every step, every run -----

  lemma StepKeeps(s: State, e: Event)
    requires Inv(s) && Allowed(e)
    ensures Inv(Step(s, e))
    ensures Extends(s.ledger, Step(s, e).ledger)
  {
    hide LedgerValid, PrefixReplay, SessionValid, NoGrantInput, Decide, Registry.Append, GrantsOf, BundlesOf, Extends,
         AllDecodable, Page, Blank;
    LedgerDecodes(s.ledger);
    ExtendsItself(s.ledger);
    match e {
      case Append(input, freshId, now) =>
        OtherAppendKeeps(s.ledger, input, freshId, now);
        LedgerStep(s, LedgerAfter(s.ledger, input, freshId, now), s.sessions);
      case EditBundle(_) =>
      case BeginRead(p) => BeginSession(s.ledger, s.grants);
      case ReadPage(p, limit) =>
        if p in s.sessions && s.sessions[p].Reading? { ReadPageKeeps(s, p, limit); }
      case CommitRebuild(p) =>
        if p in s.sessions && s.sessions[p].ReadDone? { CommitKeeps(s, p); }
      case DraftGrant(p, input, freshId, now) =>
        if Decide(s.grants, s.bundles, input, freshId, now).Ok? { DraftKeeps(s, p, input, freshId, now); }
      case AppendDraft(p, now) =>
        if p in s.sessions && s.sessions[p].Drafted? {
          AppendDraftKeeps(s, p, now);
        }
      case BeginCheck(p) => BeginSession(s.ledger, s.grants);
      case CheckPage(p, limit) =>
        if p in s.sessions && s.sessions[p].Counting? { CheckPageKeeps(s, p, limit); }
    }
  }

  lemma ExtendsItself(l: Ledger)
    ensures Extends(l, l)
  {}

  lemma BeginSession(l: Ledger, grants: Grants)
    requires LedgerValid(l) && PrefixReplay(grants, AuthorityRows(l.rows))
    ensures SessionValid(l, Reading(0, [])) && SessionValid(l, Counting(grants, 0, 0))
  {
    hide PrefixReplay, AuthorityRowsWellFormed, AllDecodable, DistinctIds, SupersedesEarlier;
    UntilNone(l.rows, AUTHORITY, 0);
  }

  lemma AppendDraftKeeps(s: State, p: nat, now: nat)
    requires Inv(s) && p in s.sessions && s.sessions[p].Drafted?
    ensures Inv(Step(s, AppendDraft(p, now))) && Extends(s.ledger, Step(s, AppendDraft(p, now)).ledger)
  {
    hide LedgerValid, PrefixReplay, Registry.Append, PayloadError, TrimSpace, AuthorityRows, AllDecodable, NamedBefore,
         GrantAppend, Extends;
    LedgerDecodes(s.ledger);
    var d := s.sessions[p].draft;
    assert SessionValid(s.ledger, s.sessions[p]);
    GrantAppendKeeps(s.ledger, d, "", now);
    LedgerStep(s, LedgerAfter(s.ledger, GrantAppend(d), "", now), s.sessions - {p});
  }

  /** A commit always applies, and leaves the replay of what its session read. */
  lemma CommitKeeps(s: State, p: nat)
    requires Inv(s) && p in s.sessions && s.sessions[p].ReadDone?
    ensures AllDecodable(s.sessions[p].filtered)
    ensures Inv(Step(s, CommitRebuild(p))) && Step(s, CommitRebuild(p)).ledger == s.ledger
    ensures Step(s, CommitRebuild(p)).grants == GrantsOf(s.sessions[p].filtered)
  {
    hide LedgerValid, Decodable, GrantsOf, BundlesOf;
    LedgerDecodes(s.ledger);
    var filtered, rows := s.sessions[p].filtered, AuthorityRows(s.ledger.rows);
    assert SessionValid(s.ledger, s.sessions[p]);
    assert rows[..|filtered|] == filtered;
    assert forall i :: 0 <= i < |filtered| ==> filtered[i] == rows[i];
  }

  lemma InitInv()
    ensures Inv(INIT)
  {
    assert AuthorityRows([]) == [];
    assert GrantsOf([]) == map[];
    var none: seq<Row> := [];
    assert none[..0] == none;
    assert PrefixReplay(map[], none);
  }

  /** Over every interleaving: the table is the replay of a prefix of the ledger, supersession points strictly
      back, and every session's knowledge is sound. */
  lemma {:induction false} RunKeeps(s: State, events: seq<Event>)
    requires Inv(s) && AllAllowed(events)
    ensures Inv(Run(s, events)) && Extends(s.ledger, Run(s, events).ledger)
    decreases |events|
  {
    hide Inv, Allowed, Step, Extends;
    if events == [] {
      ExtendsItself(s.ledger);
    } else {
      assert Allowed(events[0]);
      var s1 := Step(s, events[0]);
      StepKeeps(s, events[0]);
      forall i | 0 <= i < |events[1..]| ensures Allowed(events[1..][i]) { assert events[1..][i] == events[i + 1]; }
      RunKeeps(s1, events[1..]);
      ExtendsTransitive(s.ledger, s1.ledger, Run(s1, events[1..]).ledger);
    }
  }

  lemma EveryRun(events: seq<Event>)
    requires AllAllowed(events)
    ensures Inv(Run(INIT, events))
  {
    InitInv();
    RunKeeps(INIT, events);
  }
}
