/** The permalink index: catalog resources by content hash, and lookup by full hash or prefix.  Hashing is a
    parameter, with 64 lower-case hex digits as values and no collision among the resources ever synced. */
module Permalinks {
  import opened Wrappers
  import opened Text
  import opened Sorting
  import opened Normalize

  /** A catalog resource as it is hashed: its kind and its encoded payload. */
  datatype Resource = Resource(kind: string, payload: string)

  datatype Catalog = Catalog(
    realizations: seq<string>, commands: seq<string>, projections: seq<string>, objects: seq<string>,
    schemas: seq<string>)

  datatype Record = Record(contentHash: string, kind: string, canonicalUrl: string, permalinkUrl: string)

  /** hash: ResourceContentHash; url: the Browse*Path of the resource. */
  datatype Locators = Locators(hash: Resource -> string, url: Resource -> string)

  type Index = map<string, Record>

  const BASE_URL := "https://registry.autosoftware.app"

  predicate IsHexDigit(c: char) {
    '0' <= c <= '9' || 'a' <= c <= 'f'
  }

  predicate IsHash(s: string) {
    |s| == 64 && forall i :: 0 <= i < |s| ==> IsHexDigit(s[i])
  }

  ghost predicate CollisionFree(hash: Resource -> string, known: set<Resource>) {
    && (forall r :: r in known ==> IsHash(hash(r)))
    && (forall a, b :: a in known && b in known && hash(a) == hash(b) ==> a == b)
  }

  function Lower(c: char): char {
    if 'A' <= c <= 'Z' then (c as int + 32) as char else c
  }

  function ToLower(s: string): string {
    seq(|s|, i requires 0 <= i < |s| => Lower(s[i]))
  }

  /** IsSHA256Hex, which also takes upper-case digits. */
  predicate IsSha256Hex(value: string) {
    |TrimSpace(value)| == 64 && forall i :: 0 <= i < |value| ==> IsHexDigit(value[i]) || 'A' <= value[i] <= 'F'
  }

  function PermalinkBrowsePath(contentHash: string): string {
    var h := ToLower(TrimSpace(contentHash));
    if h == "" then "" else BASE_URL + "/reg/" + h
  }

  function RecordOf(at: Locators, r: Resource): Record {
    Record(at.hash(r), r.kind, at.url(r), PermalinkBrowsePath(at.hash(r)))
  }

  function OfKind(kind: string, payloads: seq<string>): seq<Resource> {
    seq(|payloads|, i requires 0 <= i < |payloads| => Resource(kind, payloads[i]))
  }

  /** The order of catalogHashRecords. */
  function Resources(c: Catalog): seq<Resource> {
    OfKind("realization", c.realizations) + OfKind("command", c.commands) + OfKind("projection", c.projections)
    + OfKind("object", c.objects) + OfKind("schema", c.schemas)
  }

  predicate Recorded(at: Locators, r: Resource) {
    !Blank(at.hash(r)) && !Blank(at.url(r))
  }

  function Upsert(at: Locators, index: Index, r: Resource): Index {
    if Recorded(at, r) then index[at.hash(r) := RecordOf(at, r)] else index
  }

  function UpsertAll(at: Locators, index: Index, resources: seq<Resource>): Index {
    if resources == [] then index
    else Upsert(at, UpsertAll(at, index, resources[..|resources| - 1]), resources[|resources| - 1])
  }

  datatype Lookup = Found(record: Record) | NotFound | Ambiguous

  function Normalized(text: string): string {
    ToLower(TrimSpace(text))
  }

  function Resolve(index: Index, contentHash: string): Lookup {
    var h := Normalized(contentHash);
    if IsSha256Hex(h) && h in index then Found(index[h]) else NotFound
  }

  predicate ValidPrefix(p: string) {
    p != "" && |p| <= 64 && forall i :: 0 <= i < |p| ==> IsHexDigit(p[i])
  }

  function Matching(index: Index, p: string): set<string> {
    set h | h in index && p <= h
  }

  /** What a prefix lookup answers: the one matching record, or that there is none or more than one. */
  ghost predicate PrefixAnswer(index: Index, prefix: string, answer: Lookup) {
    var p := Normalized(prefix);
    if !ValidPrefix(p) then answer == NotFound
    else match answer
      case NotFound => forall h :: h in index ==> !(p <= h)
      case Found(record) =>
        exists h :: h in index && p <= h && record == index[h] && forall g :: g in index && p <= g ==> g == h
      case Ambiguous => exists g, h :: g in index && h in index && p <= g && p <= h && g != h
  }

  class RegistryHashIndex {
    const at: Locators
    var index: Index

    constructor (at: Locators)
      ensures this.at == at && index == map[]
    {
      this.at := at;
      index := map[];
    }

    method SyncCatalog(catalog: Catalog)
      modifies this
      ensures index == UpsertAll(at, old(index), Resources(catalog))
    {
      hide PermalinkBrowsePath, Recorded, Resources;
      var resources := Resources(catalog);
      var before := index;
      for i := 0 to |resources|
        invariant index == UpsertAll(at, before, resources[..i])
      {
        assert resources[..i + 1][..i] == resources[..i] && resources[..i + 1][i] == resources[i];
        if Recorded(at, resources[i]) {
          var hash := at.hash(resources[i]);
          index := index[hash := Record(hash, resources[i].kind, at.url(resources[i]), PermalinkBrowsePath(hash))];
        }
      }
      assert resources[..|resources|] == resources;
    }

    method ResolveHash(contentHash: string) returns (answer: Lookup)
      ensures answer == Resolve(index, contentHash)
    {
      var h := Normalized(contentHash);
      if !IsSha256Hex(h) {
        return NotFound;
      }
      return if h in index then Found(index[h]) else NotFound;
    }

    /** Reads at most two matching rows, in hash order. */
    method ResolvePrefix(prefix: string) returns (answer: Lookup)
      ensures PrefixAnswer(index, prefix, answer)
    {
      var p := Normalized(prefix);
      if !ValidPrefix(p) {
        return NotFound;
      }
      hide ValidPrefix, IsHexDigit, Normalized, TotalOrder, Sort;
      var listed := Listed(Matching(index, p));
      StringOrder();
      SortDistinct(StringLe, listed);
      var ordered := Sort(StringLe, listed);
      forall h ensures h in ordered <==> h in Matching(index, p) { SortMembers(StringLe, listed, h); }
      var rows := if |ordered| <= 2 then ordered else ordered[..2];
      forall i | 0 <= i < |rows| ensures rows[i] in Matching(index, p) { assert rows[i] in ordered; }
      if |rows| == 0 {
        assert forall h :: h in index && p <= h ==> h in ordered;
        return NotFound;
      }
      if |rows| == 1 {
        forall g | g in index && p <= g ensures g == rows[0] { assert g in ordered; }
        return Found(index[rows[0]]);
      }
      assert rows[0] != rows[1];
      return Ambiguous;
    }
  }

  /** The answer to a prefix is determined. */
  lemma PrefixAnswerUnique(index: Index, prefix: string, a: Lookup, b: Lookup)
    requires PrefixAnswer(index, prefix, a) && PrefixAnswer(index, prefix, b)
    ensures a == b
  {
    hide ValidPrefix, Normalized;
  }

  // ----- Histories of syncs -----

  ghost function IndexAfter(at: Locators, syncs: seq<Catalog>): Index {
    if syncs == [] then map[]
    else UpsertAll(at, IndexAfter(at, syncs[..|syncs| - 1]), Resources(syncs[|syncs| - 1]))
  }

  /** Every resource that occurs in some sync. */
  ghost function Known(syncs: seq<Catalog>): set<Resource> {
    set k, r | 0 <= k < |syncs| && r in Resources(syncs[k]) :: r
  }

  /** Every stored record is that of a known resource, under its hash. */
  ghost predicate IndexSound(at: Locators, index: Index, known: set<Resource>) {
    forall h :: h in index ==>
      exists r :: r in known && Recorded(at, r) && at.hash(r) == h && index[h] == RecordOf(at, r)
  }

  /** later keeps every record of index as it is. */
  ghost predicate Keeps(index: Index, later: Index) {
    forall h :: h in index ==> h in later && later[h] == index[h]
  }

  lemma {:induction false} UpsertsKeep(at: Locators, index: Index, resources: seq<Resource>, known: set<Resource>)
    requires CollisionFree(at.hash, known) && IndexSound(at, index, known)
    requires forall i :: 0 <= i < |resources| ==> resources[i] in known
    ensures IndexSound(at, UpsertAll(at, index, resources), known) && Keeps(index, UpsertAll(at, index, resources))
    ensures forall i :: 0 <= i < |resources| && Recorded(at, resources[i]) ==>
              at.hash(resources[i]) in UpsertAll(at, index, resources)
  {
    hide Recorded, RecordOf, IsHash;
    if resources != [] {
      var n := |resources| - 1;
      UpsertsKeep(at, index, resources[..n], known);
      var middle := UpsertAll(at, index, resources[..n]);
      assert Keeps(middle, UpsertAll(at, index, resources));
      forall i | 0 <= i < n && Recorded(at, resources[i]) ensures at.hash(resources[i]) in middle {
        assert resources[..n][i] == resources[i];
      }
    }
  }

  lemma {:induction false} SyncsKeep(at: Locators, syncs: seq<Catalog>, k: nat, known: set<Resource>)
    requires CollisionFree(at.hash, known) && Known(syncs) <= known && k <= |syncs|
    ensures IndexSound(at, IndexAfter(at, syncs), known) && Keeps(IndexAfter(at, syncs[..k]), IndexAfter(at, syncs))
  {
    hide Resources, UpsertAll, CollisionFree;
    if syncs == [] {
      assert syncs[..k] == [];
    } else {
      var n := |syncs| - 1;
      KnownPrefix(syncs, n);
      if k <= n {
        SyncsKeep(at, syncs[..n], k, known);
        assert syncs[..n][..k] == syncs[..k];
      } else {
        SyncsKeep(at, syncs[..n], n, known);
        assert syncs[..k] == syncs;
      }
      UpsertsKeep(at, IndexAfter(at, syncs[..n]), Resources(syncs[n]), known);
    }
  }

  lemma KnownPrefix(syncs: seq<Catalog>, n: nat)
    requires n <= |syncs|
    ensures Known(syncs[..n]) <= Known(syncs)
    ensures forall k, r :: 0 <= k < |syncs| && r in Resources(syncs[k]) ==> r in Known(syncs)
  {
    hide Resources;
    forall r | r in Known(syncs[..n]) ensures r in Known(syncs) {
      var k :| 0 <= k < n && r in Resources(syncs[..n][k]);
      assert r in Resources(syncs[k]);
    }
  }

  lemma HashNormal(s: string)
    requires IsHash(s)
    ensures Normalized(s) == s && IsSha256Hex(s) && ValidPrefix(s)
  {
    assert IsHexDigit(s[0]) && IsHexDigit(s[63]);
    TrimSpaceFixpoint(s);
    hide TrimSpace;
    forall i | 0 <= i < |s| ensures Lower(s[i]) == s[i] { assert IsHexDigit(s[i]); }
  }

  lemma HashSpellsItself(h: string)
    requires IsHash(h)
    ensures Spells(h, h)
  {
    assert IsHexDigit(h[0]) && IsHexDigit(h[63]);
    TrimSpaceFixpoint(h);
    hide TrimSpace;
  }

  /** The record is the resource's own: its hash, its kind, its page, and the permalink its hash makes. */
  ghost predicate Locates(record: Record, at: Locators, r: Resource) {
    && record.contentHash == at.hash(r) && record.kind == r.kind && record.canonicalUrl == at.url(r)
    && record.permalinkUrl == "https://registry.autosoftware.app" + "/reg/" + at.hash(r)
  }

  lemma RecordLocates(at: Locators, r: Resource)
    requires IsHash(at.hash(r))
    ensures Locates(RecordOf(at, r), at, r)
  {
    HashNormal(at.hash(r));
    hide TrimSpace, ToLower;
  }

  /** The catalog lists the payload under its kind, and the resource has a page of its own. */
  predicate Holds(c: Catalog, at: Locators, r: Resource) {
    && TrimSpace(at.url(r)) != ""
    && (|| (r.kind == "realization" && r.payload in c.realizations)
        || (r.kind == "command" && r.payload in c.commands)
        || (r.kind == "projection" && r.payload in c.projections)
        || (r.kind == "object" && r.payload in c.objects)
        || (r.kind == "schema" && r.payload in c.schemas))
  }

  lemma OfKindIff(kind: string, payloads: seq<string>, r: Resource)
    ensures r in OfKind(kind, payloads) <==> r.kind == kind && r.payload in payloads
  {
    var all := OfKind(kind, payloads);
    if r in all {
      var i :| 0 <= i < |all| && all[i] == r;
    }
    if r.kind == kind && r.payload in payloads {
      var i :| 0 <= i < |payloads| && payloads[i] == r.payload;
      assert all[i] == r;
    }
  }

  lemma HeldIsResource(c: Catalog, at: Locators, r: Resource)
    requires Holds(c, at, r)
    ensures r in Resources(c)
  {
    OfKindIff("realization", c.realizations, r);
    OfKindIff("command", c.commands, r);
    OfKindIff("projection", c.projections, r);
    OfKindIff("object", c.objects, r);
    OfKindIff("schema", c.schemas, r);
    hide OfKind, TrimSpace;
  }

  lemma HoldsIff(c: Catalog, at: Locators, r: Resource)
    requires IsHash(at.hash(r))
    ensures Holds(c, at, r) <==> r in Resources(c) && Recorded(at, r)
  {
    HashNormal(at.hash(r));
    OfKindIff("realization", c.realizations, r);
    OfKindIff("command", c.commands, r);
    OfKindIff("projection", c.projections, r);
    OfKindIff("object", c.objects, r);
    OfKindIff("schema", c.schemas, r);
    hide OfKind, TrimSpace;
  }

  /** The text spells the hash: surrounding spaces and upper-case digits do not count. */
  predicate Spells(text: string, hash: string) {
    var t := TrimSpace(text);
    |t| == |hash| && forall i :: 0 <= i < |t| ==>
      t[i] == hash[i] || ('a' <= hash[i] <= 'f' && t[i] as int + 32 == hash[i] as int)
  }

  lemma SpelledIsNormal(text: string, hash: string)
    requires IsHash(hash) && Spells(text, hash)
    ensures Normalized(text) == hash
  {
    hide TrimSpace;
    var t := TrimSpace(text);
    forall i | 0 <= i < |t|
      ensures Lower(t[i]) == hash[i]
    {
      assert IsHexDigit(hash[i]);
    }
    assert ToLower(t) == hash;
  }

  /** Every resource with a page that was ever synced resolves by its hash, however spelled, to its own URLs, after
      any later syncs. */
  lemma ResolvesForever(at: Locators, syncs: seq<Catalog>, k: nat, r: Resource, text: string)
    requires CollisionFree(at.hash, Known(syncs)) && k < |syncs| && Holds(syncs[k], at, r)
    requires Spells(text, at.hash(r))
    ensures var answer := Resolve(IndexAfter(at, syncs), text);
            answer.Found? && answer.record == RecordOf(at, r) && Locates(answer.record, at, r)
  {
    HeldIsResource(syncs[k], at, r);
    KnownPrefix(syncs, k);
    HoldsIff(syncs[k], at, r);
    SpelledIsNormal(text, at.hash(r));
    RecordLocates(at, r);
    hide Locates, Normalized, Spells, Holds;
    hide Resources, Recorded, RecordOf, IsHash;
    var known := Known(syncs);
    assert at.hash(r) in IndexAfter(at, syncs[..k + 1]) by {
      var upTo := syncs[..k + 1];
      SyncsKeep(at, syncs[..k], 0, known);
      assert upTo[..k] == syncs[..k] && upTo[|upTo| - 1] == syncs[k];
      UpsertsKeep(at, IndexAfter(at, syncs[..k]), Resources(syncs[k]), known);
      var i :| 0 <= i < |Resources(syncs[k])| && Resources(syncs[k])[i] == r;
    }
    SyncsKeep(at, syncs, k + 1, known);
    HashNormal(at.hash(r));
  }

  /** A prefix that once found a record later finds the same record or is ambiguous; once ambiguous it stays
      ambiguous. */
  lemma PrefixStable(at: Locators, syncs: seq<Catalog>, k: nat, prefix: string, before: Lookup, now: Lookup)
    requires CollisionFree(at.hash, Known(syncs)) && k <= |syncs|
    requires PrefixAnswer(IndexAfter(at, syncs[..k]), prefix, before)
             && PrefixAnswer(IndexAfter(at, syncs), prefix, now)
    ensures before.Found? ==> now == before || now == Ambiguous
    ensures before == Ambiguous ==> now == Ambiguous
  {
    hide CollisionFree, Normalized, ValidPrefix;
    SyncsKeep(at, syncs, k, Known(syncs));
  }

  /** And whatever resolves is a resource of some sync that has a page, found under its own hash. */
  lemma ResolvedIsSynced(at: Locators, syncs: seq<Catalog>, text: string) returns (k: nat, r: Resource)
    requires CollisionFree(at.hash, Known(syncs)) && Resolve(IndexAfter(at, syncs), text).Found?
    ensures k < |syncs| && Holds(syncs[k], at, r) && at.hash(r) == Normalized(text)
    ensures Locates(Resolve(IndexAfter(at, syncs), text).record, at, r)
  {
    var h := Normalized(text);
    hide Resources, Recorded, RecordOf, Locates, IsHash, Normalized, IsSha256Hex, Holds;
    SyncsKeep(at, syncs, 0, Known(syncs));
    r :| r in Known(syncs) && Recorded(at, r) && at.hash(r) == h && IndexAfter(at, syncs)[h] == RecordOf(at, r);
    k :| 0 <= k < |syncs| && r in Resources(syncs[k]);
    HoldsIff(syncs[k], at, r);
    RecordLocates(at, r);
  }

  /** A full hash used as a prefix is never ambiguous: it finds its own record. */
  lemma FullHashIsUnambiguous(at: Locators, syncs: seq<Catalog>, k: nat, r: Resource, answer: Lookup)
    requires CollisionFree(at.hash, Known(syncs)) && k < |syncs| && Holds(syncs[k], at, r)
    requires PrefixAnswer(IndexAfter(at, syncs), at.hash(r), answer)
    ensures answer.Found? && Locates(answer.record, at, r)
  {
    HeldIsResource(syncs[k], at, r);
    KnownPrefix(syncs, 0);
    HashSpellsItself(at.hash(r));
    hide Resources, Recorded, RecordOf, Locates, Spells, Holds;
    ResolvesForever(at, syncs, k, r, at.hash(r));
    HashNormal(at.hash(r));
    SyncsKeep(at, syncs, 0, Known(syncs));
    var index := IndexAfter(at, syncs);
    forall h | h in index && at.hash(r) <= h ensures h == at.hash(r) {
      var other :| other in Known(syncs) && Recorded(at, other) && at.hash(other) == h
          && index[h] == RecordOf(at, other);
      assert IsHash(h) && IsHash(at.hash(r));
    }
  }
}
