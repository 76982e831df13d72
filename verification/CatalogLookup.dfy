/** The flattened catalog and the lookups over it: sort.Slice may leave entries of equal rank in any order, so
    what holds is proved of every flattening of an index. */
module CatalogLookup {
  import opened Wrappers
  import opened Text
  import opened Sorting
  import opened Normalize
  import opened ContractTypes
  import opened WellFormed
  import opened Catalog
  import opened CatalogTheorems

  // ----- The orders of the flattened lists -----

  datatype Rank = Rank(first: string, second: string)

  /** First part descending, second part ascending. */
  predicate RankLe(a: Rank, b: Rank) {
    if a.first == b.first then StringLe(a.second, b.second) else StringLe(b.first, a.first)
  }

  function ByRank<T>(rank: T -> Rank): (T, T) -> bool {
    (a: T, b: T) => RankLe(rank(a), rank(b))
  }

  lemma RankOrder(a: Rank, b: Rank, c: Rank)
    ensures RankLe(a, b) || RankLe(b, a)
    ensures RankLe(a, b) && RankLe(b, c) ==> RankLe(a, c)
  {
    StringOrder();
    hide StringLe;
  }

  lemma ByRankRanks<T(!new)>(rank: T -> Rank)
    ensures Ranking(ByRank(rank))
  {
    hide RankLe;
    forall a, b ensures ByRank(rank)(a, b) || ByRank(rank)(b, a) { RankOrder(rank(a), rank(b), rank(a)); }
    forall a, b, c | ByRank(rank)(a, b) && ByRank(rank)(b, c) ensures ByRank(rank)(a, c) {
      RankOrder(rank(a), rank(b), rank(c));
    }
  }

  /** What sort.Slice may make of a list. */
  ghost predicate Arrangement<T(!new)>(rank: T -> Rank, items: seq<T>, out: seq<T>) {
    multiset(out) == multiset(items) && Sorted(ByRank(rank), out)
  }

  function Arranged<T>(rank: T -> Rank, items: seq<T>): seq<T> {
    Sort(ByRank(rank), items)
  }

  lemma ArrangedIs<T(!new)>(rank: T -> Rank, items: seq<T>)
    ensures Arrangement(rank, items, Arranged(rank, items))
  {
    ByRankRanks(rank);
    SortCorrect(ByRank(rank), items);
  }

  lemma ArrangementMembers<T(!new)>(rank: T -> Rank, items: seq<T>, out: seq<T>)
    requires Arrangement(rank, items, out)
    ensures forall x :: x in out <==> x in items
  {
    forall x ensures x in out <==> x in items {
      assert x in out <==> x in multiset(out);
      assert x in items <==> x in multiset(items);
    }
  }

  function CommandRank(): CommandEntry -> Rank { (c: CommandEntry) => Rank(c.reference, c.name) }
  function ProjectionRank(): ProjectionEntry -> Rank { (q: ProjectionEntry) => Rank(q.reference, q.name) }
  function RealizationRank(): Realization -> Rank { (r: Realization) => Rank(r.reference, "") }
  function ObjectUseRank(): ObjectUse -> Rank { (x: ObjectUse) => Rank(x.reference, x.kind) }
  function CommandUseRank(): CommandUse -> Rank { (x: CommandUse) => Rank(x.reference, x.name) }
  function ObjectRank(): ObjectEntry -> Rank { (o: ObjectEntry) => Rank(o.seedId, o.kind) }
  function SchemaRank(): SchemaEntry -> Rank { (x: SchemaEntry) => Rank(x.ref, "") }

  // ----- The flattened catalog -----

  datatype Listing = Listing(
    commands: seq<CommandEntry>, projections: seq<ProjectionEntry>, objects: seq<ObjectEntry>,
    schemas: seq<SchemaEntry>)

  /** out is o with its lists sorted. */
  ghost predicate ObjectArranged(o: ObjectEntry, out: ObjectEntry) {
    && out.seedId == o.seedId && out.kind == o.kind && out.outgoing == o.outgoing && out.incoming == o.incoming
    && Arrangement(RealizationRank(), o.realizations, out.realizations)
    && Arrangement(CommandRank(), o.commands, out.commands)
    && Arrangement(ProjectionRank(), o.projections, out.projections)
  }

  ghost predicate SchemaArranged(x: SchemaEntry, out: SchemaEntry) {
    && out.ref == x.ref
    && Arrangement(ObjectUseRank(), x.objectUses, out.objectUses)
    && Arrangement(CommandUseRank(), x.commandInputs, out.commandInputs)
    && Arrangement(CommandUseRank(), x.commandResults, out.commandResults)
  }

  /** keys are the keys of the table, each once. */
  ghost predicate KeysOnce<K(!new), V(!new)>(table: map<K, V>, keys: seq<K>) {
    Distinct(keys) && forall k :: k in keys <==> k in table
  }

  ghost predicate ObjectsUnder(objects: map<Key, ObjectEntry>, keys: seq<Key>, out: seq<ObjectEntry>) {
    && KeysOnce(objects, keys) && |out| == |keys| && Sorted(ByRank(ObjectRank()), out)
    && forall i :: 0 <= i < |keys| ==> keys[i] in objects && ObjectArranged(objects[keys[i]], out[i])
  }

  ghost predicate SchemasUnder(schemas: map<string, SchemaEntry>, keys: seq<string>, out: seq<SchemaEntry>) {
    && KeysOnce(schemas, keys) && |out| == |keys| && Sorted(ByRank(SchemaRank()), out)
    && forall i :: 0 <= i < |keys| ==> keys[i] in schemas && SchemaArranged(schemas[keys[i]], out[i])
  }

  /** The listing holds exactly the index's entries, each list in its order. */
  ghost predicate Flattened(index: Index, l: Listing) {
    && Arrangement(CommandRank(), index.commands, l.commands)
    && Arrangement(ProjectionRank(), index.projections, l.projections)
    && (exists keys :: ObjectsUnder(index.objects, keys, l.objects))
    && (exists keys :: SchemasUnder(index.schemas, keys, l.schemas))
  }

  /** The first comes before the second: its first part is larger, or equal and its second part not larger. */
  predicate Before(first: string, second: string, nextFirst: string, nextSecond: string) {
    StringLe(nextFirst, first) && (first == nextFirst ==> StringLe(second, nextSecond))
  }

  ghost predicate CommandsInOrder(s: seq<CommandEntry>) {
    forall i, j :: 0 <= i < j < |s| ==> Before(s[i].reference, s[i].name, s[j].reference, s[j].name)
  }

  ghost predicate ProjectionsInOrder(s: seq<ProjectionEntry>) {
    forall i, j :: 0 <= i < j < |s| ==> Before(s[i].reference, s[i].name, s[j].reference, s[j].name)
  }

  ghost predicate UsesInOrder(s: seq<CommandUse>) {
    forall i, j :: 0 <= i < j < |s| ==> Before(s[i].reference, s[i].name, s[j].reference, s[j].name)
  }

  ghost predicate ObjectInOrder(o: ObjectEntry) {
    && CommandsInOrder(o.commands) && ProjectionsInOrder(o.projections)
    && forall i, j :: 0 <= i < j < |o.realizations| ==>
         StringLe(o.realizations[j].reference, o.realizations[i].reference)
  }

  ghost predicate SchemaInOrder(x: SchemaEntry) {
    && UsesInOrder(x.commandInputs) && UsesInOrder(x.commandResults)
    && forall i, j :: 0 <= i < j < |x.objectUses| ==>
         Before(x.objectUses[i].reference, x.objectUses[i].kind, x.objectUses[j].reference, x.objectUses[j].kind)
  }

  /** References, seeds and schema references run downwards, and names and kinds upwards among equals. */
  ghost predicate InOrder(l: Listing) {
    && CommandsInOrder(l.commands) && ProjectionsInOrder(l.projections)
    && (forall i, j :: 0 <= i < j < |l.objects| ==>
          Before(l.objects[i].seedId, l.objects[i].kind, l.objects[j].seedId, l.objects[j].kind))
    && (forall i, j :: 0 <= i < j < |l.schemas| ==> StringLe(l.schemas[j].ref, l.schemas[i].ref))
    && (forall i :: 0 <= i < |l.objects| ==> ObjectInOrder(l.objects[i]))
    && (forall i :: 0 <= i < |l.schemas| ==> SchemaInOrder(l.schemas[i]))
  }

  lemma RankPlaces<T(!new)>(rank: T -> Rank, s: seq<T>)
    requires Sorted(ByRank(rank), s)
    ensures forall i, j :: 0 <= i < j < |s| ==>
              Before(rank(s[i]).first, rank(s[i]).second, rank(s[j]).first, rank(s[j]).second)
  {
    forall i, j | 0 <= i < j < |s|
      ensures Before(rank(s[i]).first, rank(s[i]).second, rank(s[j]).first, rank(s[j]).second)
    {
      assert ByRank(rank)(s[i], s[j]);
      StringLeTotal(rank(s[i]).first, rank(s[i]).first);
    }
  }

  lemma ObjectPlaces(o: ObjectEntry, out: ObjectEntry)
    requires ObjectArranged(o, out)
    ensures ObjectInOrder(out)
  {
    hide StringLe;
    RankPlaces(CommandRank(), out.commands);
    RankPlaces(ProjectionRank(), out.projections);
    RankPlaces(RealizationRank(), out.realizations);
  }

  lemma SchemaPlaces(x: SchemaEntry, out: SchemaEntry)
    requires SchemaArranged(x, out)
    ensures SchemaInOrder(out)
  {
    hide StringLe;
    RankPlaces(ObjectUseRank(), out.objectUses);
    RankPlaces(CommandUseRank(), out.commandInputs);
    RankPlaces(CommandUseRank(), out.commandResults);
  }

  lemma ObjectsInOrder(objects: map<Key, ObjectEntry>, keys: seq<Key>, out: seq<ObjectEntry>)
    requires ObjectsUnder(objects, keys, out)
    ensures forall i, j :: 0 <= i < j < |out| ==> Before(out[i].seedId, out[i].kind, out[j].seedId, out[j].kind)
    ensures forall i :: 0 <= i < |out| ==> ObjectInOrder(out[i])
  {
    hide Before, ObjectInOrder, ObjectArranged, KeysOnce;
    RankPlaces(ObjectRank(), out);
    forall i | 0 <= i < |out|
      ensures ObjectInOrder(out[i])
    {
      ObjectPlaces(objects[keys[i]], out[i]);
    }
  }

  lemma SchemasInOrder(schemas: map<string, SchemaEntry>, keys: seq<string>, out: seq<SchemaEntry>)
    requires SchemasUnder(schemas, keys, out)
    ensures forall i, j :: 0 <= i < j < |out| ==> StringLe(out[j].ref, out[i].ref)
    ensures forall i :: 0 <= i < |out| ==> SchemaInOrder(out[i])
  {
    hide StringLe, SchemaInOrder, SchemaArranged, KeysOnce;
    RankPlaces(SchemaRank(), out);
    forall i | 0 <= i < |out|
      ensures SchemaInOrder(out[i])
    {
      SchemaPlaces(schemas[keys[i]], out[i]);
    }
  }

  /** Every flattening is in order. */
  lemma FlattenedInOrder(index: Index, l: Listing)
    requires Flattened(index, l)
    ensures InOrder(l)
  {
    hide StringLe, Before, ObjectInOrder, SchemaInOrder, ObjectsUnder, SchemasUnder;
    RankPlaces(CommandRank(), l.commands);
    RankPlaces(ProjectionRank(), l.projections);
    var keys :| ObjectsUnder(index.objects, keys, l.objects);
    ObjectsInOrder(index.objects, keys, l.objects);
    var refs :| SchemasUnder(index.schemas, refs, l.schemas);
    SchemasInOrder(index.schemas, refs, l.schemas);
  }

  // ----- flattenObjects, flattenSchemas -----

  /** The keys of a table, in the order of some rank. */
  method KeysByRank<K(==,!new), V(!new)>(table: map<K, V>, rank: K -> Rank) returns (keys: seq<K>)
    ensures KeysOnce(table, keys) && Sorted(ByRank(rank), keys)
  {
    var listed := Listed(table.Keys);
    ByRankRanks(rank);
    SortCorrect(ByRank(rank), listed);
    SortDistinct(ByRank(rank), listed);
    forall k ensures k in Arranged(rank, listed) <==> k in table { SortMembers(ByRank(rank), listed, k); }
    keys := Arranged(rank, listed);
  }

  lemma SameRanks<K(!new), V(!new)>(rank: K -> Rank, keys: seq<K>, rank': V -> Rank, out: seq<V>)
    requires Sorted(ByRank(rank), keys) && |out| == |keys|
    requires forall i :: 0 <= i < |keys| ==> rank'(out[i]) == rank(keys[i])
    ensures Sorted(ByRank(rank'), out)
  {
    hide RankLe;
    forall i, j | 0 <= i < j < |out| ensures ByRank(rank')(out[i], out[j]) {
      assert ByRank(rank)(keys[i], keys[j]);
    }
  }

  function ArrangeObject(o: ObjectEntry): (out: ObjectEntry)
    ensures out.seedId == o.seedId && out.kind == o.kind
  {
    o.(realizations := Arranged(RealizationRank(), o.realizations), commands := Arranged(CommandRank(), o.commands),
       projections := Arranged(ProjectionRank(), o.projections))
  }

  lemma ArrangeObjectIs(o: ObjectEntry)
    ensures ObjectArranged(o, ArrangeObject(o))
  {
    hide Arrangement, Arranged;
    ArrangedIs(RealizationRank(), o.realizations);
    ArrangedIs(CommandRank(), o.commands);
    ArrangedIs(ProjectionRank(), o.projections);
  }

  function ArrangeSchema(x: SchemaEntry): (out: SchemaEntry)
    ensures out.ref == x.ref
  {
    SchemaEntry(x.ref, Arranged(ObjectUseRank(), x.objectUses), Arranged(CommandUseRank(), x.commandInputs),
                Arranged(CommandUseRank(), x.commandResults))
  }

  lemma ArrangeSchemaIs(x: SchemaEntry)
    ensures SchemaArranged(x, ArrangeSchema(x))
  {
    hide Arrangement, Arranged;
    ArrangedIs(ObjectUseRank(), x.objectUses);
    ArrangedIs(CommandUseRank(), x.commandInputs);
    ArrangedIs(CommandUseRank(), x.commandResults);
  }

  /** The rank of the entry a key has. */
  function RankAt<K, V>(table: map<K, V>, rank: V -> Rank): K -> Rank {
    (k: K) => if k in table then rank(table[k]) else Rank("", "")
  }

  method FlattenObjects(objects: map<Key, ObjectEntry>) returns (out: seq<ObjectEntry>)
    ensures exists keys :: ObjectsUnder(objects, keys, out)
  {
    hide Ranking, Sorted, ByRank, ObjectArranged, ArrangeObject, Distinct;
    var keys := KeysByRank(objects, RankAt(objects, ObjectRank()));
    out := [];
    for i := 0 to |keys|
      invariant |out| == i
      invariant forall j :: 0 <= j < i ==> keys[j] in objects && out[j] == ArrangeObject(objects[keys[j]])
    {
      assert keys[i] in keys;
      out := out + [ArrangeObject(objects[keys[i]])];
    }
    forall j | 0 <= j < |keys| ensures ObjectArranged(objects[keys[j]], out[j]) { ArrangeObjectIs(objects[keys[j]]); }
    SameRanks(RankAt(objects, ObjectRank()), keys, ObjectRank(), out);
    assert ObjectsUnder(objects, keys, out);
  }

  method FlattenSchemas(schemas: map<string, SchemaEntry>) returns (out: seq<SchemaEntry>)
    ensures exists keys :: SchemasUnder(schemas, keys, out)
  {
    hide Ranking, Sorted, ByRank, SchemaArranged, ArrangeSchema, Distinct;
    var keys := KeysByRank(schemas, RankAt(schemas, SchemaRank()));
    out := [];
    for i := 0 to |keys|
      invariant |out| == i
      invariant forall j :: 0 <= j < i ==> keys[j] in schemas && out[j] == ArrangeSchema(schemas[keys[j]])
    {
      assert keys[i] in keys;
      out := out + [ArrangeSchema(schemas[keys[i]])];
    }
    forall j | 0 <= j < |keys| ensures SchemaArranged(schemas[keys[j]], out[j]) { ArrangeSchemaIs(schemas[keys[j]]); }
    SameRanks(RankAt(schemas, SchemaRank()), keys, SchemaRank(), out);
    assert SchemasUnder(schemas, keys, out);
  }

  /** The sorts at the end of LoadCatalog. */
  method Flatten(index: Index) returns (l: Listing)
    ensures Flattened(index, l)
  {
    hide ObjectsUnder, SchemasUnder, Arrangement;
    ArrangedIs(CommandRank(), index.commands);
    ArrangedIs(ProjectionRank(), index.projections);
    var objects := FlattenObjects(index.objects);
    var schemas := FlattenSchemas(index.schemas);
    l := Listing(Arranged(CommandRank(), index.commands), Arranged(ProjectionRank(), index.projections), objects,
                 schemas);
  }

  /** LoadCatalog. */
  method LoadCatalog(resolve: (string, string) -> string, contracts: seq<Loaded>) returns (l: Listing)
    ensures Flattened(IndexOf(resolve, contracts), l) && InOrder(l)
  {
    hide Flattened, InOrder;
    var index := BuildIndex(resolve, contracts);
    l := Flatten(index);
    FlattenedInOrder(index, l);
  }

  // ----- Lookups -----

  function FirstWhere<T>(items: seq<T>, wanted: T -> bool): Option<T> {
    if items == [] then None else if wanted(items[0]) then Some(items[0]) else FirstWhere(items[1..], wanted)
  }

  /** A scan stops at the first wanted element. */
  lemma {:induction false} FirstWhereAt<T>(items: seq<T>, wanted: T -> bool, p: nat)
    requires p < |items| && wanted(items[p]) && forall j :: 0 <= j < p ==> !wanted(items[j])
    ensures FirstWhere(items, wanted) == Some(items[p])
  {
    if p > 0 {
      assert !wanted(items[0]);
      forall j | 0 <= j < p - 1 ensures !wanted(items[1..][j]) { assert items[1..][j] == items[j + 1]; }
      FirstWhereAt(items[1..], wanted, p - 1);
    }
  }

  lemma {:induction false} FirstWhereFinds<T(!new)>(items: seq<T>, wanted: T -> bool)
    ensures match FirstWhere(items, wanted)
            case Some(x) => x in items && wanted(x)
            case None => forall x :: x in items ==> !wanted(x)
  {
    if items != [] {
      FirstWhereFinds(items[1..], wanted);
      assert items == [items[0]] + items[1..];
    }
  }

  /** The loop of the lookups. */
  method ScanFor<T>(items: seq<T>, wanted: T -> bool) returns (r: Option<T>)
    ensures r == FirstWhere(items, wanted)
    ensures match r
            case Some(x) => exists i :: 0 <= i < |items| && items[i] == x && wanted(x)
                                        && forall j :: 0 <= j < i ==> !wanted(items[j])
            case None => forall i :: 0 <= i < |items| ==> !wanted(items[i])
  {
    for i := 0 to |items|
      invariant FirstWhere(items, wanted) == FirstWhere(items[i..], wanted)
      invariant forall j :: 0 <= j < i ==> !wanted(items[j])
    {
      if wanted(items[i]) {
        return Some(items[i]);
      }
      assert items[i..][1..] == items[i + 1..];
    }
    return None;
  }

  function CommandAt(reference: string, name: string): CommandEntry -> bool {
    (c: CommandEntry) => c.reference == TrimSpace(reference) && c.name == TrimSpace(name)
  }

  function ProjectionAt(reference: string, name: string): ProjectionEntry -> bool {
    (q: ProjectionEntry) => q.reference == TrimSpace(reference) && q.name == TrimSpace(name)
  }

  function ObjectAt(seedId: string, kind: string): ObjectEntry -> bool {
    (o: ObjectEntry) => o.seedId == TrimSpace(seedId) && o.kind == TrimSpace(kind)
  }

  function SchemaAt(ref: string): SchemaEntry -> bool {
    (x: SchemaEntry) => x.ref == TrimSpace(ref)
  }

  method GetCommand(l: Listing, reference: string, name: string) returns (r: Option<CommandEntry>)
    ensures r == FirstWhere(l.commands, CommandAt(reference, name))
  {
    r := ScanFor(l.commands, CommandAt(reference, name));
  }

  method GetProjection(l: Listing, reference: string, name: string) returns (r: Option<ProjectionEntry>)
    ensures r == FirstWhere(l.projections, ProjectionAt(reference, name))
  {
    r := ScanFor(l.projections, ProjectionAt(reference, name));
  }

  method GetObject(l: Listing, seedId: string, kind: string) returns (r: Option<ObjectEntry>)
    ensures r == FirstWhere(l.objects, ObjectAt(seedId, kind))
  {
    r := ScanFor(l.objects, ObjectAt(seedId, kind));
  }

  method GetSchema(l: Listing, ref: string) returns (r: Option<SchemaEntry>)
    ensures r == FirstWhere(l.schemas, SchemaAt(ref))
  {
    r := ScanFor(l.schemas, SchemaAt(ref));
  }

  // ----- Commands -----

  /** No two realizations share a reference. */
  ghost predicate ReferencesDistinct(contracts: seq<Loaded>) {
    forall i, j :: 0 <= i < j < |contracts| ==> contracts[i].reference != contracts[j].reference
  }

  lemma CommandListed(resolve: (string, string) -> string, contracts: seq<Loaded>, l: Listing, i: nat, j: nat)
    requires Flattened(IndexOf(resolve, contracts), l) && i < |contracts| && j < |contracts[i].contract.commands|
    ensures CommandOf(resolve, contracts[i], contracts[i].contract.commands[j]) in l.commands
  {
    hide PostAll, CommandOf, Flat, Arrangement, ObjectsUnder, SchemasUnder;
    var item := contracts[i];
    var c := CommandOf(resolve, item, item.contract.commands[j]);
    assert ListedCommand(c) in Commands(resolve, item)(item.contract.commands[j]);
    InFlat(item.contract.commands, Commands(resolve, item), ListedCommand(c));
    FromContract(resolve, contracts, i, ListedCommand(c));
    ListedIsPosted(AllPostings(resolve, contracts));
    ArrangementMembers(CommandRank(), IndexOf(resolve, contracts).commands, l.commands);
  }

  /** With distinct references, reference and name determine a command of validated contracts. */
  lemma CommandDetermined(resolve: (string, string) -> string, contracts: seq<Loaded>, stored: string -> string -> bool,
                          c: CommandEntry, d: CommandEntry)
    requires Validated(contracts, stored) && ReferencesDistinct(contracts)
    requires c in IndexOf(resolve, contracts).commands && d in IndexOf(resolve, contracts).commands
    requires c.reference == d.reference && c.name == d.name
    ensures c == d
  {
    hide PostAll, AllPostings, TrimSpace, ContractValid;
    var i, j := ListedCommandSource(resolve, contracts, c);
    var i', j' := ListedCommandSource(resolve, contracts, d);
    assert i == i';
    UniqueCommands(contracts[i].contract, Entry(contracts[i].seedId, contracts[i].realizationId),
                   stored(contracts[i].contractFile), j, j');
  }

  lemma UniqueCommands(c: Contract, entry: Entry, stored: string -> bool, j: nat, k: nat)
    requires ContractValid(c, entry, stored) && j < |c.commands| && k < |c.commands|
    requires TrimSpace(c.commands[j].name) == TrimSpace(c.commands[k].name)
    ensures j == k
  {
    hide TrimSpace, HeaderValid, CapabilitiesValid, ObjectsValid, RelationsValid, ConsistencyValid, ProjectionsValid,
         SurfacesValid, SubsetOf, CommandValid;
    var names := CommandNames(c.commands);
    assert names[j] == c.commands[j].name && names[k] == c.commands[k].name;
  }

  /** Looking a command up under its own reference and name returns it, whatever order the sort left, exactly
      when the reference carries no surrounding spaces. */
  lemma CommandFoundIff(resolve: (string, string) -> string, contracts: seq<Loaded>, stored: string -> string -> bool,
                        l: Listing, i: nat, j: nat)
    requires Validated(contracts, stored) && ReferencesDistinct(contracts) && Flattened(IndexOf(resolve, contracts), l)
    requires i < |contracts| && j < |contracts[i].contract.commands|
    ensures var name := contracts[i].contract.commands[j].name;
            (FirstWhere(l.commands, CommandAt(contracts[i].reference, name))
             == Some(CommandOf(resolve, contracts[i], contracts[i].contract.commands[j]))
             <==> TrimSpace(contracts[i].reference) == contracts[i].reference)
  {
    var c := CommandOf(resolve, contracts[i], contracts[i].contract.commands[j]);
    var name := contracts[i].contract.commands[j].name;
    assert c.reference == contracts[i].reference && c.name == TrimSpace(name);
    hide PostAll, AllPostings, TrimSpace, ContractValid, CommandOf, Arrangement, ObjectsUnder, SchemasUnder, FirstWhere;
    CommandListed(resolve, contracts, l, i, j);
    FirstWhereFinds(l.commands, CommandAt(contracts[i].reference, name));
    ArrangementMembers(CommandRank(), IndexOf(resolve, contracts).commands, l.commands);
    match FirstWhere(l.commands, CommandAt(contracts[i].reference, name)) {
      case Some(d) => if c.reference == d.reference { CommandDetermined(resolve, contracts, stored, c, d); }
      case None => assert !CommandAt(contracts[i].reference, name)(c);
    }
  }

  // ----- Links -----

  /** The projection a listed command names is found under the command's reference exactly when that reference
      carries no surrounding spaces. */
  lemma ProjectionLinkResolvesIff(resolve: (string, string) -> string, contracts: seq<Loaded>,
                                  stored: string -> string -> bool, l: Listing, c: CommandEntry)
    requires Resolving(resolve) && Validated(contracts, stored) && Flattened(IndexOf(resolve, contracts), l)
    requires c in l.commands
    ensures var found := FirstWhere(l.projections, ProjectionAt(c.reference, c.projection));
            (found.Some? && found.value.reference == c.reference && found.value.name == c.projection
             <==> TrimSpace(c.reference) == c.reference)
  {
    hide PostAll, AllPostings, TrimSpace, ContractValid, Arrangement, ObjectsUnder, SchemasUnder, FirstWhere;
    var index := IndexOf(resolve, contracts);
    ArrangementMembers(CommandRank(), index.commands, l.commands);
    ArrangementMembers(ProjectionRank(), index.projections, l.projections);
    CommandLinksClosed(resolve, contracts, stored, c);
    ProjectionNameTrimmed(resolve, contracts, c);
    FirstWhereFinds(l.projections, ProjectionAt(c.reference, c.projection));
    var q :| q in index.projections && q.reference == c.reference && q.name == c.projection;
    assert TrimSpace(c.reference) == c.reference ==> ProjectionAt(c.reference, c.projection)(q);
  }

  lemma ProjectionNameTrimmed(resolve: (string, string) -> string, contracts: seq<Loaded>, c: CommandEntry)
    requires c in IndexOf(resolve, contracts).commands
    ensures TrimSpace(c.projection) == c.projection
  {
    hide PostAll, AllPostings, TrimSpace;
    var i, j := ListedCommandSource(resolve, contracts, c);
    TrimSpaceIdempotent(contracts[i].contract.commands[j].projection);
  }

  lemma SchemaFromRef(ps: seq<Posting>, ref: string)
    ensures SchemaFrom(ps, ref).ref == ref
  {}

  lemma SchemaUnder(ps: seq<Posting>, keys: seq<string>, out: seq<SchemaEntry>, n: nat)
    requires SchemasUnder(PostAll(EMPTY_INDEX, ps).schemas, keys, out) && n < |keys|
    ensures SchemaArranged(SchemaFrom(ps, keys[n]), out[n]) && out[n].ref == keys[n]
  {
    hide PostAll, Arrangement, ByRank, Sorted, KeysOnce, SchemaFrom;
    SchemaContents(ps, keys[n]);
    SchemaFromRef(ps, keys[n]);
  }

  lemma SchemaPlace(schemas: map<string, SchemaEntry>, keys: seq<string>, ref: string) returns (n: nat)
    requires KeysOnce(schemas, keys) && ref in schemas
    ensures n < |keys| && keys[n] == ref
  {
    hide Distinct;
    n :| 0 <= n < |keys| && keys[n] == ref;
  }

  /** A schema in the index is found under its reference exactly when that carries no surrounding spaces, and
      what is found is its own entry. */
  lemma SchemaFoundIff(ps: seq<Posting>, l: Listing, ref: string)
    requires Flattened(PostAll(EMPTY_INDEX, ps), l) && ref in PostAll(EMPTY_INDEX, ps).schemas
    ensures var found := FirstWhere(l.schemas, SchemaAt(ref));
            (found.Some? && SchemaArranged(SchemaFrom(ps, ref), found.value) <==> TrimSpace(ref) == ref)
  {
    hide PostAll, TrimSpace, Arrangement, ObjectsUnder, FirstWhere, SchemaFrom, ByRank, Sorted, KeysOnce;
    SchemaFromRef(ps, ref);
    var keys :| SchemasUnder(PostAll(EMPTY_INDEX, ps).schemas, keys, l.schemas);
    FirstWhereFinds(l.schemas, SchemaAt(ref));
    if TrimSpace(ref) == ref {
      var k := SchemaPlace(PostAll(EMPTY_INDEX, ps).schemas, keys, ref);
      SchemaUnder(ps, keys, l.schemas, k);
      assert SchemaAt(ref)(l.schemas[k]);
      var n :| 0 <= n < |l.schemas| && l.schemas[n] == FirstWhere(l.schemas, SchemaAt(ref)).value;
      SchemaUnder(ps, keys, l.schemas, n);
    }
  }

  /** Both schemas of a listed command are found under their references, each naming the command among its uses,
      exactly when the reference carries no surrounding spaces. */
  lemma SchemaLinksResolveIff(resolve: (string, string) -> string, contracts: seq<Loaded>,
                              stored: string -> string -> bool, l: Listing, c: CommandEntry)
    requires Resolving(resolve) && Validated(contracts, stored) && Flattened(IndexOf(resolve, contracts), l)
    requires c in l.commands
    ensures var input := FirstWhere(l.schemas, SchemaAt(c.inputSchemaRef));
            (input.Some? && input.value.ref == c.inputSchemaRef && CommandUseOf(c) in input.value.commandInputs
             <==> TrimSpace(c.inputSchemaRef) == c.inputSchemaRef)
    ensures var result := FirstWhere(l.schemas, SchemaAt(c.resultSchemaRef));
            (result.Some? && result.value.ref == c.resultSchemaRef && CommandUseOf(c) in result.value.commandResults
             <==> TrimSpace(c.resultSchemaRef) == c.resultSchemaRef)
  {
    hide PostAll, AllPostings, TrimSpace, ContractValid, Arrangement, ObjectsUnder, SchemasUnder, FirstWhere, Pick;
    var ps := AllPostings(resolve, contracts);
    ArrangementMembers(CommandRank(), IndexOf(resolve, contracts).commands, l.commands);
    CommandLinksClosed(resolve, contracts, stored, c);
    SchemaFoundIff(ps, l, c.inputSchemaRef);
    SchemaFoundIff(ps, l, c.resultSchemaRef);
    FirstWhereFinds(l.schemas, SchemaAt(c.inputSchemaRef));
    FirstWhereFinds(l.schemas, SchemaAt(c.resultSchemaRef));
    CommandUsed(resolve, contracts, stored, c);
    if TrimSpace(c.inputSchemaRef) == c.inputSchemaRef {
      var x := FirstWhere(l.schemas, SchemaAt(c.inputSchemaRef)).value;
      ArrangementMembers(CommandUseRank(), SchemaFrom(ps, c.inputSchemaRef).commandInputs, x.commandInputs);
    }
    if TrimSpace(c.resultSchemaRef) == c.resultSchemaRef {
      var x := FirstWhere(l.schemas, SchemaAt(c.resultSchemaRef)).value;
      ArrangementMembers(CommandUseRank(), SchemaFrom(ps, c.resultSchemaRef).commandResults, x.commandResults);
    }
  }

  lemma CommandUsed(resolve: (string, string) -> string, contracts: seq<Loaded>, stored: string -> string -> bool,
                    c: CommandEntry)
    requires Resolving(resolve) && Validated(contracts, stored) && c in IndexOf(resolve, contracts).commands
    ensures var ps := AllPostings(resolve, contracts);
            && CommandUseOf(c) in SchemaFrom(ps, c.inputSchemaRef).commandInputs
            && CommandUseOf(c) in SchemaFrom(ps, c.resultSchemaRef).commandResults
  {
    hide PostAll, TrimSpace, ContractValid, Pick, CommandUseOf;
    var ps := AllPostings(resolve, contracts);
    var i, j := ListedCommandSource(resolve, contracts, c);
    var item := contracts[i];
    ValidCommandLinks(item.contract, Entry(item.seedId, item.realizationId), stored(item.contractFile), j);
    CommandSchemasPosted(resolve, contracts, i, j);
    hide AllPostings, CommandOf;
    PickMember(ps, AtInput(c.inputSchemaRef), CommandUseOf(c));
    PickMember(ps, AtResult(c.resultSchemaRef), CommandUseOf(c));
    var m :| 0 <= m < |ps| && ps[m] == SchemaOfInput(c.inputSchemaRef, CommandUseOf(c));
    var n :| 0 <= n < |ps| && ps[n] == SchemaOfResult(c.resultSchemaRef, CommandUseOf(c));
    assert AtInput(c.inputSchemaRef)(ps[m]) == Some(CommandUseOf(c));
    assert AtResult(c.resultSchemaRef)(ps[n]) == Some(CommandUseOf(c));
  }

  // ----- Objects -----

  /** The key stands for what is looked up, spaces around it aside. */
  predicate Spells(key: Key, seedId: string, kind: string) {
    TrimSpace(key.seedId) == TrimSpace(seedId) && TrimSpace(key.kind) == TrimSpace(kind)
  }

  lemma ObjectNamed(ps: seq<Posting>, key: Key)
    requires key in PostAll(EMPTY_INDEX, ps).objects
    ensures var o := PostAll(EMPTY_INDEX, ps).objects[key];
            o == EntryFrom(ps, key) && o.seedId == TrimSpace(key.seedId) && o.kind == TrimSpace(key.kind)
  {
    ObjectsFromPostings(ps, key);
    hide PostAll, TrimSpace, Pick, Posted;
  }

  lemma AnswersFor(ps: seq<Posting>, keys: seq<Key>, out: seq<ObjectEntry>, n: nat, seedId: string, kind: string)
    requires ObjectsUnder(PostAll(EMPTY_INDEX, ps).objects, keys, out) && n < |keys|
    ensures keys[n] in PostAll(EMPTY_INDEX, ps).objects
    ensures ObjectArranged(PostAll(EMPTY_INDEX, ps).objects[keys[n]], out[n])
    ensures ObjectAt(seedId, kind)(out[n]) <==> Spells(keys[n], seedId, kind)
  {
    hide PostAll, TrimSpace, Arrangement, ByRank, Sorted, KeysOnce, EntryFrom;
    ObjectNamed(ps, keys[n]);
  }

  lemma KeyPlace(objects: map<Key, ObjectEntry>, keys: seq<Key>, key: Key) returns (n: nat)
    requires KeysOnce(objects, keys) && key in objects
    ensures n < |keys| && keys[n] == key
  {
    hide Distinct;
    n :| 0 <= n < |keys| && keys[n] == key;
  }

  /** An answer to an object lookup is the entry of some key that spells what was asked for, and there is one
      whenever there is such a key. */
  lemma ObjectAnswers(ps: seq<Posting>, l: Listing, seedId: string, kind: string)
    requires Flattened(PostAll(EMPTY_INDEX, ps), l)
    ensures match FirstWhere(l.objects, ObjectAt(seedId, kind))
            case Some(o) => exists key :: key in PostAll(EMPTY_INDEX, ps).objects && Spells(key, seedId, kind)
                                          && ObjectArranged(PostAll(EMPTY_INDEX, ps).objects[key], o)
            case None => forall key :: key in PostAll(EMPTY_INDEX, ps).objects ==> !Spells(key, seedId, kind)
  {
    hide PostAll, Spells, ObjectAt, Arrangement, SchemasUnder, FirstWhere, ByRank, Sorted, KeysOnce, ObjectArranged;
    var objects := PostAll(EMPTY_INDEX, ps).objects;
    var keys :| ObjectsUnder(objects, keys, l.objects);
    FirstWhereFinds(l.objects, ObjectAt(seedId, kind));
    match FirstWhere(l.objects, ObjectAt(seedId, kind)) {
      case Some(o) =>
        var n :| 0 <= n < |l.objects| && l.objects[n] == o;
        AnswersFor(ps, keys, l.objects, n, seedId, kind);
      case None =>
        forall key | key in objects ensures !Spells(key, seedId, kind) {
          var n := KeyPlace(objects, keys, key);
          AnswersFor(ps, keys, l.objects, n, seedId, kind);
          assert l.objects[n] in l.objects;
        }
    }
  }

  // ----- Which spelling answers -----

  ghost function Swapped<T>(s: seq<T>, p: nat, q: nat): (r: seq<T>)
    requires p < |s| && q < |s|
    ensures |r| == |s| && r[p] == s[q] && r[q] == s[p]
    ensures forall i :: 0 <= i < |s| && i != p && i != q ==> r[i] == s[i]
  {
    s[p := s[q]][q := s[p]]
  }

  lemma SwappedKeys<K(!new), V(!new)>(table: map<K, V>, keys: seq<K>, p: nat, q: nat)
    requires KeysOnce(table, keys) && p < |keys| && q < |keys|
    ensures KeysOnce(table, Swapped(keys, p, q))
  {
    var r := Swapped(keys, p, q);
    forall k ensures k in r <==> k in table {
      if k in table {
        var n :| 0 <= n < |keys| && keys[n] == k;
        assert r[if n == p then q else if n == q then p else n] == k;
      }
    }
  }

  /** Entries of one rank may change places. */
  lemma ObjectsReordered(objects: map<Key, ObjectEntry>, keys: seq<Key>, out: seq<ObjectEntry>, p: nat, q: nat,
                         o: ObjectEntry)
    requires ObjectsUnder(objects, keys, out) && p <= q < |keys|
    requires keys[q] in objects && ObjectArranged(objects[keys[q]], o)
    requires ObjectRank()(out[p]) == ObjectRank()(out[q])
    ensures ObjectsUnder(objects, Swapped(keys, p, q), Swapped(out, p, q)[p := o])
  {
    hide KeysOnce, Sorted, ByRank, Arrangement, Swapped;
    var keys', out' := Swapped(keys, p, q), Swapped(out, p, q)[p := o];
    SwappedKeys(objects, keys, p, q);
    forall i | 0 <= i < |out| ensures ObjectRank()(out'[i]) == ObjectRank()(out[i]) {
      assert ObjectArranged(objects[keys[q]], out[q]);
    }
    SameRanks(ObjectRank(), out, ObjectRank(), out');
    forall i | 0 <= i < |keys| ensures keys'[i] in objects && ObjectArranged(objects[keys'[i]], out'[i]) {
      assert ObjectArranged(objects[keys[i]], out[i]);
      assert ObjectArranged(objects[keys[p]], out[p]);
    }
  }

  /** Any spelling may be the one that answers: sort.Slice leaves the entries of equal rank in any order. */
  lemma AnySpellingAnswers(ps: seq<Posting>, l: Listing, key: Key, o: ObjectEntry, seedId: string, kind: string)
    returns (l': Listing)
    requires Flattened(PostAll(EMPTY_INDEX, ps), l) && key in PostAll(EMPTY_INDEX, ps).objects
             && Spells(key, seedId, kind)
    requires ObjectArranged(PostAll(EMPTY_INDEX, ps).objects[key], o)
    ensures Flattened(PostAll(EMPTY_INDEX, ps), l') && FirstWhere(l'.objects, ObjectAt(seedId, kind)) == Some(o)
  {
    hide PostAll, Spells, Arrangement, SchemasUnder, FirstWhere, ByRank, Sorted, KeysOnce, Swapped;
    var objects := PostAll(EMPTY_INDEX, ps).objects;
    var keys :| ObjectsUnder(objects, keys, l.objects);
    var q := KeyPlace(objects, keys, key);
    AnswersFor(ps, keys, l.objects, q, seedId, kind);
    var p := FirstPlace(l.objects, ObjectAt(seedId, kind), q);
    ObjectsReordered(objects, keys, l.objects, p, q, o);
    var out := Swapped(l.objects, p, q)[p := o];
    l' := l.(objects := out);
    assert ObjectAt(seedId, kind)(o);
    forall j | 0 <= j < p ensures !ObjectAt(seedId, kind)(out[j]) { assert out[j] == l.objects[j]; }
    FirstWhereAt(out, ObjectAt(seedId, kind), p);
  }

  lemma {:induction false} FirstPlace<T(!new)>(items: seq<T>, wanted: T -> bool, q: nat) returns (p: nat)
    requires q < |items| && wanted(items[q])
    ensures p <= q && wanted(items[p]) && forall j :: 0 <= j < p ==> !wanted(items[j])
  {
    p := 0;
    while !wanted(items[p])
      invariant p <= q && forall j :: 0 <= j < p ==> !wanted(items[j])
      decreases q - p
    {
      p := p + 1;
    }
  }

  /** Two entries with the same contents, the order of sorted lists and the spelling of the key aside. */
  ghost predicate SameEntry(a: ObjectEntry, b: ObjectEntry) {
    && a.outgoing == b.outgoing && a.incoming == b.incoming
    && multiset(a.realizations) == multiset(b.realizations) && multiset(a.commands) == multiset(b.commands)
    && multiset(a.projections) == multiset(b.projections)
  }

  lemma SameArranged(a: ObjectEntry, b: ObjectEntry, o: ObjectEntry)
    requires ObjectArranged(a, o) && a.seedId == b.seedId && a.kind == b.kind
    ensures ObjectArranged(b, o) <==> SameEntry(a, b)
  {
    hide Sorted, ByRank;
  }

  /** Every answer a lookup of the key may get is the key's own entry. */
  ghost predicate AlwaysAnswers(index: Index, key: Key) {
    key in index.objects && forall l :: Flattened(index, l) ==>
      var found := FirstWhere(l.objects, ObjectAt(key.seedId, key.kind));
      found.Some? && ObjectArranged(index.objects[key], found.value)
  }

  /** An object lookup is certain to answer with the entry of its key exactly when every other spelling of the
      key in the index has the same contents. */
  lemma ObjectLookupIff(ps: seq<Posting>, l: Listing, key: Key)
    requires Flattened(PostAll(EMPTY_INDEX, ps), l) && key in PostAll(EMPTY_INDEX, ps).objects
    ensures var index := PostAll(EMPTY_INDEX, ps);
            (AlwaysAnswers(index, key) <==>
             forall k :: k in index.objects && Spells(k, key.seedId, key.kind) ==>
               SameEntry(index.objects[k], index.objects[key]))
  {
    hide PostAll, Flattened, FirstWhere, ObjectArranged, SameEntry, EntryFrom, TrimSpace, ObjectAt;
    var index := PostAll(EMPTY_INDEX, ps);
    ObjectNamed(ps, key);
    if AlwaysAnswers(index, key) {
      forall k | k in index.objects && Spells(k, key.seedId, key.kind)
        ensures SameEntry(index.objects[k], index.objects[key])
      {
        ObjectNamed(ps, k);
        var o := ArrangeObject(index.objects[k]);
        ArrangeObjectIs(index.objects[k]);
        var l' := AnySpellingAnswers(ps, l, k, o, key.seedId, key.kind);
        SameArranged(index.objects[k], index.objects[key], o);
      }
    }
    if forall k ::
         k in index.objects && Spells(k, key.seedId, key.kind) ==> SameEntry(index.objects[k], index.objects[key])
    {
      forall l | Flattened(index, l)
        ensures FirstWhere(l.objects, ObjectAt(key.seedId, key.kind)).Some?
        ensures ObjectArranged(index.objects[key], FirstWhere(l.objects, ObjectAt(key.seedId, key.kind)).value)
      {
        ObjectAnswers(ps, l, key.seedId, key.kind);
        var o := FirstWhere(l.objects, ObjectAt(key.seedId, key.kind)).value;
        var k :| k in index.objects && Spells(k, key.seedId, key.kind) && ObjectArranged(index.objects[k], o);
        ObjectNamed(ps, k);
        SameArranged(index.objects[k], index.objects[key], o);
      }
    }
  }

  /** Validation leaves the seed id of a contract's manifest trimmed. */
  lemma SeedTrimmed(c: Contract, entry: Entry, stored: string -> bool)
    requires ContractValid(c, entry, stored)
    ensures TrimSpace(entry.seedId) == entry.seedId
  {
    hide TrimSpace, LinksResolve;
    TrimSpaceIdempotent(c.seedId);
  }

  lemma KeysTrimmed(resolve: (string, string) -> string, contracts: seq<Loaded>, stored: string -> string -> bool,
                    key: Key)
    requires Validated(contracts, stored) && KindsTrimmed(contracts) && key in IndexOf(resolve, contracts).objects
    ensures TrimSpace(key.seedId) == key.seedId && TrimSpace(key.kind) == key.kind
  {
    hide PostAll, ItemPostings, ContractValid, NamedIn, TrimSpace, EntryFrom;
    var ps := AllPostings(resolve, contracts);
    ObjectsFromPostings(ps, key);
    var n :| 0 <= n < |ps| && PostsTo(ps[n], key);
    var i := ContractOf(resolve, contracts, ps[n]);
    PostedKindNamed(resolve, contracts[i], ps[n]);
    SeedTrimmed(contracts[i].contract, Entry(contracts[i].seedId, contracts[i].realizationId),
                stored(contracts[i].contractFile));
  }

  /** With validated contracts whose kinds carry no spaces, looking up a kind a contract declares answers, in every
      flattening, with what a plain scan of the contracts finds for it. */
  lemma DeclaredObjectFound(resolve: (string, string) -> string, contracts: seq<Loaded>,
                            stored: string -> string -> bool, l: Listing, i: nat, j: nat)
    requires Validated(contracts, stored) && KindsTrimmed(contracts) && Flattened(IndexOf(resolve, contracts), l)
    requires i < |contracts| && j < |contracts[i].contract.objects|
    ensures var key := Key(contracts[i].seedId, contracts[i].contract.objects[j].kind);
            var found := FirstWhere(l.objects, ObjectAt(key.seedId, key.kind));
            found.Some? && ObjectArranged(Scan(resolve, contracts, key), found.value)
  {
    hide PostAll, AllPostings, ContractValid, NamedIn, TrimSpace, EntryFrom, Flattened, FirstWhere, ObjectArranged,
         Scan, KindsTrimmed, Validated;
    var index := IndexOf(resolve, contracts);
    var key := Key(contracts[i].seedId, contracts[i].contract.objects[j].kind);
    assert key in index.objects by { DeclaredIndexed(resolve, contracts, i, j); }
    ValidatedKindsDistinct(contracts, stored);
    CatalogAgreesWithScan(resolve, contracts, key);
    ObjectAnswers(AllPostings(resolve, contracts), l, key.seedId, key.kind);
    KeysTrimmed(resolve, contracts, stored, key);
    var o := FirstWhere(l.objects, ObjectAt(key.seedId, key.kind)).value;
    var k :| k in index.objects && Spells(k, key.seedId, key.kind) && ObjectArranged(index.objects[k], o);
    KeysTrimmed(resolve, contracts, stored, k);
  }

  lemma DeclaredIndexed(resolve: (string, string) -> string, contracts: seq<Loaded>, i: nat, j: nat)
    requires i < |contracts| && j < |contracts[i].contract.objects|
    ensures Key(contracts[i].seedId, contracts[i].contract.objects[j].kind) in IndexOf(resolve, contracts).objects
  {
    hide PostAll, RealizationOf, EntryFrom;
    var ps := AllPostings(resolve, contracts);
    var key := Key(contracts[i].seedId, contracts[i].contract.objects[j].kind);
    var r := RealizationOf(resolve, contracts[i], contracts[i].contract.objects[j]);
    DeclarationPosted(resolve, contracts, i, j);
    var n :| 0 <= n < |ps| && ps[n] == Declared(key, r);
    assert PostsTo(ps[n], key);
    ObjectsFromPostings(ps, key);
  }

  /** The schema a listed object's realization names is found exactly when its reference carries no surrounding
      spaces. */
  lemma ObjectSchemaFoundIff(resolve: (string, string) -> string, contracts: seq<Loaded>,
                             stored: string -> string -> bool, l: Listing, key: Key, r: Realization)
    requires Resolving(resolve) && Validated(contracts, stored) && Flattened(IndexOf(resolve, contracts), l)
    requires key in IndexOf(resolve, contracts).objects && r in IndexOf(resolve, contracts).objects[key].realizations
    ensures var found := FirstWhere(l.schemas, SchemaAt(r.schemaRef));
            (found.Some? && found.value.ref == r.schemaRef <==> TrimSpace(r.schemaRef) == r.schemaRef)
  {
    hide PostAll, AllPostings, ContractValid, TrimSpace, Flattened, FirstWhere, Arrangement;
    ObjectSchemasClosed(resolve, contracts, stored, key, r);
    SchemaFoundIff(AllPostings(resolve, contracts), l, r.schemaRef);
    FirstWhereFinds(l.schemas, SchemaAt(r.schemaRef));
    SchemaFromRef(AllPostings(resolve, contracts), r.schemaRef);
  }
}
