/** What every entry of the catalog says, field by field, and which element of which contract it comes from. */
module CatalogEntries {
  import opened Wrappers
  import opened Text
  import opened ContractTypes
  import opened Catalog
  import opened CatalogTheorems

  // ----- One entry, field by field -----

  /** The reference as the catalog gives it: blank stays blank, any other is resolved against the contract's file. */
  predicate ShowsRef(ref: string, resolve: (string, string) -> string, item: Loaded, given: string) {
    ref == if TrimSpace(given) == "" then "" else resolve(item.contractFile, TrimSpace(given))
  }

  predicate ShowsCommand(e: CommandEntry, resolve: (string, string) -> string, item: Loaded, c: Command) {
    && e.reference == item.reference && e.seedId == item.seedId && e.realizationId == item.realizationId
    && e.name == TrimSpace(c.name) && e.summary == TrimSpace(c.summary) && e.path == TrimSpace(c.path)
    && e.authModes == c.authModes && e.capabilities == c.capabilities && e.idempotency == TrimSpace(c.idempotency)
    && ShowsRef(e.inputSchemaRef, resolve, item, c.inputSchemaRef)
    && ShowsRef(e.resultSchemaRef, resolve, item, c.resultSchemaRef)
    && e.projection == TrimSpace(c.projection) && e.consistency == TrimSpace(c.consistency)
    && e.contractFile == TrimSpace(item.contractFile)
  }

  predicate ShowsProjection(e: ProjectionEntry, item: Loaded, p: Projection) {
    && e.reference == item.reference && e.seedId == item.seedId && e.realizationId == item.realizationId
    && e.name == TrimSpace(p.name) && e.summary == TrimSpace(p.summary) && e.path == TrimSpace(p.path)
    && e.authModes == p.authModes && e.capabilities == p.capabilities && e.freshness == TrimSpace(p.freshness)
    && e.contractFile == TrimSpace(item.contractFile) && |e.dataViews| == |p.dataViews|
    && forall i :: 0 <= i < |p.dataViews| ==>
         && e.dataViews[i].authModes == p.dataViews[i].authModes && e.dataViews[i].sections == p.dataViews[i].sections
         && e.dataViews[i].summary == TrimSpace(p.dataViews[i].summary)
  }

  predicate ShowsRelation(e: RelationEntry, resolve: (string, string) -> string, item: Loaded, r: Relation) {
    && e.reference == item.reference && e.seedId == item.seedId && e.realizationId == item.realizationId
    && e.kind == TrimSpace(r.kind) && e.summary == TrimSpace(r.summary) && e.fromKinds == r.fromKinds
    && e.toKinds == r.toKinds && e.cardinality == TrimSpace(r.cardinality) && e.visibility == TrimSpace(r.visibility)
    && ShowsRef(e.schemaRef, resolve, item, r.schemaRef) && e.capabilities == r.capabilities
    && e.attributes == r.attributes && e.contractFile == TrimSpace(item.contractFile)
  }

  predicate ShowsRealization(e: Realization, resolve: (string, string) -> string, item: Loaded, o: DomainObject) {
    && e.reference == item.reference && e.seedId == item.seedId && e.realizationId == item.realizationId
    && e.approachId == item.approachId && e.status == TrimSpace(item.status)
    && e.summary == (if TrimSpace(item.contract.summary) != "" then TrimSpace(item.contract.summary)
                     else if TrimSpace(item.summary) != "" then TrimSpace(item.summary)
                     else TrimSpace(item.realizationId))
    && e.surfaceKind == TrimSpace(item.contract.surfaceKind) && e.contractFile == TrimSpace(item.contractFile)
    && ShowsRef(e.schemaRef, resolve, item, o.schemaRef) && e.capabilities == o.capabilities
  }

  predicate ShowsCommandUse(e: CommandUse, item: Loaded, c: Command) {
    && e.reference == item.reference && e.seedId == item.seedId && e.realizationId == item.realizationId
    && e.name == TrimSpace(c.name) && e.summary == TrimSpace(c.summary) && e.path == TrimSpace(c.path)
    && e.contractFile == TrimSpace(item.contractFile)
  }

  predicate ShowsObjectUse(e: ObjectUse, item: Loaded, o: DomainObject) {
    && e.reference == item.reference && e.seedId == item.seedId && e.realizationId == item.realizationId
    && e.kind == o.kind && e.summary == TrimSpace(o.summary) && e.contractFile == TrimSpace(item.contractFile)
  }

  lemma CommandIff(e: CommandEntry, resolve: (string, string) -> string, item: Loaded, c: Command)
    ensures e == CommandOf(resolve, item, c) <==> ShowsCommand(e, resolve, item, c)
    ensures forall x :: x == CommandUseOf(CommandOf(resolve, item, c)) <==> ShowsCommandUse(x, item, c)
  {
    hide TrimSpace;
  }

  lemma ProjectionIff(e: ProjectionEntry, item: Loaded, p: Projection)
    ensures e == ProjectionOf(item, p) <==> ShowsProjection(e, item, p)
  {
    hide TrimSpace;
    if ShowsProjection(e, item, p) { assert e.dataViews == CopiedViews(p.dataViews); }
  }

  lemma RelationIff(e: RelationEntry, resolve: (string, string) -> string, item: Loaded, r: Relation)
    ensures e == RelationOf(resolve, item, r) <==> ShowsRelation(e, resolve, item, r)
  {
    hide TrimSpace;
  }

  lemma RealizationIff(e: Realization, resolve: (string, string) -> string, item: Loaded, o: DomainObject)
    ensures e == RealizationOf(resolve, item, o) <==> ShowsRealization(e, resolve, item, o)
  {
    hide TrimSpace, FirstNonEmpty;
    FirstOfThree(item.contract.summary, item.summary, item.realizationId);
  }

  lemma FirstOfThree(a: string, b: string, c: string)
    ensures FirstNonEmpty([a, b, c])
         == if TrimSpace(a) != "" then TrimSpace(a) else if TrimSpace(b) != "" then TrimSpace(b) else TrimSpace(c)
  {
    hide TrimSpace;
    assert [a, b, c][1..] == [b, c] && [b, c][1..] == [c] && [c][1..] == [];
    assert FirstNonEmpty([c]) == TrimSpace(c);
    assert FirstNonEmpty([b, c]) == if TrimSpace(b) != "" then TrimSpace(b) else TrimSpace(c);
  }

  lemma ObjectUseIff(e: ObjectUse, item: Loaded, o: DomainObject)
    ensures e == ObjectUseOf(item, o) <==> ShowsObjectUse(e, item, o)
  {
    hide TrimSpace;
  }

  // ----- Where the entries come from -----

  /** Element j of one of contract i's lists. */
  ghost predicate HasObject(contracts: seq<Loaded>, i: int, j: int) {
    0 <= i < |contracts| && 0 <= j < |contracts[i].contract.objects|
  }

  ghost predicate HasRelation(contracts: seq<Loaded>, i: int, j: int) {
    0 <= i < |contracts| && 0 <= j < |contracts[i].contract.relations|
  }

  ghost predicate HasCommand(contracts: seq<Loaded>, i: int, j: int) {
    0 <= i < |contracts| && 0 <= j < |contracts[i].contract.commands|
  }

  ghost predicate HasProjection(contracts: seq<Loaded>, i: int, j: int) {
    0 <= i < |contracts| && 0 <= j < |contracts[i].contract.projections|
  }

  ghost predicate FromObject(e: Realization, resolve: (string, string) -> string, contracts: seq<Loaded>, key: Key) {
    exists i, j :: HasObject(contracts, i, j) && contracts[i].seedId == key.seedId
                   && contracts[i].contract.objects[j].kind == key.kind
                   && ShowsRealization(e, resolve, contracts[i], contracts[i].contract.objects[j])
  }

  ghost predicate Leaving(e: RelationEntry, resolve: (string, string) -> string, contracts: seq<Loaded>, key: Key) {
    exists i, j :: HasRelation(contracts, i, j) && contracts[i].seedId == key.seedId
                   && key.kind in contracts[i].contract.relations[j].fromKinds
                   && ShowsRelation(e, resolve, contracts[i], contracts[i].contract.relations[j])
  }

  ghost predicate Entering(e: RelationEntry, resolve: (string, string) -> string, contracts: seq<Loaded>, key: Key) {
    exists i, j :: HasRelation(contracts, i, j) && contracts[i].seedId == key.seedId
                   && key.kind in contracts[i].contract.relations[j].toKinds
                   && ShowsRelation(e, resolve, contracts[i], contracts[i].contract.relations[j])
  }

  ghost predicate Touching(e: CommandEntry, resolve: (string, string) -> string, contracts: seq<Loaded>, key: Key) {
    exists i, j :: HasCommand(contracts, i, j) && contracts[i].seedId == key.seedId
                   && key.kind in contracts[i].contract.commands[j].objectKinds
                   && ShowsCommand(e, resolve, contracts[i], contracts[i].contract.commands[j])
  }

  ghost predicate Covering(e: ProjectionEntry, contracts: seq<Loaded>, key: Key) {
    exists i, j :: HasProjection(contracts, i, j) && contracts[i].seedId == key.seedId
                   && key.kind in contracts[i].contract.projections[j].objectKinds
                   && ShowsProjection(e, contracts[i], contracts[i].contract.projections[j])
  }

  ghost predicate SomeCommand(e: CommandEntry, resolve: (string, string) -> string, contracts: seq<Loaded>) {
    exists i, j :: HasCommand(contracts, i, j)
                   && ShowsCommand(e, resolve, contracts[i], contracts[i].contract.commands[j])
  }

  ghost predicate SomeProjection(e: ProjectionEntry, contracts: seq<Loaded>) {
    exists i, j :: HasProjection(contracts, i, j)
                   && ShowsProjection(e, contracts[i], contracts[i].contract.projections[j])
  }

  ghost predicate UsedByObject(
      e: ObjectUse, resolve: (string, string) -> string, contracts: seq<Loaded>, ref: string) {
    exists i, j :: HasObject(contracts, i, j) && ref != ""
                   && ShowsRef(ref, resolve, contracts[i], contracts[i].contract.objects[j].schemaRef)
                   && ShowsObjectUse(e, contracts[i], contracts[i].contract.objects[j])
  }

  ghost predicate UsedAsInput(
      e: CommandUse, resolve: (string, string) -> string, contracts: seq<Loaded>, ref: string) {
    exists i, j :: HasCommand(contracts, i, j) && ref != ""
                   && ShowsRef(ref, resolve, contracts[i], contracts[i].contract.commands[j].inputSchemaRef)
                   && ShowsCommandUse(e, contracts[i], contracts[i].contract.commands[j])
  }

  ghost predicate UsedAsResult(
      e: CommandUse, resolve: (string, string) -> string, contracts: seq<Loaded>, ref: string) {
    exists i, j :: HasCommand(contracts, i, j) && ref != ""
                   && ShowsRef(ref, resolve, contracts[i], contracts[i].contract.commands[j].resultSchemaRef)
                   && ShowsCommandUse(e, contracts[i], contracts[i].contract.commands[j])
  }

  // ----- Which additions are made -----

  ghost predicate MakesObject(resolve: (string, string) -> string, contracts: seq<Loaded>, i: int, j: int, p: Posting)
  {
    HasObject(contracts, i, j) && p in OneDeclaration(resolve, contracts[i], contracts[i].contract.objects[j])
  }

  ghost predicate MakesRelation(resolve: (string, string) -> string, contracts: seq<Loaded>, i: int, j: int, p: Posting)
  {
    HasRelation(contracts, i, j) && p in OneRelation(resolve, contracts[i], contracts[i].contract.relations[j])
  }

  ghost predicate MakesCommand(resolve: (string, string) -> string, contracts: seq<Loaded>, i: int, j: int, p: Posting)
  {
    HasCommand(contracts, i, j) && p in OneCommand(resolve, contracts[i], contracts[i].contract.commands[j])
  }

  ghost predicate MakesProjection(resolve: (string, string) -> string, contracts: seq<Loaded>, i: int, j: int,
                                  p: Posting)
  {
    HasProjection(contracts, i, j) && p in OneProjection(contracts[i], contracts[i].contract.projections[j])
  }

  lemma ObjectPosted(resolve: (string, string) -> string, contracts: seq<Loaded>, p: Posting)
    requires p.Declared? || p.SchemaOfObject?
    ensures p in AllPostings(resolve, contracts)
        <==> exists i, j :: MakesObject(resolve, contracts, i, j, p)
  {
    hide OneDeclaration, ItemPostings, Flat;
    if p in AllPostings(resolve, contracts) {
      var i := ContractOf(resolve, contracts, p);
      PartOf(resolve, contracts[i], p);
      InFlat(contracts[i].contract.objects, Declarations(resolve, contracts[i]), p);
      var j :| 0 <= j < |contracts[i].contract.objects|
          && p in Declarations(resolve, contracts[i])(contracts[i].contract.objects[j]);
      assert MakesObject(resolve, contracts, i, j, p);
    }
    if exists i, j :: MakesObject(resolve, contracts, i, j, p) {
      var i, j :| MakesObject(resolve, contracts, i, j, p);
      assert p in Declarations(resolve, contracts[i])(contracts[i].contract.objects[j]);
      InFlat(contracts[i].contract.objects, Declarations(resolve, contracts[i]), p);
      PartOfAll(resolve, contracts[i], p);
      FromContract(resolve, contracts, i, p);
    }
  }

  lemma PartOfAll(resolve: (string, string) -> string, item: Loaded, p: Posting)
    requires var c := item.contract;
             || p in Flat(c.objects, Declarations(resolve, item)) || p in Flat(c.relations, Relations(resolve, item))
             || p in Flat(c.commands, Commands(resolve, item)) || p in Flat(c.projections, Projections(item))
    ensures p in ItemPostings(resolve, item)
  {
    hide Flat;
  }

  lemma RelationPosted(resolve: (string, string) -> string, contracts: seq<Loaded>, p: Posting)
    requires p.Outgoing? || p.Incoming?
    ensures p in AllPostings(resolve, contracts)
        <==> exists i, j :: MakesRelation(resolve, contracts, i, j, p)
  {
    hide OneRelation, ItemPostings, Flat;
    if p in AllPostings(resolve, contracts) {
      var i := ContractOf(resolve, contracts, p);
      PartOf(resolve, contracts[i], p);
      InFlat(contracts[i].contract.relations, Relations(resolve, contracts[i]), p);
      var j :| 0 <= j < |contracts[i].contract.relations|
          && p in Relations(resolve, contracts[i])(contracts[i].contract.relations[j]);
      assert MakesRelation(resolve, contracts, i, j, p);
    }
    if exists i, j :: MakesRelation(resolve, contracts, i, j, p) {
      var i, j :| MakesRelation(resolve, contracts, i, j, p);
      assert p in Relations(resolve, contracts[i])(contracts[i].contract.relations[j]);
      InFlat(contracts[i].contract.relations, Relations(resolve, contracts[i]), p);
      PartOfAll(resolve, contracts[i], p);
      FromContract(resolve, contracts, i, p);
    }
  }

  lemma CommandPosted(resolve: (string, string) -> string, contracts: seq<Loaded>, p: Posting)
    requires p.Commanded? || p.ListedCommand? || p.SchemaOfInput? || p.SchemaOfResult?
    ensures p in AllPostings(resolve, contracts)
        <==> exists i, j :: MakesCommand(resolve, contracts, i, j, p)
  {
    hide OneCommand, ItemPostings, Flat;
    if p in AllPostings(resolve, contracts) {
      var i := ContractOf(resolve, contracts, p);
      PartOf(resolve, contracts[i], p);
      InFlat(contracts[i].contract.commands, Commands(resolve, contracts[i]), p);
      var j :| 0 <= j < |contracts[i].contract.commands|
          && p in Commands(resolve, contracts[i])(contracts[i].contract.commands[j]);
      assert MakesCommand(resolve, contracts, i, j, p);
    }
    if exists i, j :: MakesCommand(resolve, contracts, i, j, p) {
      var i, j :| MakesCommand(resolve, contracts, i, j, p);
      assert p in Commands(resolve, contracts[i])(contracts[i].contract.commands[j]);
      InFlat(contracts[i].contract.commands, Commands(resolve, contracts[i]), p);
      PartOfAll(resolve, contracts[i], p);
      FromContract(resolve, contracts, i, p);
    }
  }

  lemma ProjectionsPosted(resolve: (string, string) -> string, contracts: seq<Loaded>, p: Posting)
    requires p.Projected? || p.ListedProjection?
    ensures p in AllPostings(resolve, contracts)
        <==> exists i, j :: MakesProjection(resolve, contracts, i, j, p)
  {
    hide OneProjection, ItemPostings, Flat;
    if p in AllPostings(resolve, contracts) {
      var i := ContractOf(resolve, contracts, p);
      PartOf(resolve, contracts[i], p);
      InFlat(contracts[i].contract.projections, Projections(contracts[i]), p);
      var j :| 0 <= j < |contracts[i].contract.projections|
          && p in Projections(contracts[i])(contracts[i].contract.projections[j]);
      assert MakesProjection(resolve, contracts, i, j, p);
    }
    if exists i, j :: MakesProjection(resolve, contracts, i, j, p) {
      var i, j :| MakesProjection(resolve, contracts, i, j, p);
      assert p in Projections(contracts[i])(contracts[i].contract.projections[j]);
      InFlat(contracts[i].contract.projections, Projections(contracts[i]), p);
      PartOfAll(resolve, contracts[i], p);
      FromContract(resolve, contracts, i, p);
    }
  }

  lemma AmongKinds(item: Loaded, kinds: seq<string>, make: Key -> Posting, key: Key)
    requires forall k, l :: make(k) == make(l) ==> k == l
    ensures make(key) in KindPostings(item, kinds, make) <==> item.seedId == key.seedId && key.kind in kinds
  {
    if item.seedId == key.seedId && key.kind in kinds {
      var n :| 0 <= n < |kinds| && kinds[n] == key.kind;
      assert KindPostings(item, kinds, make)[n] == make(Key(item.seedId, kinds[n]));
    }
  }

  // ----- What the catalog holds -----

  lemma DeclaredFrom(resolve: (string, string) -> string, contracts: seq<Loaded>, key: Key, e: Realization)
    ensures Declared(key, e) in AllPostings(resolve, contracts) <==> FromObject(e, resolve, contracts, key)
  {
    hide AllPostings, RealizationOf, ShowsRealization;
    ObjectPosted(resolve, contracts, Declared(key, e));
    forall i, j | HasObject(contracts, i, j)
      ensures MakesObject(resolve, contracts, i, j, Declared(key, e))
          <==> contracts[i].seedId == key.seedId && contracts[i].contract.objects[j].kind == key.kind
               && ShowsRealization(e, resolve, contracts[i], contracts[i].contract.objects[j])
    {
      RealizationIff(e, resolve, contracts[i], contracts[i].contract.objects[j]);
    }
  }

  lemma OutgoingFrom(resolve: (string, string) -> string, contracts: seq<Loaded>, key: Key, e: RelationEntry)
    ensures Outgoing(key, e) in AllPostings(resolve, contracts) <==> Leaving(e, resolve, contracts, key)
  {
    hide AllPostings, RelationOf, ShowsRelation, KindPostings;
    RelationPosted(resolve, contracts, Outgoing(key, e));
    forall i, j | HasRelation(contracts, i, j)
      ensures MakesRelation(resolve, contracts, i, j, Outgoing(key, e))
          <==> contracts[i].seedId == key.seedId && key.kind in contracts[i].contract.relations[j].fromKinds
               && ShowsRelation(e, resolve, contracts[i], contracts[i].contract.relations[j])
    {
      OneOutgoing(resolve, contracts[i], contracts[i].contract.relations[j], key, e);
      RelationIff(e, resolve, contracts[i], contracts[i].contract.relations[j]);
    }
  }

  lemma OneOutgoing(resolve: (string, string) -> string, item: Loaded, r: Relation, key: Key, e: RelationEntry)
    ensures Outgoing(key, e) in OneRelation(resolve, item, r)
        <==> item.seedId == key.seedId && key.kind in r.fromKinds && e == RelationOf(resolve, item, r)
    ensures Incoming(key, e) in OneRelation(resolve, item, r)
        <==> item.seedId == key.seedId && key.kind in r.toKinds && e == RelationOf(resolve, item, r)
  {
    var entry := RelationOf(resolve, item, r);
    AmongKinds(item, r.fromKinds, MakeOutgoing(entry), key);
    AmongKinds(item, r.toKinds, MakeIncoming(entry), key);
    hide RelationOf;
  }

  lemma IncomingFrom(resolve: (string, string) -> string, contracts: seq<Loaded>, key: Key, e: RelationEntry)
    ensures Incoming(key, e) in AllPostings(resolve, contracts) <==> Entering(e, resolve, contracts, key)
  {
    hide AllPostings, RelationOf, ShowsRelation, KindPostings;
    RelationPosted(resolve, contracts, Incoming(key, e));
    forall i, j | HasRelation(contracts, i, j)
      ensures MakesRelation(resolve, contracts, i, j, Incoming(key, e))
          <==> contracts[i].seedId == key.seedId && key.kind in contracts[i].contract.relations[j].toKinds
               && ShowsRelation(e, resolve, contracts[i], contracts[i].contract.relations[j])
    {
      OneOutgoing(resolve, contracts[i], contracts[i].contract.relations[j], key, e);
      RelationIff(e, resolve, contracts[i], contracts[i].contract.relations[j]);
    }
  }

  lemma OneCommandMakes(resolve: (string, string) -> string, item: Loaded, c: Command, key: Key, e: CommandEntry)
    ensures Commanded(key, e) in OneCommand(resolve, item, c)
        <==> item.seedId == key.seedId && key.kind in c.objectKinds && e == CommandOf(resolve, item, c)
    ensures ListedCommand(e) in OneCommand(resolve, item, c) <==> e == CommandOf(resolve, item, c)
  {
    hide CommandOf, KindPostings, CommandUseOf;
    AmongCommanded(item, c.objectKinds, CommandOf(resolve, item, c), key, e);
  }

  lemma AmongCommanded(item: Loaded, kinds: seq<string>, entry: CommandEntry, key: Key, e: CommandEntry)
    ensures var ps := KindPostings(item, kinds, MakeCommanded(entry));
            && (Commanded(key, e) in ps <==> item.seedId == key.seedId && key.kind in kinds && e == entry)
            && ListedCommand(e) !in ps
  {
    AmongKinds(item, kinds, MakeCommanded(entry), key);
  }

  lemma OneCommandUses(resolve: (string, string) -> string, item: Loaded, c: Command, ref: string, e: CommandUse)
    ensures SchemaOfInput(ref, e) in OneCommand(resolve, item, c)
        <==> ref != "" && ShowsRef(ref, resolve, item, c.inputSchemaRef) && ShowsCommandUse(e, item, c)
    ensures SchemaOfResult(ref, e) in OneCommand(resolve, item, c)
        <==> ref != "" && ShowsRef(ref, resolve, item, c.resultSchemaRef) && ShowsCommandUse(e, item, c)
  {
    var entry := CommandOf(resolve, item, c);
    CommandIff(entry, resolve, item, c);
    assert ShowsRef(ref, resolve, item, c.inputSchemaRef) <==> ref == entry.inputSchemaRef;
    assert ShowsRef(ref, resolve, item, c.resultSchemaRef) <==> ref == entry.resultSchemaRef;
    hide CommandOf, CommandUseOf, ShowsRef, ShowsCommandUse, ShowsCommand;
  }

  lemma CommandedFrom(resolve: (string, string) -> string, contracts: seq<Loaded>, key: Key, e: CommandEntry)
    ensures Commanded(key, e) in AllPostings(resolve, contracts) <==> Touching(e, resolve, contracts, key)
    ensures ListedCommand(e) in AllPostings(resolve, contracts) <==> SomeCommand(e, resolve, contracts)
  {
    hide AllPostings, CommandOf, ShowsCommand, OneCommand;
    CommandPosted(resolve, contracts, Commanded(key, e));
    CommandPosted(resolve, contracts, ListedCommand(e));
    forall i, j | HasCommand(contracts, i, j)
      ensures MakesCommand(resolve, contracts, i, j, Commanded(key, e))
          <==> contracts[i].seedId == key.seedId && key.kind in contracts[i].contract.commands[j].objectKinds
               && ShowsCommand(e, resolve, contracts[i], contracts[i].contract.commands[j])
      ensures MakesCommand(resolve, contracts, i, j, ListedCommand(e))
          <==> ShowsCommand(e, resolve, contracts[i], contracts[i].contract.commands[j])
    {
      OneCommandMakes(resolve, contracts[i], contracts[i].contract.commands[j], key, e);
      CommandIff(e, resolve, contracts[i], contracts[i].contract.commands[j]);
    }
  }

  lemma OneProjectionMakes(item: Loaded, p: Projection, key: Key, e: ProjectionEntry)
    ensures Projected(key, e) in OneProjection(item, p)
        <==> item.seedId == key.seedId && key.kind in p.objectKinds && e == ProjectionOf(item, p)
    ensures ListedProjection(e) in OneProjection(item, p) <==> e == ProjectionOf(item, p)
  {
    AmongKinds(item, p.objectKinds, MakeProjected(ProjectionOf(item, p)), key);
    hide ProjectionOf;
  }

  lemma ProjectedFrom(resolve: (string, string) -> string, contracts: seq<Loaded>, key: Key, e: ProjectionEntry)
    ensures Projected(key, e) in AllPostings(resolve, contracts) <==> Covering(e, contracts, key)
    ensures ListedProjection(e) in AllPostings(resolve, contracts) <==> SomeProjection(e, contracts)
  {
    hide AllPostings, ProjectionOf, ShowsProjection, OneProjection;
    ProjectionsPosted(resolve, contracts, Projected(key, e));
    ProjectionsPosted(resolve, contracts, ListedProjection(e));
    forall i, j | HasProjection(contracts, i, j)
      ensures MakesProjection(resolve, contracts, i, j, Projected(key, e))
          <==> contracts[i].seedId == key.seedId && key.kind in contracts[i].contract.projections[j].objectKinds
               && ShowsProjection(e, contracts[i], contracts[i].contract.projections[j])
      ensures MakesProjection(resolve, contracts, i, j, ListedProjection(e))
          <==> ShowsProjection(e, contracts[i], contracts[i].contract.projections[j])
    {
      OneProjectionMakes(contracts[i], contracts[i].contract.projections[j], key, e);
      ProjectionIff(e, contracts[i], contracts[i].contract.projections[j]);
    }
  }

  /** The two flat lists hold exactly the commands and the projections of all contracts, as they were declared. */
  lemma ListsShowContracts(resolve: (string, string) -> string, contracts: seq<Loaded>, c: CommandEntry,
                           q: ProjectionEntry)
    ensures c in IndexOf(resolve, contracts).commands <==> SomeCommand(c, resolve, contracts)
    ensures q in IndexOf(resolve, contracts).projections <==> SomeProjection(q, contracts)
  {
    hide PostAll, AllPostings, SomeCommand, SomeProjection;
    ListedIsPosted(AllPostings(resolve, contracts));
    CommandedFrom(resolve, contracts, Key("", ""), c);
    ProjectedFrom(resolve, contracts, Key("", ""), q);
  }

  /** An object holds exactly the declarations of its kind and the relations, commands and projections that name
      it, in the contracts of its seed, as they were declared. */
  lemma ObjectShowsContracts(resolve: (string, string) -> string, contracts: seq<Loaded>, key: Key)
    ensures var o := EnsureObject(IndexOf(resolve, contracts).objects, key);
            && o.seedId == TrimSpace(key.seedId) && o.kind == TrimSpace(key.kind)
            && (forall e :: e in o.realizations <==> FromObject(e, resolve, contracts, key))
            && (forall e :: e in o.outgoing <==> Leaving(e, resolve, contracts, key))
            && (forall e :: e in o.incoming <==> Entering(e, resolve, contracts, key))
            && (forall e :: e in o.commands <==> Touching(e, resolve, contracts, key))
            && (forall e :: e in o.projections <==> Covering(e, contracts, key))
  {
    hide PostAll, AllPostings, EnsureObject, Pick, FromObject, Leaving, Entering, Touching, Covering, TrimSpace;
    var ps := AllPostings(resolve, contracts);
    ObjectsFromPostings(ps, key);
    forall e ensures e in Pick(ps, AtDeclared(key)) <==> FromObject(e, resolve, contracts, key) {
      PickMember(ps, AtDeclared(key), e);
      DeclaredFrom(resolve, contracts, key, e);
    }
    forall e ensures e in Pick(ps, AtOutgoing(key)) <==> Leaving(e, resolve, contracts, key) {
      PickMember(ps, AtOutgoing(key), e);
      OutgoingFrom(resolve, contracts, key, e);
    }
    forall e ensures e in Pick(ps, AtIncoming(key)) <==> Entering(e, resolve, contracts, key) {
      PickMember(ps, AtIncoming(key), e);
      IncomingFrom(resolve, contracts, key, e);
    }
    forall e ensures e in Pick(ps, AtCommanded(key)) <==> Touching(e, resolve, contracts, key) {
      PickMember(ps, AtCommanded(key), e);
      CommandedFrom(resolve, contracts, key, e);
    }
    forall e ensures e in Pick(ps, AtProjected(key)) <==> Covering(e, contracts, key) {
      PickMember(ps, AtProjected(key), e);
      ProjectedFrom(resolve, contracts, key, e);
    }
  }

  lemma UsesFrom(resolve: (string, string) -> string, contracts: seq<Loaded>, ref: string, e: CommandUse)
    ensures SchemaOfInput(ref, e) in AllPostings(resolve, contracts) <==> UsedAsInput(e, resolve, contracts, ref)
    ensures SchemaOfResult(ref, e) in AllPostings(resolve, contracts) <==> UsedAsResult(e, resolve, contracts, ref)
  {
    hide AllPostings, ShowsRef, ShowsCommandUse, OneCommand;
    CommandPosted(resolve, contracts, SchemaOfInput(ref, e));
    CommandPosted(resolve, contracts, SchemaOfResult(ref, e));
    forall i, j | HasCommand(contracts, i, j)
      ensures MakesCommand(resolve, contracts, i, j, SchemaOfInput(ref, e))
          <==> ref != "" && ShowsRef(ref, resolve, contracts[i], contracts[i].contract.commands[j].inputSchemaRef)
               && ShowsCommandUse(e, contracts[i], contracts[i].contract.commands[j])
      ensures MakesCommand(resolve, contracts, i, j, SchemaOfResult(ref, e))
          <==> ref != "" && ShowsRef(ref, resolve, contracts[i], contracts[i].contract.commands[j].resultSchemaRef)
               && ShowsCommandUse(e, contracts[i], contracts[i].contract.commands[j])
    {
      OneCommandUses(resolve, contracts[i], contracts[i].contract.commands[j], ref, e);
    }
  }

  lemma ObjectUsesFrom(resolve: (string, string) -> string, contracts: seq<Loaded>, ref: string, e: ObjectUse)
    ensures SchemaOfObject(ref, e) in AllPostings(resolve, contracts) <==> UsedByObject(e, resolve, contracts, ref)
  {
    hide AllPostings, ShowsRef, ShowsObjectUse, OneDeclaration;
    ObjectPosted(resolve, contracts, SchemaOfObject(ref, e));
    forall i, j | HasObject(contracts, i, j)
      ensures MakesObject(resolve, contracts, i, j, SchemaOfObject(ref, e))
          <==> ref != "" && ShowsRef(ref, resolve, contracts[i], contracts[i].contract.objects[j].schemaRef)
               && ShowsObjectUse(e, contracts[i], contracts[i].contract.objects[j])
    {
      OneObjectUse(resolve, contracts[i], contracts[i].contract.objects[j], ref, e);
    }
  }

  lemma OneObjectUse(resolve: (string, string) -> string, item: Loaded, o: DomainObject, ref: string, e: ObjectUse)
    ensures SchemaOfObject(ref, e) in OneDeclaration(resolve, item, o)
        <==> ref != "" && ShowsRef(ref, resolve, item, o.schemaRef) && ShowsObjectUse(e, item, o)
  {
    var r := RealizationOf(resolve, item, o);
    RealizationIff(r, resolve, item, o);
    ObjectUseIff(e, item, o);
    assert ShowsRef(ref, resolve, item, o.schemaRef) <==> ref == r.schemaRef;
    hide RealizationOf, ObjectUseOf, ShowsRef, ShowsObjectUse, ShowsRealization;
  }

  /** A schema lists exactly the objects, command inputs and command results that reference it, as declared. */
  lemma SchemaShowsContracts(resolve: (string, string) -> string, contracts: seq<Loaded>, ref: string)
    ensures var x := EnsureSchema(IndexOf(resolve, contracts).schemas, ref);
            && x.ref == ref
            && (forall e :: e in x.objectUses <==> UsedByObject(e, resolve, contracts, ref))
            && (forall e :: e in x.commandInputs <==> UsedAsInput(e, resolve, contracts, ref))
            && (forall e :: e in x.commandResults <==> UsedAsResult(e, resolve, contracts, ref))
  {
    hide PostAll, AllPostings, EnsureSchema, Pick, UsedByObject, UsedAsInput, UsedAsResult;
    var ps := AllPostings(resolve, contracts);
    SchemaContents(ps, ref);
    forall e ensures e in Pick(ps, AtObjectUse(ref)) <==> UsedByObject(e, resolve, contracts, ref) {
      PickMember(ps, AtObjectUse(ref), e);
      ObjectUsesFrom(resolve, contracts, ref, e);
    }
    forall e ensures e in Pick(ps, AtInput(ref)) <==> UsedAsInput(e, resolve, contracts, ref) {
      PickMember(ps, AtInput(ref), e);
      UsesFrom(resolve, contracts, ref, e);
    }
    forall e ensures e in Pick(ps, AtResult(ref)) <==> UsedAsResult(e, resolve, contracts, ref) {
      PickMember(ps, AtResult(ref), e);
      UsesFrom(resolve, contracts, ref, e);
    }
  }
}
