/** LoadCatalog: the registry's inverted index, built by nested loops over the contracts that keep adding to
    shared object and schema entries. */
module Catalog {
  import opened Wrappers
  import opened Text
  import opened Sorting
  import opened ContractTypes
  import opened WellFormed

  /** A contract with what its manifest says of the realization. */
  datatype Loaded = Loaded(
    reference: string, seedId: string, realizationId: string, approachId: string, summary: string, status: string,
    contractFile: string, contract: Contract)

  datatype RelationEntry = RelationEntry(
    reference: string, seedId: string, realizationId: string, kind: string, summary: string, fromKinds: seq<string>,
    toKinds: seq<string>, cardinality: string, visibility: string, schemaRef: string, capabilities: seq<string>,
    attributes: seq<Field>, contractFile: string)

  datatype CommandEntry = CommandEntry(
    reference: string, seedId: string, realizationId: string, name: string, summary: string, path: string,
    authModes: seq<string>, capabilities: seq<string>, idempotency: string, inputSchemaRef: string,
    resultSchemaRef: string, projection: string, consistency: string, contractFile: string)

  datatype ProjectionEntry = ProjectionEntry(
    reference: string, seedId: string, realizationId: string, name: string, summary: string, path: string,
    authModes: seq<string>, capabilities: seq<string>, freshness: string, dataViews: seq<DataView>,
    contractFile: string)

  datatype Realization = Realization(
    reference: string, seedId: string, realizationId: string, approachId: string, summary: string, status: string,
    surfaceKind: string, contractFile: string, schemaRef: string, capabilities: seq<string>)

  datatype ObjectUse = ObjectUse(
    reference: string, seedId: string, realizationId: string, kind: string, summary: string, contractFile: string)

  datatype CommandUse = CommandUse(
    reference: string, seedId: string, realizationId: string, name: string, summary: string, path: string,
    contractFile: string)

  /** What ensureObject keys the object index by. */
  datatype Key = Key(seedId: string, kind: string)

  datatype ObjectEntry = ObjectEntry(
    seedId: string, kind: string, realizations: seq<Realization>, outgoing: seq<RelationEntry>,
    incoming: seq<RelationEntry>, commands: seq<CommandEntry>, projections: seq<ProjectionEntry>)

  datatype SchemaEntry = SchemaEntry(
    ref: string, objectUses: seq<ObjectUse>, commandInputs: seq<CommandUse>, commandResults: seq<CommandUse>)

  datatype Index = Index(
    objects: map<Key, ObjectEntry>, schemas: map<string, SchemaEntry>, commands: seq<CommandEntry>,
    projections: seq<ProjectionEntry>)

  const EMPTY_INDEX := Index(map[], map[], [], [])

  /** resolveContractRef; resolve stands for the path arithmetic. */
  function Canonical(resolve: (string, string) -> string, item: Loaded, ref: string): string {
    if Blank(ref) then "" else resolve(item.contractFile, TrimSpace(ref))
  }

  /** A reference that is not blank resolves to some path. */
  ghost predicate Resolving(resolve: (string, string) -> string) {
    forall file, ref :: resolve(file, ref) != ""
  }

  /** firstNonEmpty. */
  function FirstNonEmpty(values: seq<string>): string {
    if values == [] then "" else if !Blank(values[0]) then TrimSpace(values[0]) else FirstNonEmpty(values[1..])
  }

  function CommandOf(resolve: (string, string) -> string, item: Loaded, c: Command): CommandEntry {
    CommandEntry(item.reference, item.seedId, item.realizationId, TrimSpace(c.name), TrimSpace(c.summary),
                 TrimSpace(c.path), c.authModes, c.capabilities, TrimSpace(c.idempotency),
                 Canonical(resolve, item, c.inputSchemaRef), Canonical(resolve, item, c.resultSchemaRef),
                 TrimSpace(c.projection), TrimSpace(c.consistency), TrimSpace(item.contractFile))
  }

  /** copyDataViews. */
  function CopiedViews(views: seq<DataView>): seq<DataView> {
    seq(|views|, i requires 0 <= i < |views| => views[i].(summary := TrimSpace(views[i].summary)))
  }

  function ProjectionOf(item: Loaded, p: Projection): ProjectionEntry {
    ProjectionEntry(item.reference, item.seedId, item.realizationId, TrimSpace(p.name), TrimSpace(p.summary),
                    TrimSpace(p.path), p.authModes, p.capabilities, TrimSpace(p.freshness), CopiedViews(p.dataViews),
                    TrimSpace(item.contractFile))
  }

  function RelationOf(resolve: (string, string) -> string, item: Loaded, r: Relation): RelationEntry {
    RelationEntry(item.reference, item.seedId, item.realizationId, TrimSpace(r.kind), TrimSpace(r.summary),
                  r.fromKinds, r.toKinds, TrimSpace(r.cardinality), TrimSpace(r.visibility),
                  Canonical(resolve, item, r.schemaRef), r.capabilities, r.attributes, TrimSpace(item.contractFile))
  }

  function RealizationOf(resolve: (string, string) -> string, item: Loaded, o: DomainObject): Realization {
    Realization(item.reference, item.seedId, item.realizationId, item.approachId,
                FirstNonEmpty([item.contract.summary, item.summary, item.realizationId]), TrimSpace(item.status),
                TrimSpace(item.contract.surfaceKind), TrimSpace(item.contractFile),
                Canonical(resolve, item, o.schemaRef), o.capabilities)
  }

  function ObjectUseOf(item: Loaded, o: DomainObject): ObjectUse {
    ObjectUse(item.reference, item.seedId, item.realizationId, o.kind, TrimSpace(o.summary),
              TrimSpace(item.contractFile))
  }

  function CommandUseOf(c: CommandEntry): CommandUse {
    CommandUse(c.reference, c.seedId, c.realizationId, c.name, c.summary, c.path, c.contractFile)
  }

  // ----- One addition to the index -----

  datatype Posting =
    | Declared(key: Key, realization: Realization)
    | Outgoing(key: Key, relation: RelationEntry)
    | Incoming(key: Key, relation: RelationEntry)
    | Commanded(key: Key, command: CommandEntry)
    | Projected(key: Key, projection: ProjectionEntry)
    | SchemaOfObject(ref: string, objectUse: ObjectUse)
    | SchemaOfInput(ref: string, commandUse: CommandUse)
    | SchemaOfResult(ref: string, commandUse: CommandUse)
    | ListedCommand(command: CommandEntry)
    | ListedProjection(projection: ProjectionEntry)

  predicate OnObject(p: Posting) {
    p.Declared? || p.Outgoing? || p.Incoming? || p.Commanded? || p.Projected?
  }

  predicate OnSchema(p: Posting) {
    p.SchemaOfObject? || p.SchemaOfInput? || p.SchemaOfResult?
  }

  /** ensureObject. */
  function EnsureObject(objects: map<Key, ObjectEntry>, key: Key): ObjectEntry {
    if key in objects then objects[key] else ObjectEntry(TrimSpace(key.seedId), TrimSpace(key.kind), [], [], [], [], [])
  }

  /** ensureSchema. */
  function EnsureSchema(schemas: map<string, SchemaEntry>, ref: string): SchemaEntry {
    if ref in schemas then schemas[ref] else SchemaEntry(ref, [], [], [])
  }

  function AddToObject(e: ObjectEntry, p: Posting): ObjectEntry
    requires OnObject(p)
  {
    match p
    case Declared(_, r) => e.(realizations := e.realizations + [r])
    case Outgoing(_, r) => e.(outgoing := e.outgoing + [r])
    case Incoming(_, r) => e.(incoming := e.incoming + [r])
    case Commanded(_, c) => e.(commands := e.commands + [c])
    case Projected(_, q) => e.(projections := e.projections + [q])
  }

  function AddToSchema(e: SchemaEntry, p: Posting): SchemaEntry
    requires OnSchema(p)
  {
    match p
    case SchemaOfObject(_, x) => e.(objectUses := e.objectUses + [x])
    case SchemaOfInput(_, x) => e.(commandInputs := e.commandInputs + [x])
    case SchemaOfResult(_, x) => e.(commandResults := e.commandResults + [x])
  }

  function Post(index: Index, p: Posting): Index {
    if OnObject(p) then index.(objects := index.objects[p.key := AddToObject(EnsureObject(index.objects, p.key), p)])
    else if OnSchema(p) then
      index.(schemas := index.schemas[p.ref := AddToSchema(EnsureSchema(index.schemas, p.ref), p)])
    else if p.ListedCommand? then index.(commands := index.commands + [p.command])
    else index.(projections := index.projections + [p.projection])
  }

  function PostAll(index: Index, ps: seq<Posting>): Index {
    if ps == [] then index else Post(PostAll(index, ps[..|ps| - 1]), ps[|ps| - 1])
  }

  lemma PostSnoc(index: Index, ps: seq<Posting>, p: Posting)
    ensures PostAll(index, ps + [p]) == Post(PostAll(index, ps), p)
  {
    assert (ps + [p])[..|ps|] == ps;
  }

  lemma {:induction false} PostAppend(index: Index, a: seq<Posting>, b: seq<Posting>)
    ensures PostAll(index, a + b) == PostAll(PostAll(index, a), b)
  {
    hide Post;
    if b == [] {
      assert a + b == a;
    } else {
      var n := |b| - 1;
      PostAppend(index, a, b[..n]);
      PostSnoc(index, a + b[..n], b[n]);
      assert a + b == a + b[..n] + [b[n]];
    }
  }

  // ----- What the loops add, in order -----

  /** What f adds for each element, one after the other. */
  function Flat<A>(items: seq<A>, f: A -> seq<Posting>): seq<Posting> {
    if items == [] then [] else Flat(items[..|items| - 1], f) + f(items[|items| - 1])
  }

  lemma FlatStep<A>(items: seq<A>, i: nat, f: A -> seq<Posting>)
    requires i < |items|
    ensures Flat(items[..i + 1], f) == Flat(items[..i], f) + f(items[i])
  {
    assert items[..i + 1][..i] == items[..i];
  }

  function KindPostings(item: Loaded, kinds: seq<string>, make: Key -> Posting): seq<Posting> {
    seq(|kinds|, i requires 0 <= i < |kinds| => make(Key(item.seedId, kinds[i])))
  }

  function MakeOutgoing(r: RelationEntry): Key -> Posting { k => Outgoing(k, r) }
  function MakeIncoming(r: RelationEntry): Key -> Posting { k => Incoming(k, r) }
  function MakeCommanded(c: CommandEntry): Key -> Posting { k => Commanded(k, c) }
  function MakeProjected(p: ProjectionEntry): Key -> Posting { k => Projected(k, p) }

  function OneDeclaration(resolve: (string, string) -> string, item: Loaded, o: DomainObject): seq<Posting> {
    var r := RealizationOf(resolve, item, o);
    (if r.schemaRef != "" then [SchemaOfObject(r.schemaRef, ObjectUseOf(item, o))] else [])
    + [Declared(Key(item.seedId, o.kind), r)]
  }

  function OneRelation(resolve: (string, string) -> string, item: Loaded, r: Relation): seq<Posting> {
    KindPostings(item, r.fromKinds, MakeOutgoing(RelationOf(resolve, item, r)))
    + KindPostings(item, r.toKinds, MakeIncoming(RelationOf(resolve, item, r)))
  }

  /** What a command adds besides its objects. */
  function CommandTail(e: CommandEntry): seq<Posting> {
    [ListedCommand(e)] + (if e.inputSchemaRef != "" then [SchemaOfInput(e.inputSchemaRef, CommandUseOf(e))] else [])
    + (if e.resultSchemaRef != "" then [SchemaOfResult(e.resultSchemaRef, CommandUseOf(e))] else [])
  }

  function OneCommand(resolve: (string, string) -> string, item: Loaded, c: Command): seq<Posting> {
    var e := CommandOf(resolve, item, c);
    KindPostings(item, c.objectKinds, MakeCommanded(e)) + CommandTail(e)
  }

  function OneProjection(item: Loaded, p: Projection): seq<Posting> {
    KindPostings(item, p.objectKinds, MakeProjected(ProjectionOf(item, p))) + [ListedProjection(ProjectionOf(item, p))]
  }

  function Declarations(resolve: (string, string) -> string, item: Loaded): DomainObject -> seq<Posting> {
    (o: DomainObject) => OneDeclaration(resolve, item, o)
  }

  function Relations(resolve: (string, string) -> string, item: Loaded): Relation -> seq<Posting> {
    (r: Relation) => OneRelation(resolve, item, r)
  }

  function Commands(resolve: (string, string) -> string, item: Loaded): Command -> seq<Posting> {
    (c: Command) => OneCommand(resolve, item, c)
  }

  function Projections(item: Loaded): Projection -> seq<Posting> {
    (p: Projection) => OneProjection(item, p)
  }

  function ItemPostings(resolve: (string, string) -> string, item: Loaded): seq<Posting> {
    Flat(item.contract.objects, Declarations(resolve, item)) + Flat(item.contract.relations, Relations(resolve, item))
    + Flat(item.contract.commands, Commands(resolve, item)) + Flat(item.contract.projections, Projections(item))
  }

  function Items(resolve: (string, string) -> string): Loaded -> seq<Posting> {
    (item: Loaded) => ItemPostings(resolve, item)
  }

  function AllPostings(resolve: (string, string) -> string, contracts: seq<Loaded>): seq<Posting> {
    Flat(contracts, Items(resolve))
  }

  function IndexOf(resolve: (string, string) -> string, contracts: seq<Loaded>): Index {
    PostAll(EMPTY_INDEX, AllPostings(resolve, contracts))
  }

  // ----- The loops -----

  class Builder {
    var objects: map<Key, ObjectEntry>
    var schemas: map<string, SchemaEntry>
    var commands: seq<CommandEntry>
    var projections: seq<ProjectionEntry>

    constructor ()
      ensures Value() == EMPTY_INDEX
    {
      objects, schemas, commands, projections := map[], map[], [], [];
    }

    function Value(): Index
      reads this
    {
      Index(objects, schemas, commands, projections)
    }

    method AddObjectPosting(p: Posting)
      requires OnObject(p)
      modifies this
      ensures Value() == Post(old(Value()), p)
    {
      var detail := EnsureObject(objects, p.key);
      objects := objects[p.key := AddToObject(detail, p)];
    }

    method AddSchemaPosting(p: Posting)
      requires OnSchema(p)
      modifies this
      ensures Value() == Post(old(Value()), p)
    {
      var schema := EnsureSchema(schemas, p.ref);
      schemas := schemas[p.ref := AddToSchema(schema, p)];
    }

    /** for _, kind := range kinds: one addition to the object of each kind. */
    method AddForKinds(item: Loaded, kinds: seq<string>, make: Key -> Posting)
      requires forall k :: OnObject(make(k))
      modifies this
      ensures Value() == PostAll(old(Value()), KindPostings(item, kinds, make))
    {
      hide Post, OnObject;
      var postings := KindPostings(item, kinds, make);
      for i := 0 to |kinds|
        invariant Value() == PostAll(old(Value()), postings[..i])
      {
        PostSnoc(old(Value()), postings[..i], postings[i]);
        assert postings[..i + 1] == postings[..i] + [postings[i]];
        AddObjectPosting(make(Key(item.seedId, kinds[i])));
      }
      assert postings[..|kinds|] == postings;
    }

    method AddDeclaration(resolve: (string, string) -> string, item: Loaded, o: DomainObject)
      modifies this
      ensures Value() == PostAll(old(Value()), OneDeclaration(resolve, item, o))
    {
      hide PostAll, RealizationOf, AddToSchema, AddToObject;
      var r := RealizationOf(resolve, item, o);
      ghost var done: seq<Posting> := [];
      NothingPosted(Value());
      if r.schemaRef != "" {
        PostSnoc(old(Value()), done, SchemaOfObject(r.schemaRef, ObjectUseOf(item, o)));
        done := done + [SchemaOfObject(r.schemaRef, ObjectUseOf(item, o))];
        AddSchemaPosting(SchemaOfObject(r.schemaRef, ObjectUseOf(item, o)));
      }
      PostSnoc(old(Value()), done, Declared(Key(item.seedId, o.kind), r));
      AddObjectPosting(Declared(Key(item.seedId, o.kind), r));
      assert done + [Declared(Key(item.seedId, o.kind), r)] == OneDeclaration(resolve, item, o);
    }

    method AddRelation(resolve: (string, string) -> string, item: Loaded, r: Relation)
      modifies this
      ensures Value() == PostAll(old(Value()), OneRelation(resolve, item, r))
    {
      hide PostAll, KindPostings, RelationOf;
      var entry := RelationOf(resolve, item, r);
      AddForKinds(item, r.fromKinds, MakeOutgoing(entry));
      AddForKinds(item, r.toKinds, MakeIncoming(entry));
      PostAppend(old(Value()), KindPostings(item, r.fromKinds, MakeOutgoing(entry)),
                 KindPostings(item, r.toKinds, MakeIncoming(entry)));
    }

    method AddCommand(resolve: (string, string) -> string, item: Loaded, c: Command)
      modifies this
      ensures Value() == PostAll(old(Value()), OneCommand(resolve, item, c))
    {
      hide KindPostings, PostAll, CommandOf, AddToSchema, AddToObject;
      var e := CommandOf(resolve, item, c);
      AddForKinds(item, c.objectKinds, MakeCommanded(e));
      ghost var kinds, tail := KindPostings(item, c.objectKinds, MakeCommanded(e)), [ListedCommand(e)];
      PostSnoc(old(Value()), kinds, ListedCommand(e));
      commands := commands + [e];
      if e.inputSchemaRef != "" {
        PostSnoc(old(Value()), kinds + tail, SchemaOfInput(e.inputSchemaRef, CommandUseOf(e)));
        assert kinds + tail + [SchemaOfInput(e.inputSchemaRef, CommandUseOf(e))]
               == kinds + (tail + [SchemaOfInput(e.inputSchemaRef, CommandUseOf(e))]);
        tail := tail + [SchemaOfInput(e.inputSchemaRef, CommandUseOf(e))];
        AddSchemaPosting(SchemaOfInput(e.inputSchemaRef, CommandUseOf(e)));
      }
      if e.resultSchemaRef != "" {
        PostSnoc(old(Value()), kinds + tail, SchemaOfResult(e.resultSchemaRef, CommandUseOf(e)));
        assert kinds + tail + [SchemaOfResult(e.resultSchemaRef, CommandUseOf(e))]
               == kinds + (tail + [SchemaOfResult(e.resultSchemaRef, CommandUseOf(e))]);
        tail := tail + [SchemaOfResult(e.resultSchemaRef, CommandUseOf(e))];
        AddSchemaPosting(SchemaOfResult(e.resultSchemaRef, CommandUseOf(e)));
      }
      assert tail == CommandTail(e);
    }

    method AddProjection(item: Loaded, p: Projection)
      modifies this
      ensures Value() == PostAll(old(Value()), OneProjection(item, p))
    {
      hide PostAll, KindPostings, ProjectionOf, AddToObject, AddToSchema;
      var entry := ProjectionOf(item, p);
      AddForKinds(item, p.objectKinds, MakeProjected(entry));
      PostSnoc(old(Value()), KindPostings(item, p.objectKinds, MakeProjected(entry)), ListedProjection(entry));
      projections := projections + [entry];
    }

    method AddContract(resolve: (string, string) -> string, item: Loaded)
      modifies this
      ensures Value() == PostAll(old(Value()), ItemPostings(resolve, item))
    {
      hide PostAll, Flat, OneDeclaration, OneRelation, OneCommand, OneProjection;
      var c := item.contract;
      ghost var start, done := Value(), [];
      NothingPosted(start);
      FlatNothing(Declarations(resolve, item));
      for i := 0 to |c.objects|
        invariant Value() == PostAll(start, Flat(c.objects[..i], Declarations(resolve, item)))
      {
        FlatStep(c.objects, i, Declarations(resolve, item));
        AddDeclaration(resolve, item, c.objects[i]);
        PostAppend(start, Flat(c.objects[..i], Declarations(resolve, item)),
                   OneDeclaration(resolve, item, c.objects[i]));
      }
      assert c.objects[..|c.objects|] == c.objects;
      done := Flat(c.objects, Declarations(resolve, item));
      FlatNothing(Relations(resolve, item));
      assert done + [] == done;
      for i := 0 to |c.relations|
        invariant Value() == PostAll(start, done + Flat(c.relations[..i], Relations(resolve, item)))
      {
        FlatStep(c.relations, i, Relations(resolve, item));
        AddRelation(resolve, item, c.relations[i]);
        AppendedMore(start, done, Flat(c.relations[..i], Relations(resolve, item)),
                     OneRelation(resolve, item, c.relations[i]));
      }
      assert c.relations[..|c.relations|] == c.relations;
      done := done + Flat(c.relations, Relations(resolve, item));
      FlatNothing(Commands(resolve, item));
      assert done + [] == done;
      for i := 0 to |c.commands|
        invariant Value() == PostAll(start, done + Flat(c.commands[..i], Commands(resolve, item)))
      {
        FlatStep(c.commands, i, Commands(resolve, item));
        AddCommand(resolve, item, c.commands[i]);
        AppendedMore(start, done, Flat(c.commands[..i], Commands(resolve, item)),
                     OneCommand(resolve, item, c.commands[i]));
      }
      assert c.commands[..|c.commands|] == c.commands;
      done := done + Flat(c.commands, Commands(resolve, item));
      FlatNothing(Projections(item));
      assert done + [] == done;
      for i := 0 to |c.projections|
        invariant Value() == PostAll(start, done + Flat(c.projections[..i], Projections(item)))
      {
        FlatStep(c.projections, i, Projections(item));
        AddProjection(item, c.projections[i]);
        AppendedMore(start, done, Flat(c.projections[..i], Projections(item)), OneProjection(item, c.projections[i]));
      }
      assert c.projections[..|c.projections|] == c.projections;
    }
  }

  lemma FlatNothing<A>(f: A -> seq<Posting>)
    ensures Flat([], f) == []
  {}

  lemma AppendedMore(start: Index, done: seq<Posting>, sofar: seq<Posting>, more: seq<Posting>)
    ensures PostAll(PostAll(start, done + sofar), more) == PostAll(start, done + (sofar + more))
  {
    hide PostAll;
    PostAppend(start, done + sofar, more);
    assert done + sofar + more == done + (sofar + more);
  }

  lemma NothingPosted(index: Index)
    ensures PostAll(index, []) == index
  {}

  /** The loops of LoadCatalog. */
  method BuildIndex(resolve: (string, string) -> string, contracts: seq<Loaded>) returns (index: Index)
    ensures index == IndexOf(resolve, contracts)
  {
    hide PostAll, ItemPostings, Flat;
    var builder := new Builder();
    NothingPosted(EMPTY_INDEX);
    FlatNothing(Items(resolve));
    for i := 0 to |contracts|
      invariant fresh(builder)
      invariant builder.Value() == PostAll(EMPTY_INDEX, Flat(contracts[..i], Items(resolve)))
    {
      FlatStep(contracts, i, Items(resolve));
      builder.AddContract(resolve, contracts[i]);
      PostAppend(EMPTY_INDEX, Flat(contracts[..i], Items(resolve)), ItemPostings(resolve, contracts[i]));
    }
    assert contracts[..|contracts|] == contracts;
    return builder.Value();
  }
}
