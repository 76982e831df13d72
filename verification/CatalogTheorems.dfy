/** The catalog agrees with a plain scan of the contracts, and its links are closed. */
module CatalogTheorems {
  import opened Wrappers
  import opened Text
  import opened Sorting
  import opened ContractTypes
  import opened WellFormed
  import opened Catalog

  // ----- What the postings say about one entry -----

  function Pick<T>(ps: seq<Posting>, f: Posting -> Option<T>): seq<T> {
    if ps == [] then []
    else
      Pick(ps[..|ps| - 1], f)
      + match f(ps[|ps| - 1]) case Some(x) => [x] case None => []
  }

  function AtDeclared(key: Key): Posting -> Option<Realization> {
    (p: Posting) => if p.Declared? && p.key == key then Some(p.realization) else None
  }

  function AtOutgoing(key: Key): Posting -> Option<RelationEntry> {
    (p: Posting) => if p.Outgoing? && p.key == key then Some(p.relation) else None
  }

  function AtIncoming(key: Key): Posting -> Option<RelationEntry> {
    (p: Posting) => if p.Incoming? && p.key == key then Some(p.relation) else None
  }

  function AtCommanded(key: Key): Posting -> Option<CommandEntry> {
    (p: Posting) => if p.Commanded? && p.key == key then Some(p.command) else None
  }

  function AtProjected(key: Key): Posting -> Option<ProjectionEntry> {
    (p: Posting) => if p.Projected? && p.key == key then Some(p.projection) else None
  }

  function AtListedCommand(): Posting -> Option<CommandEntry> {
    (p: Posting) => if p.ListedCommand? then Some(p.command) else None
  }

  function AtListedProjection(): Posting -> Option<ProjectionEntry> {
    (p: Posting) => if p.ListedProjection? then Some(p.projection) else None
  }

  lemma {:induction false} PickConcat<T>(a: seq<Posting>, b: seq<Posting>, f: Posting -> Option<T>)
    ensures Pick(a + b, f) == Pick(a, f) + Pick(b, f)
  {
    if b == [] {
      assert a + b == a;
    } else {
      var n := |b| - 1;
      PickConcat(a, b[..n], f);
      assert (a + b)[..|a + b| - 1] == a + b[..n];
    }
  }

  lemma {:induction false} PickNone<T>(ps: seq<Posting>, f: Posting -> Option<T>)
    requires forall p :: p in ps ==> f(p).None?
    ensures Pick(ps, f) == []
  {
    if ps != [] {
      assert ps[|ps| - 1] in ps;
      PickNone(ps[..|ps| - 1], f);
    }
  }

  lemma {:induction false} PickMember<T(!new)>(ps: seq<Posting>, f: Posting -> Option<T>, x: T)
    ensures x in Pick(ps, f) <==> exists i :: 0 <= i < |ps| && f(ps[i]) == Some(x)
  {
    if ps != [] {
      var n := |ps| - 1;
      PickMember(ps[..n], f, x);
      if x in Pick(ps[..n], f) {
        var i :| 0 <= i < n && f(ps[..n][i]) == Some(x);
        assert f(ps[i]) == Some(x);
      }
      if i :| 0 <= i < |ps| && f(ps[i]) == Some(x) {
        assert i < n ==> f(ps[..n][i]) == Some(x);
      }
    }
  }

  predicate PostsTo(p: Posting, key: Key) {
    OnObject(p) && p.key == key
  }

  ghost predicate Posted(ps: seq<Posting>, key: Key) {
    exists i :: 0 <= i < |ps| && PostsTo(ps[i], key)
  }

  /** The object entry the postings make for a key. */
  ghost function EntryFrom(ps: seq<Posting>, key: Key): ObjectEntry {
    ObjectEntry(TrimSpace(key.seedId), TrimSpace(key.kind), Pick(ps, AtDeclared(key)), Pick(ps, AtOutgoing(key)),
                Pick(ps, AtIncoming(key)), Pick(ps, AtCommanded(key)), Pick(ps, AtProjected(key)))
  }

  lemma PickStep<T>(ps: seq<Posting>, f: Posting -> Option<T>)
    requires ps != []
    ensures Pick(ps, f) == Pick(ps[..|ps| - 1], f) + match f(ps[|ps| - 1]) case Some(x) => [x] case None => []
  {}

  lemma EntryStep(ps: seq<Posting>, key: Key)
    requires ps != []
    ensures var n, p := |ps| - 1, ps[|ps| - 1];
            EntryFrom(ps, key) == if PostsTo(p, key) then AddToObject(EntryFrom(ps[..n], key), p)
                                  else EntryFrom(ps[..n], key)
  {
    PickStep(ps, AtDeclared(key));
    PickStep(ps, AtOutgoing(key));
    PickStep(ps, AtIncoming(key));
    PickStep(ps, AtCommanded(key));
    PickStep(ps, AtProjected(key));
    hide Pick, TrimSpace;
  }

  lemma PostedStep(ps: seq<Posting>, key: Key)
    requires ps != []
    ensures Posted(ps, key) <==> PostsTo(ps[|ps| - 1], key) || Posted(ps[..|ps| - 1], key)
  {
    hide PostsTo;
    var n := |ps| - 1;
    if Posted(ps[..n], key) {
      var i :| 0 <= i < n && PostsTo(ps[..n][i], key);
      assert PostsTo(ps[i], key);
    }
    if i :| 0 <= i < |ps| && PostsTo(ps[i], key) {
      assert i < n ==> PostsTo(ps[..n][i], key);
    }
  }

  /** An object exists exactly for the keys posted to, and holds exactly what was posted, in order. */
  lemma {:induction false} ObjectsFromPostings(ps: seq<Posting>, key: Key)
    ensures var objects := PostAll(EMPTY_INDEX, ps).objects;
            && (key in objects <==> Posted(ps, key))
            && EnsureObject(objects, key) == EntryFrom(ps, key)
  {
    if ps != [] {
      var n := |ps| - 1;
      ObjectsFromPostings(ps[..n], key);
      EntryStep(ps, key);
      PostedStep(ps, key);
      hide EntryFrom, Posted, TrimSpace, PostAll, AddToSchema, AddToObject;
      PostedOne(PostAll(EMPTY_INDEX, ps[..n]), ps[n], key);
      assert PostAll(EMPTY_INDEX, ps) == Post(PostAll(EMPTY_INDEX, ps[..n]), ps[n]) by { PostLast(ps); }
    }
  }

  lemma PostLast(ps: seq<Posting>)
    requires ps != []
    ensures PostAll(EMPTY_INDEX, ps) == Post(PostAll(EMPTY_INDEX, ps[..|ps| - 1]), ps[|ps| - 1])
  {}

  lemma PostedOne(index: Index, p: Posting, key: Key)
    ensures var objects := Post(index, p).objects;
            && (key in objects <==> key in index.objects || PostsTo(p, key))
            && EnsureObject(objects, key) == if PostsTo(p, key) then AddToObject(EnsureObject(index.objects, key), p)
                                             else EnsureObject(index.objects, key)
  {
    hide AddToObject, AddToSchema, TrimSpace;
  }

  lemma {:induction false} ListsFromPostings(ps: seq<Posting>)
    ensures PostAll(EMPTY_INDEX, ps).commands == Pick(ps, AtListedCommand())
    ensures PostAll(EMPTY_INDEX, ps).projections == Pick(ps, AtListedProjection())
  {
    hide AddToObject, AddToSchema, EnsureObject, EnsureSchema;
    if ps != [] { ListsFromPostings(ps[..|ps| - 1]); }
  }

  lemma {:induction false} SchemasFromPostings(ps: seq<Posting>, ref: string)
    ensures ref in PostAll(EMPTY_INDEX, ps).schemas
        <==> exists i :: 0 <= i < |ps| && OnSchema(ps[i]) && ps[i].ref == ref
  {
    hide AddToObject, AddToSchema, EnsureObject, EnsureSchema;
    if ps != [] {
      var n := |ps| - 1;
      SchemasFromPostings(ps[..n], ref);
      if ref in PostAll(EMPTY_INDEX, ps[..n]).schemas {
        var i :| 0 <= i < n && OnSchema(ps[..n][i]) && ps[..n][i].ref == ref;
        assert OnSchema(ps[i]) && ps[i].ref == ref;
      }
      if i :| 0 <= i < |ps| && OnSchema(ps[i]) && ps[i].ref == ref {
        assert i < n ==> OnSchema(ps[..n][i]) && ps[..n][i].ref == ref;
      }
    }
  }

  function AtObjectUse(ref: string): Posting -> Option<ObjectUse> {
    (p: Posting) => if p.SchemaOfObject? && p.ref == ref then Some(p.objectUse) else None
  }

  function AtInput(ref: string): Posting -> Option<CommandUse> {
    (p: Posting) => if p.SchemaOfInput? && p.ref == ref then Some(p.commandUse) else None
  }

  function AtResult(ref: string): Posting -> Option<CommandUse> {
    (p: Posting) => if p.SchemaOfResult? && p.ref == ref then Some(p.commandUse) else None
  }

  /** The schema entry the postings make for a reference. */
  ghost function SchemaFrom(ps: seq<Posting>, ref: string): SchemaEntry {
    SchemaEntry(ref, Pick(ps, AtObjectUse(ref)), Pick(ps, AtInput(ref)), Pick(ps, AtResult(ref)))
  }

  lemma SchemaStep(ps: seq<Posting>, ref: string)
    requires ps != []
    ensures var n, p := |ps| - 1, ps[|ps| - 1];
            SchemaFrom(ps, ref) == if OnSchema(p) && p.ref == ref then AddToSchema(SchemaFrom(ps[..n], ref), p)
                                   else SchemaFrom(ps[..n], ref)
  {
    PickStep(ps, AtObjectUse(ref));
    PickStep(ps, AtInput(ref));
    PickStep(ps, AtResult(ref));
    hide Pick;
  }

  /** A schema entry holds exactly the uses that were posted for it, in order. */
  lemma {:induction false} SchemaContents(ps: seq<Posting>, ref: string)
    ensures EnsureSchema(PostAll(EMPTY_INDEX, ps).schemas, ref) == SchemaFrom(ps, ref)
  {
    if ps != [] {
      SchemaContents(ps[..|ps| - 1], ref);
      SchemaStep(ps, ref);
      PostLast(ps);
      hide SchemaFrom, PostAll, AddToSchema, AddToObject, EnsureObject;
    }
  }

  // ----- The plain scan -----

  /** The entries of the elements that are wanted, in order. */
  function Filtered<A, T>(items: seq<A>, wanted: A -> bool, entry: A -> T): seq<T> {
    if items == [] then []
    else
      Filtered(items[..|items| - 1], wanted, entry)
      + if wanted(items[|items| - 1]) then [entry(items[|items| - 1])] else []
  }

  function IsKind(kind: string): DomainObject -> bool { (o: DomainObject) => o.kind == kind }
  function Leaves(kind: string): Relation -> bool { (r: Relation) => kind in r.fromKinds }
  function Enters(kind: string): Relation -> bool { (r: Relation) => kind in r.toKinds }
  function Touches(kind: string): Command -> bool { (c: Command) => kind in c.objectKinds }
  function Covers(kind: string): Projection -> bool { (p: Projection) => kind in p.objectKinds }

  function AsRealization(resolve: (string, string) -> string, item: Loaded): DomainObject -> Realization {
    (o: DomainObject) => RealizationOf(resolve, item, o)
  }
  function AsRelation(resolve: (string, string) -> string, item: Loaded): Relation -> RelationEntry {
    (r: Relation) => RelationOf(resolve, item, r)
  }
  function AsCommand(resolve: (string, string) -> string, item: Loaded): Command -> CommandEntry {
    (c: Command) => CommandOf(resolve, item, c)
  }
  function AsProjection(item: Loaded): Projection -> ProjectionEntry { (p: Projection) => ProjectionOf(item, p) }

  /** The entry a direct scan finds: for each contract of the seed, the objects of the kind and the relations,
      commands and projections that name it, once each. */
  function Scan(resolve: (string, string) -> string, contracts: seq<Loaded>, key: Key): ObjectEntry {
    if contracts == [] then ObjectEntry(TrimSpace(key.seedId), TrimSpace(key.kind), [], [], [], [], [])
    else
      var e := Scan(resolve, contracts[..|contracts| - 1], key);
      var item := contracts[|contracts| - 1];
      if item.seedId != key.seedId then e
      else
        var c := item.contract;
        e.(realizations := e.realizations + Filtered(c.objects, IsKind(key.kind), AsRealization(resolve, item)),
           outgoing := e.outgoing + Filtered(c.relations, Leaves(key.kind), AsRelation(resolve, item)),
           incoming := e.incoming + Filtered(c.relations, Enters(key.kind), AsRelation(resolve, item)),
           commands := e.commands + Filtered(c.commands, Touches(key.kind), AsCommand(resolve, item)),
           projections := e.projections + Filtered(c.projections, Covers(key.kind), AsProjection(item)))
  }

  // ----- One list of kinds -----

  /** No kind is listed twice for one relation, command or projection. */
  ghost predicate KindsDistinct(c: Contract) {
    && (forall i :: 0 <= i < |c.relations| ==> Distinct(c.relations[i].fromKinds) && Distinct(c.relations[i].toKinds))
    && (forall i :: 0 <= i < |c.commands| ==> Distinct(c.commands[i].objectKinds))
    && (forall i :: 0 <= i < |c.projections| ==> Distinct(c.projections[i].objectKinds))
  }

  /** f picks x from what `make` builds for `key`, and nothing for other keys. */
  ghost predicate PicksOnly<T(!new)>(f: Posting -> Option<T>, make: Key -> Posting, key: Key, x: T) {
    forall k :: f(make(k)) == if k == key then Some(x) else None
  }

  /** A kind listed once contributes once. */
  lemma {:induction false} KindsPick<T(!new)>(item: Loaded, kinds: seq<string>, make: Key -> Posting,
                                              f: Posting -> Option<T>, key: Key, x: T)
    requires Distinct(kinds) && PicksOnly(f, make, key, x)
    ensures Pick(KindPostings(item, kinds, make), f)
         == if item.seedId == key.seedId && key.kind in kinds then [x] else []
  {
    hide Pick;
    if kinds != [] {
      var n := |kinds| - 1;
      KindsPick(item, kinds[..n], make, f, key, x);
      var ps := KindPostings(item, kinds, make);
      assert ps[..n] == KindPostings(item, kinds[..n], make);
      PickStep(ps, f);
      assert f(ps[n]) == if Key(item.seedId, kinds[n]) == key then Some(x) else None;
      assert kinds[n] !in kinds[..n];
      assert key.kind in kinds <==> key.kind in kinds[..n] || key.kind == kinds[n];
    } else {
      assert KindPostings(item, kinds, make) == [];
      PickEmpty(f);
    }
  }

  /** f picks nothing of what make builds. */
  lemma KindsPickNone<T(!new)>(item: Loaded, kinds: seq<string>, make: Key -> Posting, f: Posting -> Option<T>)
    requires forall k :: f(make(k)).None?
    ensures Pick(KindPostings(item, kinds, make), f) == []
  {
    PickNone(KindPostings(item, kinds, make), f);
  }

  // ----- Each part of a contract -----

  lemma PickEmpty<T>(f: Posting -> Option<T>)
    ensures Pick([], f) == []
  {}

  /** What one list of a contract contributes, given what each element does. */
  lemma {:induction false} PickFlat<A(!new), T>(
      items: seq<A>, f: A -> seq<Posting>, pick: Posting -> Option<T>, same: bool, wanted: A -> bool, entry: A -> T)
    requires forall a :: a in items ==> Pick(f(a), pick) == if same && wanted(a) then [entry(a)] else []
    ensures Pick(Flat(items, f), pick) == if same then Filtered(items, wanted, entry) else []
  {
    hide Pick;
    if items != [] {
      var n := |items| - 1;
      PickFlat(items[..n], f, pick, same, wanted, entry);
      PickConcat(Flat(items[..n], f), f(items[n]), pick);
      assert items[n] in items;
    } else {
      PickEmpty(pick);
    }
  }

  lemma OneDeclarationPick(resolve: (string, string) -> string, item: Loaded, o: DomainObject, key: Key)
    ensures Pick(OneDeclaration(resolve, item, o), AtDeclared(key))
         == if item.seedId == key.seedId && o.kind == key.kind then [RealizationOf(resolve, item, o)] else []
  {
    hide RealizationOf;
    var r := RealizationOf(resolve, item, o);
    var schema := if r.schemaRef != "" then [SchemaOfObject(r.schemaRef, ObjectUseOf(item, o))] else [];
    var declared := [Declared(Key(item.seedId, o.kind), r)];
    PickConcat(schema, declared, AtDeclared(key));
    PickNone(schema, AtDeclared(key));
    PickStep(declared, AtDeclared(key));
    assert declared[..0] == [];
  }

  lemma OneRelationPick(resolve: (string, string) -> string, item: Loaded, r: Relation, key: Key)
    requires Distinct(r.fromKinds) && Distinct(r.toKinds)
    ensures Pick(OneRelation(resolve, item, r), AtOutgoing(key))
         == if item.seedId == key.seedId && key.kind in r.fromKinds then [RelationOf(resolve, item, r)] else []
    ensures Pick(OneRelation(resolve, item, r), AtIncoming(key))
         == if item.seedId == key.seedId && key.kind in r.toKinds then [RelationOf(resolve, item, r)] else []
  {
    hide Pick, RelationOf, KindPostings, Distinct;
    var entry := RelationOf(resolve, item, r);
    var from := KindPostings(item, r.fromKinds, MakeOutgoing(entry));
    var to := KindPostings(item, r.toKinds, MakeIncoming(entry));
    PickConcat(from, to, AtOutgoing(key));
    PickConcat(from, to, AtIncoming(key));
    KindsPick(item, r.fromKinds, MakeOutgoing(entry), AtOutgoing(key), key, entry);
    KindsPick(item, r.toKinds, MakeIncoming(entry), AtIncoming(key), key, entry);
    KindsPickNone(item, r.toKinds, MakeIncoming(entry), AtOutgoing(key));
    KindsPickNone(item, r.fromKinds, MakeOutgoing(entry), AtIncoming(key));
  }

  lemma OneCommandPick(resolve: (string, string) -> string, item: Loaded, c: Command, key: Key)
    requires Distinct(c.objectKinds)
    ensures Pick(OneCommand(resolve, item, c), AtCommanded(key))
         == if item.seedId == key.seedId && key.kind in c.objectKinds then [CommandOf(resolve, item, c)] else []
  {
    hide Pick, CommandOf, KindPostings, Distinct;
    var e := CommandOf(resolve, item, c);
    PickConcat(KindPostings(item, c.objectKinds, MakeCommanded(e)), CommandTail(e), AtCommanded(key));
    PickNone(CommandTail(e), AtCommanded(key));
    KindsPick(item, c.objectKinds, MakeCommanded(e), AtCommanded(key), key, e);
  }

  lemma OneProjectionPick(item: Loaded, p: Projection, key: Key)
    requires Distinct(p.objectKinds)
    ensures Pick(OneProjection(item, p), AtProjected(key))
         == if item.seedId == key.seedId && key.kind in p.objectKinds then [ProjectionOf(item, p)] else []
  {
    hide Pick, ProjectionOf, KindPostings, Distinct;
    var e := ProjectionOf(item, p);
    PickConcat(KindPostings(item, p.objectKinds, MakeProjected(e)), [ListedProjection(e)], AtProjected(key));
    PickNone([ListedProjection(e)], AtProjected(key));
    KindsPick(item, p.objectKinds, MakeProjected(e), AtProjected(key), key, e);
  }

  /** An addition comes from some element. */
  lemma {:induction false} InFlat<A(!new)>(items: seq<A>, f: A -> seq<Posting>, p: Posting)
    ensures p in Flat(items, f) <==> exists j :: 0 <= j < |items| && p in f(items[j])
  {
    if items != [] {
      var n := |items| - 1;
      InFlat(items[..n], f, p);
      if j :| 0 <= j < |items| && p in f(items[j]) {
        assert j < n ==> p in f(items[..n][j]);
      }
      if p in Flat(items[..n], f) {
        var j :| 0 <= j < n && p in f(items[..n][j]);
        assert p in f(items[j]);
      }
    }
  }

  /** Which additions each list makes. */
  lemma Tags(resolve: (string, string) -> string, item: Loaded)
    ensures forall p :: p in Flat(item.contract.objects, Declarations(resolve, item)) ==>
              p.Declared? || p.SchemaOfObject?
    ensures forall p :: p in Flat(item.contract.relations, Relations(resolve, item)) ==> p.Outgoing? || p.Incoming?
    ensures forall p :: p in Flat(item.contract.commands, Commands(resolve, item)) ==>
              p.Commanded? || p.ListedCommand? || p.SchemaOfInput? || p.SchemaOfResult?
    ensures forall p :: p in Flat(item.contract.projections, Projections(item)) ==> p.Projected? || p.ListedProjection?
  {
    hide RealizationOf, RelationOf, CommandOf, ProjectionOf, Flat;
    var c := item.contract;
    forall p | p in Flat(c.objects, Declarations(resolve, item)) ensures p.Declared? || p.SchemaOfObject? {
      InFlat(c.objects, Declarations(resolve, item), p);
      var j :| 0 <= j < |c.objects| && p in Declarations(resolve, item)(c.objects[j]);
    }
    forall p | p in Flat(c.relations, Relations(resolve, item)) ensures p.Outgoing? || p.Incoming? {
      InFlat(c.relations, Relations(resolve, item), p);
      var j :| 0 <= j < |c.relations| && p in Relations(resolve, item)(c.relations[j]);
    }
    forall p | p in Flat(c.commands, Commands(resolve, item))
      ensures p.Commanded? || p.ListedCommand? || p.SchemaOfInput? || p.SchemaOfResult?
    {
      InFlat(c.commands, Commands(resolve, item), p);
      var j :| 0 <= j < |c.commands| && p in Commands(resolve, item)(c.commands[j]);
    }
    forall p | p in Flat(c.projections, Projections(item)) ensures p.Projected? || p.ListedProjection? {
      InFlat(c.projections, Projections(item), p);
      var j :| 0 <= j < |c.projections| && p in Projections(item)(c.projections[j]);
    }
  }

  /** The four parts of what a contract adds. */
  lemma PickItem<T>(resolve: (string, string) -> string, item: Loaded, f: Posting -> Option<T>)
    ensures var c := item.contract;
            Pick(ItemPostings(resolve, item), f)
            == Pick(Flat(c.objects, Declarations(resolve, item)), f)
               + Pick(Flat(c.relations, Relations(resolve, item)), f)
               + Pick(Flat(c.commands, Commands(resolve, item)), f) + Pick(Flat(c.projections, Projections(item)), f)
  {
    hide Pick, Flat;
    var k := item.contract;
    var a, b := Flat(k.objects, Declarations(resolve, item)), Flat(k.relations, Relations(resolve, item));
    var c, d := Flat(k.commands, Commands(resolve, item)), Flat(k.projections, Projections(item));
    PickConcat(a + b + c, d, f);
    PickConcat(a + b, c, f);
    PickConcat(a, b, f);
  }

  lemma ItemDeclarations(resolve: (string, string) -> string, item: Loaded, key: Key)
    ensures Pick(ItemPostings(resolve, item), AtDeclared(key))
         == if item.seedId == key.seedId
            then Filtered(item.contract.objects, IsKind(key.kind), AsRealization(resolve, item)) else []
  {
    hide Pick, Flat, Filtered, OneDeclaration, OneRelation, OneCommand, OneProjection, RealizationOf;
    var c, f := item.contract, AtDeclared(key);
    PickItem(resolve, item, f);
    Tags(resolve, item);
    PickNone(Flat(c.relations, Relations(resolve, item)), f);
    PickNone(Flat(c.commands, Commands(resolve, item)), f);
    PickNone(Flat(c.projections, Projections(item)), f);
    forall o | o in c.objects { OneDeclarationPick(resolve, item, o, key); }
    PickFlat(c.objects, Declarations(resolve, item), f, item.seedId == key.seedId, IsKind(key.kind),
             AsRealization(resolve, item));
  }

  lemma ItemRelations(resolve: (string, string) -> string, item: Loaded, key: Key)
    requires KindsDistinct(item.contract)
    ensures Pick(ItemPostings(resolve, item), AtOutgoing(key))
         == if item.seedId == key.seedId
            then Filtered(item.contract.relations, Leaves(key.kind), AsRelation(resolve, item)) else []
    ensures Pick(ItemPostings(resolve, item), AtIncoming(key))
         == if item.seedId == key.seedId
            then Filtered(item.contract.relations, Enters(key.kind), AsRelation(resolve, item)) else []
  {
    hide Pick, Flat, Filtered, OneDeclaration, OneRelation, OneCommand, OneProjection, RelationOf, Distinct;
    var c := item.contract;
    Tags(resolve, item);
    forall r | r in c.relations ensures Distinct(r.fromKinds) && Distinct(r.toKinds) {}
    forall r | r in c.relations { OneRelationPick(resolve, item, r, key); }
    PickItem(resolve, item, AtOutgoing(key));
    PickNone(Flat(c.objects, Declarations(resolve, item)), AtOutgoing(key));
    PickNone(Flat(c.commands, Commands(resolve, item)), AtOutgoing(key));
    PickNone(Flat(c.projections, Projections(item)), AtOutgoing(key));
    PickFlat(c.relations, Relations(resolve, item), AtOutgoing(key), item.seedId == key.seedId, Leaves(key.kind),
             AsRelation(resolve, item));
    PickItem(resolve, item, AtIncoming(key));
    PickNone(Flat(c.objects, Declarations(resolve, item)), AtIncoming(key));
    PickNone(Flat(c.commands, Commands(resolve, item)), AtIncoming(key));
    PickNone(Flat(c.projections, Projections(item)), AtIncoming(key));
    PickFlat(c.relations, Relations(resolve, item), AtIncoming(key), item.seedId == key.seedId, Enters(key.kind),
             AsRelation(resolve, item));
  }

  lemma ItemCommands(resolve: (string, string) -> string, item: Loaded, key: Key)
    requires KindsDistinct(item.contract)
    ensures Pick(ItemPostings(resolve, item), AtCommanded(key))
         == if item.seedId == key.seedId
            then Filtered(item.contract.commands, Touches(key.kind), AsCommand(resolve, item)) else []
  {
    hide Pick, Flat, Filtered, OneDeclaration, OneRelation, OneCommand, OneProjection, CommandOf, Distinct;
    var c, f := item.contract, AtCommanded(key);
    PickItem(resolve, item, f);
    Tags(resolve, item);
    PickNone(Flat(c.objects, Declarations(resolve, item)), f);
    PickNone(Flat(c.relations, Relations(resolve, item)), f);
    PickNone(Flat(c.projections, Projections(item)), f);
    forall x | x in c.commands { OneCommandPick(resolve, item, x, key); }
    PickFlat(c.commands, Commands(resolve, item), f, item.seedId == key.seedId, Touches(key.kind),
             AsCommand(resolve, item));
  }

  lemma ItemProjections(resolve: (string, string) -> string, item: Loaded, key: Key)
    requires KindsDistinct(item.contract)
    ensures Pick(ItemPostings(resolve, item), AtProjected(key))
         == if item.seedId == key.seedId
            then Filtered(item.contract.projections, Covers(key.kind), AsProjection(item)) else []
  {
    hide Pick, Flat, Filtered, OneDeclaration, OneRelation, OneCommand, OneProjection, ProjectionOf, Distinct;
    var c, f := item.contract, AtProjected(key);
    PickItem(resolve, item, f);
    Tags(resolve, item);
    PickNone(Flat(c.objects, Declarations(resolve, item)), f);
    PickNone(Flat(c.relations, Relations(resolve, item)), f);
    PickNone(Flat(c.commands, Commands(resolve, item)), f);
    forall p | p in c.projections { OneProjectionPick(item, p, key); }
    PickFlat(c.projections, Projections(item), f, item.seedId == key.seedId, Covers(key.kind), AsProjection(item));
  }

  ghost predicate AllKindsDistinct(contracts: seq<Loaded>) {
    forall i :: 0 <= i < |contracts| ==> KindsDistinct(contracts[i].contract)
  }

  lemma {:induction false} PostingsScan(resolve: (string, string) -> string, contracts: seq<Loaded>, key: Key)
    requires AllKindsDistinct(contracts)
    ensures EntryFrom(AllPostings(resolve, contracts), key) == Scan(resolve, contracts, key)
  {
    if contracts != [] {
      var n := |contracts| - 1;
      PostingsScan(resolve, contracts[..n], key);
      ItemDeclarations(resolve, contracts[n], key);
      ItemRelations(resolve, contracts[n], key);
      ItemCommands(resolve, contracts[n], key);
      ItemProjections(resolve, contracts[n], key);
      hide Pick, ItemPostings, Filtered, KindsDistinct, TrimSpace;
      var before, own := AllPostings(resolve, contracts[..n]), ItemPostings(resolve, contracts[n]);
      PickConcat(before, own, AtDeclared(key));
      PickConcat(before, own, AtOutgoing(key));
      PickConcat(before, own, AtIncoming(key));
      PickConcat(before, own, AtCommanded(key));
      PickConcat(before, own, AtProjected(key));
    } else {
      NothingPicked(key);
    }
  }

  lemma NothingPicked(key: Key)
    ensures EntryFrom([], key) == ObjectEntry(TrimSpace(key.seedId), TrimSpace(key.kind), [], [], [], [], [])
  {}

  /** The index built by the nested loops agrees with the plain scan: an object's entry holds exactly the
      realizations declaring its kind and the relations, commands and projections naming it, in order and once
      each, and a kind without an entry is named nowhere. */
  lemma CatalogAgreesWithScan(resolve: (string, string) -> string, contracts: seq<Loaded>, key: Key)
    requires AllKindsDistinct(contracts)
    ensures var objects := IndexOf(resolve, contracts).objects;
            EnsureObject(objects, key) == Scan(resolve, contracts, key)
  {
    hide PostAll, EntryFrom, Scan, EnsureObject, AllPostings;
    ObjectsFromPostings(AllPostings(resolve, contracts), key);
    PostingsScan(resolve, contracts, key);
  }

  // ----- Links -----

  /** Every contract passed validation against its manifest. */
  ghost predicate Validated(contracts: seq<Loaded>, stored: string -> string -> bool) {
    forall i :: 0 <= i < |contracts| ==>
      ContractValid(contracts[i].contract, Entry(contracts[i].seedId, contracts[i].realizationId),
                    stored(contracts[i].contractFile))
  }

  lemma UniqueIsDistinct(values: seq<string>, allowed: set<string>)
    requires SubsetOf(values, allowed)
    ensures Distinct(values)
  {
    hide TrimSpace;
  }

  /** Validation rules out a kind listed twice. */
  lemma ValidatedKindsDistinct(contracts: seq<Loaded>, stored: string -> string -> bool)
    requires Validated(contracts, stored)
    ensures AllKindsDistinct(contracts)
  {
    hide TrimSpace, SubsetOf, Distinct, HeaderValid, CapabilitiesValid, ObjectsValid, ConsistencyValid, SurfacesValid,
         Unique, Names;
    forall n | 0 <= n < |contracts| ensures KindsDistinct(contracts[n].contract) {
      var c := contracts[n].contract;
      var kinds := Names(Kinds(c.objects));
      forall i | 0 <= i < |c.relations| ensures Distinct(c.relations[i].fromKinds) && Distinct(c.relations[i].toKinds) {
        UniqueIsDistinct(c.relations[i].fromKinds, kinds);
        UniqueIsDistinct(c.relations[i].toKinds, kinds);
      }
      forall i | 0 <= i < |c.commands| ensures Distinct(c.commands[i].objectKinds) {
        UniqueIsDistinct(c.commands[i].objectKinds, kinds);
      }
      forall i | 0 <= i < |c.projections| ensures Distinct(c.projections[i].objectKinds) {
        UniqueIsDistinct(c.projections[i].objectKinds, kinds);
      }
    }
  }

  /** p comes from element j of a list of contract i. */
  lemma FromContract(resolve: (string, string) -> string, contracts: seq<Loaded>, i: nat, p: Posting)
    requires i < |contracts| && p in ItemPostings(resolve, contracts[i])
    ensures p in AllPostings(resolve, contracts)
  {
    hide ItemPostings, Flat;
    assert p in Items(resolve)(contracts[i]);
    InFlat(contracts, Items(resolve), p);
  }

  lemma ContractOf(resolve: (string, string) -> string, contracts: seq<Loaded>, p: Posting) returns (i: nat)
    requires p in AllPostings(resolve, contracts)
    ensures i < |contracts| && p in ItemPostings(resolve, contracts[i])
  {
    hide ItemPostings, Flat;
    InFlat(contracts, Items(resolve), p);
    i :| 0 <= i < |contracts| && p in Items(resolve)(contracts[i]);
  }

  /** An addition by a contract comes from the list that makes additions of its sort. */
  lemma PartOf(resolve: (string, string) -> string, item: Loaded, p: Posting)
    requires p in ItemPostings(resolve, item)
    ensures var c := item.contract;
            && (p.Declared? || p.SchemaOfObject? <==> p in Flat(c.objects, Declarations(resolve, item)))
            && (p.Outgoing? || p.Incoming? <==> p in Flat(c.relations, Relations(resolve, item)))
            && (p.Commanded? || p.ListedCommand? || p.SchemaOfInput? || p.SchemaOfResult?
                <==> p in Flat(c.commands, Commands(resolve, item)))
            && (p.Projected? || p.ListedProjection? <==> p in Flat(c.projections, Projections(item)))
  {
    hide Flat;
    Tags(resolve, item);
  }

  lemma ListedIsPosted(ps: seq<Posting>)
    ensures forall c :: c in PostAll(EMPTY_INDEX, ps).commands <==> ListedCommand(c) in ps
    ensures forall q :: q in PostAll(EMPTY_INDEX, ps).projections <==> ListedProjection(q) in ps
    ensures forall i :: 0 <= i < |ps| && OnSchema(ps[i]) ==> ps[i].ref in PostAll(EMPTY_INDEX, ps).schemas
  {
    ListsFromPostings(ps);
    hide PostAll, Pick;
    forall c ensures c in PostAll(EMPTY_INDEX, ps).commands <==> ListedCommand(c) in ps {
      PickMember(ps, AtListedCommand(), c);
    }
    forall q ensures q in PostAll(EMPTY_INDEX, ps).projections <==> ListedProjection(q) in ps {
      PickMember(ps, AtListedProjection(), q);
    }
    forall i | 0 <= i < |ps| && OnSchema(ps[i]) ensures ps[i].ref in PostAll(EMPTY_INDEX, ps).schemas {
      SchemasFromPostings(ps, ps[i].ref);
    }
  }

  /** Every listed command comes from some contract's command. */
  lemma ListedCommandSource(resolve: (string, string) -> string, contracts: seq<Loaded>, c: CommandEntry)
    returns (i: nat, j: nat)
    requires c in IndexOf(resolve, contracts).commands
    ensures i < |contracts| && j < |contracts[i].contract.commands|
    ensures c == CommandOf(resolve, contracts[i], contracts[i].contract.commands[j])
  {
    hide PostAll, CommandOf, ItemPostings, Flat, KindPostings;
    ListedIsPosted(AllPostings(resolve, contracts));
    i := ContractOf(resolve, contracts, ListedCommand(c));
    var item := contracts[i];
    PartOf(resolve, item, ListedCommand(c));
    InFlat(item.contract.commands, Commands(resolve, item), ListedCommand(c));
    j :| 0 <= j < |item.contract.commands| && ListedCommand(c) in Commands(resolve, item)(item.contract.commands[j]);
    NotAmongKinds(item, item.contract.commands[j].objectKinds, CommandOf(resolve, item, item.contract.commands[j]), c);
  }

  lemma NotAmongKinds(item: Loaded, kinds: seq<string>, e: CommandEntry, c: CommandEntry)
    ensures ListedCommand(c) !in KindPostings(item, kinds, MakeCommanded(e))
  {}

  /** The links of a listed command lead somewhere: its projection is listed under the same reference, and its
      input and result schemas are in the schema index. */
  lemma CommandLinksClosed(resolve: (string, string) -> string, contracts: seq<Loaded>,
                           stored: string -> string -> bool, c: CommandEntry)
    requires Resolving(resolve) && Validated(contracts, stored)
    requires c in IndexOf(resolve, contracts).commands
    ensures var index := IndexOf(resolve, contracts);
            && c.inputSchemaRef in index.schemas && c.resultSchemaRef in index.schemas
            && exists q :: q in index.projections && q.reference == c.reference && q.name == c.projection
  {
    var i, j := ListedCommandSource(resolve, contracts, c);
    var item := contracts[i];
    var cmd := item.contract.commands[j];
    ValidCommandLinks(item.contract, Entry(item.seedId, item.realizationId), stored(item.contractFile), j);
    hide PostAll, TrimSpace, ContractValid;
    var ps := AllPostings(resolve, contracts);
    ListedIsPosted(ps);
    CommandSchemasPosted(resolve, contracts, i, j);
    var k :| 0 <= k < |item.contract.projections|
        && TrimSpace(item.contract.projections[k].name) == TrimSpace(cmd.projection);
    ProjectionPosted(resolve, contracts, i, k);
    assert ProjectionOf(item, item.contract.projections[k]) in PostAll(EMPTY_INDEX, ps).projections;
  }

  lemma ValidCommandLinks(c: Contract, entry: Entry, stored: string -> bool, j: nat)
    requires ContractValid(c, entry, stored) && j < |c.commands|
    ensures !Blank(c.commands[j].inputSchemaRef) && !Blank(c.commands[j].resultSchemaRef)
    ensures exists k ::
              0 <= k < |c.projections| && TrimSpace(c.projections[k].name) == TrimSpace(c.commands[j].projection)
  {
    hide TrimSpace, HeaderValid, CapabilitiesValid, ObjectsValid, RelationsValid, ConsistencyValid, ProjectionsValid,
         SurfacesValid, SubsetOf, RefResolves, Unique;
    var names := ProjectionNames(c.projections);
    assert TrimSpace(c.commands[j].projection) in Names(names);
    var k :| 0 <= k < |names| && TrimSpace(names[k]) == TrimSpace(c.commands[j].projection);
    assert names[k] == c.projections[k].name;
  }

  lemma CommandSchemasPosted(resolve: (string, string) -> string, contracts: seq<Loaded>, i: nat, j: nat)
    requires i < |contracts| && j < |contracts[i].contract.commands| && Resolving(resolve)
    requires !Blank(contracts[i].contract.commands[j].inputSchemaRef)
             && !Blank(contracts[i].contract.commands[j].resultSchemaRef)
    ensures var e := CommandOf(resolve, contracts[i], contracts[i].contract.commands[j]);
            var ps := AllPostings(resolve, contracts);
            && SchemaOfInput(e.inputSchemaRef, CommandUseOf(e)) in ps
            && SchemaOfResult(e.resultSchemaRef, CommandUseOf(e)) in ps
  {
    var item := contracts[i];
    var e := CommandOf(resolve, item, item.contract.commands[j]);
    assert e.inputSchemaRef != "" && e.resultSchemaRef != "";
    hide CommandOf, Blank, Flat, KindPostings;
    assert SchemaOfInput(e.inputSchemaRef, CommandUseOf(e)) in Commands(resolve, item)(item.contract.commands[j]);
    assert SchemaOfResult(e.resultSchemaRef, CommandUseOf(e)) in Commands(resolve, item)(item.contract.commands[j]);
    InFlat(item.contract.commands, Commands(resolve, item), SchemaOfInput(e.inputSchemaRef, CommandUseOf(e)));
    InFlat(item.contract.commands, Commands(resolve, item), SchemaOfResult(e.resultSchemaRef, CommandUseOf(e)));
    FromContract(resolve, contracts, i, SchemaOfInput(e.inputSchemaRef, CommandUseOf(e)));
    FromContract(resolve, contracts, i, SchemaOfResult(e.resultSchemaRef, CommandUseOf(e)));
  }

  lemma ProjectionPosted(resolve: (string, string) -> string, contracts: seq<Loaded>, i: nat, k: nat)
    requires i < |contracts| && k < |contracts[i].contract.projections|
    ensures var q := ProjectionOf(contracts[i], contracts[i].contract.projections[k]);
            ListedProjection(q) in AllPostings(resolve, contracts)
  {
    hide ProjectionOf, Flat, KindPostings;
    var item := contracts[i];
    var p := ListedProjection(ProjectionOf(item, item.contract.projections[k]));
    assert p in Projections(item)(item.contract.projections[k]);
    InFlat(item.contract.projections, Projections(item), p);
    FromContract(resolve, contracts, i, p);
  }

  // ----- Stubs -----

  ghost predicate DeclaresAt(contracts: seq<Loaded>, key: Key, i: int, j: int) {
    && 0 <= i < |contracts| && contracts[i].seedId == key.seedId
    && 0 <= j < |contracts[i].contract.objects| && contracts[i].contract.objects[j].kind == key.kind
  }

  /** Some contract of the seed declares an object spelled exactly like the kind. */
  ghost predicate Declares(contracts: seq<Loaded>, key: Key) {
    exists i, j :: DeclaresAt(contracts, key, i, j)
  }

  /** An object is a stub, without a realization, exactly when no contract of its seed declares it. */
  lemma StubIff(resolve: (string, string) -> string, contracts: seq<Loaded>, key: Key)
    requires key in IndexOf(resolve, contracts).objects
    ensures IndexOf(resolve, contracts).objects[key].realizations == [] <==> !Declares(contracts, key)
  {
    hide PostAll, Pick, RealizationOf, ItemPostings, TrimSpace;
    var ps := AllPostings(resolve, contracts);
    ObjectsFromPostings(ps, key);
    var picked := Pick(ps, AtDeclared(key));
    if picked != [] {
      PickMember(ps, AtDeclared(key), picked[0]);
      var n :| 0 <= n < |ps| && AtDeclared(key)(ps[n]) == Some(picked[0]);
      var i, j := DeclaredSource(resolve, contracts, ps[n]);
      assert DeclaresAt(contracts, key, i, j);
    }
    if Declares(contracts, key) {
      var i, j :| DeclaresAt(contracts, key, i, j);
      var r := RealizationOf(resolve, contracts[i], contracts[i].contract.objects[j]);
      DeclarationPosted(resolve, contracts, i, j);
      var n :| 0 <= n < |ps| && ps[n] == Declared(key, r);
      PickMember(ps, AtDeclared(key), r);
    }
  }

  lemma DeclarationPosted(resolve: (string, string) -> string, contracts: seq<Loaded>, i: nat, j: nat)
    requires i < |contracts| && j < |contracts[i].contract.objects|
    ensures var item := contracts[i];
            var o := item.contract.objects[j];
            Declared(Key(item.seedId, o.kind), RealizationOf(resolve, item, o)) in AllPostings(resolve, contracts)
  {
    hide RealizationOf, Flat;
    var item := contracts[i];
    var p := Declared(Key(item.seedId, item.contract.objects[j].kind),
                      RealizationOf(resolve, item, item.contract.objects[j]));
    assert p in Declarations(resolve, item)(item.contract.objects[j]);
    InFlat(item.contract.objects, Declarations(resolve, item), p);
    FromContract(resolve, contracts, i, p);
  }

  /** A declared realization comes from some contract's object. */
  lemma DeclaredSource(resolve: (string, string) -> string, contracts: seq<Loaded>, p: Posting) returns (i: nat, j: nat)
    requires p.Declared? && p in AllPostings(resolve, contracts)
    ensures DeclaresAt(contracts, p.key, i, j)
    ensures p.realization == RealizationOf(resolve, contracts[i], contracts[i].contract.objects[j])
  {
    hide RealizationOf, ItemPostings, Flat;
    i := ContractOf(resolve, contracts, p);
    var item := contracts[i];
    PartOf(resolve, item, p);
    InFlat(item.contract.objects, Declarations(resolve, item), p);
    j :| 0 <= j < |item.contract.objects| && p in Declarations(resolve, item)(item.contract.objects[j]);
  }

  /** The kind appears in the contract: declared, or named by a relation, command or projection. */
  ghost predicate NamedIn(c: Contract, kind: string) {
    || (exists j :: 0 <= j < |c.objects| && c.objects[j].kind == kind)
    || (exists j :: 0 <= j < |c.relations| && (kind in c.relations[j].fromKinds || kind in c.relations[j].toKinds))
    || (exists j :: 0 <= j < |c.commands| && kind in c.commands[j].objectKinds)
    || (exists j :: 0 <= j < |c.projections| && kind in c.projections[j].objectKinds)
  }

  lemma KindPosted(item: Loaded, kinds: seq<string>, make: Key -> Posting, p: Posting)
    requires p in KindPostings(item, kinds, make) && forall k :: OnObject(make(k)) && make(k).key == k
    ensures OnObject(p) && p.key.seedId == item.seedId && p.key.kind in kinds
  {}

  lemma PostedKindNamed(resolve: (string, string) -> string, item: Loaded, p: Posting)
    requires p in ItemPostings(resolve, item) && OnObject(p)
    ensures p.key.seedId == item.seedId && NamedIn(item.contract, p.key.kind)
  {
    hide RealizationOf, CommandOf, ProjectionOf, RelationOf, ItemPostings, Flat, KindPostings, NamedIn;
    var c := item.contract;
    PartOf(resolve, item, p);
    if p.Declared? {
      InFlat(c.objects, Declarations(resolve, item), p);
      var j :| 0 <= j < |c.objects| && p in Declarations(resolve, item)(c.objects[j]);
      NamedByObject(c, j);
    } else if p.Outgoing? || p.Incoming? {
      InFlat(c.relations, Relations(resolve, item), p);
      var j :| 0 <= j < |c.relations| && p in Relations(resolve, item)(c.relations[j]);
      var entry := RelationOf(resolve, item, c.relations[j]);
      if p in KindPostings(item, c.relations[j].fromKinds, MakeOutgoing(entry)) {
        KindPosted(item, c.relations[j].fromKinds, MakeOutgoing(entry), p);
      } else {
        KindPosted(item, c.relations[j].toKinds, MakeIncoming(entry), p);
      }
      NamedByRelation(c, j, p.key.kind);
    } else if p.Commanded? {
      InFlat(c.commands, Commands(resolve, item), p);
      var j :| 0 <= j < |c.commands| && p in Commands(resolve, item)(c.commands[j]);
      KindPosted(item, c.commands[j].objectKinds, MakeCommanded(CommandOf(resolve, item, c.commands[j])), p);
      NamedByCommand(c, j, p.key.kind);
    } else {
      InFlat(c.projections, Projections(item), p);
      var j :| 0 <= j < |c.projections| && p in Projections(item)(c.projections[j]);
      KindPosted(item, c.projections[j].objectKinds, MakeProjected(ProjectionOf(item, c.projections[j])), p);
      NamedByProjection(c, j, p.key.kind);
    }
  }

  lemma NamedByObject(c: Contract, j: nat)
    requires j < |c.objects|
    ensures NamedIn(c, c.objects[j].kind)
  {}

  lemma NamedByRelation(c: Contract, j: nat, kind: string)
    requires j < |c.relations| && (kind in c.relations[j].fromKinds || kind in c.relations[j].toKinds)
    ensures NamedIn(c, kind)
  {}

  lemma NamedByCommand(c: Contract, j: nat, kind: string)
    requires j < |c.commands| && kind in c.commands[j].objectKinds
    ensures NamedIn(c, kind)
  {}

  lemma NamedByProjection(c: Contract, j: nat, kind: string)
    requires j < |c.projections| && kind in c.projections[j].objectKinds
    ensures NamedIn(c, kind)
  {}

  /** Kinds are written without surrounding spaces. */
  ghost predicate KindsTrimmed(contracts: seq<Loaded>) {
    forall i, kind :: 0 <= i < |contracts| && NamedIn(contracts[i].contract, kind) ==> TrimSpace(kind) == kind
  }

  lemma SubsetMember(items: seq<string>, allowed: set<string>, kind: string)
    requires SubsetOf(items, allowed) && kind in items
    ensures TrimSpace(kind) in allowed
  {
    hide TrimSpace;
    var i :| 0 <= i < |items| && items[i] == kind;
    assert TrimSpace(items[i]) in Names(items);
  }

  lemma NamedKindDeclared(c: Contract, entry: Entry, stored: string -> bool, kind: string)
    requires ContractValid(c, entry, stored) && NamedIn(c, kind)
    ensures TrimSpace(kind) in Names(Kinds(c.objects))
  {
    hide TrimSpace, SubsetOf, HeaderValid, CapabilitiesValid, ObjectsValid, ConsistencyValid, SurfacesValid, Unique;
    var kinds := Names(Kinds(c.objects));
    if j :| 0 <= j < |c.objects| && c.objects[j].kind == kind {
      assert TrimSpace(Kinds(c.objects)[j]) in kinds;
    } else if j :| 0 <= j < |c.relations| && (kind in c.relations[j].fromKinds || kind in c.relations[j].toKinds) {
      if kind in c.relations[j].fromKinds { SubsetMember(c.relations[j].fromKinds, kinds, kind); }
      else { SubsetMember(c.relations[j].toKinds, kinds, kind); }
    } else if j :| 0 <= j < |c.commands| && kind in c.commands[j].objectKinds {
      SubsetMember(c.commands[j].objectKinds, kinds, kind);
    } else {
      var j :| 0 <= j < |c.projections| && kind in c.projections[j].objectKinds;
      SubsetMember(c.projections[j].objectKinds, kinds, kind);
    }
  }

  /** With validated contracts whose kinds carry no spaces, every object of the catalog has a realization that
      declares it. */
  lemma NoStubs(resolve: (string, string) -> string, contracts: seq<Loaded>, stored: string -> string -> bool, key: Key)
    requires Resolving(resolve) && Validated(contracts, stored) && KindsTrimmed(contracts)
    requires key in IndexOf(resolve, contracts).objects
    ensures IndexOf(resolve, contracts).objects[key].realizations != []
  {
    hide PostAll, Pick, ItemPostings, ContractValid, NamedIn, TrimSpace, EntryFrom;
    var ps := AllPostings(resolve, contracts);
    ObjectsFromPostings(ps, key);
    var n :| 0 <= n < |ps| && PostsTo(ps[n], key);
    var i := ContractOf(resolve, contracts, ps[n]);
    var item := contracts[i];
    PostedKindNamed(resolve, item, ps[n]);
    NamedKindDeclared(item.contract, Entry(item.seedId, item.realizationId), stored(item.contractFile), key.kind);
    var kinds := Kinds(item.contract.objects);
    var j :| 0 <= j < |kinds| && TrimSpace(kinds[j]) == TrimSpace(key.kind);
    NamedByObject(item.contract, j);
    assert DeclaresAt(contracts, key, i, j);
    StubIff(resolve, contracts, key);
  }

  /** Spaces do make stubs: a command naming a kind that is spelled otherwise where it is declared opens an
      object of its own, without a realization. */
  lemma SpacedKindIsStub(resolve: (string, string) -> string, contracts: seq<Loaded>, i: nat, j: nat, kind: string)
    requires i < |contracts| && j < |contracts[i].contract.commands|
             && kind in contracts[i].contract.commands[j].objectKinds
    requires !Declares(contracts, Key(contracts[i].seedId, kind))
    ensures var objects := IndexOf(resolve, contracts).objects;
            var key := Key(contracts[i].seedId, kind);
            key in objects && objects[key].realizations == []
  {
    hide PostAll, Pick, CommandOf, TrimSpace, EntryFrom, Flat;
    var item := contracts[i];
    var key := Key(item.seedId, kind);
    var cmd := item.contract.commands[j];
    var e := CommandOf(resolve, item, cmd);
    var k :| 0 <= k < |cmd.objectKinds| && cmd.objectKinds[k] == kind;
    assert KindPostings(item, cmd.objectKinds, MakeCommanded(e))[k] == Commanded(key, e);
    assert Commanded(key, e) in Commands(resolve, item)(cmd);
    InFlat(item.contract.commands, Commands(resolve, item), Commanded(key, e));
    FromContract(resolve, contracts, i, Commanded(key, e));
    var ps := AllPostings(resolve, contracts);
    var n :| 0 <= n < |ps| && ps[n] == Commanded(key, e);
    assert PostsTo(ps[n], key);
    ObjectsFromPostings(ps, key);
    StubIff(resolve, contracts, key);
  }

  /** The same kinds with other spaces around them. */
  ghost predicate SameButSpaces(a: seq<string>, b: seq<string>) {
    |a| == |b| && forall k :: 0 <= k < |a| ==> TrimSpace(a[k]) == TrimSpace(b[k])
  }

  lemma SpacesInvisible(a: seq<string>, b: seq<string>, allowed: set<string>)
    requires SameButSpaces(a, b) && SubsetOf(a, allowed)
    ensures SubsetOf(b, allowed)
  {
    hide TrimSpace;
    forall x | x in Names(b) ensures x in allowed {
      var k :| 0 <= k < |b| && TrimSpace(b[k]) == x;
      assert TrimSpace(a[k]) in Names(a);
    }
  }

  lemma SpacedCommand(c: Command, seedId: string, kinds: set<string>, projections: set<string>,
                      capabilities: set<string>, authModes: set<string>, stored: string -> bool, spaced: seq<string>)
    requires CommandValid(c, seedId, kinds, projections, capabilities, authModes, stored)
             && SameButSpaces(c.objectKinds, spaced)
    ensures CommandValid(c.(objectKinds := spaced), seedId, kinds, projections, capabilities, authModes, stored)
  {
    hide TrimSpace, SubsetOf, RefResolves, SameButSpaces, OptionalSectionValid, ErrorCodesValid;
    SpacesInvisible(c.objectKinds, spaced, kinds);
  }

  /** Validation cannot see the spaces around the kinds a command names. */
  lemma SpacedKindsValidate(c: Contract, entry: Entry, stored: string -> bool, j: nat, spaced: seq<string>)
    requires ContractValid(c, entry, stored) && j < |c.commands| && SameButSpaces(c.commands[j].objectKinds, spaced)
    ensures ContractValid(c.(commands := c.commands[j := c.commands[j].(objectKinds := spaced)]), entry, stored)
  {
    hide TrimSpace, SubsetOf, HeaderValid, CapabilitiesValid, ObjectsValid, RelationsValid, ConsistencyValid,
         ProjectionsValid, SurfacesValid, Unique, Names, SameButSpaces, CommandValid;
    var commands := c.commands[j := c.commands[j].(objectKinds := spaced)];
    assert CommandNames(commands) == CommandNames(c.commands) && CommandPaths(commands) == CommandPaths(c.commands);
    SpacedCommand(c.commands[j], entry.seedId, Names(Kinds(c.objects)), Names(ProjectionNames(c.projections)),
                  Names(CapabilityNames(c.capabilities)), Names(c.authModes), stored, spaced);
    var c' := c.(commands := commands);
    assert CommandsValid(commands, entry.seedId, Names(Kinds(c.objects)), Names(ProjectionNames(c.projections)),
                         Names(CapabilityNames(c.capabilities)), Names(c.authModes), stored);
    assert HeaderValid(c', entry, stored) by { SameHeader(c, commands, entry, stored); }
  }

  lemma SameHeader(c: Contract, commands: seq<Command>, entry: Entry, stored: string -> bool)
    requires HeaderValid(c, entry, stored)
    ensures HeaderValid(c.(commands := commands), entry, stored)
  {
    hide TrimSpace, LinksResolve;
  }

  /** Every realization listed with an object has its schema in the schema index. */
  lemma ObjectSchemasClosed(resolve: (string, string) -> string, contracts: seq<Loaded>,
                            stored: string -> string -> bool, key: Key, r: Realization)
    requires Resolving(resolve) && Validated(contracts, stored)
    requires key in IndexOf(resolve, contracts).objects
    requires r in IndexOf(resolve, contracts).objects[key].realizations
    ensures r.schemaRef in IndexOf(resolve, contracts).schemas
  {
    hide PostAll, Pick, TrimSpace, ContractValid, RealizationOf, ItemPostings;
    var ps := AllPostings(resolve, contracts);
    ObjectsFromPostings(ps, key);
    PickMember(ps, AtDeclared(key), r);
    var n :| 0 <= n < |ps| && AtDeclared(key)(ps[n]) == Some(r);
    var i, j := DeclaredSource(resolve, contracts, ps[n]);
    SchemaGiven(resolve, contracts[i], stored(contracts[i].contractFile), j);
    ObjectSchemaPosted(resolve, contracts, i, j);
    ListedIsPosted(ps);
    var x := ObjectUseOf(contracts[i], contracts[i].contract.objects[j]);
    var m :| 0 <= m < |ps| && ps[m] == SchemaOfObject(r.schemaRef, x);
  }

  lemma ObjectSchemaPosted(resolve: (string, string) -> string, contracts: seq<Loaded>, i: nat, j: nat)
    requires i < |contracts| && j < |contracts[i].contract.objects|
    requires RealizationOf(resolve, contracts[i], contracts[i].contract.objects[j]).schemaRef != ""
    ensures var r := RealizationOf(resolve, contracts[i], contracts[i].contract.objects[j]);
            var x := ObjectUseOf(contracts[i], contracts[i].contract.objects[j]);
            SchemaOfObject(r.schemaRef, x) in AllPostings(resolve, contracts)
  {
    hide RealizationOf, Flat;
    var item := contracts[i];
    var r := RealizationOf(resolve, item, item.contract.objects[j]);
    var x := ObjectUseOf(item, item.contract.objects[j]);
    assert SchemaOfObject(r.schemaRef, x) in Declarations(resolve, item)(item.contract.objects[j]);
    InFlat(item.contract.objects, Declarations(resolve, item), SchemaOfObject(r.schemaRef, x));
    FromContract(resolve, contracts, i, SchemaOfObject(r.schemaRef, x));
  }

  lemma SchemaGiven(resolve: (string, string) -> string, item: Loaded, stored: string -> bool, j: nat)
    requires Resolving(resolve) && j < |item.contract.objects|
    requires ContractValid(item.contract, Entry(item.seedId, item.realizationId), stored)
    ensures RealizationOf(resolve, item, item.contract.objects[j]).schemaRef != ""
  {
    hide TrimSpace, HeaderValid, CapabilitiesValid, RelationsValid, ConsistencyValid, ProjectionsValid, CommandsValid,
         SurfacesValid, SubsetOf, RefResolves, Unique, LayoutValid;
  }
}
