/**
 * Properties of the persistence layer: the catalogue and identifier rules, the
 * Init run, and how Create, Upsert, Get and Delete relate on one store.
 */
module DatabaseSqlProperties {
  import opened Wrappers
  import opened DatabaseSql

  // ---------------------------------------------------------------------------
  // Catalogue and identity
  // ---------------------------------------------------------------------------

  /** Reading the catalogue backwards gives back the kind: each listed kind has its own table. */
  lemma TableNameRoundTrip(kind: Kind)
    requires !kind.Unlisted?
    ensures TableKind(TableName(kind).value) == Some(kind)
  {
  }

  /** Every table name the reverse reading accepts is the table of the kind it names. */
  lemma TableKindSound(table: string, kind: Kind)
    requires TableKind(table) == Some(kind)
    ensures TableName(kind) == Success(table)
  {
  }

  /** Distinct listed kinds never share a table. */
  lemma TableNameInjective(k1: Kind, k2: Kind)
    requires !k1.Unlisted? && !k2.Unlisted? && k1 != k2
    ensures TableName(k1).value != TableName(k2).value
  {
    TableNameRoundTrip(k1);
    TableNameRoundTrip(k2);
  }

  /** Within one schema, distinct table names stay distinct once qualified. */
  lemma CompleteTableNameInjective(schemaName: string, t1: string, t2: string)
    requires CompleteTableName(schemaName, t1) == CompleteTableName(schemaName, t2)
    ensures t1 == t2
  {
    var c := CompleteTableName(schemaName, t1);
    calc {
      t1;
      c[|schemaName| + 1..];
      t2;
    }
  }

  /** Entities of different kinds with the same metadata land in different tables. */
  lemma KindsNeverShareTables(schemaName: string, k1: Kind, k2: Kind, metadata: Metadata)
    requires k1 != k2
    requires Locate(schemaName, k1, metadata).Success? && Locate(schemaName, k2, metadata).Success?
    ensures Locate(schemaName, k1, metadata).value.table != Locate(schemaName, k2, metadata).value.table
    ensures Locate(schemaName, k1, metadata).value.id == Locate(schemaName, k2, metadata).value.id
  {
    TableNameInjective(k1, k2);
    if Locate(schemaName, k1, metadata).value.table == Locate(schemaName, k2, metadata).value.table {
      CompleteTableNameInjective(schemaName, TableName(k1).value, TableName(k2).value);
    }
  }

  /** A project identifier splits back into its project and name when the project has no `|`. */
  lemma {:induction false} ProjectIDRoundTrip(project: string, name: string)
    requires '|' !in project
    ensures SplitID(GenerateID(ProjectMetadata(project, name)).value) == Some((project, name))
  {
    var id := project + "|" + name;
    assert GenerateID(ProjectMetadata(project, name)).value == id;
    if project == [] {
      assert id == "|" + name;
      assert id[1..] == name;
    } else {
      assert id[0] == project[0];
      assert id[1..] == project[1..] + "|" + name;
      ProjectIDRoundTrip(project[1..], name);
      assert [id[0]] + project[1..] == project;
    }
  }

  /** Project identifiers are unique per (project, name) when projects contain no `|`. */
  lemma ProjectIDInjective(m1: Metadata, m2: Metadata)
    requires m1.ProjectMetadata? && m2.ProjectMetadata?
    requires '|' !in m1.project && '|' !in m2.project
    requires GenerateID(m1) == GenerateID(m2)
    ensures m1 == m2
  {
    ProjectIDRoundTrip(m1.project, m1.name);
    ProjectIDRoundTrip(m2.project, m2.name);
  }

  /** Without that condition two distinct project entities share an identifier. */
  lemma ProjectIDCollision()
    ensures GenerateID(ProjectMetadata("a|b", "c")) == GenerateID(ProjectMetadata("a", "b|c"))
    ensures ProjectMetadata("a|b", "c") != ProjectMetadata("a", "b|c")
  {
    assert "a|b" + "|" + "c" == "a" + "|" + "b|c";
  }

  // ---------------------------------------------------------------------------
  // Init
  // ---------------------------------------------------------------------------

  /** Init issues fifteen statements: seven for global-shape tables, then eight for project-shape ones. */
  lemma InitShapes(schemaName: string)
    ensures |InitStatements(schemaName)| == 15
    ensures forall j :: 0 <= j < 7 ==> InitStatements(schemaName)[j].shape == GlobalShape
    ensures forall j :: 7 <= j < 15 ==> InitStatements(schemaName)[j].shape == ProjectShape
  {
  }

  /** The kinds whose entities belong to a project. */
  predicate ProjectScoped(kind: Kind)
  {
    kind in {Dashboard, Datasource, EphemeralDashboard, Folder, Role, RoleBinding, Secret, Variable}
  }

  /**
   * The table Init creates for a listed kind has a `project` column exactly when
   * the kind is project-scoped; every such table is keyed by `id` and stores `doc`.
   */
  lemma InitColumnsFollowScope(schemaName: string, kind: Kind)
    requires !kind.Unlisted?
    ensures IndexInInit(kind) < |InitStatements(schemaName)|
    ensures var cols := Columns(InitStatements(schemaName)[IndexInInit(kind)].shape);
            && cols[0] == Column("id", cols[0].sqlType, true)
            && cols[|cols| - 1] == Column("doc", "JSON", false)
            && ((exists c :: 0 <= c < |cols| && cols[c].name == "project") <==> ProjectScoped(kind))
  {
    InitShapes(schemaName);
  }

  /** Each table Init lists is the table of exactly one listed kind, and lists it once. */
  lemma InitTablesNameKinds()
    ensures forall j :: 0 <= j < |InitTables| ==>
              TableKind(InitTables[j].name).Some? && IndexInInit(TableKind(InitTables[j].name).value) == j
  {
    forall j | 0 <= j < |InitTables|
      ensures TableKind(InitTables[j].name).Some? && IndexInInit(TableKind(InitTables[j].name).value) == j
    {
      TableKindSound(InitTables[j].name, TableKind(InitTables[j].name).value);
    }
  }

  /**
   * The tables Init creates are exactly the tables of the fifteen listed kinds,
   * each qualified by the schema, and no table is created twice.
   */
  lemma InitCoversCatalogue(schemaName: string)
    ensures forall j :: 0 <= j < |InitStatements(schemaName)| ==>
              TableKind(InitTables[j].name).Some?
              && InitStatements(schemaName)[j].table
                 == CompleteTableName(schemaName, TableName(TableKind(InitTables[j].name).value).value)
    ensures forall kind: Kind :: !kind.Unlisted? ==>
              exists j :: 0 <= j < |InitStatements(schemaName)|
                          && InitStatements(schemaName)[j].table == CompleteTableName(schemaName, TableName(kind).value)
    ensures forall i, j :: 0 <= i < j < |InitStatements(schemaName)| ==>
              InitStatements(schemaName)[i].table != InitStatements(schemaName)[j].table
  {
    var st := InitStatements(schemaName);
    InitTablesNameKinds();
    forall j | 0 <= j < |st|
      ensures TableName(TableKind(InitTables[j].name).value) == Success(InitTables[j].name)
    {
      TableKindSound(InitTables[j].name, TableKind(InitTables[j].name).value);
    }
    forall kind: Kind | !kind.Unlisted?
      ensures exists j :: 0 <= j < |st| && st[j].table == CompleteTableName(schemaName, TableName(kind).value)
    {
      var j := IndexInInit(kind);
      assert st[j].table == CompleteTableName(schemaName, TableName(kind).value);
    }
    forall i, j | 0 <= i < |st| && 0 <= j < |st| && st[i].table == st[j].table
      ensures i == j
    {
      CompleteTableNameInjective(schemaName, InitTables[i].name, InitTables[j].name);
    }
  }

  /** Where a listed kind's table stands in Init's list. */
  function IndexInInit(kind: Kind): (j: nat)
    requires !kind.Unlisted?
    ensures j < |InitTables| && InitTables[j].name == TableName(kind).value
  {
    match kind
    case GlobalDatasource => 0
    case GlobalRole => 1
    case GlobalRoleBinding => 2
    case GlobalSecret => 3
    case GlobalVariable => 4
    case Project => 5
    case User => 6
    case Dashboard => 7
    case Datasource => 8
    case EphemeralDashboard => 9
    case Folder => 10
    case Role => 11
    case RoleBinding => 12
    case Secret => 13
    case Variable => 14
  }

  /** The position of the first statement the backend rejects, or the number of statements. */
  function FirstRejected(statements: seq<CreateTable>, rejects: CreateTable -> Option<string>): (k: nat)
    ensures k <= |statements|
    ensures forall j :: 0 <= j < k ==> rejects(statements[j]).None?
    ensures k < |statements| ==> rejects(statements[k]).Some?
  {
    if statements == [] || rejects(statements[0]).Some? then 0
    else 1 + FirstRejected(statements[1..], rejects)
  }

  /**
   * A run stops at the first rejected statement and returns its error; the store
   * then holds exactly the effect of the statements before it.
   */
  lemma {:induction false} RunStopsAtFirstRejection(store: Store, statements: seq<CreateTable>, rejects: CreateTable -> Option<string>)
    ensures var k := FirstRejected(statements, rejects);
            var r := RunStatements(store, statements, rejects);
            && (r.err.None? <==> k == |statements|)
            && (k < |statements| ==> r.err == Some(Driver(rejects(statements[k]).value)))
            && r.store == RunStatements(store, statements[..k], rejects).store
    decreases |statements|
  {
    if statements != [] && rejects(statements[0]).None? {
      RunStopsAtFirstRejection(Execute(store, statements[0]), statements[1..], rejects);
      var k := FirstRejected(statements, rejects);
      assert statements[..k][1..] == statements[1..][..k - 1];
    }
  }

  /**
   * A run without rejection leaves every table that already existed as it was,
   * and every statement's table exists afterwards.
   */
  lemma {:induction false} RunCreatesEveryTable(store: Store, statements: seq<CreateTable>, rejects: CreateTable -> Option<string>)
    requires RunStatements(store, statements, rejects).err.None?
    ensures var r := RunStatements(store, statements, rejects).store;
            && (forall j :: 0 <= j < |statements| ==> statements[j].table in r)
            && (forall t :: t in store ==> t in r && r[t] == store[t])
            && (forall t :: t in r ==> t in store || exists j :: 0 <= j < |statements| && statements[j].table == t)
    decreases |statements|
  {
    if statements != [] {
      var next := Execute(store, statements[0]);
      RunCreatesEveryTable(next, statements[1..], rejects);
      var r := RunStatements(store, statements, rejects).store;
      forall t | t in r
        ensures t in store || exists j :: 0 <= j < |statements| && statements[j].table == t
      {
        if t !in next {
          var j :| 0 <= j < |statements[1..]| && statements[1..][j].table == t;
          assert statements[j + 1].table == t;
        }
      }
    }
  }

  /** When every table already exists and nothing is rejected, a run changes nothing. */
  lemma {:induction false} RunOnExistingTables(store: Store, statements: seq<CreateTable>, rejects: CreateTable -> Option<string>)
    requires forall j :: 0 <= j < |statements| ==> statements[j].table in store && rejects(statements[j]).None?
    ensures RunStatements(store, statements, rejects) == Step(store, None)
    decreases |statements|
  {
    if statements != [] {
      RunOnExistingTables(store, statements[1..], rejects);
    }
  }

  /**
   * On tables that all exist, a run leaves the store as it is whatever the
   * backend answers: an accepted statement changes nothing and a rejected one
   * stops the run.
   */
  lemma {:induction false} RunOnExistingTablesAnyAnswers(store: Store, statements: seq<CreateTable>,
                                                         rejects: CreateTable -> Option<string>)
    requires forall j :: 0 <= j < |statements| ==> statements[j].table in store
    ensures RunStatements(store, statements, rejects).store == store
    decreases |statements|
  {
    if statements != [] && rejects(statements[0]).None? {
      assert Execute(store, statements[0]) == store;
      RunOnExistingTablesAnyAnswers(store, statements[1..], rejects);
    }
  }

  /**
   * Init is idempotent: once a run succeeded, running it again leaves the tables
   * as they are whatever the backend answers the second time, and with the same
   * answers it also succeeds.
   */
  lemma InitIdempotent(store: Store, schemaName: string, rejects: CreateTable -> Option<string>,
                       again: CreateTable -> Option<string>)
    requires RunStatements(store, InitStatements(schemaName), rejects).err.None?
    ensures var once := RunStatements(store, InitStatements(schemaName), rejects);
            RunStatements(once.store, InitStatements(schemaName), again).store == once.store
    ensures var once := RunStatements(store, InitStatements(schemaName), rejects);
            RunStatements(once.store, InitStatements(schemaName), rejects) == once
  {
    var statements := InitStatements(schemaName);
    RunCreatesEveryTable(store, statements, rejects);
    RunStopsAtFirstRejection(store, statements, rejects);
    RunOnExistingTables(RunStatements(store, statements, rejects).store, statements, rejects);
    RunOnExistingTablesAnyAnswers(RunStatements(store, statements, rejects).store, statements, again);
  }

  // ---------------------------------------------------------------------------
  // Create, Upsert, Get, Delete
  // ---------------------------------------------------------------------------

  /** Where an entity lives once flattened. */
  function LocationOf(s: Settings, entity: Entity): Result<Location, DbError>
  {
    var flat := Normalise(s, entity);
    Locate(s.schemaName, flat.kind, flat.metadata)
  }

  /**
   * Create succeeds exactly when the flattened entity resolves to an existing
   * table where its identifier is absent, and then inserts its document there
   * and nothing else. An identifier already present yields Conflict keyed by it
   * and leaves the store unchanged; every failure leaves the store unchanged.
   */
  lemma CreateOutcome(store: Store, s: Settings, entity: Entity)
    ensures var r := CreateStep(store, s, entity);
            var loc := LocationOf(s, entity);
            && (r.err.None? <==> loc.Success? && loc.value.table in store && loc.value.id !in store[loc.value.table].rows)
            && (r.err.Some? ==> r.store == store)
            && (loc.Success? && loc.value.table in store && loc.value.id in store[loc.value.table].rows ==>
                  r.err == Some(Conflict(loc.value.id)))
            && (r.err.None? ==> r.store == Put(store, loc.value, s.marshal(Normalise(s, entity))))
  {
  }

  /**
   * A successful Create is seen by every later Get whose metadata flattens to
   * the same identifier: Get decodes exactly the document Create stored.
   */
  lemma CreateThenGet<T>(store: Store, s: Settings, entity: Entity, metadata: Metadata, decode: Doc -> Option<T>)
    requires CreateStep(store, s, entity).err.None?
    requires GenerateID(s.flatten(metadata, s.caseSensitive)) == GenerateID(Normalise(s, entity).metadata)
    ensures var doc := s.marshal(Normalise(s, entity));
            GetOutcome(CreateStep(store, s, entity).store, s, entity.kind, metadata, decode)
              == if decode(doc).Some? then Success(decode(doc).value) else Failure(CorruptDocument(doc))
  {
  }

  /** With a decoder that reads back what marshal wrote, Get returns the flattened entity. */
  lemma CreateThenGetRoundTrip(store: Store, s: Settings, entity: Entity, decode: Doc -> Option<Entity>)
    requires CreateStep(store, s, entity).err.None?
    requires decode(s.marshal(Normalise(s, entity))) == Some(Normalise(s, entity))
    ensures GetOutcome(CreateStep(store, s, entity).store, s, entity.kind, entity.metadata, decode)
              == Success(Normalise(s, entity))
  {
    CreateThenGet(store, s, entity, entity.metadata, decode);
  }

  /** Get on an absent identifier fails with NotFound keyed by that identifier. */
  lemma GetAbsent<T>(store: Store, s: Settings, kind: Kind, metadata: Metadata, decode: Doc -> Option<T>)
    requires var loc := Locate(s.schemaName, kind, s.flatten(metadata, s.caseSensitive));
             loc.Success? && loc.value.table in store && loc.value.id !in store[loc.value.table].rows
    ensures GetOutcome(store, s, kind, metadata, decode)
              == Failure(NotFound(Locate(s.schemaName, kind, s.flatten(metadata, s.caseSensitive)).value.id))
  {
  }

  /**
   * A successful Upsert leaves the entity's document at its identifier, whether
   * it inserted or replaced, and changes no other row and no other table.
   */
  lemma UpsertOutcome(store: Store, s: Settings, entity: Entity)
    ensures var r := UpsertStep(store, s, entity);
            var loc := LocationOf(s, entity);
            && (r.err.None? <==> loc.Success? && loc.value.table in store)
            && (r.err.Some? ==> r.store == store)
            && (r.err.None? ==>
                  && r.store.Keys == store.Keys
                  && r.store[loc.value.table].rows[loc.value.id] == s.marshal(Normalise(s, entity))
                  && (forall id :: id != loc.value.id ==>
                        (id in r.store[loc.value.table].rows <==> id in store[loc.value.table].rows))
                  && (forall id :: id != loc.value.id && id in store[loc.value.table].rows ==>
                        r.store[loc.value.table].rows[id] == store[loc.value.table].rows[id])
                  && (forall t :: t in store && t != loc.value.table ==> r.store[t] == store[t]))
  {
  }

  /** Upserting the same entity twice leaves the same store as upserting it once. */
  lemma UpsertIdempotent(store: Store, s: Settings, entity: Entity)
    ensures var once := UpsertStep(store, s, entity);
            UpsertStep(once.store, s, entity) == once
  {
    var once := UpsertStep(store, s, entity);
    if once.err.None? {
      var loc := LocationOf(s, entity).value;
      var doc := s.marshal(Normalise(s, entity));
      assert store[loc.table].rows[loc.id := doc][loc.id := doc] == store[loc.table].rows[loc.id := doc];
    }
  }

  /**
   * Delete on an absent identifier fails with NotFound keyed by it and changes
   * nothing; on a present one it removes exactly that row.
   */
  lemma DeleteOutcome(store: Store, s: Settings, kind: Kind, metadata: Metadata)
    ensures var r := DeleteStep(store, s, kind, metadata);
            var loc := Locate(s.schemaName, kind, metadata);
            && (r.err.Some? ==> r.store == store)
            && (loc.Success? && loc.value.table in store && loc.value.id !in store[loc.value.table].rows ==>
                  r.err == Some(NotFound(loc.value.id)))
            && (r.err.None? <==> loc.Success? && loc.value.table in store && loc.value.id in store[loc.value.table].rows)
            && (r.err.None? ==>
                  && r.store.Keys == store.Keys
                  && r.store[loc.value.table].rows == store[loc.value.table].rows - {loc.value.id}
                  && (forall t :: t in store && t != loc.value.table ==> r.store[t] == store[t]))
  {
  }

  /**
   * When flattening does not move the identifier, deleting what Create just
   * inserted restores the store exactly.
   */
  lemma CreateThenDelete(store: Store, s: Settings, entity: Entity)
    requires CreateStep(store, s, entity).err.None?
    requires GenerateID(Normalise(s, entity).metadata) == GenerateID(entity.metadata)
    ensures DeleteStep(CreateStep(store, s, entity).store, s, entity.kind, entity.metadata) == Step(store, None)
  {
    var loc := LocationOf(s, entity).value;
    var rows := store[loc.table].rows;
    assert rows[loc.id := s.marshal(Normalise(s, entity))] - {loc.id} == rows;
    assert store[loc.table := store[loc.table].(rows := rows)] == store;
  }

  /**
   * Delete does not flatten: when flattening moves the identifier, Delete with
   * the metadata the caller created with misses the row Create stored and
   * reports NotFound for the unflattened identifier.
   */
  lemma DeleteMissesFlattenedRow(store: Store, s: Settings, entity: Entity)
    requires CreateStep(store, s, entity).err.None?
    requires GenerateID(entity.metadata).Success?
    requires GenerateID(Normalise(s, entity).metadata) != GenerateID(entity.metadata)
    requires GenerateID(entity.metadata).value !in store[LocationOf(s, entity).value.table].rows
    ensures DeleteStep(CreateStep(store, s, entity).store, s, entity.kind, entity.metadata)
              == Step(CreateStep(store, s, entity).store, Some(NotFound(GenerateID(entity.metadata).value)))
  {
  }

  // ---------------------------------------------------------------------------
  // Query
  // ---------------------------------------------------------------------------

  /** A completed query that matched nothing leaves an empty slice, never a nil one. */
  lemma QueryNoRowsIsEmptySlice<T>(decode: Doc -> Option<T>)
    ensures AppendDecoded(NilSlice, [], decode) == (Slice([]), None)
    ensures AppendDecoded(Slice([]), [], decode) == (Slice([]), None)
  {
    assert Elems<T>(NilSlice) + [] == [];
    assert DecodePrefix<T>([], decode) == [];
  }

  /** Values land in the slice in row order, after whatever it already held. */
  lemma {:induction false} QueryKeepsRowOrder<T>(before: Pointee<T>, rows: seq<RowScan>, decode: Doc -> Option<T>)
    requires forall j :: 0 <= j < |rows| ==> RowDecodes(rows[j], decode)
    ensures var r := AppendDecoded(before, rows, decode);
            && r.1 == None
            && r.0.Slice?
            && |r.0.elems| == |Elems(before)| + |rows|
            && r.0.elems[..|Elems(before)|] == Elems(before)
            && forall j :: 0 <= j < |rows| ==> Some(r.0.elems[|Elems(before)| + j]) == decode(rows[j].doc)
  {
    DecodePrefixLength(rows, decode, |rows|);
  }
}
