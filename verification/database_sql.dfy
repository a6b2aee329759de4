/**
 * The generic SQL persistence layer: the kind-to-table catalogue, the storage
 * identifier rule, schema-qualified table names, and a DAO over an abstract
 * store that maps each schema-qualified table name to its rows.
 *
 * The SQL text, the driver and JSON are replaced by the store, by the backend's
 * answers given as parameters, and by the DAO's `flatten` and `marshal`
 * functions (metadata normalisation and document encoding).
 */
module DatabaseSql {
  import opened Wrappers

  /** Entity kinds. `Unlisted` stands for any kind other than the fifteen listed ones. */
  datatype Kind =
    | Dashboard | Datasource | EphemeralDashboard | Folder | GlobalDatasource
    | GlobalRole | GlobalRoleBinding | GlobalSecret | GlobalVariable | Project
    | Role | RoleBinding | Secret | User | Variable
    | Unlisted(name: string)

  /** The metadata shapes the DAO receives: project-scoped, global, or any other implementation. */
  datatype Metadata =
    | ProjectMetadata(project: string, name: string)
    | GlobalMetadata(name: string)
    | UnmanagedMetadata(typeName: string)

  /** An entity handed to the DAO; `spec` stands for everything besides kind and metadata. */
  datatype Entity = Entity(kind: Kind, metadata: Metadata, spec: string)

  /** A stored JSON document, as text. */
  type Doc = string

  datatype DbError =
    | NoAssociatedTable(kind: Kind)
    | MetadataNotManaged(typeName: string)
    | Conflict(key: string)
    | NotFound(key: string)
    | MissingTable(table: string)   // the backend refuses a statement on a table it does not have
    | Driver(message: string)       // any other failure the backend reports
    | BuildFailed(message: string)  // the query builder could not build the statement
    | ScanFailed(message: string)
    | CorruptDocument(doc: Doc)     // a stored document does not decode into the target
    | NotAPointer(typeName: string)
    | NotASlice(typeName: string)

  // ---------------------------------------------------------------------------
  // Table catalogue
  // ---------------------------------------------------------------------------

  const TableDashboard: string := "dashboard"
  const TableDatasource: string := "datasource"
  const TableEphemeralDashboard: string := "ephemeraldashboard"
  const TableFolder: string := "folder"
  const TableGlobalDatasource: string := "globaldatasource"
  const TableGlobalRole: string := "globalrole"
  const TableGlobalRoleBinding: string := "globalrolebinding"
  const TableGlobalSecret: string := "globalsecret"
  const TableGlobalVariable: string := "globalvariable"
  const TableProject: string := "project"
  const TableRole: string := "role"
  const TableRoleBinding: string := "rolebinding"
  const TableSecret: string := "secret"
  const TableUser: string := "user"
  const TableVariable: string := "variable"

  /** The table backing each listed kind; any other kind has none. */
  function TableName(kind: Kind): (r: Result<string, DbError>)
    ensures r.Success? <==> !kind.Unlisted?
    ensures r.Failure? ==> r.error == NoAssociatedTable(kind)
  {
    match kind
    case Dashboard => Success(TableDashboard)
    case Datasource => Success(TableDatasource)
    case EphemeralDashboard => Success(TableEphemeralDashboard)
    case Folder => Success(TableFolder)
    case GlobalDatasource => Success(TableGlobalDatasource)
    case GlobalRole => Success(TableGlobalRole)
    case GlobalRoleBinding => Success(TableGlobalRoleBinding)
    case GlobalSecret => Success(TableGlobalSecret)
    case GlobalVariable => Success(TableGlobalVariable)
    case Project => Success(TableProject)
    case Role => Success(TableRole)
    case RoleBinding => Success(TableRoleBinding)
    case Secret => Success(TableSecret)
    case User => Success(TableUser)
    case Variable => Success(TableVariable)
    case Unlisted(_) => Failure(NoAssociatedTable(kind))
  }

  /** The reverse reading of the catalogue: which kind a table name belongs to. */
  function TableKind(table: string): Option<Kind>
  {
    if table == TableDashboard then Some(Dashboard)
    else if table == TableDatasource then Some(Datasource)
    else if table == TableEphemeralDashboard then Some(EphemeralDashboard)
    else if table == TableFolder then Some(Folder)
    else if table == TableGlobalDatasource then Some(GlobalDatasource)
    else if table == TableGlobalRole then Some(GlobalRole)
    else if table == TableGlobalRoleBinding then Some(GlobalRoleBinding)
    else if table == TableGlobalSecret then Some(GlobalSecret)
    else if table == TableGlobalVariable then Some(GlobalVariable)
    else if table == TableProject then Some(Project)
    else if table == TableRole then Some(Role)
    else if table == TableRoleBinding then Some(RoleBinding)
    else if table == TableSecret then Some(Secret)
    else if table == TableUser then Some(User)
    else if table == TableVariable then Some(Variable)
    else None
  }

  // ---------------------------------------------------------------------------
  // Identity
  // ---------------------------------------------------------------------------

  /** The storage identifier: `project|name` for project metadata, `name` for global metadata. */
  function GenerateID(metadata: Metadata): (r: Result<string, DbError>)
    ensures r.Failure? <==> metadata.UnmanagedMetadata?
    ensures r.Failure? ==> r.error == MetadataNotManaged(metadata.typeName)
    ensures metadata.ProjectMetadata? ==> r == Success(metadata.project + "|" + metadata.name)
    ensures metadata.GlobalMetadata? ==> r == Success(metadata.name)
  {
    match metadata
    case ProjectMetadata(project, name) => Success(project + "|" + name)
    case GlobalMetadata(name) => Success(name)
    case UnmanagedMetadata(typeName) => Failure(MetadataNotManaged(typeName))
  }

  /** Splits an identifier at its first `|`, the reverse reading of a project identifier. */
  function SplitID(id: string): (r: Option<(string, string)>)
    ensures r.Some? ==> '|' !in r.value.0 && id == r.value.0 + "|" + r.value.1
    ensures r.None? <==> '|' !in id
  {
    if id == [] then None
    else if id[0] == '|' then Some(([], id[1..]))
    else match SplitID(id[1..])
      case None => None
      case Some((project, name)) =>
        assert id == [id[0]] + id[1..];
        Some(([id[0]] + project, name))
  }

  /** The schema-qualified name of a table: `schema.table`. */
  function CompleteTableName(schemaName: string, tableName: string): (r: string)
    ensures |r| == |schemaName| + 1 + |tableName|
    ensures r[..|schemaName|] == schemaName && r[|schemaName|] == '.'
    ensures r[|schemaName| + 1..] == tableName
  {
    schemaName + "." + tableName
  }

  /** Where an entity lives: its identifier and its schema-qualified table. */
  datatype Location = Location(id: string, table: string)

  /** getIDAndTableName: the table is resolved first, then the identifier. */
  function Locate(schemaName: string, kind: Kind, metadata: Metadata): (r: Result<Location, DbError>)
    ensures kind.Unlisted? ==> r == Failure(NoAssociatedTable(kind))
    ensures !kind.Unlisted? && metadata.UnmanagedMetadata? ==>
              r == Failure(MetadataNotManaged(metadata.typeName))
    ensures r.Success? <==> !kind.Unlisted? && !metadata.UnmanagedMetadata?
    ensures r.Success? ==>
              && r.value.table == CompleteTableName(schemaName, TableName(kind).value)
              && GenerateID(metadata) == Success(r.value.id)
  {
    var table :- TableName(kind);
    var id :- GenerateID(metadata);
    Success(Location(id, CompleteTableName(schemaName, table)))
  }

  // ---------------------------------------------------------------------------
  // Tables and the store
  // ---------------------------------------------------------------------------

  /** Global tables hold (id, name, doc); project tables hold (id, name, project, doc). */
  datatype Shape = GlobalShape | ProjectShape

  datatype Column = Column(name: string, sqlType: string, primaryKey: bool)

  /** The column definitions of createResourceTable and createProjectResourceTable. */
  function Columns(shape: Shape): (cols: seq<Column>)
    ensures |cols| > 0 && cols[0].name == "id" && cols[0].primaryKey
    ensures forall j :: 1 <= j < |cols| ==> !cols[j].primaryKey
    ensures cols[|cols| - 1] == Column("doc", "JSON", false)
    ensures (exists j :: 0 <= j < |cols| && cols[j].name == "project") <==> shape == ProjectShape
  {
    match shape
    case GlobalShape =>
      [Column("id", "VARCHAR(128)", true), Column("name", "VARCHAR(128)", false), Column("doc", "JSON", false)]
    case ProjectShape =>
      var cols := [Column("id", "VARCHAR(256)", true), Column("name", "VARCHAR(128)", false),
                   Column("project", "VARCHAR(128)", false), Column("doc", "JSON", false)];
      assert cols[2].name == "project";
      cols
  }

  /** A `CREATE TABLE IF NOT EXISTS` statement for a schema-qualified table. */
  datatype CreateTable = CreateTable(table: string, shape: Shape)

  datatype Table = Table(shape: Shape, rows: map<string, Doc>)

  /** The database: schema-qualified table name to table. */
  type Store = map<string, Table>

  /**
   * Runs a create-if-not-exists statement the backend accepted: the statement's
   * table is the only one that can appear, it appears empty, and every table
   * that already existed keeps its shape and rows.
   */
  function Execute(store: Store, statement: CreateTable): (r: Store)
    ensures r.Keys == store.Keys + {statement.table}
    ensures forall t :: t in store ==> r[t] == store[t]
    ensures statement.table !in store ==> r[statement.table] == Table(statement.shape, map[])
  {
    if statement.table in store then store else store[statement.table := Table(statement.shape, map[])]
  }

  datatype TableDef = TableDef(name: string, shape: Shape)

  /** The tables Init creates, in its order: seven global-shape tables, then eight project-shape ones. */
  const InitTables: seq<TableDef> := [
    TableDef(TableGlobalDatasource, GlobalShape),
    TableDef(TableGlobalRole, GlobalShape),
    TableDef(TableGlobalRoleBinding, GlobalShape),
    TableDef(TableGlobalSecret, GlobalShape),
    TableDef(TableGlobalVariable, GlobalShape),
    TableDef(TableProject, GlobalShape),
    TableDef(TableUser, GlobalShape),
    TableDef(TableDashboard, ProjectShape),
    TableDef(TableDatasource, ProjectShape),
    TableDef(TableEphemeralDashboard, ProjectShape),
    TableDef(TableFolder, ProjectShape),
    TableDef(TableRole, ProjectShape),
    TableDef(TableRoleBinding, ProjectShape),
    TableDef(TableSecret, ProjectShape),
    TableDef(TableVariable, ProjectShape)
  ]

  /** The statements Init issues, each on the schema-qualified table name. */
  function InitStatements(schemaName: string): (r: seq<CreateTable>)
    ensures |r| == |InitTables|
    ensures forall j :: 0 <= j < |r| ==>
              r[j] == CreateTable(CompleteTableName(schemaName, InitTables[j].name), InitTables[j].shape)
  {
    seq(|InitTables|, j requires 0 <= j < |InitTables| =>
      CreateTable(CompleteTableName(schemaName, InitTables[j].name), InitTables[j].shape))
  }

  /** The store after a statement-by-statement run, and the error that stopped it. */
  datatype Step = Step(store: Store, err: Option<DbError>)

  /**
   * Runs the statements in order; `rejects` is the backend's answer to each
   * statement (None when it accepts). The run stops at the first rejection.
   */
  function RunStatements(store: Store, statements: seq<CreateTable>, rejects: CreateTable -> Option<string>): Step
    decreases |statements|
  {
    if statements == [] then Step(store, None)
    else match rejects(statements[0])
      case Some(message) => Step(store, Some(Driver(message)))
      case None => RunStatements(Execute(store, statements[0]), statements[1..], rejects)
  }

  // ---------------------------------------------------------------------------
  // The semantics of the DAO operations on a store
  // ---------------------------------------------------------------------------

  /** The DAO's configuration: schema, case sensitivity, Flatten, and the document encoding. */
  datatype Settings = Settings(
    schemaName: string,
    caseSensitive: bool,
    flatten: (Metadata, bool) -> Metadata,
    marshal: Entity -> Doc)

  /** An entity after Flatten has been applied to its metadata. */
  function Normalise(s: Settings, entity: Entity): (r: Entity)
    ensures r.kind == entity.kind && r.spec == entity.spec
    ensures r.metadata == s.flatten(entity.metadata, s.caseSensitive)
  {
    entity.(metadata := s.flatten(entity.metadata, s.caseSensitive))
  }

  /** The select-by-id probe: the row at the location, if its table exists. */
  function Lookup(store: Store, loc: Location): (r: Result<Option<Doc>, DbError>)
    ensures r.Failure? <==> loc.table !in store
    ensures r.Failure? ==> r.error == MissingTable(loc.table)
    ensures r.Success? ==> (r.value.Some? <==> loc.id in store[loc.table].rows)
    ensures r.Success? && r.value.Some? ==> r.value.value == store[loc.table].rows[loc.id]
  {
    if loc.table !in store then Failure(MissingTable(loc.table))
    else if loc.id in store[loc.table].rows then Success(Some(store[loc.table].rows[loc.id]))
    else Success(None)
  }

  /** exists: the identifier, and whether a row holds it. */
  function Probe(store: Store, schemaName: string, kind: Kind, metadata: Metadata): (r: Result<(string, bool), DbError>)
    ensures r.Success? <==> Locate(schemaName, kind, metadata).Success?
                            && Locate(schemaName, kind, metadata).value.table in store
    ensures r.Success? ==>
              var loc := Locate(schemaName, kind, metadata).value;
              r.value.0 == loc.id && (r.value.1 <==> loc.id in store[loc.table].rows)
    ensures Locate(schemaName, kind, metadata).Failure? ==>
              r == Failure(Locate(schemaName, kind, metadata).error)
    ensures Locate(schemaName, kind, metadata).Success? && r.Failure? ==>
              r.error == MissingTable(Locate(schemaName, kind, metadata).value.table)
  {
    var loc :- Locate(schemaName, kind, metadata);
    var row :- Lookup(store, loc);
    Success((loc.id, row.Some?))
  }

  /** Writes a document at a location of an existing table (insert or full update). */
  function Put(store: Store, loc: Location, doc: Doc): (r: Store)
    requires loc.table in store
    ensures r.Keys == store.Keys
    ensures r[loc.table].shape == store[loc.table].shape
    ensures r[loc.table].rows == store[loc.table].rows[loc.id := doc]
    ensures forall t :: t in store && t != loc.table ==> r[t] == store[t]
  {
    store[loc.table := store[loc.table].(rows := store[loc.table].rows[loc.id := doc])]
  }

  /** Deletes the row at a location of an existing table. */
  function Remove(store: Store, loc: Location): (r: Store)
    requires loc.table in store
    ensures r.Keys == store.Keys
    ensures r[loc.table].shape == store[loc.table].shape
    ensures r[loc.table].rows == store[loc.table].rows - {loc.id}
    ensures forall t :: t in store && t != loc.table ==> r[t] == store[t]
  {
    store[loc.table := store[loc.table].(rows := store[loc.table].rows - {loc.id})]
  }

  /** Create: flatten, probe, refuse an existing identifier, else insert the document. */
  function CreateStep(store: Store, s: Settings, entity: Entity): Step
  {
    var flat := Normalise(s, entity);
    match Probe(store, s.schemaName, flat.kind, flat.metadata)
    case Failure(e) => Step(store, Some(e))
    case Success((id, present)) =>
      if present then Step(store, Some(Conflict(id)))
      else Step(Put(store, Locate(s.schemaName, flat.kind, flat.metadata).value, s.marshal(flat)), None)
  }

  /** Upsert: flatten, probe, then insert when absent or replace the whole document when present. */
  function UpsertStep(store: Store, s: Settings, entity: Entity): Step
  {
    var flat := Normalise(s, entity);
    match Probe(store, s.schemaName, flat.kind, flat.metadata)
    case Failure(e) => Step(store, Some(e))
    case Success((_, present)) =>
      Step(Put(store, Locate(s.schemaName, flat.kind, flat.metadata).value, s.marshal(flat)), None)
  }

  /** Get: flatten, select by identifier, decode the document into the caller's target type. */
  function GetOutcome<T>(store: Store, s: Settings, kind: Kind, metadata: Metadata, decode: Doc -> Option<T>): Result<T, DbError>
  {
    var loc :- Locate(s.schemaName, kind, s.flatten(metadata, s.caseSensitive));
    var row :- Lookup(store, loc);
    match row
    case None => Failure(NotFound(loc.id))
    case Some(doc) =>
      match decode(doc)
      case None => Failure(CorruptDocument(doc))
      case Some(v) => Success(v)
  }

  /** Delete: probe WITHOUT flattening, refuse a missing identifier, else delete that row. */
  function DeleteStep(store: Store, s: Settings, kind: Kind, metadata: Metadata): Step
  {
    match Probe(store, s.schemaName, kind, metadata)
    case Failure(e) => Step(store, Some(e))
    case Success((id, present)) =>
      if !present then Step(store, Some(NotFound(id)))
      else Step(Remove(store, Locate(s.schemaName, kind, metadata).value), None)
  }

  // ---------------------------------------------------------------------------
  // Queries
  // ---------------------------------------------------------------------------

  /** One row of a result set, as scanned. */
  datatype RowScan = Scanned(doc: Doc) | ScanError(message: string)

  /** What the backend does with a built query: the build fails, the run fails, or rows come back. */
  datatype Execution = BuildError(message: string) | RunError(message: string) | Rows(rows: seq<RowScan>)

  predicate RowDecodes<T>(row: RowScan, decode: Doc -> Option<T>)
  {
    row.Scanned? && decode(row.doc).Some?
  }

  /** The error that a row which does not decode produces. */
  function RowError<T>(row: RowScan, decode: Doc -> Option<T>): DbError
  {
    match row
    case ScanError(message) => ScanFailed(message)
    case Scanned(doc) => CorruptDocument(doc)
  }

  /** The values of the rows before the first one that does not scan or decode, in row order. */
  function DecodePrefix<T>(rows: seq<RowScan>, decode: Doc -> Option<T>): (r: seq<T>)
    ensures |r| <= |rows|
    ensures forall j :: 0 <= j < |r| ==> RowDecodes(rows[j], decode) && Some(r[j]) == decode(rows[j].doc)
    ensures |r| < |rows| ==> !RowDecodes(rows[|r|], decode)
  {
    if rows == [] || !RowDecodes(rows[0], decode) then []
    else [decode(rows[0].doc).value] + DecodePrefix(rows[1..], decode)
  }

  /** The Go slice behind the pointer handed to Query: not a slice, nil, or a slice. */
  datatype Pointee<T> = NonSlice(typeName: string) | NilSlice | Slice(elems: seq<T>)

  /** The memory a pointer designates; Query writes through it. */
  class SliceCell<T> {
    var value: Pointee<T>

    constructor (initial: Pointee<T>)
      ensures value == initial
    {
      value := initial;
    }
  }

  /** The argument of Query: a value that is not a pointer, or a pointer to a cell. */
  datatype Target<T> = NonPointer(typeName: string) | Pointer(cell: SliceCell<T>)

  function Elems<T>(p: Pointee<T>): seq<T>
  {
    if p.Slice? then p.elems else []
  }

  /**
   * The slice a successful pointer check and query run leave behind, and the
   * error that stopped the run: the decoded values are appended to what the
   * slice held; a failing row leaves the values before it appended; a completed
   * run that appended nothing to an empty slice stores an empty, non-nil slice.
   */
  function AppendDecoded<T>(before: Pointee<T>, rows: seq<RowScan>, decode: Doc -> Option<T>): (Pointee<T>, Option<DbError>)
  {
    var decoded := DecodePrefix(rows, decode);
    if |decoded| == |rows| then (Slice(Elems(before) + decoded), None)
    else (if decoded == [] then before else Slice(Elems(before) + decoded), Some(RowError(rows[|decoded|], decode)))
  }

  /** The decoded prefix is exactly as long as the run of rows that decode. */
  lemma {:induction false} DecodePrefixLength<T>(rows: seq<RowScan>, decode: Doc -> Option<T>, k: nat)
    requires k <= |rows|
    requires forall j :: 0 <= j < k ==> RowDecodes(rows[j], decode)
    requires k < |rows| ==> !RowDecodes(rows[k], decode)
    ensures |DecodePrefix(rows, decode)| == k
    decreases k
  {
    if k > 0 {
      DecodePrefixLength(rows[1..], decode, k - 1);
    }
  }

  // ---------------------------------------------------------------------------
  // The DAO
  // ---------------------------------------------------------------------------

  class DAO {
    const schemaName: string
    const caseSensitive: bool
    /** Metadata.Flatten(caseSensitive), which this model leaves abstract. */
    const flatten: (Metadata, bool) -> Metadata
    /** The document generateInsertQuery and generateUpdateQuery write for an entity. */
    const marshal: Entity -> Doc
    /** The contents of the database. */
    var tables: Store

    function Config(): Settings
    {
      Settings(schemaName, caseSensitive, flatten, marshal)
    }

    constructor (schemaName: string, caseSensitive: bool, flatten: (Metadata, bool) -> Metadata,
                 marshal: Entity -> Doc, contents: Store)
      ensures this.schemaName == schemaName && this.caseSensitive == caseSensitive
      ensures this.flatten == flatten && this.marshal == marshal
      ensures tables == contents
    {
      this.schemaName := schemaName;
      this.caseSensitive := caseSensitive;
      this.flatten := flatten;
      this.marshal := marshal;
      tables := contents;
    }

    /** Creates every catalogue table if absent, stopping at the first statement the backend rejects. */
    method Init(rejects: CreateTable -> Option<string>) returns (err: Option<DbError>)
      modifies this
      ensures Step(tables, err) == RunStatements(old(tables), InitStatements(schemaName), rejects)
    {
      var statements := InitStatements(schemaName);
      var i := 0;
      while i < |statements|
        invariant 0 <= i <= |statements|
        invariant RunStatements(tables, statements[i..], rejects) == RunStatements(old(tables), statements, rejects)
      {
        assert statements[i..][1..] == statements[i + 1..];
        var failure := rejects(statements[i]);
        if failure.Some? {
          return Some(Driver(failure.value));
        }
        tables := Execute(tables, statements[i]);
        i := i + 1;
      }
      return None;
    }

    /** exists: resolves the location and probes it. */
    method Exists(kind: Kind, metadata: Metadata) returns (r: Result<(string, bool), DbError>)
      ensures r == Probe(tables, schemaName, kind, metadata)
    {
      var loc :- Locate(schemaName, kind, metadata);
      if loc.table !in tables {
        return Failure(MissingTable(loc.table));
      }
      return Success((loc.id, loc.id in tables[loc.table].rows));
    }

    /**
     * Create. `normalised` is the caller's entity after Flatten, which the
     * source applies in place.
     */
    method Create(entity: Entity) returns (err: Option<DbError>, normalised: Entity)
      modifies this
      ensures normalised == Normalise(Config(), entity)
      ensures Step(tables, err) == CreateStep(old(tables), Config(), entity)
    {
      normalised := entity.(metadata := flatten(entity.metadata, caseSensitive));
      var probe := Exists(normalised.kind, normalised.metadata);
      if probe.Failure? {
        return Some(probe.error), normalised;
      }
      var (id, isExist) := probe.value;
      if isExist {
        return Some(Conflict(id)), normalised;
      }
      var loc := Locate(schemaName, normalised.kind, normalised.metadata).value;
      tables := tables[loc.table := tables[loc.table].(rows := tables[loc.table].rows[loc.id := marshal(normalised)])];
      err := None;
    }

    /** Upsert: insert when the identifier is absent, full-document update when present. */
    method Upsert(entity: Entity) returns (err: Option<DbError>, normalised: Entity)
      modifies this
      ensures normalised == Normalise(Config(), entity)
      ensures Step(tables, err) == UpsertStep(old(tables), Config(), entity)
    {
      normalised := entity.(metadata := flatten(entity.metadata, caseSensitive));
      var probe := Exists(normalised.kind, normalised.metadata);
      if probe.Failure? {
        return Some(probe.error), normalised;
      }
      var loc := Locate(schemaName, normalised.kind, normalised.metadata).value;
      var table := tables[loc.table];
      if !probe.value.1 {
        // insert
        tables := tables[loc.table := table.(rows := table.rows[loc.id := marshal(normalised)])];
      } else {
        // update: the whole document is replaced
        tables := tables[loc.table := table.(rows := table.rows[loc.id := marshal(normalised)])];
      }
      err := None;
    }

    /**
     * Get: decodes the stored document with `decode`, standing for json.Unmarshal
     * into the caller's entity. `flattened` is the caller's metadata after Flatten.
     */
    method Get<T>(kind: Kind, metadata: Metadata, decode: Doc -> Option<T>) returns (r: Result<T, DbError>, flattened: Metadata)
      ensures flattened == flatten(metadata, caseSensitive)
      ensures r == GetOutcome(tables, Config(), kind, metadata, decode)
    {
      flattened := flatten(metadata, caseSensitive);
      var located := Locate(schemaName, kind, flattened);
      if located.Failure? {
        return Failure(located.error), flattened;
      }
      var loc := located.value;
      if loc.table !in tables {
        return Failure(MissingTable(loc.table)), flattened;
      }
      if loc.id !in tables[loc.table].rows {
        return Failure(NotFound(loc.id)), flattened;
      }
      var doc := tables[loc.table].rows[loc.id];
      var value := decode(doc);
      if value.None? {
        return Failure(CorruptDocument(doc)), flattened;
      }
      r := Success(value.value);
    }

    /** Delete: existence probe on the metadata as given (no Flatten), then delete by identifier. */
    method Delete(kind: Kind, metadata: Metadata) returns (err: Option<DbError>)
      modifies this
      ensures Step(tables, err) == DeleteStep(old(tables), Config(), kind, metadata)
    {
      var probe := Exists(kind, metadata);
      if probe.Failure? {
        return Some(probe.error);
      }
      var (id, isExist) := probe.value;
      if !isExist {
        return Some(NotFound(id));
      }
      var loc := Locate(schemaName, kind, metadata).value;
      tables := tables[loc.table := tables[loc.table].(rows := tables[loc.table].rows - {loc.id})];
      err := None;
    }

    /** RawQuery: every matching document as raw bytes, in the backend's row order. */
    method RawQuery(execution: Execution) returns (r: Result<seq<Doc>, DbError>)
      ensures execution.BuildError? ==> r == Failure(BuildFailed(execution.message))
      ensures execution.RunError? ==> r == Failure(Driver(execution.message))
      ensures execution.Rows? ==>
                (r.Success? <==> forall j :: 0 <= j < |execution.rows| ==> execution.rows[j].Scanned?)
      ensures execution.Rows? && r.Success? ==>
                |r.value| == |execution.rows|
                && forall j :: 0 <= j < |execution.rows| ==> r.value[j] == execution.rows[j].doc
      ensures execution.Rows? && r.Failure? ==>
                exists k :: 0 <= k < |execution.rows|
                  && (forall j :: 0 <= j < k ==> execution.rows[j].Scanned?)
                  && execution.rows[k].ScanError?
                  && r.error == ScanFailed(execution.rows[k].message)
    {
      match execution
      case BuildError(message) => return Failure(BuildFailed(message));
      case RunError(message) => return Failure(Driver(message));
      case Rows(rows) =>
        var result: seq<Doc> := [];
        var i := 0;
        while i < |rows|
          invariant 0 <= i <= |rows|
          invariant forall j :: 0 <= j < i ==> rows[j].Scanned?
          invariant |result| == i
          invariant forall j :: 0 <= j < i ==> result[j] == rows[j].doc
        {
          if rows[i].ScanError? {
            return Failure(ScanFailed(rows[i].message));
          }
          result := result + [rows[i].doc];
          i := i + 1;
        }
        return Success(result);
    }

    /**
     * Query: decodes every matching document and appends it to the slice the
     * target points to. A non-pointer target or a pointer to a non-slice is
     * refused, and so are a query that cannot be built or run; those leave the
     * slice as it was.
     */
    method Query<T>(target: Target<T>, execution: Execution, decode: Doc -> Option<T>) returns (err: Option<DbError>)
      modifies if target.Pointer? then {target.cell} else {}
      ensures target.NonPointer? ==> err == Some(NotAPointer(target.typeName))
      ensures target.Pointer? && old(target.cell.value).NonSlice? ==>
                err == Some(NotASlice(old(target.cell.value).typeName)) && target.cell.value == old(target.cell.value)
      ensures target.Pointer? && !old(target.cell.value).NonSlice? && execution.BuildError? ==>
                err == Some(BuildFailed(execution.message)) && target.cell.value == old(target.cell.value)
      ensures target.Pointer? && !old(target.cell.value).NonSlice? && execution.RunError? ==>
                err == Some(Driver(execution.message)) && target.cell.value == old(target.cell.value)
      ensures target.Pointer? && !old(target.cell.value).NonSlice? && execution.Rows? ==>
                (target.cell.value, err) == AppendDecoded(old(target.cell.value), execution.rows, decode)
    {
      if target.NonPointer? {
        return Some(NotAPointer(target.typeName));
      }
      var cell := target.cell;
      if cell.value.NonSlice? {
        return Some(NotASlice(cell.value.typeName));
      }
      match execution
      case BuildError(message) => return Some(BuildFailed(message));
      case RunError(message) => return Some(Driver(message));
      case Rows(rows) => err := AppendRows(cell, rows, decode);
    }

    /** The row loop of Query: scan, decode and append each row, writing through the pointer. */
    method AppendRows<T>(cell: SliceCell<T>, rows: seq<RowScan>, decode: Doc -> Option<T>) returns (err: Option<DbError>)
      modifies cell
      ensures (cell.value, err) == AppendDecoded(old(cell.value), rows, decode)
    {
      ghost var before := cell.value;
      ghost var decoded := DecodePrefix(rows, decode);
      var i := 0;
      while i < |rows|
        invariant 0 <= i <= |rows|
        invariant forall j :: 0 <= j < i ==> RowDecodes(rows[j], decode)
        invariant i <= |decoded|
        invariant cell.value == if i == 0 then before else Slice(Elems(before) + decoded[..i])
      {
        if rows[i].ScanError? || decode(rows[i].doc).None? {
          DecodePrefixLength(rows, decode, i);
          assert decoded[..i] == decoded;
          if rows[i].ScanError? {
            return Some(ScanFailed(rows[i].message));
          }
          return Some(CorruptDocument(rows[i].doc));
        }
        var value := decode(rows[i].doc).value;
        assert RowDecodes(rows[i], decode);
        assert decoded[..i + 1] == decoded[..i] + [value];
        cell.value := Slice(Elems(cell.value) + [value]);
        i := i + 1;
      }
      assert decoded[..i] == decoded;
      assert Elems(before) + [] == Elems(before);
      if Elems(cell.value) == [] {
        cell.value := Slice([]);
      }
      err := None;
      assert cell.value == Slice(Elems(before) + decoded);
    }
  }
}
