/**
 * The newer trait, RemoteModelManagement: boot with the TTL marker,
 * getRemoteModelEndpoint, refreshRemoteModel, createRemoteModelTable and
 * insertRemoteModelData. The trait leaves migrate to the model; the one
 * modelled here has the shape of the CelebrityCustomModel fixture: create
 * the table, then insert the decoded response.
 */
module ManagedModel {
  import opened Wrappers
  import opened Strings
  import opened Data
  import opened Schema
  import opened Ingest
  import opened Endpoints
  import opened CacheFiles
  import opened CacheResolution
  import opened Store

  /** What createRemoteModelTable does, as a value: the columns of the table it creates, the exception it raises. */
  datatype Creation = Creation(columns: Option<seq<Column>>, error: Option<Error>)

  /**
   * createRemoteModelTable with `schema` (the declared schema, or what the
   * callback made of it): an empty schema or a column that cannot be made
   * raises before any SQL; otherwise the builder's QueryException, if any,
   * is swallowed when it says the table already exists and rethrown
   * otherwise; else the table is created.
   */
  function TableCreation(schema: Record, declared: Record, table: string, createError: Option<string>, p: Parsers): Creation {
    match ManagedTableColumns(schema, declared, p)
    case Err(e) => Creation(None, Some(e))
    case Ok(columns) =>
      match createError
      case Some(message) => Creation(None, if AlreadyExists(message, table) then None else Some(QueryFailed(message)))
      case None => Creation(Some(columns), None)
  }

  /**
   * A table is created exactly when the columns can be made and the builder
   * raises nothing; the only outcome that neither creates nor raises is a
   * swallowed "already exists"; an empty schema always raises "No data
   * returned…".
   */
  lemma TableCreationOutcomes(schema: Record, declared: Record, table: string, createError: Option<string>, p: Parsers)
    ensures var c := TableCreation(schema, declared, table, createError, p);
      && (c.columns.Some? <==> ManagedTableColumns(schema, declared, p).Ok? && createError == None)
      && (c.columns.Some? ==> c.error == None && c.columns == Some(ManagedTableColumns(schema, declared, p).value))
      && (c.columns.None? && c.error == None ==>
            ManagedTableColumns(schema, declared, p).Ok? && createError.Some? && AlreadyExists(createError.value, table))
      && (|schema| == 0 <==> c.error == Some(NoData(ManagedNoDataMessage)))
  {
    ManagedNoDataIffEmpty(schema, declared, p);
  }

  /** The fixture's migrate: createRemoteModelTable() with no callback, then insertRemoteModelData(payload). */
  function FixtureMigration(declared: Record, table: string, payload: seq<Record>, createError: Option<string>, p: Parsers): Migration {
    var c := TableCreation(declared, declared, table, createError, p);
    if c.error.Some? then Migration(None, [], c.error)
    else Migration(c.columns, InsertBatches(payload, DefaultChunkSize, declared, p).value, None)
  }

  /**
   * Without a declared schema and without a callback the schema is empty,
   * so createRemoteModelTable always raises and nothing is inserted.
   */
  lemma NoDeclaredSchemaAlwaysRaises(table: string, payload: seq<Record>, createError: Option<string>, p: Parsers)
    ensures FixtureMigration([], table, payload, createError, p) == Migration(None, [], Some(NoData(ManagedNoDataMessage)))
  {
  }

  /**
   * When the creation is swallowed as "already exists", the fixture's
   * migrate still inserts the whole payload into the existing table.
   */
  lemma SwallowedCreationStillInserts(declared: Record, table: string, payload: seq<Record>, message: string, p: Parsers)
    requires |declared| > 0 && ManagedTableColumns(declared, declared, p).Ok? && AlreadyExists(message, table)
    ensures var m := FixtureMigration(declared, table, payload, Some(message), p);
      m.error == None && m.columns == None && Flatten(m.inserts) == PrepareRows(payload, declared, p)
  {
    InsertKeepsEveryRowInOrder(payload, DefaultChunkSize, declared, p);
  }

  /**
   * The CelebrityCustomModel fixture (schema {name: string}): its table is
   * id, name (string), timestamps, and every payload row is inserted once,
   * in order, without keys the schema does not declare, such as best_movie.
   */
  lemma CelebrityCustomModelMigration(table: string, payload: seq<Record>, p: Parsers)
    ensures var m := FixtureMigration([Entry("name", JString("string"))], table, payload, None, p);
      && m.error == None
      && m.columns == Some([IdColumn, Column("name", Typed("string"), true)] + TimestampColumns)
      && Flatten(m.inserts) == PrepareRows(payload, [Entry("name", JString("string"))], p)
      && |Flatten(m.inserts)| == |payload|
      && forall i :: 0 <= i < |payload| ==> "best_movie" !in Keys(Flatten(m.inserts)[i])
  {
    var declared := [Entry("name", JString("string"))];
    DeclaredSchemaColumns(p);
    InsertKeepsEveryRowInOrder(payload, DefaultChunkSize, declared, p);
    var m := FixtureMigration(declared, table, payload, None, p);
    forall i | 0 <= i < |payload|
      ensures "best_movie" !in Keys(Flatten(m.inserts)[i])
    {
      assert Flatten(m.inserts)[i] == PrepareRow(payload[i], declared, p);
      SchemaFilterDropsUndeclared(payload[i], p);
    }
  }

  /**
   * A file whose mtime is the reference mtime, with the marker stored when a
   * TTL is configured, is bound by the next boot under the as-written rule
   * and under the corrected one.
   */
  lemma RefreshedFileIsFresh(files: map<string, SqliteFile>, path: string, referenceMtime: int, settings: Settings, markerPresent: bool)
    requires path in files && files[path].mtime == referenceMtime
    requires settings.ttl ==> markerPresent
    ensures ManagedBootBranch(Observe(files, path, referenceMtime, settings), settings.ttl, markerPresent) == BindExisting
    ensures IntendedManagedBootBranch(Observe(files, path, referenceMtime, settings), settings.ttl, markerPresent) == BindExisting
  {
  }

  class ManagedRemoteModel {
    /** static::class and the model's table. */
    const className: string
    const table: string
    const settings: Settings
    /** filemtime of the model's class file (the reference path). */
    const referenceMtime: int
    /** getRemoteModelSchema: `$remoteSchema ?? []`. */
    const declaredSchema: Record
    /** The SQLite files and the class-wide connection. */
    const store: SqliteStore

    var remoteEndpoint: Option<string>
    /** The keys present in the application cache (the TTL markers). */
    var markers: set<string>

    constructor (className: string, table: string, remoteEndpoint: Option<string>, declaredSchema: Record,
                 settings: Settings, referenceMtime: int, store: SqliteStore, markers: set<string>)
      ensures this.className == className && this.table == table && this.remoteEndpoint == remoteEndpoint
      ensures this.declaredSchema == declaredSchema && this.settings == settings
      ensures this.referenceMtime == referenceMtime && this.store == store && this.markers == markers
    {
      this.className := className;
      this.table := table;
      this.remoteEndpoint := remoteEndpoint;
      this.declaredSchema := declaredSchema;
      this.settings := settings;
      this.referenceMtime := referenceMtime;
      this.store := store;
      this.markers := markers;
    }

    /** remoteModelCacheFileName, also the key of the TTL marker. */
    function CacheFileName(): string {
      ManagedCacheFileName(settings.cachePrefix, className)
    }

    /** remoteModelCachePath. */
    function CachePath(): string {
      CacheFiles.CachePath(settings.cacheDirectory, CacheFileName())
    }

    /** The URL getRemoteModelEndpoint returns in the current state. */
    function Url(): string
      reads this`remoteEndpoint
    {
      ManagedEndpoint(remoteEndpoint, settings.domain, settings.apiPath)
    }

    /** What boot observes in the current state. */
    function Observed(): BootState
      reads store
    {
      Observe(store.files, CachePath(), referenceMtime, settings)
    }

    /** getRemoteModelEndpoint: a falsy endpoint is set to '', an absolute one returned, any other joined. */
    method GetRemoteModelEndpoint() returns (url: string)
      modifies this`remoteEndpoint
      ensures remoteEndpoint == (if Falsy(old(remoteEndpoint)) then Some("") else old(remoteEndpoint))
      ensures url == Url() == old(Url())
    {
      if Falsy(remoteEndpoint) {
        remoteEndpoint := Some("");
      }
      if StartsWith(remoteEndpoint.value, "http") {
        return remoteEndpoint.value;
      }
      url := JoinEndpoint(settings.domain, settings.apiPath, remoteEndpoint.value);
    }

    /** The foreach of createRemoteModelTable: one nullable column per kept entry, stopping at the first that fails. */
    method BodyColumns(kept: Record, inferTypes: bool, p: Parsers) returns (r: Result<seq<Column>, Error>)
      ensures r == ManagedBodyColumns(kept, inferTypes, p)
    {
      var body: seq<Column> := [];
      for i := 0 to |kept|
        invariant |body| == i
        invariant forall j :: 0 <= j < i ==> ManagedColumn(kept[j], inferTypes, p) == Ok(body[j])
      {
        var column := ManagedColumn(kept[i], inferTypes, p);
        if column.Err? {
          ManagedBodyColumnsFirstError(kept, inferTypes, p, i);
          return Err(column.error);
        }
        body := body + [column.value];
      }
      var expected := ManagedBodyColumns(kept, inferTypes, p);
      assert expected.Ok?;
      assert expected.value == body;
      r := Ok(body);
    }

    /**
     * createRemoteModelTable: the schema is the callback's result when a
     * callback is given, else the declared schema; see TableCreation.
     */
    method CreateRemoteModelTable(callbackSchema: Option<Record>, createError: Option<string>, now: int, p: Parsers)
      returns (err: Option<Error>)
      requires store.Bound()
      modifies store
      ensures store.Bound() && store.connection == old(store.connection)
      ensures var c := TableCreation(callbackSchema.GetOr(declaredSchema), declaredSchema, table, createError, p);
        && err == c.error
        && store.BoundDatabase() == (if c.columns.Some? then old(store.BoundDatabase()).(columns := c.columns) else old(store.BoundDatabase()))
      ensures SameOtherFiles(old(store.files), store.files, store.connection) && store.files.Keys == old(store.files.Keys)
      ensures store.connection.File? ==> store.memory == old(store.memory)
      ensures store.connection.File? && old(store.files[store.connection.path].mtime) == now ==>
        store.files[store.connection.path].mtime == now
    {
      var schema := if callbackSchema.Some? then callbackSchema.value else declaredSchema;
      if |schema| == 0 {
        return Some(NoData(ManagedNoDataMessage));
      }
      var body := BodyColumns(Kept(schema), |declaredSchema| == 0, p);
      if body.Err? {
        assert ManagedTableColumns(schema, declaredSchema, p) == Err(body.error);
        return Some(body.error);
      }
      var columns := [IdColumn] + body.value + TimestampColumns;
      assert ManagedTableColumns(schema, declaredSchema, p) == Ok(columns);
      if createError.Some? {
        if AlreadyExists(createError.value, table) {
          return None;
        }
        return Some(QueryFailed(createError.value));
      }
      store.CreateTable(columns, now);
      err := None;
    }

    /**
     * insertRemoteModelData(data, chunk): one insert per chunk, each row
     * restricted to the declared keys and the reserved ones when a schema is
     * declared, then coerced; a chunk size below one raises first.
     */
    method InsertRemoteModelData(data: seq<Record>, chunk: int, now: int, p: Parsers) returns (err: Option<Error>)
      requires store.Bound()
      modifies store
      ensures store.Bound() && store.connection == old(store.connection)
      ensures err.Some? <==> chunk < 1
      ensures err.Some? ==> err == Some(ChunkSizeNotPositive) && store.BoundDatabase() == old(store.BoundDatabase())
      ensures err.None? ==>
        store.BoundDatabase() ==
          old(store.BoundDatabase()).(inserts := old(store.BoundDatabase()).inserts + InsertBatches(data, chunk, declaredSchema, p).value)
      ensures SameOtherFiles(old(store.files), store.files, store.connection) && store.files.Keys == old(store.files.Keys)
      ensures store.connection.File? ==> store.memory == old(store.memory)
      ensures store.connection.File? && old(store.files[store.connection.path].mtime) == now ==>
        store.files[store.connection.path].mtime == now
    {
      if chunk < 1 {
        return Some(ChunkSizeNotPositive);
      }
      var chunks := Chunks(data, chunk);
      var checkSchema := |declaredSchema| > 0;
      ghost var batches := InsertBatches(data, chunk, declaredSchema, p).value;
      for i := 0 to |chunks|
        invariant store.Bound() && store.connection == old(store.connection)
        invariant store.BoundDatabase() == old(store.BoundDatabase()).(inserts := old(store.BoundDatabase()).inserts + batches[..i])
        invariant SameOtherFiles(old(store.files), store.files, store.connection) && store.files.Keys == old(store.files.Keys)
        invariant store.connection.File? ==> store.memory == old(store.memory)
        invariant store.connection.File? && old(store.files[store.connection.path].mtime) == now ==>
          store.files[store.connection.path].mtime == now
      {
        var inserts := chunks[i];
        if checkSchema {
          inserts := seq(|inserts|, k requires 0 <= k < |inserts| => IntersectByKeys(inserts[k], AllowedKeys(declaredSchema)));
        }
        var batch := seq(|inserts|, k requires 0 <= k < |inserts| => CoerceRow(inserts[k], p));
        assert batch == batches[i];
        ghost var before := store.files;
        store.Insert(batch, now);
        SameOtherFilesTransitive(old(store.files), before, store.files, store.connection);
        assert batches[..i + 1] == batches[..i] + [batches[i]];
      }
      assert batches[..|chunks|] == batches;
      err := None;
    }

    /** The fixture's migrate: create the table from the declared schema, then insert the payload in chunks of 15. */
    method Migrate(payload: seq<Record>, createError: Option<string>, now: int, p: Parsers) returns (err: Option<Error>)
      requires store.Bound()
      modifies store
      ensures store.Bound() && store.connection == old(store.connection)
      ensures var m := FixtureMigration(declaredSchema, table, payload, createError, p);
        && err == m.error
        && store.BoundDatabase() == Database(
             if m.columns.Some? then m.columns else old(store.BoundDatabase()).columns,
             old(store.BoundDatabase()).inserts + m.inserts)
      ensures SameOtherFiles(old(store.files), store.files, store.connection) && store.files.Keys == old(store.files.Keys)
      ensures store.connection.File? ==> store.memory == old(store.memory)
      ensures store.connection.File? && old(store.files[store.connection.path].mtime) == now ==>
        store.files[store.connection.path].mtime == now
    {
      err := CreateRemoteModelTable(None, createError, now, p);
      if err.Some? {
        return;
      }
      err := InsertRemoteModelData(payload, DefaultChunkSize, now, p);
    }

    /**
     * refreshRemoteModel: truncate the cache file, bind it, migrate, set its
     * mtime to the reference mtime and, with a TTL, store the marker. An
     * exception skips the touch and the marker.
     */
    method RefreshRemoteModel(payload: seq<Record>, createError: Option<string>, now: int, p: Parsers) returns (err: Option<Error>)
      modifies store, this`markers
      ensures store.connection == File(CachePath()) && CachePath() in store.files
      ensures var m := FixtureMigration(declaredSchema, table, payload, createError, p);
        err == m.error && store.files[CachePath()].db == Database(m.columns, m.inserts)
      ensures store.files[CachePath()].mtime == if err == None then referenceMtime else now
      ensures markers == if err == None && settings.ttl then old(markers) + {CacheFileName()} else old(markers)
      ensures err == None ==> ManagedBootBranch(Observed(), settings.ttl, CacheFileName() in markers) == BindExisting
      ensures err == None ==> IntendedManagedBootBranch(Observed(), settings.ttl, CacheFileName() in markers) == BindExisting
      ensures forall q :: q in old(store.files) && q != CachePath() ==> q in store.files && store.files[q] == old(store.files)[q]
      ensures store.files.Keys == old(store.files.Keys) + {CachePath()} && store.memory == old(store.memory)
    {
      var path := CachePath();
      ghost var files0 := store.files;
      ghost var memory0 := store.memory;
      store.Truncate(path, now);
      store.SetSqliteConnection(File(path));
      assert store.files.Keys == files0.Keys + {path} && store.memory == memory0;
      ghost var files1 := store.files;
      err := Migrate(payload, createError, now, p);
      assert store.files == files1[path := store.files[path]];
      assert store.files.Keys == files0.Keys + {path} && store.memory == memory0;
      if err == None {
        store.Touch(path, referenceMtime);
        if settings.ttl {
          markers := markers + {CacheFileName()};
        }
        RefreshedFileIsFresh(store.files, path, referenceMtime, settings, CacheFileName() in markers);
      }
    }

    /** bootRemoteModelManagement: take the branch ManagedBootBranch picks and act on it. */
    method Boot(payload: seq<Record>, createError: Option<string>, now: int, p: Parsers) returns (branch: BootBranch, err: Option<Error>)
      modifies store, this`markers
      ensures branch == ManagedBootBranch(old(Observed()), settings.ttl, CacheFileName() in old(markers))
      ensures branch == BindExisting ==>
        store.connection == File(CachePath()) && store.files == old(store.files) && markers == old(markers) && err == None
      ensures var m := FixtureMigration(declaredSchema, table, payload, createError, p);
        && (branch == Rebuild ==>
              store.connection == File(CachePath()) && CachePath() in store.files && err == m.error
              && store.files[CachePath()].db == Database(m.columns, m.inserts)
              && store.files[CachePath()].mtime == (if err == None then referenceMtime else now)
              && markers == (if err == None && settings.ttl then old(markers) + {CacheFileName()} else old(markers)))
        && (branch == InMemory ==>
              store.connection == Memory && store.files == old(store.files) && markers == old(markers) && err == m.error
              && store.memory == Database(m.columns, m.inserts))
      ensures branch != BindExisting ==>
        forall q :: q in old(store.files) && q != CachePath() ==> q in store.files && store.files[q] == old(store.files)[q]
    {
      branch := ManagedBootBranch(Observed(), settings.ttl, CacheFileName() in markers);
      match branch
      case BindExisting =>
        store.SetSqliteConnection(File(CachePath()));
        err := None;
      case Rebuild =>
        err := RefreshRemoteModel(payload, createError, now, p);
      case InMemory =>
        store.SetSqliteConnection(Memory);
        err := Migrate(payload, createError, now, p);
    }
  }
}
