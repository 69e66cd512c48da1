/** The state the models act on: files, connections and their databases. */
module Store {
  import opened Wrappers
  import opened Data
  import opened Schema
  import opened CacheResolution

  /** The database name setSqliteConnection is given for the fallback. */
  const MemoryDatabaseName: string := ":memory:"

  /** The class-wide `$remoteModelConnection`: unset, a SQLite file, or an in-memory database. */
  datatype Connection = Unbound | File(path: string) | Memory

  /** A SQLite database: the table, once created, and the batches inserted into it, in order. */
  datatype Database = Database(columns: Option<seq<Column>>, inserts: seq<seq<Record>>)

  const EmptyDatabase: Database := Database(None, [])

  datatype SqliteFile = SqliteFile(mtime: int, db: Database)

  /** What a migrate does, as a value: the table it creates, the batches it inserts, the exception it raises. */
  datatype Migration = Migration(columns: Option<seq<Column>>, inserts: seq<seq<Record>>, error: Option<Error>)

  /**
   * The configuration a model reads (domain, api-path, cache-prefix,
   * cache-ttl) and what the environment answers: realpath of the cache
   * directory (None for false) and whether it is writable.
   */
  datatype Settings = Settings(
    domain: string,
    apiPath: string,
    cachePrefix: string,
    cacheDirectory: Option<string>,
    directoryWritable: bool,
    ttl: bool)

  /** file_exists and is_writable of the cache directory; realpath's false is no file. */
  predicate DirectoryUsable(settings: Settings) {
    settings.cacheDirectory.Some? && settings.directoryWritable
  }

  /** What boot observes of `files` for the cache file at `path`. */
  function Observe(files: map<string, SqliteFile>, path: string, referenceMtime: int, settings: Settings): BootState {
    BootState(path in files, if path in files then files[path].mtime else 0, referenceMtime, DirectoryUsable(settings))
  }

  /** `after` differs from `before` at most in the file the connection `c` is bound to. */
  predicate SameOtherFiles(before: map<string, SqliteFile>, after: map<string, SqliteFile>, c: Connection) {
    if c.File? then c.path in after && after == before[c.path := after[c.path]] else after == before
  }

  lemma SameOtherFilesTransitive(a: map<string, SqliteFile>, b: map<string, SqliteFile>, d: map<string, SqliteFile>, c: Connection)
    requires SameOtherFiles(a, b, c) && SameOtherFiles(b, d, c)
    ensures SameOtherFiles(a, d, c)
  {
    if c.File? {
      assert d == a[c.path := d[c.path]];
    }
  }

  /**
   * The SQLite side both traits act on: the files on disk, the class-wide
   * connection and the in-memory database behind `:memory:`. Every write
   * to a file gives it the current time as its mtime.
   */
  class SqliteStore {
    var files: map<string, SqliteFile>
    var connection: Connection
    var memory: Database

    constructor (files: map<string, SqliteFile>)
      ensures this.files == files && connection == Unbound && memory == EmptyDatabase
    {
      this.files := files;
      connection := Unbound;
      memory := EmptyDatabase;
    }

    /** The connection is bound to a database that exists. */
    predicate Bound()
      reads this
    {
      connection.Memory? || (connection.File? && connection.path in files)
    }

    function BoundDatabase(): Database
      reads this
      requires Bound()
    {
      if connection.Memory? then memory else files[connection.path].db
    }

    /** file_put_contents($path, ''): the file exists, empty, written now. */
    method Truncate(path: string, now: int)
      modifies this
      ensures files == old(files)[path := SqliteFile(now, EmptyDatabase)]
      ensures connection == old(connection) && memory == old(memory)
    {
      files := files[path := SqliteFile(now, EmptyDatabase)];
    }

    /** touch($path, $mtime). */
    method Touch(path: string, mtime: int)
      requires path in files
      modifies this
      ensures files == old(files)[path := old(files)[path].(mtime := mtime)]
      ensures connection == old(connection) && memory == old(memory)
    {
      files := files[path := files[path].(mtime := mtime)];
    }

    /** setSqliteConnection: bind a file, or a fresh in-memory database. */
    method SetSqliteConnection(target: Connection)
      requires !target.Unbound?
      modifies this
      ensures connection == target && files == old(files)
      ensures memory == if target.Memory? then EmptyDatabase else old(memory)
    {
      connection := target;
      if target.Memory? {
        memory := EmptyDatabase;
      }
    }

    /** A write to the bound database. */
    method WriteBound(db: Database, now: int)
      requires Bound()
      modifies this
      ensures Bound() && BoundDatabase() == db && connection == old(connection)
      ensures SameOtherFiles(old(files), files, connection) && files.Keys == old(files.Keys)
      ensures connection.File? ==> files[connection.path].mtime == now && memory == old(memory)
    {
      if connection.Memory? {
        memory := db;
      } else {
        files := files[connection.path := SqliteFile(now, db)];
      }
    }

    /** Schema::create's effect once the table is built: the bound database has `columns`. */
    method CreateTable(columns: seq<Column>, now: int)
      requires Bound()
      modifies this
      ensures Bound() && BoundDatabase() == old(BoundDatabase()).(columns := Some(columns)) && connection == old(connection)
      ensures SameOtherFiles(old(files), files, connection) && files.Keys == old(files.Keys)
      ensures connection.File? ==> files[connection.path].mtime == now && memory == old(memory)
    {
      var db := BoundDatabase();
      WriteBound(db.(columns := Some(columns)), now);
    }

    /** static::insert of one batch. */
    method Insert(batch: seq<Record>, now: int)
      requires Bound()
      modifies this
      ensures Bound() && BoundDatabase() == old(BoundDatabase()).(inserts := old(BoundDatabase()).inserts + [batch])
      ensures connection == old(connection)
      ensures SameOtherFiles(old(files), files, connection) && files.Keys == old(files.Keys)
      ensures connection.File? ==> files[connection.path].mtime == now && memory == old(memory)
    {
      var db := BoundDatabase();
      WriteBound(db.(inserts := db.inserts + [batch]), now);
    }

    /** A foreach over batches, one insert each, in order. */
    method InsertAll(batches: seq<seq<Record>>, now: int)
      requires Bound()
      modifies this
      ensures Bound() && BoundDatabase() == old(BoundDatabase()).(inserts := old(BoundDatabase()).inserts + batches)
      ensures connection == old(connection)
      ensures SameOtherFiles(old(files), files, connection) && files.Keys == old(files.Keys)
      ensures connection.File? ==> memory == old(memory)
      ensures connection.File? && (batches != [] || old(files[connection.path].mtime) == now) ==> files[connection.path].mtime == now
    {
      for i := 0 to |batches|
        invariant Bound() && BoundDatabase() == old(BoundDatabase()).(inserts := old(BoundDatabase()).inserts + batches[..i])
        invariant connection == old(connection)
        invariant SameOtherFiles(old(files), files, connection) && files.Keys == old(files.Keys)
        invariant connection.File? ==> memory == old(memory)
        invariant connection.File? && (i > 0 || old(files[connection.path].mtime) == now) ==> files[connection.path].mtime == now
      {
        ghost var before := files;
        Insert(batches[i], now);
        SameOtherFilesTransitive(old(files), before, files, connection);
        assert batches[..i + 1] == batches[..i] + [batches[i]];
      }
      assert batches[..|batches|] == batches;
    }
  }
}

