/**
 * The older trait, RemoteModel: boot, getEndpoint, the rebuild of the cache
 * file, migrate (sample, create the table, load) and the paginated load.
 */
module LegacyModel {
  import opened Wrappers
  import opened Data
  import opened Schema
  import opened Ingest
  import opened Endpoints
  import opened CacheFiles
  import opened CacheResolution
  import opened Store

  /**
   * migrate against `remote` at `url`: request page 1 and sample its keys;
   * a failed request or an empty sample raises before any table exists; a
   * QueryException from the table creation (`createError`) is swallowed when
   * it says the table already exists and rethrown otherwise, in both cases
   * without loading; else the table is created and every page is loaded.
   */
  ghost function LegacyMigration(remote: Remote, url: string, table: string, createError: Option<string>, bound: int): Migration
    requires WellFormed(remote, url, 1, bound)
  {
    var r := remote(PageUrl(url, 1));
    if r.Failed? then Migration(None, [], Some(AccessFailed(AccessFailedMessage)))
    else match LegacyTableColumns(SampleKeys(r))
      case Err(e) => Migration(None, [], Some(e))
      case Ok(columns) =>
        match createError
        case Some(message) => Migration(None, [], if AlreadyExists(message, table) then None else Some(QueryFailed(message)))
        case None =>
          var load := LoadPages(remote, url, 1, bound);
          Migration(Some(columns), load.batches, load.error)
  }

  /**
   * The URLs migrate requests, in order: page 1 for the sample, then, once
   * the table was created, page 1 again and the rest of the load.
   */
  ghost function MigrationRequests(remote: Remote, url: string, createError: Option<string>, bound: int): (r: seq<string>)
    requires WellFormed(remote, url, 1, bound)
    ensures |r| >= 1 && r[0] == PageUrl(url, 1)
  {
    var first := remote(PageUrl(url, 1));
    [PageUrl(url, 1)]
      + (if !first.Failed? && LegacyTableColumns(SampleKeys(first)).Ok? && createError == None
         then LoadRequests(remote, url, 1, bound) else [])
  }

  /**
   * Over a complete listing of pages 1..n whose first page has data, migrate
   * requests page 1 twice (the sample, then the load), then pages 2..n in order.
   */
  lemma MigrationFetchesFirstPageTwice(remote: Remote, url: string, n: int)
    requires WellFormed(remote, url, 1, n) && 1 <= n
    requires forall p :: 1 <= p <= n ==> CompletePage(remote(PageUrl(url, p)), p, n)
    requires SampleKeys(remote(PageUrl(url, 1))) != []
    ensures MigrationRequests(remote, url, None, n)
      == [PageUrl(url, 1)] + ListingUrls(url, 1, n)
  {
    assert CompletePage(remote(PageUrl(url, 1)), 1, n);
    ListingRequestsInOrder(remote, url, 1, n);
  }

  /**
   * Migrating against a Laravel paginator with `n` pages, each with a usable
   * per_page, and a first page with data creates the string-column table and
   * inserts every page's rows, in page order, raising nothing.
   */
  lemma PaginatorMigrationCopiesListing(remote: Remote, url: string, table: string, n: int)
    requires PaginatorLike(remote, url, n) && 1 <= n
    requires forall p :: 1 <= p <= n ==> remote(PageUrl(url, p)).perPage.GetOr(DefaultChunkSize) > 0
    requires SampleKeys(remote(PageUrl(url, 1))) != []
    ensures WellFormed(remote, url, 1, n)
    ensures var m := LegacyMigration(remote, url, table, None, n);
      && m.columns == Some(LegacyTableColumns(SampleKeys(remote(PageUrl(url, 1)))).value)
      && Flatten(m.inserts) == ListingRows(remote, url, 1, n)
      && m.error == None
  {
    PaginatorWellFormedFromFirstPage(remote, url, n);
    MigrationCopiesListing(remote, url, table, n);
  }

  /** Rows are inserted only into a table migrate created; a swallowed "already exists" loads nothing and raises nothing. */
  lemma MigrationLoadsOnlyAfterCreate(remote: Remote, url: string, table: string, createError: Option<string>, bound: int)
    requires WellFormed(remote, url, 1, bound)
    ensures var m := LegacyMigration(remote, url, table, createError, bound);
      && (m.inserts != [] ==> m.columns.Some? && createError == None)
      && (m.columns.Some? ==> m.columns == Some(LegacyTableColumns(SampleKeys(remote(PageUrl(url, 1)))).value))
      && (createError.Some? ==> m.columns == None && m.inserts == [])
      && (createError.Some? && !remote(PageUrl(url, 1)).Failed? && SampleKeys(remote(PageUrl(url, 1))) != [] ==>
            m.error == (if AlreadyExists(createError.value, table) then None else Some(QueryFailed(createError.value))))
  {
  }

  /** An empty first page, enveloped or bare, raises "No data returned…" and creates nothing. */
  lemma EmptySampleRaisesNoData(remote: Remote, url: string, table: string, createError: Option<string>, bound: int)
    requires WellFormed(remote, url, 1, bound)
    requires !remote(PageUrl(url, 1)).Failed? && PageData(remote(PageUrl(url, 1))) == []
    ensures LegacyMigration(remote, url, table, createError, bound) == Migration(None, [], Some(NoData(LegacyNoDataMessage)))
  {
  }

  /**
   * Migrating against a complete listing of pages 1..n whose first page has
   * data creates the string-column table and inserts every page's rows, in
   * page order, raising nothing.
   */
  lemma MigrationCopiesListing(remote: Remote, url: string, table: string, n: int)
    requires WellFormed(remote, url, 1, n) && 1 <= n
    requires forall p :: 1 <= p <= n ==> CompletePage(remote(PageUrl(url, p)), p, n)
    requires SampleKeys(remote(PageUrl(url, 1))) != []
    ensures var m := LegacyMigration(remote, url, table, None, n);
      && m.columns == Some(LegacyTableColumns(SampleKeys(remote(PageUrl(url, 1)))).value)
      && Flatten(m.inserts) == ListingRows(remote, url, 1, n)
      && m.error == None
  {
    assert CompletePage(remote(PageUrl(url, 1)), 1, n);
    LoadsListingInOrder(remote, url, 1, n);
  }

  lemma AppendAssociative<T>(a: seq<T>, b: seq<T>, c: seq<T>)
    ensures a + b + c == a + (b + c)
  {
  }

  class LegacyRemoteModel {
    /** static::class and the model's table. */
    const className: string
    const table: string
    const settings: Settings
    /** filemtime of the model's class file (the reference path). */
    const referenceMtime: int
    /** The SQLite files and the class-wide connection. */
    const store: SqliteStore

    var endpoint: Option<string>
    /** The URLs requested from the remote, in order. */
    ghost var requests: seq<string>

    constructor (className: string, table: string, endpoint: Option<string>, settings: Settings,
                 referenceMtime: int, store: SqliteStore)
      ensures this.className == className && this.table == table && this.endpoint == endpoint
      ensures this.settings == settings && this.referenceMtime == referenceMtime && this.store == store
      ensures requests == []
    {
      this.className := className;
      this.table := table;
      this.endpoint := endpoint;
      this.settings := settings;
      this.referenceMtime := referenceMtime;
      this.store := store;
      requests := [];
    }

    /** remoteModelCachePath. */
    function CachePath(): string {
      CacheFiles.CachePath(settings.cacheDirectory, LegacyCacheFileName(settings.cachePrefix, className))
    }

    /** The URL getEndpoint returns in the current state. */
    function Url(): string
      reads this`endpoint
    {
      JoinEndpoint(settings.domain, settings.apiPath, LegacyEndpointPath(endpoint, className))
    }

    /** What boot observes in the current state. */
    function Observed(): BootState
      reads store
    {
      Observe(store.files, CachePath(), referenceMtime, settings)
    }

    /** getEndpoint: store the default endpoint when the property is falsy, then join. */
    method GetEndpoint() returns (url: string)
      modifies this`endpoint
      ensures endpoint == (if Falsy(old(endpoint)) then Some(DefaultEndpoint(className)) else old(endpoint))
      ensures !Falsy(endpoint)
      ensures url == Url() == old(Url())
    {
      LegacyEndpointStable(endpoint, className);
      if Falsy(endpoint) {
        endpoint := Some(DefaultEndpoint(className));
      }
      url := JoinEndpoint(settings.domain, settings.apiPath, endpoint.value);
    }

    /** callRemoteModelEndpoint(page): a failed response raises "Access to Remote Model … failed.". */
    method CallRemoteModelEndpoint(remote: Remote, page: int) returns (r: Result<Response, Error>)
      modifies this`endpoint, this`requests
      ensures Url() == old(Url()) && !Falsy(endpoint)
      ensures requests == old(requests) + [PageUrl(Url(), page)]
      ensures r.Err? <==> remote(PageUrl(Url(), page)).Failed?
      ensures r.Err? ==> r.error == AccessFailed(AccessFailedMessage)
      ensures r.Ok? ==> r.value == remote(PageUrl(Url(), page))
    {
      var url := GetEndpoint();
      requests := requests + [PageUrl(url, page)];
      var response := remote(PageUrl(url, page));
      if response.Failed? {
        return Err(AccessFailed(AccessFailedMessage));
      }
      return Ok(response);
    }

    /**
     * loadRemoteModelData(page): insert the page's data in chunks of
     * `per_page ?? 15` (a bare list in chunks of 15), then continue with
     * `current_page + 1` while current_page < last_page.
     */
    method LoadRemoteModelData(remote: Remote, page: int, now: int, ghost bound: int) returns (err: Option<Error>)
      requires store.Bound() && WellFormed(remote, Url(), page, bound)
      modifies this`endpoint, this`requests, store
      ensures store.Bound() && store.connection == old(store.connection) && Url() == old(Url()) && !Falsy(endpoint)
      ensures var load := LoadPages(remote, old(Url()), page, bound);
        store.BoundDatabase() == old(store.BoundDatabase()).(inserts := old(store.BoundDatabase()).inserts + load.batches)
        && err == load.error
      ensures requests == old(requests) + LoadRequests(remote, old(Url()), page, bound)
      ensures SameOtherFiles(old(store.files), store.files, store.connection) && store.files.Keys == old(store.files.Keys)
      ensures store.connection.File? ==> store.memory == old(store.memory)
      ensures store.connection.File? && old(store.files[store.connection.path].mtime) == now ==>
        store.files[store.connection.path].mtime == now
      decreases bound - page
    {
      ghost var url := Url();
      ghost var before := requests;
      var r := CallRemoteModelEndpoint(remote, page);
      ghost var fetched := requests;
      assert fetched == before + [PageUrl(url, page)];
      if r.Err? {
        assert LoadRequests(remote, url, page, bound) == [PageUrl(url, page)];
        return Some(r.error);
      }
      var response := r.value;
      LoadPagesStep(remote, url, page, bound);
      err := InsertResponse(response, now);
      if err.Some? {
        return;
      }
      ghost var chunks := PageBatches(response).value;
      ghost var mid := store.BoundDatabase();
      ghost var midFiles := store.files;
      assert mid == old(store.BoundDatabase()).(inserts := old(store.BoundDatabase()).inserts + chunks);
      if response.Paginated? && response.currentPage.Some? && response.lastPage.Some?
        && response.currentPage.value < response.lastPage.value
      {
        assert Continues(response);
        var next := response.currentPage.value + 1;
        ghost var rest := LoadPages(remote, url, next, bound);
        ghost var nextRequests := LoadRequests(remote, url, next, bound);
        assert LoadPages(remote, url, page, bound) == Load(chunks + rest.batches, rest.error);
        assert LoadRequests(remote, url, page, bound) == [PageUrl(url, page)] + nextRequests;
        err := LoadRemoteModelData(remote, next, now, bound);
        assert store.BoundDatabase() == mid.(inserts := mid.inserts + rest.batches) && err == rest.error;
        assert requests == fetched + nextRequests;
        AppendAssociative(old(store.BoundDatabase()).inserts, chunks, rest.batches);
        AppendAssociative(before, [PageUrl(url, page)], nextRequests);
        SameOtherFilesTransitive(old(store.files), midFiles, store.files, store.connection);
      } else {
        assert !Continues(response);
        assert LoadPages(remote, url, page, bound) == Load(chunks, None);
        assert LoadRequests(remote, url, page, bound) == [PageUrl(url, page)];
      }
    }

    /**
     * The inserts one successful response makes: its data in chunks of
     * `per_page ?? 15`, a bare list in chunks of 15, or the exception
     * array_chunk raises for a chunk size below one, before any insert.
     */
    method InsertResponse(response: Response, now: int) returns (err: Option<Error>)
      requires store.Bound() && !response.Failed?
      modifies store
      ensures store.Bound() && store.connection == old(store.connection)
      ensures err == (if PageBatches(response).Err? then Some(PageBatches(response).error) else None)
      ensures store.BoundDatabase() == old(store.BoundDatabase()).(inserts := old(store.BoundDatabase()).inserts
        + (if PageBatches(response).Ok? then PageBatches(response).value else []))
      ensures SameOtherFiles(old(store.files), store.files, store.connection) && store.files.Keys == old(store.files.Keys)
      ensures store.connection.File? ==> store.memory == old(store.memory)
      ensures store.connection.File? && old(store.files[store.connection.path].mtime) == now ==>
        store.files[store.connection.path].mtime == now
    {
      if response.Paginated? {
        var size := response.perPage.GetOr(DefaultChunkSize);
        if size < 1 {
          return Some(ChunkSizeNotPositive);
        }
        store.InsertAll(Chunks(response.data, size), now);
      } else if |response.rows| > 0 {
        store.InsertAll(Chunks(response.rows, DefaultChunkSize), now);
      } else {
        store.InsertAll([], now);
      }
      err := None;
    }

    /**
     * The Blueprint migrate fills: `id`, then a nullable string column per
     * sampled key (the keys are integer indices, so `gettype($type) ===
     * 'integer'` always holds), then the timestamps.
     */
    method TableColumns(keys: seq<string>) returns (columns: seq<Column>)
      requires |keys| > 0
      ensures LegacyTableColumns(keys) == Ok(columns)
    {
      var kept := WithoutReserved(keys);
      var body: seq<Column> := [];
      for i := 0 to |kept|
        invariant body == seq(i, j requires 0 <= j < i => Column(kept[j], Typed("string"), true))
      {
        body := body + [Column(kept[i], Typed("string"), true)];
      }
      columns := [IdColumn] + body + TimestampColumns;
    }

    /**
     * migrate: sample page 1, build the columns (id, each non-reserved key as
     * a nullable string, the timestamps), create the table, then load.
     */
    method Migrate(remote: Remote, createError: Option<string>, now: int, ghost bound: int) returns (err: Option<Error>)
      requires store.Bound() && WellFormed(remote, Url(), 1, bound)
      modifies this`endpoint, this`requests, store
      ensures store.Bound() && store.connection == old(store.connection) && Url() == old(Url())
      ensures var m := LegacyMigration(remote, old(Url()), table, createError, bound);
        && err == m.error
        && store.BoundDatabase() ==
           (if m.columns.Some? then Database(m.columns, old(store.BoundDatabase()).inserts + m.inserts) else old(store.BoundDatabase()))
      ensures requests == old(requests) + MigrationRequests(remote, old(Url()), createError, bound)
      ensures SameOtherFiles(old(store.files), store.files, store.connection) && store.files.Keys == old(store.files.Keys)
      ensures store.connection.File? ==> store.memory == old(store.memory)
      ensures store.connection.File? && old(store.files[store.connection.path].mtime) == now ==>
        store.files[store.connection.path].mtime == now
    {
      var r := CallRemoteModelEndpoint(remote, 1);
      if r.Err? {
        return Some(r.error);
      }
      var keys := SampleKeys(r.value);
      if |keys| == 0 {
        return Some(NoData(LegacyNoDataMessage));
      }
      var columns := TableColumns(keys);
      if createError.Some? {
        if AlreadyExists(createError.value, table) {
          return None;
        }
        return Some(QueryFailed(createError.value));
      }
      ghost var url := Url();
      ghost var sampled := requests;
      assert sampled == old(requests) + [PageUrl(url, 1)];
      assert MigrationRequests(remote, url, createError, bound) == [PageUrl(url, 1)] + LoadRequests(remote, url, 1, bound);
      ghost var load := LoadPages(remote, url, 1, bound);
      assert LegacyMigration(remote, url, table, createError, bound) == Migration(Some(columns), load.batches, load.error);
      store.CreateTable(columns, now);
      ghost var created := store.BoundDatabase();
      ghost var createdFiles := store.files;
      err := LoadRemoteModelData(remote, 1, now, bound);
      assert store.BoundDatabase() == created.(inserts := created.inserts + load.batches) && err == load.error;
      assert requests == sampled + LoadRequests(remote, url, 1, bound);
      AppendAssociative(old(requests), [PageUrl(url, 1)], LoadRequests(remote, url, 1, bound));
      SameOtherFilesTransitive(old(store.files), createdFiles, store.files, store.connection);
    }

    /**
     * cacheFileNotFoundOrStale: truncate the cache file, bind it, migrate,
     * then set its mtime to the reference mtime. An exception skips the
     * touch, leaving the mtime of the last write.
     */
    method CacheFileNotFoundOrStale(remote: Remote, createError: Option<string>, now: int, ghost bound: int) returns (err: Option<Error>)
      requires WellFormed(remote, Url(), 1, bound)
      modifies this`endpoint, this`requests, store
      ensures store.connection == File(CachePath()) && CachePath() in store.files && Url() == old(Url())
      ensures var m := LegacyMigration(remote, old(Url()), table, createError, bound);
        err == m.error && store.files[CachePath()].db == Database(m.columns, m.inserts)
      ensures requests == old(requests) + MigrationRequests(remote, old(Url()), createError, bound)
      ensures store.files[CachePath()].mtime == if err == None then referenceMtime else now
      ensures forall q :: q in old(store.files) && q != CachePath() ==> q in store.files && store.files[q] == old(store.files)[q]
      ensures store.files.Keys == old(store.files.Keys) + {CachePath()} && store.memory == old(store.memory)
    {
      ghost var url := Url();
      ghost var m := LegacyMigration(remote, url, table, createError, bound);
      MigrationLoadsOnlyAfterCreate(remote, url, table, createError, bound);
      var path := CachePath();
      store.Truncate(path, now);
      store.SetSqliteConnection(File(path));
      ghost var files1 := store.files;
      assert store.BoundDatabase() == EmptyDatabase;
      err := Migrate(remote, createError, now, bound);
      assert store.files[path].db == Database(m.columns, m.inserts);
      assert store.files == files1[path := store.files[path]];
      if err == None {
        store.Touch(path, referenceMtime);
      }
    }

    /** bootRemoteModel: take the branch LegacyBootBranch picks and act on it. */
    method Boot(remote: Remote, createError: Option<string>, now: int, ghost bound: int) returns (branch: BootBranch, err: Option<Error>)
      requires WellFormed(remote, Url(), 1, bound)
      modifies this`endpoint, this`requests, store
      ensures branch == LegacyBootBranch(old(Observed()))
      ensures branch == BindExisting ==>
        store.connection == File(CachePath()) && store.files == old(store.files) && requests == old(requests) && err == None
      ensures var m := LegacyMigration(remote, old(Url()), table, createError, bound);
        && (branch == Rebuild ==>
              store.connection == File(CachePath()) && CachePath() in store.files && err == m.error
              && store.files[CachePath()].db == Database(m.columns, m.inserts)
              && store.files[CachePath()].mtime == (if err == None then referenceMtime else now))
        && (branch == InMemory ==>
              store.connection == Memory && store.files == old(store.files) && err == m.error
              && store.memory == Database(m.columns, m.inserts))
      ensures branch != BindExisting ==> requests == old(requests) + MigrationRequests(remote, old(Url()), createError, bound)
      ensures branch != BindExisting ==>
        forall q :: q in old(store.files) && q != CachePath() ==> q in store.files && store.files[q] == old(store.files)[q]
    {
      branch := LegacyBootBranch(Observed());
      match branch
      case BindExisting =>
        store.SetSqliteConnection(File(CachePath()));
        err := None;
      case Rebuild =>
        err := CacheFileNotFoundOrStale(remote, createError, now, bound);
      case InMemory =>
        store.SetSqliteConnection(Memory);
        ghost var m := LegacyMigration(remote, Url(), table, createError, bound);
        MigrationLoadsOnlyAfterCreate(remote, Url(), table, createError, bound);
        err := Migrate(remote, createError, now, bound);
        assert [] + m.inserts == m.inserts;
    }
  }

  /**
   * After a rebuild that raised nothing, the cache file is as old as the
   * reference, so the next boot binds it without a request; after one that
   * raised, the file keeps the time of its last write, so the next boot
   * also binds it unless the clock stands before the reference mtime.
   */
  lemma RebuiltFileIsFresh(files: map<string, SqliteFile>, path: string, referenceMtime: int, now: int, settings: Settings, failed: bool)
    requires path in files && files[path].mtime == (if failed then now else referenceMtime)
    requires failed ==> referenceMtime <= now
    ensures LegacyBootBranch(Observe(files, path, referenceMtime, settings)) == BindExisting
  {
  }

  /**
   * A remote with two pages at `url`: page 1 (`first`) reports current_page
   * 1 of 2, page 2 (`second`) current_page 2 of 2, both with `per_page`;
   * any other request fails.
   */
  function TwoPageRemote(url: string, first: seq<Record>, second: seq<Record>, perPage: int): Remote {
    u => if u == PageUrl(url, 1) then Paginated(first, Some(perPage), Some(1), Some(2))
         else if u == PageUrl(url, 2) then Paginated(second, Some(perPage), Some(2), Some(2))
         else Failed
  }

  lemma TwoPageRemoteWellFormed(url: string, first: seq<Record>, second: seq<Record>, perPage: int)
    ensures WellFormed(TwoPageRemote(url, first, second, perPage), url, 1, 2)
  {
    var remote := TwoPageRemote(url, first, second, perPage);
    forall p
      ensures Continues(remote(PageUrl(url, p))) ==>
        remote(PageUrl(url, p)).currentPage.value == p && remote(PageUrl(url, p)).lastPage.value <= 2
    {
      if PageUrl(url, p) == PageUrl(url, 1) {
        PageUrlInjective(url, p, 1);
      }
    }
  }

  /**
   * Migrating against two pages creates the table from page 1's keys and
   * inserts page 1's rows then page 2's, in chunks of per_page, raising
   * nothing.
   */
  lemma TwoPageMigration(url: string, table: string, first: seq<Record>, second: seq<Record>, perPage: int)
    requires first != [] && first[0] != [] && perPage >= 1
    ensures WellFormed(TwoPageRemote(url, first, second, perPage), url, 1, 2)
    ensures var m := LegacyMigration(TwoPageRemote(url, first, second, perPage), url, table, None, 2);
      && m.error == None
      && m.columns == Some(LegacyTableColumns(Keys(first[0])).value)
      && Flatten(m.inserts) == first + second
      && forall i :: 0 <= i < |m.inserts| ==> 0 < |m.inserts[i]| <= perPage
  {
    var remote := TwoPageRemote(url, first, second, perPage);
    TwoPageRemoteWellFormed(url, first, second, perPage);
    if PageUrl(url, 1) == PageUrl(url, 2) {
      PageUrlInjective(url, 1, 2);
    }
    assert CompletePage(remote(PageUrl(url, 1)), 1, 2);
    assert CompletePage(remote(PageUrl(url, 2)), 2, 2);
    MigrationCopiesListing(remote, url, table, 2);
    assert ListingRows(remote, url, 3, 2) == [];
    var c1 := Chunks(first, perPage);
    var c2 := Chunks(second, perPage);
    assert LoadPages(remote, url, 2, 2) == Load(c2, None);
    assert LoadPages(remote, url, 1, 2) == Load(c1 + c2, None);
  }

  /**
   * The pagination example: "The Rock" (id 888) on page 1 and "Dwayne
   * Johnson" (id 999) on page 2, one per page, give a table with the
   * columns id, name, created_at, updated_at and both rows, in that order.
   */
  lemma PaginationLoadsBothPages(url: string, table: string)
    ensures var rock := [Entry("id", JInt(888)), Entry("name", JString("The Rock"))];
      var dwayne := [Entry("id", JInt(999)), Entry("name", JString("Dwayne Johnson"))];
      && WellFormed(TwoPageRemote(url, [rock], [dwayne], 1), url, 1, 2)
      && LegacyMigration(TwoPageRemote(url, [rock], [dwayne], 1), url, table, None, 2)
         == Migration(Some([IdColumn, Column("name", Typed("string"), true)] + TimestampColumns), [[rock], [dwayne]], None)
  {
    var rock := [Entry("id", JInt(888)), Entry("name", JString("The Rock"))];
    var dwayne := [Entry("id", JInt(999)), Entry("name", JString("Dwayne Johnson"))];
    TwoPageMigration(url, table, [rock], [dwayne], 1);
    var m := LegacyMigration(TwoPageRemote(url, [rock], [dwayne], 1), url, table, None, 2);
    assert Keys(rock) == ["id", "name"];
    assert "name" !in Reserved by {
      assert "name"[0] != "id"[0] && "name"[0] != "created_at"[0] && "name"[0] != "updated_at"[0];
    }
    assert WithoutReserved(["id", "name"]) == ["name"] by {
      assert WithoutReserved(["name"]) == ["name"] + WithoutReserved([]);
    }
    assert Chunks([rock], 1) == [[rock]];
    assert Chunks([dwayne], 1) == [[dwayne]];
    assert m.inserts == [[rock], [dwayne]];
    var kept := ["name"];
    assert seq(|kept|, i requires 0 <= i < |kept| => Column(kept[i], Typed("string"), true)) == [Column("name", Typed("string"), true)];
    assert WithoutReserved(["id", "name"]) == kept;
    assert [IdColumn] + [Column("name", Typed("string"), true)] + TimestampColumns
      == [IdColumn, Column("name", Typed("string"), true)] + TimestampColumns;
    assert LegacyTableColumns(["id", "name"]) == Ok([IdColumn, Column("name", Typed("string"), true)] + TimestampColumns);
    assert m.columns == Some([IdColumn, Column("name", Typed("string"), true)] + TimestampColumns);
  }

  /** The listing example: fifteen people on page 1 and one on page 2 make sixteen rows, one insert each. */
  lemma SixteenRowsOverTwoPages(url: string, table: string, people: seq<Record>, last: Record)
    requires |people| == 15 && people[0] != []
    ensures WellFormed(TwoPageRemote(url, people, [last], 1), url, 1, 2)
    ensures var m := LegacyMigration(TwoPageRemote(url, people, [last], 1), url, table, None, 2);
      && m.error == None
      && Flatten(m.inserts) == people + [last]
      && |Flatten(m.inserts)| == 16 && |m.inserts| == 16
      && forall i :: 0 <= i < |m.inserts| ==> |m.inserts[i]| == 1
  {
    TwoPageMigration(url, table, people, [last], 1);
    var m := LegacyMigration(TwoPageRemote(url, people, [last], 1), url, table, None, 2);
    FlattenOfSingletons(m.inserts);
  }

  /** Batches of one row each number as many as their rows. */
  lemma {:induction false} FlattenOfSingletons<T>(batches: seq<seq<T>>)
    requires forall i :: 0 <= i < |batches| ==> |batches[i]| == 1
    ensures |Flatten(batches)| == |batches|
  {
    if batches != [] {
      FlattenOfSingletons(batches[1..]);
    }
  }
}
