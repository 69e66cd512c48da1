# remote-models, modelled in Dafny

remote-models is a Laravel package. It mirrors a remote JSON API into a local SQLite table per Eloquent model, so the remote data can be queried like any other model. Two traits do the work.

- `RemoteModel` is the older trait. It samples the first page to choose the columns, creates a table of string columns and loads every page, following the `current_page`/`last_page` envelope.
- `RemoteModelManagement` is the newer trait. It builds the table from a declared `$remoteSchema` or from inferred column types. It inserts rows in chunks, filters them against the declared schema and coerces date-like values. A configured `cache-ttl` adds a marker in Laravel's cache.

Both traits decide at boot among three branches:

- bind the existing cache file when it is fresh;
- otherwise rebuild it (truncate, bind, migrate, then touch it to the class file's mtime) when the cache directory is usable;
- otherwise bind an in-memory database and migrate it.

The project models:

- the boot decision, as functions over the observed file-system state (`CacheResolution`);
- the SQLite files, their mtimes and the class-wide connection, as a `SqliteStore` object whose methods change them (`Store`);
- the endpoint URL and the cache file name and path (`Endpoints`, `CacheFiles`), over Laravel's string helpers written out (`Strings`);
- type inference and the insert-time coercion of values (`ColumnTypes`);
- the column list each trait builds and the classification of "already exists" errors (`Schema`);
- chunking, the page-by-page load and the preparation of inserted rows (`Ingest`);
- one class per trait whose methods are proved against those functions (`LegacyModel.LegacyRemoteModel`, `ManagedModel.ManagedRemoteModel`).

Modelling choices:

- The remote is a function from request URL to `Failed | Paginated(data, per_page?, current_page?, last_page?) | Bare(rows)`.
- `is_numeric` and `strtotime` are uninterpreted function parameters (`Data.Parsers`).
- The clock (`now`), the class file's mtime, the configuration and the QueryException the schema builder may raise on creation (`createError`) are inputs.
- The page recursion of the older trait has no bound of its own (see Findings). `Ingest.LoadPages` describes the load from a page on remotes that satisfy `Ingest.WellFormed` from that page: from there on, a response that asks for the next page reports the page that was requested and a last page within a fixed bound. Pages below the start are never requested and are not constrained, so a Laravel paginator, which answers page 0 as page 1, is well formed from page 1 (`Ingest.PaginatorWellFormedFromFirstPage`). On those remotes `Ingest.LoadPagesWithinAgrees` shows that the as-written recursion finishes with the result of `LoadPages`, and `Ingest.GuardedAgreesOnWellFormed` shows that the guarded load agrees with it.

Behaviour of the code that a reader may not expect:

- A failed load keeps the rows of earlier pages, with no rollback (`Ingest.FailureKeepsEarlierPages`).
- The older trait always creates `string` columns, because `array_keys` yields integer indices (`Schema.LegacyColumnsAreStrings`).
- With a TTL configured, the newer trait binds an existing file when its marker is missing (see Findings).
- A rebuild whose migrate raises leaves the file with the mtime of its last write. The `touch` is skipped, so the next boot binds the half-built file, provided the clock is not behind the class file's mtime (`LegacyModel.RebuiltFileIsFresh`).
- The join does not repair a missing slash between the API path and the endpoint. An API path made only of slashes, followed by an endpoint that starts with `/`, still yields `//`.
- The fixture-style `migrate` of the newer trait still inserts after an "already exists" is swallowed (`ManagedModel.SwallowedCreationStillInserts`). The older trait loads nothing in that case.

## Model

| member | source | states |
|---|---|---|
| Strings.RTrim | src/RemoteModelManagement.php:53-55 | rtrim: the result is a prefix of the input, does not end in the trimmed character, and only that character was removed |
| Strings.AfterLast | src/RemoteModel.php:54-55 | Str::afterLast: the result is a suffix of the input with no separator in it, and the input has a separator just before it when anything was cut |
| Strings.AfterLastAppend | src/RemoteModel.php:54-55 | the part after the last separator of `x + sep + y` is `y` when `y` has no separator |
| Strings.HyphenateOnlyInsertsHyphens | src/RemoteModelManagement.php:84-86 | Str::kebab's split step only inserts hyphens: deleting hyphens gives the same text before and after |
| Strings.HyphenateMarksUpper | src/RemoteModelManagement.php:84-86 | every interior upper-case letter is preceded by a hyphen after Str::kebab's split step |
| Strings.Kebab | src/RemoteModelManagement.php:84-88 | Str::kebab: a name already in lower case is kept; any other is split into words at upper-case letters, joined with hyphens and lower-cased |
| Strings.SlugOfAlphanumeric | src/RemoteModel.php:54-57 | Str::slug of a non-empty string of ASCII letters and digits is that string lower-cased |
| Strings.Slug | src/RemoteModel.php:54-57 | Str::slug on ASCII text: underscores become hyphens and "@" becomes "-at-", then lower case, other punctuation dropped, each run of hyphens and spaces one hyphen, none at either end |
| Strings.IntToStringInjective | src/RemoteModel.php:228 | the decimal page numbers put in the query string are distinct for distinct pages |
| Ingest.Chunks | src/RemoteModelManagement.php:229 | array_chunk: the chunks concatenate back to the input, none is empty, none is longer than the size, all but the last are full |
| Ingest.PageUrl | src/RemoteModel.php:228 | the request URL for a page is the endpoint URL followed by `?page=` and the decimal page number |
| Ingest.PageBatches | src/RemoteModel.php:203-222 | a paginated response gives its `data` in chunks of `per_page` (15 when absent, an array_chunk error when below 1); a bare non-empty array gives its rows in chunks of 15; an empty array or a failed request gives nothing |
| Ingest.LoadPages | src/RemoteModel.php:199-224 | the load from a page on a remote well formed from that page on: the batches of this page, then the load from `current_page + 1` while `current_page < last_page`; a failed request or a chunk-size error stops it with that error |
| Ingest.PaginatorWellFormedFromFirstPage | src/RemoteModel.php:199-214 | a remote answering as a Laravel paginator (page p ≥ 1 as p of n, lower pages as 1 of n) is well formed from page 1, where the load starts, though with n ≥ 2 not from page 0 |
| Ingest.PageUrlInjective | src/RemoteModel.php:228 | two pages are requested at the same URL only if they are the same page |
| Ingest.LoadsListingInOrder | src/RemoteModel.php:199-215 | loading a complete listing of pages from..n raises nothing and inserts exactly the concatenation of the pages' data, in page order |
| Ingest.FailureKeepsEarlierPages | src/RemoteModel.php:199-232 | a failed request for page k raises the access error and leaves exactly the rows of the pages before k inserted |
| Ingest.LoadPagesStep | src/RemoteModel.php:199-215 | for any response that did not fail: an unusable `per_page` raises before any insert; otherwise the page's chunks are inserted and the load requests another page exactly when both page numbers are present and current < last, continuing at current_page + 1 |
| Ingest.BareResponseLoadsOnce | src/RemoteModel.php:216-222 | a non-paginated array is inserted in chunks of at most 15 that concatenate to it, with no further request; an empty one inserts nothing |
| Ingest.ListingRequestsInOrder | src/RemoteModel.php:199-228 | over a complete listing of pages from..n, the load requests `?page=from` to `?page=n`, each once, in order |
| Ingest.LoadPagesWithinAgrees | src/RemoteModel.php:199-215 | on a well-formed remote, the as-written recursion given enough depth finishes with exactly the result of the load function |
| Ingest.LoadPagesWithin | src/RemoteModel.php:199-224 | the recursion exactly as written, with nothing but a depth budget; `None` when that many nested calls do not finish it |
| Ingest.StuckRemoteNeverFinishes | src/RemoteModel.php:209-214 | a remote that answers every page with current_page 1 of 2 makes the as-written recursion never finish, at any depth, and is well formed from no page for any bound |
| Ingest.GuardedAgreesOnWellFormed | src/RemoteModel.php:199-215 | the load that goes on only when the response reports the requested page agrees with the as-written load on every well-formed remote |
| Ingest.GuardedLoadPages | src/RemoteModel.php:209-214 | the corrected load: it goes on to the next page only when the response reports the page that was requested |
| Ingest.StuckRemoteStopsWhenGuarded | src/RemoteModel.php:209-214 | the guarded load of that remote finishes without error after at most two requests |
| Ingest.IntersectByKeys | src/RemoteModelManagement.php:246-249 | intersectByKeys keeps exactly the entries whose key is allowed |
| Ingest.PrepareRow | src/RemoteModelManagement.php:232-262 | a row is cut down to the declared keys when a schema is declared, then each value is coerced, keys and order kept |
| Ingest.InsertBatches | src/RemoteModelManagement.php:224-268 | the rows in chunks of the given size, each row prepared; an array_chunk error when the size is below 1 |
| Ingest.InsertKeepsEveryRowInOrder | src/RemoteModelManagement.php:224-265 | the insert raises iff the chunk size is below 1; otherwise the batches concatenate to every input row prepared, in order, and no batch exceeds the chunk size |
| Ingest.PreparedRowKeys | src/RemoteModelManagement.php:232-262 | with a declared schema, inserted keys are declared or reserved and every such entry survives coerced; without one, keys are untouched and every value is coerced |
| Ingest.SchemaFilterDropsUndeclared | src/RemoteModelManagement.php:246-249 | under the schema {name: string} no inserted row carries `best_movie` |
| ColumnTypes.ResolveColumnTypeRules | src/RemoteModelManagement.php:125-149 | the inferred type is integer iff an int, float iff another numeric, dateTime iff a date-keyed array, a DateTime or a strtotime-parseable scalar, json iff another array or object, else string |
| ColumnTypes.ResolveColumnType | src/RemoteModelManagement.php:125-149 | the first matching case of the switch: integer, then float for other numerics, then dateTime or json for arrays by a `date` key, dateTime for DateTime objects, json for other objects, dateTime for strtotime-parseable scalars, else string |
| ColumnTypes.Coerce | src/RemoteModelManagement.php:254-262 | an array with a `date` key becomes a DateTime with its `timezone` if present; a scalar strtotime accepts becomes a DateTime; every other value is kept |
| ColumnTypes.CoercionAgreesWithInference | src/RemoteModelManagement.php:252-262 | for a non-numeric, non-object value, the insert coerces it to a DateTime iff its column type would be inferred as dateTime |
| ColumnTypes.CoercedValuesAreDates | src/RemoteModelManagement.php:254-262 | a value the coercion changes becomes a DateTime, whose inferred type is dateTime |
| ColumnTypes.DateCoercionSameDate | src/RemoteModelManagement.php:256-259 | a date array becomes a DateTime of its `date` with its `timezone`, a parseable string a DateTime of itself with none |
| Schema.Kept | src/RemoteModelManagement.php:190-194 | the filtered schema keeps exactly the entries whose key and value are not reserved |
| Schema.KeptAppend | src/RemoteModelManagement.php:190-194 | the filter keeps order: filtering `a + b` gives the kept part of `a` followed by the kept part of `b` |
| Schema.ManagedBodyColumns | src/RemoteModelManagement.php:196-205 | one nullable column per kept entry, in order, when every entry gives a column; otherwise an unknown-column-type error |
| Schema.ManagedBodyColumnsFirstError | src/RemoteModelManagement.php:196-205 | the error raised is the one of the first entry that cannot become a column |
| Schema.ManagedNoDataIffEmpty | src/RemoteModelManagement.php:184-186 | creation raises "No data returned…" iff the schema is empty; with no declared schema any non-empty schema gives columns |
| Schema.ManagedTableColumnsShape | src/RemoteModelManagement.php:188-207 | the table is `id`, then the kept entries as nullable columns in order, then the two timestamps |
| Schema.ManagedTableColumns | src/RemoteModelManagement.php:171-208 | the newer trait's columns: `id`, a nullable column per kept schema entry, then the timestamps; the error when the schema is empty or a column cannot be made |
| Schema.ManagedColumnTypes | src/RemoteModelManagement.php:196-204 | a column's type is the inferred type when no schema is declared and the entry's value otherwise |
| Schema.DeclaredSchemaColumns | tests/Models/CelebrityCustomModel.php:17-19 | the schema {name: string} gives the columns id, name (string, nullable), created_at, updated_at |
| Schema.WithoutReserved | src/RemoteModel.php:161-163 | the sampled keys lose exactly id, created_at and updated_at |
| Schema.WithoutReservedAppend | src/RemoteModel.php:161-163 | the key filter keeps order: filtering `a + b` gives the filtered `a` followed by the filtered `b` |
| Schema.LegacyColumnsAreStrings | src/RemoteModel.php:155-180 | an empty sample raises; otherwise the table is id, one nullable string column per non-reserved sampled key in order, and the timestamps |
| Schema.LegacyTableColumns | src/RemoteModel.php:155-180 | the older trait's columns: `id`, a nullable string per non-reserved sampled key, then the timestamps; the error when the sample is empty |
| Schema.SwallowedOnlyIfAlreadyExists | src/RemoteModelManagement.php:209-220 | only a message that contains "already exists" is swallowed |
| Schema.ExistingTableMessageSwallowed | src/RemoteModel.php:184-193 | a message containing `table "<table>" already exists` is swallowed |
| Schema.AlreadyExists | src/RemoteModelManagement.php:210-213 | a creation error is swallowed when its message contains "already exists (SQL: create table" or `table "<table>" already exists` |
| Endpoints.JoinEndpointShape | src/RemoteModelManagement.php:52-66 | the URL is the domain without trailing slashes, a path that starts with a slash, then the endpoint; the path has no trailing slash when the endpoint starts with one and the path is not all slashes |
| Endpoints.JoinEndpoint | src/RemoteModel.php:60-74 | the domain without trailing slashes, the API path (its trailing slashes dropped when the endpoint starts with one, a leading slash added when missing), then the endpoint |
| Endpoints.ManagedEndpoint | src/RemoteModelManagement.php:41-66 | a falsy endpoint becomes '', one starting with "http" is used as it is, every other one is joined to the domain and API path |
| Endpoints.HttpOverrideIgnoresConfig | src/RemoteModelManagement.php:47-50 | an endpoint starting with "http" is the URL itself, whatever the configured domain and API path |
| Endpoints.ManagedEndpointAgreesWithLegacy | src/RemoteModelManagement.php:41-66 | a non-falsy relative endpoint gives the same URL as the older trait's getEndpoint (src/RemoteModel.php:51-74): the domain without trailing slashes, a path starting with "/", then the endpoint |
| Endpoints.FalsyEndpointIsBase | src/RemoteModelManagement.php:43-45 | a falsy endpoint becomes '', so the URL is the domain without trailing slashes followed by the API path with a leading slash |
| Endpoints.DefaultEndpoint | src/RemoteModel.php:53-58 | the default endpoint starts with a slash and is not falsy |
| Endpoints.LegacyEndpointPath | src/RemoteModel.php:53-58 | a falsy endpoint is replaced by "/" and the slug of the class basename; any other is kept |
| Endpoints.LegacyEndpointStable | src/RemoteModel.php:53-58 | once stored, the endpoint is kept by later calls, so getEndpoint returns the same URL again |
| Endpoints.DefaultEndpointOfBasename | src/RemoteModel.php:53-58 | the default endpoint of `Namespace\Basename`, with a letters-and-digits basename, is "/" and the lower-cased basename |
| Endpoints.CelebrityEndpoint | src/RemoteModel.php:60-74 | domain "https://yourdomain.com/", the default API path and endpoint "/celebrity" give "https://yourdomain.com" + "/api/_remote/_models" + "/celebrity", with no slash doubled |
| CacheFiles.CacheFileNames | src/RemoteModelManagement.php:82-91 | both traits' file names start with "<prefix>-" and end with ".sqlite" |
| CacheFiles.LegacyCacheFileName | src/RemoteModel.php:85-88 | the older trait's file name: prefix, "-", the kebab-cased class name without backslashes, ".sqlite" |
| CacheFiles.ManagedCacheFileName | src/RemoteModelManagement.php:82-91 | the newer trait's file name: as the older one, with "app-models" in the kebab-cased name replaced by "model" |
| CacheFiles.TraitsShareCacheFile | src/RemoteModelManagement.php:82-91 | the two traits name the same file when the kebab-cased class name does not contain "app-models" |
| CacheFiles.CachePathSplits | src/RemoteModelManagement.php:74-80 | the path is the directory (or '' when realpath fails), the separator and the file name, which is what follows the last separator |
| CacheFiles.CachePath | src/RemoteModelManagement.php:74-80 | the real path of the cache directory ("" when it cannot be resolved), "/", then the file name |
| CacheResolution.TraitsAgreeWithoutTtl | src/RemoteModelManagement.php:21-38 | without a TTL the newer trait's boot branch equals the older trait's |
| CacheResolution.LegacyBootBranch | src/RemoteModel.php:36-48 | the older trait binds the file when it exists and is no older than the class file, else rebuilds it when the directory is usable, else uses an in-memory database |
| CacheResolution.ManagedBootBranch | src/RemoteModelManagement.php:21-38 | the newer trait's switch as written: it also binds an existing file when a TTL is configured and its marker is missing |
| CacheResolution.IntendedManagedBootBranch | src/RemoteModelManagement.php:21-38 | the rule a TTL is meant to give: with a TTL an existing file is fresh while its marker is present, without one while it is no older than the class file |
| CacheResolution.ManagedBindsWhereLegacyBinds | src/RemoteModelManagement.php:21-38 | the newer trait binds wherever the older one binds, and otherwise takes the same branch |
| CacheResolution.ExpiredTtlBindsStaleFile | src/RemoteModelManagement.php:22 | as written, a stale file with a TTL configured and its marker missing is bound, where the intended rule rebuilds |
| CacheResolution.IntendedTtlDecidesByMarker | src/RemoteModelManagement.php:22 | under the intended rule with a TTL, the file is bound iff it exists and its marker is present |
| Store.SqliteStore.Truncate | src/RemoteModelManagement.php:158 | file_put_contents($path, ''): the file is empty with the current mtime, nothing else changes |
| Store.SqliteStore.Touch | src/RemoteModelManagement.php:163 | touch: only the file's mtime changes |
| Store.SqliteStore.SetSqliteConnection | src/RemoteModelManagement.php:108-118 | the class-wide connection becomes the target; a new in-memory database starts empty |
| Store.SqliteStore.CreateTable | src/RemoteModel.php:139-181 | the bound database gets the table; other files are unchanged |
| Store.SqliteStore.Insert | src/RemoteModel.php:207 | the batch is appended to the bound database's inserts |
| Store.SqliteStore.InsertAll | src/RemoteModel.php:205-209 | the batches are appended, in order, to the bound database's inserts; other files are unchanged |
| LegacyModel.MigrationLoadsOnlyAfterCreate | src/RemoteModel.php:139-196 | rows are inserted only after the table was created; a creation error loads nothing, is swallowed iff it says "already exists" and is rethrown otherwise |
| LegacyModel.LegacyMigration | src/RemoteModel.php:133-197 | migrate: a failed page-1 request or an empty sample raises before any table; a creation error is swallowed iff it says "already exists", without loading; else the table is created and every page is loaded |
| LegacyModel.EmptySampleRaisesNoData | src/RemoteModel.php:143-157 | an empty first page raises "No data returned…" and creates nothing |
| LegacyModel.MigrationCopiesListing | src/RemoteModel.php:139-196 | migrating a complete listing creates the string table from page 1's keys and inserts every page's rows in page order |
| LegacyModel.PaginatorMigrationCopiesListing | src/RemoteModel.php:139-224 | migrating against a Laravel paginator of n pages with usable per_page and a non-empty first page creates the string-column table and inserts every page's rows in order, raising nothing |
| LegacyModel.MigrationFetchesFirstPageTwice | src/RemoteModel.php:139-196 | over a complete listing, migrate requests page 1 for the sample, then page 1 again and pages 2..n in order |
| LegacyModel.LegacyRemoteModel.GetEndpoint | src/RemoteModel.php:51-75 | a falsy endpoint is replaced by the default, which is then not falsy; the URL returned is the joined endpoint |
| LegacyModel.LegacyRemoteModel.CallRemoteModelEndpoint | src/RemoteModel.php:226-235 | requests `<url>?page=<n>`; raises "Access to Remote Model … failed." iff the response failed, else returns it |
| LegacyModel.LegacyRemoteModel.LoadRemoteModelData | src/RemoteModel.php:199-224 | the bound database receives exactly the batches of the page-by-page load from `page`, the method raises what that load raises, and the URLs requested are exactly the load's requests, in order |
| LegacyModel.LegacyRemoteModel.InsertResponse | src/RemoteModel.php:203-222 | one successful response inserts its data in chunks of `per_page ?? 15`, or a bare list in chunks of 15, into the bound database and nothing else; a chunk size below one raises before any insert |
| LegacyModel.LegacyRemoteModel.TableColumns | src/RemoteModel.php:159-180 | the loop builds the legacy column list of the sampled keys |
| LegacyModel.LegacyRemoteModel.Migrate | src/RemoteModel.php:133-197 | the bound database gets the table and rows, and the method raises the error, that the migration function gives; the URLs requested are page 1, then the load's requests when the table was created |
| LegacyModel.LegacyRemoteModel.CacheFileNotFoundOrStale | src/RemoteModel.php:100-109 | the cache file is truncated, bound and migrated; its mtime is the reference mtime if migrate succeeded; other files are unchanged; the requests are those of migrate |
| LegacyModel.LegacyRemoteModel.Boot | src/RemoteModel.php:15-49 | the branch taken is the legacy boot decision on the observed state, and each branch leaves the connection and database it describes; binding requests nothing, the other branches request what migrate requests |
| LegacyModel.RebuiltFileIsFresh | src/RemoteModel.php:37 | a rebuilt file is bound by the next boot, whether or not its migrate raised |
| LegacyModel.TwoPageMigration | tests/RemoteModelTest.php:14-59 | a two-page remote migrates into the sampled table with both pages' rows in order |
| LegacyModel.PaginationLoadsBothPages | tests/RemoteModelTest.php:14-59 | the rows 888 "The Rock" and 999 "Dwayne Johnson" are both inserted, in that order |
| LegacyModel.SixteenRowsOverTwoPages | tests/RemoteModelsControllerTest.php:80-134 | fifteen rows on page 1 and one on page 2, with per_page 1, give sixteen inserts of one row each, which are page 1's rows and then page 2's, in order |
| ManagedModel.TableCreationOutcomes | src/RemoteModelManagement.php:171-222 | a table is created iff the columns can be made and the builder raises nothing; the only silent no-op is a swallowed "already exists"; an empty schema raises "No data returned…" |
| ManagedModel.TableCreation | src/RemoteModelManagement.php:171-222 | createRemoteModelTable: an empty schema or a column that cannot be made raises; a builder error is swallowed iff it says "already exists"; else the table is created |
| ManagedModel.NoDeclaredSchemaAlwaysRaises | src/RemoteModelManagement.php:178-186 | without a declared schema and a callback, creation raises "No data returned…" and nothing is inserted |
| ManagedModel.SwallowedCreationStillInserts | tests/Models/CelebrityCustomModel.php:21-26 | after a swallowed "already exists" the fixture's migrate still inserts the whole payload |
| ManagedModel.CelebrityCustomModelMigration | tests/Models/CelebrityCustomModel.php:17-33 | the fixture's table is id, name, timestamps; the inserted rows are the payload rows in order, each cut down to `name` and coerced, so `best_movie` is never inserted |
| ManagedModel.FixtureMigration | tests/Models/CelebrityCustomModel.php:21-33 | the fixture's migrate: createRemoteModelTable with the declared schema; unless that raises, the payload is inserted in chunks of 15 |
| ManagedModel.RefreshedFileIsFresh | src/RemoteModelManagement.php:21-26 | a file touched to the reference mtime, with its marker stored when a TTL is configured, is bound by the next boot under both the as-written and the corrected rule |
| ManagedModel.ManagedRemoteModel.GetRemoteModelEndpoint | src/RemoteModelManagement.php:41-67 | a falsy endpoint is stored as ''; the URL returned is the override or the join |
| ManagedModel.ManagedRemoteModel.BodyColumns | src/RemoteModelManagement.php:196-205 | the loop builds the body column list of the kept entries or raises its first error |
| ManagedModel.ManagedRemoteModel.CreateRemoteModelTable | src/RemoteModelManagement.php:171-222 | the bound database gets the table, and the method raises the error, that the creation function gives for the callback's schema or the declared one |
| ManagedModel.ManagedRemoteModel.InsertRemoteModelData | src/RemoteModelManagement.php:224-268 | raises iff the chunk size is below 1, changing nothing; otherwise appends the prepared batches in order |
| ManagedModel.ManagedRemoteModel.Migrate | tests/Models/CelebrityCustomModel.php:21-33 | creates the table and inserts the payload as the fixture's migrate does |
| ManagedModel.ManagedRemoteModel.RefreshRemoteModel | src/RemoteModelManagement.php:151-169 | the file is truncated, bound, migrated and touched to the reference mtime; with a TTL the marker is stored; after success the next boot binds the file, under the as-written rule and under the corrected one |
| ManagedModel.ManagedRemoteModel.Boot | src/RemoteModelManagement.php:14-39 | the branch taken is the as-written boot decision on the observed state and the marker, and each branch leaves the connection and database it describes |

## Left out

- HTTP transport, timeouts and JSON decoding: the remote is a function from URL to decoded response; only failure versus success matters.
- The fixture's `loadRemoteModelData` fetch in the newer trait: its decoded payload is a parameter of `Migrate`.
- `migrate` of the newer trait is user code: only the shape of the CelebrityCustomModel fixture (create, then insert) is modelled.
- The schema callback of `createRemoteModelTable` is modelled by its result, an optional schema.
- File-system primitives, `realpath`, `is_writable` and `ReflectionClass::getFileName`: the store keeps a map of files with mtimes; directory usability and the class file's mtime are inputs.
- The clock: every write to the bound file sets its mtime to a `now` input, and a TTL marker is modelled only by its presence, not its expiry time.
- The concurrent table-creation race and double ingestion by two workers: only the message test that swallows "already exists" is modelled, with the builder's exception as an input.
- QueryExceptions raised by `insert`, and exceptions of `DateTime`/`DateTimeZone` construction: inserts always succeed and DateTime values are kept as their constructor arguments.
- `strtotime` on an object or array raises a TypeError in PHP: type inference reaches `strtotime` only for scalars, and the model treats it as a parser of scalars.
- Blueprint methods named by a declared type: a declared value that is not a string is an unknown column type; which strings Blueprint accepts is not modelled.
- Str::slug and Str::kebab on non-ASCII text: transliteration and Unicode case rules are not modelled; ASCII letters, digits, spaces and hyphens are.
- PHP's numeric-string array keys: list indices appear as their decimal strings.
- The `continue` branch and the `_at`/`_on` branch of the older trait's column loop: the keys are integer indices, so neither can be taken.
- The `! empty($inserts)` tests: array_chunk never yields an empty chunk, which `Ingest.Chunks` states.
- `resolveConnection` and `getConnectionName` just return the connection and the class name; the connection field stands for both.
- The `(int)` casts of `current_page` and `last_page`: page numbers are integers in the model.
- Configuration lookups: domain, API path, prefix, cache directory and TTL are fields of `Store.Settings`; the defaults "remote" and "/api/_remote/_models" are constants.
- The controllers, requests, routes, service provider, console command and interface of the package.

## Findings

| source | as written | input that shows it | evidently intended | confidence | as-written member | corrected member |
|---|---|---|---|---|---|---|
| src/RemoteModel.php:209-214 | loadRemoteModelData recurses to `current_page + 1` whenever current_page < last_page, whatever page was requested | a remote that ignores `?page=` and answers every request with data, current_page 1 and last_page 2: page 2 is requested again and again and the recursion never ends | the load goes on only when the response reports the page that was requested, so every remote with bounded last pages is loaded in finitely many requests | not executed | Ingest.StuckRemoteNeverFinishes | Ingest.StuckRemoteStopsWhenGuarded |
| src/RemoteModelManagement.php:22 | the file counts as fresh when a TTL is configured and `cache()->missing(...)` holds, i.e. when the marker has expired or was never stored | cache file exists with mtime 1, class file mtime 2, TTL configured, no marker: the file is bound although it is stale | with a TTL, the file is fresh while its marker is present, and an expired marker forces a rebuild | not executed | CacheResolution.ExpiredTtlBindsStaleFile | CacheResolution.IntendedTtlDecidesByMarker |

`ManagedModel.ManagedRemoteModel.Boot` keeps the as-written decision (`CacheResolution.ManagedBootBranch`), since that is what the package does. `CacheResolution.IntendedManagedBootBranch` is the corrected rule. The two lemmas in the table relate the two rules. `ManagedModel.ManagedRemoteModel.RefreshRemoteModel` is proved to leave a file that the corrected rule binds.

`LegacyModel.LegacyRemoteModel.LoadRemoteModelData` is proved against `Ingest.LoadPages`, which is defined on remotes satisfying `Ingest.WellFormed` from the page the load starts at; the package's own paginated server is one of them (`LegacyModel.PaginatorMigrationCopiesListing`). `Ingest.GuardedAgreesOnWellFormed` shows that on those remotes the guarded load `Ingest.GuardedLoadPages` gives the same result, so every property proved of the load also holds for the corrected one. `Ingest.LoadPagesWithin` is the recursion as written, with no bound; `Ingest.StuckRemoteNeverFinishes` is stated about it.
