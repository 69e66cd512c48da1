/**
 * Ingestion: array_chunk, the page-by-page load of the older trait
 * (loadRemoteModelData) and the filtered, coerced insert of the newer one
 * (insertRemoteModelData), as functions the models' methods are proved
 * against.
 */
module Ingest {
  import opened Wrappers
  import opened Data
  import opened Strings
  import opened ColumnTypes

  /** The chunk size used when a response gives no `per_page`, and insertRemoteModelData's default. */
  const DefaultChunkSize: int := 15

  function Flatten<T>(batches: seq<seq<T>>): seq<T> {
    if batches == [] then [] else batches[0] + Flatten(batches[1..])
  }

  lemma {:induction false} FlattenAppend<T>(a: seq<seq<T>>, b: seq<seq<T>>)
    ensures Flatten(a + b) == Flatten(a) + Flatten(b)
  {
    if a == [] {
      assert a + b == b;
    } else {
      assert (a + b)[1..] == a[1..] + b;
      FlattenAppend(a[1..], b);
    }
  }

  /** array_chunk: consecutive non-empty pieces of `size`, only the last one shorter, that concatenate to `xs`. */
  function Chunks<T>(xs: seq<T>, size: int): (r: seq<seq<T>>)
    requires size > 0
    ensures Flatten(r) == xs
    ensures forall i :: 0 <= i < |r| ==> 0 < |r[i]| <= size
    ensures forall i :: 0 <= i < |r| - 1 ==> |r[i]| == size
    decreases |xs|
  {
    if |xs| == 0 then []
    else if |xs| <= size then [xs]
    else [xs[..size]] + Chunks(xs[size..], size)
  }

  /** The URL callRemoteModelEndpoint requests for `page`. */
  function PageUrl(base: string, page: int): string {
    base + "?page=" + IntToString(page)
  }

  /** Different pages are requested at different URLs. */
  lemma PageUrlInjective(base: string, a: int, b: int)
    requires PageUrl(base, a) == PageUrl(base, b)
    ensures a == b
  {
    var n := |base + "?page="|;
    assert IntToString(a) == PageUrl(base, a)[n..];
    assert IntToString(b) == PageUrl(base, b)[n..];
    IntToStringInjective(a, b);
  }

  /** The remote, as seen through the HTTP client: the response to each request URL. */
  type Remote = string -> Response

  /** A paginated response that makes loadRemoteModelData recurse: both page numbers present and current < last. */
  predicate Continues(r: Response) {
    r.Paginated? && r.currentPage.Some? && r.lastPage.Some? && r.currentPage.value < r.lastPage.value
  }

  /**
   * From page `start` on, every response that asks for another page reports
   * the page that was requested and a last page at most `bound`; under it the
   * recursion of loadRemoteModelData from `start` terminates. Pages below
   * `start` are never requested, so what the remote answers there (a Laravel
   * paginator answers page 0 as page 1) does not matter.
   */
  ghost predicate WellFormed(remote: Remote, base: string, start: int, bound: int) {
    forall p :: start <= p && Continues(remote(PageUrl(base, p))) ==>
      remote(PageUrl(base, p)).currentPage.value == p && remote(PageUrl(base, p)).lastPage.value <= bound
  }

  /**
   * How a Laravel paginator with `n` pages answers, as the package's own
   * controller serves it: a page from 1 on reports itself of `n`, a page
   * below 1 is answered as page 1 of `n`.
   */
  ghost predicate PaginatorLike(remote: Remote, base: string, n: int) {
    forall p :: remote(PageUrl(base, p)).Paginated?
      && remote(PageUrl(base, p)).currentPage == Some(if p < 1 then 1 else p)
      && remote(PageUrl(base, p)).lastPage == Some(n)
  }

  /**
   * Such a paginator is well formed from page 1, where loadRemoteModelData
   * starts, although with two pages or more it is not from page 0.
   */
  lemma PaginatorWellFormedFromFirstPage(remote: Remote, base: string, n: int)
    requires PaginatorLike(remote, base, n)
    ensures WellFormed(remote, base, 1, n)
    ensures n >= 2 ==> !WellFormed(remote, base, 0, n)
  {
    if n >= 2 {
      assert Continues(remote(PageUrl(base, 0))) && remote(PageUrl(base, 0)).currentPage.value != 0;
    }
  }

  /** The inserts one successful response makes, or the exception array_chunk raises. */
  function PageBatches(r: Response): Result<seq<seq<Record>>, Error> {
    match r
    case Paginated(data, perPage, _, _) =>
      var size := perPage.GetOr(DefaultChunkSize);
      if size < 1 then Err(ChunkSizeNotPositive) else Ok(Chunks(data, size))
    case Bare(rows) => if |rows| > 0 then Ok(Chunks(rows, DefaultChunkSize)) else Ok([])
    case Failed => Ok([])
  }

  /** What a load did: the insert batches in order, and the exception that stopped it, if any. */
  datatype Load = Load(batches: seq<seq<Record>>, error: Option<Error>)

  /** loadRemoteModelData(page): fetch, insert the page in chunks, recurse to current_page + 1 while current < last. */
  ghost function LoadPages(remote: Remote, base: string, page: int, bound: int): Load
    requires WellFormed(remote, base, page, bound)
    decreases bound - page
  {
    var r := remote(PageUrl(base, page));
    if r.Failed? then Load([], Some(AccessFailed(AccessFailedMessage)))
    else match PageBatches(r)
      case Err(e) => Load([], Some(e))
      case Ok(batches) =>
        if Continues(r) then
          var rest := LoadPages(remote, base, r.currentPage.value + 1, bound);
          Load(batches + rest.batches, rest.error)
        else Load(batches, None)
  }

  /** The records a response carries. */
  function PageData(r: Response): seq<Record> {
    match r
    case Paginated(data, _, _, _) => data
    case Bare(rows) => rows
    case Failed => []
  }

  /** The records of pages `from` to `to`, in page order. */
  ghost function ListingRows(remote: Remote, base: string, from: int, to: int): seq<Record>
    decreases to - from
  {
    if from > to then [] else PageData(remote(PageUrl(base, from))) + ListingRows(remote, base, from + 1, to)
  }

  /** Page `p` of `n`: an envelope that numbers itself p of n and has a usable chunk size. */
  predicate CompletePage(r: Response, p: int, n: int) {
    r.Paginated? && r.currentPage == Some(p) && r.lastPage == Some(n) && r.perPage.GetOr(DefaultChunkSize) > 0
  }

  /** One step of a load over a complete page that is not the last: its chunks, then the rest of the load. */
  lemma LoadStep(remote: Remote, base: string, from: int, n: int)
    requires WellFormed(remote, base, from, n)
    requires from < n && CompletePage(remote(PageUrl(base, from)), from, n)
    ensures var rest := LoadPages(remote, base, from + 1, n);
      && LoadPages(remote, base, from, n).error == rest.error
      && Flatten(LoadPages(remote, base, from, n).batches) == remote(PageUrl(base, from)).data + Flatten(rest.batches)
  {
    var r := remote(PageUrl(base, from));
    var batches := Chunks(r.data, r.perPage.GetOr(DefaultChunkSize));
    assert PageBatches(r) == Ok(batches) && Continues(r);
    var rest := LoadPages(remote, base, from + 1, n);
    assert LoadPages(remote, base, from, n) == Load(batches + rest.batches, rest.error);
    FlattenAppend(batches, rest.batches);
  }

  /**
   * Loading a complete listing of pages `from`..`n` inserts exactly the
   * concatenation of their data, in page order, and raises nothing.
   */
  lemma {:induction false} LoadsListingInOrder(remote: Remote, base: string, from: int, n: int)
    requires WellFormed(remote, base, from, n)
    requires forall p :: from <= p <= n ==> CompletePage(remote(PageUrl(base, p)), p, n)
    requires from <= n
    ensures LoadPages(remote, base, from, n).error == None
    ensures Flatten(LoadPages(remote, base, from, n).batches) == ListingRows(remote, base, from, n)
    decreases n - from
  {
    var r := remote(PageUrl(base, from));
    assert CompletePage(r, from, n);
    if from < n {
      LoadStep(remote, base, from, n);
      LoadsListingInOrder(remote, base, from + 1, n);
    } else {
      assert PageBatches(r) == Ok(Chunks(r.data, r.perPage.GetOr(DefaultChunkSize)));
      assert ListingRows(remote, base, from + 1, n) == [];
    }
  }

  /**
   * A failed request for page `k` raises "Access to Remote Model … failed."
   * after the pages before it were inserted; their rows stay.
   */
  lemma {:induction false} FailureKeepsEarlierPages(remote: Remote, base: string, from: int, k: int, n: int)
    requires WellFormed(remote, base, from, n)
    requires from <= k <= n
    requires forall p :: from <= p < k ==> CompletePage(remote(PageUrl(base, p)), p, n)
    requires remote(PageUrl(base, k)).Failed?
    ensures LoadPages(remote, base, from, n).error == Some(AccessFailed(AccessFailedMessage))
    ensures Flatten(LoadPages(remote, base, from, n).batches) == ListingRows(remote, base, from, k - 1)
    decreases k - from
  {
    if from < k {
      LoadStep(remote, base, from, n);
      FailureKeepsEarlierPages(remote, base, from + 1, k, n);
    } else {
      assert ListingRows(remote, base, from, k - 1) == [];
    }
  }

  /** The URLs loadRemoteModelData(page) requests, in order: its own page, then those of the recursion, if any. */
  ghost function LoadRequests(remote: Remote, base: string, page: int, bound: int): (r: seq<string>)
    requires WellFormed(remote, base, page, bound)
    ensures |r| >= 1 && r[0] == PageUrl(base, page)
    decreases bound - page
  {
    var response := remote(PageUrl(base, page));
    if !response.Failed? && PageBatches(response).Ok? && Continues(response) then
      [PageUrl(base, page)] + LoadRequests(remote, base, response.currentPage.value + 1, bound)
    else [PageUrl(base, page)]
  }

  /**
   * One step of loadRemoteModelData for any response that did not fail: an
   * unusable chunk size raises before any insert; otherwise the page's
   * chunks are inserted, and the load goes on to the next page, with a
   * further request, exactly when the response continues (both page numbers
   * present and current < last).
   */
  lemma LoadPagesStep(remote: Remote, base: string, page: int, bound: int)
    requires WellFormed(remote, base, page, bound)
    requires !remote(PageUrl(base, page)).Failed?
    ensures var r := remote(PageUrl(base, page));
      var load := LoadPages(remote, base, page, bound);
      && (PageBatches(r).Err? ==> load == Load([], Some(ChunkSizeNotPositive)))
      && (PageBatches(r).Ok? && !Continues(r) ==> load == Load(PageBatches(r).value, None))
      && (PageBatches(r).Ok? && Continues(r) ==>
            var rest := LoadPages(remote, base, r.currentPage.value + 1, bound);
            load == Load(PageBatches(r).value + rest.batches, rest.error))
      && (|LoadRequests(remote, base, page, bound)| > 1 <==> PageBatches(r).Ok? && Continues(r))
      && LoadRequests(remote, base, page, bound) == [PageUrl(base, page)] +
           (if PageBatches(r).Ok? && Continues(r) then LoadRequests(remote, base, r.currentPage.value + 1, bound) else [])
  {
    var r := remote(PageUrl(base, page));
    if PageBatches(r).Ok? && Continues(r) {
      var rest := LoadRequests(remote, base, r.currentPage.value + 1, bound);
      assert |[PageUrl(base, page)] + rest| > 1;
    }
  }

  /** A non-paginated array is inserted in chunks of 15, with no further request; an empty one inserts nothing. */
  lemma BareResponseLoadsOnce(remote: Remote, base: string, page: int, bound: int, rows: seq<Record>)
    requires WellFormed(remote, base, page, bound)
    requires remote(PageUrl(base, page)) == Bare(rows)
    ensures LoadPages(remote, base, page, bound) == Load(if |rows| > 0 then Chunks(rows, DefaultChunkSize) else [], None)
    ensures Flatten(LoadPages(remote, base, page, bound).batches) == rows
    ensures forall i :: 0 <= i < |LoadPages(remote, base, page, bound).batches| ==>
      |LoadPages(remote, base, page, bound).batches[i]| <= DefaultChunkSize
    ensures LoadRequests(remote, base, page, bound) == [PageUrl(base, page)]
  {
  }

  /** The URLs of pages `from` to `to`, in page order. */
  function ListingUrls(base: string, from: int, to: int): (r: seq<string>)
    decreases to - from
    ensures |r| == (if from > to then 0 else to - from + 1)
  {
    if from > to then [] else [PageUrl(base, from)] + ListingUrls(base, from + 1, to)
  }

  /** Over a complete listing of pages `from`..`n`, the load requests each page once, in page order. */
  lemma {:induction false} ListingRequestsInOrder(remote: Remote, base: string, from: int, n: int)
    requires WellFormed(remote, base, from, n)
    requires forall p :: from <= p <= n ==> CompletePage(remote(PageUrl(base, p)), p, n)
    requires from <= n
    ensures LoadRequests(remote, base, from, n) == ListingUrls(base, from, n)
    decreases n - from
  {
    var r := remote(PageUrl(base, from));
    assert CompletePage(r, from, n);
    assert PageBatches(r).Ok?;
    if from < n {
      ListingRequestsInOrder(remote, base, from + 1, n);
      assert Continues(r) && r.currentPage.value + 1 == from + 1;
      assert LoadRequests(remote, base, from, n) == [PageUrl(base, from)] + LoadRequests(remote, base, from + 1, n);
    } else {
      assert !Continues(r);
      assert ListingUrls(base, from + 1, n) == [];
    }
  }

  /**
   * loadRemoteModelData exactly as written, whose recursion has no bound:
   * the load, or None when `fuel` nested calls do not finish it.
   */
  function LoadPagesWithin(remote: Remote, base: string, page: int, fuel: nat): Option<Load>
    decreases fuel
  {
    if fuel == 0 then None
    else
      var r := remote(PageUrl(base, page));
      if r.Failed? then Some(Load([], Some(AccessFailed(AccessFailedMessage))))
      else match PageBatches(r)
        case Err(e) => Some(Load([], Some(e)))
        case Ok(batches) =>
          if Continues(r) then
            match LoadPagesWithin(remote, base, r.currentPage.value + 1, fuel - 1)
            case None => None
            case Some(rest) => Some(Load(batches + rest.batches, rest.error))
          else Some(Load(batches, None))
  }

  /** On a well-formed remote, enough fuel lets the as-written load finish, with the result of LoadPages. */
  lemma {:induction false} LoadPagesWithinAgrees(remote: Remote, base: string, page: int, bound: int, fuel: nat)
    requires WellFormed(remote, base, page, bound)
    requires fuel > 0 && fuel > bound - page
    ensures LoadPagesWithin(remote, base, page, fuel) == Some(LoadPages(remote, base, page, bound))
    decreases fuel
  {
    var r := remote(PageUrl(base, page));
    if !r.Failed? && PageBatches(r).Ok? && Continues(r) {
      LoadPagesWithinAgrees(remote, base, page + 1, bound, fuel - 1);
    }
  }

  /**
   * A remote that ignores `?page=` and always answers page 1 of 2 makes the
   * as-written load recurse without end: no amount of fuel finishes it, and
   * the remote is well formed from no page, for any bound.
   */
  lemma {:induction false} StuckRemoteNeverFinishes(remote: Remote, base: string, data: seq<Record>, page: int, fuel: nat, bound: int)
    requires forall p :: remote(PageUrl(base, p)) == Paginated(data, None, Some(1), Some(2))
    ensures LoadPagesWithin(remote, base, page, fuel) == None
    ensures !WellFormed(remote, base, page, bound)
    decreases fuel
  {
    var r := remote(PageUrl(base, page));
    assert Continues(r) && PageBatches(r) == Ok(Chunks(data, DefaultChunkSize));
    assert Continues(remote(PageUrl(base, 2))) && remote(PageUrl(base, 2)).currentPage.value != 2;
    if fuel > 0 {
      StuckRemoteNeverFinishes(remote, base, data, 2, fuel - 1, bound);
    }
  }

  /** From page `start` on, every response that asks for another page reports a last page at most `bound`. */
  ghost predicate LastPagesBounded(remote: Remote, base: string, start: int, bound: int) {
    forall p :: start <= p && Continues(remote(PageUrl(base, p))) ==> remote(PageUrl(base, p)).lastPage.value <= bound
  }

  /**
   * The load with the guard the recursion evidently needs: go on to
   * `page + 1` only when the response reports the page that was requested.
   * It terminates on every remote whose last pages are bounded.
   */
  ghost function GuardedLoadPages(remote: Remote, base: string, page: int, bound: int): Load
    requires LastPagesBounded(remote, base, page, bound)
    decreases bound - page
  {
    var r := remote(PageUrl(base, page));
    if r.Failed? then Load([], Some(AccessFailed(AccessFailedMessage)))
    else match PageBatches(r)
      case Err(e) => Load([], Some(e))
      case Ok(batches) =>
        if Continues(r) && r.currentPage.value == page then
          var rest := GuardedLoadPages(remote, base, page + 1, bound);
          Load(batches + rest.batches, rest.error)
        else Load(batches, None)
  }

  /** On a well-formed remote the guarded load is the as-written one. */
  lemma {:induction false} GuardedAgreesOnWellFormed(remote: Remote, base: string, page: int, bound: int)
    requires WellFormed(remote, base, page, bound)
    ensures LastPagesBounded(remote, base, page, bound)
    ensures GuardedLoadPages(remote, base, page, bound) == LoadPages(remote, base, page, bound)
    decreases bound - page
  {
    var r := remote(PageUrl(base, page));
    if !r.Failed? && PageBatches(r).Ok? && Continues(r) {
      GuardedAgreesOnWellFormed(remote, base, page + 1, bound);
    }
  }

  /** The guarded load of the stuck remote finishes without error: page 1 then page 2, which reports page 1 and stops. */
  lemma StuckRemoteStopsWhenGuarded(remote: Remote, base: string, data: seq<Record>, page: int)
    requires forall p :: remote(PageUrl(base, p)) == Paginated(data, None, Some(1), Some(2))
    ensures LastPagesBounded(remote, base, page, 2)
    ensures GuardedLoadPages(remote, base, page, 2).error == None
    ensures Flatten(GuardedLoadPages(remote, base, page, 2).batches) == if page == 1 then data + data else data
  {
    var chunks := Chunks(data, DefaultChunkSize);
    assert PageBatches(remote(PageUrl(base, page))) == Ok(chunks);
    assert PageBatches(remote(PageUrl(base, 2))) == Ok(chunks);
    assert GuardedLoadPages(remote, base, 2, 2) == Load(chunks, None);
    if page == 1 {
      assert GuardedLoadPages(remote, base, 1, 2) == Load(chunks + chunks, None);
      FlattenAppend(chunks, chunks);
    }
  }

  /** The keys insertRemoteModelData keeps with a declared schema: the schema's own plus the reserved ones. */
  function AllowedKeys(declared: Record): set<string> {
    (set i | 0 <= i < |declared| :: declared[i].key) + {"id", "created_at", "updated_at"}
  }

  /** Collection::intersectByKeys: the entries whose key is allowed, in order. */
  function IntersectByKeys(row: Record, allowed: set<string>): (r: Record)
    ensures forall e :: e in r <==> e in row && e.key in allowed
  {
    if row == [] then []
    else (if row[0].key in allowed then [row[0]] else []) + IntersectByKeys(row[1..], allowed)
  }

  /** The key-preserving map of Coerce over a row's values. */
  function CoerceRow(row: Record, p: Parsers): Record {
    seq(|row|, i requires 0 <= i < |row| => Entry(row[i].key, Coerce(row[i].value, p)))
  }

  /** One row as insertRemoteModelData hands it to insert: filtered by a declared schema if any, then coerced. */
  function PrepareRow(row: Record, declared: Record, p: Parsers): Record {
    CoerceRow(if |declared| > 0 then IntersectByKeys(row, AllowedKeys(declared)) else row, p)
  }

  function PrepareRows(rows: seq<Record>, declared: Record, p: Parsers): seq<Record> {
    seq(|rows|, i requires 0 <= i < |rows| => PrepareRow(rows[i], declared, p))
  }

  /** insertRemoteModelData(data, chunk): one insert per chunk of prepared rows, or array_chunk's exception. */
  function InsertBatches(data: seq<Record>, chunk: int, declared: Record, p: Parsers): Result<seq<seq<Record>>, Error> {
    if chunk < 1 then Err(ChunkSizeNotPositive)
    else
      var chunks := Chunks(data, chunk);
      Ok(seq(|chunks|, i requires 0 <= i < |chunks| => PrepareRows(chunks[i], declared, p)))
  }

  lemma PrepareRowsAppend(a: seq<Record>, b: seq<Record>, declared: Record, p: Parsers)
    ensures PrepareRows(a + b, declared, p) == PrepareRows(a, declared, p) + PrepareRows(b, declared, p)
  {
    var whole := PrepareRows(a + b, declared, p);
    var parts := PrepareRows(a, declared, p) + PrepareRows(b, declared, p);
    assert |whole| == |parts|;
    forall i | 0 <= i < |whole|
      ensures whole[i] == parts[i]
    {
      var row := (a + b)[i];
      assert whole[i] == PrepareRow(row, declared, p);
      if i < |a| {
        assert row == a[i];
        assert parts[i] == PrepareRows(a, declared, p)[i] == PrepareRow(a[i], declared, p);
      } else {
        assert row == b[i - |a|];
        assert parts[i] == PrepareRows(b, declared, p)[i - |a|] == PrepareRow(b[i - |a|], declared, p);
      }
    }
  }

  lemma {:induction false} FlattenPrepared(chunks: seq<seq<Record>>, declared: Record, p: Parsers)
    ensures Flatten(seq(|chunks|, i requires 0 <= i < |chunks| => PrepareRows(chunks[i], declared, p)))
      == PrepareRows(Flatten(chunks), declared, p)
  {
    var mapped := seq(|chunks|, i requires 0 <= i < |chunks| => PrepareRows(chunks[i], declared, p));
    if chunks != [] {
      var tail := chunks[1..];
      FlattenPrepared(tail, declared, p);
      assert mapped[1..] == seq(|tail|, i requires 0 <= i < |tail| => PrepareRows(tail[i], declared, p));
      assert Flatten(mapped) == PrepareRows(chunks[0], declared, p) + Flatten(mapped[1..]);
      assert Flatten(chunks) == chunks[0] + Flatten(tail);
      PrepareRowsAppend(chunks[0], Flatten(tail), declared, p);
    }
  }

  /**
   * Every row of `data` is inserted exactly once, in order, prepared; the
   * inserts are non-empty chunks of at most `chunk` rows; a chunk size
   * below one raises before anything is inserted.
   */
  lemma InsertKeepsEveryRowInOrder(data: seq<Record>, chunk: int, declared: Record, p: Parsers)
    ensures InsertBatches(data, chunk, declared, p).Err? <==> chunk < 1
    ensures InsertBatches(data, chunk, declared, p).Ok? ==>
      var batches := InsertBatches(data, chunk, declared, p).value;
      && Flatten(batches) == PrepareRows(data, declared, p)
      && |Flatten(batches)| == |data|
      && forall i :: 0 <= i < |batches| ==> 0 < |batches[i]| <= chunk
  {
    if chunk >= 1 {
      FlattenPrepared(Chunks(data, chunk), declared, p);
    }
  }

  /**
   * With a declared schema a prepared row keeps only allowed keys, and
   * every allowed entry survives with its coerced value; without one the
   * keys are untouched and every value is coerced in place.
   */
  lemma PreparedRowKeys(row: Record, declared: Record, p: Parsers)
    ensures |declared| > 0 ==> forall k :: k in Keys(PrepareRow(row, declared, p)) ==> k in AllowedKeys(declared)
    ensures |declared| > 0 ==> forall e :: e in row && e.key in AllowedKeys(declared) ==>
      Entry(e.key, Coerce(e.value, p)) in PrepareRow(row, declared, p)
    ensures |declared| == 0 ==> Keys(PrepareRow(row, declared, p)) == Keys(row)
    ensures |declared| == 0 ==> forall i :: 0 <= i < |row| ==> PrepareRow(row, declared, p)[i].value == Coerce(row[i].value, p)
  {
    if |declared| > 0 {
      var kept := IntersectByKeys(row, AllowedKeys(declared));
      forall k | k in Keys(PrepareRow(row, declared, p)) ensures k in AllowedKeys(declared) {
        var i :| 0 <= i < |kept| && Keys(PrepareRow(row, declared, p))[i] == k;
        assert kept[i] in kept;
      }
      forall e | e in row && e.key in AllowedKeys(declared)
        ensures Entry(e.key, Coerce(e.value, p)) in PrepareRow(row, declared, p)
      {
        var i :| 0 <= i < |kept| && kept[i] == e;
        assert PrepareRow(row, declared, p)[i] == Entry(e.key, Coerce(e.value, p));
      }
    }
  }

  /**
   * The explicit-schema case: with schema {name: string}, a remote record
   * such as {id, name, best_movie} is stored without best_movie.
   */
  lemma SchemaFilterDropsUndeclared(row: Record, p: Parsers)
    ensures "best_movie" !in Keys(PrepareRow(row, [Entry("name", JString("string"))], p))
  {
    var declared := [Entry("name", JString("string"))];
    assert AllowedKeys(declared) == {"name", "id", "created_at", "updated_at"} by {
      var keys := set i | 0 <= i < |declared| :: declared[i].key;
      assert declared[0].key in keys;
      forall k | k in keys ensures k == "name" {
        var i :| 0 <= i < |declared| && declared[i].key == k;
        assert i == 0;
      }
      assert keys == {"name"};
    }
    assert "best_movie" !in AllowedKeys(declared) by {
      assert "best_movie"[0] != "name"[0] && "best_movie"[0] != "id"[0];
      assert "best_movie"[0] != "created_at"[0] && "best_movie"[0] != "updated_at"[0];
    }
    PreparedRowKeys(row, declared, p);
  }
}
