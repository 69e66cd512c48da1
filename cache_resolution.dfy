/**
 * The three-way choice both boot methods make: bind the existing SQLite
 * file, rebuild it, or fall back to an in-memory database.
 */
module CacheResolution {

  datatype BootBranch = BindExisting | Rebuild | InMemory

  /**
   * What boot observes: whether the cache file exists and its mtime, the
   * mtime of the model's class file (the reference), and whether the cache
   * directory exists and is writable.
   */
  datatype BootState = BootState(cacheExists: bool, cacheMtime: int, referenceMtime: int, directoryUsable: bool)

  /** The mtime test both traits share: the file exists and is no older than the reference. */
  predicate UpToDate(s: BootState) {
    s.cacheExists && s.referenceMtime <= s.cacheMtime
  }

  /** bootRemoteModel's switch. */
  function LegacyBootBranch(s: BootState): BootBranch {
    if UpToDate(s) then BindExisting
    else if s.directoryUsable then Rebuild
    else InMemory
  }

  /**
   * bootRemoteModelManagement's switch as written: its first case binds the
   * file when a TTL is configured and the marker is missing from the cache.
   */
  function ManagedBootBranch(s: BootState, ttl: bool, markerPresent: bool): BootBranch {
    if s.cacheExists && ttl && !markerPresent then BindExisting
    else if UpToDate(s) then BindExisting
    else if s.directoryUsable then Rebuild
    else InMemory
  }

  /**
   * The freshness rule a TTL is meant to give: with a TTL the file is fresh
   * while its marker is present, without one while it is no older than the
   * reference.
   */
  function IntendedManagedBootBranch(s: BootState, ttl: bool, markerPresent: bool): BootBranch {
    if s.cacheExists && (if ttl then markerPresent else s.referenceMtime <= s.cacheMtime) then BindExisting
    else if s.directoryUsable then Rebuild
    else InMemory
  }

  /** Without a TTL the two traits decide alike, and so does the intended rule. */
  lemma TraitsAgreeWithoutTtl(s: BootState, markerPresent: bool)
    ensures ManagedBootBranch(s, false, markerPresent) == LegacyBootBranch(s)
    ensures IntendedManagedBootBranch(s, false, markerPresent) == LegacyBootBranch(s)
  {
  }

  /** The newer trait binds wherever the older one does; a TTL only adds cases that bind. */
  lemma ManagedBindsWhereLegacyBinds(s: BootState, ttl: bool, markerPresent: bool)
    ensures LegacyBootBranch(s) == BindExisting ==> ManagedBootBranch(s, ttl, markerPresent) == BindExisting
    ensures ManagedBootBranch(s, ttl, markerPresent) != BindExisting ==>
      ManagedBootBranch(s, ttl, markerPresent) == LegacyBootBranch(s)
  {
  }

  /**
   * As written, a configured TTL whose marker is missing binds any existing
   * file, however stale: an expired TTL never rebuilds.
   */
  lemma ExpiredTtlBindsStaleFile(cacheMtime: int, referenceMtime: int)
    requires cacheMtime < referenceMtime
    ensures var s := BootState(true, cacheMtime, referenceMtime, true);
      && !UpToDate(s)
      && ManagedBootBranch(s, true, false) == BindExisting
      && IntendedManagedBootBranch(s, true, false) == Rebuild
  {
  }

  /**
   * Under the intended rule an expired marker rebuilds (or falls back to
   * memory), and a live one binds whatever the mtimes say.
   */
  lemma IntendedTtlDecidesByMarker(s: BootState, markerPresent: bool)
    ensures IntendedManagedBootBranch(s, true, markerPresent) == BindExisting <==> s.cacheExists && markerPresent
    ensures !markerPresent ==> IntendedManagedBootBranch(s, true, markerPresent) == (if s.directoryUsable then Rebuild else InMemory)
  {
  }
}
