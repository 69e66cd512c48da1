/** Where each model keeps its SQLite cache (remoteModelCachePath, remoteModelCacheFileName). */
module CacheFiles {
  import opened Wrappers
  import opened Strings

  /** The `cache-prefix` default of the package configuration. */
  const DefaultCachePrefix: string := "remote"
  const DirectorySeparator: char := '/'
  const SqliteExtension: string := ".sqlite"

  /** The older trait: prefix, '-', the kebab-cased class name without backslashes, ".sqlite". */
  function LegacyCacheFileName(prefix: string, className: string): string {
    prefix + "-" + Kebab(Replace(className, "\\", "")) + SqliteExtension
  }

  /** The newer trait: as the older one, with "app-models" in the kebab-cased name replaced by "model". */
  function ManagedCacheFileName(prefix: string, className: string): string {
    prefix + "-" + Replace(Kebab(Replace(className, "\\", "")), "app-models", "model") + SqliteExtension
  }

  /**
   * implode(DIRECTORY_SEPARATOR, [realpath(dir), name]); a directory that
   * realpath cannot resolve is `false`, which implode turns into "".
   */
  function CachePath(directory: Option<string>, fileName: string): string {
    directory.GetOr("") + [DirectorySeparator] + fileName
  }

  /** Both names are the prefix, '-', a middle part and ".sqlite". */
  lemma CacheFileNames(prefix: string, className: string)
    ensures var name := LegacyCacheFileName(prefix, className);
      StartsWith(name, prefix + "-") && EndsWith(name, SqliteExtension)
    ensures var name := ManagedCacheFileName(prefix, className);
      StartsWith(name, prefix + "-") && EndsWith(name, SqliteExtension)
  {
    var kebab := Kebab(Replace(className, "\\", ""));
    var legacy := LegacyCacheFileName(prefix, className);
    assert legacy == (prefix + "-") + (kebab + SqliteExtension);
    assert legacy[|legacy| - |SqliteExtension|..] == SqliteExtension;
    var managed := ManagedCacheFileName(prefix, className);
    var middle := Replace(kebab, "app-models", "model");
    assert managed == (prefix + "-") + (middle + SqliteExtension);
    assert managed[|managed| - |SqliteExtension|..] == SqliteExtension;
  }

  /** The two traits pick the same file unless the kebab-cased class name contains "app-models". */
  lemma TraitsShareCacheFile(prefix: string, className: string)
    requires !Occurs(Kebab(Replace(className, "\\", "")), "app-models")
    ensures ManagedCacheFileName(prefix, className) == LegacyCacheFileName(prefix, className)
  {
    ReplaceAbsent(Kebab(Replace(className, "\\", "")), "app-models", "model");
  }

  /** The file name is what follows the last separator of the path, and the directory (or "") precedes it. */
  lemma {:induction false} CachePathSplits(directory: Option<string>, fileName: string)
    requires DirectorySeparator !in fileName
    ensures AfterLast(CachePath(directory, fileName), DirectorySeparator) == fileName
    ensures directory.GetOr("") + [DirectorySeparator] <= CachePath(directory, fileName)
    ensures directory == None ==> CachePath(directory, fileName) == [DirectorySeparator] + fileName
  {
    AfterLastAppend(directory.GetOr(""), DirectorySeparator, fileName);
  }
}
