/** The time-to-live disk cache of cached/cached.go over an abstract file
    system: a map from file path to contents and modification time, the set
    of directories that exist, and the current time passed in by the
    caller. Times and ages are time.Duration nanoseconds. */
module Cached {
  import opened Base
  import Strings

  /** One hour as a time.Duration. */
  const Hour: int := 3_600_000_000_000

  datatype FileInfo = FileInfo(data: Bytes, modTime: int)

  /** The application's directory under the cache root. */
  function AppDir(cacheDir: string, application: string): string {
    Strings.PathJoin([cacheDir, application])
  }

  /** ensureCacheFile's path: the cache file inside the application
      directory. */
  function CacheFile(cacheDir: string, application: string, cache: string): (p: string)
    ensures p == AppDir(cacheDir, application) + "/" + cache
  {
    Strings.PathJoin([AppDir(cacheDir, application), cache])
  }

  /** Names without a path separator address distinct files. */
  lemma CacheFileInjective(cacheDir: string, app1: string, cache1: string, app2: string, cache2: string)
    requires '/' !in app1 && '/' !in cache1 && '/' !in app2 && '/' !in cache2
    requires CacheFile(cacheDir, app1, cache1) == CacheFile(cacheDir, app2, cache2)
    ensures app1 == app2 && cache1 == cache2
  {
    var prefix := cacheDir + "/";
    var p1, p2 := CacheFile(cacheDir, app1, cache1), CacheFile(cacheDir, app2, cache2);
    assert p1 == prefix + (app1 + "/" + cache1);
    assert p2 == prefix + (app2 + "/" + cache2);
    assert app1 + "/" + cache1 == p1[|prefix|..];
    assert app2 + "/" + cache2 == p2[|prefix|..];
    assert Strings.Join([app1, cache1], "/") == app1 + "/" + cache1;
    assert Strings.Join([app2, cache2], "/") == app2 + "/" + cache2;
    assert Strings.NoSeparator([app1, cache1], '/');
    assert Strings.NoSeparator([app2, cache2], '/');
    Strings.SplitJoin([app1, cache1], '/');
    Strings.SplitJoin([app2, cache2], '/');
  }

  /** What Load reads: nothing when the file does not exist or is older
      than `maxAge`; its contents otherwise. An age of exactly `maxAge` is
      still fresh. */
  function Lookup(files: map<string, FileInfo>, path: string, maxAge: int, now: int): (r: Option<Bytes>)
    ensures r.None? <==> path !in files || now - files[path].modTime > maxAge
    ensures r.Some? ==> r.value == files[path].data
  {
    if path !in files then None
    else if now - files[path].modTime > maxAge then None
    else Some(files[path].data)
  }

  /** A file saved at `saved` is read back by every Load whose `maxAge`
      covers the time since. */
  lemma LookupAfterSave(files: map<string, FileInfo>, path: string, data: Bytes, saved: int, maxAge: int, now: int)
    requires now - saved <= maxAge
    ensures Lookup(files[path := FileInfo(data, saved)], path, maxAge, now) == Some(data)
  {
  }

  /** Saving one file does not change what Load reads from another. */
  lemma LookupOtherPath(files: map<string, FileInfo>, path: string, other: string, info: FileInfo, maxAge: int, now: int)
    requires other != path
    ensures Lookup(files[path := info], other, maxAge, now) == Lookup(files, other, maxAge, now)
  {
  }

  /** Once expired, an entry stays expired as time passes. */
  lemma ExpiryIsPermanent(files: map<string, FileInfo>, path: string, maxAge: int, now: int, later: int)
    requires now <= later
    requires Lookup(files, path, maxAge, now).None?
    ensures Lookup(files, path, maxAge, later).None?
  {
  }

  /** The cache root (os.UserCacheDir, read once at start-up) and the file
      system under it. */
  class Cache {
    const cacheDir: string
    var files: map<string, FileInfo>
    var dirs: set<string>

    constructor (cacheDir: string, files: map<string, FileInfo>, dirs: set<string>)
      ensures this.cacheDir == cacheDir && this.files == files && this.dirs == dirs
    {
      this.cacheDir := cacheDir;
      this.files := files;
      this.dirs := dirs;
    }

    /** Creates the application directory (os.MkdirAll) and returns the
        cache file's path. */
    method EnsureCacheFile(application: string, cache: string) returns (cacheFile: string)
      modifies this`dirs
      ensures dirs == old(dirs) + {AppDir(cacheDir, application)}
      ensures cacheFile == CacheFile(cacheDir, application, cache)
    {
      var dir := Strings.PathJoin([cacheDir, application]);
      dirs := dirs + {dir};
      cacheFile := Strings.PathJoin([dir, cache]);
    }

    /** Reads the cache file when it exists and is at most `maxAge` old,
        and maps its bytes; expired files are left in place. */
    method Load<T>(application: string, cache: string, maxAge: int, now: int, mapper: Bytes -> T) returns (r: Option<T>)
      modifies this`dirs
      ensures files == old(files)
      ensures dirs == old(dirs) + {AppDir(cacheDir, application)}
      ensures r == match Lookup(files, CacheFile(cacheDir, application, cache), maxAge, now)
                   case None => None
                   case Some(data) => Some(mapper(data))
    {
      var cacheFile := EnsureCacheFile(application, cache);
      if cacheFile !in files {
        return None;
      }
      var age := now - files[cacheFile].modTime;
      if age > maxAge {
        return None;
      }
      var data := files[cacheFile].data;
      r := Some(mapper(data));
    }

    /** Writes the mapped object as the whole new content of the cache
        file, stamped with the current time; no other file changes. */
    method Save<T>(application: string, cache: string, obj: T, mapper: T -> Bytes, now: int)
      modifies this`files, this`dirs
      ensures dirs == old(dirs) + {AppDir(cacheDir, application)}
      ensures files == old(files)[CacheFile(cacheDir, application, cache) := FileInfo(mapper(obj), now)]
    {
      var cacheFile := EnsureCacheFile(application, cache);
      var data := mapper(obj);
      files := files[cacheFile := FileInfo(data, now)];
    }
  }
}
