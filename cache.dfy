/**
 * The file-backed TTL cache of Redirect/airq.go:42-57. The temporary
 * directory is a map from file name to contents and modification time; the
 * clock is an integer number of nanoseconds supplied by the caller.
 */
module TtlCache {

  import opened Encoding
  import opened Results

  /** A cache file: its bytes and its modification time. */
  datatype File = File(data: seq<byte>, mtime: int)

  /** `time.Second` in nanoseconds, the unit of Go durations and of the clock here. */
  const Second: int := 1_000_000_000

  /** The deterministic file name of a key: `"aqhi_cache_"` and the `%x` rendering of its bytes. */
  function FileName(key: string): string {
    "aqhi_cache_" + Hex(Utf8(key))
  }

  /** Different keys never share a cache file. */
  lemma FileNameInjective(k1: string, k2: string)
    requires FileName(k1) == FileName(k2)
    ensures k1 == k2
  {
    var prefix := "aqhi_cache_";
    assert Hex(Utf8(k1)) == FileName(k1)[|prefix|..];
    assert Hex(Utf8(k2)) == FileName(k2)[|prefix|..];
    HexInjective(Utf8(k1), Utf8(k2));
    Utf8Injective(k1, k2);
  }

  /** The file for `key` exists and is younger than `ttl` seconds: the test at Redirect/airq.go:45. */
  predicate Fresh(files: map<string, File>, key: string, ttl: int, now: int) {
    FileName(key) in files && now - files[FileName(key)].mtime < ttl * Second
  }

  /** What `getCachedData(key, ttl)` yields; `readOk` says whether reading the file succeeds. */
  function Lookup(files: map<string, File>, key: string, ttl: int, now: int, readOk: bool): Option<seq<byte>> {
    if Fresh(files, key, ttl, now) && readOk then Some(files[FileName(key)].data) else None
  }

  class Cache {
    /** The cache files in the temporary directory, by name. */
    var files: map<string, File>

    /** The directory as the process finds it: files left by an earlier run persist. */
    constructor (initial: map<string, File>)
      ensures files == initial
    {
      files := initial;
    }

    /** `getCachedData`: the stored bytes, found only if the file is fresh and reads successfully. */
    method Get(key: string, ttl: int, now: int, readOk: bool) returns (data: seq<byte>, found: bool)
      ensures found <==> FileName(key) in files && now - files[FileName(key)].mtime < ttl * Second && readOk
      ensures found ==> data == files[FileName(key)].data
      ensures !found ==> data == []
      ensures (if found then Some(data) else None) == Lookup(files, key, ttl, now, readOk)
    {
      var cacheFile := FileName(key);
      data, found := [], false;
      if cacheFile in files && now - files[cacheFile].mtime < ttl * Second {
        if readOk {
          data, found := files[cacheFile].data, true;
        }
      }
    }

    /** `setCachedData`: creates or truncates the key's file; write failures are not modelled. */
    method Set(key: string, data: seq<byte>, now: int)
      modifies this
      ensures files == old(files)[FileName(key) := File(data, now)]
    {
      files := files[FileName(key) := File(data, now)];
    }
  }

  /** Because get and set use the same path, a write is read back within the TTL. */
  lemma SetThenGet(files: map<string, File>, key: string, data: seq<byte>, written: int, ttl: int, now: int)
    requires now - written < ttl * Second
    ensures Lookup(files[FileName(key) := File(data, written)], key, ttl, now, true) == Some(data)
  {
  }

  /** An entry at least `ttl` seconds old is a miss, whatever it holds. */
  lemma ExpiredIsMiss(files: map<string, File>, key: string, ttl: int, now: int, readOk: bool)
    requires FileName(key) in files && now - files[FileName(key)].mtime >= ttl * Second
    ensures Lookup(files, key, ttl, now, readOk) == None
  {
  }

  /** Writing one key leaves what every other key reads unchanged. */
  lemma SetOtherKey(files: map<string, File>, written: string, f: File, key: string, ttl: int, now: int, readOk: bool)
    requires written != key
    ensures Lookup(files[FileName(written) := f], key, ttl, now, readOk) == Lookup(files, key, ttl, now, readOk)
  {
    if FileName(written) == FileName(key) {
      FileNameInjective(written, key);
    }
  }
}
