/**
 * `fetchAndExtractJSON` (Redirect/airq.go:59-94): serve a fresh cached
 * capture if it parses; otherwise fetch the page, extract the array literal
 * assigned to the variable, parse it, and cache the raw capture on success.
 * The network and the JSON parser are inputs.
 */
module FetchExtract {

  import opened Encoding
  import opened Results
  import opened Json
  import opened TtlCache
  import opened Extraction

  /** What the upstream GET yields: the whole body, or the error of `http.Get` or of reading the body. */
  datatype Response = Body(bytes: seq<byte>) | TransportError(message: string)

  /** The world one call sees: the clock, whether reading a cache file succeeds, and the network's answer. */
  datatype Env = Env(now: int, readOk: bool, response: Response)

  /** The three ways the call fails. */
  datatype FetchError = Transport(message: string) | VariableNotFound | BadJson(message: string)

  /** `json.Unmarshal` into `[]interface{}`: the decoded array, or the decoder's error text. */
  type Parser = seq<byte> -> Result<seq<Json>, string>

  /** The TTL, in seconds, that `fetchAndExtractJSON` asks the cache for. */
  const CacheTtl: int := 300

  /** The cache key: the URL and the variable name run together. */
  function CacheKey(url: string, name: string): string {
    url + name
  }

  /** The call is answered from the cache: a fresh entry that reads and parses. */
  predicate ServedFromCache(files: map<string, File>, url: string, name: string, env: Env, parse: Parser) {
    var cached := Lookup(files, CacheKey(url, name), CacheTtl, env.now, env.readOk);
    cached.Some? && parse(cached.value).Success?
  }

  /** The result of one call and the cache files after it. */
  function Fetched(files: map<string, File>, url: string, name: string, env: Env, parse: Parser)
    : (Result<seq<Json>, FetchError>, map<string, File>)
  {
    var key := CacheKey(url, name);
    if ServedFromCache(files, url, name, env, parse) then
      (Success(parse(Lookup(files, key, CacheTtl, env.now, env.readOk).value).value), files)
    else
      match env.response
      case TransportError(m) => (Failure(Transport(m)), files)
      case Body(body) =>
        match Extract(body, name)
        case None => (Failure(VariableNotFound), files)
        case Some(capture) =>
          match parse(capture)
          case Failure(m) => (Failure(BadJson(m)), files)
          case Success(items) => (Success(items), files[FileName(key) := File(capture, env.now)])
  }

  method FetchAndExtract(cache: Cache, url: string, name: string, env: Env, parse: Parser)
    returns (r: Result<seq<Json>, FetchError>)
    modifies cache
    ensures (r, cache.files) == Fetched(old(cache.files), url, name, env, parse)
  {
    var cacheKey := url + name;
    var data, ok := cache.Get(cacheKey, CacheTtl, env.now, env.readOk);
    if ok {
      var result := parse(data);
      if result.Success? {
        return Success(result.value);
      }
    }
    if env.response.TransportError? {
      return Failure(Transport(env.response.message));
    }
    var body := env.response.bytes;
    var match1 := Extract(body, name);
    if match1.None? {
      return Failure(VariableNotFound);
    }
    var result := parse(match1.value);
    if result.Failure? {
      return Failure(BadJson(result.error));
    }
    cache.Set(cacheKey, match1.value, env.now);
    return Success(result.value);
  }

  /** A fresh cache entry that parses is returned as it is, whatever the network would have said. */
  lemma HitSkipsNetwork(files: map<string, File>, url: string, name: string, env: Env, other: Response, parse: Parser)
    requires ServedFromCache(files, url, name, env, parse)
    ensures Fetched(files, url, name, env, parse) == Fetched(files, url, name, env.(response := other), parse)
    ensures Fetched(files, url, name, env, parse) ==
      (Success(parse(files[FileName(CacheKey(url, name))].data).value), files)
  {
  }

  /** Without a usable cache entry, a transport error is returned as it is and nothing is cached. */
  lemma UncachedTransportError(files: map<string, File>, url: string, name: string, env: Env, parse: Parser)
    requires !ServedFromCache(files, url, name, env, parse) && env.response.TransportError?
    ensures Fetched(files, url, name, env, parse) == (Failure(Transport(env.response.message)), files)
  {
  }

  /** Without a usable cache entry, a body whose capture parses yields that parse. */
  lemma UncachedCapture(files: map<string, File>, url: string, name: string, env: Env, parse: Parser,
                        capture: seq<byte>, items: seq<Json>)
    requires !ServedFromCache(files, url, name, env, parse) && env.response.Body?
    requires Extract(env.response.bytes, name) == Some(capture) && parse(capture) == Success(items)
    ensures Fetched(files, url, name, env, parse) ==
      (Success(items), files[FileName(CacheKey(url, name)) := File(capture, env.now)])
  {
  }

  /** A failed call writes nothing to the cache. */
  lemma FailureWritesNothing(files: map<string, File>, url: string, name: string, env: Env, parse: Parser)
    requires Fetched(files, url, name, env, parse).0.Failure?
    ensures Fetched(files, url, name, env, parse).1 == files
  {
  }

  /**
   * A call that succeeds without the cache fetched a body, extracted a
   * capture from it, returns the parse of that capture, and stored the raw
   * capture, not a re-encoding, under the call's key with the current time.
   */
  lemma WriteIsRawCapture(files: map<string, File>, url: string, name: string, env: Env, parse: Parser)
    requires !ServedFromCache(files, url, name, env, parse)
    requires Fetched(files, url, name, env, parse).0.Success?
    ensures env.response.Body? && Extract(env.response.bytes, name).Some?
    ensures var capture := Extract(env.response.bytes, name).value;
      && parse(capture).Success?
      && Fetched(files, url, name, env, parse).0 == Success(parse(capture).value)
      && Fetched(files, url, name, env, parse).1 == files[FileName(CacheKey(url, name)) := File(capture, env.now)]
  {
  }

  /** A body without the assignment and no usable cache entry: "variable not found", nothing cached. */
  lemma MissingVariableScenario(files: map<string, File>, url: string, name: string, env: Env, parse: Parser)
    requires Lookup(files, CacheKey(url, name), CacheTtl, env.now, env.readOk).None?
    requires env.response.Body? && forall p, e :: !IsMatch(env.response.bytes, Prefix(name), p, e)
    ensures Fetched(files, url, name, env, parse) == (Failure(VariableNotFound), files)
  {
  }

  /**
   * Idempotence within the TTL: after a call that fetched and cached, a
   * second call less than 300 seconds later returns the same array from the
   * cache, leaves the cache alone, and does not depend on the network.
   */
  lemma SecondCallWithinTtl(files: map<string, File>, url: string, name: string, first: Env, second: Env, parse: Parser)
    requires !ServedFromCache(files, url, name, first, parse)
    requires Fetched(files, url, name, first, parse).0.Success?
    requires second.now - first.now < CacheTtl * Second && second.readOk
    ensures var (r1, files1) := Fetched(files, url, name, first, parse);
      Fetched(files1, url, name, second, parse) == (r1, files1)
  {
    WriteIsRawCapture(files, url, name, first, parse);
    var capture := Extract(first.response.bytes, name).value;
    SetThenGet(files, CacheKey(url, name), capture, first.now, CacheTtl, second.now);
  }

  /** A call reads and writes only its own key's file: it depends on nothing else in the cache. */
  lemma FetchedIsLocal(f1: map<string, File>, f2: map<string, File>, url: string, name: string, env: Env, parse: Parser)
    requires var n := FileName(CacheKey(url, name)); (n in f1 <==> n in f2) && (n in f1 ==> f1[n] == f2[n])
    ensures Fetched(f1, url, name, env, parse).0 == Fetched(f2, url, name, env, parse).0
  {
  }

  /** Every other file is the same after a call. */
  lemma FetchedTouchesOwnFile(files: map<string, File>, url: string, name: string, env: Env, parse: Parser, other: string)
    requires other != FileName(CacheKey(url, name))
    ensures var files' := Fetched(files, url, name, env, parse).1;
      (other in files' <==> other in files) && (other in files ==> files'[other] == files[other])
  {
  }

  /** The key runs URL and name together, so different pairs can share an entry. */
  lemma CacheKeysCollide()
    ensures CacheKey("http://a", "bc") == CacheKey("http://ab", "c")
  {
  }
}
