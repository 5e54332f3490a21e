/**
 * The constructor's options: the API server address, the two cURL
 * timeouts, and the cache, which is switched on only when its type, server
 * address and port are all given and the type is one of the two supported
 * extensions.
 */
module Config {
  import opened Wrappers
  import opened PhpStrings
  import opened PhpValues

  /** The cache extension a configured client talks to. */
  datatype CacheKind = Memcache | Memcached

  /** The client's settings once the constructor has run. */
  datatype Settings = Settings(
    apiServerAddress: Arg,
    connectionTimeOut: int,
    timeOut: int,
    cache: Option<CacheKind>,
    cacheExpiration: int)

  /** The settings of a client constructed without options. */
  const Defaults: Settings := Settings(Str("http://api.filmtied.com"), 5, 5, None, 600)

  /** `isset($params[$k])`: the key is present and its value is not null. */
  predicate Isset(options: map<string, Arg>, k: string) {
    k in options && options[k] != Null
  }

  /** The three options that together ask for a cache. */
  predicate CacheRequested(options: map<string, Arg>) {
    Isset(options, "cache") && Isset(options, "cacheServerAddress") && Isset(options, "cacheServerPort")
  }

  /** `$params['cache'] == 'memcache'`, then `== 'memcached'`: only the two exact strings select an extension. */
  function CacheChoice(v: Arg): (c: Option<CacheKind>)
    ensures c == Some(Memcache) <==> v == Str("memcache")
    ensures c == Some(Memcached) <==> v == Str("memcached")
    ensures c.None? <==> v != Str("memcache") && v != Str("memcached")
  {
    LooseEqualsWord(v, "memcache");
    LooseEqualsWord(v, "memcached");
    if LooseEqualsText(v, "memcache") then Some(Memcache)
    else if LooseEqualsText(v, "memcached") then Some(Memcached)
    else None
  }

  /**
   * The constructor's reading of its options: each set option replaces its
   * default, the timeouts through the (int) cast; the cache type and the
   * expiration are read only when all three cache options are set.
   */
  function Resolve(options: map<string, Arg>): (s: Settings)
    ensures s.apiServerAddress == if Isset(options, "apiServerAddress") then options["apiServerAddress"] else Defaults.apiServerAddress
    ensures s.connectionTimeOut == if Isset(options, "connectionTimeOut") then ToInt(options["connectionTimeOut"]) else Defaults.connectionTimeOut
    ensures s.timeOut == if Isset(options, "timeOut") then ToInt(options["timeOut"]) else Defaults.timeOut
    ensures s.cache.Some? <==> CacheRequested(options) && options["cache"] in {Str("memcache"), Str("memcached")}
    ensures s.cache == Some(Memcached) <==> CacheRequested(options) && options["cache"] == Str("memcached")
    ensures s.cacheExpiration == if CacheRequested(options) && Isset(options, "cacheExpiration") then ToInt(options["cacheExpiration"]) else Defaults.cacheExpiration
  {
    var address := if Isset(options, "apiServerAddress") then options["apiServerAddress"] else Defaults.apiServerAddress;
    var connection := if Isset(options, "connectionTimeOut") then ToInt(options["connectionTimeOut"]) else Defaults.connectionTimeOut;
    var transfer := if Isset(options, "timeOut") then ToInt(options["timeOut"]) else Defaults.timeOut;
    if CacheRequested(options) then
      var expiration := if Isset(options, "cacheExpiration") then ToInt(options["cacheExpiration"]) else Defaults.cacheExpiration;
      Settings(address, connection, transfer, CacheChoice(options["cache"]), expiration)
    else
      Settings(address, connection, transfer, None, Defaults.cacheExpiration)
  }

  /** No options, or only null ones, leave every default in place. */
  lemma NullOptionsGiveDefaults(options: map<string, Arg>)
    requires forall k :: k in options ==> options[k] == Null
    ensures Resolve(options) == Defaults
  {
  }

  /** A cache type without both server options switches nothing on, and its expiration is ignored. */
  lemma CacheNeedsServer(options: map<string, Arg>)
    requires !Isset(options, "cacheServerAddress") || !Isset(options, "cacheServerPort")
    ensures Resolve(options).cache == None
    ensures Resolve(options).cacheExpiration == 600
  {
  }

  /**
   * With all three cache options set but an unsupported type, no cache is
   * used, yet a given expiration is still taken.
   */
  lemma UnknownCacheKeepsExpiration(options: map<string, Arg>)
    requires CacheRequested(options) && Isset(options, "cacheExpiration")
    requires options["cache"] != Str("memcache") && options["cache"] != Str("memcached")
    ensures Resolve(options).cache == None
    ensures Resolve(options).cacheExpiration == ToInt(options["cacheExpiration"])
  {
  }

  /** A numeric timeout given as its decimal spelling is read as that number. */
  lemma SpelledTimeoutIsRead(options: map<string, Arg>, t: int)
    requires "timeOut" in options && options["timeOut"] == Str(IntToString(t))
    ensures Resolve(options).timeOut == t
  {
    IntSpellingActsAsInt(t);
  }
}
