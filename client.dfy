/**
 * The client object: how a request is prepared, how processRequest serves
 * it from the cache or posts it, and how the three public operations chain
 * parameters, request, transport and response.
 *
 * json_encode, json_decode and md5 are parameters of the client (`encode`
 * returns "" when encoding fails, `decode` returns None for null). The HTTP
 * endpoint and the memcache server are objects whose state the client
 * changes; the clock is a parameter of each operation.
 */
module Client {
  import opened Wrappers
  import opened PhpStrings
  import opened PhpValues
  import opened Json
  import opened Rpc
  import opened Params
  import opened Config

  /** What one POST gives back: the response body, or cURL's error message. */
  datatype Reply = Body(text: string) | Broken(diagnostic: string)

  /** The API endpoint: the bodies posted to it so far, and the reply it gives to the n-th one. */
  class Transport {
    const respond: (nat, string) -> Reply
    var sent: seq<string>

    constructor(respond: (nat, string) -> Reply)
      ensures this.respond == respond && sent == []
    {
      this.respond := respond;
      sent := [];
    }

    /** One curl_exec: the body is posted and the endpoint's reply returned. */
    method Post(body: string) returns (reply: Reply)
      modifies this
      ensures sent == old(sent) + [body]
      ensures reply == respond(|old(sent)|, body)
    {
      reply := respond(|sent|, body);
      sent := sent + [body];
    }
  }

  /** A value held by the cache server, with the expiration it was stored with. */
  datatype CacheEntry = CacheEntry(body: string, expiration: int)

  /** The memcache or memcached server: the entries it holds, by key. */
  class CacheServer {
    var entries: map<string, CacheEntry>

    constructor(entries: map<string, CacheEntry>)
      ensures this.entries == entries
    {
      this.entries := entries;
    }

    /** `$cache->get($key)`: the stored body, or nothing for a key the server does not hold. */
    method Lookup(key: string) returns (body: Option<string>)
      ensures body.Some? <==> key in entries
      ensures body.Some? ==> body.value == entries[key].body
    {
      body := if key in entries then Some(entries[key].body) else None;
    }

    /** `$cache->set($key, $body, ..., $expiration)`: the key now holds the body; no other key changes. */
    method Store(key: string, body: string, expiration: int)
      modifies this
      ensures entries == old(entries)[key := CacheEntry(body, expiration)]
    {
      entries := entries[key := CacheEntry(body, expiration)];
    }
  }

  /** What a client is made of besides its two peers: the token, the settings and the three library functions. */
  datatype Setup = Setup(
    token: string,
    settings: Settings,
    encode: Json -> string,
    decode: string -> Option<Json>,
    md5: string -> string)

  /** `$this->_cache` is set: one of the two cache extensions was configured. */
  predicate CacheOn(s: Setup) {
    s.settings.cache.Some?
  }

  /** The cache key of a request. */
  function CacheKey(s: Setup, json: string): (k: string)
    ensures |k| >= 8 && k[..8] == "PnopApi_" && k[8..] == s.md5(json)
  {
    "PnopApi_" + s.md5(json)
  }

  /** The cache serves this request: caching is on and the key holds a body that `empty()` does not reject. */
  predicate Hit(s: Setup, entries: map<string, CacheEntry>, json: string) {
    CacheOn(s) && CacheKey(s, json) in entries && !EmptyString(entries[CacheKey(s, json)].body)
  }

  /** Every entry holds a body that would count as a hit. */
  predicate NonEmptyEntries(entries: map<string, CacheEntry>) {
    forall k :: k in entries ==> !EmptyString(entries[k].body)
  }

  /** The effect of a request or of a step of one: its result, the cache entries afterwards, and what was posted. */
  datatype Exchange<T> = Exchange(result: Result<T, ApiError>, entries: map<string, CacheEntry>, posted: seq<string>)

  /**
   * prepareJson: no request (None) when the method name is falsy or the
   * params are not an array; otherwise the encoded request object, with the
   * token added to the params. An empty encoding throws.
   */
  function PrepareJson(s: Setup, name: string, params: Json, now: real): (r: Result<Option<string>, ApiError>)
    ensures r == Ok(None) <==> !Truthy(Str(name)) || !IsArray(params)
    ensures r.Err? ==> r.error == EncodeFailed
    ensures Truthy(Str(name)) && IsArray(params) ==>
      var json := s.encode(Envelope(name, WithToken(params, s.token), RequestId(CacheOn(s), now)));
      r == if EmptyString(json) then Err(EncodeFailed) else Ok(Some(json))
  {
    if !Truthy(Str(name)) || !IsArray(params) then Ok(None)
    else
      var json := s.encode(Envelope(name, WithToken(params, s.token), RequestId(CacheOn(s), now)));
      if EmptyString(json) then Err(EncodeFailed) else Ok(Some(json))
  }

  /** getResult: json_decode, then the dispatch on the decoded response. */
  function GetResult(s: Setup, body: string): (r: Result<Json, ApiError>)
    ensures r == Err(DecodeFailed) <==> s.decode(body).None? || Empty(s.decode(body).value)
    ensures r.Ok? ==> IsArray(s.decode(body).value)
    ensures r.Ok? && s.decode(body).value.JObject? && "result" !in Keys(s.decode(body).value.members) ==> r.value == JString("")
    ensures r.Err? && r.error.RemoteError? ==>
      s.decode(body).value.JObject? && "result" !in Keys(s.decode(body).value.members) && "error" in Keys(s.decode(body).value.members)
  {
    Dispatch(s.decode(body))
  }

  /**
   * processRequest on the cache server's `entries` when the endpoint
   * answers the n-th post with `respond`: a hit returns the cached body
   * without posting; otherwise the request is posted, a cURL error throws,
   * and a non-empty body is stored under the request's key when caching is
   * on.
   */
  function Fetch(s: Setup, entries: map<string, CacheEntry>, json: string, respond: (nat, string) -> Reply, n: nat): (x: Exchange<string>)
    ensures x.posted == if Hit(s, entries, json) then [] else [json]
    ensures Hit(s, entries, json) ==> x.result == Ok(entries[CacheKey(s, json)].body) && x.entries == entries
    ensures !Hit(s, entries, json) ==>
      match respond(n, json)
      case Broken(d) => x.result == Err(TransportFailed(d))
      case Body(t) => x.result == Ok(t)
    ensures !Hit(s, entries, json) ==>
      x.entries == if CacheOn(s) && respond(n, json).Body? && !EmptyString(respond(n, json).text)
                   then entries[CacheKey(s, json) := CacheEntry(respond(n, json).text, s.settings.cacheExpiration)]
                   else entries
    ensures x.entries != entries ==>
      && CacheOn(s) && x.result.Ok? && !EmptyString(x.result.value)
      && x.entries == entries[CacheKey(s, json) := CacheEntry(x.result.value, s.settings.cacheExpiration)]
  {
    var key := CacheKey(s, json);
    if Hit(s, entries, json) then Exchange(Ok(entries[key].body), entries, [])
    else
      match respond(n, json)
      case Broken(d) => Exchange(Err(TransportFailed(d)), entries, [json])
      case Body(t) =>
        var stored := if !EmptyString(t) && CacheOn(s) then entries[key := CacheEntry(t, s.settings.cacheExpiration)] else entries;
        Exchange(Ok(t), stored, [json])
  }

  /** The text handed to processRequest: a falsy argument throws first, and a missing request is passed on as "". */
  function RequestText(s: Setup, name: string, params: Result<seq<Member>, ApiError>, now: real): (r: Result<string, ApiError>)
    ensures params.Err? ==> r == Err(params.error)
    ensures params.Ok? && !Truthy(Str(name)) ==> r == Ok("")
    ensures params.Ok? && Truthy(Str(name)) ==> r == Err(EncodeFailed) || (r.Ok? && !EmptyString(r.value))
  {
    match params
    case Err(e) => Err(e)
    case Ok(p) =>
      match PrepareJson(s, name, JObject(p), now)
      case Err(e) => Err(e)
      case Ok(json) => Ok(if json.Some? then json.value else "")
  }

  /** A whole public operation: its params, the request text, processRequest and getResult. */
  function Call(s: Setup, name: string, params: Result<seq<Member>, ApiError>, now: real,
                entries: map<string, CacheEntry>, respond: (nat, string) -> Reply, n: nat): (c: Exchange<Json>)
    ensures |c.posted| <= 1
    ensures params.Err? ==> c == Exchange(Err(params.error), entries, [])
  {
    match RequestText(s, name, params, now)
    case Err(e) => Exchange(Err(e), entries, [])
    case Ok(json) =>
      var x := Fetch(s, entries, json, respond, n);
      var result := match x.result
        case Err(e) => Err(e)
        case Ok(body) => GetResult(s, body);
      Exchange(result, x.entries, x.posted)
  }

  /** processRequest keeps the cache free of entries that would not be served: only non-empty bodies are stored. */
  lemma FetchKeepsEntriesNonEmpty(s: Setup, entries: map<string, CacheEntry>, json: string, respond: (nat, string) -> Reply, n: nat)
    requires NonEmptyEntries(entries)
    ensures NonEmptyEntries(Fetch(s, entries, json, respond, n).entries)
  {
  }

  /** A client without a cache posts every request and never writes to the cache server. */
  lemma UncachedFetchAlwaysPosts(s: Setup, entries: map<string, CacheEntry>, json: string, respond: (nat, string) -> Reply, n: nat)
    requires !CacheOn(s)
    ensures Fetch(s, entries, json, respond, n).posted == [json]
    ensures Fetch(s, entries, json, respond, n).entries == entries
  {
  }

  /** A cURL error throws and leaves the cache as it was. */
  lemma TransportFailureStoresNothing(s: Setup, entries: map<string, CacheEntry>, json: string, respond: (nat, string) -> Reply, n: nat)
    requires !Hit(s, entries, json) && respond(n, json).Broken?
    ensures Fetch(s, entries, json, respond, n) == Exchange(Err(TransportFailed(respond(n, json).diagnostic)), entries, [json])
  {
  }

  /**
   * With a cache, once processRequest has returned a non-empty body for a
   * request, the same request is answered with that body from the cache,
   * whatever the endpoint would now reply, and nothing is posted.
   */
  lemma RepeatedFetchServedFromCache(s: Setup, entries: map<string, CacheEntry>, json: string,
                                     respond: (nat, string) -> Reply, n: nat, respond': (nat, string) -> Reply, n': nat)
    requires CacheOn(s)
    requires Fetch(s, entries, json, respond, n).result.Ok? && !EmptyString(Fetch(s, entries, json, respond, n).result.value)
    ensures var x := Fetch(s, entries, json, respond, n);
      Fetch(s, x.entries, json, respond', n') == Exchange(x.result, x.entries, [])
  {
    var x := Fetch(s, entries, json, respond, n);
    assert Hit(s, x.entries, json);
  }

  /** An empty body is returned but not kept: the same request goes to the endpoint again. */
  lemma EmptyReplyIsFetchedAgain(s: Setup, entries: map<string, CacheEntry>, json: string,
                                 respond: (nat, string) -> Reply, n: nat, respond': (nat, string) -> Reply, n': nat)
    requires !Hit(s, entries, json) && respond(n, json).Body? && EmptyString(respond(n, json).text)
    ensures var x := Fetch(s, entries, json, respond, n);
      x.entries == entries && Fetch(s, x.entries, json, respond', n').posted == [json]
  {
  }

  /**
   * For a truthy method name and any params the operations build,
   * prepareJson never returns null: the text posted is the encoded request
   * object, or encoding fails.
   */
  lemma OperationRequestText(s: Setup, name: string, p: seq<Member>, now: real)
    requires Truthy(Str(name))
    ensures var json := s.encode(Envelope(name, WithToken(JObject(p), s.token), RequestId(CacheOn(s), now)));
      RequestText(s, name, Ok(p), now) == if EmptyString(json) then Err(EncodeFailed) else Ok(json)
  {
  }

  /** With a cache the request id is the constant 1, so a request does not depend on the clock. */
  lemma CachedRequestIgnoresClock(s: Setup, name: string, params: Result<seq<Member>, ApiError>, now: real, now': real,
                                  entries: map<string, CacheEntry>, respond: (nat, string) -> Reply, n: nat)
    requires CacheOn(s)
    ensures RequestText(s, name, params, now) == RequestText(s, name, params, now')
    ensures Call(s, name, params, now, entries, respond, n) == Call(s, name, params, now', entries, respond, n)
  {
    assert RequestId(CacheOn(s), now) == RequestId(CacheOn(s), now');
  }

  /** Without a cache, two requests read at different clocks carry different ids. */
  lemma UncachedRequestCarriesClock(s: Setup, name: string, p: seq<Member>, now: real, now': real)
    requires !CacheOn(s) && now != now'
    ensures Envelope(name, WithToken(JObject(p), s.token), RequestId(CacheOn(s), now))
         != Envelope(name, WithToken(JObject(p), s.token), RequestId(CacheOn(s), now'))
  {
    var e := Envelope(name, WithToken(JObject(p), s.token), RequestId(CacheOn(s), now));
    var e' := Envelope(name, WithToken(JObject(p), s.token), RequestId(CacheOn(s), now'));
    assert e.members[3] != e'.members[3];
  }

  /**
   * A repeated operation on a cached client: once a call has fetched a
   * non-empty body, the same call, at any clock reading, gives the same
   * result from the cache and posts nothing.
   */
  lemma RepeatedCallServedFromCache(s: Setup, name: string, params: Result<seq<Member>, ApiError>, now: real, now': real,
                                    entries: map<string, CacheEntry>, respond: (nat, string) -> Reply, n: nat,
                                    respond': (nat, string) -> Reply, n': nat)
    requires CacheOn(s) && RequestText(s, name, params, now).Ok?
    requires var x := Fetch(s, entries, RequestText(s, name, params, now).value, respond, n);
      x.result.Ok? && !EmptyString(x.result.value)
    ensures var c := Call(s, name, params, now, entries, respond, n);
      Call(s, name, params, now', c.entries, respond', n') == Exchange(c.result, c.entries, [])
  {
    CachedRequestIgnoresClock(s, name, params, now, now', entries, respond, n);
    var json := RequestText(s, name, params, now).value;
    RepeatedFetchServedFromCache(s, entries, json, respond, n, respond', n');
  }

  /** search's request carries the token as the last member of its params. */
  lemma SearchTokenGoesLast(s: Setup, q: string, page: Arg, limit: Arg, mediaType: Arg, imageSize: Arg)
    ensures var p := SearchMembers(q, page, limit, mediaType, imageSize);
      WithToken(JObject(p), s.token) == p + [("token", JString(s.token))]
  {
    GetSearchMembers(q, page, limit, mediaType, imageSize, "token");
    TokenAppended(SearchMembers(q, page, limit, mediaType, imageSize), s.token);
  }

  /** The client object. */
  class FilmTiedApi {
    const setup: Setup
    const transport: Transport
    const server: CacheServer

    /** The options are read once; the server stands for the one the cache options name. */
    constructor(token: string, options: map<string, Arg>, encode: Json -> string, decode: string -> Option<Json>,
                md5: string -> string, transport: Transport, server: CacheServer)
      ensures setup.token == token && setup.settings == Resolve(options)
      ensures setup.encode == encode && setup.decode == decode && setup.md5 == md5
      ensures this.transport == transport && this.server == server
    {
      setup := Setup(token, Resolve(options), encode, decode, md5);
      this.transport := transport;
      this.server := server;
    }

    /** processRequest, as Fetch states it. */
    method ProcessRequest(json: string) returns (r: Result<string, ApiError>)
      modifies transport, server
      ensures var x := Fetch(setup, old(server.entries), json, transport.respond, |old(transport.sent)|);
        r == x.result && server.entries == x.entries && transport.sent == old(transport.sent) + x.posted
    {
      var key := CacheKey(setup, json);
      var cached: Option<string> := None;
      if CacheOn(setup) {
        cached := server.Lookup(key);
      }
      if cached.Some? && !EmptyString(cached.value) {
        return Ok(cached.value);
      }
      var reply := transport.Post(json);
      match reply
      case Broken(d) =>
        r := Err(TransportFailed(d));
      case Body(t) =>
        if !EmptyString(t) && CacheOn(setup) {
          server.Store(key, t, setup.settings.cacheExpiration);
        }
        r := Ok(t);
    }

    /** The sequence every public operation runs once its params are built. */
    method Perform(name: string, params: Result<seq<Member>, ApiError>, now: real) returns (r: Result<Json, ApiError>)
      modifies transport, server
      ensures var c := Call(setup, name, params, now, old(server.entries), transport.respond, |old(transport.sent)|);
        r == c.result && server.entries == c.entries && transport.sent == old(transport.sent) + c.posted
    {
      var text := RequestText(setup, name, params, now);
      if text.Err? {
        return Err(text.error);
      }
      var body := ProcessRequest(text.value);
      if body.Err? {
        return Err(body.error);
      }
      r := GetResult(setup, body.value);
    }

    /** changeUrl($imdbUrl), read at clock `now`. */
    method ChangeUrl(url: Arg, now: real) returns (r: Result<Json, ApiError>)
      modifies transport, server
      ensures var c := Call(setup, "changeUrl", ChangeUrlParams(url), now, old(server.entries), transport.respond, |old(transport.sent)|);
        r == c.result && server.entries == c.entries && transport.sent == old(transport.sent) + c.posted
    {
      r := Perform("changeUrl", ChangeUrlParams(url), now);
    }

    /** get($url, $imageSize = 2), read at clock `now`. */
    method Get(url: Arg, now: real, imageSize: Arg := Int(2)) returns (r: Result<Json, ApiError>)
      modifies transport, server
      ensures var c := Call(setup, "get", GetParams(url, imageSize), now, old(server.entries), transport.respond, |old(transport.sent)|);
        r == c.result && server.entries == c.entries && transport.sent == old(transport.sent) + c.posted
    {
      r := Perform("get", GetParams(url, imageSize), now);
    }

    /** search($query, $page = 1, $limit = 15, $type = null, $imageSize = 2), read at clock `now`. */
    method Search(query: Arg, now: real, page: Arg := Int(1), limit: Arg := Int(15), mediaType: Arg := Null,
                  imageSize: Arg := Int(2)) returns (r: Result<Json, ApiError>)
      modifies transport, server
      ensures var c := Call(setup, "search", SearchParams(query, page, limit, mediaType, imageSize), now,
                            old(server.entries), transport.respond, |old(transport.sent)|);
        r == c.result && server.entries == c.entries && transport.sent == old(transport.sent) + c.posted
    {
      r := Perform("search", SearchParams(query, page, limit, mediaType, imageSize), now);
    }
  }
}
