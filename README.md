# FilmTiedApi client, modelled in Dafny

FilmTiedApi is a small PHP client for the FilmTied JSON-RPC 2.0 web
service. It has three public operations: `changeUrl`, which finds the FilmTied item for an IMDb URL; `get`, which reads an item; and `search`.
Each operation does the same four things:

1. It checks and builds its parameters.
2. `prepareJson` wraps them in a JSON-RPC request object and adds the caller's token.
3. `processRequest` either answers from a memcache/memcached server or POSTs the request with cURL. With a cache, it stores a non-empty answer.
4. `getResult` decodes the response. It returns `result`, throws the message of `error`, or returns `""`.

The model follows the PHP 8 reading of the loose rules the client relies on:

- **Truthiness.** `null`, `0`, `""` and `"0"` are false.
- **`is_numeric`.** PHP 8 accepts leading and trailing whitespace.
- **The `(int)` cast.** It takes the leading numeral, exponent included, and truncates.
- **`trim`.** It strips `" \t\n\r\0\x0B"`.
- **`$x == 'word'`.** Against a non-numeric word, this compares as text.

Modules, one per file:

- `PhpStrings` (php_strings.dfy): PHP's `trim`, and the decimal spelling of integers.
- `PhpNumeric` (php_numeric.dfy): `is_numeric` and `(int)` on strings, built on one numeral grammar.
- `PhpValues` (php_values.dfy): the argument values (`null`, integers, strings), truthiness, the casts, `empty()` on a string, and `==` against a word.
- `Json` (json.dfy): JSON values. A PHP array is an ordered member sequence; `$a[k] = v` replaces a member in place or appends one.
- `Rpc` (rpc.dfy): the request object, the dispatch on the decoded response, and the exceptions as an `ApiError` datatype.
- `Params` (params.dfy): the guards and optional parameters of the three operations.
- `Config` (config.dfy): how the constructor reads its options.
- `Client` (client.dfy): the client class and its two peers.
  - The `Transport` class is the HTTP endpoint. It logs every posted body.
  - The `CacheServer` class holds the cache entries.
  - `ProcessRequest`, `Perform`, `ChangeUrl`, `Get` and `Search` are the methods that change their state.
  - The functions `Fetch` and `Call` specify those methods.

`Wrappers` (wrappers.dfy) holds `Option` and `Result`.

These things stay outside the model. Each one becomes a parameter instead:

- `json_encode`, as a function. An empty string stands for failure.
- `json_decode`, as a function. `None` stands for `null`.
- `md5`, as a function.
- The endpoint's replies, as a function of the post's index and body.
- `microtime(true)`, as the `now` argument of each operation.

An exception is an `Err` result.

Three behaviours of the code that are easy to misread:

- **changeUrl's guard.** changeUrl tests the URL before trimming it (FilmTiedApi.php:249). A blank but non-empty URL therefore passes and is sent as `""`. `ChangeUrlSendsBlankAsEmpty` and `BlankPassesChangeUrlNotSearch` state this.
- **Parameter order.** The parameters are an ordered PHP array, not a mapping whose order does not matter. The model keeps the order the code sets them in, with the token last.
- **Non-array responses.** A response that decodes to a non-empty scalar is an error, `NotAnArray`. This is where PHP 8 throws a TypeError inside `array_key_exists`.

## Model

| member | source | states |
|---|---|---|
| PhpStrings.TrimLeft | FilmTiedApi.php:299 | the result is a suffix of the input, everything dropped is a trim character, and it does not start with one |
| PhpStrings.TrimRight | FilmTiedApi.php:299 | the result is a prefix of the input, everything dropped is a trim character, and it does not end with one |
| PhpStrings.Trim | FilmTiedApi.php:299 | trim() is empty exactly when the input is all trim characters; otherwise it starts and ends with a non-trim character |
| PhpStrings.TrimIsInfix | FilmTiedApi.php:299 | trim() removes only a leading and a trailing run of trim characters, keeping a contiguous infix |
| PhpStrings.TrimKeeps | FilmTiedApi.php:299 | a string whose ends are not trim characters is left unchanged |
| PhpStrings.TrimIdempotent | FilmTiedApi.php:299 | trimming twice is trimming once |
| PhpStrings.NatToString | FilmTiedApi.php:253 | the decimal spelling of a natural number is non-empty, all digits, has no leading zero and reads back as the number |
| PhpStrings.IntToString | FilmTiedApi.php:253 | (string) of an integer is non-empty, starts with a digit or '-', and is "0" exactly for 0 |
| PhpNumeric.SpaceSpan | FilmTiedApi.php:276 | the whitespace run a numeric string may start with is the longest such run |
| PhpNumeric.DigitSpan | FilmTiedApi.php:276 | the digit run of a numeral is the longest such run |
| PhpNumeric.Exponent | FilmTiedApi.php:277 | an exponent part, when one is read, starts with `e` or `E` and ends with a digit; when none is read nothing is consumed and the exponent is 0 |
| PhpNumeric.ParseNumeral | FilmTiedApi.php:276-277 | the leading numeral lies within the string; its whole and fractional parts are digit runs, not both empty |
| PhpNumeric.SignedDigitsParse | FilmTiedApi.php:276-277 | a string of an optional minus sign and digits is a single numeral with that sign and those digits, ending at the string's end |
| PhpNumeric.IntSpellingParses | FilmTiedApi.php:276-277 | an integer's spelling parses as its sign and its digits, with no fraction or exponent, and nothing after them |
| PhpNumeric.IntSpellingIsNumeric | FilmTiedApi.php:276-277 | an integer's decimal spelling is a numeric string whose (int) cast is that integer |
| PhpNumeric.NumeralValue | FilmTiedApi.php:277 | a numeral's value, scaled by its exponent and truncated toward zero, as (int) truncates the float the numeral denotes (a definition) |
| PhpNumeric.IsNumericString | FilmTiedApi.php:276 | is_numeric on a string: a leading numeral followed only by whitespace (a definition) |
| PhpNumeric.StrToInt | FilmTiedApi.php:277 | (int) on a string: the value of its leading numeral, 0 when it has none (a definition) |
| PhpValues.LooseEqualsWord | FilmTiedApi.php:319 | `==` against a word starting with a letter holds exactly for that string, not for null or any integer |
| PhpValues.IntSpellingActsAsInt | FilmTiedApi.php:276-277 | a string spelling an integer is truthy, numeric and cast exactly as the integer is |
| PhpValues.Truthy | FilmTiedApi.php:249 | PHP truthiness of an argument: null, 0, "" and "0" are false (a definition) |
| PhpValues.IsNumeric | FilmTiedApi.php:276 | is_numeric: every integer, no null, and a string by IsNumericString (a definition) |
| PhpValues.ToInt | FilmTiedApi.php:277 | the (int) cast: null is 0, an integer is itself, a string goes by StrToInt (a definition) |
| PhpValues.ToStr | FilmTiedApi.php:253 | the string trim() receives: null is "", an integer its decimal spelling (a definition) |
| PhpValues.EmptyString | FilmTiedApi.php:153 | `empty()` on a string holds for "" and "0" (a definition) |
| PhpValues.LooseEqualsText | FilmTiedApi.php:319 | PHP 8 `==` against a non-numeric string: text comparison, an integer by its spelling, null as "" (a definition) |
| Json.Get | FilmTiedApi.php:232 | a key is found exactly when it is among the array's keys |
| Json.GetAppend | FilmTiedApi.php:199 | after appending a member, its key finds the new value and other keys find what they found before |
| Json.Index | FilmTiedApi.php:233 | `$data[$k]` is the value found under the key, null when the key is missing |
| Json.Replace | FilmTiedApi.php:199 | replacing a key's value in place keeps the keys and their order |
| Json.GetReplace | FilmTiedApi.php:199 | after an in-place replacement, the key finds the new value and other keys are unchanged |
| Json.Put | FilmTiedApi.php:199 | `$a[$k] = $v` keeps the keys when `$k` is present, and otherwise appends `$k` as the last key |
| Json.GetPut | FilmTiedApi.php:199 | after `$a[$k] = $v`, `$k` holds `$v` and every other key holds what it held |
| Json.ListKeysAreIndexes | FilmTiedApi.php:232 | a JSON list has no `result` or `error` key, because its keys are its indexes |
| Json.IsArray | FilmTiedApi.php:195 | is_array holds for a JSON list or object (a definition) |
| Json.ArrayMembers | FilmTiedApi.php:232 | a decoded array as members: an object's own members, a list's items under the keys 0, 1, 2, ... (a definition) |
| Json.Empty | FilmTiedApi.php:228 | `empty()` on a decoded value: null, false, 0, 0.0, "", "0" and the empty array (a definition) |
| Rpc.RequestId | FilmTiedApi.php:205 | the id is 1 when a cache is configured and the clock reading otherwise |
| Rpc.Envelope | FilmTiedApi.php:201-206 | the request object has exactly the keys jsonrpc, method, params, id in that order, holding "2.0", the method name, the params and the id |
| Rpc.WithToken | FilmTiedApi.php:199 | the params hold the token under `token`, every other key is unchanged, and `token` is appended unless present |
| Rpc.TokenAppended | FilmTiedApi.php:199 | params without a `token` member get it as their last member |
| Rpc.ErrorMessage | FilmTiedApi.php:235 | the message thrown is the error object's `message`, and null when the error has none |
| Rpc.Dispatch | FilmTiedApi.php:226-238 | an empty or undecodable response throws; a non-array throws; otherwise `result` is returned if present, else `error` throws its message, else "" |
| Rpc.ResultWinsOverError | FilmTiedApi.php:232-235 | a response with a `result` member returns it even when it also carries `error` |
| Params.MediaTypeIsExact | FilmTiedApi.php:319 | a type passes exactly when it is the string "movies" or "tv-series" |
| Params.TruthyNumeric | FilmTiedApi.php:307-317 | the rule for page, limit and imageSize: truthy and is_numeric (a definition) |
| Params.NumericParam | FilmTiedApi.php:307-317 | an optional numeric argument contributes a member exactly when it is truthy and numeric, and then its (int) cast |
| Params.IsMediaType | FilmTiedApi.php:319 | the rule for type: truthy and loosely equal to "movies" or "tv-series" (a definition) |
| Params.MediaTypeParam | FilmTiedApi.php:319-320 | the type contributes a member exactly when it is the string "movies" or "tv-series", and then that string |
| Params.PutOpt | FilmTiedApi.php:307-321 | `if (...) $params[$k] = $v;`: the assignment happens only when there is a value (a definition) |
| Params.SearchLayout | FilmTiedApi.php:305-321 | search's members: query, then page, limit, imageSize and type, each only when it has a value (a definition) |
| Params.PutOptFresh | FilmTiedApi.php:307-321 | setting an optional key the params do not hold yet appends it, or leaves the params alone when there is no value |
| Params.GetOpt | FilmTiedApi.php:307-321 | an optional member is found under its key exactly when it was set |
| Params.ChangeUrlParams | FilmTiedApi.php:249-253 | a falsy URL throws; otherwise the only parameter is the trimmed URL |
| Params.ChangeUrlSendsBlankAsEmpty | FilmTiedApi.php:249-253 | a blank, non-empty URL passes the untrimmed guard and is sent as "" |
| Params.GetParams | FilmTiedApi.php:270-278 | a falsy URL throws; otherwise the URL as given, followed by the (int) imageSize when it is truthy and numeric |
| Params.SearchMembers | FilmTiedApi.php:305-321 | assigning query, page, limit, imageSize and type in turn, each only when its rule passes, yields exactly those present members in that order |
| Params.SearchParams | FilmTiedApi.php:299-321 | search throws exactly when the trimmed query is falsy; otherwise its params are the members built from the trimmed query |
| Params.GetSearchMembers | FilmTiedApi.php:305-321 | each key of search's params holds the value its rule gives, and any other key is absent |
| Params.SearchParamsLookup | FilmTiedApi.php:299-321 | when search accepts the query, key by key its params hold the trimmed query, page/limit/imageSize present exactly when they pass the rule, type present exactly for "movies" or "tv-series" |
| Params.MembersLookup | FilmTiedApi.php:305-321 | for the members built from a trimmed query: query, page, limit, imageSize and type each hold the value their rule gives |
| Params.BlankQueryRejected | FilmTiedApi.php:299-302 | a query of only trim characters throws |
| Params.BlankPassesChangeUrlNotSearch | FilmTiedApi.php:299-302 | a blank, non-empty string passes changeUrl's guard but fails search's |
| Params.PlainQueryPasses | FilmTiedApi.php:299-305 | a truthy query with no surrounding whitespace is sent unchanged |
| Params.MembersOmitZeroPageAndLimit | FilmTiedApi.php:307-313 | page 0 and limit 0 are omitted, not replaced by their defaults |
| Params.SearchOmitsZeroPageAndLimit | FilmTiedApi.php:297-313 | search(q, 0, 0) sends only the query and the default imageSize 2 |
| Params.MembersAllKeys | FilmTiedApi.php:305-321 | with page 1, limit 3 and type "tv-series", all five members are set in order |
| Params.SearchAllKeys | FilmTiedApi.php:297-321 | search(q, 1, 3, "tv-series") sends query, page, limit, imageSize and type, in that order |
| Params.MembersDropUnknownType | FilmTiedApi.php:319-321 | an unsupported type adds no member |
| Params.SearchDropsUnknownType | FilmTiedApi.php:297-321 | search with an unsupported type drops the type without an error |
| Params.SpacedZeroIsSent | FilmTiedApi.php:307-308 | " 0" is truthy and numeric, so it is sent as 0 |
| Params.GetSpelledSizeIsSame | FilmTiedApi.php:276-277 | an imageSize given as an integer's spelling gives the same params as the integer |
| Config.CacheChoice | FilmTiedApi.php:122-130 | only the exact strings "memcache" and "memcached" select a cache extension |
| Config.Isset | FilmTiedApi.php:118-121 | `isset($params[$k])`: the option is given and is not null (a definition) |
| Config.CacheRequested | FilmTiedApi.php:121 | a cache is asked for when cache, cacheServerAddress and cacheServerPort are all set (a definition) |
| Config.Resolve | FilmTiedApi.php:117-136 | each set option replaces its default, with timeouts cast by (int); the cache is on exactly when all three cache options are set and the type is supported; the expiration is read only then |
| Config.NullOptionsGiveDefaults | FilmTiedApi.php:117-136 | no options, or only null ones, give the defaults: the FilmTied address, 5 s, 5 s, no cache, 600 s |
| Config.CacheNeedsServer | FilmTiedApi.php:121 | without both cache server options no cache is used and the expiration stays 600 |
| Config.UnknownCacheKeepsExpiration | FilmTiedApi.php:121-134 | with an unsupported cache type no cache is used, but a given expiration is still read |
| Config.SpelledTimeoutIsRead | FilmTiedApi.php:120 | a timeout given as a decimal string is read as that number |
| Client.Transport.Post | FilmTiedApi.php:166 | a post is appended to the endpoint's log, and the reply is the endpoint's answer to that post |
| Client.CacheServer.Lookup | FilmTiedApi.php:150 | a cache read finds a body exactly for a held key, and it is that key's body |
| Client.CacheServer.Store | FilmTiedApi.php:174-179 | a cache write sets the key to the body and expiration, and no other key changes |
| Client.PrepareJson | FilmTiedApi.php:193-215 | no request for a falsy method name or non-array params; otherwise the encoded request object with the token added; an empty encoding throws |
| Client.GetResult | FilmTiedApi.php:224-239 | an undecodable or empty body throws; a success is decoded from an array; a decoded object without `result` gives ""; a remote error comes only from an object with `error` and no `result` |
| Client.Fetch | FilmTiedApi.php:146-184 | a cache hit returns the cached body and posts nothing; otherwise one post, whose error throws; the cache changes only by storing a non-empty body under the request's key while caching is on |
| Client.CacheKey | FilmTiedApi.php:149 | the cache key is "PnopApi_" followed by the md5 of the request text |
| Client.Hit | FilmTiedApi.php:148-153 | the cache answers a request when caching is on and its key holds a body `empty()` accepts (a definition) |
| Client.RequestText | FilmTiedApi.php:253-254 | a params error is passed on; a falsy method name gives "" (PHP's null); otherwise the posted text is non-empty, or encoding throws |
| Client.Call | FilmTiedApi.php:253-257 | an operation posts at most once, and one whose params throw changes nothing |
| Client.FetchKeepsEntriesNonEmpty | FilmTiedApi.php:174 | processRequest never stores a body that `empty()` rejects |
| Client.UncachedFetchAlwaysPosts | FilmTiedApi.php:148-153 | without a cache every request is posted and the cache server is not written |
| Client.TransportFailureStoresNothing | FilmTiedApi.php:168-170 | a cURL error throws its diagnostic and leaves the cache as it was |
| Client.RepeatedFetchServedFromCache | FilmTiedApi.php:148-183 | with a cache, after a non-empty body, the same request is answered from the cache whatever the endpoint would reply, and nothing is posted |
| Client.EmptyReplyIsFetchedAgain | FilmTiedApi.php:153-174 | an empty body is not stored, so the same request is posted again |
| Client.OperationRequestText | FilmTiedApi.php:193-214 | for a truthy method name, prepareJson never returns null: the posted text is the encoded request object, or encoding throws |
| Client.CachedRequestIgnoresClock | FilmTiedApi.php:205 | with a cache, the request and the whole call do not depend on the clock |
| Client.UncachedRequestCarriesClock | FilmTiedApi.php:205 | without a cache, requests built at different clock readings differ |
| Client.RepeatedCallServedFromCache | FilmTiedApi.php:146-184 | with a cache, repeating an operation that fetched a non-empty body gives the same result at any clock reading, and nothing is posted |
| Client.SearchTokenGoesLast | FilmTiedApi.php:199 | search's params carry the token as their last member |
| Client.FilmTiedApi.constructor | FilmTiedApi.php:105-136 | the client keeps its token, the settings read from its options, and its library functions and peers |
| Client.FilmTiedApi.ProcessRequest | FilmTiedApi.php:146-184 | the result, the new cache contents and the posts are those Fetch gives |
| Client.FilmTiedApi.Perform | FilmTiedApi.php:253-257 | params, prepareJson, processRequest and getResult in sequence, with the effect Call gives |
| Client.FilmTiedApi.ChangeUrl | FilmTiedApi.php:247-258 | changeUrl has the effect Call gives for "changeUrl" and its params |
| Client.FilmTiedApi.Get | FilmTiedApi.php:268-285 | get has the effect Call gives for "get" and its params |
| Client.FilmTiedApi.Search | FilmTiedApi.php:297-328 | search has the effect Call gives for "search" and its params |

## Left out

- cURL setup is not modelled: the endpoint URL, the user agent, the headers and the two timeouts. The source also passes `timeOut` as the connect timeout and `connectionTimeOut` as the total timeout (FilmTiedApi.php:157-158). No timeout is observable in this model.
- The `function_exists` checks for json_encode, json_decode and curl_init are not modelled. Those functions are parameters here.
- The internals of json_encode, json_decode and md5 are not modelled; they are parameters. The `json_last_error` message table (FilmTiedApi.php:70-77) is not modelled either. The exception message texts become the `ApiError` cases.
- Connecting to the cache server is not modelled: `connect`, `addServer` and the `(int)` port cast. The cache server is an object the client is given, with whatever entries it already holds.
- Client.CacheServer.Store: memcache's compression flag is not modelled, and neither is expiry. An entry records its expiration but never expires, so a later read still finds it.
- Memcache and memcached differ only in the argument shape of `set`. Both are modelled as storing the body with the expiration.
- The clock is the `now` argument, not a reading of `microtime(true)`.
- Arguments are null, integers or strings. Floats, booleans, arrays and objects as arguments are not modelled.
- If the constructor's options are not an array, the source ignores them. The model takes the options as a map, so such options are not modelled.
- Client.Call: a `null` from prepareJson is passed on as `""`, following PHP's coercion in `md5` and `strlen`. No public operation reaches this path (`OperationRequestText`).
- The (int) cast of a numeral (`NumeralValue`) is exact, with unbounded integers. PHP's 64-bit integers and double-precision floats saturate or round very long or very large numerals differently.
- Rpc.ErrorMessage: an `error` member that is a string is read as having no message. In PHP, indexing a string by `'message'` throws instead.
- The PHP 7 rules are not modelled: `0 == 'memcache'` is true there, and `is_numeric` rejects trailing whitespace. PHP 8's rules are used throughout.
- exampleWithCache.php is a usage script and is not part of this model.
