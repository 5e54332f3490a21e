/**
 * The JSON-RPC 2.0 side of the client: the request object it builds
 * (section 4 of the JSON-RPC 2.0 Specification, "Request object") and the
 * dispatch on the decoded response object, together with the ways a call
 * can fail.
 */
module Rpc {
  import opened Wrappers
  import opened Json

  /** The exceptions the client throws, by cause. */
  datatype ApiError =
    | MissingParam                 // a required argument is falsy
    | EncodeFailed                 // json_encode produced nothing
    | TransportFailed(diagnostic: string)  // cURL reported an error
    | DecodeFailed                 // json_decode gave an empty value
    | NotAnArray                   // the decoded value is a non-empty scalar
    | RemoteError(message: Json)   // the service answered with `error`

  const JsonRpcVersion: string := "2.0"

  /** The request id: the constant 1 when a cache is configured, the clock reading otherwise. */
  function RequestId(cacheOn: bool, now: real): (id: Json)
    ensures cacheOn ==> id == JInt(1)
    ensures !cacheOn ==> id == JFloat(now)
  {
    if cacheOn then JInt(1) else JFloat(now)
  }

  /** `$params['token'] = $token` on the caller's params. */
  function WithToken(params: Json, token: string): (p: seq<Member>)
    requires IsArray(params)
    ensures Get(p, "token") == Some(JString(token))
    ensures forall k :: k != "token" ==> Get(p, k) == Get(ArrayMembers(params), k)
    ensures var before := Keys(ArrayMembers(params));
      Keys(p) == if "token" in before then before else before + ["token"]
  {
    var before := ArrayMembers(params);
    forall k ensures Get(Put(before, "token", JString(token)), k) == if k == "token" then Some(JString(token)) else Get(before, k) {
      GetPut(before, "token", JString(token), k);
    }
    Put(before, "token", JString(token))
  }

  /** Params without a token of their own get it appended as their last member. */
  lemma TokenAppended(params: seq<Member>, token: string)
    requires "token" !in Keys(params)
    ensures WithToken(JObject(params), token) == params + [("token", JString(token))]
  {
    assert ArrayMembers(JObject(params)) == params;
  }

  /** The request object, with its members in the order jsonrpc, method, params, id. */
  function Envelope(name: string, params: seq<Member>, id: Json): (e: Json)
    ensures e.JObject? && Keys(e.members) == ["jsonrpc", "method", "params", "id"]
    ensures Get(e.members, "jsonrpc") == Some(JString(JsonRpcVersion)) && Get(e.members, "method") == Some(JString(name))
    ensures Get(e.members, "params") == Some(JObject(params)) && Get(e.members, "id") == Some(id)
  {
    var m1 := [("jsonrpc", JString(JsonRpcVersion))];
    var m2 := m1 + [("method", JString(name))];
    var m3 := m2 + [("params", JObject(params))];
    var m := m3 + [("id", id)];
    assert [] + m1 == m1;
    KeysAppend([], m1);
    KeysAppend(m1, [("method", JString(name))]);
    KeysAppend(m2, [("params", JObject(params))]);
    KeysAppend(m3, [("id", id)]);
    GetAppend([], m1[0], "jsonrpc");
    GetAppend(m1, m2[1], "jsonrpc");
    GetAppend(m2, m3[2], "jsonrpc");
    GetAppend(m3, m[3], "jsonrpc");
    GetAppend(m2, m3[2], "method");
    GetAppend(m3, m[3], "method");
    GetAppend(m3, m[3], "params");
    JObject(m)
  }

  /** `$data['error']['message']`: null unless the error is an object with a message. */
  function ErrorMessage(error: Json): (m: Json)
    ensures error.JObject? && "message" in Keys(error.members) ==> Some(m) == Get(error.members, "message")
    ensures !(error.JObject? && "message" in Keys(error.members)) ==> m == JNull
  {
    match error
    case JObject(members) => Index(members, "message")
    case _ => JNull
  }

  /**
   * What getResult makes of the decoded response (None when json_decode
   * returned null): an empty value throws; otherwise `result` wins, then
   * `error` throws its message, and a response with neither gives "".
   */
  function Dispatch(decoded: Option<Json>): (r: Result<Json, ApiError>)
    ensures (decoded.None? || Empty(decoded.value)) ==> r == Err(DecodeFailed)
    ensures r == Err(NotAnArray) <==> decoded.Some? && !Empty(decoded.value) && !IsArray(decoded.value)
    ensures decoded.Some? && decoded.value.JObject? && !Empty(decoded.value) ==>
      var m := decoded.value.members;
      r == if "result" in Keys(m) then Ok(Index(m, "result"))
           else if "error" in Keys(m) then Err(RemoteError(ErrorMessage(Index(m, "error"))))
           else Ok(JString(""))
    ensures decoded.Some? && decoded.value.JList? && !Empty(decoded.value) ==> r == Ok(JString(""))
  {
    match decoded
    case None => Err(DecodeFailed)
    case Some(data) =>
      if Empty(data) then Err(DecodeFailed)
      else if !IsArray(data) then Err(NotAnArray)
      else
        var m := ArrayMembers(data);
        assert data.JList? ==> "result" !in Keys(m) && "error" !in Keys(m) by {
          if data.JList? {
            ListKeysAreIndexes(data.items, "result");
            ListKeysAreIndexes(data.items, "error");
          }
        }
        if "result" in Keys(m) then Ok(Index(m, "result"))
        else if "error" in Keys(m) then Err(RemoteError(ErrorMessage(Index(m, "error"))))
        else Ok(JString(""))
  }

  /** A `result` member is returned as it is, null included, even when an `error` member is present too. */
  lemma ResultWinsOverError(m: seq<Member>, v: Json)
    requires Get(m, "result") == Some(v)
    ensures Dispatch(Some(JObject(m))) == Ok(v)
  {
  }
}
