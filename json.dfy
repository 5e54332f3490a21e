/**
 * JSON values as the client sends and receives them, and the PHP array
 * operations it performs on objects: reading `$a[$k]`, testing
 * array_key_exists and assigning `$a[$k] = $v`. An object is an ORDERED list
 * of members, because the order of keys is part of the serialized text and
 * hence of the cache key.
 */
module Json {
  import opened Wrappers
  import opened PhpStrings

  datatype Json =
    | JNull
    | JBool(b: bool)
    | JInt(i: int)
    | JFloat(r: real)
    | JString(s: string)
    | JList(items: seq<Json>)
    | JObject(members: seq<(string, Json)>)

  type Member = (string, Json)

  /** The keys of an object, in order. */
  function Keys(a: seq<Member>): (ks: seq<string>)
    ensures |ks| == |a|
  {
    if a == [] then [] else Keys(a[..|a| - 1]) + [a[|a| - 1].0]
  }

  lemma {:induction false} KeysAppend(a: seq<Member>, b: seq<Member>)
    ensures Keys(a + b) == Keys(a) + Keys(b)
  {
    if b == [] {
      assert a + b == a;
    } else {
      var ab := a + b;
      assert ab[..|ab| - 1] == a + b[..|b| - 1];
      KeysAppend(a, b[..|b| - 1]);
      assert Keys(ab) == Keys(a + b[..|b| - 1]) + [b[|b| - 1].0];
    }
  }

  lemma {:induction false} KeysAt(a: seq<Member>, i: nat)
    requires i < |a|
    ensures Keys(a)[i] == a[i].0
  {
    if i < |a| - 1 {
      KeysAt(a[..|a| - 1], i);
    }
  }

  /** The value under key `k`; for a repeated key the last one, as json_decode keeps it. */
  function Get(a: seq<Member>, k: string): (r: Option<Json>)
    ensures r.Some? <==> k in Keys(a)
  {
    if a == [] then None
    else if a[|a| - 1].0 == k then Some(a[|a| - 1].1)
    else Get(a[..|a| - 1], k)
  }

  /** Appending a member makes it the one found under its key and hides nothing else. */
  lemma GetAppend(a: seq<Member>, m: Member, k: string)
    ensures Get(a + [m], k) == if m.0 == k then Some(m.1) else Get(a, k)
  {
    assert (a + [m])[..|a|] == a;
  }

  /** `$a[$k]` when reading: the value, or null when the key is missing. */
  function Index(a: seq<Member>, k: string): (v: Json)
    ensures k !in Keys(a) ==> v == JNull
    ensures k in Keys(a) ==> Some(v) == Get(a, k)
  {
    match Get(a, k)
    case Some(v) => v
    case None => JNull
  }

  /** Every member under key `k` gets the value `v`; the order is kept. */
  function Replace(a: seq<Member>, k: string, v: Json): (r: seq<Member>)
    ensures Keys(r) == Keys(a)
  {
    if a == [] then []
    else
      var init := Replace(a[..|a| - 1], k, v);
      var last := if a[|a| - 1].0 == k then (k, v) else a[|a| - 1];
      var r := init + [last];
      assert r[..|r| - 1] == init;
      r
  }

  lemma {:induction false} GetReplace(a: seq<Member>, k: string, v: Json, k': string)
    ensures Get(Replace(a, k, v), k') == if k' == k && k in Keys(a) then Some(v) else Get(a, k')
  {
    if a != [] {
      var init := a[..|a| - 1];
      var last := if a[|a| - 1].0 == k then (k, v) else a[|a| - 1];
      GetReplace(init, k, v, k');
      GetAppend(Replace(init, k, v), last, k');
      assert Keys(a) == Keys(init) + [a[|a| - 1].0];
    }
  }

  /**
   * `$a[$k] = $v`: an existing key keeps its place and takes the new value,
   * a new key is appended at the end.
   */
  function Put(a: seq<Member>, k: string, v: Json): (r: seq<Member>)
    ensures Keys(r) == if k in Keys(a) then Keys(a) else Keys(a) + [k]
  {
    if k in Keys(a) then Replace(a, k, v)
    else
      var r := a + [(k, v)];
      assert r[..|r| - 1] == a;
      r
  }

  /** After `$a[$k] = $v`, `$k` holds `$v` and every other key holds what it held. */
  lemma GetPut(a: seq<Member>, k: string, v: Json, k': string)
    ensures Get(Put(a, k, v), k') == if k' == k then Some(v) else Get(a, k')
  {
    if k in Keys(a) {
      GetReplace(a, k, v, k');
    } else {
      GetAppend(a, (k, v), k');
    }
  }

  /** is_array($v): a JSON list or object. */
  predicate IsArray(v: Json) {
    v.JList? || v.JObject?
  }

  /** A PHP array as key/value members; a list's keys are its indexes 0, 1, 2, ... */
  function ArrayMembers(v: Json): seq<Member>
    requires IsArray(v)
  {
    match v
    case JObject(m) => m
    case JList(items) => seq(|items|, i requires 0 <= i < |items| => (NatToString(i), items[i]))
  }

  /** A list's keys are its indexes, so a key that does not start with a digit is never among them. */
  lemma ListKeysAreIndexes(items: seq<Json>, k: string)
    requires k != [] && !IsDigit(k[0])
    ensures k !in Keys(ArrayMembers(JList(items)))
  {
    var a := ArrayMembers(JList(items));
    if k in Keys(a) {
      var i :| 0 <= i < |a| && Keys(a)[i] == k;
      KeysAt(a, i);
      assert false;
    }
  }

  /** empty($v) on a decoded value: null, false, 0, 0.0, "", "0" and the empty array. */
  predicate Empty(v: Json) {
    match v
    case JNull => true
    case JBool(b) => !b
    case JInt(i) => i == 0
    case JFloat(r) => r == 0.0
    case JString(s) => s == "" || s == "0"
    case JList(items) => items == []
    case JObject(members) => members == []
  }
}
