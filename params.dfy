/**
 * The caller parameters of the three public operations, changeUrl, get
 * and search: the guard on the required argument, and the optional
 * arguments, each added under its own rule.
 */
module Params {
  import opened Wrappers
  import opened PhpStrings
  import opened PhpNumeric
  import opened PhpValues
  import opened Json
  import opened Rpc

  /** `$a && is_numeric($a)`: the rule for page, limit and imageSize. */
  predicate TruthyNumeric(a: Arg) {
    Truthy(a) && IsNumeric(a)
  }

  /** What a page, limit or imageSize argument contributes: its (int) cast when it passes the rule, nothing otherwise. */
  function NumericParam(a: Arg): (r: Option<Json>)
    ensures r.Some? <==> Truthy(a) && IsNumeric(a)
    ensures r.Some? ==> r.value == JInt(ToInt(a))
  {
    if TruthyNumeric(a) then Some(JInt(ToInt(a))) else None
  }

  /** `$type && in_array($type, array('movies', 'tv-series'))`. */
  predicate IsMediaType(a: Arg) {
    Truthy(a) && (LooseEqualsText(a, "movies") || LooseEqualsText(a, "tv-series"))
  }

  /** The accepted type values are exactly the two strings; nothing else passes. */
  lemma MediaTypeIsExact(a: Arg)
    ensures IsMediaType(a) <==> a == Str("movies") || a == Str("tv-series")
  {
    LooseEqualsWord(a, "movies");
    LooseEqualsWord(a, "tv-series");
  }

  /** An argument as the JSON value it is sent as. */
  function ArgToJson(a: Arg): Json {
    match a
    case Null => JNull
    case Int(i) => JInt(i)
    case Str(s) => JString(s)
  }

  /** The member an optional argument contributes: none, or one under key `k`. */
  function Opt(k: string, v: Option<Json>): seq<Member> {
    if v.Some? then [(k, v.value)] else []
  }

  /** `if (...) $params[$k] = $v;`: the member is set when there is a value to set. */
  function PutOpt(p: seq<Member>, k: string, v: Option<Json>): seq<Member> {
    if v.Some? then Put(p, k, v.value) else p
  }

  /** Setting a key the params do not hold yet appends it. */
  lemma PutOptFresh(p: seq<Member>, k: string, v: Option<Json>)
    requires k !in Keys(p)
    ensures PutOpt(p, k, v) == p + Opt(k, v)
    ensures Keys(p + Opt(k, v)) == Keys(p) + (if v.Some? then [k] else [])
  {
    if v.None? {
      assert p + Opt(k, v) == p;
    }
  }

  lemma GetOpt(p: seq<Member>, k: string, v: Option<Json>, k': string)
    ensures Get(p + Opt(k, v), k') == if k' == k && v.Some? then v else Get(p, k')
  {
    if v.Some? {
      GetAppend(p, (k, v.value), k');
    } else {
      assert p + Opt(k, v) == p;
    }
  }

  /** changeUrl: a falsy URL throws; otherwise the single parameter is the trimmed URL. */
  function ChangeUrlParams(url: Arg): (r: Result<seq<Member>, ApiError>)
    ensures r.Err? <==> !Truthy(url)
    ensures r.Err? ==> r.error == MissingParam
    ensures r.Ok? ==> r.value == [("url", JString(Trim(ToStr(url))))]
  {
    if !Truthy(url) then Err(MissingParam)
    else Ok([("url", JString(Trim(ToStr(url))))])
  }

  /**
   * changeUrl tests the URL before trimming it: a blank but non-empty URL
   * passes the guard and is sent as "".
   */
  lemma ChangeUrlSendsBlankAsEmpty(s: string)
    requires s != "" && AllTrimChars(s)
    ensures ChangeUrlParams(Str(s)) == Ok([("url", JString(""))])
  {
    assert IsTrimChar(s[0]);
  }

  /** get: a falsy URL throws; otherwise the URL as given, then imageSize when it passes the numeric rule. */
  function GetParams(url: Arg, imageSize: Arg := Int(2)): (r: Result<seq<Member>, ApiError>)
    ensures r.Err? <==> !Truthy(url)
    ensures r.Err? ==> r.error == MissingParam
    ensures r.Ok? ==> r.value == [("url", ArgToJson(url))] + Opt("imageSize", NumericParam(imageSize))
  {
    if !Truthy(url) then Err(MissingParam)
    else
      var p0 := [("url", ArgToJson(url))];
      assert Keys(p0) == ["url"] by { KeysAppend([], p0); }
      PutOptFresh(p0, "imageSize", NumericParam(imageSize));
      Ok(PutOpt(p0, "imageSize", NumericParam(imageSize)))
  }

  /** The type member: the argument itself when it is one of the accepted values. */
  function MediaTypeParam(a: Arg): (r: Option<Json>)
    ensures r.Some? <==> a == Str("movies") || a == Str("tv-series")
    ensures r.Some? ==> r.value == JString(a.s)
  {
    MediaTypeIsExact(a);
    if IsMediaType(a) then Some(ArgToJson(a)) else None
  }

  /** The members search sends: query, then each optional member that has a value, in that order. */
  function SearchLayout(q: string, page: Arg, limit: Arg, mediaType: Arg, imageSize: Arg): seq<Member> {
    [("query", JString(q))] + Opt("page", NumericParam(page)) + Opt("limit", NumericParam(limit))
      + Opt("imageSize", NumericParam(imageSize)) + Opt("type", MediaTypeParam(mediaType))
  }

  /** search's members after the guard, built by assigning each key in turn as the source does. */
  function SearchMembers(q: string, page: Arg, limit: Arg, mediaType: Arg, imageSize: Arg): (p: seq<Member>)
    ensures p == SearchLayout(q, page, limit, mediaType, imageSize)
  {
    var p0 := [("query", JString(q))];
    assert Keys(p0) == ["query"] by { KeysAppend([], p0); }
    PutOptFresh(p0, "page", NumericParam(page));
    var p1 := PutOpt(p0, "page", NumericParam(page));
    PutOptFresh(p1, "limit", NumericParam(limit));
    var p2 := PutOpt(p1, "limit", NumericParam(limit));
    PutOptFresh(p2, "imageSize", NumericParam(imageSize));
    var p3 := PutOpt(p2, "imageSize", NumericParam(imageSize));
    PutOptFresh(p3, "type", MediaTypeParam(mediaType));
    PutOpt(p3, "type", MediaTypeParam(mediaType))
  }

  /**
   * search: the query is trimmed first and a falsy trimmed query throws;
   * otherwise the members are query, then page, limit and imageSize each
   * when it passes the numeric rule, then type when it is one of the two
   * accepted values, in that order.
   */
  function SearchParams(query: Arg, page: Arg := Int(1), limit: Arg := Int(15), mediaType: Arg := Null,
                        imageSize: Arg := Int(2)): (r: Result<seq<Member>, ApiError>)
    ensures r.Err? <==> !Truthy(Str(Trim(ToStr(query))))
    ensures r.Err? ==> r.error == MissingParam
    ensures r.Ok? ==> r.value == SearchMembers(Trim(ToStr(query)), page, limit, mediaType, imageSize)
  {
    var q := Trim(ToStr(query));
    if !Truthy(Str(q)) then Err(MissingParam) else Ok(SearchMembers(q, page, limit, mediaType, imageSize))
  }

  /** One key of search's members, looked up through the optional members after the query. */
  lemma GetSearchMembers(q: string, page: Arg, limit: Arg, mediaType: Arg, imageSize: Arg, k: string)
    ensures Get(SearchMembers(q, page, limit, mediaType, imageSize), k) ==
      if k == "type" && MediaTypeParam(mediaType).Some? then MediaTypeParam(mediaType)
      else if k == "imageSize" && NumericParam(imageSize).Some? then NumericParam(imageSize)
      else if k == "limit" && NumericParam(limit).Some? then NumericParam(limit)
      else if k == "page" && NumericParam(page).Some? then NumericParam(page)
      else if k == "query" then Some(JString(q))
      else None
  {
    var p0 := [("query", JString(q))];
    var p1 := p0 + Opt("page", NumericParam(page));
    var p2 := p1 + Opt("limit", NumericParam(limit));
    var p3 := p2 + Opt("imageSize", NumericParam(imageSize));
    GetAppend([], p0[0], k);
    assert [] + [p0[0]] == p0;
    GetOpt(p0, "page", NumericParam(page), k);
    GetOpt(p1, "limit", NumericParam(limit), k);
    GetOpt(p2, "imageSize", NumericParam(imageSize), k);
    GetOpt(p3, "type", MediaTypeParam(mediaType), k);
  }

  /**
   * Key by key: query holds the trimmed query; page, limit and imageSize
   * are present exactly when they pass the numeric rule, with their (int)
   * cast; type is present exactly when it is "movies" or "tv-series".
   */
  lemma SearchParamsLookup(query: Arg, page: Arg, limit: Arg, mediaType: Arg, imageSize: Arg)
    ensures SearchParams(query, page, limit, mediaType, imageSize).Ok? ==>
      var p := SearchParams(query, page, limit, mediaType, imageSize).value;
      && Get(p, "query") == Some(JString(Trim(ToStr(query))))
      && Get(p, "page") == NumericParam(page)
      && Get(p, "limit") == NumericParam(limit)
      && Get(p, "imageSize") == NumericParam(imageSize)
      && Get(p, "type") == (if mediaType == Str("movies") || mediaType == Str("tv-series") then Some(ArgToJson(mediaType)) else None)
  {
    var q := Trim(ToStr(query));
    MembersLookup(q, page, limit, mediaType, imageSize);
  }

  /** The key-by-key lookup of SearchParamsLookup, on the members built from a trimmed query. */
  lemma MembersLookup(q: string, page: Arg, limit: Arg, mediaType: Arg, imageSize: Arg)
    ensures var p := SearchMembers(q, page, limit, mediaType, imageSize);
      && Get(p, "query") == Some(JString(q))
      && Get(p, "page") == NumericParam(page)
      && Get(p, "limit") == NumericParam(limit)
      && Get(p, "imageSize") == NumericParam(imageSize)
      && Get(p, "type") == (if mediaType == Str("movies") || mediaType == Str("tv-series") then Some(ArgToJson(mediaType)) else None)
  {
    GetSearchMembers(q, page, limit, mediaType, imageSize, "query");
    GetSearchMembers(q, page, limit, mediaType, imageSize, "page");
    GetSearchMembers(q, page, limit, mediaType, imageSize, "limit");
    GetSearchMembers(q, page, limit, mediaType, imageSize, "imageSize");
    GetSearchMembers(q, page, limit, mediaType, imageSize, "type");
  }

  /** A query made only of trim characters always throws, before any request is built. */
  lemma BlankQueryRejected(query: string)
    requires AllTrimChars(query)
    ensures SearchParams(Str(query)) == Err(MissingParam)
  {
  }

  /**
   * The guards differ: a blank, non-empty string passes changeUrl's
   * untrimmed test but fails search's trimmed one.
   */
  lemma BlankPassesChangeUrlNotSearch(s: string)
    requires s != "" && AllTrimChars(s)
    ensures ChangeUrlParams(Str(s)).Ok? && SearchParams(Str(s)).Err?
  {
    ChangeUrlSendsBlankAsEmpty(s);
  }

  /** A query that trim() leaves as it is and that is truthy. */
  predicate PlainQuery(q: string) {
    q != "" && q != "0" && !IsTrimChar(q[0]) && !IsTrimChar(q[|q| - 1])
  }

  /** A plain query passes the guard and is sent unchanged. */
  lemma PlainQueryPasses(q: string, page: Arg, limit: Arg, mediaType: Arg, imageSize: Arg)
    requires PlainQuery(q)
    ensures SearchParams(Str(q), page, limit, mediaType, imageSize) == Ok(SearchMembers(q, page, limit, mediaType, imageSize))
  {
    TrimKeeps(q);
  }

  /** Zero page and limit are omitted, not replaced by their defaults. */
  lemma MembersOmitZeroPageAndLimit(q: string)
    ensures SearchLayout(q, Int(0), Int(0), Null, Int(2)) == [("query", JString(q)), ("imageSize", JInt(2))]
  {
    assert NumericParam(Int(0)) == None && NumericParam(Int(2)) == Some(JInt(2));
    assert MediaTypeParam(Null) == None;
  }

  /** search("Godfather", 0, 0), for any plain query: only query and the default imageSize are sent. */
  lemma SearchOmitsZeroPageAndLimit(q: string)
    requires PlainQuery(q)
    ensures SearchParams(Str(q), Int(0), Int(0)) == Ok([("query", JString(q)), ("imageSize", JInt(2))])
  {
    PlainQueryPasses(q, Int(0), Int(0), Null, Int(2));
    MembersOmitZeroPageAndLimit(q);
  }

  /** With page 1, limit 3 and type "tv-series", all five members are set, in order. */
  lemma MembersAllKeys(q: string)
    ensures SearchLayout(q, Int(1), Int(3), Str("tv-series"), Int(2)) ==
      [("query", JString(q)), ("page", JInt(1)), ("limit", JInt(3)), ("imageSize", JInt(2)), ("type", JString("tv-series"))]
  {
    var t := "tv-series";
    MediaTypeIsExact(Str(t));
    assert NumericParam(Int(1)) == Some(JInt(1)) && NumericParam(Int(3)) == Some(JInt(3));
    assert NumericParam(Int(2)) == Some(JInt(2));
    assert MediaTypeParam(Str(t)) == Some(JString(t));
  }

  /** search("Godfather", 1, 3, "tv-series"), for any plain query: all five members are sent in order. */
  lemma SearchAllKeys(q: string)
    requires PlainQuery(q)
    ensures SearchParams(Str(q), Int(1), Int(3), Str("tv-series")) ==
      Ok([("query", JString(q)), ("page", JInt(1)), ("limit", JInt(3)), ("imageSize", JInt(2)),
          ("type", JString("tv-series"))])
  {
    PlainQueryPasses(q, Int(1), Int(3), Str("tv-series"), Int(2));
    MembersAllKeys(q);
  }

  /** A type other than the two accepted values adds no member. */
  lemma MembersDropUnknownType(q: string, t: string)
    requires t != "movies" && t != "tv-series"
    ensures SearchLayout(q, Int(1), Int(15), Str(t), Int(2)) ==
      [("query", JString(q)), ("page", JInt(1)), ("limit", JInt(15)), ("imageSize", JInt(2))]
  {
    MediaTypeIsExact(Str(t));
    assert NumericParam(Int(1)) == Some(JInt(1)) && NumericParam(Int(15)) == Some(JInt(15));
    assert NumericParam(Int(2)) == Some(JInt(2));
    assert MediaTypeParam(Str(t)) == None;
  }

  /** An unsupported type such as "documentary" is dropped without an error. */
  lemma SearchDropsUnknownType(q: string, t: string)
    requires PlainQuery(q)
    requires t != "movies" && t != "tv-series"
    ensures SearchParams(Str(q), Int(1), Int(15), Str(t)) ==
      Ok([("query", JString(q)), ("page", JInt(1)), ("limit", JInt(15)), ("imageSize", JInt(2))])
  {
    PlainQueryPasses(q, Int(1), Int(15), Str(t), Int(2));
    MembersDropUnknownType(q, t);
  }

  /**
   * Truthiness, not value, decides: " 0" is a truthy numeric string, so it
   * is sent as 0, where "0" and 0 are omitted.
   */
  lemma SpacedZeroIsSent()
    ensures NumericParam(Str(" 0")) == Some(JInt(0))
    ensures NumericParam(Str("0")) == None && NumericParam(Int(0)) == None
  {
    var s := " 0";
    assert SpaceSpan(s[1..]) == 0;
    assert SpaceSpan(s) == 1;
    assert s[1..] == "0";
    assert DigitSpan(s[1..][1..]) == 0;
    assert DigitSpan(s[1..]) == 1;
    assert DigitsAt(s, 1) == 1;
    assert s[1..2] == "0";
    assert Exponent(s, 2) == (0, 2);
    var n := Numeral(false, "0", "", 0, 2);
    assert ParseNumeral(s) == Some(n);
    assert n.whole + n.fraction == "0";
    assert DigitsValue("0") == 0;
    assert NumeralValue(n) == 0;
    assert IsNumericString(s);
  }

  /** An integer and its decimal spelling give get the same parameters. */
  lemma GetSpelledSizeIsSame(url: Arg, size: int)
    ensures GetParams(url, Str(IntToString(size))) == GetParams(url, Int(size))
  {
    IntSpellingActsAsInt(size);
  }
}
