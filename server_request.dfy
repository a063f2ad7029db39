/**
 * The in-memory object for one incoming map-server request: the current,
 * original and base URLs, the HTTP method, the headers, and the parameter
 * store derived from the current URL's query, kept in step with it.
 */
module ServerRequest {
  import opened Url
  import opened ServerParameters

  newtype byte = x: int | 0 <= x < 256

  /** The request methods, named as the enumeration's keys are. */
  datatype Method = HeadMethod | PutMethod | GetMethod | PostMethod | DeleteMethod | PatchMethod

  /** The identifier of each enumerator, as reflection reports it. */
  function EnumKey(m: Method): (r: string)
    ensures |r| > 6 && r[|r| - 6..] == "Method"
    ensures 'M' !in r[..|r| - 6]
  {
    match m
    case HeadMethod => "HeadMethod"
    case PutMethod => "PutMethod"
    case GetMethod => "GetMethod"
    case PostMethod => "PostMethod"
    case DeleteMethod => "DeleteMethod"
    case PatchMethod => "PatchMethod"
  }

  /** True when `pat` occurs in `s` starting at position `i`. */
  predicate OccursAt(s: string, pat: string, i: nat)
  {
    i + |pat| <= |s| && s[i..i + |pat|] == pat
  }

  /**
   * Deletes every occurrence of `pat`, scanning left to right and resuming
   * after each deleted occurrence.
   */
  function RemoveAll(s: string, pat: string): (r: string)
    requires pat != []
    ensures |r| <= |s|
    ensures (forall i: nat :: !OccursAt(s, pat, i)) ==> r == s
    decreases |s|
  {
    if |s| < |pat| then s
    else if s[..|pat|] == pat then
      assert OccursAt(s, pat, 0);
      RemoveAll(s[|pat|..], pat)
    else
      assert forall i: nat :: OccursAt(s[1..], pat, i) ==> OccursAt(s, pat, i + 1) by {
        forall i: nat | OccursAt(s[1..], pat, i) ensures OccursAt(s, pat, i + 1) {
          assert s[1..][i..i + |pat|] == s[i + 1..i + 1 + |pat|];
        }
      }
      [s[0]] + RemoveAll(s[1..], pat)
  }

  /**
   * A string that ends in `pat` and holds no earlier occurrence of `pat`'s
   * first character loses exactly that ending.
   */
  lemma {:induction false} RemoveAllTrailing(x: string, pat: string)
    requires pat != [] && pat[0] !in x
    ensures RemoveAll(x + pat, pat) == x
    decreases |x|
  {
    var s := x + pat;
    if x == [] {
      assert s == pat && s[|pat|..] == [];
    } else {
      assert s[..|pat|][0] == x[0];
      assert s[1..] == x[1..] + pat;
      RemoveAllTrailing(x[1..], pat);
      assert [x[0]] + x[1..] == x;
    }
  }

  predicate IsLower(c: char) { 'a' <= c <= 'z' }

  /** The upper-case letter for an ASCII lower-case one; any other character as is. */
  function UpperChar(c: char): (r: char)
    ensures !IsLower(r)
    ensures !IsLower(c) ==> r == c
  {
    if IsLower(c) then (c as int - 32) as char else c
  }

  /** Upper-cases the ASCII letters and keeps every other character. */
  function ToUpper(s: string): (r: string)
    ensures |r| == |s|
    ensures forall i :: 0 <= i < |s| ==> r[i] == UpperChar(s[i])
  {
    if s == [] then [] else [UpperChar(s[0])] + ToUpper(s[1..])
  }

  /**
   * A method's textual name: its enumerator key without "Method", upper-cased.
   * The rule gives the six methods these names.
   */
  function MethodToString(m: Method): (r: string)
    ensures r == match m
      case HeadMethod => "HEAD"
      case PutMethod => "PUT"
      case GetMethod => "GET"
      case PostMethod => "POST"
      case DeleteMethod => "DELETE"
      case PatchMethod => "PATCH"
  {
    var stem := match m
      case HeadMethod => "Head"
      case PutMethod => "Put"
      case GetMethod => "Get"
      case PostMethod => "Post"
      case DeleteMethod => "Delete"
      case PatchMethod => "Patch";
    assert EnumKey(m) == stem + "Method";
    RemoveAllTrailing(stem, "Method");
    ToUpper(RemoveAll(EnumKey(m), "Method"))
  }

  /** Reads a textual method name back; the inverse of `MethodToString`. */
  function ParseMethod(s: string): (r: Option<Method>)
    ensures r.Some? ==> MethodToString(r.value) == s
  {
    if s == "HEAD" then Some(HeadMethod)
    else if s == "PUT" then Some(PutMethod)
    else if s == "GET" then Some(GetMethod)
    else if s == "POST" then Some(PostMethod)
    else if s == "DELETE" then Some(DeleteMethod)
    else if s == "PATCH" then Some(PatchMethod)
    else None
  }

  datatype Option<T> = None | Some(value: T)

  /** Every method's name is upper case and parses back to that method. */
  lemma MethodNameRoundTrip(m: Method)
    ensures ParseMethod(MethodToString(m)) == Some(m)
    ensures forall i :: 0 <= i < |MethodToString(m)| ==> !IsLower(MethodToString(m)[i])
  {
  }

  /** Distinct methods have distinct names. */
  lemma MethodToStringInjective(a: Method, b: Method)
    ensures MethodToString(a) == MethodToString(b) ==> a == b
  {
    MethodNameRoundTrip(a);
    MethodNameRoundTrip(b);
  }

  /** The well-known header roles. */
  datatype RequestHeader =
    | Host
    | Forwarded
    | XForwardedFor
    | XForwardedHost
    | XForwardedProto
    | XQgisServiceUrl
    | XQgisWmsServiceUrl
    | XQgisWfsServiceUrl
    | XQgisWcsServiceUrl
    | XQgisWmtsServiceUrl

  /** The fixed table from header roles to header names. */
  function HeaderName(role: RequestHeader): (r: string)
    ensures r == "Host" || r == "Forwarded" || (|r| > 2 && r[..2] == "X-")
    ensures r == "Host" <==> role == Host
    ensures r == "Forwarded" <==> role == Forwarded
  {
    match role
    case Host => "Host"
    case Forwarded => "Forwarded"
    case XForwardedFor => "X-Forwarded-For"
    case XForwardedHost => "X-Forwarded-Host"
    case XForwardedProto => "X-Forwarded-Proto"
    case XQgisServiceUrl => "X-Qgis-Service-Url"
    case XQgisWmsServiceUrl => "X-Qgis-Wms-Service-Url"
    case XQgisWfsServiceUrl => "X-Qgis-Wfs-Service-Url"
    case XQgisWcsServiceUrl => "X-Qgis-Wcs-Service-Url"
    case XQgisWmtsServiceUrl => "X-Qgis-Wmts-Service-Url"
  }

  /** Distinct roles name distinct headers. */
  lemma HeaderNameInjective(a: RequestHeader, b: RequestHeader)
    ensures HeaderName(a) == HeaderName(b) ==> a == b
  {
  }

  class Request {
    var url: Url
    var originalUrl: Url
    var baseUrl: Url
    var requestMethod: Method
    var headers: map<string, string>
    var params: Items

    /** The parameter store is what loading the current URL's query yields. */
    ghost predicate Valid()
      reads this
    {
      params == Load(url.query)
    }

    /** The current URL's query is the serialised parameter store. */
    ghost predicate Canonical()
      reads this
      requires Valid()
    {
      url.query == UrlQuery(params)
    }

    constructor (u: Url, m: Method, h: map<string, string>)
      ensures Valid()
      ensures url == u && originalUrl == u && baseUrl == u
      ensures requestMethod == m && headers == h
      ensures Parameters() == ToMap(u.query)
    {
      url, originalUrl, baseUrl := u, u, u;
      requestMethod := m;
      headers := h;
      params := Load(u.query);
    }

    /** A copy with the same field contents. */
    constructor Copy(other: Request)
      requires other.Valid()
      ensures Valid()
      ensures url == other.url && originalUrl == other.originalUrl && baseUrl == other.baseUrl
      ensures requestMethod == other.requestMethod && headers == other.headers && params == other.params
    {
      url, originalUrl, baseUrl := other.url, other.originalUrl, other.baseUrl;
      requestMethod := other.requestMethod;
      headers := other.headers;
      params := other.params;
    }

    /** The value of header `name`, or the empty string when it is not set. */
    function Header(name: string): (r: string)
      reads this
      ensures name in headers ==> r == headers[name]
      ensures name !in headers ==> r == ""
    {
      if name in headers then headers[name] else ""
    }

    /** The value of the header that the table names for `role`. */
    function KnownHeader(role: RequestHeader): (r: string)
      reads this
      ensures HeaderName(role) in headers ==> r == headers[HeaderName(role)]
      ensures HeaderName(role) !in headers ==> r == ""
    {
      Header(HeaderName(role))
    }

    method SetHeader(name: string, value: string)
      modifies this
      ensures headers == old(headers)[name := value]
      ensures Header(name) == value
      ensures forall n :: n != name ==> Header(n) == old(Header(n))
      ensures forall role :: HeaderName(role) != name ==> KnownHeader(role) == old(KnownHeader(role))
      ensures url == old(url) && originalUrl == old(originalUrl) && baseUrl == old(baseUrl)
      ensures requestMethod == old(requestMethod) && params == old(params)
    {
      headers := headers[name := value];
    }

    method RemoveHeader(name: string)
      modifies this
      ensures headers == old(headers) - {name}
      ensures Header(name) == ""
      ensures forall n :: n != name ==> Header(n) == old(Header(n))
      ensures url == old(url) && originalUrl == old(originalUrl) && baseUrl == old(baseUrl)
      ensures requestMethod == old(requestMethod) && params == old(params)
    {
      headers := headers - {name};
    }

    method SetOriginalUrl(u: Url)
      modifies this
      ensures originalUrl == u
      ensures url == old(url) && baseUrl == old(baseUrl) && requestMethod == old(requestMethod)
      ensures headers == old(headers) && params == old(params)
    {
      originalUrl := u;
    }

    method SetBaseUrl(u: Url)
      modifies this
      ensures baseUrl == u
      ensures url == old(url) && originalUrl == old(originalUrl) && requestMethod == old(requestMethod)
      ensures headers == old(headers) && params == old(params)
    {
      baseUrl := u;
    }

    method SetMethod(m: Method)
      modifies this
      ensures requestMethod == m
      ensures url == old(url) && originalUrl == old(originalUrl) && baseUrl == old(baseUrl)
      ensures headers == old(headers) && params == old(params)
    {
      requestMethod := m;
    }

    /** The parameters as a plain map: the current URL's query, last occurrence winning. */
    function Parameters(): (r: map<string, string>)
      reads this
      requires Valid()
      ensures r == ToMap(url.query)
    {
      ToMap(params)
    }

    /** A plain request carries no body. */
    function Data(): (r: seq<byte>)
      ensures |r| == 0
    {
      []
    }

    /** The parameter's value, or `default` when it is unset or empty. */
    function Parameter(key: string, default: string): (r: string)
      reads this
      requires Valid()
      ensures key in Parameters() && Parameters()[key] != "" ==> r == Parameters()[key]
      ensures key !in Parameters() || Parameters()[key] == "" ==> r == default
    {
      var v := Value(params, key);
      if v == "" then default else v
    }

    /**
     * The value of the first item named `name` in the current URL's query,
     * or `default` when the query has no such item; an empty value is returned as is.
     */
    function QueryParameter(name: string, default: string): (r: string)
      reads this
      ensures !HasQueryItem(url.query, name) ==> r == default
      ensures HasQueryItem(url.query, name) ==>
        exists i :: 0 <= i < |url.query| && url.query[i] == (name, r) &&
          forall j :: 0 <= j < i ==> url.query[j].0 != name
    {
      if !HasQueryItem(url.query, name) then default else QueryItemValue(url.query, name)
    }

    method SetParameter(key: string, value: string)
      requires Valid()
      modifies this
      ensures Valid() && Canonical()
      ensures params == Add(old(params), key, value)
      ensures url == SetQuery(old(url), UrlQuery(params))
      ensures Parameters() == old(Parameters())[key := value]
      ensures forall d :: Parameter(key, d) == (if value == "" then d else value)
      ensures forall d :: QueryParameter(key, d) == value
      ensures originalUrl == old(originalUrl) && baseUrl == old(baseUrl)
      ensures requestMethod == old(requestMethod) && headers == old(headers)
    {
      params := Add(params, key, value);
      url := SetQuery(url, UrlQuery(params));
      UrlQueryItems(params, key);
    }

    method RemoveParameter(key: string)
      requires Valid()
      modifies this
      ensures Valid() && Canonical()
      ensures params == Remove(old(params), key)
      ensures url == SetQuery(old(url), UrlQuery(params))
      ensures Parameters() == old(Parameters()) - {key}
      ensures forall d :: Parameter(key, d) == d
      ensures forall d :: QueryParameter(key, d) == d
      ensures old(Canonical()) && key !in old(Parameters()) ==> url == old(url) && params == old(params)
      ensures originalUrl == old(originalUrl) && baseUrl == old(baseUrl)
      ensures requestMethod == old(requestMethod) && headers == old(headers)
    {
      ghost var before := params;
      params := Remove(params, key);
      url := SetQuery(url, UrlQuery(params));
      UrlQueryItems(params, key);
      if key !in ToMap(before) {
        SortedUnique(params, before);
      }
    }

    method SetUrl(u: Url)
      requires Valid()
      modifies this
      ensures Valid()
      ensures url == u && params == Load(u.query)
      ensures Parameters() == ToMap(u.query)
      ensures originalUrl == old(originalUrl) && baseUrl == old(baseUrl)
      ensures requestMethod == old(requestMethod) && headers == old(headers)
    {
      url := u;
      params := [];
      params := LoadInto(params, url.query);
    }
  }

  /** The first worked example: construction, then a parameter overwrite. */
  method ExampleConstruct()
  {
    var q := [("MAP", "a"), ("LAYER", "x")];
    var r := new Request(Url("http://host/svc", q), GetMethod, map[]);
    assert ToMap(q) == map["MAP" := "a", "LAYER" := "x"];
    assert r.Parameter("MAP", "") == "a";
    assert r.KnownHeader(XForwardedFor) == "";
    r.SetParameter("LAYER", "y");
    assert r.QueryParameter("LAYER", "") == "y";
    assert r.Parameters() == map["MAP" := "a", "LAYER" := "y"];
  }

  /** An empty value is absent to `Parameter` and present to `QueryParameter`. */
  method ExampleEmptyValue(r: Request)
    requires r.Valid()
    modifies r
  {
    r.SetParameter("K", "");
    assert r.Parameter("K", "d") == "d";
    assert r.QueryParameter("K", "d") == "";
    r.RemoveParameter("K");
    var once := (r.url, r.params);
    r.RemoveParameter("K");
    assert (r.url, r.params) == once;
    assert r.Parameter("K", "d") == "d";
  }

  /** Replacing the URL discards the old parameters. */
  method ExampleSetUrl(r: Request)
    requires r.Valid()
    modifies r
  {
    var before := r.originalUrl;
    r.SetUrl(Url("http://host/other", [("Z", "9")]));
    assert r.Parameters() == map["Z" := "9"];
    assert r.originalUrl == before;
    r.SetHeader("X-Forwarded-For", "10.0.0.1");
    assert r.KnownHeader(XForwardedFor) == "10.0.0.1";
    r.RemoveHeader("X-Forwarded-For");
    assert r.KnownHeader(XForwardedFor) == "";
  }
}
