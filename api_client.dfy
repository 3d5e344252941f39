/** The REST client for home-server services: how a client object is set up, how each call turns
    into the request handed to `fetch`, and what the call makes of the response. `fetch` itself is
    a parameter: a function from the request to what the network came back with. */
module Api {
  import opened Wrappers
  import opened JsStrings
  import opened JsValues

  datatype HttpMethod = GET | POST | PUT | DELETE

  /** One `name=value` pair appended to the query string. */
  datatype QueryParam = QueryParam(name: string, value: string)

  /** What `_makeRequest` hands to `fetch`: the URL before its query string, the query parameters
      in the order they were appended, the merged headers, and the value whose JSON text is the
      body, if one is attached. */
  datatype Request = Request(
    httpMethod: HttpMethod,
    url: string,
    query: seq<QueryParam>,
    headers: seq<Field>,
    body: Option<Value>)

  /** What `fetch` resolves to: the status, the `content-type` header if there is one, and what
      reading the body as JSON (which may fail) or as text gives. */
  datatype Response = Response(
    ok: bool,
    status: int,
    statusText: string,
    contentType: Option<string>,
    json: Outcome<Value>,
    text: string)

  const JsonContentType := "application/json"

  // ---------------------------------------------------------------------------------------------
  // Construction

  /** `baseUrl.endsWith('/') ? baseUrl.slice(0, -1) : baseUrl`. */
  function TrimSlash(s: string): (r: string)
    ensures EndsWithChar(s, '/') ==> r + "/" == s
    ensures !EndsWithChar(s, '/') ==> r == s
  {
    if EndsWithChar(s, '/') then s[..|s| - 1] else s
  }

  /** One trailing slash is removed. */
  lemma TrimSlashRemovesOne(s: string)
    ensures TrimSlash(s + "/") == s
  {
    assert (s + "/")[..|s|] == s;
  }

  /** Only one: of two trailing slashes the first stays. */
  lemma TrimSlashKeepsSecond(s: string)
    ensures TrimSlash(s + "//") == s + "/"
  {
    assert (s + "//")[..|s| + 1] == s + "/";
  }

  /** The default headers a client is built with: `Content-Type` first, then the extra headers,
      then `X-Api-Key` when the API key is truthy. */
  function InitialHeaders(apiKey: Value, headers: Value): (r: seq<Field>)
    ensures Truthy(apiKey) ==> Find(r, "X-Api-Key") == Some(apiKey)
  {
    var h := AssignFields([Field("Content-Type", Str(JsonContentType))], Spread(headers));
    if Truthy(apiKey) then Put(h, "X-Api-Key", apiKey) else h
  }

  /** Over the single `Content-Type` field, every other key reads what the assigned list holds. */
  lemma OverContentType(fs: seq<Field>, k: string)
    requires UniqueKeys(fs) && k != "Content-Type"
    ensures Find(AssignFields([Field("Content-Type", Str(JsonContentType))], fs), k) == Find(fs, k)
  {
    if k in Keys(fs) {
      FindAssignFieldsPresent([Field("Content-Type", Str(JsonContentType))], fs, k);
    } else {
      FindAssignFieldsAbsent([Field("Content-Type", Str(JsonContentType))], fs, k);
      FindKeys(fs, k);
    }
  }

  /** `Content-Type` comes first and is `application/json` unless an extra header replaces it; a
      truthy API key wins over an extra `X-Api-Key`; every other key is the extra header's; and
      the keys stay distinct. */
  lemma InitialHeadersPrecedence(apiKey: Value, headers: Value, k: string)
    requires WellFormed(headers)
    ensures |InitialHeaders(apiKey, headers)| >= 1
    ensures InitialHeaders(apiKey, headers)[0].key == "Content-Type"
    ensures "Content-Type" !in Keys(Spread(headers)) ==>
              Find(InitialHeaders(apiKey, headers), "Content-Type") == Some(Str(JsonContentType))
    ensures "Content-Type" in Keys(Spread(headers)) ==>
              Find(InitialHeaders(apiKey, headers), "Content-Type") == Find(Spread(headers), "Content-Type")
    ensures Truthy(apiKey) ==> Find(InitialHeaders(apiKey, headers), "X-Api-Key") == Some(apiKey)
    ensures !Truthy(apiKey) ==>
              Find(InitialHeaders(apiKey, headers), "X-Api-Key") == Find(Spread(headers), "X-Api-Key")
    ensures k != "Content-Type" && k != "X-Api-Key" ==>
              Find(InitialHeaders(apiKey, headers), k) == Find(Spread(headers), k)
    ensures UniqueKeys(InitialHeaders(apiKey, headers))
  {
    var base := [Field("Content-Type", Str(JsonContentType))];
    var extra := Spread(headers);
    var h := AssignFields(base, extra);
    SpreadUniqueKeys(headers);
    AssignFieldsKeysPrefix(base, extra);
    assert Keys(h)[..1] == ["Content-Type"];
    AssignFieldsUniqueKeys(base, extra);
    if Truthy(apiKey) {
      KeysPut(h, "X-Api-Key", apiKey);
      PutKeepsUniqueKeys(h, "X-Api-Key", apiKey);
    }
    if "Content-Type" in Keys(extra) {
      FindAssignFieldsPresent(base, extra, "Content-Type");
    } else {
      FindAssignFieldsAbsent(base, extra, "Content-Type");
    }
    OverContentType(extra, "X-Api-Key");
    if k != "Content-Type" {
      OverContentType(extra, k);
    }
  }

  // ---------------------------------------------------------------------------------------------
  // Requests

  /** The query parameters appended for the own entries of `params`, in key order; an entry whose
      value is `null` is skipped and every other value is converted with `String`. */
  function QueryOf(entries: seq<Field>): (r: seq<QueryParam>)
    ensures |r| <= |entries|
    decreases |entries|
  {
    if entries == [] then []
    else
      var n := |entries| - 1;
      QueryOf(entries[..n])
      + (if entries[n].val.Null? then [] else [QueryParam(entries[n].key, ToJsString(entries[n].val))])
  }

  /** The parameters of consecutive runs of entries come one run after the other: no parameter
      is reordered. */
  lemma {:induction false} QueryOfAppend(a: seq<Field>, b: seq<Field>)
    ensures QueryOf(a + b) == QueryOf(a) + QueryOf(b)
    decreases |b|
  {
    if b == [] {
      assert a + b == a;
    } else {
      var n := |b| - 1;
      var tail := if b[n].val.Null? then [] else [QueryParam(b[n].key, ToJsString(b[n].val))];
      assert (a + b)[..|a| + n] == a + b[..n];
      assert (a + b)[|a| + n] == b[n];
      assert QueryOf(a + b) == QueryOf(a + b[..n]) + tail;
      assert QueryOf(b) == QueryOf(b[..n]) + tail;
      QueryOfAppend(a, b[..n]);
    }
  }

  /** Every entry whose value is not `null` is appended, as its key and its `String` value. */
  lemma {:induction false} QueryKeepsNonNull(entries: seq<Field>, i: nat)
    requires i < |entries| && !entries[i].val.Null?
    ensures QueryParam(entries[i].key, ToJsString(entries[i].val)) in QueryOf(entries)
    decreases |entries|
  {
    var n := |entries| - 1;
    if i < n {
      assert entries[..n][i] == entries[i];
      QueryKeepsNonNull(entries[..n], i);
    }
  }

  /** Every appended parameter comes from an entry whose value is not `null`. */
  lemma {:induction false} QueryOnlyNonNull(entries: seq<Field>, p: QueryParam)
    requires p in QueryOf(entries)
    ensures exists i :: 0 <= i < |entries| && !entries[i].val.Null?
                        && p == QueryParam(entries[i].key, ToJsString(entries[i].val))
    decreases |entries|
  {
    var n := |entries| - 1;
    if p in QueryOf(entries[..n]) {
      QueryOnlyNonNull(entries[..n], p);
      var i :| 0 <= i < n && !entries[..n][i].val.Null?
               && p == QueryParam(entries[..n][i].key, ToJsString(entries[..n][i].val));
      assert entries[..n][i] == entries[i];
    } else {
      assert p == QueryParam(entries[n].key, ToJsString(entries[n].val));
    }
  }

  /** The `forEach` over `Object.keys(params)`, appending to `url.searchParams`. */
  method AppendParams(entries: seq<Field>) returns (query: seq<QueryParam>)
    ensures query == QueryOf(entries)
  {
    query := [];
    var i := 0;
    while i < |entries|
      invariant 0 <= i <= |entries|
      invariant query == QueryOf(entries[..i])
    {
      assert entries[..i + 1][..i] == entries[..i];
      if !entries[i].val.Null? {
        query := query + [QueryParam(entries[i].key, ToJsString(entries[i].val))];
      }
      i := i + 1;
    }
    assert entries[..i] == entries;
  }

  /** `{ ...defaultHeaders, ...headers }`. */
  function RequestHeaders(defaultHeaders: seq<Field>, headers: Value): (r: seq<Field>)
    ensures !(headers.Obj? || headers.Arr? || headers.Str?) ==> r == AssignFields([], defaultHeaders)
  {
    AssignFields(AssignFields([], defaultHeaders), Spread(headers))
  }

  /** The request `_makeRequest` builds; `Object.keys(null)` throws. */
  function BuildRequest(baseUrl: string, defaultHeaders: seq<Field>, m: HttpMethod, endpoint: string,
                        data: Value, params: Value, headers: Value): (r: Outcome<Request>)
    ensures r.Ok? <==> !params.Null?
  {
    if params.Null? then Throws(NullTargetMessage)
    else
      Ok(Request(m, baseUrl + endpoint, QueryOf(Spread(params)), RequestHeaders(defaultHeaders, headers),
                 if Truthy(data) && (m == POST || m == PUT) then Some(data) else None))
  }

  /** A per-call header wins over a default header of the same name; every other key keeps its
      default value. */
  lemma RequestHeadersPrecedence(defaultHeaders: seq<Field>, headers: Value, k: string)
    requires UniqueKeys(defaultHeaders) && WellFormed(headers)
    ensures k in Keys(Spread(headers)) ==> Find(RequestHeaders(defaultHeaders, headers), k) == Find(Spread(headers), k)
    ensures k !in Keys(Spread(headers)) ==> Find(RequestHeaders(defaultHeaders, headers), k) == Find(defaultHeaders, k)
  {
    AssignFieldsCopies(defaultHeaders);
    SpreadUniqueKeys(headers);
    if k in Keys(Spread(headers)) {
      FindAssignFieldsPresent(defaultHeaders, Spread(headers), k);
    } else {
      FindAssignFieldsAbsent(defaultHeaders, Spread(headers), k);
    }
  }

  /** The URL is the base URL followed by the endpoint; `null` params throw and any other params
      give a request; a body is attached exactly when the data is truthy and the method is POST or
      PUT, and it is the data itself. */
  lemma BuildRequestShape(baseUrl: string, defaultHeaders: seq<Field>, m: HttpMethod, endpoint: string,
                          data: Value, params: Value, headers: Value)
    ensures BuildRequest(baseUrl, defaultHeaders, m, endpoint, data, params, headers).Ok? <==> !params.Null?
    ensures var r := BuildRequest(baseUrl, defaultHeaders, m, endpoint, data, params, headers);
            r.Ok? ==>
              r.value.url[..|baseUrl|] == baseUrl && r.value.url[|baseUrl|..] == endpoint
              && (r.value.body.Some? <==> Truthy(data) && (m == POST || m == PUT))
              && (r.value.body.Some? ==> r.value.body.value == data)
              && r.value.httpMethod == m
  {
  }

  /** With the empty params `post`, `put` and `delete` pass, no query parameter is appended; GET
      and DELETE never carry a body. */
  lemma FixedCallShapes(baseUrl: string, defaultHeaders: seq<Field>, m: HttpMethod, endpoint: string,
                        data: Value, params: Value, headers: Value)
    ensures BuildRequest(baseUrl, defaultHeaders, m, endpoint, data, Obj([]), headers).Ok?
    ensures BuildRequest(baseUrl, defaultHeaders, m, endpoint, data, Obj([]), headers).value.query == []
    ensures !params.Null? && (m == GET || m == DELETE) ==>
              BuildRequest(baseUrl, defaultHeaders, m, endpoint, data, params, headers).value.body.None?
  {
  }

  // ---------------------------------------------------------------------------------------------
  // Responses

  function HttpErrorMessage(status: int, statusText: string): string {
    "HTTP error! status: " + IntToString(status) + " - " + statusText
  }

  /** What the call resolves to for a response: an error for a non-ok status, the parsed JSON when
      the content type mentions `application/json`, the text otherwise. */
  function Classify(resp: Response): (r: Outcome<Value>)
    ensures !resp.ok ==> r.Throws?
    ensures resp.ok && r.Throws? ==> r == resp.json
  {
    if !resp.ok then Throws(HttpErrorMessage(resp.status, resp.statusText))
    else if resp.contentType.Some? && Contains(resp.contentType.value, JsonContentType) then resp.json
    else Ok(Str(resp.text))
  }

  /** A non-ok response always rejects, with the status in the message. An ok response resolves
      to its JSON when the content type contains `application/json` anywhere (a charset may
      follow, a vendor prefix may precede), and to its text when there is no content type or the
      content type does not contain `application/json`. */
  lemma ClassifyResponse(resp: Response, before: string, after: string)
    ensures !resp.ok ==> Classify(resp).Throws?
                         && Classify(resp).message[..20] == "HTTP error! status: "
                         && Classify(resp).message[20..20 + |IntToString(resp.status)|] == IntToString(resp.status)
    ensures resp.ok && resp.contentType == Some(before + JsonContentType + after) ==> Classify(resp) == resp.json
    ensures resp.ok && resp.contentType.None? ==> Classify(resp) == Ok(Str(resp.text))
    ensures resp.ok && resp.contentType.Some? && !Contains(resp.contentType.value, JsonContentType) ==>
              Classify(resp) == Ok(Str(resp.text))
  {
    var ct := before + JsonContentType + after;
    assert OccursAt(ct, JsonContentType, |before|) by {
      assert ct[|before|..|before| + |JsonContentType|] == JsonContentType;
    }
    ContainsAt(ct, JsonContentType, |before|);
  }

  /** `_makeRequest` after the request is built: the network may fail, otherwise the response is
      classified. The `catch` only logs and rethrows, so the outcome is unchanged by it. */
  function Perform(request: Outcome<Request>, fetch: Request -> Outcome<Response>): (r: Outcome<Value>)
    ensures request.Throws? ==> r == Throws(request.message)
    ensures request.Ok? && fetch(request.value).Throws? ==> r == Throws(fetch(request.value).message)
    ensures request.Ok? && fetch(request.value).Ok? ==> r == Classify(fetch(request.value).value)
    ensures r.Ok? ==> request.Ok? && fetch(request.value).Ok? && fetch(request.value).value.ok
  {
    match request
    case Throws(m) => Throws(m)
    case Ok(rq) =>
      match fetch(rq)
      case Throws(m) => Throws(m)
      case Ok(resp) => Classify(resp)
  }

  // ---------------------------------------------------------------------------------------------
  // The client object

  class ApiClient {
    var baseUrl: string
    var apiKey: Value
    var defaultHeaders: seq<Field>

    /** `new ApiClient(baseUrl, apiKey, headers)`; an absent key is `null` and absent headers are
        `{}`. */
    constructor(url: string, key: Value, headers: Value)
      ensures baseUrl == TrimSlash(url) && apiKey == key
      ensures defaultHeaders == InitialHeaders(key, headers)
    {
      baseUrl := if EndsWithChar(url, '/') then url[..|url| - 1] else url;
      apiKey := key;
      var h := AssignFields([Field("Content-Type", Str(JsonContentType))], Spread(headers));
      if Truthy(key) {
        h := JsValues.Put(h, "X-Api-Key", key);
      }
      defaultHeaders := h;
    }

    /** `_makeRequest(method, endpoint, data, params, headers)`. */
    method MakeRequest(m: HttpMethod, endpoint: string, data: Value, params: Value, headers: Value,
                       fetch: Request -> Outcome<Response>) returns (r: Outcome<Value>)
      ensures r == Perform(BuildRequest(baseUrl, defaultHeaders, m, endpoint, data, params, headers), fetch)
    {
      var url := baseUrl + endpoint;
      if params.Null? {
        return Throws(NullTargetMessage);
      }
      var query := AppendParams(Spread(params));
      var merged := AssignFields(AssignFields([], defaultHeaders), Spread(headers));
      var body: Option<Value> := None;
      if Truthy(data) && (m == POST || m == PUT) {
        body := Some(data);
      }
      var request := Request(m, url, query, merged, body);
      assert BuildRequest(baseUrl, defaultHeaders, m, endpoint, data, params, headers) == Ok(request);
      var response := fetch(request);
      if response.Throws? {
        return Throws(response.message);
      }
      r := Classify(response.value);
    }

    /** `get(endpoint, params, headers)`. */
    method Get(endpoint: string, params: Value, headers: Value, fetch: Request -> Outcome<Response>)
      returns (r: Outcome<Value>)
      ensures r == Perform(BuildRequest(baseUrl, defaultHeaders, GET, endpoint, Null, params, headers), fetch)
    {
      r := MakeRequest(GET, endpoint, Null, params, headers, fetch);
    }

    /** `post(endpoint, data, headers)`. */
    method Post(endpoint: string, data: Value, headers: Value, fetch: Request -> Outcome<Response>)
      returns (r: Outcome<Value>)
      ensures r == Perform(BuildRequest(baseUrl, defaultHeaders, POST, endpoint, data, Obj([]), headers), fetch)
    {
      r := MakeRequest(POST, endpoint, data, Obj([]), headers, fetch);
    }

    /** `put(endpoint, data, headers)`. */
    method Put(endpoint: string, data: Value, headers: Value, fetch: Request -> Outcome<Response>)
      returns (r: Outcome<Value>)
      ensures r == Perform(BuildRequest(baseUrl, defaultHeaders, PUT, endpoint, data, Obj([]), headers), fetch)
    {
      r := MakeRequest(PUT, endpoint, data, Obj([]), headers, fetch);
    }

    /** `delete(endpoint, headers)`. */
    method Delete(endpoint: string, headers: Value, fetch: Request -> Outcome<Response>)
      returns (r: Outcome<Value>)
      ensures r == Perform(BuildRequest(baseUrl, defaultHeaders, DELETE, endpoint, Null, Obj([]), headers), fetch)
    {
      r := MakeRequest(DELETE, endpoint, Null, Obj([]), headers, fetch);
    }
  }

  // ---------------------------------------------------------------------------------------------
  // The `ApiService` factories

  /** A base URL with a path appended ends in that path's last character, so no slash is trimmed. */
  lemma SuffixNotTrimmed(baseUrl: string, path: string)
    requires |path| > 0 && path[|path| - 1] != '/'
    ensures TrimSlash(baseUrl + path) == baseUrl + path
  {
    assert (baseUrl + path)[|baseUrl + path| - 1] == path[|path| - 1];
  }

  method CreateSonarrClient(baseUrl: string, apiKey: Value) returns (c: ApiClient)
    ensures fresh(c) && c.baseUrl == baseUrl + "/api/v3" && c.apiKey == apiKey
    ensures c.defaultHeaders == InitialHeaders(apiKey, Obj([]))
  {
    SuffixNotTrimmed(baseUrl, "/api/v3");
    c := new ApiClient(baseUrl + "/api/v3", apiKey, Obj([]));
  }

  method CreateRadarrClient(baseUrl: string, apiKey: Value) returns (c: ApiClient)
    ensures fresh(c) && c.baseUrl == baseUrl + "/api/v3" && c.apiKey == apiKey
    ensures c.defaultHeaders == InitialHeaders(apiKey, Obj([]))
  {
    SuffixNotTrimmed(baseUrl, "/api/v3");
    c := new ApiClient(baseUrl + "/api/v3", apiKey, Obj([]));
  }

  method CreateReadarrClient(baseUrl: string, apiKey: Value) returns (c: ApiClient)
    ensures fresh(c) && c.baseUrl == baseUrl + "/api/v1" && c.apiKey == apiKey
    ensures c.defaultHeaders == InitialHeaders(apiKey, Obj([]))
  {
    SuffixNotTrimmed(baseUrl, "/api/v1");
    c := new ApiClient(baseUrl + "/api/v1", apiKey, Obj([]));
  }

  method CreateLidarrClient(baseUrl: string, apiKey: Value) returns (c: ApiClient)
    ensures fresh(c) && c.baseUrl == baseUrl + "/api/v1" && c.apiKey == apiKey
    ensures c.defaultHeaders == InitialHeaders(apiKey, Obj([]))
  {
    SuffixNotTrimmed(baseUrl, "/api/v1");
    c := new ApiClient(baseUrl + "/api/v1", apiKey, Obj([]));
  }

  /** The generic factory passes its arguments through unchanged. */
  method CreateGenericClient(baseUrl: string, apiKey: Value, headers: Value) returns (c: ApiClient)
    ensures fresh(c) && c.baseUrl == TrimSlash(baseUrl) && c.apiKey == apiKey
    ensures c.defaultHeaders == InitialHeaders(apiKey, headers)
  {
    c := new ApiClient(baseUrl, apiKey, headers);
  }
}
