/**
 * `makeFeaturebaseRequest` and the endpoint wrappers (utils/apiHelpers.ts).
 *
 * A request is modelled up to the bytes on the wire: the URL keeps the
 * ordered (key, value) pairs of every query string appended to it, and a
 * form body keeps its ordered pairs.  URLSearchParams percent-encoding is
 * not modelled; it never produces a '?' and encodes a non-empty list of
 * pairs as a non-empty string, which is all the helper relies on.
 * `fetch` and the parsing of its response are an abstract `FetchOutcome`.
 */
module ApiHelpers {
  import opened Wrappers
  import opened Js

  const DefaultBaseUrl: string := "https://do.featurebase.app"

  /** `FeaturebaseApiConfig`: `{apiKey, baseUrl?}` as read from the app configuration. */
  datatype ApiConfig = ApiConfig(apiKey: JsValue, baseUrl: JsValue)

  datatype ContentType = Form | Json

  /** The HTTP methods the wrappers use. */
  datatype HttpMethod = GET | POST | PATCH | DELETE

  /** The options argument, with the defaults `method = "GET"` and `contentType = "form"` applied. */
  datatype Options = Options(httpMethod: HttpMethod, body: Option<Fields>, queryParams: Option<Fields>, contentType: ContentType)

  /** One `append(key, value)` of a URLSearchParams. */
  type Pair = (string, string)

  /** A query string appended to the URL after `separator` ('?' or '&'). */
  datatype QueryPart = QueryPart(separator: char, pairs: seq<Pair>)

  /** `${baseUrl}${endpoint}` followed by the query strings appended to it, in order. */
  datatype Url = Url(target: string, query: seq<QueryPart>)

  datatype Body = NoBody | JsonBody(json: JsValue) | FormBody(form: seq<Pair>)

  datatype Request = Request(url: Url, httpMethod: HttpMethod, headers: Fields, body: Body)

  /** `url.includes("?")`: encoded pairs never contain a literal '?'. */
  predicate HasQuestionMark(u: Url) {
    '?' in u.target || exists i | 0 <= i < |u.query| :: u.query[i].separator == '?'
  }

  // ---------------------------------------------------------------------
  // Encoding of entries into pairs

  /** How one `[key, value]` entry is appended: nullish skipped, arrays one pair per element. */
  function EncodeEntry(k: string, v: JsValue): seq<Pair> {
    if Nullish(v) then []
    else if v.Arr? then seq(|v.elems|, i requires 0 <= i < |v.elems| => (k, ToStr(v.elems[i])))
    else [(k, ToStr(v))]
  }

  /** Query parameters and form bodies: `EncodeEntry` over `Object.entries`, in order. */
  function EncodePairs(es: Fields): seq<Pair> {
    if es == [] then [] else EncodeEntry(es[0].0, es[0].1) + EncodePairs(es[1..])
  }

  /** The body of a GET: nullish skipped, every other value `String()`'d whole. */
  function FlatEntry(k: string, v: JsValue): seq<Pair> {
    if Nullish(v) then [] else [(k, ToStr(v))]
  }

  function FlatPairs(es: Fields): seq<Pair> {
    if es == [] then [] else FlatEntry(es[0].0, es[0].1) + FlatPairs(es[1..])
  }

  lemma {:induction false} EncodePairsAppend(a: Fields, b: Fields)
    ensures EncodePairs(a + b) == EncodePairs(a) + EncodePairs(b)
  {
    if a == [] {
      assert a + b == b;
    } else {
      assert (a + b)[0] == a[0];
      assert (a + b)[1..] == a[1..] + b;
      EncodePairsAppend(a[1..], b);
    }
  }

  lemma {:induction false} FlatPairsAppend(a: Fields, b: Fields)
    ensures FlatPairs(a + b) == FlatPairs(a) + FlatPairs(b)
  {
    if a == [] {
      assert a + b == b;
    } else {
      assert (a + b)[0] == a[0];
      assert (a + b)[1..] == a[1..] + b;
      FlatPairsAppend(a[1..], b);
    }
  }

  // ---------------------------------------------------------------------
  // The request, as a function of the call

  function UrlFor(config: ApiConfig, endpoint: string, opts: Options): Url {
    var target := ToStr(Or(config.baseUrl, Str(DefaultBaseUrl))) + endpoint;
    var queryPairs := if opts.queryParams.Some? then EncodePairs(opts.queryParams.value) else [];
    var url := if queryPairs != [] then Url(target, [QueryPart('?', queryPairs)]) else Url(target, []);
    if opts.body.Some? && opts.httpMethod == GET then
      Url(url.target, url.query + [QueryPart(if HasQuestionMark(url) then '&' else '?', FlatPairs(opts.body.value))])
    else url
  }

  function HeadersFor(config: ApiConfig, opts: Options): Fields {
    var apiKey := [("X-API-Key", config.apiKey)];
    if opts.body.Some? && opts.httpMethod != GET then
      apiKey + [("Content-Type", Str(if opts.contentType == Json then "application/json" else "application/x-www-form-urlencoded"))]
    else apiKey
  }

  function BodyFor(opts: Options): Body {
    if opts.body.Some? && opts.httpMethod != GET then
      (if opts.contentType == Json then JsonBody(Obj(opts.body.value)) else FormBody(EncodePairs(opts.body.value)))
    else NoBody
  }

  /** The request `makeFeaturebaseRequest(config, endpoint, opts)` hands to `fetch`. */
  function RequestFor(config: ApiConfig, endpoint: string, opts: Options): Request {
    Request(UrlFor(config, endpoint, opts), opts.httpMethod, HeadersFor(config, opts), BodyFor(opts))
  }

  // ---------------------------------------------------------------------
  // The helper itself

  /** `Object.entries(es).forEach(...)` appending to a fresh URLSearchParams. */
  method AppendEncoded(es: Fields) returns (pairs: seq<Pair>)
    ensures pairs == EncodePairs(es)
  {
    pairs := [];
    for i := 0 to |es|
      invariant pairs == EncodePairs(es[..i])
    {
      var (key, value) := es[i];
      if !Nullish(value) {
        if value.Arr? {
          var each := AppendEach(key, value.elems);
          pairs := pairs + each;
        } else {
          pairs := pairs + [(key, ToStr(value))];
        }
      }
      assert EncodePairs([es[i]]) == EncodeEntry(key, value);
      assert es[..i + 1] == es[..i] + [es[i]];
      EncodePairsAppend(es[..i], [es[i]]);
    }
    assert es[..|es|] == es;
  }

  /** `value.forEach((v) => searchParams.append(key, String(v)))` */
  method AppendEach(key: string, xs: seq<JsValue>) returns (pairs: seq<Pair>)
    ensures pairs == EncodeEntry(key, Arr(xs))
  {
    pairs := [];
    for j := 0 to |xs|
      invariant |pairs| == j
      invariant forall k | 0 <= k < j :: pairs[k] == (key, ToStr(xs[k]))
    {
      pairs := pairs + [(key, ToStr(xs[j]))];
    }
  }

  /** The GET-body variant: no array expansion. */
  method AppendFlat(es: Fields) returns (pairs: seq<Pair>)
    ensures pairs == FlatPairs(es)
  {
    pairs := [];
    for i := 0 to |es|
      invariant pairs == FlatPairs(es[..i])
    {
      var (key, value) := es[i];
      if !Nullish(value) {
        pairs := pairs + [(key, ToStr(value))];
      }
      assert FlatPairs([es[i]]) == FlatEntry(key, value);
      assert es[..i + 1] == es[..i] + [es[i]];
      FlatPairsAppend(es[..i], [es[i]]);
    }
    assert es[..|es|] == es;
  }

  /** The request-building part of `makeFeaturebaseRequest`, step by step as the source does it. */
  method BuildRequest(config: ApiConfig, endpoint: string, opts: Options) returns (req: Request)
    ensures req == RequestFor(config, endpoint, opts)
  {
    var baseUrl := Or(config.baseUrl, Str(DefaultBaseUrl));
    var url := Url(ToStr(baseUrl) + endpoint, []);
    if opts.queryParams.Some? {
      var searchParams := AppendEncoded(opts.queryParams.value);
      if searchParams != [] {
        url := Url(url.target, url.query + [QueryPart('?', searchParams)]);
      }
    }
    ghost var queried := url;
    assert queried == (if opts.queryParams.Some? && EncodePairs(opts.queryParams.value) != []
                       then Url(ToStr(Or(config.baseUrl, Str(DefaultBaseUrl))) + endpoint, [QueryPart('?', EncodePairs(opts.queryParams.value))])
                       else Url(ToStr(Or(config.baseUrl, Str(DefaultBaseUrl))) + endpoint, []));
    var headers := [("X-API-Key", config.apiKey)];
    var requestBody := NoBody;
    if opts.body.Some? {
      if opts.httpMethod == GET {
        var formData := AppendFlat(opts.body.value);
        var separator := if HasQuestionMark(url) then '&' else '?';
        url := Url(url.target, url.query + [QueryPart(separator, formData)]);
      } else if opts.contentType == Json {
        requestBody := JsonBody(Obj(opts.body.value));
        headers := headers + [("Content-Type", Str("application/json"))];
      } else {
        var formData := AppendEncoded(opts.body.value);
        requestBody := FormBody(formData);
        headers := headers + [("Content-Type", Str("application/x-www-form-urlencoded"))];
      }
    }
    assert url == UrlFor(config, endpoint, opts);
    assert headers == HeadersFor(config, opts);
    assert requestBody == BodyFor(opts);
    req := Request(url, opts.httpMethod, headers, requestBody);
  }

  /** What `fetch` and the body parsing produced: no response at all, or a status and the parsed data. */
  datatype FetchOutcome =
    | NoResponse(reason: string)
    | Response(ok: bool, status: int, statusText: string, data: JsValue)

  datatype ApiError =
    | FeaturebaseApiError(message: string, statusCode: int, response: JsValue)
    | NetworkError(message: string)

  /** The try/catch around `fetch`: non-ok raises FeaturebaseApiError, which is rethrown as is. */
  function Classify(f: FetchOutcome): (r: Result<JsValue, ApiError>)
    ensures r.Ok? <==> f.Response? && f.ok
    ensures r.Ok? ==> r.value == f.data
    ensures f.Response? && !f.ok ==>
      r.Err? && r.error.FeaturebaseApiError? && r.error.statusCode == f.status && r.error.response == f.data
    ensures f.NoResponse? ==> r.Err? && r.error.NetworkError?
  {
    match f
    case NoResponse(reason) => Err(NetworkError("Network error: " + reason))
    case Response(ok, status, statusText, data) =>
      if !ok then Err(FeaturebaseApiError("Featurebase API error: " + IntToString(status) + " " + statusText, status, data))
      else Ok(data)
  }

  /** `makeFeaturebaseRequest`: build the request, hand it to `fetch`, classify what came back. */
  method MakeFeaturebaseRequest(config: ApiConfig, endpoint: string, opts: Options, fetch: Request -> FetchOutcome)
    returns (req: Request, result: Result<JsValue, ApiError>)
    ensures req == RequestFor(config, endpoint, opts)
    ensures result == Classify(fetch(req))
  {
    req := BuildRequest(config, endpoint, opts);
    result := Classify(fetch(req));
  }

  // ---------------------------------------------------------------------
  // Properties of the encoding

  /** Only non-nullish entries produce pairs, and each pair comes from the entry with its key. */
  lemma {:induction false} EncodePairsFrom(es: Fields, p: Pair)
    requires p in EncodePairs(es)
    ensures exists i | 0 <= i < |es| :: es[i].0 == p.0 && !Nullish(es[i].1)
  {
    if p in EncodeEntry(es[0].0, es[0].1) {
      assert es[0].0 == p.0 && !Nullish(es[0].1);
    } else {
      EncodePairsFrom(es[1..], p);
      var i :| 0 <= i < |es[1..]| && es[1..][i].0 == p.0 && !Nullish(es[1..][i].1);
      assert es[i + 1] == es[1..][i];
    }
  }

  /** An empty query object, or one whose every value is nullish, adds no query string. */
  lemma {:induction false} NoPairsNoQuery(config: ApiConfig, endpoint: string, opts: Options)
    requires opts.body.None?
    requires opts.queryParams.Some? ==> forall i | 0 <= i < |opts.queryParams.value| :: Nullish(opts.queryParams.value[i].1)
    ensures RequestFor(config, endpoint, opts).url == Url(ToStr(Or(config.baseUrl, Str(DefaultBaseUrl))) + endpoint, [])
  {
    if opts.queryParams.Some? {
      NoNullishPairs(opts.queryParams.value);
    }
  }

  lemma {:induction false} NoNullishPairs(es: Fields)
    requires forall i | 0 <= i < |es| :: Nullish(es[i].1)
    ensures EncodePairs(es) == []
  {
    if es != [] {
      assert Nullish(es[0].1);
      assert forall i | 0 <= i < |es[1..]| :: es[1..][i] == es[i + 1];
      NoNullishPairs(es[1..]);
    }
  }

  /**
   * Every request carries the API key first; a Content-Type header follows
   * exactly when a non-GET call has a body, and names the body's encoding.
   */
  lemma HeadersFollowBody(config: ApiConfig, endpoint: string, opts: Options)
    ensures var r := RequestFor(config, endpoint, opts);
      && r.headers[0] == ("X-API-Key", config.apiKey)
      && (|r.headers| == 2 <==> r.body != NoBody)
      && (r.body != NoBody <==> opts.body.Some? && opts.httpMethod != GET)
      && (r.body.JsonBody? ==> r.headers[1] == ("Content-Type", Str("application/json")))
      && (r.body.FormBody? ==> r.headers[1] == ("Content-Type", Str("application/x-www-form-urlencoded")))
      && |r.headers| <= 2
  {
  }

  /** A GET with a body appends its pairs after '&' when the URL already has a '?', else after '?'. */
  lemma GetBodySeparator(config: ApiConfig, endpoint: string, opts: Options)
    requires opts.httpMethod == GET && opts.body.Some?
    ensures var u := RequestFor(config, endpoint, opts).url;
      |u.query| >= 1 && u.query[|u.query| - 1].pairs == FlatPairs(opts.body.value) &&
      (u.query[|u.query| - 1].separator == '&' <==>
        '?' in u.target || (opts.queryParams.Some? && EncodePairs(opts.queryParams.value) != []))
    ensures RequestFor(config, endpoint, opts).body == NoBody
  {
    var target := ToStr(Or(config.baseUrl, Str(DefaultBaseUrl))) + endpoint;
    var queryPairs := if opts.queryParams.Some? then EncodePairs(opts.queryParams.value) else [];
    var url := if queryPairs != [] then Url(target, [QueryPart('?', queryPairs)]) else Url(target, []);
    if queryPairs != [] {
      assert url.query[0].separator == '?';
    }
  }

  // ---------------------------------------------------------------------
  // The endpoint wrappers

  datatype Operation =
    | ListPosts | GetPost | CreatePost | UpdatePost | DeletePost | GetPostUpvoters | AddUpvoterToPost
    | ListComments | CreateComment | UpdateComment | DeleteComment
    | ListChangelogs | GetChangelog | CreateChangelog | UpdateChangelog | DeleteChangelog
    | PublishChangelog | UnpublishChangelog
    | GetChangelogSubscribers | AddChangelogSubscribers | RemoveChangelogSubscribers
    | AddUsersToRoles | RemoveUsersFromRoles
    | ListAdmins | GetAdmin | ListAdminRoles
    | ListBoards | GetBoard
    | ListCustomFields | GetCustomField
    | ListSurveys | GetSurvey | GetSurveyResponses
    | GetIdentifyUser | QueryIdentifyUsers | IdentifyUser | DeleteUser

  /** The endpoint and options one wrapper passes to `makeFeaturebaseRequest`. */
  datatype ApiCall = ApiCall(endpoint: string, options: Options)

  function Query(params: Fields): Options { Options(GET, None, Some(params), Form) }
  function Plain(): Options { Options(GET, None, None, Form) }
  function FormWith(httpMethod: HttpMethod, params: Fields): Options { Options(httpMethod, Some(params), None, Form) }
  function JsonWith(httpMethod: HttpMethod, params: Fields): Options { Options(httpMethod, Some(params), None, Json) }

  /** `/v2/<resource>/${params.id}` */
  function IdPath(resource: string, params: Fields): string {
    "/v2/" + resource + "/" + ToStr(Lookup(params, "id"))
  }

  function Wrapper(op: Operation, params: Fields): ApiCall {
    match op
    case ListPosts => ApiCall("/v2/posts", Query(params))
    case GetPost => ApiCall("/v2/posts", Query([("id", Lookup(params, "id"))]))
    case CreatePost => ApiCall("/v2/posts", FormWith(POST, params))
    case UpdatePost => ApiCall("/v2/posts", FormWith(PATCH, params))
    case DeletePost => ApiCall("/v2/posts", FormWith(DELETE, params))
    case GetPostUpvoters => ApiCall("/v2/posts/upvoters", Query(params))
    case AddUpvoterToPost => ApiCall("/v2/posts/upvoters", FormWith(POST, params))
    case ListComments => ApiCall("/v2/comment", Query(params))
    case CreateComment => ApiCall("/v2/comment", FormWith(POST, params))
    case UpdateComment => ApiCall("/v2/comment", FormWith(PATCH, params))
    case DeleteComment => ApiCall("/v2/comment", FormWith(DELETE, params))
    case ListChangelogs => ApiCall("/v2/changelog", Query(params))
    case GetChangelog => ApiCall("/v2/changelog", Query([("id", Lookup(params, "id"))]))
    case CreateChangelog => ApiCall("/v2/changelog", FormWith(POST, params))
    case UpdateChangelog => ApiCall("/v2/changelog", FormWith(PATCH, params))
    case DeleteChangelog => ApiCall("/v2/changelog", FormWith(DELETE, params))
    case PublishChangelog => ApiCall("/v2/changelog/publish", FormWith(POST, params))
    case UnpublishChangelog => ApiCall("/v2/changelog/unpublish", FormWith(POST, params))
    case GetChangelogSubscribers => ApiCall("/v2/changelog/subscribers", Plain())
    case AddChangelogSubscribers => ApiCall("/v2/changelog/subscribers", FormWith(POST, params))
    case RemoveChangelogSubscribers => ApiCall("/v2/changelog/subscribers", FormWith(DELETE, params))
    case AddUsersToRoles => ApiCall("/v2/organization/roles", FormWith(POST, params))
    case RemoveUsersFromRoles => ApiCall("/v2/organization/roles", FormWith(DELETE, params))
    case ListAdmins => ApiCall("/v2/admins", Plain())
    case GetAdmin => ApiCall(IdPath("admins", params), Plain())
    case ListAdminRoles => ApiCall("/v2/admins/roles", Plain())
    case ListBoards => ApiCall("/v2/boards", Plain())
    case GetBoard => ApiCall(IdPath("boards", params), Plain())
    case ListCustomFields => ApiCall("/v2/custom_fields", Plain())
    case GetCustomField => ApiCall(IdPath("custom_fields", params), Plain())
    case ListSurveys => ApiCall("/v2/surveys", Plain())
    case GetSurvey => ApiCall(IdPath("surveys", params), Plain())
    case GetSurveyResponses => ApiCall(IdPath("surveys", params) + "/responses", Plain())
    case GetIdentifyUser => ApiCall("/v2/organization/identifyUser", Query(params))
    case QueryIdentifyUsers => ApiCall("/v2/organization/identifyUser/query", Query(params))
    case IdentifyUser => ApiCall("/v2/organization/identifyUser", JsonWith(POST, params))
    case DeleteUser => ApiCall("/v2/organization/deleteUser", JsonWith(DELETE, params))
  }

  /** The request a wrapper call sends. */
  function WrapperRequest(config: ApiConfig, op: Operation, params: Fields): Request {
    var call := Wrapper(op, params);
    RequestFor(config, call.endpoint, call.options)
  }

  predicate IdAddressed(op: Operation) {
    op.GetAdmin? || op.GetBoard? || op.GetCustomField? || op.GetSurvey? || op.GetSurveyResponses?
  }

  /** Each wrapper fixes its method, and its path unless it is id-addressed. */
  lemma WrapperFixesRoute(op: Operation, p: Fields, q: Fields)
    ensures Wrapper(op, p).options.httpMethod == Wrapper(op, q).options.httpMethod
    ensures !IdAddressed(op) ==> Wrapper(op, p).endpoint == Wrapper(op, q).endpoint
    ensures IdAddressed(op) && Lookup(p, "id") == Lookup(q, "id") ==> Wrapper(op, p).endpoint == Wrapper(op, q).endpoint
  {
    match op
    case ListPosts =>
    case GetPost =>
    case CreatePost =>
    case UpdatePost =>
    case DeletePost =>
    case GetPostUpvoters =>
    case AddUpvoterToPost =>
    case ListComments =>
    case CreateComment =>
    case UpdateComment =>
    case DeleteComment =>
    case ListChangelogs =>
    case GetChangelog =>
    case CreateChangelog =>
    case UpdateChangelog =>
    case DeleteChangelog =>
    case PublishChangelog =>
    case UnpublishChangelog =>
    case GetChangelogSubscribers =>
    case AddChangelogSubscribers =>
    case RemoveChangelogSubscribers =>
    case AddUsersToRoles =>
    case RemoveUsersFromRoles =>
    case ListAdmins =>
    case GetAdmin =>
    case ListAdminRoles =>
    case ListBoards =>
    case GetBoard =>
    case ListCustomFields =>
    case GetCustomField =>
    case ListSurveys =>
    case GetSurvey =>
    case GetSurveyResponses =>
    case GetIdentifyUser =>
    case QueryIdentifyUsers =>
    case IdentifyUser =>
    case DeleteUser =>
  }

  /** Only identifyUser (POST) and deleteUser (DELETE) send JSON. */
  lemma JsonOnlyForIdentifyAndDelete(op: Operation, p: Fields)
    ensures Wrapper(op, p).options.contentType == Json <==> op == IdentifyUser || op == DeleteUser
    ensures op == IdentifyUser ==> Wrapper(op, p).options.httpMethod == POST
    ensures op == DeleteUser ==> Wrapper(op, p).options.httpMethod == DELETE
  {
    match op
    case ListPosts =>
    case GetPost =>
    case CreatePost =>
    case UpdatePost =>
    case DeletePost =>
    case GetPostUpvoters =>
    case AddUpvoterToPost =>
    case ListComments =>
    case CreateComment =>
    case UpdateComment =>
    case DeleteComment =>
    case ListChangelogs =>
    case GetChangelog =>
    case CreateChangelog =>
    case UpdateChangelog =>
    case DeleteChangelog =>
    case PublishChangelog =>
    case UnpublishChangelog =>
    case GetChangelogSubscribers =>
    case AddChangelogSubscribers =>
    case RemoveChangelogSubscribers =>
    case AddUsersToRoles =>
    case RemoveUsersFromRoles =>
    case ListAdmins =>
    case GetAdmin =>
    case ListAdminRoles =>
    case ListBoards =>
    case GetBoard =>
    case ListCustomFields =>
    case GetCustomField =>
    case ListSurveys =>
    case GetSurvey =>
    case GetSurveyResponses =>
    case GetIdentifyUser =>
    case QueryIdentifyUsers =>
    case IdentifyUser =>
    case DeleteUser =>
  }

  /** GET wrappers pass their parameters as query parameters and never a body; the others pass them as the body. */
  lemma GetsUseQueryOthersUseBody(op: Operation, p: Fields)
    ensures var o := Wrapper(op, p).options;
      (o.httpMethod == GET ==> o.body.None?) &&
      (o.httpMethod != GET ==> o.body == Some(p) && o.queryParams.None?)
  {
    match op
    case ListPosts =>
    case GetPost =>
    case CreatePost =>
    case UpdatePost =>
    case DeletePost =>
    case GetPostUpvoters =>
    case AddUpvoterToPost =>
    case ListComments =>
    case CreateComment =>
    case UpdateComment =>
    case DeleteComment =>
    case ListChangelogs =>
    case GetChangelog =>
    case CreateChangelog =>
    case UpdateChangelog =>
    case DeleteChangelog =>
    case PublishChangelog =>
    case UnpublishChangelog =>
    case GetChangelogSubscribers =>
    case AddChangelogSubscribers =>
    case RemoveChangelogSubscribers =>
    case AddUsersToRoles =>
    case RemoveUsersFromRoles =>
    case ListAdmins =>
    case GetAdmin =>
    case ListAdminRoles =>
    case ListBoards =>
    case GetBoard =>
    case ListCustomFields =>
    case GetCustomField =>
    case ListSurveys =>
    case GetSurvey =>
    case GetSurveyResponses =>
    case GetIdentifyUser =>
    case QueryIdentifyUsers =>
    case IdentifyUser =>
    case DeleteUser =>
  }
}
