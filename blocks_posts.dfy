/** The post blocks (blocks/posts/): updatePost, getPost, listPosts, getPostUpvoters and createPost. */
module PostBlocks {
  import opened Wrappers
  import opened Js
  import opened ApiHelpers
  import opened ObjectUtils
  import opened Blocks

  // ---------------------------------------------------------------------
  // updatePost

  /** The fields of the `updatePost` params literal after `id`, in literal order. */
  const UpdatePostFields: seq<string> :=
    ["title", "content", "status", "commentsAllowed", "category", "sendStatusUpdateEmail",
     "tags", "inReview", "date", "customInputValues"]

  /** The params literal, which is not cleaned. */
  function UpdatePostParams(inputConfig: JsValue): Fields {
    Pick(inputConfig, ["id"] + UpdatePostFields)
  }

  function UpdatePostEvent(params: Fields, response: JsValue): JsValue {
    Obj([("postId", Lookup(params, "id")), ("success", SuccessOr(response)),
         ("updatedFields", Strs(UpdatedFields(params)))])
  }

  function UpdatePostBlock(appConfig: JsValue, inputConfig: JsValue, fetch: Request -> FetchOutcome): BlockRun {
    var params := UpdatePostParams(inputConfig);
    Call(appConfig, UpdatePost, params, fetch, response => Emit(UpdatePostEvent(params, response)))
  }

  /**
   * `postId` echoes the input id; `updatedFields` lists, in literal order,
   * the inputs that are not undefined (so false and "" count) and never "id".
   */
  lemma UpdatePostEventFacts(inputConfig: JsValue, response: JsValue, k: string)
    ensures var e := UpdatePostEvent(UpdatePostParams(inputConfig), response);
      && Get(e, "postId") == Get(inputConfig, "id")
      && Get(e, "success") == SuccessOr(response)
      && Get(e, "updatedFields") == Strs(DefinedAmong(inputConfig, UpdatePostFields))
      && "id" !in DefinedAmong(inputConfig, UpdatePostFields)
      && (k in DefinedAmong(inputConfig, UpdatePostFields) <==> k in UpdatePostFields && !Get(inputConfig, k).Undefined?)
  {
    var params := UpdatePostParams(inputConfig);
    PickLookup(inputConfig, ["id"] + UpdatePostFields, "id");
    UpdatedFieldsOfLiteral(inputConfig, UpdatePostFields);
    DefinedAmongFacts(inputConfig, UpdatePostFields, k);
    DefinedAmongFacts(inputConfig, UpdatePostFields, "id");
    UpdatePostEventReads(params, response);
  }

  lemma UpdatePostEventReads(params: Fields, response: JsValue)
    ensures var e := UpdatePostEvent(params, response);
      && Get(e, "postId") == Lookup(params, "id")
      && Get(e, "success") == SuccessOr(response)
      && Get(e, "updatedFields") == Strs(UpdatedFields(params))
  {
    var fields := UpdatePostEvent(params, response).fields;
    LookupAfter(fields, 1);
    LookupAfter(fields, 2);
  }

  /**
   * The params are not cleaned, but the PATCH's form body is what the
   * cleaned params would give: undefined inputs are not sent.
   */
  lemma UpdatePostSendsDefinedOnly(appConfig: JsValue, inputConfig: JsValue)
    ensures var req := WrapperRequest(CreateApiConfig(appConfig), UpdatePost, UpdatePostParams(inputConfig));
      && req.httpMethod == PATCH
      && req.body == FormBody(EncodePairs(Cleaned(UpdatePostParams(inputConfig))))
  {
    var params := UpdatePostParams(inputConfig);
    assert Wrapper(UpdatePost, params) == ApiCall("/v2/posts", FormWith(PATCH, params));
    EncodeIgnoresUndefined(UpdatePostParams(inputConfig));
  }

  // ---------------------------------------------------------------------
  // getPost

  function GetPostParams(inputConfig: JsValue): Fields {
    [("id", Get(inputConfig, "id"))]
  }

  function GetPostBlock(appConfig: JsValue, inputConfig: JsValue, fetch: Request -> FetchOutcome): BlockRun {
    Call(appConfig, GetPost, GetPostParams(inputConfig), fetch, response => Emit(FoundEvent("post", response)))
  }

  /** The post is looked up with a GET whose only query parameter is the id. */
  lemma GetPostQueriesId(appConfig: JsValue, inputConfig: JsValue)
    requires Get(inputConfig, "id").Str?
    ensures var req := WrapperRequest(CreateApiConfig(appConfig), GetPost, GetPostParams(inputConfig));
      && req.httpMethod == GET && req.body == NoBody
      && req.url.query == [QueryPart('?', [("id", Get(inputConfig, "id").s)])]
  {
    var query: Fields := [("id", Get(inputConfig, "id"))];
    assert query[1..] == [];
    assert EncodePairs(query) == [("id", Get(inputConfig, "id").s)];
  }

  // ---------------------------------------------------------------------
  // listPosts

  const ListPostsFields: seq<string> := ["q", "category", "status", "sortBy", "startDate", "endDate", "limit", "page"]

  function ListPostsParams(inputConfig: JsValue): Fields {
    Pick(inputConfig, ListPostsFields)
  }

  function ListPostsEvent(response: JsValue): JsValue {
    Obj([("posts", ResultsOr(response)), ("pagination", Pagination(response)), ("success", Bool(true))])
  }

  function ListPostsBlock(appConfig: JsValue, inputConfig: JsValue, fetch: Request -> FetchOutcome): BlockRun {
    Call(appConfig, ListPosts, ListPostsParams(inputConfig), fetch, response => Emit(ListPostsEvent(response)))
  }

  /** `posts` is the results or `[]`, `pagination` falls back field by field, and `success` is the literal true. */
  lemma ListPostsEventFacts(response: JsValue)
    ensures var e := ListPostsEvent(response);
      Get(e, "posts") == ResultsOr(response) && Get(e, "pagination") == Pagination(response) && Get(e, "success") == Bool(true)
  {
    var fields := ListPostsEvent(response).fields;
    LookupAfter(fields, 1);
    LookupAfter(fields, 2);
  }

  /**
   * The filters go out as the GET's query, in literal order: an undefined
   * filter adds nothing, and an array filter (category, status) one pair per
   * element; no filter at all means no query string.
   */
  lemma ListPostsQuery(appConfig: JsValue, inputConfig: JsValue, i: nat)
    requires i < |ListPostsFields|
    ensures var params := ListPostsParams(inputConfig);
      var req := WrapperRequest(CreateApiConfig(appConfig), ListPosts, params);
      var k := ListPostsFields[i];
      && req.body == NoBody
      && EncodePairs(params) == EncodePairs(Cleaned(params))
      && EncodePairs(params) ==
           EncodePairs(Pick(inputConfig, ListPostsFields[..i])) + EncodeEntry(k, Get(inputConfig, k))
             + EncodePairs(Pick(inputConfig, ListPostsFields[i + 1..]))
      && req.url.query == if EncodePairs(params) == [] then [] else [QueryPart('?', EncodePairs(params))]
  {
    var params := ListPostsParams(inputConfig);
    assert Wrapper(ListPosts, params) == ApiCall("/v2/posts", Query(params));
    EncodeIgnoresUndefined(ListPostsParams(inputConfig));
    EncodePickAt(inputConfig, ListPostsFields, i);
  }

  // ---------------------------------------------------------------------
  // getPostUpvoters

  const UpvotersFields: seq<string> := ["submissionId", "page", "limit"]

  function UpvotersParams(inputConfig: JsValue): Fields {
    Pick(inputConfig, UpvotersFields)
  }

  function UpvotersEvent(params: Fields, response: JsValue): JsValue {
    Obj([("postId", Lookup(params, "submissionId")), ("upvoters", ResultsOr(response)),
         ("pagination", Pagination(response)), ("success", SuccessOr(response))])
  }

  function GetPostUpvotersBlock(appConfig: JsValue, inputConfig: JsValue, fetch: Request -> FetchOutcome): BlockRun {
    var params := UpvotersParams(inputConfig);
    Call(appConfig, GetPostUpvoters, params, fetch, response => Emit(UpvotersEvent(params, response)))
  }

  /** `postId` echoes the submission id; upvoters, pagination and success take their fallbacks. */
  lemma UpvotersEventFacts(inputConfig: JsValue, response: JsValue)
    ensures var e := UpvotersEvent(UpvotersParams(inputConfig), response);
      && Get(e, "postId") == Get(inputConfig, "submissionId")
      && Get(e, "upvoters") == ResultsOr(response)
      && Get(e, "pagination") == Pagination(response)
      && Get(e, "success") == SuccessOr(response)
  {
    PickLookup(inputConfig, UpvotersFields, "submissionId");
    var fields := UpvotersEvent(UpvotersParams(inputConfig), response).fields;
    LookupAfter(fields, 1);
    LookupAfter(fields, 2);
    LookupAfter(fields, 3);
  }

  // ---------------------------------------------------------------------
  // createPost

  const CreatePostFields: seq<string> :=
    ["title", "category", "content", "email", "authorName", "tags", "commentsAllowed", "status", "date", "customInputValues"]

  function CreatePostParams(inputConfig: JsValue): Fields {
    CleanPick(inputConfig, CreatePostFields)
  }

  function CreatePostEvent(response: JsValue): JsValue {
    Obj([("post", Get(response, "submission")), ("success", SuccessOr(response))])
  }

  function CreatePostBlock(appConfig: JsValue, inputConfig: JsValue, fetch: Request -> FetchOutcome): BlockRun {
    Call(appConfig, CreatePost, CreatePostParams(inputConfig), fetch, response => Emit(CreatePostEvent(response)))
  }

  /**
   * The post is created by a form POST to /v2/posts whose params are the
   * supplied inputs, unchanged, and nothing else; the event carries the
   * response's `submission`.
   */
  lemma CreatePostFacts(appConfig: JsValue, inputConfig: JsValue, response: JsValue, k: string)
    ensures var params := CreatePostParams(inputConfig);
      var req := WrapperRequest(CreateApiConfig(appConfig), CreatePost, params);
      && req.httpMethod == POST
      && req.url.target == ToStr(Or(Get(appConfig, "baseUrl"), Str(DefaultBaseUrl))) + "/v2/posts"
      && req.body == FormBody(EncodePairs(params))
      && ("Content-Type", Str("application/x-www-form-urlencoded")) in req.headers
      && Lookup(params, k) == (if k in CreatePostFields then Get(inputConfig, k) else Undefined)
      && (k in Keys(params) <==> k in CreatePostFields && !Get(inputConfig, k).Undefined?)
      && Get(CreatePostEvent(response), "post") == Get(response, "submission")
      && Get(CreatePostEvent(response), "success") == SuccessOr(response)
  {
    CreatePostSend(appConfig, CreatePostParams(inputConfig));
    CleanPickFacts(inputConfig, CreatePostFields, k);
    CreatePostEventReads(response);
  }

  lemma CreatePostEventReads(response: JsValue)
    ensures Get(CreatePostEvent(response), "post") == Get(response, "submission")
    ensures Get(CreatePostEvent(response), "success") == SuccessOr(response)
  {
    var fields := CreatePostEvent(response).fields;
    LookupAfter(fields, 1);
  }

  /** Whatever the params, the wrapper sends them as a form POST to /v2/posts. */
  lemma CreatePostSend(appConfig: JsValue, params: Fields)
    ensures var req := WrapperRequest(CreateApiConfig(appConfig), CreatePost, params);
      && req.httpMethod == POST
      && req.url.target == ToStr(Or(Get(appConfig, "baseUrl"), Str(DefaultBaseUrl))) + "/v2/posts"
      && req.body == FormBody(EncodePairs(params))
      && ("Content-Type", Str("application/x-www-form-urlencoded")) in req.headers
  {
    assert Wrapper(CreatePost, params) == ApiCall("/v2/posts", FormWith(POST, params));
    var req := WrapperRequest(CreateApiConfig(appConfig), CreatePost, params);
    assert req.headers[1] == ("Content-Type", Str("application/x-www-form-urlencoded"));
  }
}
