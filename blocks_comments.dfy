/** The comment blocks (blocks/comments/): updateComment, createComment and listComments. */
module CommentBlocks {
  import opened Wrappers
  import opened Js
  import opened ApiHelpers
  import opened ObjectUtils
  import opened Blocks

  // ---------------------------------------------------------------------
  // updateComment

  /** The fields `updateComment` can change, in the order of its `updatedFields` pushes. */
  const UpdateCommentFields: seq<string> := ["content", "isPrivate", "pinned", "inReview", "createdAt"]

  function UpdateCommentParams(inputConfig: JsValue): Fields {
    CleanPick(inputConfig, ["id"] + UpdateCommentFields)
  }

  /** The emitted event; `now` is the `updatedAt` clock stamp. */
  function UpdateCommentEvent(params: Fields, response: JsValue, now: string): JsValue {
    Obj([("commentId", Lookup(params, "id")),
         ("updatedFields", Strs(DefinedAmong(Obj(params), UpdateCommentFields))),
         ("updates", Obj(Pick(Obj(params), UpdateCommentFields))),
         ("success", SuccessOr(response)),
         ("updatedAt", Str(now))])
  }

  /** The `updatedFields` array of `onEvent`, grown by five conditional pushes. */
  method TrackUpdatedFields(params: Fields) returns (updatedFields: seq<string>)
    ensures updatedFields == DefinedAmong(Obj(params), UpdateCommentFields)
  {
    ghost var done: seq<string> := [];
    updatedFields := [];
    updatedFields := PushIfDefined(updatedFields, params, done, "content");
    done := done + ["content"];
    updatedFields := PushIfDefined(updatedFields, params, done, "isPrivate");
    done := done + ["isPrivate"];
    updatedFields := PushIfDefined(updatedFields, params, done, "pinned");
    done := done + ["pinned"];
    updatedFields := PushIfDefined(updatedFields, params, done, "inReview");
    done := done + ["inReview"];
    updatedFields := PushIfDefined(updatedFields, params, done, "createdAt");
    done := done + ["createdAt"];
    assert done == UpdateCommentFields;
  }

  /** `if (params.k !== undefined) updatedFields.push("k")`. */
  method PushIfDefined(updatedFields: seq<string>, params: Fields, ghost done: seq<string>, k: string) returns (pushed: seq<string>)
    requires updatedFields == DefinedAmong(Obj(params), done)
    ensures pushed == DefinedAmong(Obj(params), done + [k])
  {
    DefinedAmongSnoc(Obj(params), done, k);
    pushed := updatedFields;
    if !Lookup(params, k).Undefined? {
      pushed := pushed + [k];
    }
  }

  /** The event `onEvent` emits, with `updatedFields` as tracked. */
  method BuildUpdateCommentEvent(params: Fields, response: JsValue, now: string) returns (event: JsValue)
    ensures event == UpdateCommentEvent(params, response, now)
  {
    var updatedFields := TrackUpdatedFields(params);
    event := Obj([("commentId", Lookup(params, "id")),
                  ("updatedFields", Strs(updatedFields)),
                  ("updates", Obj(Pick(Obj(params), UpdateCommentFields))),
                  ("success", SuccessOr(response)),
                  ("updatedAt", Str(now))]);
  }


  function UpdateCommentBlock(appConfig: JsValue, inputConfig: JsValue, fetch: Request -> FetchOutcome, now: string): BlockRun {
    var params := UpdateCommentParams(inputConfig);
    Call(appConfig, UpdateComment, params, fetch, response => Emit(UpdateCommentEvent(params, response, now)))
  }

  /**
   * `updatedFields` lists exactly the supplied fields, in the fixed order
   * content, isPrivate, pinned, inReview, createdAt: never "id", at most
   * five; `updates` echoes all five inputs, undefined where not supplied.
   */
  lemma UpdateCommentTracksSupplied(inputConfig: JsValue, k: string)
    ensures var params := UpdateCommentParams(inputConfig);
      && DefinedAmong(Obj(params), UpdateCommentFields) == DefinedAmong(inputConfig, UpdateCommentFields)
      && (k in DefinedAmong(inputConfig, UpdateCommentFields) <==> k in UpdateCommentFields && !Get(inputConfig, k).Undefined?)
      && "id" !in DefinedAmong(inputConfig, UpdateCommentFields)
      && |DefinedAmong(inputConfig, UpdateCommentFields)| <= 5
      && Keys(Pick(Obj(params), UpdateCommentFields)) == UpdateCommentFields
      && Lookup(Pick(Obj(params), UpdateCommentFields), k) == (if k in UpdateCommentFields then Get(inputConfig, k) else Undefined)
  {
    var params := UpdateCommentParams(inputConfig);
    var ks := ["id"] + UpdateCommentFields;
    forall x | x in UpdateCommentFields ensures Get(Obj(params), x) == Get(inputConfig, x) {
      CleanPickFacts(inputConfig, ks, x);
    }
    DefinedAmongSame(Obj(params), inputConfig, UpdateCommentFields);
    DefinedAmongFacts(inputConfig, UpdateCommentFields, k);
    DefinedAmongFacts(inputConfig, UpdateCommentFields, "id");
    PickKeys(Obj(params), UpdateCommentFields);
    PickLookup(Obj(params), UpdateCommentFields, k);
  }

  /** The event carries the tracked fields and the echoed updates, and `commentId` echoes the id. */
  lemma UpdateCommentEventFacts(inputConfig: JsValue, response: JsValue, now: string)
    ensures var params := UpdateCommentParams(inputConfig);
      var e := UpdateCommentEvent(params, response, now);
      && Get(e, "commentId") == Get(inputConfig, "id")
      && Get(e, "updatedFields") == Strs(DefinedAmong(inputConfig, UpdateCommentFields))
      && Get(e, "updates") == Obj(Pick(Obj(params), UpdateCommentFields))
      && Get(e, "success") == SuccessOr(response)
      && Get(e, "updatedAt") == Str(now)
  {
    var params := UpdateCommentParams(inputConfig);
    UpdateCommentEventReads(params, response, now);
    CleanPickFacts(inputConfig, ["id"] + UpdateCommentFields, "id");
    UpdateCommentTracksSupplied(inputConfig, "id");
  }

  /** Each of the five event fields reads what was put there. */
  lemma UpdateCommentEventReads(params: Fields, response: JsValue, now: string)
    ensures var e := UpdateCommentEvent(params, response, now);
      && Get(e, "commentId") == Lookup(params, "id")
      && Get(e, "updatedFields") == Strs(DefinedAmong(Obj(params), UpdateCommentFields))
      && Get(e, "updates") == Obj(Pick(Obj(params), UpdateCommentFields))
      && Get(e, "success") == SuccessOr(response)
      && Get(e, "updatedAt") == Str(now)
  {
    var fields := UpdateCommentEvent(params, response, now).fields;
    LookupAfter(fields, 1);
    LookupAfter(fields, 2);
    LookupAfter(fields, 3);
    LookupAfter(fields, 4);
  }

  // ---------------------------------------------------------------------
  // createComment

  const CreateCommentFields: seq<string> :=
    ["submissionId", "changelogId", "content", "parentCommentId", "isPrivate", "sendNotification", "createdAt"]

  /** `authorName || authorEmail`: a profile picture alone does not make an author. */
  predicate AuthorGiven(inputConfig: JsValue) {
    Truthy(Get(inputConfig, "authorName")) || Truthy(Get(inputConfig, "authorEmail"))
  }

  function Author(inputConfig: JsValue): JsValue {
    Obj([("name", Get(inputConfig, "authorName")), ("email", Get(inputConfig, "authorEmail")),
         ("profilePicture", Get(inputConfig, "authorProfilePicture"))])
  }

  /** The params literal with `author` added when given, before cleaning. */
  function CreateCommentLiteral(inputConfig: JsValue): Fields {
    Pick(inputConfig, CreateCommentFields) + (if AuthorGiven(inputConfig) then [("author", Author(inputConfig))] else [])
  }

  /** The params as sent: the literal, `author` when given, then cleaned at the top level. */
  function CreateCommentParams(inputConfig: JsValue): Fields {
    Cleaned(CreateCommentLiteral(inputConfig))
  }

  /** The `params` object of `onEvent`: filled, given an author, then cleaned in place. */
  method BuildCreateCommentParams(inputConfig: JsValue) returns (params: JsObject)
    ensures fresh(params) && params.Valid()
    ensures params.entries == CreateCommentParams(inputConfig)
  {
    PickKeys(inputConfig, CreateCommentFields);
    params := new JsObject(Pick(inputConfig, CreateCommentFields));
    if Truthy(Get(inputConfig, "authorName")) || Truthy(Get(inputConfig, "authorEmail")) {
      SetAbsent(params.entries, "author", Author(inputConfig));
      params.Put("author", Author(inputConfig));
    }
    assert params.entries == CreateCommentLiteral(inputConfig);
    var cleaned := CleanParams(params);
  }

  /** The emitted event; `now` is the `createdAt` clock stamp. */
  function CreateCommentEvent(params: Fields, response: JsValue, now: string): JsValue {
    Obj([("comment", Or(Get(response, "comment"), response)),
         ("success", SuccessOr(response)),
         ("submissionId", Lookup(params, "submissionId")),
         ("changelogId", Lookup(params, "changelogId")),
         ("parentCommentId", Lookup(params, "parentCommentId")),
         ("isReply", Bool(Truthy(Lookup(params, "parentCommentId")))),
         ("createdAt", Str(now))])
  }

  function CreateCommentBlock(appConfig: JsValue, inputConfig: JsValue, fetch: Request -> FetchOutcome, now: string): BlockRun {
    var params := CreateCommentParams(inputConfig);
    Call(appConfig, CreateComment, params, fetch, response => Emit(CreateCommentEvent(params, response, now)))
  }

  /**
   * `author` is sent iff an author name or email is truthy, and then always
   * with its three keys, since cleaning only reaches the top level; no top
   * level value sent is undefined, and every other supplied input is sent
   * unchanged.
   */
  lemma CreateCommentParamsFacts(inputConfig: JsValue, k: string)
    ensures var params := CreateCommentParams(inputConfig);
      && ("author" in Keys(params) <==> AuthorGiven(inputConfig))
      && (AuthorGiven(inputConfig) ==>
            Lookup(params, "author") == Author(inputConfig)
            && Keys(Lookup(params, "author").fields) == ["name", "email", "profilePicture"])
      && (forall i | 0 <= i < |params| :: !params[i].1.Undefined?)
      && (k in CreateCommentFields ==> Lookup(params, k) == Get(inputConfig, k))
      && (k in CreateCommentFields ==> (k in Keys(params) <==> !Get(inputConfig, k).Undefined?))
  {
    var es := CreateCommentLiteral(inputConfig);
    CreateCommentLiteralFacts(inputConfig, k);
    CleanedReadsTheSame(es, "author");
    CleanedReadsTheSame(es, k);
    CleanedHasNoUndefined(es);
  }

  /** Before cleaning, the literal holds each field once and `author` exactly when given, with the author object. */
  lemma CreateCommentLiteralKeys(inputConfig: JsValue)
    ensures var es := CreateCommentLiteral(inputConfig);
      && UniqueKeys(es)
      && Keys(es) == CreateCommentFields + (if AuthorGiven(inputConfig) then ["author"] else [])
      && Lookup(es, "author") == (if AuthorGiven(inputConfig) then Author(inputConfig) else Undefined)
  {
    var literal := Pick(inputConfig, CreateCommentFields);
    CreateCommentFieldsFresh();
    PickKeys(inputConfig, CreateCommentFields);
    LookupAbsent(literal, "author");
    if AuthorGiven(inputConfig) {
      SetAbsent(literal, "author", Author(inputConfig));
      SetFacts(literal, "author", Author(inputConfig));
    } else {
      assert CreateCommentLiteral(inputConfig) == literal;
    }
  }

  /** The literal's fields are distinct and do not include `author`. */
  lemma CreateCommentFieldsFresh()
    ensures Distinct(CreateCommentFields) && "author" !in CreateCommentFields
  {
  }

  /** Before cleaning, the literal reads the input's value at each of its fields. */
  lemma CreateCommentLiteralFacts(inputConfig: JsValue, k: string)
    ensures var es := CreateCommentLiteral(inputConfig);
      && UniqueKeys(es)
      && Keys(es) == CreateCommentFields + (if AuthorGiven(inputConfig) then ["author"] else [])
      && Lookup(es, "author") == (if AuthorGiven(inputConfig) then Author(inputConfig) else Undefined)
      && (k in CreateCommentFields ==> Lookup(es, k) == Get(inputConfig, k))
  {
    CreateCommentLiteralKeys(inputConfig);
    if k in CreateCommentFields {
      var es := CreateCommentLiteral(inputConfig);
      var i :| 0 <= i < |CreateCommentFields| && CreateCommentFields[i] == k;
      assert es[i] == Pick(inputConfig, CreateCommentFields)[i];
      LookupAt(es, i);
    }
  }

  /**
   * The event echoes the submission, changelog and parent ids; `isReply` is
   * true iff a parent comment id was truthy; `comment` is the response's
   * `comment` when truthy and the whole response otherwise.
   */
  lemma CreateCommentEventFacts(inputConfig: JsValue, response: JsValue, now: string)
    ensures var e := CreateCommentEvent(CreateCommentParams(inputConfig), response, now);
      && Get(e, "comment") == (if Truthy(Get(response, "comment")) then Get(response, "comment") else response)
      && Get(e, "success") == SuccessOr(response)
      && Get(e, "submissionId") == Get(inputConfig, "submissionId")
      && Get(e, "changelogId") == Get(inputConfig, "changelogId")
      && Get(e, "parentCommentId") == Get(inputConfig, "parentCommentId")
      && Get(e, "isReply") == Bool(Truthy(Get(inputConfig, "parentCommentId")))
  {
    CreateCommentParamsFacts(inputConfig, "submissionId");
    CreateCommentParamsFacts(inputConfig, "changelogId");
    CreateCommentParamsFacts(inputConfig, "parentCommentId");
    CreateCommentEventReads(CreateCommentParams(inputConfig), response, now);
    CreateCommentEventEchoes(CreateCommentParams(inputConfig), response, now);
    CreateCommentEventIsReply(CreateCommentParams(inputConfig), response, now);
  }

  /** The response-derived event fields read what was put there. */
  lemma CreateCommentEventReads(params: Fields, response: JsValue, now: string)
    ensures var e := CreateCommentEvent(params, response, now);
      && Get(e, "comment") == Or(Get(response, "comment"), response)
      && Get(e, "success") == SuccessOr(response)
      && Get(e, "submissionId") == Lookup(params, "submissionId")
  {
    var fields := CreateCommentEvent(params, response, now).fields;
    LookupAfter(fields, 1);
    LookupAfter(fields, 2);
  }

  /** The echoed changelog and parent ids read what was put there. */
  lemma CreateCommentEventEchoes(params: Fields, response: JsValue, now: string)
    ensures var e := CreateCommentEvent(params, response, now);
      && Get(e, "changelogId") == Lookup(params, "changelogId")
      && Get(e, "parentCommentId") == Lookup(params, "parentCommentId")
  {
    var fields := CreateCommentEvent(params, response, now).fields;
    assert fields[3] == ("changelogId", Lookup(params, "changelogId"));
    assert fields[4] == ("parentCommentId", Lookup(params, "parentCommentId"));
    LookupAfter(fields, 3);
    LookupAfter(fields, 4);
  }

  /** `isReply` reads the truthiness of the parent comment id. */
  lemma CreateCommentEventIsReply(params: Fields, response: JsValue, now: string)
    ensures var e := CreateCommentEvent(params, response, now);
      && Get(e, "isReply") == Bool(Truthy(Lookup(params, "parentCommentId")))
  {
    var fields := CreateCommentEvent(params, response, now).fields;
    LookupAfter(fields, 5);
  }

  // ---------------------------------------------------------------------
  // listComments

  const ListCommentsFields: seq<string> :=
    ["submissionId", "changelogId", "privacy", "inReview", "commentThreadId", "limit", "page", "sortBy"]

  /** The filters the event echoes: the list fields without `limit` and `page`. */
  const CommentFilterFields: seq<string> := ["submissionId", "changelogId", "privacy", "inReview", "commentThreadId", "sortBy"]

  function ListCommentsParams(inputConfig: JsValue): Fields {
    CleanPick(inputConfig, ListCommentsFields)
  }

  function ListCommentsEvent(params: Fields, response: JsValue): JsValue {
    Obj([("comments", ResultsOr(response)), ("pagination", Pagination(response)),
         ("filters", Obj(Pick(Obj(params), CommentFilterFields))), ("success", Bool(true))])
  }

  function ListCommentsBlock(appConfig: JsValue, inputConfig: JsValue, fetch: Request -> FetchOutcome): BlockRun {
    var params := ListCommentsParams(inputConfig);
    Call(appConfig, ListComments, params, fetch, response => Emit(ListCommentsEvent(params, response)))
  }

  /** Only supplied inputs are queried, each with the value it was given. */
  lemma ListCommentsQueryFacts(inputConfig: JsValue, k: string)
    ensures var params := ListCommentsParams(inputConfig);
      && (k in Keys(params) <==> k in ListCommentsFields && !Get(inputConfig, k).Undefined?)
      && (k in Keys(params) ==> Lookup(params, k) == Get(inputConfig, k))
  {
    CleanPickFacts(inputConfig, ListCommentsFields, k);
  }

  /**
   * `filters` echoes the six filter inputs (undefined where not supplied)
   * but not `limit` or `page`; the results, pagination and success follow
   * the list fallbacks.
   */
  lemma ListCommentsFacts(inputConfig: JsValue, response: JsValue, k: string)
    ensures var e := ListCommentsEvent(ListCommentsParams(inputConfig), response);
      && Get(e, "comments") == ResultsOr(response)
      && Get(e, "pagination") == Pagination(response)
      && Get(e, "success") == Bool(true)
      && Get(e, "filters").Obj? && Keys(Get(e, "filters").fields) == CommentFilterFields
      && Get(Get(e, "filters"), k) == (if k in CommentFilterFields then Get(inputConfig, k) else Undefined)
      && "limit" !in Keys(Get(e, "filters").fields) && "page" !in Keys(Get(e, "filters").fields)
  {
    ListCommentsEventReads(ListCommentsParams(inputConfig), response);
    ListCommentsFiltersEcho(inputConfig, k);
    CommentFilterFieldsFacts();
  }

  /** The filters pick, from the cleaned params, exactly the input's value at each filter field. */
  lemma ListCommentsFiltersEcho(inputConfig: JsValue, k: string)
    ensures var filters := Pick(Obj(ListCommentsParams(inputConfig)), CommentFilterFields);
      Keys(filters) == CommentFilterFields
      && Lookup(filters, k) == (if k in CommentFilterFields then Get(inputConfig, k) else Undefined)
  {
    var params := ListCommentsParams(inputConfig);
    CleanPickFacts(inputConfig, ListCommentsFields, k);
    CommentFilterFieldsFacts();
    PickKeys(Obj(params), CommentFilterFields);
    PickLookup(Obj(params), CommentFilterFields, k);
  }

  /** The filter fields are query fields, and `limit` and `page` are not among them. */
  lemma CommentFilterFieldsFacts()
    ensures forall k :: k in CommentFilterFields ==> k in ListCommentsFields
    ensures "limit" !in CommentFilterFields && "page" !in CommentFilterFields
  {
  }

  /** Each of the four event fields reads what was put there. */
  lemma ListCommentsEventReads(params: Fields, response: JsValue)
    ensures var e := ListCommentsEvent(params, response);
      && Get(e, "comments") == ResultsOr(response)
      && Get(e, "pagination") == Pagination(response)
      && Get(e, "filters") == Obj(Pick(Obj(params), CommentFilterFields))
      && Get(e, "success") == Bool(true)
  {
    var fields := ListCommentsEvent(params, response).fields;
    LookupAfter(fields, 1);
    LookupAfter(fields, 2);
    LookupAfter(fields, 3);
  }
}
