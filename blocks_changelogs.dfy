/**
 * The changelog blocks (blocks/changelogs/): update, get, list, create,
 * publish and unpublish a changelog, and list, add and remove its
 * subscribers.
 */
module ChangelogBlocks {
  import opened Wrappers
  import opened Js
  import opened ApiHelpers
  import opened ObjectUtils
  import opened Blocks

  // ---------------------------------------------------------------------
  // updateChangelog

  const UpdateChangelogFields: seq<string> :=
    ["title", "htmlContent", "markdownContent", "changelogCategories", "date", "featuredImage", "allowedSegmentIds"]

  function UpdateChangelogParams(inputConfig: JsValue): Fields {
    CleanPick(inputConfig, ["id"] + UpdateChangelogFields)
  }

  function UpdateChangelogEvent(params: Fields, response: JsValue): JsValue {
    Obj([("changelogId", Lookup(params, "id")), ("success", SuccessOr(response)),
         ("updatedFields", Strs(UpdatedFields(params)))])
  }

  function UpdateChangelogBlock(appConfig: JsValue, inputConfig: JsValue, fetch: Request -> FetchOutcome): BlockRun {
    var params := UpdateChangelogParams(inputConfig);
    Call(appConfig, UpdateChangelog, params, fetch, response => Emit(UpdateChangelogEvent(params, response)))
  }

  /**
   * Undefined inputs are not sent; `updatedFields` is the remaining keys
   * other than "id", in literal order; `changelogId` echoes the id.
   */
  lemma UpdateChangelogFacts(inputConfig: JsValue, response: JsValue, k: string)
    ensures var params := UpdateChangelogParams(inputConfig);
      var e := UpdateChangelogEvent(params, response);
      && (forall i | 0 <= i < |params| :: !params[i].1.Undefined?)
      && Get(e, "changelogId") == Get(inputConfig, "id")
      && Get(e, "success") == SuccessOr(response)
      && Get(e, "updatedFields") == Strs(DefinedAmong(inputConfig, UpdateChangelogFields))
      && (k in DefinedAmong(inputConfig, UpdateChangelogFields) <==> k in UpdateChangelogFields && !Get(inputConfig, k).Undefined?)
      && "id" !in DefinedAmong(inputConfig, UpdateChangelogFields)
  {
    var params := UpdateChangelogParams(inputConfig);
    UpdateChangelogEventReads(params, response);
    CleanPickFacts(inputConfig, ["id"] + UpdateChangelogFields, "id");
    UpdatedFieldsIgnoreCleaning(Pick(inputConfig, ["id"] + UpdateChangelogFields));
    UpdatedFieldsOfLiteral(inputConfig, UpdateChangelogFields);
    DefinedAmongFacts(inputConfig, UpdateChangelogFields, k);
    DefinedAmongFacts(inputConfig, UpdateChangelogFields, "id");
  }

  /** Each of the three event fields reads what was put there. */
  lemma UpdateChangelogEventReads(params: Fields, response: JsValue)
    ensures var e := UpdateChangelogEvent(params, response);
      && Get(e, "changelogId") == Lookup(params, "id")
      && Get(e, "success") == SuccessOr(response)
      && Get(e, "updatedFields") == Strs(UpdatedFields(params))
  {
    var fields := UpdateChangelogEvent(params, response).fields;
    LookupAfter(fields, 1);
    LookupAfter(fields, 2);
  }

  // ---------------------------------------------------------------------
  // getChangelog

  function GetChangelogParams(inputConfig: JsValue): Fields {
    [("id", Get(inputConfig, "id"))]
  }

  function GetChangelogBlock(appConfig: JsValue, inputConfig: JsValue, fetch: Request -> FetchOutcome): BlockRun {
    Call(appConfig, GetChangelog, GetChangelogParams(inputConfig), fetch, response => Emit(FoundEvent("changelog", response)))
  }

  /** The changelog is looked up with a GET to /v2/changelog whose only query parameter is the id. */
  lemma GetChangelogQueriesId(appConfig: JsValue, inputConfig: JsValue)
    requires Get(inputConfig, "id").Str?
    ensures var req := WrapperRequest(CreateApiConfig(appConfig), GetChangelog, GetChangelogParams(inputConfig));
      && req.httpMethod == GET && req.body == NoBody
      && req.url.target == ToStr(Or(Get(appConfig, "baseUrl"), Str(DefaultBaseUrl))) + "/v2/changelog"
      && req.url.query == [QueryPart('?', [("id", Get(inputConfig, "id").s)])]
  {
    var query: Fields := [("id", Get(inputConfig, "id"))];
    assert query[1..] == [];
    assert EncodePairs(query) == [("id", Get(inputConfig, "id").s)];
  }

  // ---------------------------------------------------------------------
  // listChangelogs

  const ListChangelogsFields: seq<string> := ["q", "categories", "state", "locale", "limit", "page"]

  function ListChangelogsParams(inputConfig: JsValue): Fields {
    Pick(inputConfig, ListChangelogsFields)
  }

  function ListChangelogsEvent(response: JsValue): JsValue {
    Obj([("changelogs", ResultsOr(response)), ("pagination", Pagination(response)), ("success", Bool(true))])
  }

  function ListChangelogsBlock(appConfig: JsValue, inputConfig: JsValue, fetch: Request -> FetchOutcome): BlockRun {
    Call(appConfig, ListChangelogs, ListChangelogsParams(inputConfig), fetch, response => Emit(ListChangelogsEvent(response)))
  }

  /**
   * The params go out uncleaned as the GET's query, in literal order: an
   * undefined input adds nothing and the categories array one pair per
   * element.
   */
  lemma ListChangelogsQuery(appConfig: JsValue, inputConfig: JsValue, i: nat)
    requires i < |ListChangelogsFields|
    ensures var params := ListChangelogsParams(inputConfig);
      var req := WrapperRequest(CreateApiConfig(appConfig), ListChangelogs, params);
      var k := ListChangelogsFields[i];
      && req.httpMethod == GET && req.body == NoBody
      && req.url.query == (if EncodePairs(params) == [] then [] else [QueryPart('?', EncodePairs(params))])
      && EncodePairs(params) == EncodePairs(Cleaned(params))
      && EncodePairs(params) ==
           EncodePairs(Pick(inputConfig, ListChangelogsFields[..i])) + EncodeEntry(k, Get(inputConfig, k))
             + EncodePairs(Pick(inputConfig, ListChangelogsFields[i + 1..]))
  {
    var params := ListChangelogsParams(inputConfig);
    assert Wrapper(ListChangelogs, params) == ApiCall("/v2/changelog", Query(params));
    EncodeIgnoresUndefined(params);
    EncodePickAt(inputConfig, ListChangelogsFields, i);
  }

  /** The event takes the list fallbacks and a literal true `success`. */
  lemma ListChangelogsEventFacts(response: JsValue)
    ensures var e := ListChangelogsEvent(response);
      && Get(e, "changelogs") == ResultsOr(response)
      && Get(e, "pagination") == Pagination(response)
      && Get(e, "success") == Bool(true)
  {
    var fields := ListChangelogsEvent(response).fields;
    LookupAfter(fields, 1);
    LookupAfter(fields, 2);
  }

  // ---------------------------------------------------------------------
  // addChangelogSubscribers and removeChangelogSubscribers

  const SubscriberFields: seq<string> := ["emails", "locale"]

  function SubscribersParams(inputConfig: JsValue): Fields {
    CleanPick(inputConfig, SubscriberFields)
  }

  /**
   * The event of both subscriber blocks, with `<verb>Emails`/`<verb>Count`
   * named after the block: `params.emails.length` throws when no emails
   * were given, after the call has been made.
   */
  function SubscribersEvent(verb: string, params: Fields, response: JsValue): Result<JsValue, string> {
    match LengthOf(Lookup(params, "emails"))
    case Err(e) => Err(e)
    case Ok(count) =>
      Ok(Obj([("success", SuccessOr(response)), (verb + "Emails", Lookup(params, "emails")),
              (verb + "Count", count), ("locale", Or(Lookup(params, "locale"), Str("en")))]))
  }

  function AddChangelogSubscribersBlock(appConfig: JsValue, inputConfig: JsValue, fetch: Request -> FetchOutcome): BlockRun {
    var params := SubscribersParams(inputConfig);
    Call(appConfig, AddChangelogSubscribers, params, fetch, response => SubscribersEvent("added", params, response))
  }

  function RemoveChangelogSubscribersBlock(appConfig: JsValue, inputConfig: JsValue, fetch: Request -> FetchOutcome): BlockRun {
    var params := SubscribersParams(inputConfig);
    Call(appConfig, RemoveChangelogSubscribers, params, fetch, response => SubscribersEvent("removed", params, response))
  }

  /** An undefined locale is not sent; emails and locale go out as given. */
  lemma SubscribersParamsFacts(inputConfig: JsValue)
    ensures var params := SubscribersParams(inputConfig);
      && ("locale" in Keys(params) <==> !Get(inputConfig, "locale").Undefined?)
      && Lookup(params, "emails") == Get(inputConfig, "emails")
      && Lookup(params, "locale") == Get(inputConfig, "locale")
  {
    CleanPickFacts(inputConfig, SubscriberFields, "emails");
    CleanPickFacts(inputConfig, SubscriberFields, "locale");
  }

  /**
   * Reading the length of the emails throws iff none were given; for an
   * emails array the event echoes it with its length as the count; the
   * locale defaults to "en".
   */
  lemma SubscribersEventFacts(verb: string, inputConfig: JsValue, response: JsValue)
    requires verb == "added" || verb == "removed"
    ensures var emails := Get(inputConfig, "emails");
      var r := SubscribersEvent(verb, SubscribersParams(inputConfig), response);
      && (r.Ok? <==> !Nullish(emails))
      && (emails.Arr? ==>
            && Get(r.value, verb + "Emails") == emails
            && Get(r.value, verb + "Count") == Num(|emails.elems|)
            && Get(r.value, "locale") == Or(Get(inputConfig, "locale"), Str("en"))
            && Get(r.value, "success") == SuccessOr(response))
  {
    SubscribersParamsFacts(inputConfig);
    SubscribersEventReads(verb, SubscribersParams(inputConfig), response);
  }

  /** Each of the four event fields reads what was put there. */
  lemma SubscribersEventReads(verb: string, params: Fields, response: JsValue)
    requires verb == "added" || verb == "removed"
    ensures var r := SubscribersEvent(verb, params, response);
      r.Ok? ==>
        && Get(r.value, "success") == SuccessOr(response)
        && Get(r.value, verb + "Emails") == Lookup(params, "emails")
        && Get(r.value, verb + "Count") == LengthOf(Lookup(params, "emails")).value
        && Get(r.value, "locale") == Or(Lookup(params, "locale"), Str("en"))
  {
    var r := SubscribersEvent(verb, params, response);
    if r.Ok? {
      var fields := r.value.fields;
      assert Keys(fields) == ["success", verb + "Emails", verb + "Count", "locale"];
      LookupAfter(fields, 1);
      LookupAfter(fields, 2);
      LookupAfter(fields, 3);
    }
  }

  /** Both subscriber blocks send the emails to /v2/changelog/subscribers: adding with POST, removing with DELETE. */
  lemma SubscribersRoutes(appConfig: JsValue, inputConfig: JsValue)
    ensures var params := SubscribersParams(inputConfig);
      var add := WrapperRequest(CreateApiConfig(appConfig), AddChangelogSubscribers, params);
      var remove := WrapperRequest(CreateApiConfig(appConfig), RemoveChangelogSubscribers, params);
      && add.httpMethod == POST && remove.httpMethod == DELETE
      && add.url == remove.url
      && add.url.target == ToStr(Or(Get(appConfig, "baseUrl"), Str(DefaultBaseUrl))) + "/v2/changelog/subscribers"
      && add.body == remove.body == FormBody(EncodePairs(params))
  {
    var params := SubscribersParams(inputConfig);
    assert Wrapper(AddChangelogSubscribers, params) == ApiCall("/v2/changelog/subscribers", FormWith(POST, params));
    assert Wrapper(RemoveChangelogSubscribers, params) == ApiCall("/v2/changelog/subscribers", FormWith(DELETE, params));
  }

  // ---------------------------------------------------------------------
  // publishChangelog and unpublishChangelog

  const PublishFields: seq<string> := ["id", "sendEmail", "locales", "scheduledDate"]
  const UnpublishFields: seq<string> := ["id", "locales"]

  function PublishParams(inputConfig: JsValue): Fields {
    CleanPick(inputConfig, PublishFields)
  }

  function UnpublishParams(inputConfig: JsValue): Fields {
    CleanPick(inputConfig, UnpublishFields)
  }

  /** `now` is the `publishedAt` clock stamp. */
  function PublishEvent(params: Fields, response: JsValue, now: string): JsValue {
    Obj([("changelogId", Lookup(params, "id")), ("success", SuccessOr(response)), ("publishedAt", Str(now)),
         ("emailSent", Lookup(params, "sendEmail")), ("locales", Or(Lookup(params, "locales"), Arr([])))])
  }

  /** `now` is the `unpublishedAt` clock stamp. */
  function UnpublishEvent(params: Fields, response: JsValue, now: string): JsValue {
    Obj([("changelogId", Lookup(params, "id")), ("success", SuccessOr(response)), ("unpublishedAt", Str(now)),
         ("locales", Or(Lookup(params, "locales"), Arr([])))])
  }

  function PublishChangelogBlock(appConfig: JsValue, inputConfig: JsValue, fetch: Request -> FetchOutcome, now: string): BlockRun {
    var params := PublishParams(inputConfig);
    Call(appConfig, PublishChangelog, params, fetch, response => Emit(PublishEvent(params, response, now)))
  }

  function UnpublishChangelogBlock(appConfig: JsValue, inputConfig: JsValue, fetch: Request -> FetchOutcome, now: string): BlockRun {
    var params := UnpublishParams(inputConfig);
    Call(appConfig, UnpublishChangelog, params, fetch, response => Emit(UnpublishEvent(params, response, now)))
  }

  /**
   * Only supplied inputs are sent; the event echoes the id, reports
   * `sendEmail` as `emailSent`, and the locales or `[]`.
   */
  lemma PublishFacts(inputConfig: JsValue, response: JsValue, now: string, k: string)
    ensures var params := PublishParams(inputConfig);
      var e := PublishEvent(params, response, now);
      && (k in Keys(params) <==> k in PublishFields && !Get(inputConfig, k).Undefined?)
      && Get(e, "changelogId") == Get(inputConfig, "id")
      && Get(e, "success") == SuccessOr(response)
      && Get(e, "emailSent") == Get(inputConfig, "sendEmail")
      && Get(e, "locales") == (if Truthy(Get(inputConfig, "locales")) then Get(inputConfig, "locales") else Arr([]))
  {
    var params := PublishParams(inputConfig);
    CleanPickFacts(inputConfig, PublishFields, k);
    CleanPickFacts(inputConfig, PublishFields, "id");
    CleanPickFacts(inputConfig, PublishFields, "sendEmail");
    CleanPickFacts(inputConfig, PublishFields, "locales");
    PublishEventReads(params, response, now);
  }

  /** The event fields read what was put there. */
  lemma PublishEventReads(params: Fields, response: JsValue, now: string)
    ensures var e := PublishEvent(params, response, now);
      && Get(e, "changelogId") == Lookup(params, "id")
      && Get(e, "success") == SuccessOr(response)
      && Get(e, "emailSent") == Lookup(params, "sendEmail")
      && Get(e, "locales") == Or(Lookup(params, "locales"), Arr([]))
  {
    var fields := PublishEvent(params, response, now).fields;
    LookupAfter(fields, 1);
    LookupAfter(fields, 3);
    LookupAfter(fields, 4);
  }

  /** Only supplied inputs are sent; the event echoes the id and the locales or `[]`. */
  lemma UnpublishFacts(inputConfig: JsValue, response: JsValue, now: string, k: string)
    ensures var params := UnpublishParams(inputConfig);
      var e := UnpublishEvent(params, response, now);
      && (k in Keys(params) <==> k in UnpublishFields && !Get(inputConfig, k).Undefined?)
      && Get(e, "changelogId") == Get(inputConfig, "id")
      && Get(e, "success") == SuccessOr(response)
      && Get(e, "locales") == (if Truthy(Get(inputConfig, "locales")) then Get(inputConfig, "locales") else Arr([]))
  {
    var params := UnpublishParams(inputConfig);
    CleanPickFacts(inputConfig, UnpublishFields, k);
    CleanPickFacts(inputConfig, UnpublishFields, "id");
    CleanPickFacts(inputConfig, UnpublishFields, "locales");
    UnpublishEventReads(params, response, now);
  }

  /** The event fields read what was put there. */
  lemma UnpublishEventReads(params: Fields, response: JsValue, now: string)
    ensures var e := UnpublishEvent(params, response, now);
      && Get(e, "changelogId") == Lookup(params, "id")
      && Get(e, "success") == SuccessOr(response)
      && Get(e, "locales") == Or(Lookup(params, "locales"), Arr([]))
  {
    var fields := UnpublishEvent(params, response, now).fields;
    LookupAfter(fields, 1);
    LookupAfter(fields, 3);
  }

  // ---------------------------------------------------------------------
  // getChangelogSubscribers

  /** `response?.emails || []` */
  function EmailsOr(response: JsValue): JsValue {
    Or(Get(response, "emails"), Arr([]))
  }

  /**
   * `{emails, success, totalSubscribers: emails.length}`; `emails` is never
   * nullish, so reading its length cannot throw.
   */
  function SubscriberListEvent(response: JsValue): JsValue {
    var emails := EmailsOr(response);
    var total := match LengthOf(emails) case Ok(n) => n case Err(_) => Undefined;
    Obj([("emails", emails), ("success", SuccessOr(response)), ("totalSubscribers", total)])
  }

  function GetChangelogSubscribersBlock(appConfig: JsValue, fetch: Request -> FetchOutcome): BlockRun {
    Call(appConfig, GetChangelogSubscribers, [], fetch, response => Emit(SubscriberListEvent(response)))
  }

  /** The list is fetched by a GET to /v2/changelog/subscribers with no query and no body. */
  lemma SubscriberListRequest(appConfig: JsValue)
    ensures var req := WrapperRequest(CreateApiConfig(appConfig), GetChangelogSubscribers, []);
      && req.httpMethod == GET && req.body == NoBody && req.url.query == []
      && req.url.target == ToStr(Or(Get(appConfig, "baseUrl"), Str(DefaultBaseUrl))) + "/v2/changelog/subscribers"
  {
    assert Wrapper(GetChangelogSubscribers, []) == ApiCall("/v2/changelog/subscribers", Plain());
  }

  /** The emails are the response's or `[]`, reading their length never throws, and an array's length is the subscriber count. */
  lemma SubscriberListEventFacts(response: JsValue)
    ensures var e := SubscriberListEvent(response);
      && Get(e, "emails") == (if Truthy(Get(response, "emails")) then Get(response, "emails") else Arr([]))
      && LengthOf(EmailsOr(response)).Ok?
      && (EmailsOr(response).Arr? ==> Get(e, "totalSubscribers") == Num(|EmailsOr(response).elems|))
      && Get(e, "success") == SuccessOr(response)
  {
    var fields := SubscriberListEvent(response).fields;
    LookupAfter(fields, 1);
    LookupAfter(fields, 2);
  }

  // ---------------------------------------------------------------------
  // createChangelog

  const CreateChangelogFields: seq<string> :=
    ["title", "htmlContent", "markdownContent", "changelogCategories", "featuredImage", "allowedSegmentIds", "locale", "date"]

  function CreateChangelogParams(inputConfig: JsValue): Fields {
    CleanPick(inputConfig, CreateChangelogFields)
  }

  function CreateChangelogEvent(response: JsValue): JsValue {
    Obj([("changelog", Or(Get(response, "results"), Get(response, "changelog"))), ("success", SuccessOr(response))])
  }

  function CreateChangelogBlock(appConfig: JsValue, inputConfig: JsValue, fetch: Request -> FetchOutcome): BlockRun {
    Call(appConfig, CreateChangelog, CreateChangelogParams(inputConfig), fetch, response => Emit(CreateChangelogEvent(response)))
  }

  /** The changelog is created by a form POST to /v2/changelog carrying the supplied inputs, unchanged, and nothing else. */
  lemma CreateChangelogRequest(appConfig: JsValue, inputConfig: JsValue, k: string)
    ensures var params := CreateChangelogParams(inputConfig);
      var req := WrapperRequest(CreateApiConfig(appConfig), CreateChangelog, params);
      && req.httpMethod == POST
      && req.url.target == ToStr(Or(Get(appConfig, "baseUrl"), Str(DefaultBaseUrl))) + "/v2/changelog"
      && req.body == FormBody(EncodePairs(params))
      && Lookup(params, k) == (if k in CreateChangelogFields then Get(inputConfig, k) else Undefined)
      && (k in Keys(params) <==> k in CreateChangelogFields && !Get(inputConfig, k).Undefined?)
  {
    CreateChangelogPost(appConfig, CreateChangelogParams(inputConfig));
    CleanPickFacts(inputConfig, CreateChangelogFields, k);
  }

  /** Whatever the params, the wrapper sends them as a form POST to /v2/changelog. */
  lemma CreateChangelogPost(appConfig: JsValue, params: Fields)
    ensures var req := WrapperRequest(CreateApiConfig(appConfig), CreateChangelog, params);
      && req.httpMethod == POST
      && req.url.target == ToStr(Or(Get(appConfig, "baseUrl"), Str(DefaultBaseUrl))) + "/v2/changelog"
      && req.body == FormBody(EncodePairs(params))
  {
    assert Wrapper(CreateChangelog, params) == ApiCall("/v2/changelog", FormWith(POST, params));
  }

  /** The event's changelog is the response's `results` when truthy, else its `changelog`. */
  lemma CreateChangelogEventFacts(response: JsValue)
    ensures Get(CreateChangelogEvent(response), "changelog") ==
           (if Truthy(Get(response, "results")) then Get(response, "results") else Get(response, "changelog"))
    ensures Get(CreateChangelogEvent(response), "success") == SuccessOr(response)
  {
    var fields := CreateChangelogEvent(response).fields;
    LookupAfter(fields, 1);
  }
}
