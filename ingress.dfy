/**
 * The webhook endpoint of the app (main.ts): the topic table, the payload
 * validators and the `http.onRequest` ladder of early responses.  The host
 * calls `blocks.list` and `messaging.sendToBlocks` are parameters, and the
 * calls made are returned in order next to the response.
 */
module Ingress {
  import opened Wrappers
  import opened Js
  import opened Security

  // ---------------------------------------------------------------------
  // EVENT_CONFIG

  /** One entry of the table: the subscription block type to notify and the item type to expect. */
  datatype EventConfig = EventConfig(blockTypeId: string, itemType: string)

  const Topics: seq<string> := [
    "post.created", "post.updated", "post.deleted", "post.voted",
    "changelog.published", "comment.created", "comment.updated", "comment.deleted"
  ]

  /** `EVENT_CONFIG[topic]`, for the eight topics of the table. */
  function EventConfigFor(topic: string): (r: Option<EventConfig>)
    ensures r.Some? <==> topic in Topics
  {
    if topic == "post.created" then Some(EventConfig("postCreatedSubscription", "post"))
    else if topic == "post.updated" then Some(EventConfig("postUpdatedSubscription", "post"))
    else if topic == "post.deleted" then Some(EventConfig("postDeletedSubscription", "post"))
    else if topic == "post.voted" then Some(EventConfig("postVotedSubscription", "post_vote"))
    else if topic == "changelog.published" then Some(EventConfig("changelogPublishedSubscription", "changelog"))
    else if topic == "comment.created" then Some(EventConfig("commentCreatedSubscription", "comment"))
    else if topic == "comment.updated" then Some(EventConfig("commentUpdatedSubscription", "comment"))
    else if topic == "comment.deleted" then Some(EventConfig("commentDeletedSubscription", "comment"))
    else None
  }

  /** The item type each topic's validator expects follows the topic's family. */
  lemma EventTableItemTypes(t: string)
    requires t in Topics
    ensures var item := EventConfigFor(t).value.itemType;
      && (item == "post" <==> t == "post.created" || t == "post.updated" || t == "post.deleted")
      && (item == "post_vote" <==> t == "post.voted")
      && (item == "changelog" <==> t == "changelog.published")
      && (item == "comment" <==> t == "comment.created" || t == "comment.updated" || t == "comment.deleted")
  {
  }

  /** No two topics notify the same subscription block type. */
  lemma EventTableBlockTypesDistinct(t: string, u: string)
    requires t in Topics && u in Topics && t != u
    ensures EventConfigFor(t).value.blockTypeId != EventConfigFor(u).value.blockTypeId
  {
    BlockTypeNamesTopic(t);
    BlockTypeNamesTopic(u);
  }

  /** The topic whose subscription block type is `blockTypeId`, read back from the table. */
  ghost function TopicNotifying(blockTypeId: string): string {
    if blockTypeId == "postCreatedSubscription" then "post.created"
    else if blockTypeId == "postUpdatedSubscription" then "post.updated"
    else if blockTypeId == "postDeletedSubscription" then "post.deleted"
    else if blockTypeId == "postVotedSubscription" then "post.voted"
    else if blockTypeId == "changelogPublishedSubscription" then "changelog.published"
    else if blockTypeId == "commentCreatedSubscription" then "comment.created"
    else if blockTypeId == "commentUpdatedSubscription" then "comment.updated"
    else if blockTypeId == "commentDeletedSubscription" then "comment.deleted"
    else ""
  }

  lemma BlockTypeNamesTopic(t: string)
    requires t in Topics
    ensures TopicNotifying(EventConfigFor(t).value.blockTypeId) == t
  {
    if t == "post.created" {
      assert EventConfigFor(t).value.blockTypeId == "postCreatedSubscription";
    } else if t == "post.updated" {
      assert EventConfigFor(t).value.blockTypeId == "postUpdatedSubscription";
    } else if t == "post.deleted" {
      assert EventConfigFor(t).value.blockTypeId == "postDeletedSubscription";
    } else if t == "post.voted" {
      assert EventConfigFor(t).value.blockTypeId == "postVotedSubscription";
    } else if t == "changelog.published" {
      assert EventConfigFor(t).value.blockTypeId == "changelogPublishedSubscription";
    } else if t == "comment.created" {
      assert EventConfigFor(t).value.blockTypeId == "commentCreatedSubscription";
    } else if t == "comment.updated" {
      assert EventConfigFor(t).value.blockTypeId == "commentUpdatedSubscription";
    } else {
      assert t == "comment.deleted";
    }
  }

  // ---------------------------------------------------------------------
  // createWebhookValidator

  /** `k in v` once `v` is known to be a non-null object: arrays have none of the keys asked for. */
  predicate HasKey(v: JsValue, k: string) {
    v.Obj? && k in Keys(v.fields)
  }

  /** `createWebhookValidator(expectedTopic, expectedItemType)(payload)`, one check after the other. */
  predicate Validate(expectedTopic: string, expectedItemType: string, payload: JsValue) {
    var data := Get(payload, "data");
    var item := Get(data, "item");
    !(!Truthy(payload)
      || !IsObjectType(payload)
      || !HasKey(payload, "topic")
      || !StrictEquals(Get(payload, "topic"), Str(expectedTopic))
      || !HasKey(payload, "data")
      || !IsObjectType(data)
      || data.Null?
      || !HasKey(data, "item")
      || !IsObjectType(item)
      || item.Null?
      || !HasKey(item, "type")
      || !StrictEquals(Get(item, "type"), Str(expectedItemType)))
  }

  /**
   * The validator accepts exactly the objects whose `topic` is the expected
   * topic and whose `data.item` is an object with the expected `type`.
   */
  lemma ValidateIff(expectedTopic: string, expectedItemType: string, payload: JsValue)
    ensures Validate(expectedTopic, expectedItemType, payload) <==>
      && payload.Obj?
      && Get(payload, "topic") == Str(expectedTopic)
      && Get(payload, "data").Obj?
      && Get(Get(payload, "data"), "item").Obj?
      && Get(Get(Get(payload, "data"), "item"), "type") == Str(expectedItemType)
  {
    var data := Get(payload, "data");
    var item := Get(data, "item");
    if payload.Obj? && Get(payload, "topic") == Str(expectedTopic) && data.Obj? && item.Obj?
      && Get(item, "type") == Str(expectedItemType)
    {
      LookupPresent(payload.fields, "topic");
      LookupPresent(payload.fields, "data");
      LookupPresent(data.fields, "item");
      LookupPresent(item.fields, "type");
    }
  }

  /** Each table entry's validator accepts a payload only for its own topic. */
  lemma ValidatorRejectsOtherTopics(t: string, payload: JsValue)
    requires t in Topics
    requires Get(payload, "topic") != Str(t)
    ensures !Validate(t, EventConfigFor(t).value.itemType, payload)
  {
    ValidateIff(t, EventConfigFor(t).value.itemType, payload);
  }

  // ---------------------------------------------------------------------
  // http.onRequest

  datatype HttpRequest = HttpRequest(path: string, httpMethod: string, headers: map<string, string>, rawBody: string, body: JsValue)

  datatype HttpResponse = HttpResponse(statusCode: int, body: Fields)

  /** The message sent to the subscription blocks. */
  datatype Delivery = Delivery(headers: map<string, string>, payload: JsValue)

  datatype HostCall =
    | ListBlocks(typeId: string)
    | SendToBlocks(message: Delivery, blockIds: seq<string>)

  function ErrorBody(message: string): Fields {
    [("error", Str(message))]
  }

  function Header(request: HttpRequest, name: string): Option<string> {
    if name in request.headers then Some(request.headers[name]) else None
  }

  /** `!value` is false: present and not empty. */
  predicate Given(value: Option<string>) {
    value.Some? && value.value != ""
  }

  /** The request reached the handler's try block: path "/" and method POST. */
  predicate Routed(request: HttpRequest) {
    request.path == "/" && request.httpMethod == "POST"
  }

  predicate SignedHeaders(request: HttpRequest) {
    Given(Header(request, "X-Webhook-Signature")) && Given(Header(request, "X-Webhook-Timestamp"))
  }

  /** The verification result the handler computes once the headers and the secret are there. */
  function VerificationOf(request: HttpRequest, secret: string, nowMillis: int,
                          hmacHex: (string, string) -> string, hexDecode: string -> seq<bv8>): VerificationResult
    requires SignedHeaders(request)
  {
    Verify(Header(request, "X-Webhook-Signature").value, Header(request, "X-Webhook-Timestamp").value,
           request.rawBody, secret, nowMillis, hmacHex, hexDecode)
  }

  /** Everything up to and including the signature check passed. */
  predicate Authentic(request: HttpRequest, webhookSecret: Option<string>, nowMillis: int,
                      hmacHex: (string, string) -> string, hexDecode: string -> seq<bv8>) {
    Routed(request) && SignedHeaders(request) && Given(webhookSecret)
    && VerificationOf(request, webhookSecret.value, nowMillis, hmacHex, hexDecode).isValid
  }

  /** The topic's table entry, looked up by its string form as `topic in EVENT_CONFIG` does. */
  function TopicConfig(body: JsValue): Option<EventConfig> {
    EventConfigFor(ToStr(Get(body, "topic")))
  }

  /** The payload is a known topic's and its validator accepts it. */
  predicate Accepted(body: JsValue) {
    !Nullish(body) && TopicConfig(body).Some?
    && Validate(ToStr(Get(body, "topic")), TopicConfig(body).value.itemType, body)
  }

  const MissingHeaders: string := "Missing required webhook headers (X-Webhook-Signature, X-Webhook-Timestamp)"

  /**
   * The part of `http.onRequest` up to the signature check: the response it
   * returns early with, or `None` when the request goes on to dispatch.
   */
  method Admit(request: HttpRequest, webhookSecret: Option<string>, nowMillis: int,
               hmacHex: (string, string) -> string, hexDecode: string -> seq<bv8>)
    returns (rejection: Option<HttpResponse>)
    ensures rejection.None? <==> Authentic(request, webhookSecret, nowMillis, hmacHex, hexDecode)
    ensures request.path != "/" ==> rejection == Some(HttpResponse(404, ErrorBody("Not found")))
    ensures request.path == "/" && request.httpMethod != "POST" ==>
      rejection == Some(HttpResponse(405, ErrorBody("Method not allowed")))
    ensures Routed(request) && !SignedHeaders(request) ==>
      rejection == Some(HttpResponse(400, ErrorBody(MissingHeaders)))
    ensures Routed(request) && SignedHeaders(request) && !Given(webhookSecret) ==>
      rejection == Some(HttpResponse(400, ErrorBody("Webhook secret not configured")))
    ensures Routed(request) && SignedHeaders(request) && Given(webhookSecret) ==>
      var v := VerificationOf(request, webhookSecret.value, nowMillis, hmacHex, hexDecode);
      !v.isValid ==> rejection == Some(HttpResponse(401, ErrorBody("Webhook verification failed: " + v.error.value)))
  {
    if request.path != "/" {
      return Some(HttpResponse(404, ErrorBody("Not found")));
    }
    if request.httpMethod != "POST" {
      return Some(HttpResponse(405, ErrorBody("Method not allowed")));
    }

    var signature := Header(request, "X-Webhook-Signature");
    var timestamp := Header(request, "X-Webhook-Timestamp");
    if !Given(signature) || !Given(timestamp) {
      return Some(HttpResponse(400, ErrorBody(MissingHeaders)));
    }

    if !Given(webhookSecret) {
      return Some(HttpResponse(400, ErrorBody("Webhook secret not configured")));
    }

    var verification := Verify(signature.value, timestamp.value, request.rawBody, webhookSecret.value,
                               nowMillis, hmacHex, hexDecode);
    if !verification.isValid {
      return Some(HttpResponse(401, ErrorBody("Webhook verification failed: " + verification.error.value)));
    }
    return None;
  }

  /**
   * What the part of `http.onRequest` after the signature check answers,
   * and the host calls it makes on the way.
   */
  function DispatchOutcome(request: HttpRequest, listBlocks: string -> Result<seq<string>, string>, sendFailure: Option<string>)
    : (HttpResponse, seq<HostCall>)
  {
    var body := request.body;
    if Nullish(body) then
      (HttpResponse(500, ErrorBody("Internal server error: Cannot read properties of " + ToStr(body) + " (reading 'topic')")), [])
    else if TopicConfig(body).None? then
      (HttpResponse(200, [("message", Str("Event type not supported")), ("topic", Get(body, "topic"))]), [])
    else if !Accepted(body) then
      (HttpResponse(400, ErrorBody("Invalid " + ToStr(Get(body, "topic")) + " event payload")), [])
    else
      var typeId := TopicConfig(body).value.blockTypeId;
      var topic := Get(body, "topic");
      match listBlocks(typeId)
      case Err(message) => (HttpResponse(500, ErrorBody("Internal server error: " + message)), [ListBlocks(typeId)])
      case Ok(ids) =>
        if ids == [] then
          (HttpResponse(200, [("message", Str("No subscription blocks found")), ("topic", topic)]), [ListBlocks(typeId)])
        else
          var calls := [ListBlocks(typeId), SendToBlocks(Delivery(request.headers, body), ids)];
          if sendFailure.Some? then (HttpResponse(500, ErrorBody("Internal server error: " + sendFailure.value)), calls)
          else (HttpResponse(200, [("message", Str("ok")), ("topic", topic), ("blocksNotified", Num(|ids|))]), calls)
  }

  /**
   * The part of `http.onRequest` after the signature check: read the topic,
   * validate, list the subscription blocks and send them the message.
   */
  method Dispatch(request: HttpRequest, listBlocks: string -> Result<seq<string>, string>, sendFailure: Option<string>)
    returns (response: HttpResponse, calls: seq<HostCall>)
    ensures (response, calls) == DispatchOutcome(request, listBlocks, sendFailure)
    ensures Nullish(request.body) ==>
      response == HttpResponse(500, ErrorBody("Internal server error: Cannot read properties of "
                                              + ToStr(request.body) + " (reading 'topic')"))
      && calls == []
    ensures !Nullish(request.body) && TopicConfig(request.body).None? ==>
      response == HttpResponse(200, [("message", Str("Event type not supported")), ("topic", Get(request.body, "topic"))])
      && calls == []
    ensures !Nullish(request.body) && TopicConfig(request.body).Some? && !Accepted(request.body) ==>
      response == HttpResponse(400, ErrorBody("Invalid " + ToStr(Get(request.body, "topic")) + " event payload"))
      && calls == []
    ensures Accepted(request.body) ==>
      var typeId := TopicConfig(request.body).value.blockTypeId;
      var topic := Get(request.body, "topic");
      match listBlocks(typeId)
      case Err(message) =>
        response == HttpResponse(500, ErrorBody("Internal server error: " + message)) && calls == [ListBlocks(typeId)]
      case Ok(ids) =>
        if ids == [] then
          response == HttpResponse(200, [("message", Str("No subscription blocks found")), ("topic", topic)])
          && calls == [ListBlocks(typeId)]
        else
          calls == [ListBlocks(typeId), SendToBlocks(Delivery(request.headers, request.body), ids)]
          && if sendFailure.Some? then
            response == HttpResponse(500, ErrorBody("Internal server error: " + sendFailure.value))
          else
            response == HttpResponse(200, [("message", Str("ok")), ("topic", topic), ("blocksNotified", Num(|ids|))])
  {
    calls := [];
    var payload := request.body;
    if Nullish(payload) {
      // `payload.topic` throws a TypeError, which the catch turns into a 500.
      response := HttpResponse(500, ErrorBody("Internal server error: Cannot read properties of "
                                              + ToStr(payload) + " (reading 'topic')"));
      return;
    }
    var topic := Get(payload, "topic");

    var config := EventConfigFor(ToStr(topic));
    if config.None? {
      response := HttpResponse(200, [("message", Str("Event type not supported")), ("topic", topic)]);
      return;
    }

    if !Validate(ToStr(topic), config.value.itemType, payload) {
      response := HttpResponse(400, ErrorBody("Invalid " + ToStr(topic) + " event payload"));
      return;
    }

    calls := [ListBlocks(config.value.blockTypeId)];
    var listOutput := listBlocks(config.value.blockTypeId);
    if listOutput.Err? {
      response := HttpResponse(500, ErrorBody("Internal server error: " + listOutput.error));
      return;
    }

    var blockIds := listOutput.value;
    if |blockIds| == 0 {
      response := HttpResponse(200, [("message", Str("No subscription blocks found")), ("topic", topic)]);
      return;
    }

    calls := [ListBlocks(config.value.blockTypeId), SendToBlocks(Delivery(request.headers, payload), blockIds)];
    if sendFailure.Some? {
      response := HttpResponse(500, ErrorBody("Internal server error: " + sendFailure.value));
      return;
    }

    response := HttpResponse(200, [("message", Str("ok")), ("topic", topic), ("blocksNotified", Num(|blockIds|))]);
  }

  /**
   * `http.onRequest`.  `webhookSecret` is `app.config.webhookSecret`,
   * `nowMillis` the clock, `listBlocks(typeId)` the ids of the blocks
   * `blocks.list` returns (or the error it throws), and `sendFailure` the
   * error `messaging.sendToBlocks` throws, if it does.  A rejected request
   * makes no host call; an authentic one is answered as `DispatchOutcome` says.
   */
  method OnRequest(request: HttpRequest, webhookSecret: Option<string>, nowMillis: int,
                   hmacHex: (string, string) -> string, hexDecode: string -> seq<bv8>,
                   listBlocks: string -> Result<seq<string>, string>, sendFailure: Option<string>)
    returns (response: HttpResponse, calls: seq<HostCall>)
    ensures !Authentic(request, webhookSecret, nowMillis, hmacHex, hexDecode) ==> calls == []
    ensures request.path != "/" ==> response == HttpResponse(404, ErrorBody("Not found"))
    ensures request.path == "/" && request.httpMethod != "POST" ==> response == HttpResponse(405, ErrorBody("Method not allowed"))
    ensures Routed(request) && !SignedHeaders(request) ==> response == HttpResponse(400, ErrorBody(MissingHeaders))
    ensures Routed(request) && SignedHeaders(request) && !Given(webhookSecret) ==>
      response == HttpResponse(400, ErrorBody("Webhook secret not configured"))
    ensures Routed(request) && SignedHeaders(request) && Given(webhookSecret) ==>
      var v := VerificationOf(request, webhookSecret.value, nowMillis, hmacHex, hexDecode);
      !v.isValid ==> response == HttpResponse(401, ErrorBody("Webhook verification failed: " + v.error.value))
    ensures Authentic(request, webhookSecret, nowMillis, hmacHex, hexDecode) ==>
      (response, calls) == DispatchOutcome(request, listBlocks, sendFailure)
    ensures Authentic(request, webhookSecret, nowMillis, hmacHex, hexDecode) && !Accepted(request.body) ==> calls == []
    ensures Authentic(request, webhookSecret, nowMillis, hmacHex, hexDecode) && Accepted(request.body) ==>
      |calls| >= 1 && calls[0] == ListBlocks(TopicConfig(request.body).value.blockTypeId)
    ensures |calls| <= 2 && (|calls| >= 1 ==> calls[0].ListBlocks?)
    ensures |calls| == 2 ==>
      Authentic(request, webhookSecret, nowMillis, hmacHex, hexDecode) && Accepted(request.body)
      && listBlocks(TopicConfig(request.body).value.blockTypeId).Ok?
      && calls == [ListBlocks(TopicConfig(request.body).value.blockTypeId),
                   SendToBlocks(Delivery(request.headers, request.body), listBlocks(TopicConfig(request.body).value.blockTypeId).value)]
  {
    var rejection := Admit(request, webhookSecret, nowMillis, hmacHex, hexDecode);
    if rejection.Some? {
      return rejection.value, [];
    }
    response, calls := Dispatch(request, listBlocks, sendFailure);
  }
}
