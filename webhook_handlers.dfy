/**
 * The subscription blocks' message handler (utils/webhookHandlers.ts): read
 * the payload out of the internal message, drop other topics, and emit the
 * event base merged with the builder's output.
 */
module WebhookHandlers {
  import opened Wrappers
  import opened Js
  import opened Payloads

  const EventBaseKeys: seq<string> := ["type", "id", "organizationId", "webhookId", "createdAt", "deliveryStatus"]

  /** `extractWebhookPayload(message)`: `message.body.payload`. */
  function ExtractWebhookPayload(message: JsValue): JsValue {
    Get(Get(message, "body"), "payload")
  }

  /** `createEventBase(payload, eventType)` */
  function CreateEventBase(payload: JsValue, eventType: string): Fields {
    [("type", Str(eventType)), ("id", Get(payload, "id")), ("organizationId", Get(payload, "organizationId")),
     ("webhookId", Get(payload, "webhookId")), ("createdAt", Get(payload, "createdAt")),
     ("deliveryStatus", Get(payload, "deliveryStatus"))]
  }

  /**
   * `createWebhookHandler(expectedTopic, eventType, dataTransformer)` applied
   * to `message`: `None` when nothing is emitted, the emitted event
   * otherwise, or the error the transformer throws.
   */
  function HandleWebhook(expectedTopic: string, eventType: string,
                         dataTransformer: (JsValue, JsValue) -> Result<Fields, string>,
                         message: JsValue): Result<Option<Fields>, string>
  {
    var payload := ExtractWebhookPayload(message);
    if !StrictEquals(Get(payload, "topic"), Str(expectedTopic)) then Ok(None)
    else
      match dataTransformer(Get(Get(payload, "data"), "item"), payload)
      case Ok(transformedData) => Ok(Some(Spread(CreateEventBase(payload, eventType), transformedData)))
      case Err(e) => Err(e)
  }

  // ---------------------------------------------------------------------
  // What the handler promises

  /** The payload is read from `body.payload`; the forwarded headers play no part. */
  lemma ExtractIgnoresHeaders(headers: JsValue, payload: JsValue)
    ensures ExtractWebhookPayload(Obj([("body", Obj([("headers", headers), ("payload", payload)]))])) == payload
  {
    var body := [("headers", headers), ("payload", payload)];
    assert UniqueKeys(body);
    LookupAt(body, 1);
  }

  /**
   * The event base carries the handler's event type as `type` (not the
   * payload's) and copies the payload's id, organization, webhook id,
   * creation time and delivery status.
   */
  lemma EventBaseFacts(payload: JsValue, eventType: string, k: string)
    ensures Keys(CreateEventBase(payload, eventType)) == EventBaseKeys
    ensures Lookup(CreateEventBase(payload, eventType), "type") == Str(eventType)
    ensures k in EventBaseKeys && k != "type" ==> Lookup(CreateEventBase(payload, eventType), k) == Get(payload, k)
  {
    var base := CreateEventBase(payload, eventType);
    assert UniqueKeys(base);
    if k in EventBaseKeys && k != "type" {
      var i :| 0 <= i < |EventBaseKeys| && EventBaseKeys[i] == k;
      LookupAt(base, i);
    }
  }

  /** A message for another topic emits nothing, and the transformer is not run. */
  lemma OtherTopicEmitsNothing(expectedTopic: string, eventType: string,
                               dataTransformer: (JsValue, JsValue) -> Result<Fields, string>, message: JsValue)
    requires Get(ExtractWebhookPayload(message), "topic") != Str(expectedTopic)
    ensures HandleWebhook(expectedTopic, eventType, dataTransformer, message) == Ok(None)
  {
  }

  /**
   * A message for the expected topic emits exactly one event: the base
   * fields first, then the transformer's output of `payload.data.item` and
   * the payload, whose keys win over the base's.
   */
  lemma MatchingTopicEmitsMerged(expectedTopic: string, eventType: string,
                                 dataTransformer: (JsValue, JsValue) -> Result<Fields, string>,
                                 message: JsValue, k: string)
    requires Get(ExtractWebhookPayload(message), "topic") == Str(expectedTopic)
    ensures var payload := ExtractWebhookPayload(message);
      var t := dataTransformer(Get(Get(payload, "data"), "item"), payload);
      var r := HandleWebhook(expectedTopic, eventType, dataTransformer, message);
      && (t.Err? ==> r == Err(t.error))
      && (t.Ok? && UniqueKeys(t.value) ==>
            r.Ok? && r.value.Some?
            && EventBaseKeys <= Keys(r.value.value)
            && Lookup(r.value.value, k) ==
                 (if k in Keys(t.value) then Lookup(t.value, k) else Lookup(CreateEventBase(payload, eventType), k)))
  {
    var payload := ExtractWebhookPayload(message);
    var t := dataTransformer(Get(Get(payload, "data"), "item"), payload);
    if t.Ok? && UniqueKeys(t.value) {
      var base := CreateEventBase(payload, eventType);
      assert UniqueKeys(base);
      SpreadFacts(base, t.value, k);
    }
  }

  /**
   * With the builders of the payload module as transformers, the event's
   * `type` is always the handler's event type: no builder emits a `type` key.
   */
  lemma BuiltEventsKeepType(item: JsValue, payload: JsValue)
    ensures "type" !in Keys(BuildPost(item)) && "type" !in Keys(BuildComment(item)) && "type" !in Keys(BuildVote(item))
    ensures BuildChangelog(item).Ok? ==> "type" !in Keys(BuildChangelog(item).value)
    ensures BuildPostUpdated(item, payload).Ok? ==> "type" !in Keys(BuildPostUpdated(item, payload).value)
    ensures BuildCommentUpdated(item, payload).Ok? ==> "type" !in Keys(BuildCommentUpdated(item, payload).value)
  {
    UpdatedBuildersExtend(item, payload);
  }
}
