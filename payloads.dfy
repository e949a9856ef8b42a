/**
 * The webhook event payload builders of schemas/common.ts.  A builder
 * returns the fields of the object it builds; the builders that call
 * `.map` return the TypeError `.map` throws on a value that is not an array.
 */
module Payloads {
  import opened Wrappers
  import opened Js
  import opened Mappers

  const PostScalarKeys: seq<string> := [
    "id", "title", "content", "slug", "upvotes", "commentCount", "pinned",
    "commentsAllowed", "date", "lastModified", "lastUpvoted"
  ]

  const CommentScalarKeys: seq<string> := [
    "id", "content", "isPrivate", "score", "upvotes", "downvotes", "inReview",
    "pinned", "emailSent", "sendNotification", "createdAt", "updatedAt", "organization"
  ]

  const ChangelogScalarKeys: seq<string> := [
    "id", "title", "content", "markdownContent", "featuredImage", "date", "state", "locale",
    "slug", "firstPublishInLocale", "commentCount", "isPublished", "availableLocales",
    "publishedLocales", "slugs", "organization"
  ]

  /** `buildPostEventPayload(item)` */
  function BuildPost(item: JsValue): Fields {
    [("post", Obj(Pick(item, PostScalarKeys)
                  + [("user", MapUser(Get(item, "user"))),
                     ("status", MapPostStatus(Get(item, "postStatus"))),
                     ("category", MapPostCategory(Get(item, "postCategory")))]))]
  }

  /** `mapFeaturebaseChanges(payload.data.changes || [])` */
  function ChangesOf(payload: JsValue): Result<JsValue, string> {
    match ArrayOf(Or(Get(Get(payload, "data"), "changes"), Arr([])), "changes", "map")
    case Ok(changes) => Ok(Arr(MapChanges(changes)))
    case Err(e) => Err(e)
  }

  /** `{...base, changes: mapFeaturebaseChanges(payload.data.changes || [])}` */
  function WithChanges(base: Fields, payload: JsValue): Result<Fields, string> {
    match ChangesOf(payload)
    case Ok(changes) => Ok(Spread(base, [("changes", changes)]))
    case Err(e) => Err(e)
  }

  /** `buildPostUpdatedEventPayload(item, payload)` */
  function BuildPostUpdated(item: JsValue, payload: JsValue): Result<Fields, string> {
    WithChanges(BuildPost(item), payload)
  }

  /** `buildCommentEventPayload(item)`: the item's `submission` is exposed as `postId`. */
  function BuildComment(item: JsValue): Fields {
    [("comment", Obj(Pick(item, CommentScalarKeys)
                     + [("postId", Get(item, "submission")),
                        ("path", Get(item, "path")),
                        ("user", MapUser(Get(item, "user")))]))]
  }

  /** `buildCommentUpdatedEventPayload(item, payload)` */
  function BuildCommentUpdated(item: JsValue, payload: JsValue): Result<Fields, string> {
    WithChanges(BuildComment(item), payload)
  }

  /** `buildChangelogEventPayload(item)`: `categories` comes from `changelogCategories`. */
  function BuildChangelog(item: JsValue): Result<Fields, string> {
    match ArrayOf(Get(item, "changelogCategories"), "categories", "map")
    case Ok(categories) =>
      Ok([("changelog", Obj(Pick(item, ChangelogScalarKeys)
                            + [("categories", Arr(MapChangelogCategories(categories)))]))])
    case Err(e) => Err(e)
  }

  /** `buildVoteEventPayload(item)` */
  function BuildVote(item: JsValue): Fields {
    [("vote", Obj([("action", Get(item, "action")),
                   ("postId", Get(item, "submissionId")),
                   ("user", MapUser(Get(item, "user")))]))]
  }

  // ---------------------------------------------------------------------
  // What the payloads hold

  lemma {:induction false} LookupAppend(a: Fields, b: Fields, k: string)
    ensures Lookup(a + b, k) == if k in Keys(a) then Lookup(a, k) else Lookup(b, k)
  {
    if a == [] {
      assert a + b == b;
    } else {
      KeysTail(a);
      assert (a + b)[0] == a[0] && (a + b)[1..] == a[1..] + b;
      LookupAppend(a[1..], b, k);
    }
  }

  /** A field of the nested part of a payload reads as written there. */
  lemma LookupNested(scalars: Fields, nested: Fields, i: nat)
    requires UniqueKeys(nested) && i < |nested| && nested[i].0 !in Keys(scalars)
    ensures Lookup(scalars + nested, nested[i].0) == nested[i].1
  {
    LookupAppend(scalars, nested, nested[i].0);
    LookupAt(nested, i);
  }

  /** The post payload copies the item's scalar fields. */
  lemma PostPayloadCopies(item: JsValue, k: string)
    requires k in PostScalarKeys
    ensures Get(Lookup(BuildPost(item), "post"), k) == Get(item, k)
  {
    var scalars := Pick(item, PostScalarKeys);
    PickKeys(item, PostScalarKeys);
    PickLookup(item, PostScalarKeys, k);
    LookupAppend(scalars, BuildPost(item)[0].1.fields[|scalars|..], k);
    assert BuildPost(item)[0].1.fields == scalars + BuildPost(item)[0].1.fields[|scalars|..];
  }

  /**
   * The post payload nests the mapped user, the mapped `postStatus` as
   * `status` and the mapped `postCategory` as `category`.
   */
  lemma PostPayloadNests(item: JsValue)
    ensures var post := Lookup(BuildPost(item), "post");
      && Get(post, "user") == MapUser(Get(item, "user"))
      && Get(post, "status") == MapPostStatus(Get(item, "postStatus"))
      && Get(post, "category") == MapPostCategory(Get(item, "postCategory"))
  {
    var scalars := Pick(item, PostScalarKeys);
    var user, status, category := MapUser(Get(item, "user")), MapPostStatus(Get(item, "postStatus")),
                                  MapPostCategory(Get(item, "postCategory"));
    var nested := [("user", user), ("status", status), ("category", category)];
    PickKeys(item, PostScalarKeys);
    PostNestedKeysFresh();
    assert Lookup(BuildPost(item), "post") == Obj(scalars + nested);
    assert UniqueKeys(nested);
    LookupNested(scalars, nested, 0);
    LookupNested(scalars, nested, 1);
    LookupNested(scalars, nested, 2);
  }

  /** None of the post's nested keys is one of its scalar keys. */
  lemma PostNestedKeysFresh()
    ensures "user" !in PostScalarKeys && "status" !in PostScalarKeys && "category" !in PostScalarKeys
  {
  }

  /** The comment payload copies the item's scalar fields. */
  lemma CommentPayloadCopies(item: JsValue, k: string)
    requires k in CommentScalarKeys
    ensures Get(Lookup(BuildComment(item), "comment"), k) == Get(item, k)
  {
    var scalars := Pick(item, CommentScalarKeys);
    PickKeys(item, CommentScalarKeys);
    PickLookup(item, CommentScalarKeys, k);
    LookupAppend(scalars, BuildComment(item)[0].1.fields[|scalars|..], k);
    assert BuildComment(item)[0].1.fields == scalars + BuildComment(item)[0].1.fields[|scalars|..];
  }

  /** The comment payload exposes the item's `submission` as `postId`, and maps its user. */
  lemma CommentPayloadNests(item: JsValue)
    ensures var comment := Lookup(BuildComment(item), "comment");
      && Get(comment, "postId") == Get(item, "submission")
      && Get(comment, "path") == Get(item, "path")
      && Get(comment, "user") == MapUser(Get(item, "user"))
  {
    var scalars := Pick(item, CommentScalarKeys);
    var nested := [("postId", Get(item, "submission")), ("path", Get(item, "path")),
                   ("user", MapUser(Get(item, "user")))];
    PickKeys(item, CommentScalarKeys);
    CommentNestedKeysFresh();
    assert Lookup(BuildComment(item), "comment") == Obj(scalars + nested);
    assert UniqueKeys(nested);
    LookupNested(scalars, nested, 0);
    LookupNested(scalars, nested, 1);
    LookupNested(scalars, nested, 2);
  }

  /** None of the comment's nested keys is one of its scalar keys. */
  lemma CommentNestedKeysFresh()
    ensures "postId" !in CommentScalarKeys && "path" !in CommentScalarKeys && "user" !in CommentScalarKeys
  {
  }

  /** The comment payload has no `submission` key: the item's submission only appears as `postId`. */
  lemma CommentPayloadRenamesSubmission(item: JsValue)
    ensures Get(Lookup(BuildComment(item), "comment"), "submission") == Undefined
  {
    var scalars := Pick(item, CommentScalarKeys);
    var nested := [("postId", Get(item, "submission")), ("path", Get(item, "path")),
                   ("user", MapUser(Get(item, "user")))];
    PickKeys(item, CommentScalarKeys);
    assert Lookup(BuildComment(item), "comment") == Obj(scalars + nested);
    assert "submission" !in CommentScalarKeys;
    LookupAppend(scalars, nested, "submission");
    LookupAbsent(scalars, "submission");
    LookupAbsent(nested, "submission");
  }

  /** The changelog payload copies the item's scalar fields. */
  lemma ChangelogPayloadCopies(item: JsValue, k: string)
    requires Get(item, "changelogCategories").Arr? && k in ChangelogScalarKeys
    ensures BuildChangelog(item).Ok?
    ensures Get(Lookup(BuildChangelog(item).value, "changelog"), k) == Get(item, k)
  {
    var scalars := Pick(item, ChangelogScalarKeys);
    var nested := [("categories", Arr(MapChangelogCategories(Get(item, "changelogCategories").elems)))];
    PickKeys(item, ChangelogScalarKeys);
    PickLookup(item, ChangelogScalarKeys, k);
    LookupAppend(scalars, nested, k);
  }

  /**
   * The changelog payload takes `categories` from the mapped
   * `changelogCategories` and does not carry `notifications`,
   * `allowedSegmentIds` or `isDraftDiffersFromLive`.
   */
  lemma ChangelogPayloadCategories(item: JsValue, k: string)
    requires Get(item, "changelogCategories").Arr?
    requires k in ["notifications", "allowedSegmentIds", "isDraftDiffersFromLive"]
    ensures BuildChangelog(item).Ok?
    ensures var changelog := Lookup(BuildChangelog(item).value, "changelog");
      && Get(changelog, "categories") == Arr(MapChangelogCategories(Get(item, "changelogCategories").elems))
      && Get(changelog, k) == Undefined
  {
    var scalars := Pick(item, ChangelogScalarKeys);
    var nested := [("categories", Arr(MapChangelogCategories(Get(item, "changelogCategories").elems)))];
    PickKeys(item, ChangelogScalarKeys);
    ChangelogExtraKeysFresh(k);
    LookupAppend(scalars, nested, "categories");
    LookupAppend(scalars, nested, k);
  }

  /** Neither `categories` nor the fields the schema has but the builder drops is a scalar key. */
  lemma ChangelogExtraKeysFresh(k: string)
    requires k in ["notifications", "allowedSegmentIds", "isDraftDiffersFromLive"]
    ensures "categories" !in ChangelogScalarKeys && k !in ChangelogScalarKeys
  {
  }

  /** A changelog item whose categories are not an array makes the builder throw. */
  lemma ChangelogNeedsCategoryArray(item: JsValue)
    ensures BuildChangelog(item).Err? <==> !Get(item, "changelogCategories").Arr?
  {
  }

  /** The vote payload is `{action, postId: item.submissionId, user: mapped user}`. */
  lemma VotePayloadFacts(item: JsValue)
    ensures var vote := Lookup(BuildVote(item), "vote");
      && Keys(vote.fields) == ["action", "postId", "user"]
      && Get(vote, "action") == Get(item, "action")
      && Get(vote, "postId") == Get(item, "submissionId")
      && Get(vote, "user") == MapUser(Get(item, "user"))
  {
    var vote := Lookup(BuildVote(item), "vote");
    assert UniqueKeys(vote.fields);
    LookupAt(vote.fields, 1);
    LookupAt(vote.fields, 2);
  }

  /**
   * An updated payload is its base payload followed by `changes`: the
   * mapped `data.changes`, or [] when that is absent (or otherwise falsy).
   */
  lemma UpdatedPayloadFacts(base: Fields, payload: JsValue)
    requires "changes" !in Keys(base)
    ensures var changes := Get(Get(payload, "data"), "changes");
      && (WithChanges(base, payload).Ok? <==> !Truthy(changes) || changes.Arr?)
      && (!Truthy(changes) ==> WithChanges(base, payload) == Ok(base + [("changes", Arr([]))]))
      && (changes.Arr? ==> WithChanges(base, payload) == Ok(base + [("changes", Arr(MapChanges(changes.elems)))]))
  {
    var changes := Get(Get(payload, "data"), "changes");
    if !Truthy(changes) {
      assert Or(changes, Arr([])) == Arr([]);
      assert MapChanges([]) == [];
      SetAbsent(base, "changes", Arr([]));
    } else if changes.Arr? {
      assert Or(changes, Arr([])) == changes;
      SetAbsent(base, "changes", Arr(MapChanges(changes.elems)));
    }
  }

  /** The updated builders are the plain builders plus `changes`. */
  lemma UpdatedBuildersExtend(item: JsValue, payload: JsValue)
    ensures BuildPostUpdated(item, payload).Ok? ==>
      var r := BuildPostUpdated(item, payload).value;
      |r| == 2 && r[..1] == BuildPost(item) && Keys(r) == ["post", "changes"]
    ensures BuildCommentUpdated(item, payload).Ok? ==>
      var r := BuildCommentUpdated(item, payload).value;
      |r| == 2 && r[..1] == BuildComment(item) && Keys(r) == ["comment", "changes"]
  {
    UpdatedPayloadFacts(BuildPost(item), payload);
    UpdatedPayloadFacts(BuildComment(item), payload);
  }
}
