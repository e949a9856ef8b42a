# Featurebase connector core, modelled in Dafny

This project models the core of the Featurebase app for a workflow host: the
webhook endpoint, the Featurebase API request helper, and the blocks that
reshape API calls and webhook payloads into events. It proves what each part
promises.

- **Webhook ingress.** `Security.Verify` is `verifyFeaturebaseWebhook`: missing
  inputs, then the 300-second freshness window, then the signature
  comparison. `Ingress` holds the topic table (`EVENT_CONFIG`), the payload
  validators and the `http.onRequest` ladder of early responses. The host
  calls `blocks.list` and `messaging.sendToBlocks` are returned, in order, next
  to the response.
- **Request helper.** `ApiHelpers` builds the request `makeFeaturebaseRequest`
  hands to `fetch`:
  - the URL, with its query strings as ordered (key, value) pairs;
  - the headers;
  - a JSON or form body;
  - the classification of what `fetch` returned.

  It also holds the endpoint and method table of the wrapper functions.
- **Params cleaning.** `ObjectUtils.CleanParams` is `cleanParams`, which
  deletes undefined-valued keys from an object in place.
- **Custom-field resolution.** `ResolveCustomFields.OnEvent` is the loop of the
  `resolveCustomFields` block.
- **Action blocks.** `PostBlocks`, `CommentBlocks`, `ChangelogBlocks` and
  `IdentifyUserBlocks` cover each block's params, request and emitted event.
  Each event is also stated as a fact about the inputs and the response.
  `Blocks` holds what they share: the call, the `x || default` fallbacks,
  cleaned params literals, and the lists of updated fields.
- **Subscription blocks.** `WebhookHandlers`, `Payloads` and `Mappers` model
  the message handler, the event payload builders and the record mappers
  these blocks use.

JavaScript values are the datatype `Js.JsValue`:
- objects are ordered field lists, because insertion order shows in query
  strings and in `updatedFields`;
- `Truthy`, `Or` (`||`) and `StrictEquals` (`===`) follow JavaScript.

The parts of the source that change state are imperative here:
- `cleanParams`;
- the loops of the request helper;
- the `updatedFields` pushes of updateComment;
- the `params` object that createComment and the identify-user blocks fill
  field by field;
- the `resolveCustomFields` loop.

Each of these is proved against a specification function. The clock, the
HMAC digest, hex decoding and `fetch` are parameters.

## Model

| member | source | states |
|---|---|---|
| Security.Verify | security.ts:8-53 | the result is valid exactly when it carries no error; a valid result means the decoded signature equals the decoded HMAC of `timestamp.rawBody` |
| Security.MissingInputsFirst | security.ts:15-20 | an empty signature, timestamp or secret gives "Missing signature, timestamp, or secret", whatever the clock and the digest |
| Security.StaleRejected | security.ts:22-31 | present inputs with a parsed timestamp more than 300 s from now give "Webhook timestamp too old or too far in the future" |
| Security.FreshDecidedBySignature | security.ts:33-52 | once fresh, the outcome depends only on the signature bytes: equal is valid, same length and different is "Invalid signature", and a length mismatch is caught as "Verification failed: …" |
| Security.ValidIff | security.ts:14-46 | valid iff the inputs are present, the timestamp is fresh (or NaN), and the decoded signature equals the decoded digest |
| Security.WindowBoundary | security.ts:24-26 | a difference of exactly 300 s passes and 301 s fails |
| Security.TimingSafeEqual | security.ts:38-41 | throws exactly on a length mismatch; otherwise true iff the buffers are equal byte for byte |
| Security.DigitRun | security.ts:23 | the digits `parseInt` reads are the longest run of decimal digits at the start |
| Security.ParseIntReadsDecimal | security.ts:23 | `parseInt(String(i), 10)` is `i` for every integer |
| Security.ParseIntNaN | security.ts:23-26 | `parseInt` gives NaN exactly when no digit follows the leading white space and one optional sign, for every text; a NaN timestamp is never rejected as stale |
| Security.ParseInt10 | security.ts:23 | definition of `parseInt(timestamp, 10)`; stated by DigitRun, ParseIntReadsDecimal and ParseIntNaN |
| Security.Fresh | security.ts:22-31 | definition of the 300-second window (NaN passes); stated by StaleRejected, WindowBoundary and ParseIntNaN |
| Ingress.EventConfigFor | main.ts:100-133 | the table has an entry exactly for the eight topics |
| Ingress.EventTableItemTypes | main.ts:100-133 | post topics expect "post", post.voted "post_vote", changelog.published "changelog", and comment topics "comment" |
| Ingress.EventTableBlockTypesDistinct | main.ts:100-133 | no two topics notify the same subscription block type |
| Ingress.ValidateIff | main.ts:75-98 | the validator accepts exactly an object whose `topic` is the expected topic and whose `data.item` is an object of the expected `type` |
| Ingress.ValidatorRejectsOtherTopics | main.ts:79-95 | each table entry's validator rejects a payload for any other topic |
| Ingress.Validate | main.ts:75-98 | definition of `createWebhookValidator`; stated by ValidateIff and ValidatorRejectsOtherTopics |
| Ingress.Admit | main.ts:233-296 | the rejection order is 404 for another path, 405 for another method, 400 for missing headers, 400 for a missing secret, then 401 with the verification error; nothing is rejected iff every check passes |
| Ingress.DispatchOutcome | main.ts:298-367 | definition of the try block's answer and host calls; stated by Dispatch and OnRequest |
| Ingress.Dispatch | main.ts:298-367 | the step-by-step handler equals `DispatchOutcome`; a nullish body gives 500; an unknown topic gives 200 "Event type not supported"; an invalid payload gives 400; no subscribers gives 200 "No subscription blocks found"; otherwise `{headers, payload}` goes to exactly the listed ids and `blocksNotified` is their count; a host failure gives 500 |
| Ingress.OnRequest | main.ts:233-367 | a rejected request gets the `Admit` answer and makes no host call; an authentic one gets exactly `DispatchOutcome`'s answer and host calls; the topic's block type is listed first, and a send happens only after a successful listing |
| ApiHelpers.EncodePairsAppend | utils/apiHelpers.ts:66-76 | the pairs of concatenated entries are the concatenated pairs, so entry order is kept |
| ApiHelpers.FlatPairsAppend | utils/apiHelpers.ts:91-96 | the same, for the GET-body encoding |
| ApiHelpers.AppendEncoded | utils/apiHelpers.ts:66-76 | the `forEach` loop appends exactly the specified pairs: nullish values skipped, arrays one pair per element |
| ApiHelpers.AppendEach | utils/apiHelpers.ts:70-71 | one `(key, String(v))` pair per array element, in order |
| ApiHelpers.AppendFlat | utils/apiHelpers.ts:91-96 | the GET-body loop skips nullish values and does not expand arrays |
| ApiHelpers.BuildRequest | utils/apiHelpers.ts:61-118 | the step-by-step construction yields the specified URL, method, headers and body |
| ApiHelpers.RequestFor | utils/apiHelpers.ts:61-118 | definition of the request `makeFeaturebaseRequest` sends; stated by BuildRequest, HeadersFollowBody, GetBodySeparator, NoPairsNoQuery and AppConfigReachesRequest |
| ApiHelpers.Classify | utils/apiHelpers.ts:134-150 | ok responses yield their data; a non-ok response is FeaturebaseApiError with its status and data; no response is a network error |
| ApiHelpers.MakeFeaturebaseRequest | utils/apiHelpers.ts:51-151 | sends the specified request and returns the classification of what `fetch` returned |
| ApiHelpers.EncodePairsFrom | utils/apiHelpers.ts:68-75 | every encoded pair comes from a non-nullish entry with the same key |
| ApiHelpers.NoPairsNoQuery | utils/apiHelpers.ts:77-80 | with only nullish query values, no "?" is appended |
| ApiHelpers.NoNullishPairs | utils/apiHelpers.ts:69 | entries that are all nullish encode to no pairs |
| ApiHelpers.HeadersFollowBody | utils/apiHelpers.ts:83-116 | X-API-Key comes first; a Content-Type header follows iff a non-GET call has a body, and names JSON or form encoding to match the body |
| ApiHelpers.GetBodySeparator | utils/apiHelpers.ts:88-97 | a GET body goes into the URL after "&" iff the URL already has a "?", otherwise after "?", and is never sent as a body |
| ApiHelpers.WrapperFixesRoute | utils/apiHelpers.ts:153-502 | each wrapper fixes its method, and its path unless the id is interpolated (admins, boards, custom fields, surveys) |
| ApiHelpers.JsonOnlyForIdentifyAndDelete | utils/apiHelpers.ts:482-502 | only identifyUser (POST) and deleteUser (DELETE) use JSON mode |
| ApiHelpers.GetsUseQueryOthersUseBody | utils/apiHelpers.ts:153-502 | GET wrappers pass params as the query and never as a body; the others pass them as the body |
| ApiHelpers.Wrapper | utils/apiHelpers.ts:153-502 | definition of each wrapper's path and options; stated by WrapperFixesRoute, JsonOnlyForIdentifyAndDelete and GetsUseQueryOthersUseBody |
| ObjectUtils.CleanParams | utils/objectUtils.ts:14-21 | deletes, in place, exactly the undefined-valued keys, keeps the others in order, and returns the same reference |
| ObjectUtils.CleanedHasNoUndefined | utils/objectUtils.ts:15-19 | no key of the cleaned object holds undefined |
| ObjectUtils.CleanedReadsTheSame | utils/objectUtils.ts:15-19 | every key reads the same after cleaning; a key stays iff its value was not undefined (null, false, 0 and "" stay) |
| ObjectUtils.CleanedKeys | utils/objectUtils.ts:15-19 | the cleaned keys are the defined keys, in their original order |
| ObjectUtils.CleanedUnique | utils/objectUtils.ts:15-19 | cleaning keeps keys distinct |
| ObjectUtils.CleanedIdempotent | utils/objectUtils.ts:14-20 | cleaning twice is cleaning once |
| ObjectUtils.Cleaned | utils/objectUtils.ts:14-21 | definition of the object `cleanParams` leaves; stated by CleanParams, CleanedHasNoUndefined, CleanedReadsTheSame, CleanedKeys, CleanedUnique and CleanedIdempotent |
| ObjectUtils.EncodeIgnoresUndefined | utils/apiHelpers.ts:66-113 | the encoders produce the same pairs for an object and its cleaned copy |
| ObjectUtils.AppConfigReachesRequest | utils/objectUtils.ts:29-34 | a request made with the app configuration carries its apiKey, and goes to its baseUrl or to https://do.featurebase.app when that is falsy |
| ObjectUtils.CreateApiConfig | utils/objectUtils.ts:29-34 | definition of `createApiConfig`; stated by AppConfigReachesRequest |
| ResolveCustomFields.OnEvent | blocks/customFields/resolveCustomFields.ts:28-96 | the loop produces exactly the specified resolution, or throws where it does |
| ResolveCustomFields.Resolution | blocks/customFields/resolveCustomFields.ts:28-96 | definition of what the block emits or throws; stated by OnEvent, CatalogFailureThrows, NoValuesNoOutput and OutputFollowsInput |
| ResolveCustomFields.ResolveEntry | blocks/customFields/resolveCustomFields.ts:47-93 | definition of one entry's contribution; stated by SkipsExactlyEmpty, UnknownFieldKeptRaw, KnownFieldResolved, KnownFieldPlain and KnownFieldOptionsNotArray |
| ResolveCustomFields.ErrorStops | blocks/customFields/resolveCustomFields.ts:44-94 | once an entry throws, the whole resolution throws |
| ResolveCustomFields.CatalogFailureThrows | blocks/customFields/resolveCustomFields.ts:36-38 | a falsy catalog `success` throws "Failed to fetch custom fields" and emits nothing |
| ResolveCustomFields.NoValuesNoOutput | blocks/customFields/resolveCustomFields.ts:44-46 | a missing `customInputValues` gives an empty output |
| ResolveCustomFields.SkipsExactlyEmpty | blocks/customFields/resolveCustomFields.ts:48-55 | an entry is skipped iff its value is null, undefined, "" or an empty array; 0 and false are kept |
| ResolveCustomFields.OutputFollowsInput | blocks/customFields/resolveCustomFields.ts:44-93 | the output has one element per kept entry, in input order |
| ResolveCustomFields.FindByIdFirst | blocks/customFields/resolveCustomFields.ts:57 | `find` returns the first field whose `_id` matches, or undefined when none does |
| ResolveCustomFields.FindById | blocks/customFields/resolveCustomFields.ts:57 | definition of `find` by strict `_id` equality; stated by FindByIdFirst |
| ResolveCustomFields.ResolveOption | blocks/customFields/resolveCustomFields.ts:71-76 | definition of `resolveOption`; stated by ResolveOptionFacts and ResolveOptionUnmatched |
| ResolveCustomFields.UnknownFieldKeptRaw | blocks/customFields/resolveCustomFields.ts:59-64 | an unmatched id yields `{label: "Unknown Field", value: raw}`, with no option resolution and no unwrapping |
| ResolveCustomFields.KnownFieldResolved | blocks/customFields/resolveCustomFields.ts:67-93 | a known entry is labelled with the first matching field's label, and its value is resolved and then unwrapped |
| ResolveCustomFields.KnownFieldPlain | blocks/customFields/resolveCustomFields.ts:67-93 | a known field without options is labelled with the first matching field's label, and its raw value is only unwrapped |
| ResolveCustomFields.KnownFieldOptionsNotArray | blocks/customFields/resolveCustomFields.ts:69-83 | options with a positive `length` that are no array (a string, or an object with its own `length`) make a string or array value throw "field.options.find is not a function"; other values pass through labelled |
| ResolveCustomFields.ResolveOptionFacts | blocks/customFields/resolveCustomFields.ts:71-76 | a matching option id becomes the label of the first option whose `_id` matches |
| ResolveCustomFields.ResolveOptionUnmatched | blocks/customFields/resolveCustomFields.ts:71-76 | an id no option matches is kept as it is |
| ResolveCustomFields.UnwrapOnlySingletons | blocks/customFields/resolveCustomFields.ts:86-88 | exactly a one-element array is unwrapped |
| Blocks.CallFacts | utils/apiHelpers.ts:120-150 | a block sends exactly the wrapper's request; a failed call is rethrown unchanged with nothing emitted; a successful one emits the event built from the response |
| Blocks.Call | utils/apiHelpers.ts:120-150 | definition of one block run: the wrapper call, then the emitted event or the rethrown error; stated by CallFacts |
| Blocks.SuccessNeverFalse | blocks/posts/updatePost.ts:113 | `response.success \|\| true` is the response's flag when truthy, otherwise true, and never false |
| Blocks.ResultsFallback | blocks/posts/listPosts.ts:91 | `response.results \|\| []` |
| Blocks.PaginationFallbacks | blocks/posts/listPosts.ts:92-97 | page, limit, totalPages and totalResults fall back to 1, 10, 1 and 0 whenever falsy, including 0 |
| Blocks.CleanPickFacts | blocks/posts/createPost.ts:87-98 | a cleaned params literal holds exactly the supplied inputs, with their values |
| Blocks.EncodePickAt | utils/apiHelpers.ts:66-76 | a params literal's pairs are those of the earlier keys, then this key's, then the later keys', in literal order |
| Blocks.DefinedAmongFacts | blocks/comments/updateComment.ts:71-76 | a key is listed iff it is among the candidates and defined; the list keeps the candidates' order and is no longer than they are |
| Blocks.UpdatedFieldsIgnoreCleaning | blocks/changelogs/updateChangelog.ts:72-95 | cleaning does not change the list of updated fields |
| Blocks.UpdatedFieldsOfLiteral | blocks/posts/updatePost.ts:92-118 | the updated fields of a literal over `id` and other keys are the defined inputs among the other keys, in literal order, never "id" |
| Blocks.FoundEventFacts | blocks/posts/getPost.ts:26-35 | the chosen value is the first element of an array `results`, otherwise `results`; `found` iff it is truthy; the record is that value or null; success is true |
| PostBlocks.UpdatePostEventFacts | blocks/posts/updatePost.ts:111-118 | `postId` echoes the id; `updatedFields` is the non-undefined inputs (false and "" count), in literal order, never "id"; success falls back to true |
| PostBlocks.UpdatePostSendsDefinedOnly | blocks/posts/updatePost.ts:92-109 | the uncleaned params go out as a PATCH whose form body is that of the cleaned params |
| PostBlocks.UpdatePostBlock | blocks/posts/updatePost.ts:91-120 | definition of the block's `onEvent`; stated by UpdatePostEventFacts and UpdatePostSendsDefinedOnly |
| PostBlocks.GetPostQueriesId | blocks/posts/getPost.ts:20-24 | the post is fetched by a GET whose only query parameter is the id |
| PostBlocks.GetPostBlock | blocks/posts/getPost.ts:20-36 | definition of the block's `onEvent`; stated by GetPostQueriesId and Blocks.FoundEventFacts |
| PostBlocks.ListPostsEventFacts | blocks/posts/listPosts.ts:90-99 | posts and pagination take their fallbacks; success is the literal true |
| PostBlocks.ListPostsQuery | blocks/posts/listPosts.ts:74-88 | the uncleaned filters go out as the GET's query in literal order: undefined adds nothing, arrays repeat the key, and no filters means no query string |
| PostBlocks.ListPostsBlock | blocks/posts/listPosts.ts:73-100 | definition of the block's `onEvent`; stated by ListPostsQuery and ListPostsEventFacts |
| PostBlocks.UpvotersEventFacts | blocks/posts/getPostUpvoters.ts:47-57 | `postId` echoes submissionId; upvoters, pagination and success take their fallbacks |
| PostBlocks.GetPostUpvotersBlock | blocks/posts/getPostUpvoters.ts:35-58 | definition of the block's `onEvent`; stated by UpvotersEventFacts |
| PostBlocks.CreatePostFacts | blocks/posts/createPost.ts:86-108 | a form POST to /v2/posts carries exactly the supplied inputs, unchanged; the event's `post` is the response's `submission` |
| PostBlocks.CreatePostBlock | blocks/posts/createPost.ts:86-109 | definition of the block's `onEvent`; stated by CreatePostFacts |
| CommentBlocks.PushIfDefined | blocks/comments/updateComment.ts:72-76 | one `if (params.k !== undefined) updatedFields.push(k)` extends the list of defined fields among those seen so far by `k` exactly when its value is defined |
| CommentBlocks.TrackUpdatedFields | blocks/comments/updateComment.ts:71-76 | the five conditional pushes list the defined fields in the fixed order content, isPrivate, pinned, inReview, createdAt |
| CommentBlocks.BuildUpdateCommentEvent | blocks/comments/updateComment.ts:66-90 | the event built with the tracked fields is the specified event |
| CommentBlocks.UpdateCommentTracksSupplied | blocks/comments/updateComment.ts:56-87 | `updatedFields` is exactly the supplied fields in the fixed order, never "id", at most five; `updates` echoes all five values, undefined where not supplied |
| CommentBlocks.UpdateCommentEventFacts | blocks/comments/updateComment.ts:78-90 | `commentId` echoes the id; the event carries the tracked fields and the updates; success falls back to true |
| CommentBlocks.UpdateCommentBlock | blocks/comments/updateComment.ts:55-91 | definition of the block's `onEvent`; stated by BuildUpdateCommentEvent, UpdateCommentTracksSupplied and UpdateCommentEventFacts |
| CommentBlocks.BuildCreateCommentParams | blocks/comments/createComment.ts:85-109 | the params object is filled, given an author when a name or email is truthy, and cleaned in place, exactly as specified |
| CommentBlocks.CreateCommentParamsFacts | blocks/comments/createComment.ts:85-109 | `author` is sent iff authorName or authorEmail is truthy, always with its three keys; no top-level value is undefined; other inputs are sent unchanged |
| CommentBlocks.CreateCommentEventFacts | blocks/comments/createComment.ts:112-120 | `comment` is the response's comment or the whole response; success falls back to true; the three ids are echoed; `isReply` iff parentCommentId is truthy |
| CommentBlocks.CreateCommentBlock | blocks/comments/createComment.ts:84-121 | definition of the block's `onEvent`; stated by BuildCreateCommentParams, CreateCommentParamsFacts and CreateCommentEventFacts |
| CommentBlocks.ListCommentsQueryFacts | blocks/comments/listComments.ts:78-92 | only supplied inputs are queried, each with the value given |
| CommentBlocks.ListCommentsFacts | blocks/comments/listComments.ts:94-111 | `filters` echoes the six filter inputs, undefined where not supplied, but not limit or page; the list fallbacks apply; success is true |
| CommentBlocks.ListCommentsBlock | blocks/comments/listComments.ts:77-112 | definition of the block's `onEvent`; stated by ListCommentsQueryFacts and ListCommentsFacts |
| ChangelogBlocks.UpdateChangelogFacts | blocks/changelogs/updateChangelog.ts:71-97 | undefined inputs are not sent; `updatedFields` is the remaining keys other than id, in literal order; `changelogId` echoes the id; success falls back to true |
| ChangelogBlocks.UpdateChangelogBlock | blocks/changelogs/updateChangelog.ts:71-97 | definition of the block's `onEvent`; stated by UpdateChangelogFacts |
| ChangelogBlocks.GetChangelogQueriesId | blocks/changelogs/getChangelog.ts:20-24 | the changelog is fetched by a GET to /v2/changelog whose only query parameter is the id |
| ChangelogBlocks.GetChangelogBlock | blocks/changelogs/getChangelog.ts:20-36 | definition of the block's `onEvent`; stated by GetChangelogQueriesId and Blocks.FoundEventFacts |
| ChangelogBlocks.ListChangelogsQuery | blocks/changelogs/listChangelogs.ts:62-74 | the uncleaned params are the GET's query in literal order: undefined inputs add nothing and the categories array one pair per element |
| ChangelogBlocks.ListChangelogsEventFacts | blocks/changelogs/listChangelogs.ts:76-85 | the list fallbacks apply; success is true |
| ChangelogBlocks.ListChangelogsBlock | blocks/changelogs/listChangelogs.ts:61-86 | definition of the block's `onEvent`; stated by ListChangelogsQuery and ListChangelogsEventFacts |
| ChangelogBlocks.SubscribersParamsFacts | blocks/changelogs/addChangelogSubscribers.ts:33-36 | an undefined locale is not sent; emails and locale go out as given (the removing block alike) |
| ChangelogBlocks.SubscribersEventFacts | blocks/changelogs/addChangelogSubscribers.ts:43-48 | reading the emails' length throws iff no emails were given; an emails array is echoed with its length as the count; locale defaults to "en"; success falls back to true (the removing block alike) |
| ChangelogBlocks.SubscribersRoutes | utils/apiHelpers.ts:341-359 | adding sends a POST and removing a DELETE, both to /v2/changelog/subscribers |
| ChangelogBlocks.SubscribersEvent | blocks/changelogs/addChangelogSubscribers.ts:43-48 | definition of the add/remove event, including the throwing `emails.length`; stated by SubscribersEventFacts |
| ChangelogBlocks.AddChangelogSubscribersBlock | blocks/changelogs/addChangelogSubscribers.ts:32-49 | definition of the block's `onEvent`; stated by SubscribersParamsFacts, SubscribersRoutes and SubscribersEventFacts |
| ChangelogBlocks.RemoveChangelogSubscribersBlock | blocks/changelogs/removeChangelogSubscribers.ts:32-51 | definition of the block's `onEvent`; stated by SubscribersParamsFacts, SubscribersRoutes and SubscribersEventFacts |
| ChangelogBlocks.PublishFacts | blocks/changelogs/publishChangelog.ts:46-66 | only supplied inputs are sent; the event echoes the id, `emailSent` is sendEmail, locales fall back to [] |
| ChangelogBlocks.PublishChangelogBlock | blocks/changelogs/publishChangelog.ts:46-66 | definition of the block's `onEvent`; stated by PublishFacts |
| ChangelogBlocks.UnpublishFacts | blocks/changelogs/unpublishChangelog.ts:31-48 | only supplied inputs are sent; the event echoes the id; locales fall back to [] |
| ChangelogBlocks.UnpublishChangelogBlock | blocks/changelogs/unpublishChangelog.ts:31-48 | definition of the block's `onEvent`; stated by UnpublishFacts |
| ChangelogBlocks.SubscriberListRequest | blocks/changelogs/getChangelogSubscribers.ts:15-18 | a GET to /v2/changelog/subscribers with no query and no body |
| ChangelogBlocks.SubscriberListEventFacts | blocks/changelogs/getChangelogSubscribers.ts:19-27 | emails fall back to []; `totalSubscribers` is the length of the emitted emails; success falls back to true |
| ChangelogBlocks.GetChangelogSubscribersBlock | blocks/changelogs/getChangelogSubscribers.ts:15-27 | definition of the block's `onEvent`; stated by SubscriberListRequest and SubscriberListEventFacts |
| ChangelogBlocks.CreateChangelogRequest | blocks/changelogs/createChangelog.ts:74-90 | a form POST to /v2/changelog carries exactly the supplied inputs, unchanged |
| ChangelogBlocks.CreateChangelogEventFacts | blocks/changelogs/createChangelog.ts:91-95 | the changelog is the response's `results` when truthy, otherwise its `changelog`; success falls back to true |
| ChangelogBlocks.CreateChangelogBlock | blocks/changelogs/createChangelog.ts:74-95 | definition of the block's `onEvent`; stated by CreateChangelogRequest and CreateChangelogEventFacts |
| IdentifyUserBlocks.AssignedFacts | blocks/identifyUsers/identifyUser.ts:167-180 | the conditionally filled params hold a key iff one of its assignments ran, with the input's own value, each key once |
| IdentifyUserBlocks.NothingAssigned | blocks/identifyUsers/queryIdentifyUsers.ts:67-79 | when every input is falsy, truthy-only assignments leave the params empty |
| IdentifyUserBlocks.ApplyRule | blocks/identifyUsers/identifyUser.ts:171-180 | one conditional assignment extends the params assigned so far by the next rule |
| IdentifyUserBlocks.BuildIdentifyUserParams | blocks/identifyUsers/identifyUser.ts:156-180 | `{name}` followed by the nine conditional assignments yields the specified params |
| IdentifyUserBlocks.IdentifyUserBlock | blocks/identifyUsers/identifyUser.ts:149-184 | both email and userId falsy throws "Either email or userId must be provided" with no request; otherwise the assigned params are sent and the result emitted unchanged |
| IdentifyUserBlocks.IdentifyUserAlwaysSends | blocks/identifyUsers/identifyUser.ts:167-175 | `name` is always sent; `subscribedToChangelog` is sent iff defined, so false is sent |
| IdentifyUserBlocks.IdentifyUserSendsTruthy | blocks/identifyUsers/identifyUser.ts:171-180 | email, userId, profilePicture, companies, customFields, createdAt, roles and locale are sent iff truthy, unchanged; no other key is sent |
| IdentifyUserBlocks.IdentifyUserRequest | utils/apiHelpers.ts:482-491 | a JSON POST to /v2/organization/identifyUser whose body is the params object |
| IdentifyUserBlocks.BuildDeleteUserParams | blocks/identifyUsers/deleteUser.ts:45-47 | the two conditional assignments yield the specified params |
| IdentifyUserBlocks.DeleteUserBlock | blocks/identifyUsers/deleteUser.ts:38-51 | both falsy throws "Either email or userId must be provided" with no request; otherwise the params are sent and the result emitted unchanged |
| IdentifyUserBlocks.EitherOrFacts | blocks/identifyUsers/deleteUser.ts:45-47 | each of the two fields is sent iff truthy, unchanged, and nothing else (getIdentifyUser alike, with email and id) |
| IdentifyUserBlocks.DeleteUserRequest | utils/apiHelpers.ts:493-502 | a JSON DELETE to /v2/organization/deleteUser whose body is the params object |
| IdentifyUserBlocks.BuildGetIdentifyUserParams | blocks/identifyUsers/getIdentifyUser.ts:44-46 | the two conditional assignments yield the specified params |
| IdentifyUserBlocks.GetIdentifyUserBlock | blocks/identifyUsers/getIdentifyUser.ts:37-50 | both email and id falsy throws "Either email or id must be provided" with no request; otherwise the params are sent, both when both are given, and the result emitted unchanged |
| IdentifyUserBlocks.GetIdentifyUserRequest | utils/apiHelpers.ts:462-470 | a GET to /v2/organization/identifyUser carrying the params as its query and no body |
| IdentifyUserBlocks.BuildQueryIdentifyUsersParams | blocks/identifyUsers/queryIdentifyUsers.ts:67-79 | an empty object followed by five conditional assignments yields the specified params |
| IdentifyUserBlocks.QueryIdentifyUsersBlock | blocks/identifyUsers/queryIdentifyUsers.ts:62-83 | the assigned params are sent and the result emitted unchanged |
| IdentifyUserBlocks.QueryIdentifyUsersParamsFacts | blocks/identifyUsers/queryIdentifyUsers.ts:75-79 | page, limit, sortBy, q and segment are each sent iff truthy, unchanged; nothing else is sent |
| IdentifyUserBlocks.QueryIdentifyUsersRequest | utils/apiHelpers.ts:472-480 | a GET to /v2/organization/identifyUser/query carrying the params as its query and no body |
| IdentifyUserBlocks.QueryIdentifyUsersNoFilters | blocks/identifyUsers/queryIdentifyUsers.ts:75-81 | with all five inputs falsy the request has no query string |
| WebhookHandlers.ExtractIgnoresHeaders | utils/webhookHandlers.ts:19-25 | the payload is `message.body.payload`, whatever the headers |
| WebhookHandlers.EventBaseFacts | utils/webhookHandlers.ts:30-42 | `type` is the handler's event type, not the payload's; id, organizationId, webhookId, createdAt and deliveryStatus are copied |
| WebhookHandlers.OtherTopicEmitsNothing | utils/webhookHandlers.ts:55-57 | a message for another topic emits nothing |
| WebhookHandlers.MatchingTopicEmitsMerged | utils/webhookHandlers.ts:59-65 | a matching message emits one event: the base fields, then the output of the transformer on `data.item`, whose keys win |
| WebhookHandlers.BuiltEventsKeepType | utils/webhookHandlers.ts:62-65 | no payload builder emits a `type` key, so the event type always survives the merge |
| WebhookHandlers.ExtractWebhookPayload | utils/webhookHandlers.ts:19-25 | definition of `extractWebhookPayload`; stated by ExtractIgnoresHeaders |
| WebhookHandlers.CreateEventBase | utils/webhookHandlers.ts:30-42 | definition of `createEventBase`; stated by EventBaseFacts |
| WebhookHandlers.HandleWebhook | utils/webhookHandlers.ts:47-67 | definition of the handler `createWebhookHandler` returns; stated by OtherTopicEmitsNothing and MatchingTopicEmitsMerged |
| Payloads.PostPayloadCopies | schemas/common.ts:86-105 | the post payload copies the item's scalar fields |
| Payloads.PostPayloadNests | schemas/common.ts:86-105 | it nests the mapped user, `postStatus` as status and `postCategory` as category |
| Payloads.CommentPayloadCopies | schemas/common.ts:123-144 | the comment payload copies the item's scalar fields |
| Payloads.CommentPayloadNests | schemas/common.ts:123-144 | it exposes `submission` as `postId`, copies `path` and maps the user |
| Payloads.CommentPayloadRenamesSubmission | schemas/common.ts:123-144 | it has no `submission` key |
| Payloads.ChangelogPayloadCopies | schemas/common.ts:162-184 | the changelog payload copies the item's scalar fields |
| Payloads.ChangelogPayloadCategories | schemas/common.ts:162-184 | `categories` comes from the mapped `changelogCategories`; notifications, allowedSegmentIds and isDraftDiffersFromLive are not copied |
| Payloads.ChangelogNeedsCategoryArray | schemas/common.ts:162-184 | the builder throws iff `changelogCategories` is not an array |
| Payloads.VotePayloadFacts | schemas/common.ts:189-197 | the vote payload is `{action, postId: item.submissionId, user: mapped user}` |
| Payloads.UpdatedPayloadFacts | schemas/common.ts:110-118 | an updated payload is the base payload plus `changes`, the mapped `data.changes` or [] when falsy |
| Payloads.UpdatedBuildersExtend | schemas/common.ts:110-157 | the updated post and comment payloads extend the plain ones with `changes` |
| Payloads.BuildPost | schemas/common.ts:86-105 | definition of `buildPostEventPayload`; stated by PostPayloadCopies and PostPayloadNests |
| Payloads.BuildPostUpdated | schemas/common.ts:110-118 | definition of `buildPostUpdatedEventPayload`; stated by UpdatedPayloadFacts and UpdatedBuildersExtend |
| Payloads.BuildComment | schemas/common.ts:123-144 | definition of `buildCommentEventPayload`; stated by CommentPayloadCopies, CommentPayloadNests and CommentPayloadRenamesSubmission |
| Payloads.BuildCommentUpdated | schemas/common.ts:149-157 | definition of `buildCommentUpdatedEventPayload`; stated by UpdatedPayloadFacts and UpdatedBuildersExtend |
| Payloads.BuildChangelog | schemas/common.ts:162-184 | definition of `buildChangelogEventPayload`; stated by ChangelogPayloadCopies, ChangelogPayloadCategories and ChangelogNeedsCategoryArray |
| Payloads.BuildVote | schemas/common.ts:189-197 | definition of `buildVoteEventPayload`; stated by VotePayloadFacts |
| Mappers.MapUserFacts | utils/mappers.ts:12-21 | id, email, name, profilePicture, verified and type are kept unchanged; description is dropped |
| Mappers.MapPostStatusFacts | utils/mappers.ts:26-34 | name, color, type, isDefault and id are copied unchanged |
| Mappers.MapPostCategoryFacts | utils/mappers.ts:39-46 | `category` is renamed to name; private, icon and id are kept; segmentIds, roles and customInputFields are dropped |
| Mappers.MapChangelogCategoriesFacts | utils/mappers.ts:51-59 | length and order are kept, and each element keeps name, color and id |
| Mappers.MapChangesFacts | utils/mappers.ts:64-70 | length and order are kept, and each element keeps field, oldValue and newValue |
| Mappers.MapUser | utils/mappers.ts:12-21 | definition of `mapFeaturebaseUser`; stated by MapUserFacts |
| Mappers.MapPostStatus | utils/mappers.ts:26-34 | definition of `mapFeaturebasePostStatus`; stated by MapPostStatusFacts |
| Mappers.MapPostCategory | utils/mappers.ts:39-46 | definition of `mapFeaturebasePostCategory`; stated by MapPostCategoryFacts |
| Mappers.MapChangelogCategories | utils/mappers.ts:51-59 | definition of `mapFeaturebaseChangelogCategories`; stated by MapChangelogCategoriesFacts |
| Mappers.MapChanges | utils/mappers.ts:64-70 | definition of `mapFeaturebaseChanges`; stated by MapChangesFacts |

## Left out

- Numbers are integers, plus NaN. Non-integer numbers and JavaScript's number-to-string rules are not modelled.
- Reading a property of null or undefined yields undefined here, where JavaScript throws. The exception is `payload.topic` in the webhook endpoint, which is modelled as the 500 it causes. In the blocks, inputs come from the host's typed configuration and responses from the API.
- `v.length` reads an object's own `length` key, but the comparison `field.options.length > 0` is modelled only for numbers: a non-numeric `length`, which JavaScript would coerce, counts as not positive.
- `String()` of an object or array is the model's `ToStr`, not JavaScript's exact rendering.
- URLSearchParams percent-encoding is not modelled; URLs and form bodies keep ordered (key, value) pairs. The model assumes encoding never produces a "?" and yields an empty string only for no pairs.
- UTF-8 and UTF-16 details of strings are not modelled; strings are sequences of characters.
- HMAC-SHA256, `Buffer.from(hex)` and the clock are parameters. The constant-time property of `timingSafeEqual` cannot be stated.
- `fetch`, response parsing (`json()` falling back to `text()`) and transport are an abstract outcome. The results of `blocks.list` and `messaging.sendToBlocks` are parameters, including the errors they throw.
- `http.respond` and `events.emit` are assumed to succeed. A respond that throws inside the try block, which main.ts:359-366 answers with a second 500, is not modelled; nor is a failing 404 or 405 respond, which rejects `onRequest`, or a failing `events.emit`, which rejects a block's `onEvent`.
- Adding a key to an object (`Set`, `JsObject.Put`) appends it at the end; JavaScript lists integer-like keys first in `Object.keys` and `Object.entries`. No modelled operation adds such a key.
- `topic in EVENT_CONFIG` also matches inherited keys such as "constructor" in JavaScript; here only the eight topics are members.
- Clock stamps (`new Date().toISOString()`) in block events are a `now` parameter.
- The request helper's `method` option is one of the four methods the wrappers pass (GET, POST, PATCH, DELETE); another method string is not modelled.
- The JSON-schema literals, block descriptors and type declarations are data without behaviour.
- The pass-through blocks (admins, boards, surveys, roles, custom field list and get) and the echo-only blocks (deletePost, deleteComment, deleteChangelog, addUpvoterToPost) are not modelled beyond their wrappers' routes in `ApiHelpers.Wrapper`.
- The webhook subscription blocks' pairing of topic, event type and builder is configuration; the behaviour of the handler and the builders is modelled.
- IdentifyUserBlocks.EitherOrFacts: it is stated once for any two distinct truthy-only fields, so it covers both deleteUser (email, userId) and getIdentifyUser (email, id).
