/**
 * The identified-user blocks (blocks/identifyUsers/): each fills a `params`
 * object by conditional assignments, after an either-or guard where the
 * block has one, makes one call and emits its result unchanged.
 */
module IdentifyUserBlocks {
  import opened Wrappers
  import opened Js
  import opened ApiHelpers
  import opened ObjectUtils
  import opened Blocks

  /** When an assignment `params.k = input.k` runs. */
  datatype Rule =
    | Always      // part of the initial literal
    | IfDefined   // `if (v !== undefined)`
    | IfTruthy    // `if (v)`

  predicate Admits(rule: Rule, v: JsValue) {
    match rule
    case Always => true
    case IfDefined => !v.Undefined?
    case IfTruthy => Truthy(v)
  }

  /** The params object after the assignments of `rules`, in order, starting from `{}`. */
  function Assigned(inputConfig: JsValue, rules: seq<(string, Rule)>): Fields {
    if rules == [] then []
    else
      var prev := Assigned(inputConfig, rules[..|rules| - 1]);
      var k := rules[|rules| - 1].0;
      if Admits(rules[|rules| - 1].1, Get(inputConfig, k)) then Set(prev, k, Get(inputConfig, k)) else prev
  }

  /** Whether some rule for `k` admits the input's value. */
  predicate Sent(inputConfig: JsValue, rules: seq<(string, Rule)>, k: string) {
    exists i | 0 <= i < |rules| :: rules[i].0 == k && Admits(rules[i].1, Get(inputConfig, k))
  }

  /** One more rule runs its assignment on top of the params so far, or leaves them as they are. */
  lemma AssignedSnoc(inputConfig: JsValue, rules: seq<(string, Rule)>, r: (string, Rule))
    ensures Assigned(inputConfig, rules + [r]) ==
      if Admits(r.1, Get(inputConfig, r.0)) then Set(Assigned(inputConfig, rules), r.0, Get(inputConfig, r.0))
      else Assigned(inputConfig, rules)
  {
    assert (rules + [r])[..|rules|] == rules;
  }

  /** One conditional assignment `if (<rule admits input.k>) params.k = input.k`. */
  method ApplyRule(params: JsObject, inputConfig: JsValue, ghost done: seq<(string, Rule)>, r: (string, Rule))
    requires params.Valid() && params.entries == Assigned(inputConfig, done)
    modifies params
    ensures params.Valid() && params.entries == Assigned(inputConfig, done + [r])
  {
    AssignedSnoc(inputConfig, done, r);
    var v := Get(inputConfig, r.0);
    if Admits(r.1, v) {
      params.Put(r.0, v);
    }
  }

  /**
   * The params hold a key iff one of its assignments ran, with the input's
   * value unchanged, each key once; nothing else is ever sent.
   */
  lemma {:induction false} AssignedFacts(inputConfig: JsValue, rules: seq<(string, Rule)>, k: string)
    ensures UniqueKeys(Assigned(inputConfig, rules))
    ensures k in Keys(Assigned(inputConfig, rules)) <==> Sent(inputConfig, rules, k)
    ensures Lookup(Assigned(inputConfig, rules), k) == if Sent(inputConfig, rules, k) then Get(inputConfig, k) else Undefined
  {
    if rules != [] {
      var init := rules[..|rules| - 1];
      var prev := Assigned(inputConfig, init);
      var last := rules[|rules| - 1];
      AssignedFacts(inputConfig, init, k);
      SentSnoc(inputConfig, init, last, k);
      assert rules == init + [last];
      if Admits(last.1, Get(inputConfig, last.0)) {
        SetFacts(prev, last.0, Get(inputConfig, last.0));
      }
    }
  }

  /** One more rule sends `k` iff an earlier rule already did, or the new one is for `k` and admits its value. */
  lemma SentSnoc(inputConfig: JsValue, init: seq<(string, Rule)>, last: (string, Rule), k: string)
    ensures Sent(inputConfig, init + [last], k) <==> Sent(inputConfig, init, k) || (last.0 == k && Admits(last.1, Get(inputConfig, k)))
  {
    var rules := init + [last];
    if Sent(inputConfig, init, k) {
      var i :| 0 <= i < |init| && init[i].0 == k && Admits(init[i].1, Get(inputConfig, k));
      assert rules[i] == init[i];
    }
    if last.0 == k && Admits(last.1, Get(inputConfig, k)) {
      assert rules[|init|] == last;
    }
    if Sent(inputConfig, rules, k) && !Sent(inputConfig, init, k) {
      var i :| 0 <= i < |rules| && rules[i].0 == k && Admits(rules[i].1, Get(inputConfig, k));
      if i < |init| {
        assert rules[i] == init[i];
      }
    }
  }

  /** With every input falsy, no truthy-only assignment runs and the params stay empty. */
  lemma {:induction false} NothingAssigned(inputConfig: JsValue, rules: seq<(string, Rule)>)
    requires forall i | 0 <= i < |rules| :: rules[i].1 == IfTruthy && !Truthy(Get(inputConfig, rules[i].0))
    ensures Assigned(inputConfig, rules) == []
  {
    if rules != [] {
      var init := rules[..|rules| - 1];
      assert forall i | 0 <= i < |init| :: init[i] == rules[i];
      NothingAssigned(inputConfig, init);
    }
  }

  /** For a key named by exactly one rule, it is sent iff that rule admits the input's value. */
  lemma SentByIndex(inputConfig: JsValue, rules: seq<(string, Rule)>, i: nat, k: string)
    requires i < |rules| && rules[i].0 == k
    requires forall j | 0 <= j < |rules| && j != i :: rules[j].0 != k
    ensures Sent(inputConfig, rules, k) <==> Admits(rules[i].1, Get(inputConfig, k))
  {
  }

  /** A key no rule names is never sent. */
  lemma NeverSent(inputConfig: JsValue, rules: seq<(string, Rule)>, k: string)
    requires forall j | 0 <= j < |rules| :: rules[j].0 != k
    ensures !Sent(inputConfig, rules, k)
  {
  }

  // ---------------------------------------------------------------------
  // identifyUser

  const IdentifyUserRules: seq<(string, Rule)> :=
    [("name", Always), ("email", IfTruthy), ("userId", IfTruthy), ("profilePicture", IfTruthy),
     ("subscribedToChangelog", IfDefined), ("companies", IfTruthy), ("customFields", IfTruthy),
     ("createdAt", IfTruthy), ("roles", IfTruthy), ("locale", IfTruthy)]

  const MissingEmailOrUserId: string := "Either email or userId must be provided"

  /** `params`: `{name}`, then the nine conditional assignments. */
  method BuildIdentifyUserParams(inputConfig: JsValue) returns (params: JsObject)
    ensures fresh(params) && params.Valid()
    ensures params.entries == Assigned(inputConfig, IdentifyUserRules)
  {
    ghost var done: seq<(string, Rule)> := [("name", Always)];
    params := new JsObject([("name", Get(inputConfig, "name"))]);
    AssignedSnoc(inputConfig, [], ("name", Always));
    assert [] + [("name", Always)] == done;
    assert params.entries == Assigned(inputConfig, done);
    ApplyRule(params, inputConfig, done, ("email", IfTruthy));
    done := done + [("email", IfTruthy)];
    ApplyRule(params, inputConfig, done, ("userId", IfTruthy));
    done := done + [("userId", IfTruthy)];
    ApplyRule(params, inputConfig, done, ("profilePicture", IfTruthy));
    done := done + [("profilePicture", IfTruthy)];
    ApplyRule(params, inputConfig, done, ("subscribedToChangelog", IfDefined));
    done := done + [("subscribedToChangelog", IfDefined)];
    ApplyRule(params, inputConfig, done, ("companies", IfTruthy));
    done := done + [("companies", IfTruthy)];
    ApplyRule(params, inputConfig, done, ("customFields", IfTruthy));
    done := done + [("customFields", IfTruthy)];
    ApplyRule(params, inputConfig, done, ("createdAt", IfTruthy));
    done := done + [("createdAt", IfTruthy)];
    ApplyRule(params, inputConfig, done, ("roles", IfTruthy));
    done := done + [("roles", IfTruthy)];
    ApplyRule(params, inputConfig, done, ("locale", IfTruthy));
    done := done + [("locale", IfTruthy)];
    assert done == IdentifyUserRules;
  }

  /**
   * `onEvent`: without a truthy email or user id it throws before any call;
   * otherwise it sends the assigned params and emits the result unchanged.
   */
  method IdentifyUserBlock(appConfig: JsValue, inputConfig: JsValue, fetch: Request -> FetchOutcome) returns (run: BlockRun)
    ensures !Truthy(Get(inputConfig, "email")) && !Truthy(Get(inputConfig, "userId")) ==>
      run == BlockRun(None, Err(BlockError(MissingEmailOrUserId)))
    ensures Truthy(Get(inputConfig, "email")) || Truthy(Get(inputConfig, "userId")) ==>
      run == Call(appConfig, IdentifyUser, Assigned(inputConfig, IdentifyUserRules), fetch, Emit)
  {
    if !Truthy(Get(inputConfig, "email")) && !Truthy(Get(inputConfig, "userId")) {
      return BlockRun(None, Err(BlockError(MissingEmailOrUserId)));
    }
    var params := BuildIdentifyUserParams(inputConfig);
    run := Call(appConfig, IdentifyUser, params.entries, fetch, Emit);
  }

  /** The keys the identifyUser params may hold. */
  const IdentifyUserKeys: seq<string> :=
    ["name", "email", "userId", "profilePicture", "subscribedToChangelog", "companies", "customFields",
     "createdAt", "roles", "locale"]

  /** The identifyUser fields sent only when truthy. */
  const IdentifyUserTruthyKeys: seq<string> :=
    ["email", "userId", "profilePicture", "companies", "customFields", "createdAt", "roles", "locale"]

  lemma IdentifyUserRulesNamed(i: nat)
    requires i < |IdentifyUserRules|
    ensures IdentifyUserRules[i].0 == IdentifyUserKeys[i]
    ensures forall j | 0 <= j < |IdentifyUserRules| && j != i :: IdentifyUserRules[j].0 != IdentifyUserKeys[i]
  {
  }

  /**
   * `name` is always sent and `subscribedToChangelog` whenever it is
   * defined, so false is sent; values are the input's own; each key once.
   */
  lemma IdentifyUserAlwaysSends(inputConfig: JsValue)
    ensures var params := Assigned(inputConfig, IdentifyUserRules);
      && UniqueKeys(params)
      && "name" in Keys(params) && Lookup(params, "name") == Get(inputConfig, "name")
      && ("subscribedToChangelog" in Keys(params) <==> !Get(inputConfig, "subscribedToChangelog").Undefined?)
      && Lookup(params, "subscribedToChangelog") == Get(inputConfig, "subscribedToChangelog")
  {
    var rules := IdentifyUserRules;
    AssignedFacts(inputConfig, rules, "name");
    AssignedFacts(inputConfig, rules, "subscribedToChangelog");
    IdentifyUserRulesNamed(0);
    SentByIndex(inputConfig, rules, 0, "name");
    IdentifyUserRulesNamed(4);
    SentByIndex(inputConfig, rules, 4, "subscribedToChangelog");
  }

  /**
   * Every other field is sent iff it is truthy, with its value unchanged,
   * and a key outside the block's list is never sent.
   */
  lemma IdentifyUserSendsTruthy(inputConfig: JsValue, k: string)
    ensures var params := Assigned(inputConfig, IdentifyUserRules);
      && (k in IdentifyUserTruthyKeys ==> (k in Keys(params) <==> Truthy(Get(inputConfig, k))))
      && (k in Keys(params) ==> Lookup(params, k) == Get(inputConfig, k))
      && (k !in IdentifyUserKeys ==> k !in Keys(params))
  {
    var rules := IdentifyUserRules;
    AssignedFacts(inputConfig, rules, k);
    if k in IdentifyUserTruthyKeys {
      var t :| 0 <= t < |IdentifyUserTruthyKeys| && IdentifyUserTruthyKeys[t] == k;
      var i := if t < 3 then t + 1 else t + 2;
      IdentifyUserRulesNamed(i);
      SentByIndex(inputConfig, rules, i, k);
    }
    if k !in IdentifyUserKeys {
      NeverSent(inputConfig, rules, k);
    }
  }

  /** The user is identified by a JSON POST to /v2/organization/identifyUser whose body is the params object. */
  lemma IdentifyUserRequest(appConfig: JsValue, params: Fields)
    ensures var req := WrapperRequest(CreateApiConfig(appConfig), IdentifyUser, params);
      && req.httpMethod == POST
      && req.url == Url(ToStr(Or(Get(appConfig, "baseUrl"), Str(DefaultBaseUrl))) + "/v2/organization/identifyUser", [])
      && req.body == JsonBody(Obj(params))
      && req.headers == [("X-API-Key", Get(appConfig, "apiKey")), ("Content-Type", Str("application/json"))]
  {
  }

  // ---------------------------------------------------------------------
  // deleteUser

  const DeleteUserRules: seq<(string, Rule)> := [("email", IfTruthy), ("userId", IfTruthy)]

  method BuildDeleteUserParams(inputConfig: JsValue) returns (params: JsObject)
    ensures fresh(params) && params.Valid()
    ensures params.entries == Assigned(inputConfig, DeleteUserRules)
  {
    ghost var done: seq<(string, Rule)> := [];
    params := new JsObject([]);
    ApplyRule(params, inputConfig, done, ("email", IfTruthy));
    done := done + [("email", IfTruthy)];
    ApplyRule(params, inputConfig, done, ("userId", IfTruthy));
    done := done + [("userId", IfTruthy)];
    assert done == DeleteUserRules;
  }

  method DeleteUserBlock(appConfig: JsValue, inputConfig: JsValue, fetch: Request -> FetchOutcome) returns (run: BlockRun)
    ensures !Truthy(Get(inputConfig, "email")) && !Truthy(Get(inputConfig, "userId")) ==>
      run == BlockRun(None, Err(BlockError(MissingEmailOrUserId)))
    ensures Truthy(Get(inputConfig, "email")) || Truthy(Get(inputConfig, "userId")) ==>
      run == Call(appConfig, DeleteUser, Assigned(inputConfig, DeleteUserRules), fetch, Emit)
  {
    if !Truthy(Get(inputConfig, "email")) && !Truthy(Get(inputConfig, "userId")) {
      return BlockRun(None, Err(BlockError(MissingEmailOrUserId)));
    }
    var params := BuildDeleteUserParams(inputConfig);
    run := Call(appConfig, DeleteUser, params.entries, fetch, Emit);
  }

  /**
   * A two-field params object holds each of its fields iff that input is
   * truthy, with the input's value, and nothing else.
   */
  lemma EitherOrFacts(inputConfig: JsValue, a: string, b: string, k: string)
    requires a != b
    ensures var params := Assigned(inputConfig, [(a, IfTruthy), (b, IfTruthy)]);
      && (a in Keys(params) <==> Truthy(Get(inputConfig, a)))
      && (b in Keys(params) <==> Truthy(Get(inputConfig, b)))
      && (k in Keys(params) ==> (k == a || k == b) && Lookup(params, k) == Get(inputConfig, k))
  {
    var rules := [(a, IfTruthy), (b, IfTruthy)];
    AssignedFacts(inputConfig, rules, k);
    AssignedFacts(inputConfig, rules, a);
    AssignedFacts(inputConfig, rules, b);
    SentByIndex(inputConfig, rules, 0, a);
    SentByIndex(inputConfig, rules, 1, b);
  }

  /** The user is deleted by a JSON DELETE to /v2/organization/deleteUser whose body is the params object. */
  lemma DeleteUserRequest(appConfig: JsValue, params: Fields)
    ensures var req := WrapperRequest(CreateApiConfig(appConfig), DeleteUser, params);
      && req.httpMethod == DELETE
      && req.url == Url(ToStr(Or(Get(appConfig, "baseUrl"), Str(DefaultBaseUrl))) + "/v2/organization/deleteUser", [])
      && req.body == JsonBody(Obj(params))
  {
  }

  // ---------------------------------------------------------------------
  // getIdentifyUser

  const GetIdentifyUserRules: seq<(string, Rule)> := [("email", IfTruthy), ("id", IfTruthy)]

  const MissingEmailOrId: string := "Either email or id must be provided"

  method BuildGetIdentifyUserParams(inputConfig: JsValue) returns (params: JsObject)
    ensures fresh(params) && params.Valid()
    ensures params.entries == Assigned(inputConfig, GetIdentifyUserRules)
  {
    ghost var done: seq<(string, Rule)> := [];
    params := new JsObject([]);
    ApplyRule(params, inputConfig, done, ("email", IfTruthy));
    done := done + [("email", IfTruthy)];
    ApplyRule(params, inputConfig, done, ("id", IfTruthy));
    done := done + [("id", IfTruthy)];
    assert done == GetIdentifyUserRules;
  }

  method GetIdentifyUserBlock(appConfig: JsValue, inputConfig: JsValue, fetch: Request -> FetchOutcome) returns (run: BlockRun)
    ensures !Truthy(Get(inputConfig, "email")) && !Truthy(Get(inputConfig, "id")) ==>
      run == BlockRun(None, Err(BlockError(MissingEmailOrId)))
    ensures Truthy(Get(inputConfig, "email")) || Truthy(Get(inputConfig, "id")) ==>
      run == Call(appConfig, GetIdentifyUser, Assigned(inputConfig, GetIdentifyUserRules), fetch, Emit)
  {
    if !Truthy(Get(inputConfig, "email")) && !Truthy(Get(inputConfig, "id")) {
      return BlockRun(None, Err(BlockError(MissingEmailOrId)));
    }
    var params := BuildGetIdentifyUserParams(inputConfig);
    run := Call(appConfig, GetIdentifyUser, params.entries, fetch, Emit);
  }

  /** The user is looked up with a GET to /v2/organization/identifyUser carrying the params as its query, and no body. */
  lemma GetIdentifyUserRequest(appConfig: JsValue, params: Fields)
    ensures var req := WrapperRequest(CreateApiConfig(appConfig), GetIdentifyUser, params);
      && req.httpMethod == GET && req.body == NoBody
      && req.url.target == ToStr(Or(Get(appConfig, "baseUrl"), Str(DefaultBaseUrl))) + "/v2/organization/identifyUser"
      && req.url.query == if EncodePairs(params) == [] then [] else [QueryPart('?', EncodePairs(params))]
  {
  }

  // ---------------------------------------------------------------------
  // queryIdentifyUsers

  const QueryIdentifyUsersRules: seq<(string, Rule)> :=
    [("page", IfTruthy), ("limit", IfTruthy), ("sortBy", IfTruthy), ("q", IfTruthy), ("segment", IfTruthy)]

  const QueryIdentifyUsersKeys: seq<string> := ["page", "limit", "sortBy", "q", "segment"]

  /** `params`: `{}`, then five conditional assignments. */
  method BuildQueryIdentifyUsersParams(inputConfig: JsValue) returns (params: JsObject)
    ensures fresh(params) && params.Valid()
    ensures params.entries == Assigned(inputConfig, QueryIdentifyUsersRules)
  {
    ghost var done: seq<(string, Rule)> := [];
    params := new JsObject([]);
    ApplyRule(params, inputConfig, done, ("page", IfTruthy));
    done := done + [("page", IfTruthy)];
    ApplyRule(params, inputConfig, done, ("limit", IfTruthy));
    done := done + [("limit", IfTruthy)];
    ApplyRule(params, inputConfig, done, ("sortBy", IfTruthy));
    done := done + [("sortBy", IfTruthy)];
    ApplyRule(params, inputConfig, done, ("q", IfTruthy));
    done := done + [("q", IfTruthy)];
    ApplyRule(params, inputConfig, done, ("segment", IfTruthy));
    done := done + [("segment", IfTruthy)];
    assert done == QueryIdentifyUsersRules;
  }

  method QueryIdentifyUsersBlock(appConfig: JsValue, inputConfig: JsValue, fetch: Request -> FetchOutcome) returns (run: BlockRun)
    ensures run == Call(appConfig, QueryIdentifyUsers, Assigned(inputConfig, QueryIdentifyUsersRules), fetch, Emit)
  {
    var params := BuildQueryIdentifyUsersParams(inputConfig);
    run := Call(appConfig, QueryIdentifyUsers, params.entries, fetch, Emit);
  }

  /**
   * Each of page, limit, sortBy, q and segment is sent iff truthy, with its
   * value unchanged, and nothing else is sent.
   */
  lemma QueryIdentifyUsersParamsFacts(inputConfig: JsValue, k: string)
    ensures var params := Assigned(inputConfig, QueryIdentifyUsersRules);
      && (k in Keys(params) <==> k in QueryIdentifyUsersKeys && Truthy(Get(inputConfig, k)))
      && (k in Keys(params) ==> Lookup(params, k) == Get(inputConfig, k))
  {
    var rules := QueryIdentifyUsersRules;
    AssignedFacts(inputConfig, rules, k);
    if k in QueryIdentifyUsersKeys {
      var i :| 0 <= i < |QueryIdentifyUsersKeys| && QueryIdentifyUsersKeys[i] == k;
      assert rules[i].0 == k;
      assert forall j | 0 <= j < |rules| && j != i :: rules[j].0 != k;
      SentByIndex(inputConfig, rules, i, k);
    } else {
      assert forall j | 0 <= j < |rules| :: rules[j].0 in QueryIdentifyUsersKeys;
      NeverSent(inputConfig, rules, k);
    }
  }

  /** The users are queried with a GET to /v2/organization/identifyUser/query carrying the params as its query, and no body. */
  lemma QueryIdentifyUsersRequest(appConfig: JsValue, params: Fields)
    ensures var req := WrapperRequest(CreateApiConfig(appConfig), QueryIdentifyUsers, params);
      && req.httpMethod == GET && req.body == NoBody
      && req.url.target == ToStr(Or(Get(appConfig, "baseUrl"), Str(DefaultBaseUrl))) + "/v2/organization/identifyUser/query"
      && req.url.query == if EncodePairs(params) == [] then [] else [QueryPart('?', EncodePairs(params))]
  {
  }

  /** With all five inputs falsy the query request carries no query string. */
  lemma QueryIdentifyUsersNoFilters(appConfig: JsValue, inputConfig: JsValue)
    requires forall x | x in QueryIdentifyUsersKeys :: !Truthy(Get(inputConfig, x))
    ensures WrapperRequest(CreateApiConfig(appConfig), QueryIdentifyUsers, Assigned(inputConfig, QueryIdentifyUsersRules)).url.query == []
  {
    var rules := QueryIdentifyUsersRules;
    assert forall i | 0 <= i < |rules| :: rules[i].1 == IfTruthy && rules[i].0 == QueryIdentifyUsersKeys[i];
    NothingAssigned(inputConfig, rules);
    QueryIdentifyUsersRequest(appConfig, []);
  }
}
