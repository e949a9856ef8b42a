/**
 * What the action blocks under blocks/ share: one wrapper call made with
 * the app's configuration, the event emitted from its response, and the
 * `||` fallbacks and key filters they build that event with.
 */
module Blocks {
  import opened Wrappers
  import opened Js
  import opened ApiHelpers
  import opened ObjectUtils

  /** What a block's `onEvent` throws: the wrapper's error, unchanged, or one of its own. */
  datatype Thrown = ApiFailure(error: ApiError) | BlockError(message: string)

  /** One `onEvent` run: the request it sent, if any, and the event it emitted or what it threw. */
  datatype BlockRun = BlockRun(sent: Option<Request>, outcome: Result<JsValue, Thrown>)

  /**
   * `const response = await wrapper(createApiConfig(input.app.config), params)`
   * followed by `events.emit(event(response))`, where computing the event may throw.
   */
  function Call(appConfig: JsValue, op: Operation, params: Fields, fetch: Request -> FetchOutcome,
                event: JsValue -> Result<JsValue, string>): BlockRun
  {
    var req := WrapperRequest(CreateApiConfig(appConfig), op, params);
    match Classify(fetch(req))
    case Err(e) => BlockRun(Some(req), Err(ApiFailure(e)))
    case Ok(response) =>
      match event(response)
      case Ok(v) => BlockRun(Some(req), Ok(v))
      case Err(m) => BlockRun(Some(req), Err(BlockError(m)))
  }

  /** A block whose event cannot fail. */
  function Emit(v: JsValue): Result<JsValue, string> {
    Ok(v)
  }

  /**
   * The block sends exactly the wrapper's request; a failed call is rethrown
   * unchanged and nothing is emitted; a successful one emits the event built
   * from the parsed response.
   */
  lemma CallFacts(appConfig: JsValue, op: Operation, params: Fields, fetch: Request -> FetchOutcome,
                  event: JsValue -> Result<JsValue, string>)
    ensures var run := Call(appConfig, op, params, fetch, event);
      var req := WrapperRequest(CreateApiConfig(appConfig), op, params);
      var f := fetch(req);
      && run.sent == Some(req)
      && (f.Response? && f.ok ==>
            run.outcome == match event(f.data) case Ok(v) => Ok(v) case Err(m) => Err(BlockError(m)))
      && (!(f.Response? && f.ok) ==> run.outcome.Err? && run.outcome.error == ApiFailure(Classify(f).error))
  {
  }

  // ---------------------------------------------------------------------
  // The fallbacks of the emitted events

  /** `response?.success || true` */
  function SuccessOr(response: JsValue): JsValue {
    Or(Get(response, "success"), Bool(true))
  }

  /** `response?.results || []` */
  function ResultsOr(response: JsValue): JsValue {
    Or(Get(response, "results"), Arr([]))
  }

  /** The `pagination` object of the list blocks. */
  function Pagination(response: JsValue): JsValue {
    Obj([("page", Or(Get(response, "page"), Num(1))),
         ("limit", Or(Get(response, "limit"), Num(10))),
         ("totalPages", Or(Get(response, "totalPages"), Num(1))),
         ("totalResults", Or(Get(response, "totalResults"), Num(0)))])
  }

  /** The default `Pagination` falls back to for one of its keys. */
  function PageDefault(k: string): JsValue {
    if k == "page" then Num(1)
    else if k == "limit" then Num(10)
    else if k == "totalPages" then Num(1)
    else if k == "totalResults" then Num(0)
    else Undefined
  }

  /** `response?.success || true` is the response's own flag when that is truthy, and `true` otherwise: never false. */
  lemma SuccessNeverFalse(response: JsValue)
    ensures Truthy(SuccessOr(response))
    ensures SuccessOr(response) == if Truthy(Get(response, "success")) then Get(response, "success") else Bool(true)
  {
  }

  /** The emitted results are the response's when truthy, and `[]` otherwise. */
  lemma ResultsFallback(response: JsValue)
    ensures ResultsOr(response) == if Truthy(Get(response, "results")) then Get(response, "results") else Arr([])
    ensures Truthy(ResultsOr(response))
  {
  }

  /**
   * Each pagination field is the response's when truthy and its default
   * (page 1, limit 10, one page, no results) otherwise, so a reported 0 is
   * replaced too.
   */
  lemma PaginationFallbacks(response: JsValue, k: string)
    requires k in ["page", "limit", "totalPages", "totalResults"]
    ensures Get(Pagination(response), k) == if Truthy(Get(response, k)) then Get(response, k) else PageDefault(k)
    ensures Get(response, k) == Num(0) ==> Get(Pagination(response), k) == PageDefault(k)
    ensures Keys(Pagination(response).fields) == ["page", "limit", "totalPages", "totalResults"]
  {
    var fields := Pagination(response).fields;
    LookupAfter(fields, 1);
    LookupAfter(fields, 2);
    LookupAfter(fields, 3);
  }

  // ---------------------------------------------------------------------
  // Parameters built from the block's input configuration

  /** A params literal `{k: inputConfig.k, ...}` over `ks`, then `cleanParams`. */
  function CleanPick(inputConfig: JsValue, ks: seq<string>): Fields {
    Cleaned(Pick(inputConfig, ks))
  }

  /**
   * A cleaned params literal holds exactly the supplied inputs, each with the
   * value it was given; an input left undefined is not sent at all.
   */
  lemma {:induction false} CleanPickFacts(inputConfig: JsValue, ks: seq<string>, k: string)
    ensures Lookup(CleanPick(inputConfig, ks), k) == if k in ks then Get(inputConfig, k) else Undefined
    ensures k in Keys(CleanPick(inputConfig, ks)) <==> k in ks && !Get(inputConfig, k).Undefined?
    ensures forall i | 0 <= i < |CleanPick(inputConfig, ks)| :: !CleanPick(inputConfig, ks)[i].1.Undefined?
  {
    CleanedHasNoUndefined(Pick(inputConfig, ks));
    if ks != [] {
      var p := Pick(inputConfig, ks);
      assert p[0] == (ks[0], Get(inputConfig, ks[0]));
      assert p[1..] == Pick(inputConfig, ks[1..]);
      CleanPickFacts(inputConfig, ks[1..], k);
      var rest := CleanPick(inputConfig, ks[1..]);
      if !Get(inputConfig, ks[0]).Undefined? {
        var c := CleanPick(inputConfig, ks);
        assert c == [p[0]] + rest;
        assert c[1..] == rest;
        KeysTail(c);
      } else {
        assert CleanPick(inputConfig, ks) == rest;
      }
    }
  }

  /** The pairs of a params literal are those of the keys before `i`, then key `i`'s, then the rest. */
  lemma EncodePickAt(inputConfig: JsValue, ks: seq<string>, i: nat)
    requires i < |ks|
    ensures EncodePairs(Pick(inputConfig, ks)) ==
      EncodePairs(Pick(inputConfig, ks[..i])) + EncodeEntry(ks[i], Get(inputConfig, ks[i])) + EncodePairs(Pick(inputConfig, ks[i + 1..]))
  {
    var p := Pick(inputConfig, ks);
    assert p == Pick(inputConfig, ks[..i]) + [(ks[i], Get(inputConfig, ks[i]))] + Pick(inputConfig, ks[i + 1..]);
    EncodePairsAppend(Pick(inputConfig, ks[..i]) + [(ks[i], Get(inputConfig, ks[i]))], Pick(inputConfig, ks[i + 1..]));
    EncodePairsAppend(Pick(inputConfig, ks[..i]), [(ks[i], Get(inputConfig, ks[i]))]);
    var single: Fields := [(ks[i], Get(inputConfig, ks[i]))];
    assert single[1..] == [];
  }

  /** The keys among `ks` whose input is not undefined, in the order of `ks`. */
  function DefinedAmong(v: JsValue, ks: seq<string>): seq<string> {
    if ks == [] then []
    else (if Get(v, ks[0]).Undefined? then [] else [ks[0]]) + DefinedAmong(v, ks[1..])
  }

  /**
   * `Object.keys(params).filter(key => params[key] !== undefined && key !== "id")`:
   * on an object, the value read at each key is that key's own entry.
   */
  function UpdatedFields(params: Fields): seq<string> {
    if params == [] then []
    else (if params[0].1.Undefined? || params[0].0 == "id" then [] else [params[0].0]) + UpdatedFields(params[1..])
  }

  /** A key is listed iff it is among `ks` and defined; the list keeps the order of `ks` and never grows past it. */
  lemma {:induction false} DefinedAmongFacts(v: JsValue, ks: seq<string>, k: string)
    ensures k in DefinedAmong(v, ks) <==> k in ks && !Get(v, k).Undefined?
    ensures |DefinedAmong(v, ks)| <= |ks|
  {
    if ks != [] {
      DefinedAmongFacts(v, ks[1..], k);
    }
  }

  /** Appending a key appends it to the list exactly when its input is defined. */
  lemma {:induction false} DefinedAmongSnoc(v: JsValue, ks: seq<string>, k: string)
    ensures DefinedAmong(v, ks + [k]) == DefinedAmong(v, ks) + (if Get(v, k).Undefined? then [] else [k])
  {
    if ks == [] {
      var one := [k];
      assert one[1..] == [];
      assert ks + [k] == one;
    } else {
      assert (ks + [k])[1..] == ks[1..] + [k];
      DefinedAmongSnoc(v, ks[1..], k);
    }
  }

  /** Two objects that agree on `ks` have the same defined keys among them. */
  lemma {:induction false} DefinedAmongSame(v: JsValue, w: JsValue, ks: seq<string>)
    requires forall k | k in ks :: Get(v, k) == Get(w, k)
    ensures DefinedAmong(v, ks) == DefinedAmong(w, ks)
  {
    if ks != [] {
      DefinedAmongSame(v, w, ks[1..]);
    }
  }

  /** Cleaning removes only undefined values, so it changes nothing in the updated-field list. */
  lemma {:induction false} UpdatedFieldsIgnoreCleaning(params: Fields)
    ensures UpdatedFields(Cleaned(params)) == UpdatedFields(params)
  {
    if params != [] {
      UpdatedFieldsIgnoreCleaning(params[1..]);
      var c := Cleaned(params);
      if !params[0].1.Undefined? {
        assert c == [params[0]] + Cleaned(params[1..]);
        assert c[0] == params[0] && c[1..] == Cleaned(params[1..]);
      } else {
        assert c == Cleaned(params[1..]);
      }
    }
  }

  /**
   * The updated fields of a params literal over `["id"] + rest` are the
   * defined inputs among `rest`, in literal order; "id" is never listed.
   */
  lemma {:induction false} UpdatedFieldsOfLiteral(inputConfig: JsValue, ks: seq<string>)
    requires "id" !in ks
    ensures UpdatedFields(Pick(inputConfig, ["id"] + ks)) == DefinedAmong(inputConfig, ks)
    ensures UpdatedFields(Pick(inputConfig, ks)) == DefinedAmong(inputConfig, ks)
  {
    var p := Pick(inputConfig, ["id"] + ks);
    assert p[1..] == Pick(inputConfig, ks);
    UpdatedFieldsOfRest(inputConfig, ks);
  }

  lemma {:induction false} UpdatedFieldsOfRest(inputConfig: JsValue, ks: seq<string>)
    requires "id" !in ks
    ensures UpdatedFields(Pick(inputConfig, ks)) == DefinedAmong(inputConfig, ks)
  {
    if ks != [] {
      var p := Pick(inputConfig, ks);
      assert p[0] == (ks[0], Get(inputConfig, ks[0]));
      assert p[1..] == Pick(inputConfig, ks[1..]);
      UpdatedFieldsOfRest(inputConfig, ks[1..]);
    }
  }

  /** The strings of a key list, as the emitted array. */
  function Strs(ks: seq<string>): JsValue {
    Arr(seq(|ks|, i requires 0 <= i < |ks| => Str(ks[i])))
  }

  // ---------------------------------------------------------------------
  // The get blocks: `results` as an array or a single object

  /** `Array.isArray(response?.results) ? response?.results[0] : response?.results` */
  function Chosen(response: JsValue): JsValue {
    var results := Get(response, "results");
    if results.Arr? then (if |results.elems| > 0 then results.elems[0] else Undefined) else results
  }

  /** `{<name>: found ? chosen : null, success: true, found}` with `found = !!chosen`. */
  function FoundEvent(name: string, response: JsValue): JsValue {
    var chosen := Chosen(response);
    var found := Truthy(chosen);
    Obj([(name, if found then chosen else Null), ("success", Bool(true)), ("found", Bool(found))])
  }

  /**
   * `found` is true iff the chosen result (the first array element, or the
   * results value itself) is truthy; the record is that value when found and
   * null otherwise; `success` is always true.  An empty array or missing
   * results is not found.
   */
  lemma FoundEventFacts(name: string, response: JsValue)
    requires name != "success" && name != "found"
    ensures var e := FoundEvent(name, response); var results := Get(response, "results");
      && Get(e, "found") == Bool(Truthy(Chosen(response)))
      && Get(e, name) == (if Truthy(Chosen(response)) then Chosen(response) else Null)
      && Get(e, "success") == Bool(true)
      && (results.Arr? && |results.elems| > 0 ==> Chosen(response) == results.elems[0])
      && (!results.Arr? ==> Chosen(response) == results)
      && (results == Arr([]) || results.Undefined? ==> Get(e, "found") == Bool(false) && Get(e, name) == Null)
  {
    var fields := FoundEvent(name, response).fields;
    LookupAfter(fields, 1);
    LookupAfter(fields, 2);
  }
}
