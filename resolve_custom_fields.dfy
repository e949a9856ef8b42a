/**
 * The `resolveCustomFields` block (blocks/customFields/resolveCustomFields.ts):
 * turns `{fieldId: value}` into `[{label, value}]` using the custom field
 * catalog, with option ids replaced by their labels.  The catalog is the
 * result `listCustomFields` returned; its API errors are ApiHelpers.Classify's.
 */
module ResolveCustomFields {
  import opened Wrappers
  import opened Js

  const FetchFailed: string := "Failed to fetch custom fields"
  const UnknownLabel: string := "Unknown Field"

  /** The values the loop skips: null, undefined, "" and []; 0 and false are kept. */
  predicate IsEmptyValue(v: JsValue) {
    v.Null? || v.Undefined? || v == Str("") || (v.Arr? && |v.elems| == 0)
  }

  /** `xs.find(x => x._id === id)`: the first element with that `_id`, or undefined. */
  function FindById(xs: seq<JsValue>, id: JsValue): JsValue {
    if xs == [] then Undefined
    else if StrictEquals(Get(xs[0], "_id"), id) then xs[0]
    else FindById(xs[1..], id)
  }

  /** `resolveOption(optionId)`: the matching option's label, or the id itself. */
  function ResolveOption(options: seq<JsValue>, optionId: JsValue): JsValue {
    var option := FindById(options, optionId);
    if Truthy(option) then Get(option, "label") else optionId
  }

  /** `field.options && field.options.length > 0` */
  predicate HasOptions(field: JsValue) {
    var options := Get(field, "options");
    Truthy(options) && match LengthOf(options) case Ok(Num(n)) => n > 0 case _ => false
  }

  /** The option step: string values and array elements are looked up among the options; nothing else changes. */
  function ResolveOptions(field: JsValue, value: JsValue): Result<JsValue, string> {
    if !HasOptions(field) || !(value.Str? || (value.Arr? && |value.elems| > 0)) then Ok(value)
    else
      match ArrayOf(Get(field, "options"), "field.options", "find")
      case Err(e) => Err(e)
      case Ok(options) =>
        if value.Arr? then
          Ok(Arr(seq(|value.elems|, i requires 0 <= i < |value.elems| => ResolveOption(options, value.elems[i]))))
        else Ok(ResolveOption(options, value))
  }

  /** "If array has single element, unwrap it" */
  function Unwrap(v: JsValue): JsValue {
    if v.Arr? && |v.elems| == 1 then v.elems[0] else v
  }

  /**
   * What one `[fieldId, value]` entry contributes: nothing when skipped, an
   * "Unknown Field" entry when the catalog has no such field, and otherwise
   * the field's label with the resolved value.
   */
  function ResolveEntry(customFields: JsValue, fieldId: string, value: JsValue): Result<Option<JsValue>, string> {
    if IsEmptyValue(value) then Ok(None)
    else
      match ArrayOf(customFields, "customFields", "find")
      case Err(e) => Err(e)
      case Ok(catalog) =>
        var field := FindById(catalog, Str(fieldId));
        if !Truthy(field) then Ok(Some(Obj([("label", Str(UnknownLabel)), ("value", value)])))
        else
          match ResolveOptions(field, value)
          case Err(e) => Err(e)
          case Ok(resolved) => Ok(Some(Obj([("label", Get(field, "label")), ("value", Unwrap(resolved))])))
  }

  /** The entries' contributions, in order, or the first error. */
  function ResolveAll(customFields: JsValue, entries: Fields): Result<seq<JsValue>, string> {
    if entries == [] then Ok([])
    else
      match ResolveAll(customFields, entries[..|entries| - 1])
      case Err(e) => Err(e)
      case Ok(prev) =>
        match ResolveEntry(customFields, entries[|entries| - 1].0, entries[|entries| - 1].1)
        case Err(e) => Err(e)
        case Ok(None) => Ok(prev)
        case Ok(Some(resolved)) => Ok(prev + [resolved])
  }

  /** What the block emits (or throws) for `customInputValues` and the catalog result. */
  function Resolution(customInputValues: JsValue, customFieldsResult: JsValue): Result<seq<JsValue>, string> {
    if !Truthy(Get(customFieldsResult, "success")) then Err(FetchFailed)
    else ResolveAll(Get(customFieldsResult, "results"), Entries(Or(customInputValues, Obj([]))))
  }

  /**
   * The block's `onEvent`, as its loop runs: `Ok` is the array it emits,
   * `Err` the error it throws (and then nothing is emitted).
   */
  method OnEvent(customInputValues: JsValue, customFieldsResult: JsValue) returns (r: Result<seq<JsValue>, string>)
    ensures r == Resolution(customInputValues, customFieldsResult)
  {
    if !Truthy(Get(customFieldsResult, "success")) {
      return Err(FetchFailed);
    }
    var customFields := Get(customFieldsResult, "results");
    var resolvedFields: seq<JsValue> := [];
    var entries := Entries(Or(customInputValues, Obj([])));
    for i := 0 to |entries|
      invariant ResolveAll(customFields, entries[..i]) == Ok(resolvedFields)
    {
      ResolveAllStep(customFields, entries, i, resolvedFields);
      var fieldId, value := entries[i].0, entries[i].1;
      if IsEmptyValue(value) {
        continue;
      }
      var catalog := ArrayOf(customFields, "customFields", "find");
      if catalog.Err? {
        ErrorStops(customFields, entries, i + 1);
        return Err(catalog.error);
      }
      var field := FindById(catalog.value, Str(fieldId));
      if !Truthy(field) {
        resolvedFields := resolvedFields + [Obj([("label", Str(UnknownLabel)), ("value", value)])];
        continue;
      }
      var resolvedValue := value;
      if HasOptions(field) && (value.Str? || (value.Arr? && |value.elems| > 0)) {
        var options := ArrayOf(Get(field, "options"), "field.options", "find");
        if options.Err? {
          ErrorStops(customFields, entries, i + 1);
          return Err(options.error);
        }
        if value.Arr? {
          resolvedValue := Arr(seq(|value.elems|, j requires 0 <= j < |value.elems| => ResolveOption(options.value, value.elems[j])));
        } else {
          resolvedValue := ResolveOption(options.value, value);
        }
      }
      assert ResolveOptions(field, value) == Ok(resolvedValue);
      if resolvedValue.Arr? && |resolvedValue.elems| == 1 {
        resolvedValue := resolvedValue.elems[0];
      }
      resolvedFields := resolvedFields + [Obj([("label", Get(field, "label")), ("value", resolvedValue)])];
    }
    assert entries[..|entries|] == entries;
    r := Ok(resolvedFields);
  }

  /** One more entry adds that entry's contribution, or its error. */
  lemma ResolveAllStep(customFields: JsValue, entries: Fields, i: nat, prev: seq<JsValue>)
    requires i < |entries| && ResolveAll(customFields, entries[..i]) == Ok(prev)
    ensures ResolveAll(customFields, entries[..i + 1]) ==
      match ResolveEntry(customFields, entries[i].0, entries[i].1)
      case Err(e) => Err(e)
      case Ok(None) => Ok(prev)
      case Ok(Some(resolved)) => Ok(prev + [resolved])
  {
    assert entries[..i + 1][..i] == entries[..i];
  }

  /** Once a prefix of the entries throws, the whole loop throws that error. */
  lemma {:induction false} ErrorStops(customFields: JsValue, entries: Fields, j: nat)
    requires j <= |entries| && ResolveAll(customFields, entries[..j]).Err?
    ensures ResolveAll(customFields, entries) == ResolveAll(customFields, entries[..j])
    decreases |entries| - j
  {
    if j < |entries| {
      assert entries[..j + 1][..j] == entries[..j];
      ErrorStops(customFields, entries, j + 1);
    } else {
      assert entries[..j] == entries;
    }
  }

  // ---------------------------------------------------------------------
  // What the block promises

  /** A catalog call that did not succeed makes the block throw before it looks at any value. */
  lemma CatalogFailureThrows(customInputValues: JsValue, customFieldsResult: JsValue)
    requires !Truthy(Get(customFieldsResult, "success"))
    ensures Resolution(customInputValues, customFieldsResult) == Err(FetchFailed)
  {
  }

  /** Missing (or otherwise falsy) input values resolve to nothing. */
  lemma NoValuesNoOutput(customInputValues: JsValue, customFieldsResult: JsValue)
    requires !Truthy(customInputValues) && Truthy(Get(customFieldsResult, "success"))
    ensures Resolution(customInputValues, customFieldsResult) == Ok([])
  {
  }

  /** Exactly the empty values are skipped: null, undefined, "" and []; 0 and false are resolved. */
  lemma SkipsExactlyEmpty(customFields: JsValue, fieldId: string, value: JsValue)
    ensures ResolveEntry(customFields, fieldId, value) == Ok(None) <==> IsEmptyValue(value)
    ensures !IsEmptyValue(Num(0)) && !IsEmptyValue(Bool(false))
  {
  }

  /** The entries that are not skipped, in order. */
  function Kept(entries: Fields): Fields {
    if entries == [] then []
    else
      var last := entries[|entries| - 1];
      Kept(entries[..|entries| - 1]) + (if IsEmptyValue(last.1) then [] else [last])
  }

  /**
   * The output keeps the input order: its j-th element is what the j-th
   * kept entry resolves to, so there is at most one element per key.
   */
  lemma {:induction false} OutputFollowsInput(customFields: JsValue, entries: Fields, out: seq<JsValue>)
    requires ResolveAll(customFields, entries) == Ok(out)
    ensures |out| == |Kept(entries)| <= |entries|
    ensures forall j | 0 <= j < |out| :: ResolveEntry(customFields, Kept(entries)[j].0, Kept(entries)[j].1) == Ok(Some(out[j]))
  {
    if entries != [] {
      var init := entries[..|entries| - 1];
      var last := entries[|entries| - 1];
      var prev := ResolveAll(customFields, init).value;
      OutputFollowsInput(customFields, init, prev);
      if !IsEmptyValue(last.1) {
        assert Kept(entries) == Kept(init) + [last];
        var e := ResolveEntry(customFields, last.0, last.1);
        assert e.Ok? && e.value.Some?;
        assert out == prev + [e.value.value];
      } else {
        assert Kept(entries) == Kept(init);
      }
    }
  }

  /** The first catalog field with a matching `_id` is the one used; none gives undefined. */
  lemma {:induction false} FindByIdFirst(xs: seq<JsValue>, id: JsValue)
    ensures FindById(xs, id) == Undefined || FindById(xs, id) in xs
    ensures (forall i | 0 <= i < |xs| :: !StrictEquals(Get(xs[i], "_id"), id)) ==> FindById(xs, id) == Undefined
    ensures forall i | 0 <= i < |xs| && StrictEquals(Get(xs[i], "_id"), id) && (forall j | 0 <= j < i :: !StrictEquals(Get(xs[j], "_id"), id)) ::
      FindById(xs, id) == xs[i]
  {
    if xs != [] {
      FindByIdFirst(xs[1..], id);
      forall i | 0 < i < |xs| ensures xs[1..][i - 1] == xs[i] {}
    }
  }

  /** A value for a field the catalog lacks is kept as is, labelled "Unknown Field", with no option lookup or unwrapping. */
  lemma UnknownFieldKeptRaw(catalog: seq<JsValue>, fieldId: string, value: JsValue)
    requires !IsEmptyValue(value)
    requires forall i | 0 <= i < |catalog| :: Get(catalog[i], "_id") != Str(fieldId)
    ensures ResolveEntry(Arr(catalog), fieldId, value) == Ok(Some(Obj([("label", Str(UnknownLabel)), ("value", value)])))
  {
    FindByIdFirst(catalog, Str(fieldId));
  }

  /**
   * A known field labels the value with its own `label`; with a non-empty
   * options array, a string value is replaced by its option's label, an
   * array value element by element, and anything else is left as it is;
   * a one-element array is then unwrapped.
   */
  lemma KnownFieldResolved(catalog: seq<JsValue>, fieldId: string, value: JsValue)
    requires !IsEmptyValue(value)
    requires Truthy(FindById(catalog, Str(fieldId)))
    requires var options := Get(FindById(catalog, Str(fieldId)), "options"); options.Arr? && |options.elems| > 0
    ensures var field := FindById(catalog, Str(fieldId));
      var options := Get(field, "options").elems;
      var resolved :=
        if value.Str? then ResolveOption(options, value)
        else if value.Arr? then Arr(seq(|value.elems|, i requires 0 <= i < |value.elems| => ResolveOption(options, value.elems[i])))
        else value;
      ResolveEntry(Arr(catalog), fieldId, value) == Ok(Some(Obj([("label", Get(field, "label")), ("value", Unwrap(resolved))])))
  {
  }

  /** A known field without options labels the value with its own `label` and only unwraps it. */
  lemma KnownFieldPlain(catalog: seq<JsValue>, fieldId: string, value: JsValue)
    requires !IsEmptyValue(value)
    requires Truthy(FindById(catalog, Str(fieldId))) && !HasOptions(FindById(catalog, Str(fieldId)))
    ensures var field := FindById(catalog, Str(fieldId));
      ResolveEntry(Arr(catalog), fieldId, value) == Ok(Some(Obj([("label", Get(field, "label")), ("value", Unwrap(value))])))
  {
  }

  /**
   * When a known field's `options` has a positive `length` but is no array
   * (a string, or an object with its own `length`), `options.find` throws
   * for a string or non-empty array value, and other values pass through.
   */
  lemma KnownFieldOptionsNotArray(catalog: seq<JsValue>, fieldId: string, value: JsValue)
    requires !IsEmptyValue(value)
    requires Truthy(FindById(catalog, Str(fieldId))) && HasOptions(FindById(catalog, Str(fieldId)))
    requires !Get(FindById(catalog, Str(fieldId)), "options").Arr?
    ensures var field := FindById(catalog, Str(fieldId));
      if value.Str? || value.Arr? then ResolveEntry(Arr(catalog), fieldId, value) == Err("field.options.find is not a function")
      else ResolveEntry(Arr(catalog), fieldId, value) == Ok(Some(Obj([("label", Get(field, "label")), ("value", value)])))
  {
    var field := FindById(catalog, Str(fieldId));
    var options := Get(field, "options");
    assert options.Str? || options.Obj?;
    assert "field.options" + "." + "find" + " is not a function" == "field.options.find is not a function";
    if value.Str? || value.Arr? {
      assert value.Arr? ==> |value.elems| > 0;
      assert ResolveOptions(field, value) == Err("field.options.find is not a function");
    } else {
      assert ResolveOptions(field, value) == Ok(value);
    }
  }

  /** An option id with no matching option stays the id; a matching one becomes that option's label. */
  lemma ResolveOptionFacts(options: seq<JsValue>, optionId: JsValue, i: nat)
    requires i < |options| && StrictEquals(Get(options[i], "_id"), optionId)
    requires forall j | 0 <= j < i :: !StrictEquals(Get(options[j], "_id"), optionId)
    ensures ResolveOption(options, optionId) == Get(options[i], "label")
  {
    FindByIdFirst(options, optionId);
  }

  lemma ResolveOptionUnmatched(options: seq<JsValue>, optionId: JsValue)
    requires forall j | 0 <= j < |options| :: !StrictEquals(Get(options[j], "_id"), optionId)
    ensures ResolveOption(options, optionId) == optionId
  {
    FindByIdFirst(options, optionId);
  }

  /** Unwrapping changes exactly the one-element arrays. */
  lemma UnwrapOnlySingletons(v: JsValue)
    ensures Unwrap(v) != v <==> v.Arr? && |v.elems| == 1
  {
    if v.Arr? && |v.elems| == 1 {
      assert v.elems[0] < v;
    }
  }
}
