/**
 * JavaScript values as the connector handles them: parsed webhook bodies,
 * block input configuration and API responses.  Objects are ordered field
 * lists, because insertion order is observable in `Object.keys`, in object
 * spreads and in the query strings built from `Object.entries`.
 */
module Js {
  import opened Wrappers

  datatype JsValue =
    | Undefined
    | Null
    | Bool(b: bool)
    | Num(n: int)
    | NaN
    | Str(s: string)
    | Arr(elems: seq<JsValue>)
    | Obj(fields: seq<(string, JsValue)>)

  type Fields = seq<(string, JsValue)>

  /** JavaScript truthiness, as used by `if (v)`, `!v`, `!!v` and `||`. */
  predicate Truthy(v: JsValue) {
    match v
    case Undefined => false
    case Null => false
    case Bool(b) => b
    case Num(n) => n != 0
    case NaN => false
    case Str(s) => s != ""
    case Arr(_) => true
    case Obj(_) => true
  }

  /** `x || d` */
  function Or(x: JsValue, d: JsValue): JsValue {
    if Truthy(x) then x else d
  }

  /** `v === undefined || v === null` */
  predicate Nullish(v: JsValue) {
    v.Undefined? || v.Null?
  }

  /** `typeof v === "object"` (arrays and null included). */
  predicate IsObjectType(v: JsValue) {
    v.Null? || v.Arr? || v.Obj?
  }

  /**
   * `a === b`.  Arrays and objects are compared by identity in JavaScript;
   * two values parsed from separate JSON texts are never the same object,
   * so they are never strictly equal here.
   */
  predicate StrictEquals(a: JsValue, b: JsValue) {
    match a
    case NaN => false
    case Arr(_) => false
    case Obj(_) => false
    case _ => a == b
  }

  // ---------------------------------------------------------------------
  // Ordered objects

  /** `Object.keys` of an object given by its fields. */
  function Keys(es: Fields): seq<string> {
    seq(|es|, i requires 0 <= i < |es| => es[i].0)
  }

  predicate Distinct(ks: seq<string>) {
    forall i, j | 0 <= i < j < |ks| :: ks[i] != ks[j]
  }

  /** What every real JavaScript object satisfies: no key twice. */
  predicate UniqueKeys(es: Fields) {
    Distinct(Keys(es))
  }

  /** `obj[k]` on an object given by its fields. */
  function Lookup(es: Fields, k: string): JsValue {
    if es == [] then Undefined
    else if es[0].0 == k then es[0].1
    else Lookup(es[1..], k)
  }

  /**
   * `v.k` and `v?.k`.  On anything but an object this is `undefined`; for
   * strings, arrays and numbers that is what JavaScript gives for every key
   * the connector reads.
   */
  function Get(v: JsValue, k: string): JsValue {
    if v.Obj? then Lookup(v.fields, k) else Undefined
  }

  /** `obj[k] = v`: an existing key keeps its position, a new key is added last. */
  function Set(es: Fields, k: string, v: JsValue): Fields {
    if es == [] then [(k, v)]
    else if es[0].0 == k then [(k, v)] + es[1..]
    else [es[0]] + Set(es[1..], k, v)
  }

  /** `delete obj[k]` */
  function Delete(es: Fields, k: string): Fields {
    if es == [] then []
    else if es[0].0 == k then Delete(es[1..], k)
    else [es[0]] + Delete(es[1..], k)
  }

  /** `{...a, ...b}`: the fields of `b` assigned, in order, onto a copy of `a`. */
  function Spread(a: Fields, b: Fields): Fields
    decreases |b|
  {
    if b == [] then a else Spread(Set(a, b[0].0, b[0].1), b[1..])
  }

  /** `{k1: src.k1, k2: src.k2, …}`, the literal every block builds from its input. */
  function Pick(src: JsValue, keys: seq<string>): Fields {
    seq(|keys|, i requires 0 <= i < |keys| => (keys[i], Get(src, keys[i])))
  }

  /** The keys of `es` whose value is not `undefined`, in order. */
  function DefinedKeys(es: Fields): seq<string> {
    if es == [] then []
    else (if es[0].1.Undefined? then [] else [es[0].0]) + DefinedKeys(es[1..])
  }

  /** A JavaScript object that the code changes in place (`obj[k] = v`, `delete obj[k]`). */
  class JsObject {
    var entries: Fields

    ghost predicate Valid()
      reads this
    {
      UniqueKeys(entries)
    }

    constructor (es: Fields)
      requires UniqueKeys(es)
      ensures Valid() && entries == es
    {
      entries := es;
    }

    /** `this[k] = v` */
    method Put(k: string, v: JsValue)
      requires Valid()
      modifies this
      ensures Valid() && entries == Set(old(entries), k, v)
    {
      SetFacts(entries, k, v);
      entries := Set(entries, k, v);
    }

    /** `delete this[k]` */
    method Remove(k: string)
      requires Valid()
      modifies this
      ensures Valid() && entries == Delete(old(entries), k)
    {
      DeleteFacts(entries, k);
      entries := Delete(entries, k);
    }
  }

  // ---------------------------------------------------------------------
  // String conversion

  function DigitChar(d: nat): char
    requires d < 10
  {
    ('0' as int + d) as char
  }

  function NatToString(n: nat): string
    decreases n
  {
    if n < 10 then [DigitChar(n)] else NatToString(n / 10) + [DigitChar(n % 10)]
  }

  function IntToString(i: int): string {
    if i < 0 then "-" + NatToString(-i) else NatToString(i)
  }

  function Join(ss: seq<string>, sep: string): string {
    if ss == [] then ""
    else if |ss| == 1 then ss[0]
    else ss[0] + sep + Join(ss[1..], sep)
  }

  /** `String(v)` and template interpolation `${v}`. */
  function ToStr(v: JsValue): string
    decreases v
  {
    match v
    case Undefined => "undefined"
    case Null => "null"
    case Bool(b) => if b then "true" else "false"
    case Num(n) => IntToString(n)
    case NaN => "NaN"
    case Str(s) => s
    case Arr(es) =>
      Join(seq(|es|, i requires 0 <= i < |es| => if Nullish(es[i]) then "" else ToStr(es[i])), ",")
    case Obj(_) => "[object Object]"
  }

  /** `Object.entries(v)` */
  function Entries(v: JsValue): Fields {
    match v
    case Obj(es) => es
    case Arr(xs) => seq(|xs|, i requires 0 <= i < |xs| => (NatToString(i), xs[i]))
    case Str(s) => seq(|s|, i requires 0 <= i < |s| => (NatToString(i), Str([s[i]])))
    case _ => []
  }

  /**
   * `v.length`, which throws a TypeError on `undefined` and `null`; an
   * object reads its own `length` key.
   */
  function LengthOf(v: JsValue): Result<JsValue, string> {
    match v
    case Undefined => Err("Cannot read properties of undefined (reading 'length')")
    case Null => Err("Cannot read properties of null (reading 'length')")
    case Arr(xs) => Ok(Num(|xs|))
    case Str(s) => Ok(Num(|s|))
    case Obj(fs) => Ok(Lookup(fs, "length"))
    case _ => Ok(Undefined)
  }

  // ---------------------------------------------------------------------
  // Facts about ordered objects

  lemma KeysTail(es: Fields)
    requires es != []
    ensures Keys(es) == [es[0].0] + Keys(es[1..])
  {
  }

  lemma DistinctCons(k: string, ks: seq<string>)
    ensures Distinct([k] + ks) <==> k !in ks && Distinct(ks)
  {
    var s := [k] + ks;
    if Distinct(s) {
      forall i | 0 <= i < |ks| ensures ks[i] != k {
        assert s[0] != s[i + 1];
      }
      forall i, j | 0 <= i < j < |ks| ensures ks[i] != ks[j] {
        assert s[i + 1] != s[j + 1];
      }
    }
    if k !in ks && Distinct(ks) {
      forall i, j | 0 <= i < j < |s| ensures s[i] != s[j] {
        if i == 0 {
          assert s[j] == ks[j - 1];
        } else {
          assert s[i] == ks[i - 1] && s[j] == ks[j - 1];
        }
      }
    }
  }

  lemma {:induction false} LookupAt(es: Fields, i: nat)
    requires UniqueKeys(es) && i < |es|
    ensures Lookup(es, es[i].0) == es[i].1
  {
    if i > 0 {
      assert Keys(es)[0] != Keys(es)[i];
      KeysTail(es);
      DistinctCons(es[0].0, Keys(es[1..]));
      LookupAt(es[1..], i - 1);
    }
  }

  /** A key reads as its entry when no earlier entry has the same key. */
  lemma {:induction false} LookupAfter(es: Fields, i: nat)
    requires i < |es|
    requires forall j | 0 <= j < i :: es[j].0 != es[i].0
    ensures Lookup(es, es[i].0) == es[i].1
  {
    if i > 0 {
      assert es[0].0 != es[i].0;
      assert forall j | 0 <= j < i - 1 :: es[1..][j] == es[j + 1];
      LookupAfter(es[1..], i - 1);
    }
  }

  lemma {:induction false} LookupAbsent(es: Fields, k: string)
    requires k !in Keys(es)
    ensures Lookup(es, k) == Undefined
  {
    if es != [] {
      KeysTail(es);
      LookupAbsent(es[1..], k);
    }
  }

  lemma {:induction false} LookupPresent(es: Fields, k: string)
    requires Lookup(es, k) != Undefined
    ensures k in Keys(es)
  {
    if k !in Keys(es) {
      LookupAbsent(es, k);
    }
  }

  lemma {:induction false} SetFacts(es: Fields, k: string, v: JsValue)
    ensures Lookup(Set(es, k, v), k) == v
    ensures forall k' :: k' != k ==> Lookup(Set(es, k, v), k') == Lookup(es, k')
    ensures Keys(Set(es, k, v)) == if k in Keys(es) then Keys(es) else Keys(es) + [k]
    ensures UniqueKeys(es) ==> UniqueKeys(Set(es, k, v))
  {
    if es != [] {
      KeysTail(es);
      KeysTail(Set(es, k, v));
      DistinctCons(es[0].0, Keys(es[1..]));
      if es[0].0 != k {
        SetFacts(es[1..], k, v);
        DistinctCons(es[0].0, Keys(Set(es[1..], k, v)));
      } else {
        assert Set(es, k, v)[1..] == es[1..];
        DistinctCons(k, Keys(es[1..]));
      }
    }
  }

  lemma {:induction false} DeleteFacts(es: Fields, k: string)
    ensures Lookup(Delete(es, k), k) == Undefined
    ensures forall k' :: k' != k ==> Lookup(Delete(es, k), k') == Lookup(es, k')
    ensures forall k' :: k' in Keys(Delete(es, k)) <==> k' in Keys(es) && k' != k
    ensures UniqueKeys(es) ==> UniqueKeys(Delete(es, k))
  {
    if es != [] {
      KeysTail(es);
      DeleteFacts(es[1..], k);
      DistinctCons(es[0].0, Keys(es[1..]));
      if es[0].0 != k {
        KeysTail(Delete(es, k));
        DistinctCons(es[0].0, Keys(Delete(es[1..], k)));
      }
    }
  }

  lemma {:induction false} DeleteAbsent(es: Fields, k: string)
    requires k !in Keys(es)
    ensures Delete(es, k) == es
  {
    if es != [] {
      KeysTail(es);
      DeleteAbsent(es[1..], k);
    }
  }

  lemma PickKeys(src: JsValue, keys: seq<string>)
    ensures Keys(Pick(src, keys)) == keys
    ensures Distinct(keys) ==> UniqueKeys(Pick(src, keys))
  {
  }

  /** A picked object reads, at each of its keys, what the source reads there, and nothing elsewhere. */
  lemma {:induction false} PickLookup(src: JsValue, keys: seq<string>, k: string)
    ensures Lookup(Pick(src, keys), k) == if k in keys then Get(src, k) else Undefined
  {
    if keys != [] {
      assert Pick(src, keys)[0] == (keys[0], Get(src, keys[0]));
      assert Pick(src, keys)[1..] == Pick(src, keys[1..]);
      PickLookup(src, keys[1..], k);
    }
  }

  /**
   * `{...a, ...b}`: a key of `b` reads as in `b`, any other as in `a`; the
   * keys of `a` come first, in their order.
   */
  lemma {:induction false} SpreadFacts(a: Fields, b: Fields, k: string)
    requires UniqueKeys(a) && UniqueKeys(b)
    ensures Lookup(Spread(a, b), k) == if k in Keys(b) then Lookup(b, k) else Lookup(a, k)
    ensures k in Keys(Spread(a, b)) <==> k in Keys(a) || k in Keys(b)
    ensures UniqueKeys(Spread(a, b))
    ensures Keys(a) <= Keys(Spread(a, b))
    decreases |b|
  {
    if b != [] {
      var a' := Set(a, b[0].0, b[0].1);
      SetFacts(a, b[0].0, b[0].1);
      KeysTail(b);
      DistinctCons(b[0].0, Keys(b[1..]));
      SpreadFacts(a', b[1..], k);
      if k in Keys(a) {
        assert k in Keys(a');
      }
      if k == b[0].0 {
        assert k in Keys(a');
      }
    }
  }

  /** Assigning a key the object does not have appends it; spreading such a key in does the same. */
  lemma {:induction false} SetAbsent(es: Fields, k: string, v: JsValue)
    requires k !in Keys(es)
    ensures Set(es, k, v) == es + [(k, v)]
    ensures Spread(es, [(k, v)]) == es + [(k, v)]
  {
    if es != [] {
      KeysTail(es);
      SetAbsent(es[1..], k, v);
      assert es == [es[0]] + es[1..];
    }
    assert [(k, v)][1..] == [];
  }

  /**
   * The array an array method (`map`, `find`) is called on as `expr.member(...)`,
   * or the TypeError the call throws when `expr` is not an array.
   */
  function ArrayOf(v: JsValue, expr: string, member: string): (r: Result<seq<JsValue>, string>)
    ensures r.Ok? <==> v.Arr?
    ensures r.Ok? ==> r.value == v.elems
  {
    match v
    case Arr(xs) => Ok(xs)
    case Undefined => Err("Cannot read properties of undefined (reading '" + member + "')")
    case Null => Err("Cannot read properties of null (reading '" + member + "')")
    case _ => Err(expr + "." + member + " is not a function")
  }
}
