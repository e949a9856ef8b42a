/** `cleanParams` and `createApiConfig` (utils/objectUtils.ts). */
module ObjectUtils {
  import opened Js
  import opened ApiHelpers

  /** The fields `cleanParams` keeps: every field whose value is not `undefined`, in order. */
  function Cleaned(es: Fields): Fields {
    if es == [] then []
    else (if es[0].1.Undefined? then [] else [es[0]]) + Cleaned(es[1..])
  }

  /** The object once the `forEach` of `cleanParams` has visited the keys in `done`. */
  function CleanedAmong(es: Fields, done: seq<string>): Fields {
    if es == [] then []
    else (if es[0].1.Undefined? && es[0].0 in done then [] else [es[0]]) + CleanedAmong(es[1..], done)
  }

  /**
   * `cleanParams(obj)`: deletes, in place, every key of `obj` that maps to
   * `undefined`, and returns the same reference.
   */
  method CleanParams(obj: JsObject) returns (r: JsObject)
    requires obj.Valid()
    modifies obj
    ensures r == obj && obj.Valid()
    ensures obj.entries == Cleaned(old(obj.entries))
  {
    ghost var original := obj.entries;
    var keys := Keys(obj.entries);
    CleanedAmongNothing(original);
    for i := 0 to |keys|
      invariant obj.Valid()
      invariant obj.entries == CleanedAmong(original, keys[..i])
    {
      var key := keys[i];
      forall j | 0 <= j < i
        ensures keys[..i][j] != key
      {
        assert keys[j] != keys[i];
      }
      CleanedAmongLookup(original, keys[..i], key);
      if Lookup(obj.entries, key) == Undefined {
        DropStep(original, keys[..i], key);
        obj.Remove(key);
      } else {
        KeepStep(original, keys[..i], key);
      }
      assert keys[..i + 1] == keys[..i] + [key];
    }
    assert keys[..|keys|] == keys;
    CleanedAmongAll(original, keys);
    r := obj;
  }

  // ---------------------------------------------------------------------
  // The loop's steps

  lemma {:induction false} CleanedAmongNothing(es: Fields)
    ensures CleanedAmong(es, []) == es
  {
    if es != [] {
      CleanedAmongNothing(es[1..]);
    }
  }

  lemma {:induction false} CleanedAmongAll(es: Fields, done: seq<string>)
    requires forall k | k in Keys(es) :: k in done
    ensures CleanedAmong(es, done) == Cleaned(es)
  {
    if es != [] {
      KeysTail(es);
      CleanedAmongAll(es[1..], done);
    }
  }

  lemma {:induction false} CleanedAmongLookup(es: Fields, done: seq<string>, k: string)
    requires k !in done
    ensures Lookup(CleanedAmong(es, done), k) == Lookup(es, k)
  {
    if es != [] {
      CleanedAmongLookup(es[1..], done, k);
      var head := if es[0].1.Undefined? && es[0].0 in done then [] else [es[0]];
      var rest := CleanedAmong(es[1..], done);
      if head != [] {
        assert (head + rest)[0] == es[0] && (head + rest)[1..] == rest;
      } else {
        assert head + rest == rest;
      }
    }
  }

  lemma {:induction false} CleanedAmongIrrelevant(es: Fields, done: seq<string>, k: string)
    requires k !in Keys(es)
    ensures CleanedAmong(es, done + [k]) == CleanedAmong(es, done)
    ensures k !in Keys(CleanedAmong(es, done))
  {
    if es != [] {
      KeysTail(es);
      CleanedAmongIrrelevant(es[1..], done, k);
      var head := if es[0].1.Undefined? && es[0].0 in done then [] else [es[0]];
      var rest := CleanedAmong(es[1..], done);
      if head != [] {
        assert head + rest == [es[0]] + rest;
        KeysTail(head + rest);
      } else {
        assert head + rest == rest;
      }
    }
  }

  lemma {:induction false} DropStep(es: Fields, done: seq<string>, k: string)
    requires UniqueKeys(es) && Lookup(es, k).Undefined?
    ensures Delete(CleanedAmong(es, done), k) == CleanedAmong(es, done + [k])
  {
    if es != [] {
      KeysTail(es);
      DistinctCons(es[0].0, Keys(es[1..]));
      var head := if es[0].1.Undefined? && es[0].0 in done then [] else [es[0]];
      var rest := CleanedAmong(es[1..], done);
      if es[0].0 == k {
        CleanedAmongIrrelevant(es[1..], done, k);
        DeleteAbsent(rest, k);
        if head != [] {
          assert (head + rest)[0] == es[0] && (head + rest)[1..] == rest;
        } else {
          assert head + rest == rest;
        }
      } else {
        DropStep(es[1..], done, k);
        if head != [] {
          assert (head + rest)[0] == es[0] && (head + rest)[1..] == rest;
        } else {
          assert head + rest == rest;
        }
      }
    }
  }

  lemma {:induction false} KeepStep(es: Fields, done: seq<string>, k: string)
    requires UniqueKeys(es) && !Lookup(es, k).Undefined?
    ensures CleanedAmong(es, done + [k]) == CleanedAmong(es, done)
  {
    if es != [] {
      KeysTail(es);
      DistinctCons(es[0].0, Keys(es[1..]));
      if es[0].0 == k {
        CleanedAmongIrrelevant(es[1..], done, k);
      } else {
        KeepStep(es[1..], done, k);
      }
    }
  }

  // ---------------------------------------------------------------------
  // What cleaning promises

  /** No field of the cleaned object holds `undefined`. */
  lemma {:induction false} CleanedHasNoUndefined(es: Fields)
    ensures forall i | 0 <= i < |Cleaned(es)| :: !Cleaned(es)[i].1.Undefined?
  {
    if es != [] {
      CleanedHasNoUndefined(es[1..]);
    }
  }

  /**
   * Every key reads the same before and after cleaning, and a key is still
   * present exactly when its value was not `undefined` (null, false, 0 and
   * "" all stay).
   */
  lemma {:induction false} CleanedReadsTheSame(es: Fields, k: string)
    requires UniqueKeys(es)
    ensures Lookup(Cleaned(es), k) == Lookup(es, k)
    ensures k in Keys(Cleaned(es)) <==> k in Keys(es) && !Lookup(es, k).Undefined?
  {
    if es != [] {
      KeysTail(es);
      DistinctCons(es[0].0, Keys(es[1..]));
      CleanedReadsTheSame(es[1..], k);
      var head := if es[0].1.Undefined? then [] else [es[0]];
      var rest := Cleaned(es[1..]);
      if head != [] {
        assert (head + rest)[0] == es[0] && (head + rest)[1..] == rest;
        KeysTail(head + rest);
      } else {
        assert head + rest == rest;
        if es[0].0 == k {
          LookupAbsent(es[1..], k);
        }
      }
    }
  }

  /** The cleaned object's keys are the defined keys, in their original order. */
  lemma {:induction false} CleanedKeys(es: Fields)
    ensures Keys(Cleaned(es)) == DefinedKeys(es)
  {
    if es != [] {
      CleanedKeys(es[1..]);
      var head := if es[0].1.Undefined? then [] else [es[0]];
      var rest := Cleaned(es[1..]);
      if head != [] {
        KeysTail(head + rest);
        assert (head + rest)[1..] == rest;
      } else {
        assert head + rest == rest;
      }
    }
  }

  lemma CleanedUnique(es: Fields)
    requires UniqueKeys(es)
    ensures UniqueKeys(Cleaned(es))
  {
    forall i, j | 0 <= i < j < |Cleaned(es)|
      ensures Keys(Cleaned(es))[i] != Keys(Cleaned(es))[j]
    {
      var a := Cleaned(es)[i].0;
      var b := Cleaned(es)[j].0;
      if a == b {
        CleanedReadsTheSame(es, a);
        CleanedHasNoUndefined(es);
        assert Keys(Cleaned(es))[i] == a;
        CleanedKeysDistinct(es);
      }
    }
  }

  lemma {:induction false} CleanedKeysDistinct(es: Fields)
    requires UniqueKeys(es)
    ensures Distinct(Keys(Cleaned(es)))
  {
    if es != [] {
      KeysTail(es);
      DistinctCons(es[0].0, Keys(es[1..]));
      CleanedKeysDistinct(es[1..]);
      var head := if es[0].1.Undefined? then [] else [es[0]];
      var rest := Cleaned(es[1..]);
      if head != [] {
        assert head + rest == [es[0]] + rest;
        KeysTail(head + rest);
        assert (head + rest)[1..] == rest;
        if es[0].0 in Keys(rest) {
          CleanedReadsTheSame(es[1..], es[0].0);
        }
        DistinctCons(es[0].0, Keys(rest));
      } else {
        assert head + rest == rest;
      }
    }
  }

  /** Cleaning twice is cleaning once. */
  lemma {:induction false} CleanedIdempotent(es: Fields)
    ensures Cleaned(Cleaned(es)) == Cleaned(es)
  {
    if es != [] {
      CleanedIdempotent(es[1..]);
      var head := if es[0].1.Undefined? then [] else [es[0]];
      var rest := Cleaned(es[1..]);
      if head != [] {
        assert (head + rest)[0] == es[0] && (head + rest)[1..] == rest;
      } else {
        assert head + rest == rest;
      }
    }
  }

  /** Encoding a cleaned object gives the same pairs: the encoder skips `undefined` itself. */
  lemma {:induction false} EncodeIgnoresUndefined(es: Fields)
    ensures EncodePairs(Cleaned(es)) == EncodePairs(es)
    ensures FlatPairs(Cleaned(es)) == FlatPairs(es)
  {
    if es != [] {
      EncodeIgnoresUndefined(es[1..]);
      var head := if es[0].1.Undefined? then [] else [es[0]];
      var rest := Cleaned(es[1..]);
      if head != [] {
        assert (head + rest)[0] == es[0] && (head + rest)[1..] == rest;
      } else {
        assert head + rest == rest;
      }
    }
  }

  /** `createApiConfig(appConfig)`: `{apiKey, baseUrl}` copied from the app configuration. */
  function CreateApiConfig(appConfig: JsValue): ApiConfig {
    ApiConfig(Get(appConfig, "apiKey"), Get(appConfig, "baseUrl"))
  }

  /**
   * Every request made with the app's configuration carries its API key and
   * goes to its base URL, or to https://do.featurebase.app when that is unset.
   */
  lemma AppConfigReachesRequest(appConfig: JsValue, endpoint: string, opts: Options)
    ensures var r := RequestFor(CreateApiConfig(appConfig), endpoint, opts);
      && r.headers[0] == ("X-API-Key", Get(appConfig, "apiKey"))
      && r.url.target == ToStr(Or(Get(appConfig, "baseUrl"), Str(DefaultBaseUrl))) + endpoint
      && (!Truthy(Get(appConfig, "baseUrl")) ==> r.url.target == DefaultBaseUrl + endpoint)
  {
  }
}
