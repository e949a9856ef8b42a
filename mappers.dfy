/** The record projections of utils/mappers.ts. */
module Mappers {
  import opened Js

  const UserKeys: seq<string> := ["id", "email", "name", "profilePicture", "verified", "type"]
  const PostStatusKeys: seq<string> := ["name", "color", "type", "isDefault", "id"]
  const ChangelogCategoryKeys: seq<string> := ["name", "color", "id"]
  const ChangeKeys: seq<string> := ["field", "oldValue", "newValue"]

  /** `mapFeaturebaseUser` */
  function MapUser(user: JsValue): JsValue {
    Obj(Pick(user, UserKeys))
  }

  /** `mapFeaturebasePostStatus` */
  function MapPostStatus(status: JsValue): JsValue {
    Obj(Pick(status, PostStatusKeys))
  }

  /** `mapFeaturebasePostCategory`: the category's `category` becomes `name`. */
  function MapPostCategory(category: JsValue): JsValue {
    Obj([("name", Get(category, "category")), ("private", Get(category, "private")),
         ("icon", Get(category, "icon")), ("id", Get(category, "id"))])
  }

  function MapChangelogCategory(category: JsValue): JsValue {
    Obj(Pick(category, ChangelogCategoryKeys))
  }

  /** `mapFeaturebaseChangelogCategories` */
  function MapChangelogCategories(categories: seq<JsValue>): seq<JsValue> {
    seq(|categories|, i requires 0 <= i < |categories| => MapChangelogCategory(categories[i]))
  }

  function MapChange(change: JsValue): JsValue {
    Obj(Pick(change, ChangeKeys))
  }

  /** `mapFeaturebaseChanges` */
  function MapChanges(changes: seq<JsValue>): seq<JsValue> {
    seq(|changes|, i requires 0 <= i < |changes| => MapChange(changes[i]))
  }

  // ---------------------------------------------------------------------
  // What the mappers keep and drop

  /** The mapped user has exactly the six kept keys, each read from the user; `description` is dropped. */
  lemma MapUserFacts(user: JsValue, k: string)
    ensures Keys(MapUser(user).fields) == UserKeys
    ensures Get(MapUser(user), k) == if k in UserKeys then Get(user, k) else Undefined
    ensures Get(MapUser(user), "description") == Undefined
  {
    PickKeys(user, UserKeys);
    PickLookup(user, UserKeys, k);
    PickLookup(user, UserKeys, "description");
  }

  /** The mapped status copies its five fields unchanged. */
  lemma MapPostStatusFacts(status: JsValue, k: string)
    ensures Keys(MapPostStatus(status).fields) == PostStatusKeys
    ensures Get(MapPostStatus(status), k) == if k in PostStatusKeys then Get(status, k) else Undefined
  {
    PickKeys(status, PostStatusKeys);
    PickLookup(status, PostStatusKeys, k);
  }

  /**
   * The mapped category renames `category` to `name`, keeps `private`,
   * `icon` and `id`, and drops `segmentIds`, `roles` and `customInputFields`.
   */
  lemma MapPostCategoryFacts(category: JsValue)
    ensures var m := MapPostCategory(category);
      && Keys(m.fields) == ["name", "private", "icon", "id"]
      && Get(m, "name") == Get(category, "category")
      && Get(m, "private") == Get(category, "private")
      && Get(m, "icon") == Get(category, "icon")
      && Get(m, "id") == Get(category, "id")
      && Get(m, "category") == Undefined
      && Get(m, "segmentIds") == Undefined && Get(m, "roles") == Undefined && Get(m, "customInputFields") == Undefined
  {
    var m := MapPostCategory(category);
    assert UniqueKeys(m.fields);
    LookupAt(m.fields, 1);
    LookupAt(m.fields, 2);
    LookupAt(m.fields, 3);
    LookupAbsent(m.fields, "category");
    LookupAbsent(m.fields, "segmentIds");
    LookupAbsent(m.fields, "roles");
    LookupAbsent(m.fields, "customInputFields");
  }

  /** Mapping categories keeps their number and order, and each keeps its name, color and id. */
  lemma MapChangelogCategoriesFacts(categories: seq<JsValue>, i: nat, k: string)
    requires i < |categories|
    ensures |MapChangelogCategories(categories)| == |categories|
    ensures Keys(MapChangelogCategories(categories)[i].fields) == ChangelogCategoryKeys
    ensures Get(MapChangelogCategories(categories)[i], k) ==
      if k in ChangelogCategoryKeys then Get(categories[i], k) else Undefined
  {
    PickKeys(categories[i], ChangelogCategoryKeys);
    PickLookup(categories[i], ChangelogCategoryKeys, k);
  }

  /** Mapping changes keeps their number and order, and each change's field, old and new value. */
  lemma MapChangesFacts(changes: seq<JsValue>, i: nat, k: string)
    requires i < |changes|
    ensures |MapChanges(changes)| == |changes|
    ensures Keys(MapChanges(changes)[i].fields) == ChangeKeys
    ensures Get(MapChanges(changes)[i], k) == if k in ChangeKeys then Get(changes[i], k) else Undefined
  {
    PickKeys(changes[i], ChangeKeys);
    PickLookup(changes[i], ChangeKeys, k);
  }
}
