/**
 * XmlParsing.cpp, `ParseItems` and `ParseItemStrings`. An item file is named after its item id;
 * its record is created first, then every environment element the gate accepts on the item's own
 * slots appends the effects its `AdditionalEffect` child lists. An item-name key names an existing
 * item the gate accepts, and gives it a class when it has one.
 */
module ItemParsing {
  import opened XmlTree
  import opened ParserUtils
  import opened FeatureGate
  import opened XmlData
  import opened EffectLists
  import Wrappers

  /** The effect lists of an environment's `AdditionalEffect` child: the level list covers every non-zero id. */
  predicate EnvironmentWellFormed(environment: Element)
  {
    match FirstChildNamed(environment.children, "AdditionalEffect")
    case None => true
    case Some(effects) => LevelsCover(ListAttribute(effects, "id"), ListAttribute(effects, "level"))
  }

  predicate ItemDocumentWellFormed(root: Element)
  {
    forall k :: 0 <= k < |root.children| ==> EnvironmentWellFormed(root.children[k])
  }

  function ItemOrEmpty(items: map<int, ItemData>, id: int): ItemData
  {
    if id in items then items[id] else EmptyItem
  }

  /** One round of the environment loop, on the item record. */
  function ApplyEnvironment(table: FeatureTable, requested: string, item: ItemData, environment: Element): ItemData
    requires EnvironmentWellFormed(environment)
  {
    var v := IsNodeEnabled(table, requested, environment, item.feature, item.locale);
    if !v.enabled then item
    else
      var gated := item.(feature := v.feature, locale := v.locale);
      match FirstChildNamed(environment.children, "AdditionalEffect")
      case None => gated
      case Some(effects) =>
        gated.(additionalEffects := gated.additionalEffects + ListedEffects(ListAttribute(effects, "id"), ListAttribute(effects, "level")))
  }

  function ApplyEnvironments(table: FeatureTable, requested: string, item: ItemData, environments: seq<Element>): ItemData
    requires forall k :: 0 <= k < |environments| ==> EnvironmentWellFormed(environments[k])
    decreases |environments|
  {
    if environments == [] then item
    else ApplyEnvironment(table, requested, ApplyEnvironments(table, requested, item, environments[..|environments| - 1]), environments[|environments| - 1])
  }

  /** The store after the item file of item `itemId`: the record exists whatever the gates decide. */
  function ItemFileOf(table: FeatureTable, requested: string, store: Store, itemId: int, root: Element): Store
    requires ItemDocumentWellFormed(root)
  {
    store.(items := store.items[itemId := ApplyEnvironments(table, requested, ItemOrEmpty(store.items, itemId), root.children)])
  }

  /** The body of the environment loop for one environment element. */
  method ParseEnvironment(table: FeatureTable, requested: string, item: ItemData, environment: Element) returns (r: ItemData)
    requires EnvironmentWellFormed(environment)
    ensures r == ApplyEnvironment(table, requested, item, environment)
  {
    r := item;
    var v := IsNodeEnabled(table, requested, environment, item.feature, item.locale);
    if !v.enabled {
      return;
    }
    r := r.(feature := v.feature, locale := v.locale);
    var additionalEffects := FirstChildNamed(environment.children, "AdditionalEffect");
    if additionalEffects.None? {
      return;
    }
    var effects := AppendListedEffects(additionalEffects.value, "id", "level", r.additionalEffects);
    r := r.(additionalEffects := effects);
  }

  /**
   * `ParseItems`, with the item id (the number the file is named after), the root element, the
   * feature table and the requested locale as parameters.
   */
  method ParseItems(table: FeatureTable, requested: string, store: Store, itemId: int, root: Element) returns (result: Store)
    requires ItemDocumentWellFormed(root)
    ensures result == ItemFileOf(table, requested, store, itemId, root)
  {
    var item := ItemOrEmpty(store.items, itemId);
    item := ParseEnvironmentList(table, requested, item, root.children);
    result := store.(items := store.items[itemId := item]);
  }

  /** The environment loop of `ParseItems`, on the item record. */
  method ParseEnvironmentList(table: FeatureTable, requested: string, item: ItemData, environments: seq<Element>)
    returns (r: ItemData)
    requires forall k :: 0 <= k < |environments| ==> EnvironmentWellFormed(environments[k])
    ensures r == ApplyEnvironments(table, requested, item, environments)
  {
    r := item;
    var i := 0;
    while i < |environments|
      invariant 0 <= i <= |environments|
      invariant r == ApplyEnvironments(table, requested, item, environments[..i])
    {
      ApplyEnvironmentsExtend(table, requested, item, environments, i);
      r := ParseEnvironment(table, requested, r, environments[i]);
      i := i + 1;
    }
    assert environments[..i] == environments;
  }

  /** The environment loop, one environment more. */
  lemma ApplyEnvironmentsExtend(table: FeatureTable, requested: string, item: ItemData, environments: seq<Element>, i: int)
    requires forall k :: 0 <= k < |environments| ==> EnvironmentWellFormed(environments[k])
    requires 0 <= i < |environments|
    ensures ApplyEnvironments(table, requested, item, environments[..i + 1])
         == ApplyEnvironment(table, requested, ApplyEnvironments(table, requested, item, environments[..i]), environments[i])
  {
    assert environments[..i + 1][..i] == environments[..i];
  }

  /**
   * The environment loop only appends effects, all of them Effect references with non-zero ids,
   * and leaves the name and the class alone.
   */
  lemma {:induction false} ApplyEnvironmentsAppends(table: FeatureTable, requested: string, item: ItemData, environments: seq<Element>)
    requires forall k :: 0 <= k < |environments| ==> EnvironmentWellFormed(environments[k])
    ensures var r := ApplyEnvironments(table, requested, item, environments);
      && item.additionalEffects <= r.additionalEffects
      && (forall k :: |item.additionalEffects| <= k < |r.additionalEffects| ==>
            r.additionalEffects[k].kind == Effect && r.additionalEffects[k].id != 0)
      && r.name == item.name && r.itemClass == item.itemClass
    decreases |environments|
  {
    if environments != [] {
      var front := environments[..|environments| - 1];
      ApplyEnvironmentsAppends(table, requested, item, front);
      ApplyEnvironmentAppends(table, requested, ApplyEnvironments(table, requested, item, front), environments[|environments| - 1]);
    }
  }

  /** One round of the environment loop, for `ApplyEnvironmentsAppends`. */
  lemma ApplyEnvironmentAppends(table: FeatureTable, requested: string, item: ItemData, environment: Element)
    requires EnvironmentWellFormed(environment)
    ensures var r := ApplyEnvironment(table, requested, item, environment);
      && item.additionalEffects <= r.additionalEffects
      && (forall k :: |item.additionalEffects| <= k < |r.additionalEffects| ==>
            r.additionalEffects[k].kind == Effect && r.additionalEffects[k].id != 0)
      && r.name == item.name && r.itemClass == item.itemClass
  {
    match FirstChildNamed(environment.children, "AdditionalEffect")
    case None =>
    case Some(effects) =>
      ListedEffectsShape(ListAttribute(effects, "id"), ListAttribute(effects, "level"));
  }

  /** The item file touches only its own record, and that record always exists afterwards. */
  lemma ItemFileFrame(table: FeatureTable, requested: string, store: Store, itemId: int, root: Element)
    requires ItemDocumentWellFormed(root)
    ensures var r := ItemFileOf(table, requested, store, itemId, root);
      && r.items.Keys == store.items.Keys + {itemId}
      && (forall id :: id in store.items && id != itemId ==> r.items[id] == store.items[id])
      && r == store.(items := r.items)
  {
  }

  /**
   * One key of the item-name file: a non-zero id of an existing item the gate accepts on the item's
   * own slots; the name is required, and only then the class is read.
   */
  function NameItem(table: FeatureTable, requested: string, items: map<int, ItemData>, key: Element): map<int, ItemData>
  {
    var itemId := ReadInt(key, "id", 0);
    if itemId == 0 || itemId !in items then items
    else
      var item := items[itemId];
      var v := IsNodeEnabled(table, requested, key, item.feature, item.locale);
      if !v.enabled then items
      else
        var gated := item.(feature := v.feature, locale := v.locale);
        match FindAttribute(key, "name")
        case None => items[itemId := gated]
        case Some(name) =>
          match FindAttribute(key, "class")
          case None => items[itemId := gated.(name := name)]
          case Some(itemClass) => items[itemId := gated.(name := name, itemClass := itemClass)]
  }

  function NameItems(table: FeatureTable, requested: string, items: map<int, ItemData>, keys: seq<Element>): map<int, ItemData>
    decreases |keys|
  {
    if keys == [] then items
    else NameItem(table, requested, NameItems(table, requested, items, keys[..|keys| - 1]), keys[|keys| - 1])
  }

  /** The store after the item-name file: the file has no gate of its own. */
  function ItemStringsFileOf(table: FeatureTable, requested: string, store: Store, root: Element): Store
  {
    store.(items := NameItems(table, requested, store.items, root.children))
  }

  /** The body of the name loop for one key. */
  method NameItemKey(table: FeatureTable, requested: string, items: map<int, ItemData>, keyElement: Element)
    returns (r: map<int, ItemData>)
    ensures r == NameItem(table, requested, items, keyElement)
  {
    r := items;
    var itemId := ReadInt(keyElement, "id", 0);
    if itemId == 0 {
      return;
    }
    if itemId !in items {
      return;
    }
    var item := items[itemId];
    var v := IsNodeEnabled(table, requested, keyElement, item.feature, item.locale);
    if !v.enabled {
      return;
    }
    item := item.(feature := v.feature, locale := v.locale);
    var nameAttribute := FindAttribute(keyElement, "name");
    if nameAttribute.None? {
      r := items[itemId := item];
      return;
    }
    item := item.(name := nameAttribute.value);
    var classAttribute := FindAttribute(keyElement, "class");
    if classAttribute.None? {
      r := items[itemId := item];
      return;
    }
    item := item.(itemClass := classAttribute.value);
    r := items[itemId := item];
  }

  /** `ParseItemStrings`, with the root element, the feature table and the requested locale as parameters. */
  method ParseItemStrings(table: FeatureTable, requested: string, store: Store, root: Element) returns (result: Store)
    ensures result == ItemStringsFileOf(table, requested, store, root)
  {
    var items := NameItemList(table, requested, store.items, root.children);
    result := store.(items := items);
  }

  /** The key loop of `ParseItemStrings`. */
  method NameItemList(table: FeatureTable, requested: string, items: map<int, ItemData>, keys: seq<Element>)
    returns (r: map<int, ItemData>)
    ensures r == NameItems(table, requested, items, keys)
  {
    r := items;
    var i := 0;
    while i < |keys|
      invariant 0 <= i <= |keys|
      invariant r == NameItems(table, requested, items, keys[..i])
    {
      NameItemsExtend(table, requested, items, keys, i);
      r := NameItemKey(table, requested, r, keys[i]);
      i := i + 1;
    }
    assert keys[..i] == keys;
  }

  /** The name loop, one key more. */
  lemma NameItemsExtend(table: FeatureTable, requested: string, items: map<int, ItemData>, keys: seq<Element>, i: int)
    requires 0 <= i < |keys|
    ensures NameItems(table, requested, items, keys[..i + 1]) == NameItem(table, requested, NameItems(table, requested, items, keys[..i]), keys[i])
  {
    assert keys[..i + 1][..i] == keys[..i];
  }

  /**
   * The name loop creates no item and changes only names, classes and gate slots; the effects
   * stay as they were, and a record with an id of 0 is never touched.
   */
  lemma {:induction false} NameItemsOnlyNames(table: FeatureTable, requested: string, items: map<int, ItemData>, keys: seq<Element>)
    ensures var r := NameItems(table, requested, items, keys);
      && r.Keys == items.Keys
      && (0 in items ==> r[0] == items[0])
      && forall id :: id in items ==> r[id].additionalEffects == items[id].additionalEffects
    decreases |keys|
  {
    if keys != [] {
      NameItemsOnlyNames(table, requested, items, keys[..|keys| - 1]);
      NameItemOnlyNames(table, requested, NameItems(table, requested, items, keys[..|keys| - 1]), keys[|keys| - 1]);
    }
  }

  /** One key of the name loop, for `NameItemsOnlyNames`. */
  lemma NameItemOnlyNames(table: FeatureTable, requested: string, items: map<int, ItemData>, key: Element)
    ensures var r := NameItem(table, requested, items, key);
      && r.Keys == items.Keys
      && (0 in items ==> r[0] == items[0])
      && forall id :: id in items ==> r[id].additionalEffects == items[id].additionalEffects
  {
  }

  /** A key whose name attribute is missing never sets a class, even when it has one. */
  lemma ClassNeedsName(table: FeatureTable, requested: string, items: map<int, ItemData>, key: Element)
    requires FindAttribute(key, "name").None?
    ensures var r := NameItem(table, requested, items, key);
      && r.Keys == items.Keys
      && forall id :: id in items ==> r[id].name == items[id].name && r[id].itemClass == items[id].itemClass
  {
  }
}
