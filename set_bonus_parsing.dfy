/**
 * XmlParsing.cpp, `ParseSetBonusOptions`, `ParseSetBonuses` and `ParseSetBonusStrings`. Options
 * are read without any gate and accumulate parts; a set bonus needs a non-zero id and an existing
 * option, is created before the gate on its own slots, and on acceptance points at its option and
 * appends the item ids; a set-bonus name key names an existing set the gate accepts.
 */
module SetBonusParsing {
  import opened XmlTree
  import opened ParserUtils
  import opened FeatureGate
  import opened XmlData
  import opened EffectLists
  import Wrappers

  /** The effect lists of a part: the level list covers every non-zero effect id. */
  predicate PartWellFormed(part: Element)
  {
    LevelsCover(ListAttribute(part, "additionalEffectID"), ListAttribute(part, "additionalEffectLevel"))
  }

  /** The parts of an option the loop reads (those under a non-zero option id) are well formed. */
  predicate OptionWellFormed(option: Element)
  {
    ReadInt(option, "id", 0) != 0 ==>
      forall j :: 0 <= j < |option.children| ==> PartWellFormed(option.children[j])
  }

  /** No option the loop reads indexes past the end of a level list. */
  predicate OptionDocumentWellFormed(root: Element)
  {
    forall k :: 0 <= k < |root.children| ==> OptionWellFormed(root.children[k])
  }

  /** The part one child of an option describes. */
  function PartOf(part: Element): SetBonusOptionPartData
    requires PartWellFormed(part)
  {
    SetBonusOptionPartData(
      ReadInt(part, "count", 0),
      ListedEffects(ListAttribute(part, "additionalEffectID"), ListAttribute(part, "additionalEffectLevel")))
  }

  /** One part per child of an option, whatever its name, in document order. */
  function PartsOf(parts: seq<Element>): (r: seq<SetBonusOptionPartData>)
    requires forall j :: 0 <= j < |parts| ==> PartWellFormed(parts[j])
    ensures |r| == |parts|
    decreases |parts|
  {
    if parts == [] then []
    else PartsOf(parts[..|parts| - 1]) + [PartOf(parts[|parts| - 1])]
  }

  function OptionOrEmpty(options: map<int, SetBonusOptionData>, id: int): SetBonusOptionData
  {
    if id in options then options[id] else SetBonusOptionData([])
  }

  /** One round of the option loop: a non-zero id appends its parts to the (possibly new) option. */
  function ApplyOption(options: map<int, SetBonusOptionData>, option: Element): map<int, SetBonusOptionData>
    requires OptionWellFormed(option)
  {
    var id := ReadInt(option, "id", 0);
    if id == 0 then options
    else
      var data := OptionOrEmpty(options, id);
      options[id := data.(parts := data.parts + PartsOf(option.children))]
  }

  function ApplyOptions(options: map<int, SetBonusOptionData>, optionElements: seq<Element>): map<int, SetBonusOptionData>
    requires forall k :: 0 <= k < |optionElements| ==> OptionWellFormed(optionElements[k])
    decreases |optionElements|
  {
    if optionElements == [] then options
    else ApplyOption(ApplyOptions(options, optionElements[..|optionElements| - 1]), optionElements[|optionElements| - 1])
  }

  /** The store after the option file: the file has no gate of its own. */
  function SetBonusOptionsFileOf(store: Store, root: Element): Store
    requires OptionDocumentWellFormed(root)
  {
    store.(setBonusOptions := ApplyOptions(store.setBonusOptions, root.children))
  }

  /** The body of the part loop: a new part with its count, then its listed effects. */
  method ParsePart(part: Element) returns (r: SetBonusOptionPartData)
    requires PartWellFormed(part)
    ensures r == PartOf(part)
  {
    r := SetBonusOptionPartData(0, []);
    r := r.(count := ReadInt(part, "count", 0));
    var effects := AppendListedEffects(part, "additionalEffectID", "additionalEffectLevel", r.additionalEffects);
    r := r.(additionalEffects := effects);
  }

  /** The body of the option loop for one option element. */
  method ParseOption(options: map<int, SetBonusOptionData>, option: Element) returns (r: map<int, SetBonusOptionData>)
    requires OptionWellFormed(option)
    ensures r == ApplyOption(options, option)
  {
    r := options;
    var optionId := ReadInt(option, "id", 0);
    if optionId == 0 {
      return;
    }
    var optionData := OptionOrEmpty(options, optionId);
    var parts := ParsePartList(optionData.parts, option.children);
    r := options[optionId := optionData.(parts := parts)];
  }

  /** The part loop, appending to the option's parts. */
  method ParsePartList(parts: seq<SetBonusOptionPartData>, partElements: seq<Element>) returns (r: seq<SetBonusOptionPartData>)
    requires forall j :: 0 <= j < |partElements| ==> PartWellFormed(partElements[j])
    ensures r == parts + PartsOf(partElements)
  {
    r := parts;
    var i := 0;
    while i < |partElements|
      invariant 0 <= i <= |partElements|
      invariant r == parts + PartsOf(partElements[..i])
    {
      var partData := ParsePart(partElements[i]);
      PartsOfExtend(parts, partElements, i);
      r := r + [partData];
      i := i + 1;
    }
    assert partElements[..i] == partElements;
  }

  /** The part loop over one part more. */
  lemma PartsOfExtend(parts: seq<SetBonusOptionPartData>, partElements: seq<Element>, i: int)
    requires forall j :: 0 <= j < |partElements| ==> PartWellFormed(partElements[j])
    requires 0 <= i < |partElements|
    ensures parts + PartsOf(partElements[..i + 1]) == parts + PartsOf(partElements[..i]) + [PartOf(partElements[i])]
  {
    assert partElements[..i + 1][..i] == partElements[..i];
    Wrappers.AppendAssociative(parts, PartsOf(partElements[..i]), [PartOf(partElements[i])]);
  }

  /** `ParseSetBonusOptions`, with the root element as a parameter. */
  method ParseSetBonusOptions(store: Store, root: Element) returns (result: Store)
    requires OptionDocumentWellFormed(root)
    ensures result == SetBonusOptionsFileOf(store, root)
  {
    var options := ParseOptionList(store.setBonusOptions, root.children);
    result := store.(setBonusOptions := options);
  }

  /** The option loop of `ParseSetBonusOptions`. */
  method ParseOptionList(options: map<int, SetBonusOptionData>, optionElements: seq<Element>) returns (r: map<int, SetBonusOptionData>)
    requires forall k :: 0 <= k < |optionElements| ==> OptionWellFormed(optionElements[k])
    ensures r == ApplyOptions(options, optionElements)
  {
    r := options;
    var i := 0;
    while i < |optionElements|
      invariant 0 <= i <= |optionElements|
      invariant r == ApplyOptions(options, optionElements[..i])
    {
      ApplyOptionsExtend(options, optionElements, i);
      r := ParseOption(r, optionElements[i]);
      i := i + 1;
    }
    assert optionElements[..i] == optionElements;
  }

  /** The option loop, one option element more. */
  lemma ApplyOptionsExtend(options: map<int, SetBonusOptionData>, optionElements: seq<Element>, i: int)
    requires forall k :: 0 <= k < |optionElements| ==> OptionWellFormed(optionElements[k])
    requires 0 <= i < |optionElements|
    ensures ApplyOptions(options, optionElements[..i + 1]) == ApplyOption(ApplyOptions(options, optionElements[..i]), optionElements[i])
  {
    assert optionElements[..i + 1][..i] == optionElements[..i];
  }

  /** The ids of the option elements the loop reads, that is the non-zero ones. */
  function OptionIds(optionElements: seq<Element>): set<int>
    decreases |optionElements|
  {
    if optionElements == [] then {}
    else
      var id := ReadInt(optionElements[|optionElements| - 1], "id", 0);
      OptionIds(optionElements[..|optionElements| - 1]) + (if id == 0 then {} else {id})
  }

  /**
   * The option loop adds exactly the non-zero option ids as keys, never key 0, and only ever
   * appends parts: every option keeps its earlier parts as a prefix.
   */
  lemma {:induction false} ApplyOptionsKeys(options: map<int, SetBonusOptionData>, optionElements: seq<Element>)
    requires forall k :: 0 <= k < |optionElements| ==> OptionWellFormed(optionElements[k])
    ensures var r := ApplyOptions(options, optionElements);
      && r.Keys == options.Keys + OptionIds(optionElements)
      && 0 !in OptionIds(optionElements)
      && forall id :: id in options ==> options[id].parts <= r[id].parts
    decreases |optionElements|
  {
    if optionElements != [] {
      var front := optionElements[..|optionElements| - 1];
      ApplyOptionsKeys(options, front);
      ApplyOptionKeys(ApplyOptions(options, front), optionElements[|optionElements| - 1]);
    }
  }

  /** One round of the option loop, for `ApplyOptionsKeys`. */
  lemma ApplyOptionKeys(options: map<int, SetBonusOptionData>, option: Element)
    requires OptionWellFormed(option)
    ensures var r := ApplyOption(options, option); var id := ReadInt(option, "id", 0);
      && r.Keys == options.Keys + (if id == 0 then {} else {id})
      && forall k :: k in options ==> options[k].parts <= r[k].parts
  {
  }

  /** `PartsOf` of a list is `PartsOf` of its front and then the last part. */
  lemma PartsOfSnoc(parts: seq<Element>)
    requires parts != [] && forall j :: 0 <= j < |parts| ==> PartWellFormed(parts[j])
    ensures PartsOf(parts) == PartsOf(parts[..|parts| - 1]) + [PartOf(parts[|parts| - 1])]
  {
  }

  /** One part per child, in document order, each with the count and the effects its element lists. */
  lemma {:induction false} PartsOfEntries(parts: seq<Element>)
    requires forall j :: 0 <= j < |parts| ==> PartWellFormed(parts[j])
    ensures forall j :: 0 <= j < |parts| ==> PartsOf(parts)[j] == PartOf(parts[j])
    decreases |parts|
  {
    if parts != [] {
      var front := parts[..|parts| - 1];
      assert forall j :: 0 <= j < |front| ==> front[j] == parts[j];
      PartsOfEntries(front);
      PartsOfSnoc(parts);
      var last := PartOf(parts[|parts| - 1]);
      assert PartsOf(parts) == PartsOf(front) + [last];
      forall j | 0 <= j < |parts|
        ensures PartsOf(parts)[j] == PartOf(parts[j])
      {
        if j < |front| {
          assert PartsOf(parts)[j] == PartsOf(front)[j];
        }
      }
    }
  }

  function SetOrEmpty(sets: map<int, SetBonusData>, id: int): SetBonusData
  {
    if id in sets then sets[id] else EmptySetBonus
  }

  /**
   * One round of the set loop: gated with fresh slots, skipped for a zero set id, a zero option id
   * or an unknown option; the record is inserted before the gate on its own slots.
   */
  function ApplySet(table: FeatureTable, requested: string, options: map<int, SetBonusOptionData>,
                    sets: map<int, SetBonusData>, setElement: Element): map<int, SetBonusData>
  {
    if !IsNodeEnabled(table, requested, setElement, FreshSettings, FreshSettings).enabled then sets
    else
      var setId := ReadInt(setElement, "id", 0);
      var optionId := ReadInt(setElement, "optionID", 0);
      if setId == 0 || optionId == 0 || optionId !in options then sets
      else GateSet(table, requested, sets, setId, optionId, setElement)
  }

  /** The record for `setId` is inserted, then gated on its own slots; on acceptance it points at its option. */
  function GateSet(table: FeatureTable, requested: string, sets: map<int, SetBonusData>,
                   setId: int, optionId: int, setElement: Element): map<int, SetBonusData>
  {
    var data := SetOrEmpty(sets, setId);
    var v := IsNodeEnabled(table, requested, setElement, data.feature, data.locale);
    if !v.enabled then sets[setId := data]
    else sets[setId := data.(feature := v.feature, locale := v.locale, optionId := optionId,
                             optionData := Wrappers.Some(optionId),
                             itemIds := data.itemIds + ListAttribute(setElement, "itemIDs"))]
  }

  function ApplySets(table: FeatureTable, requested: string, options: map<int, SetBonusOptionData>,
                     sets: map<int, SetBonusData>, setElements: seq<Element>): map<int, SetBonusData>
    decreases |setElements|
  {
    if setElements == [] then sets
    else ApplySet(table, requested, options, ApplySets(table, requested, options, sets, setElements[..|setElements| - 1]), setElements[|setElements| - 1])
  }

  /** The store after the set-bonus file: the file has no gate of its own. */
  function SetBonusesFileOf(table: FeatureTable, requested: string, store: Store, root: Element): Store
  {
    store.(setBonuses := ApplySets(table, requested, store.setBonusOptions, store.setBonuses, root.children))
  }

  /** The body of the set loop for one set element. */
  method ParseSet(table: FeatureTable, requested: string, options: map<int, SetBonusOptionData>,
                  sets: map<int, SetBonusData>, setElement: Element) returns (r: map<int, SetBonusData>)
    ensures r == ApplySet(table, requested, options, sets, setElement)
  {
    r := sets;
    var setVerdict := IsNodeEnabled(table, requested, setElement, FreshSettings, FreshSettings);
    if !setVerdict.enabled {
      return;
    }
    var setId := ReadInt(setElement, "id", 0);
    var optionId := ReadInt(setElement, "optionID", 0);
    if setId == 0 || optionId == 0 {
      return;
    }
    if optionId !in options {
      return;
    }
    r := ParseSetRecord(table, requested, sets, setId, optionId, setElement);
  }

  /** The part of the set loop's body after the checks on the ids. */
  method ParseSetRecord(table: FeatureTable, requested: string, sets: map<int, SetBonusData>,
                        setId: int, optionId: int, setElement: Element) returns (r: map<int, SetBonusData>)
    ensures r == GateSet(table, requested, sets, setId, optionId, setElement)
  {
    var setData := SetOrEmpty(sets, setId);
    var v := IsNodeEnabled(table, requested, setElement, setData.feature, setData.locale);
    if !v.enabled {
      r := sets[setId := setData];
      return;
    }
    setData := setData.(feature := v.feature, locale := v.locale, optionId := optionId, optionData := Wrappers.Some(optionId));
    var itemIds := ReadIntList(setElement, "itemIDs", setData.itemIds);
    setData := setData.(itemIds := itemIds);
    r := sets[setId := setData];
  }

  /** `ParseSetBonuses`, with the root element, the feature table and the requested locale as parameters. */
  method ParseSetBonuses(table: FeatureTable, requested: string, store: Store, root: Element) returns (result: Store)
    ensures result == SetBonusesFileOf(table, requested, store, root)
  {
    var sets := ParseSetList(table, requested, store.setBonusOptions, store.setBonuses, root.children);
    result := store.(setBonuses := sets);
  }

  /** The set loop of `ParseSetBonuses`. */
  method ParseSetList(table: FeatureTable, requested: string, options: map<int, SetBonusOptionData>,
                      sets: map<int, SetBonusData>, setElements: seq<Element>) returns (r: map<int, SetBonusData>)
    ensures r == ApplySets(table, requested, options, sets, setElements)
  {
    r := sets;
    var i := 0;
    while i < |setElements|
      invariant 0 <= i <= |setElements|
      invariant r == ApplySets(table, requested, options, sets, setElements[..i])
    {
      ApplySetsExtend(table, requested, options, sets, setElements, i);
      r := ParseSet(table, requested, options, r, setElements[i]);
      i := i + 1;
    }
    assert setElements[..i] == setElements;
  }

  /** The set loop, one set element more. */
  lemma ApplySetsExtend(table: FeatureTable, requested: string, options: map<int, SetBonusOptionData>,
                        sets: map<int, SetBonusData>, setElements: seq<Element>, i: int)
    requires 0 <= i < |setElements|
    ensures ApplySets(table, requested, options, sets, setElements[..i + 1])
         == ApplySet(table, requested, options, ApplySets(table, requested, options, sets, setElements[..i]), setElements[i])
  {
    assert setElements[..i + 1][..i] == setElements[..i];
  }

  /** Every set that points at an option points at one that exists, and at the one its id names. */
  predicate OptionsResolve(options: map<int, SetBonusOptionData>, sets: map<int, SetBonusData>)
  {
    forall id :: id in sets && sets[id].optionData.Some? ==>
      sets[id].optionData.value == sets[id].optionId && sets[id].optionId in options
  }

  /**
   * The set loop never creates set 0, removes no set, only appends item ids, and keeps every
   * option pointer resolving to an existing option.
   */
  lemma {:induction false} ApplySetsKeys(table: FeatureTable, requested: string, options: map<int, SetBonusOptionData>,
                                         sets: map<int, SetBonusData>, setElements: seq<Element>)
    requires OptionsResolve(options, sets)
    ensures var r := ApplySets(table, requested, options, sets, setElements);
      && sets.Keys <= r.Keys
      && (0 in r <==> 0 in sets)
      && OptionsResolve(options, r)
      && forall id :: id in sets ==> sets[id].itemIds <= r[id].itemIds
    decreases |setElements|
  {
    if setElements != [] {
      var front := setElements[..|setElements| - 1];
      ApplySetsKeys(table, requested, options, sets, front);
      ApplySetKeys(table, requested, options, ApplySets(table, requested, options, sets, front), setElements[|setElements| - 1]);
    }
  }

  /** One round of the set loop, for `ApplySetsKeys`. */
  lemma ApplySetKeys(table: FeatureTable, requested: string, options: map<int, SetBonusOptionData>,
                     sets: map<int, SetBonusData>, setElement: Element)
    requires OptionsResolve(options, sets)
    ensures var r := ApplySet(table, requested, options, sets, setElement);
      && sets.Keys <= r.Keys
      && (0 in r <==> 0 in sets)
      && OptionsResolve(options, r)
      && forall id :: id in sets ==> sets[id].itemIds <= r[id].itemIds
  {
    var setId := ReadInt(setElement, "id", 0);
    var optionId := ReadInt(setElement, "optionID", 0);
    if IsNodeEnabled(table, requested, setElement, FreshSettings, FreshSettings).enabled
       && setId != 0 && optionId != 0 && optionId in options {
      GateSetKeys(table, requested, options, sets, setId, optionId, setElement);
    }
  }

  /** The record step of the set loop, for `ApplySetKeys`. */
  lemma GateSetKeys(table: FeatureTable, requested: string, options: map<int, SetBonusOptionData>,
                    sets: map<int, SetBonusData>, setId: int, optionId: int, setElement: Element)
    requires OptionsResolve(options, sets) && setId != 0 && optionId in options
    ensures var r := GateSet(table, requested, sets, setId, optionId, setElement);
      && sets.Keys <= r.Keys
      && (0 in r <==> 0 in sets)
      && OptionsResolve(options, r)
      && forall id :: id in sets ==> sets[id].itemIds <= r[id].itemIds
  {
  }

  /** Every set record points at an option. */
  predicate SetsLinked(sets: map<int, SetBonusData>)
  {
    forall id :: id in sets ==> sets[id].optionData.Some?
  }

  /**
   * The set loop never leaves a set without its option: a record it inserts is gated on fresh
   * slots, the same test that already accepted the element (XmlParsing.cpp:679 and :695), so it
   * is always accepted and pointed at its option.
   */
  lemma {:induction false} ApplySetsLinked(table: FeatureTable, requested: string, options: map<int, SetBonusOptionData>,
                                           sets: map<int, SetBonusData>, setElements: seq<Element>)
    requires SetsLinked(sets)
    ensures SetsLinked(ApplySets(table, requested, options, sets, setElements))
    decreases |setElements|
  {
    if setElements != [] {
      ApplySetsLinked(table, requested, options, sets, setElements[..|setElements| - 1]);
    }
  }

  /**
   * After the set-bonus file, starting from a table whose sets all resolve, every set points at an
   * option in the option table, which is what `PrintRoot(const SetBonusData&)` dereferences.
   */
  lemma SetBonusesFileResolves(table: FeatureTable, requested: string, store: Store, root: Element)
    requires SetsLinked(store.setBonuses) && OptionsResolve(store.setBonusOptions, store.setBonuses)
    ensures var r := SetBonusesFileOf(table, requested, store, root);
      forall id :: id in r.setBonuses ==>
        r.setBonuses[id].optionData.Some? && r.setBonuses[id].optionData.value in r.setBonusOptions
  {
    ApplySetsLinked(table, requested, store.setBonusOptions, store.setBonuses, root.children);
    ApplySetsKeys(table, requested, store.setBonusOptions, store.setBonuses, root.children);
  }

  /** One key of the set-bonus name file: an existing set the gate accepts on its own slots gets its name. */
  function NameSet(table: FeatureTable, requested: string, sets: map<int, SetBonusData>, key: Element): map<int, SetBonusData>
  {
    var setId := ReadInt(key, "id", 0);
    if setId !in sets then sets
    else
      var data := sets[setId];
      var v := IsNodeEnabled(table, requested, key, data.feature, data.locale);
      if !v.enabled then sets
      else
        var gated := data.(feature := v.feature, locale := v.locale);
        match FindAttribute(key, "name")
        case None => sets[setId := gated]
        case Some(name) => sets[setId := gated.(name := name)]
  }

  function NameSets(table: FeatureTable, requested: string, sets: map<int, SetBonusData>, keys: seq<Element>): map<int, SetBonusData>
    decreases |keys|
  {
    if keys == [] then sets
    else NameSet(table, requested, NameSets(table, requested, sets, keys[..|keys| - 1]), keys[|keys| - 1])
  }

  /** The store after the set-bonus name file: the file has no gate of its own. */
  function SetBonusStringsFileOf(table: FeatureTable, requested: string, store: Store, root: Element): Store
  {
    store.(setBonuses := NameSets(table, requested, store.setBonuses, root.children))
  }

  /** `ParseSetBonusStrings`, with the root element, the feature table and the requested locale as parameters. */
  method ParseSetBonusStrings(table: FeatureTable, requested: string, store: Store, root: Element) returns (result: Store)
    ensures result == SetBonusStringsFileOf(table, requested, store, root)
  {
    var sets := NameSetList(table, requested, store.setBonuses, root.children);
    result := store.(setBonuses := sets);
  }

  /** The key loop of `ParseSetBonusStrings`. */
  method NameSetList(table: FeatureTable, requested: string, sets: map<int, SetBonusData>, keys: seq<Element>)
    returns (r: map<int, SetBonusData>)
    ensures r == NameSets(table, requested, sets, keys)
  {
    r := sets;
    var i := 0;
    while i < |keys|
      invariant 0 <= i <= |keys|
      invariant r == NameSets(table, requested, sets, keys[..i])
    {
      NameSetsExtend(table, requested, sets, keys, i);
      r := NameSetKey(table, requested, r, keys[i]);
      i := i + 1;
    }
    assert keys[..i] == keys;
  }

  /** The name loop, one key more. */
  lemma NameSetsExtend(table: FeatureTable, requested: string, sets: map<int, SetBonusData>, keys: seq<Element>, i: int)
    requires 0 <= i < |keys|
    ensures NameSets(table, requested, sets, keys[..i + 1]) == NameSet(table, requested, NameSets(table, requested, sets, keys[..i]), keys[i])
  {
    assert keys[..i + 1][..i] == keys[..i];
  }

  /** The body of the name loop for one key. */
  method NameSetKey(table: FeatureTable, requested: string, sets: map<int, SetBonusData>, keyElement: Element)
    returns (r: map<int, SetBonusData>)
    ensures r == NameSet(table, requested, sets, keyElement)
  {
    r := sets;
    var setId := ReadInt(keyElement, "id", 0);
    if setId !in sets {
      return;
    }
    var setData := sets[setId];
    var v := IsNodeEnabled(table, requested, keyElement, setData.feature, setData.locale);
    if !v.enabled {
      return;
    }
    setData := setData.(feature := v.feature, locale := v.locale);
    var nameAttribute := FindAttribute(keyElement, "name");
    if nameAttribute.None? {
      r := sets[setId := setData];
      return;
    }
    r := sets[setId := setData.(name := nameAttribute.value)];
  }

  /**
   * The name loop creates no set and changes only names and gate slots; the option pointer and
   * the item ids stay as they were.
   */
  lemma {:induction false} NameSetsOnlyNames(table: FeatureTable, requested: string, sets: map<int, SetBonusData>, keys: seq<Element>)
    ensures var r := NameSets(table, requested, sets, keys);
      && r.Keys == sets.Keys
      && forall id :: id in sets ==>
           r[id] == sets[id].(name := r[id].name, feature := r[id].feature, locale := r[id].locale)
    decreases |keys|
  {
    if keys != [] {
      NameSetsOnlyNames(table, requested, sets, keys[..|keys| - 1]);
      NameSetOnlyNames(table, requested, NameSets(table, requested, sets, keys[..|keys| - 1]), keys[|keys| - 1]);
    }
  }

  /** One key of the name loop, for `NameSetsOnlyNames`. */
  lemma NameSetOnlyNames(table: FeatureTable, requested: string, sets: map<int, SetBonusData>, key: Element)
    ensures var r := NameSet(table, requested, sets, key);
      && r.Keys == sets.Keys
      && forall id :: id in sets ==>
           r[id] == sets[id].(name := r[id].name, feature := r[id].feature, locale := r[id].locale)
  {
  }
}
