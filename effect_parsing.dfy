/**
 * XmlParsing.cpp, `ParseAdditionalEffect`: one additional-effect file fills the record keyed by
 * the file's id. Every level element that has a `BasicProperty` child selects (creating it if
 * needed) the level record named by its `level` attribute; a level element the gate accepts then
 * contributes its triggers, its begin condition and its modification references.
 */
module EffectParsing {
  import opened XmlTree
  import opened ParserUtils
  import opened FeatureGate
  import opened XmlData
  import opened Conditions
  import Wrappers

  /** One modification per listed code, in list order, each at level 0 with offset 0. */
  function CodeModifications(kind: ReferenceType, codes: seq<int>, modification: ModifyReferenceType): (mods: seq<ModifyReference>)
    ensures |mods| == |codes|
    decreases |codes|
  {
    if codes == [] then []
    else CodeModifications(kind, codes[..|codes| - 1], modification) + [ModifyReference(kind, codes[|codes| - 1], 0, modification, 0)]
  }

  /**
   * The overlap-count property reads `offsetCounts[i]` for every code whenever that list is not
   * empty; the list must then be at least as long as the code list.
   */
  predicate OffsetsCover(codes: seq<int>, offsets: seq<int>)
  {
    offsets == [] || |codes| <= |offsets|
  }

  /** One ModifyStacks reference per effect code, offset by the matching count or by 0 when there are none. */
  function StackModifications(codes: seq<int>, offsets: seq<int>): (mods: seq<ModifyReference>)
    requires OffsetsCover(codes, offsets)
    ensures |mods| == |codes|
    decreases |codes|
  {
    if codes == [] then []
    else
      var i := |codes| - 1;
      StackModifications(codes[..i], offsets) + [ModifyReference(Effect, codes[i], 0, ModifyStacks, if |offsets| > 0 then offsets[i] else 0)]
  }

  /** A property element the loop can read without running past a list. */
  predicate WellFormedProperty(p: Element)
  {
    p.name == "ModifyOverlapCountProperty" ==> OffsetsCover(ListAttribute(p, "effectCodes"), ListAttribute(p, "offsetCounts"))
  }

  predicate PropertiesWellFormed(ps: seq<Element>)
  {
    forall k :: 0 <= k < |ps| ==> WellFormedProperty(ps[k])
  }

  /** Every level element of an effect document is well formed. */
  predicate EffectDocumentWellFormed(root: Element)
  {
    forall k :: 0 <= k < |root.children| ==> PropertiesWellFormed(root.children[k].children)
  }

  /** The modification references one property element contributes. */
  function PropertyModifications(p: Element): seq<ModifyReference>
    requires WellFormedProperty(p)
  {
    if p.name == "ModifyOverlapCountProperty" then
      StackModifications(ListAttribute(p, "effectCodes"), ListAttribute(p, "offsetCounts"))
    else if p.name == "ModifyEffectDurationProperty" then
      CodeModifications(Effect, ListAttribute(p, "effectCodes"), ModifyDuration)
    else if p.name == "ResetSkillCoolDownTimeProperty" then
      CodeModifications(Skill, ListAttribute(p, "skillCodes"), ResetCooldown)
    else if p.name == "ImmuneEffectProperty" then
      CodeModifications(Effect, ListAttribute(p, "immuneEffectCodes"), Immune)
      + CodeModifications(EffectCategory, ListAttribute(p, "immuneBuffCategories"), Immune)
    else if p.name == "CancelEffectProperty" then
      CodeModifications(Effect, ListAttribute(p, "cancelEffectCodes"), Cancel)
      + CodeModifications(EffectCategory, ListAttribute(p, "cancelBuffCategories"), Cancel)
    else []
  }

  /** One round of the property loop on the selected level record. */
  function ApplyProperty(level: AdditionalEffectLevelData, p: Element): AdditionalEffectLevelData
    requires WellFormedProperty(p)
  {
    if p.name == "splashSkill" || p.name == "conditionSkill" then
      level.(triggers := level.triggers + [ConditionSkillOf(p, EmptyConditionSkill)])
    else if p.name == "beginCondition" then
      level.(condition := BeginCondition(level.condition.references + ConditionReferences(p.children)))
    else
      level.(modifications := level.modifications + PropertyModifications(p))
  }

  /** The level record after the property loop has seen `ps`. */
  function ApplyProperties(level: AdditionalEffectLevelData, ps: seq<Element>): AdditionalEffectLevelData
    requires PropertiesWellFormed(ps)
    decreases |ps|
  {
    if ps == [] then level
    else ApplyProperty(ApplyProperties(level, ps[..|ps| - 1]), ps[|ps| - 1])
  }

  /** The level record a level number selects: the stored one, or a default one that `operator[]` inserts. */
  function LevelOrEmpty(effect: AdditionalEffectData, level: int): AdditionalEffectLevelData
  {
    if level in effect.levels then effect.levels[level] else EmptyEffectLevel
  }

  /**
   * One round of the level loop. A level element without `BasicProperty` is skipped; otherwise
   * its level record is inserted before the gate runs on the level's own slots, and the
   * properties are read only when the gate accepts.
   */
  function ApplyLevel(table: FeatureTable, requested: string, effect: AdditionalEffectData, levelElement: Element): AdditionalEffectData
    requires PropertiesWellFormed(levelElement.children)
  {
    match FirstChildNamed(levelElement.children, "BasicProperty")
    case None => effect
    case Some(basic) =>
      var level := ReadInt(basic, "level", 0);
      var data := LevelOrEmpty(effect, level);
      var v := IsNodeEnabled(table, requested, levelElement, data.feature, data.locale);
      if v.enabled then
        AdditionalEffectData(effect.levels[level := ApplyProperties(data.(feature := v.feature, locale := v.locale), levelElement.children)])
      else
        AdditionalEffectData(effect.levels[level := data])
  }

  /** The effect record after the level loop has seen `levels`. */
  function ApplyLevels(table: FeatureTable, requested: string, effect: AdditionalEffectData, levels: seq<Element>): AdditionalEffectData
    requires forall k :: 0 <= k < |levels| ==> PropertiesWellFormed(levels[k].children)
    decreases |levels|
  {
    if levels == [] then effect
    else ApplyLevel(table, requested, ApplyLevels(table, requested, effect, levels[..|levels| - 1]), levels[|levels| - 1])
  }

  /** The effect record a file id selects: the stored one, or an empty one that `operator[]` inserts. */
  function EffectOrEmpty(store: Store, effectId: int): AdditionalEffectData
  {
    if effectId in store.effects then store.effects[effectId] else AdditionalEffectData(map[])
  }

  /**
   * The store after one additional-effect file: the record for the file's id is inserted first,
   * and the level loop runs only when the gate accepts the root with fresh slots.
   */
  function EffectFileOf(table: FeatureTable, requested: string, store: Store, effectId: int, root: Element): Store
    requires EffectDocumentWellFormed(root)
  {
    var effect := EffectOrEmpty(store, effectId);
    if IsNodeEnabled(table, requested, root, FreshSettings, FreshSettings).enabled then
      store.(effects := store.effects[effectId := ApplyLevels(table, requested, effect, root.children)])
    else
      store.(effects := store.effects[effectId := effect])
  }

  /** The loop pushing one reference per code. */
  method AppendCodes(mods: seq<ModifyReference>, kind: ReferenceType, codes: seq<int>, modification: ModifyReferenceType)
    returns (r: seq<ModifyReference>)
    ensures r == mods + CodeModifications(kind, codes, modification)
  {
    r := mods;
    var i := 0;
    while i < |codes|
      invariant 0 <= i <= |codes|
      invariant r == mods + CodeModifications(kind, codes[..i], modification)
    {
      r := r + [ModifyReference(kind, codes[i], 0, modification, 0)];
      assert codes[..i + 1][..i] == codes[..i];
      i := i + 1;
    }
    assert codes[..i] == codes;
  }

  /** The overlap-count loop: offset `offsetCounts[i]`, or 0 when that list is empty. */
  method AppendStacks(mods: seq<ModifyReference>, codes: seq<int>, offsets: seq<int>) returns (r: seq<ModifyReference>)
    requires OffsetsCover(codes, offsets)
    ensures r == mods + StackModifications(codes, offsets)
  {
    r := mods;
    var i := 0;
    while i < |codes|
      invariant 0 <= i <= |codes|
      invariant r == mods + StackModifications(codes[..i], offsets)
    {
      r := r + [ModifyReference(Effect, codes[i], 0, ModifyStacks, if |offsets| > 0 then offsets[i] else 0)];
      assert codes[..i + 1][..i] == codes[..i];
      i := i + 1;
    }
    assert codes[..i] == codes;
  }

  /** The body of the property loop for one property element. */
  method ParseEffectProperty(level: AdditionalEffectLevelData, p: Element) returns (r: AdditionalEffectLevelData)
    requires WellFormedProperty(p)
    ensures r == ApplyProperty(level, p)
  {
    r := level;
    if p.name == "splashSkill" || p.name == "conditionSkill" {
      var trigger := ParseConditionSkill(p, EmptyConditionSkill);
      r := r.(triggers := r.triggers + [trigger]);
      return;
    }
    if p.name == "beginCondition" {
      var condition := ParseBeginCondition(p, r.condition);
      r := r.(condition := condition);
      return;
    }
    var mods := r.modifications;
    if p.name == "ModifyOverlapCountProperty" {
      var effectCodes := ReadFreshIntList(p, "effectCodes");
      var offsetCounts := ReadFreshIntList(p, "offsetCounts");
      mods := AppendStacks(mods, effectCodes, offsetCounts);
    } else if p.name == "ModifyEffectDurationProperty" {
      var effectCodes := ReadFreshIntList(p, "effectCodes");
      mods := AppendCodes(mods, Effect, effectCodes, ModifyDuration);
    } else if p.name == "ResetSkillCoolDownTimeProperty" {
      var skillCodes := ReadFreshIntList(p, "skillCodes");
      mods := AppendCodes(mods, Skill, skillCodes, ResetCooldown);
    } else if p.name == "ImmuneEffectProperty" {
      var immuneCodes := ReadFreshIntList(p, "immuneEffectCodes");
      mods := AppendCodes(mods, Effect, immuneCodes, Immune);
      immuneCodes := ReadFreshIntList(p, "immuneBuffCategories");
      mods := AppendCodes(mods, EffectCategory, immuneCodes, Immune);
      Wrappers.AppendAssociative(r.modifications, CodeModifications(Effect, ListAttribute(p, "immuneEffectCodes"), Immune),
        CodeModifications(EffectCategory, immuneCodes, Immune));
    } else if p.name == "CancelEffectProperty" {
      var cancelCodes := ReadFreshIntList(p, "cancelEffectCodes");
      mods := AppendCodes(mods, Effect, cancelCodes, Cancel);
      cancelCodes := ReadFreshIntList(p, "cancelBuffCategories");
      mods := AppendCodes(mods, EffectCategory, cancelCodes, Cancel);
      Wrappers.AppendAssociative(r.modifications, CodeModifications(Effect, ListAttribute(p, "cancelEffectCodes"), Cancel),
        CodeModifications(EffectCategory, cancelCodes, Cancel));
    } else {
      assert mods + [] == mods;
    }
    r := r.(modifications := mods);
  }

  /** The body of the level loop for one level element. */
  method ParseEffectLevel(table: FeatureTable, requested: string, effect: AdditionalEffectData, levelElement: Element)
    returns (r: AdditionalEffectData)
    requires PropertiesWellFormed(levelElement.children)
    ensures r == ApplyLevel(table, requested, effect, levelElement)
  {
    r := effect;
    var basic := FirstChildNamed(levelElement.children, "BasicProperty");
    if basic.None? {
      return;
    }
    var level := ReadInt(basic.value, "level", 0);
    var data := LevelOrEmpty(effect, level);
    var v := IsNodeEnabled(table, requested, levelElement, data.feature, data.locale);
    if !v.enabled {
      r := AdditionalEffectData(effect.levels[level := data]);
      return;
    }
    data := data.(feature := v.feature, locale := v.locale);
    data := ParseEffectProperties(data, levelElement.children);
    r := AdditionalEffectData(effect.levels[level := data]);
  }

  /** The property loop of an accepted level element. */
  method ParseEffectProperties(level: AdditionalEffectLevelData, properties: seq<Element>) returns (r: AdditionalEffectLevelData)
    requires PropertiesWellFormed(properties)
    ensures r == ApplyProperties(level, properties)
  {
    r := level;
    var j := 0;
    while j < |properties|
      invariant 0 <= j <= |properties|
      invariant r == ApplyProperties(level, properties[..j])
    {
      ApplyPropertiesExtend(level, properties, j);
      r := ParseEffectProperty(r, properties[j]);
      j := j + 1;
    }
    assert properties[..j] == properties;
  }

  /** The property loop, one property element more. */
  lemma ApplyPropertiesExtend(level: AdditionalEffectLevelData, properties: seq<Element>, j: int)
    requires PropertiesWellFormed(properties)
    requires 0 <= j < |properties|
    ensures ApplyProperties(level, properties[..j + 1]) == ApplyProperty(ApplyProperties(level, properties[..j]), properties[j])
  {
    assert properties[..j + 1][..j] == properties[..j];
  }

  /**
   * `ParseAdditionalEffect`, with the file's id, its root element, the feature table and the
   * requested locale as parameters and the store passed in and returned.
   */
  method ParseAdditionalEffect(table: FeatureTable, requested: string, store: Store, effectId: int, root: Element)
    returns (result: Store)
    requires EffectDocumentWellFormed(root)
    ensures result == EffectFileOf(table, requested, store, effectId, root)
  {
    var effect := EffectOrEmpty(store, effectId);
    result := store.(effects := store.effects[effectId := effect]);
    var fileVerdict := IsNodeEnabled(table, requested, root, FreshSettings, FreshSettings);
    if !fileVerdict.enabled {
      return;
    }
    effect := ParseEffectLevels(table, requested, effect, root.children);
    result := store.(effects := store.effects[effectId := effect]);
  }

  /** The loop of `ParseAdditionalEffect` over the level elements. */
  method ParseEffectLevels(table: FeatureTable, requested: string, effect: AdditionalEffectData, levels: seq<Element>)
    returns (r: AdditionalEffectData)
    requires forall k :: 0 <= k < |levels| ==> PropertiesWellFormed(levels[k].children)
    ensures r == ApplyLevels(table, requested, effect, levels)
  {
    r := effect;
    var i := 0;
    while i < |levels|
      invariant 0 <= i <= |levels|
      invariant r == ApplyLevels(table, requested, effect, levels[..i])
    {
      ApplyLevelsExtend(table, requested, effect, levels, i);
      r := ParseEffectLevel(table, requested, r, levels[i]);
      i := i + 1;
    }
    assert levels[..i] == levels;
  }

  /** The level loop, one level element more. */
  lemma ApplyLevelsExtend(table: FeatureTable, requested: string, effect: AdditionalEffectData, levels: seq<Element>, i: int)
    requires forall k :: 0 <= k < |levels| ==> PropertiesWellFormed(levels[k].children)
    requires 0 <= i < |levels|
    ensures ApplyLevels(table, requested, effect, levels[..i + 1])
         == ApplyLevel(table, requested, ApplyLevels(table, requested, effect, levels[..i]), levels[i])
  {
    assert levels[..i + 1][..i] == levels[..i];
  }

  /** One reference per listed code, in list order: the i-th carries the i-th code. */
  lemma {:induction false} CodeModificationsEntries(kind: ReferenceType, codes: seq<int>, modification: ModifyReferenceType)
    ensures forall i :: 0 <= i < |codes| ==>
      CodeModifications(kind, codes, modification)[i] == ModifyReference(kind, codes[i], 0, modification, 0)
    decreases |codes|
  {
    if codes != [] {
      CodeModificationsEntries(kind, codes[..|codes| - 1], modification);
    }
  }

  /** The i-th ModifyStacks reference carries the i-th code and the i-th offset, or offset 0 when no offsets are listed. */
  lemma {:induction false} StackModificationsEntries(codes: seq<int>, offsets: seq<int>)
    requires OffsetsCover(codes, offsets)
    ensures forall i :: 0 <= i < |codes| ==>
      StackModifications(codes, offsets)[i] == ModifyReference(Effect, codes[i], 0, ModifyStacks, if offsets == [] then 0 else offsets[i])
    decreases |codes|
  {
    if codes != [] {
      StackModificationsEntries(codes[..|codes| - 1], offsets);
    }
  }

  /** The cooldown-reset property yields one Skill-typed ResetCooldown reference per skill code. */
  lemma ResetCooldownTargetsSkills(p: Element)
    requires p.name == "ResetSkillCoolDownTimeProperty"
    ensures var codes := ListAttribute(p, "skillCodes"); var mods := PropertyModifications(p);
      |mods| == |codes| &&
      forall i :: 0 <= i < |mods| ==> mods[i] == ModifyReference(Skill, codes[i], 0, ResetCooldown, 0)
  {
    CodeModificationsEntries(Skill, ListAttribute(p, "skillCodes"), ResetCooldown);
  }

  /**
   * The immune property appends its Effect codes first, then its category codes: the first
   * |effects| references are the Effect-typed ones for those codes, the rest the
   * EffectCategory-typed ones for the categories.
   */
  lemma ImmuneEffectsFirst(p: Element)
    requires p.name == "ImmuneEffectProperty"
    ensures var effects := ListAttribute(p, "immuneEffectCodes");
      var categories := ListAttribute(p, "immuneBuffCategories");
      var mods := PropertyModifications(p);
      && |mods| == |effects| + |categories|
      && mods[..|effects|] == CodeModifications(Effect, effects, Immune)
      && mods[|effects|..] == CodeModifications(EffectCategory, categories, Immune)
  {
  }

  /** The cancel property appends its Effect codes first, then its category codes. */
  lemma CancelEffectsFirst(p: Element)
    requires p.name == "CancelEffectProperty"
    ensures var effects := ListAttribute(p, "cancelEffectCodes");
      var categories := ListAttribute(p, "cancelBuffCategories");
      var mods := PropertyModifications(p);
      && |mods| == |effects| + |categories|
      && mods[..|effects|] == CodeModifications(Effect, effects, Cancel)
      && mods[|effects|..] == CodeModifications(EffectCategory, categories, Cancel)
  {
  }

  /**
   * The property loop only appends: the triggers, begin-condition references and modifications
   * already on the level stay as prefixes, and its name, description and slots are untouched.
   */
  lemma {:induction false} ApplyPropertiesKeeps(level: AdditionalEffectLevelData, ps: seq<Element>)
    requires PropertiesWellFormed(ps)
    ensures var r := ApplyProperties(level, ps);
      && r.name == level.name && r.description == level.description
      && r.feature == level.feature && r.locale == level.locale
      && level.triggers <= r.triggers
      && level.condition.references <= r.condition.references
      && level.modifications <= r.modifications
    decreases |ps|
  {
    if ps != [] {
      ApplyPropertiesKeeps(level, ps[..|ps| - 1]);
      ApplyPropertyKeeps(ApplyProperties(level, ps[..|ps| - 1]), ps[|ps| - 1]);
    }
  }

  lemma ApplyPropertyKeeps(level: AdditionalEffectLevelData, p: Element)
    requires WellFormedProperty(p)
    ensures var r := ApplyProperty(level, p);
      && r.name == level.name && r.description == level.description
      && r.feature == level.feature && r.locale == level.locale
      && level.triggers <= r.triggers
      && level.condition.references <= r.condition.references
      && level.modifications <= r.modifications
  {
  }

  /** The level numbers named by the `BasicProperty` children of a sequence of level elements. */
  function NamedLevels(levels: seq<Element>): set<int>
    decreases |levels|
  {
    if levels == [] then {}
    else
      var last := levels[|levels| - 1];
      NamedLevels(levels[..|levels| - 1]) +
        match FirstChildNamed(last.children, "BasicProperty")
        case None => {}
        case Some(basic) => {ReadInt(basic, "level", 0)}
  }

  /**
   * The level loop creates exactly the level records its elements name, even those the gate
   * rejects, and leaves every other level record as it was.
   */
  lemma {:induction false} ApplyLevelsKeys(table: FeatureTable, requested: string, effect: AdditionalEffectData, levels: seq<Element>)
    requires forall k :: 0 <= k < |levels| ==> PropertiesWellFormed(levels[k].children)
    ensures var r := ApplyLevels(table, requested, effect, levels);
      && r.levels.Keys == effect.levels.Keys + NamedLevels(levels)
      && forall n :: n in effect.levels && n !in NamedLevels(levels) ==> r.levels[n] == effect.levels[n]
    decreases |levels|
  {
    if levels != [] {
      ApplyLevelsKeys(table, requested, effect, levels[..|levels| - 1]);
      ApplyLevelKeys(table, requested, ApplyLevels(table, requested, effect, levels[..|levels| - 1]), levels[|levels| - 1]);
    }
  }

  lemma ApplyLevelKeys(table: FeatureTable, requested: string, effect: AdditionalEffectData, levelElement: Element)
    requires PropertiesWellFormed(levelElement.children)
    ensures var r := ApplyLevel(table, requested, effect, levelElement);
      && r.levels.Keys == effect.levels.Keys + NamedLevels([levelElement])
      && forall n :: n in effect.levels && n !in NamedLevels([levelElement]) ==> r.levels[n] == effect.levels[n]
  {
    assert [levelElement][..0] == [];
  }

  /**
   * A file inserts the record for its id whether or not the gate accepts its root, changes no
   * other record and no other table; a rejected root leaves that record as it was.
   */
  lemma EffectFileFrame(table: FeatureTable, requested: string, store: Store, effectId: int, root: Element)
    requires EffectDocumentWellFormed(root)
    ensures var r := EffectFileOf(table, requested, store, effectId, root);
      && r.effects.Keys == store.effects.Keys + {effectId}
      && (forall n :: n in store.effects && n != effectId ==> r.effects[n] == store.effects[n])
      && r.skills == store.skills && r.jobs == store.jobs && r.setBonusOptions == store.setBonusOptions
      && r.setBonuses == store.setBonuses && r.items == store.items
      && (!IsNodeEnabled(table, requested, root, FreshSettings, FreshSettings).enabled ==>
            r.effects[effectId] == EffectOrEmpty(store, effectId))
  {
    var effect := EffectOrEmpty(store, effectId);
    var record := if IsNodeEnabled(table, requested, root, FreshSettings, FreshSettings).enabled
      then ApplyLevels(table, requested, effect, root.children) else effect;
    assert EffectFileOf(table, requested, store, effectId, root) == store.(effects := store.effects[effectId := record]);
  }
}
