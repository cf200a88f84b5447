/**
 * XmlParsing.cpp, `ParseSkill`: one skill file fills the record keyed by the file's id. A `basic`
 * child passes through the gate on the skill's own slots; every `level` child selects (creating
 * it if needed) the level record named by its `value` attribute and reads its begin condition,
 * change-skill references, combo, passive condition skills and motions.
 */
module SkillParsing {
  import opened XmlTree
  import opened ParserUtils
  import opened FeatureGate
  import opened XmlData
  import opened Conditions
  import Wrappers

  /** The number of elements with a given name. */
  function CountNamed(children: seq<Element>, name: string): (n: nat)
    ensures n <= |children|
    decreases |children|
  {
    if children == [] then 0
    else CountNamed(children[..|children| - 1], name) + (if children[|children| - 1].name == name then 1 else 0)
  }

  /**
   * A change-skill element the loops can read without running past a list: the level and stack
   * lists are at least as long as the effect-id list, and the skill-level list at least as long
   * as the skill-id list.
   */
  predicate ChangeListsCover(p: Element)
  {
    && |ListAttribute(p, "changeSkillCheckEffectID")| <= |ListAttribute(p, "changeSkillCheckEffectLevel")|
    && |ListAttribute(p, "changeSkillCheckEffectID")| <= |ListAttribute(p, "changeSkillCheckEffectOverlapCount")|
    && |ListAttribute(p, "changeSkillID")| <= |ListAttribute(p, "changeSkillLevel")|
  }

  predicate WellFormedSkillProperty(p: Element)
  {
    p.name == "changeSkill" ==> ChangeListsCover(p)
  }

  predicate SkillPropertiesWellFormed(ps: seq<Element>)
  {
    forall k :: 0 <= k < |ps| ==> WellFormedSkillProperty(ps[k])
  }

  /** A `level` child whose properties are well formed; other children are never read that deep. */
  predicate SkillChildWellFormed(child: Element)
  {
    child.name == "level" ==> SkillPropertiesWellFormed(child.children)
  }

  /** Every child of a skill document is well formed. */
  predicate SkillDocumentWellFormed(root: Element)
  {
    forall k :: 0 <= k < |root.children| ==> SkillChildWellFormed(root.children[k])
  }

  /** The checked effect: the last (id, level, stacks) entry, or the default reference when no id is listed. */
  function LastCheckedEffect(ids: seq<int>, levels: seq<int>, stacks: seq<int>): EffectReferenceData
    requires |ids| <= |levels| && |ids| <= |stacks|
  {
    if ids == [] then DefaultEffectReference
    else
      var i := |ids| - 1;
      EffectReferenceData(Effect, ids[i], levels[i], stacks[i], 0)
  }

  /** The target skill: the last (id, level) entry, or the default reference when no id is listed. */
  function LastChangedSkill(ids: seq<int>, levels: seq<int>): ReferenceData
    requires |ids| <= |levels|
  {
    if ids == [] then DefaultReference
    else
      var i := |ids| - 1;
      ReferenceData(Skill, ids[i], levels[i])
  }

  /** The change-skill reference a `changeSkill` property contributes. */
  function ChangeSkillOf(p: Element): ChangeSkillReference
    requires ChangeListsCover(p)
  {
    ChangeSkillReference(
      LastCheckedEffect(ListAttribute(p, "changeSkillCheckEffectID"), ListAttribute(p, "changeSkillCheckEffectLevel"),
                        ListAttribute(p, "changeSkillCheckEffectOverlapCount")),
      LastChangedSkill(ListAttribute(p, "changeSkillID"), ListAttribute(p, "changeSkillLevel")),
      ReferenceData(Skill, ReadInt(p, "originSkillID", 0), ReadInt(p, "originSkillLevel", 0)))
  }

  /** The combo a `combo` property sets: two flags and three Skill references at level 0. */
  function ComboOf(p: Element): (c: ComboReference)
    ensures c.originSkill.kind == Skill && c.inputSkill.kind == Skill && c.outputSkill.kind == Skill
    ensures c.originSkill.level == 0 && c.inputSkill.level == 0 && c.outputSkill.level == 0
  {
    ComboReference(
      ReadBool(p, "comboSkill", false), ReadBool(p, "chargingSkill", false),
      ReferenceData(Skill, ReadInt(p, "comboOriginSkill", 0), 0),
      ReferenceData(Skill, ReadInt(p, "inputSkill", 0), 0),
      ReferenceData(Skill, ReadInt(p, "outputSkill", 0), 0))
  }

  /** The triggers of an attack: one condition skill per `conditionSkill` child. */
  function AttackTriggers(children: seq<Element>): seq<ConditionSkill>
    decreases |children|
  {
    if children == [] then []
    else
      var last := children[|children| - 1];
      AttackTriggers(children[..|children| - 1]) + (if last.name == "conditionSkill" then [ConditionSkillOf(last, EmptyConditionSkill)] else [])
  }

  /** The attacks of a motion: one per `attack` child. */
  function MotionAttacks(children: seq<Element>): seq<SkillAttack>
    decreases |children|
  {
    if children == [] then []
    else
      var last := children[|children| - 1];
      MotionAttacks(children[..|children| - 1]) + (if last.name == "attack" then [SkillAttack(AttackTriggers(last.children))] else [])
  }

  /**
   * One round of the property loop on a level record. A `conditionSkill` property is not
   * followed by `continue` in the source; it then fails the `motion` test, so it adds one
   * passive and nothing else.
   */
  function ApplySkillProperty(level: SkillLevelData, p: Element): SkillLevelData
    requires WellFormedSkillProperty(p)
  {
    if p.name == "beginCondition" then
      level.(condition := BeginCondition(level.condition.references + ConditionReferences(p.children)))
    else if p.name == "changeSkill" then
      level.(changeSkillReferences := level.changeSkillReferences + [ChangeSkillOf(p)])
    else if p.name == "combo" then
      level.(combo := ComboOf(p))
    else if p.name == "conditionSkill" then
      level.(passives := level.passives + [ConditionSkillOf(p, EmptyConditionSkill)])
    else if p.name == "motion" then
      level.(motions := level.motions + [SkillMotion(MotionAttacks(p.children))])
    else level
  }

  /** The level record after the property loop has seen `ps`. */
  function ApplySkillProperties(level: SkillLevelData, ps: seq<Element>): SkillLevelData
    requires SkillPropertiesWellFormed(ps)
    decreases |ps|
  {
    if ps == [] then level
    else ApplySkillProperty(ApplySkillProperties(level, ps[..|ps| - 1]), ps[|ps| - 1])
  }

  /** The level record a level number selects: the stored one, or a default one that `operator[]` inserts. */
  function SkillLevelOrEmpty(skill: SkillData, level: int): SkillLevelData
  {
    if level in skill.levels then skill.levels[level] else EmptySkillLevel
  }

  /**
   * One round of the child loop: `basic` runs the gate on the skill's slots (only an accepted
   * node writes them), `level` reads a level record (no gate), anything else is skipped.
   */
  function ApplySkillChild(table: FeatureTable, requested: string, skill: SkillData, child: Element): SkillData
    requires SkillChildWellFormed(child)
  {
    if child.name == "basic" then
      var v := IsNodeEnabled(table, requested, child, skill.feature, skill.locale);
      skill.(feature := v.feature, locale := v.locale)
    else if child.name != "level" then skill
    else
      var level := ReadInt(child, "value", 0);
      skill.(levels := skill.levels[level := ApplySkillProperties(SkillLevelOrEmpty(skill, level), child.children)])
  }

  /** The skill record after the child loop has seen `children`. */
  function ApplySkillChildren(table: FeatureTable, requested: string, skill: SkillData, children: seq<Element>): SkillData
    requires forall k :: 0 <= k < |children| ==> SkillChildWellFormed(children[k])
    decreases |children|
  {
    if children == [] then skill
    else ApplySkillChild(table, requested, ApplySkillChildren(table, requested, skill, children[..|children| - 1]), children[|children| - 1])
  }

  /** The skill record a file id selects: the stored one, or an empty one that `operator[]` inserts. */
  function SkillOrEmpty(store: Store, skillId: int): SkillData
  {
    if skillId in store.skills then store.skills[skillId] else EmptySkill
  }

  /**
   * The store after one skill file: the record for the file's id is inserted first, and the
   * child loop runs only when the gate accepts the root with fresh slots.
   */
  function SkillFileOf(table: FeatureTable, requested: string, store: Store, skillId: int, root: Element): Store
    requires SkillDocumentWellFormed(root)
  {
    var skill := SkillOrEmpty(store, skillId);
    if IsNodeEnabled(table, requested, root, FreshSettings, FreshSettings).enabled then
      store.(skills := store.skills[skillId := ApplySkillChildren(table, requested, skill, root.children)])
    else
      store.(skills := store.skills[skillId := skill])
  }

  /**
   * The change-skill block: each of its two loops overwrites the reference once per listed id,
   * so only the last entry of each list survives.
   */
  method ParseChangeSkill(p: Element) returns (changeSkill: ChangeSkillReference)
    requires ChangeListsCover(p)
    ensures changeSkill == ChangeSkillOf(p)
  {
    changeSkill := ChangeSkillReference(DefaultEffectReference, DefaultReference, DefaultReference);
    var effectId := ReadFreshIntList(p, "changeSkillCheckEffectID");
    var effectLevel := ReadFreshIntList(p, "changeSkillCheckEffectLevel");
    var effectStacks := ReadFreshIntList(p, "changeSkillCheckEffectOverlapCount");
    var i := 0;
    while i < |effectId|
      invariant 0 <= i <= |effectId|
      invariant changeSkill.effect == LastCheckedEffect(effectId[..i], effectLevel, effectStacks)
      invariant changeSkill.skill == DefaultReference
    {
      changeSkill := changeSkill.(effect := EffectReferenceData(Effect, effectId[i], effectLevel[i], effectStacks[i], 0));
      i := i + 1;
    }
    assert effectId[..i] == effectId;
    ghost var checked := changeSkill.effect;
    effectId := ReadFreshIntList(p, "changeSkillID");
    effectLevel := ReadFreshIntList(p, "changeSkillLevel");
    var j := 0;
    while j < |effectId|
      invariant 0 <= j <= |effectId|
      invariant changeSkill.skill == LastChangedSkill(effectId[..j], effectLevel)
      invariant changeSkill.effect == checked
    {
      changeSkill := changeSkill.(skill := ReferenceData(Skill, effectId[j], effectLevel[j]));
      j := j + 1;
    }
    assert effectId[..j] == effectId;
    var originSkillId := ReadInt(p, "originSkillID", 0);
    var originSkillLevel := ReadInt(p, "originSkillLevel", 0);
    changeSkill := changeSkill.(originSkill := ReferenceData(Skill, originSkillId, originSkillLevel));
  }

  /** The trigger loop of one attack. */
  method ParseAttack(attackElement: Element) returns (attack: SkillAttack)
    ensures attack == SkillAttack(AttackTriggers(attackElement.children))
  {
    var triggers: seq<ConditionSkill> := [];
    var children := attackElement.children;
    var k := 0;
    while k < |children|
      invariant 0 <= k <= |children|
      invariant triggers == AttackTriggers(children[..k])
    {
      AttackTriggersExtend(children, k);
      if children[k].name == "conditionSkill" {
        var trigger := ParseConditionSkill(children[k], EmptyConditionSkill);
        triggers := triggers + [trigger];
      }
      k := k + 1;
    }
    assert children[..k] == children;
    attack := SkillAttack(triggers);
  }

  /** The trigger loop of an attack, one child more. */
  lemma AttackTriggersExtend(children: seq<Element>, k: int)
    requires 0 <= k < |children|
    ensures AttackTriggers(children[..k + 1])
         == if children[k].name == "conditionSkill"
            then AttackTriggers(children[..k]) + [ConditionSkillOf(children[k], EmptyConditionSkill)]
            else AttackTriggers(children[..k])
  {
    assert children[..k + 1][..k] == children[..k];
    assert AttackTriggers(children[..k]) + [] == AttackTriggers(children[..k]);
  }

  /** The attack loop of one motion. */
  method ParseMotion(p: Element) returns (motion: SkillMotion)
    ensures motion == SkillMotion(MotionAttacks(p.children))
  {
    var attacks: seq<SkillAttack> := [];
    var children := p.children;
    var k := 0;
    while k < |children|
      invariant 0 <= k <= |children|
      invariant attacks == MotionAttacks(children[..k])
    {
      MotionAttacksExtend(children, k);
      if children[k].name == "attack" {
        var attack := ParseAttack(children[k]);
        attacks := attacks + [attack];
      }
      k := k + 1;
    }
    assert children[..k] == children;
    motion := SkillMotion(attacks);
  }

  /** The attack loop of a motion, one child more. */
  lemma MotionAttacksExtend(children: seq<Element>, k: int)
    requires 0 <= k < |children|
    ensures MotionAttacks(children[..k + 1])
         == if children[k].name == "attack"
            then MotionAttacks(children[..k]) + [SkillAttack(AttackTriggers(children[k].children))]
            else MotionAttacks(children[..k])
  {
    assert children[..k + 1][..k] == children[..k];
    assert MotionAttacks(children[..k]) + [] == MotionAttacks(children[..k]);
  }

  /** The body of the property loop for one property element. */
  method ParseSkillProperty(level: SkillLevelData, p: Element) returns (r: SkillLevelData)
    requires WellFormedSkillProperty(p)
    ensures r == ApplySkillProperty(level, p)
  {
    r := level;
    if p.name == "beginCondition" {
      var condition := ParseBeginCondition(p, r.condition);
      r := r.(condition := condition);
      return;
    }
    if p.name == "changeSkill" {
      var changeSkill := ParseChangeSkill(p);
      r := r.(changeSkillReferences := r.changeSkillReferences + [changeSkill]);
      return;
    }
    if p.name == "combo" {
      var isCombo := ReadBool(p, "comboSkill", false);
      var isCharging := ReadBool(p, "chargingSkill", false);
      var originSkill := ReferenceData(Skill, ReadInt(p, "comboOriginSkill", 0), 0);
      var inputSkill := ReferenceData(Skill, ReadInt(p, "inputSkill", 0), 0);
      var outputSkill := ReferenceData(Skill, ReadInt(p, "outputSkill", 0), 0);
      r := r.(combo := ComboReference(isCombo, isCharging, originSkill, inputSkill, outputSkill));
      return;
    }
    if p.name == "conditionSkill" {
      var passive := ParseConditionSkill(p, EmptyConditionSkill);
      r := r.(passives := r.passives + [passive]);
    }
    if p.name == "motion" {
      var motion := ParseMotion(p);
      r := r.(motions := r.motions + [motion]);
      return;
    }
  }

  /** The body of the child loop for one child of the root. */
  method ParseSkillChild(table: FeatureTable, requested: string, skill: SkillData, child: Element) returns (r: SkillData)
    requires SkillChildWellFormed(child)
    ensures r == ApplySkillChild(table, requested, skill, child)
  {
    r := skill;
    if child.name == "basic" {
      var v := IsNodeEnabled(table, requested, child, r.feature, r.locale);
      if !v.enabled {
        return;
      }
      r := r.(feature := v.feature, locale := v.locale);
      return;
    }
    if child.name != "level" {
      return;
    }
    var level := ReadInt(child, "value", 0);
    var data := SkillLevelOrEmpty(skill, level);
    ghost var created := data;
    var properties := child.children;
    var j := 0;
    while j < |properties|
      invariant 0 <= j <= |properties|
      invariant data == ApplySkillProperties(created, properties[..j])
    {
      data := ParseSkillProperty(data, properties[j]);
      assert properties[..j + 1][..j] == properties[..j];
      j := j + 1;
    }
    assert properties[..j] == properties;
    r := r.(levels := r.levels[level := data]);
  }

  /**
   * `ParseSkill`, with the file's id, its root element, the feature table and the requested
   * locale as parameters and the store passed in and returned.
   */
  method ParseSkill(table: FeatureTable, requested: string, store: Store, skillId: int, root: Element)
    returns (result: Store)
    requires SkillDocumentWellFormed(root)
    ensures result == SkillFileOf(table, requested, store, skillId, root)
  {
    var skill := SkillOrEmpty(store, skillId);
    result := store.(skills := store.skills[skillId := skill]);
    var fileVerdict := IsNodeEnabled(table, requested, root, FreshSettings, FreshSettings);
    if !fileVerdict.enabled {
      return;
    }
    skill := ParseSkillChildren(table, requested, skill, root.children);
    result := store.(skills := store.skills[skillId := skill]);
  }

  /** The loop of `ParseSkill` over the children of the root. */
  method ParseSkillChildren(table: FeatureTable, requested: string, skill: SkillData, children: seq<Element>)
    returns (r: SkillData)
    requires forall k :: 0 <= k < |children| ==> SkillChildWellFormed(children[k])
    ensures r == ApplySkillChildren(table, requested, skill, children)
  {
    r := skill;
    var i := 0;
    while i < |children|
      invariant 0 <= i <= |children|
      invariant r == ApplySkillChildren(table, requested, skill, children[..i])
    {
      ApplySkillChildrenExtend(table, requested, skill, children, i);
      r := ParseSkillChild(table, requested, r, children[i]);
      i := i + 1;
    }
    assert children[..i] == children;
  }

  /** The loop over the root's children, one child more. */
  lemma ApplySkillChildrenExtend(table: FeatureTable, requested: string, skill: SkillData, children: seq<Element>, i: int)
    requires forall k :: 0 <= k < |children| ==> SkillChildWellFormed(children[k])
    requires 0 <= i < |children|
    ensures ApplySkillChildren(table, requested, skill, children[..i + 1])
         == ApplySkillChild(table, requested, ApplySkillChildren(table, requested, skill, children[..i]), children[i])
  {
    assert children[..i + 1][..i] == children[..i];
  }

  /** Every `attack` child yields one attack and every `conditionSkill` grandchild one trigger. */
  lemma {:induction false} MotionCounts(children: seq<Element>)
    ensures |MotionAttacks(children)| == CountNamed(children, "attack")
    ensures |AttackTriggers(children)| == CountNamed(children, "conditionSkill")
    decreases |children|
  {
    if children != [] {
      MotionCounts(children[..|children| - 1]);
    }
  }

  /**
   * The property loop only appends: the begin-condition references, change-skill references,
   * passives and motions a level already held stay as prefixes, and its description and slots
   * are untouched.
   */
  lemma {:induction false} ApplySkillPropertiesKeeps(level: SkillLevelData, ps: seq<Element>)
    requires SkillPropertiesWellFormed(ps)
    ensures var r := ApplySkillProperties(level, ps);
      && r.description == level.description && r.feature == level.feature && r.locale == level.locale
      && level.condition.references <= r.condition.references
      && level.changeSkillReferences <= r.changeSkillReferences
      && level.passives <= r.passives
      && level.motions <= r.motions
    decreases |ps|
  {
    if ps != [] {
      ApplySkillPropertiesKeeps(level, ps[..|ps| - 1]);
      ApplySkillPropertyKeeps(ApplySkillProperties(level, ps[..|ps| - 1]), ps[|ps| - 1]);
    }
  }

  lemma ApplySkillPropertyKeeps(level: SkillLevelData, p: Element)
    requires WellFormedSkillProperty(p)
    ensures var r := ApplySkillProperty(level, p);
      && r.description == level.description && r.feature == level.feature && r.locale == level.locale
      && level.condition.references <= r.condition.references
      && level.changeSkillReferences <= r.changeSkillReferences
      && level.passives <= r.passives
      && level.motions <= r.motions
  {
  }

  /**
   * One change-skill reference per `changeSkill` property, one passive per `conditionSkill`
   * property and one motion per `motion` property.
   */
  lemma {:induction false} ApplySkillPropertiesCounts(level: SkillLevelData, ps: seq<Element>)
    requires SkillPropertiesWellFormed(ps)
    ensures var r := ApplySkillProperties(level, ps);
      && |r.changeSkillReferences| == |level.changeSkillReferences| + CountNamed(ps, "changeSkill")
      && |r.passives| == |level.passives| + CountNamed(ps, "conditionSkill")
      && |r.motions| == |level.motions| + CountNamed(ps, "motion")
    decreases |ps|
  {
    if ps != [] {
      ApplySkillPropertiesCounts(level, ps[..|ps| - 1]);
    }
  }

  /** The level numbers named by the `level` children among `children`. */
  function NamedSkillLevels(children: seq<Element>): set<int>
    decreases |children|
  {
    if children == [] then {}
    else
      var last := children[|children| - 1];
      NamedSkillLevels(children[..|children| - 1]) + (if last.name == "level" then {ReadInt(last, "value", 0)} else {})
  }

  /**
   * The child loop creates exactly the level records its `level` children name (there is no gate
   * on a level), leaves every other level record as it was, and never lets the feature version
   * on the skill's slot go down.
   */
  lemma {:induction false} ApplySkillChildrenLevels(table: FeatureTable, requested: string, skill: SkillData, children: seq<Element>)
    requires forall k :: 0 <= k < |children| ==> SkillChildWellFormed(children[k])
    requires skill.feature.level != Override
    ensures var r := ApplySkillChildren(table, requested, skill, children);
      && r.levels.Keys == skill.levels.Keys + NamedSkillLevels(children)
      && (forall n :: n in skill.levels && n !in NamedSkillLevels(children) ==> r.levels[n] == skill.levels[n])
      && r.feature.version >= skill.feature.version && r.feature.level != Override
    decreases |children|
  {
    if children != [] {
      ApplySkillChildrenLevels(table, requested, skill, children[..|children| - 1]);
    }
  }

  /**
   * A file inserts the record for its id whether or not the gate accepts its root, changes no
   * other record and no other table. When the root is rejected the record is left as it was, so
   * a skill seen for the first time keeps an empty level table.
   */
  lemma SkillFileFrame(table: FeatureTable, requested: string, store: Store, skillId: int, root: Element)
    requires SkillDocumentWellFormed(root)
    ensures var r := SkillFileOf(table, requested, store, skillId, root);
      && r.skills.Keys == store.skills.Keys + {skillId}
      && (forall n :: n in store.skills && n != skillId ==> r.skills[n] == store.skills[n])
      && r.effects == store.effects && r.jobs == store.jobs && r.setBonusOptions == store.setBonusOptions
      && r.setBonuses == store.setBonuses && r.items == store.items
      && (!IsNodeEnabled(table, requested, root, FreshSettings, FreshSettings).enabled ==>
            r.skills[skillId] == SkillOrEmpty(store, skillId))
      && (skillId !in store.skills && !IsNodeEnabled(table, requested, root, FreshSettings, FreshSettings).enabled ==>
            r.skills[skillId].levels == map[])
  {
    var skill := SkillOrEmpty(store, skillId);
    var record := if IsNodeEnabled(table, requested, root, FreshSettings, FreshSettings).enabled
      then ApplySkillChildren(table, requested, skill, root.children) else skill;
    assert SkillFileOf(table, requested, store, skillId, root) == store.(skills := store.skills[skillId := record]);
  }
}
