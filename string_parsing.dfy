/**
 * XmlParsing.cpp, `ParseStrings`: a string file annotates records that earlier files created. The
 * file name's prefix selects what it annotates: `korskilldescription` sets level descriptions of
 * skills, `skillname` sets skill names, `koradditionaldescription` sets names and descriptions of
 * effect levels. Keys naming a record or level that does not exist are skipped, so a string file
 * never creates anything.
 *
 * Each key is gated again, but the source passes the root element (not the key) with fresh slots,
 * which is the test the whole file already passed; the model keeps that test as written.
 */
module StringParsing {
  import opened XmlTree
  import opened ParserUtils
  import opened FeatureGate
  import opened XmlData

  /** The kinds of string file `ParseStrings` understands, chosen by file-name prefix. */
  datatype StringFile = SkillDescriptions | SkillNames | EffectDescriptions | OtherStrings

  /** `strncmp(name, literal, strlen(literal)) == 0`: the literal is a prefix of the name. */
  predicate StartsWith(name: string, literal: string)
  {
    |literal| <= |name| && name[..|literal|] == literal
  }

  /** The file kind, checked in the source's order. */
  function StringFileKind(fileName: string): StringFile
  {
    if StartsWith(fileName, "korskilldescription") then SkillDescriptions
    else if StartsWith(fileName, "skillname") then SkillNames
    else if StartsWith(fileName, "koradditionaldescription") then EffectDescriptions
    else OtherStrings
  }

  /** The per-key test as written: the root element with fresh slots. */
  predicate KeyGate(table: FeatureTable, requested: string, root: Element)
  {
    IsNodeEnabled(table, requested, root, FreshSettings, FreshSettings).enabled
  }

  /** One key of a skill-description file: sets the description of an existing level of an existing skill. */
  function DescribeSkill(skills: map<int, SkillData>, key: Element): map<int, SkillData>
  {
    var skillId := ReadInt(key, "id", 0);
    var level := ReadInt(key, "level", 0);
    if skillId !in skills || level !in skills[skillId].levels then skills
    else
      match FindAttribute(key, "uiDescription")
      case None => skills
      case Some(description) =>
        var skill := skills[skillId];
        skills[skillId := skill.(levels := skill.levels[level := skill.levels[level].(description := description)])]
  }

  /** One key of a skill-name file: sets the name of an existing skill. */
  function NameSkill(skills: map<int, SkillData>, key: Element): map<int, SkillData>
  {
    var skillId := ReadInt(key, "id", 0);
    if skillId !in skills then skills
    else
      match FindAttribute(key, "name")
      case None => skills
      case Some(name) => skills[skillId := skills[skillId].(name := name)]
  }

  /** One key of an effect-description file: sets the name and the description of an existing effect level, each when given. */
  function DescribeEffect(effects: map<int, AdditionalEffectData>, key: Element): map<int, AdditionalEffectData>
  {
    var effectId := ReadInt(key, "id", 0);
    var level := ReadInt(key, "level", 0);
    if effectId !in effects || level !in effects[effectId].levels then effects
    else
      var data := effects[effectId].levels[level];
      var named := match FindAttribute(key, "name") case None => data case Some(name) => data.(name := name);
      var described := match FindAttribute(key, "tooltipDescription")
        case None => named
        case Some(description) => named.(description := description);
      effects[effectId := AdditionalEffectData(effects[effectId].levels[level := described])]
  }

  /** The skill table after the description loop has seen `keys`. */
  function DescribeSkills(table: FeatureTable, requested: string, root: Element, skills: map<int, SkillData>, keys: seq<Element>): map<int, SkillData>
    decreases |keys|
  {
    if keys == [] then skills
    else
      var prev := DescribeSkills(table, requested, root, skills, keys[..|keys| - 1]);
      if KeyGate(table, requested, root) then DescribeSkill(prev, keys[|keys| - 1]) else prev
  }

  /** The skill table after the name loop has seen `keys`. */
  function NameSkills(table: FeatureTable, requested: string, root: Element, skills: map<int, SkillData>, keys: seq<Element>): map<int, SkillData>
    decreases |keys|
  {
    if keys == [] then skills
    else
      var prev := NameSkills(table, requested, root, skills, keys[..|keys| - 1]);
      if KeyGate(table, requested, root) then NameSkill(prev, keys[|keys| - 1]) else prev
  }

  /** The effect table after the effect-description loop has seen `keys`. */
  function DescribeEffects(table: FeatureTable, requested: string, root: Element,
                           effects: map<int, AdditionalEffectData>, keys: seq<Element>): map<int, AdditionalEffectData>
    decreases |keys|
  {
    if keys == [] then effects
    else
      var prev := DescribeEffects(table, requested, root, effects, keys[..|keys| - 1]);
      if KeyGate(table, requested, root) then DescribeEffect(prev, keys[|keys| - 1]) else prev
  }

  /** The store after one string file. */
  function StringsFileOf(table: FeatureTable, requested: string, store: Store, fileName: string, root: Element): Store
  {
    var kind := StringFileKind(fileName);
    if kind == OtherStrings || !IsNodeEnabled(table, requested, root, FreshSettings, FreshSettings).enabled then store
    else if kind == SkillDescriptions then store.(skills := DescribeSkills(table, requested, root, store.skills, root.children))
    else if kind == SkillNames then store.(skills := NameSkills(table, requested, root, store.skills, root.children))
    else store.(effects := DescribeEffects(table, requested, root, store.effects, root.children))
  }

  /** The key loop of a skill-description file. */
  method AnnotateSkillDescriptions(table: FeatureTable, requested: string, root: Element, skills: map<int, SkillData>)
    returns (r: map<int, SkillData>)
    ensures r == DescribeSkills(table, requested, root, skills, root.children)
  {
    r := skills;
    var keys := root.children;
    var i := 0;
    while i < |keys|
      invariant 0 <= i <= |keys|
      invariant r == DescribeSkills(table, requested, root, skills, keys[..i])
    {
      var keyElement := keys[i];
      assert keys[..i + 1][..i] == keys[..i];
      i := i + 1;
      var keyVerdict := IsNodeEnabled(table, requested, root, FreshSettings, FreshSettings);
      if keyVerdict.enabled {
        r := DescribeSkillKey(r, keyElement);
      }
    }
    assert keys[..i] == keys;
  }

  /** The body of the description loop for one key the gate let through. */
  method DescribeSkillKey(skills: map<int, SkillData>, keyElement: Element) returns (r: map<int, SkillData>)
    ensures r == DescribeSkill(skills, keyElement)
  {
    r := skills;
    var skillId := ReadInt(keyElement, "id", 0);
    if skillId !in r {
      return;
    }
    var skill := r[skillId];
    var skillLevel := ReadInt(keyElement, "level", 0);
    if skillLevel !in skill.levels {
      return;
    }
    var description := FindAttribute(keyElement, "uiDescription");
    if description.None? {
      return;
    }
    r := r[skillId := skill.(levels := skill.levels[skillLevel := skill.levels[skillLevel].(description := description.value)])];
  }

  /** The key loop of a skill-name file. */
  method AnnotateSkillNames(table: FeatureTable, requested: string, root: Element, skills: map<int, SkillData>)
    returns (r: map<int, SkillData>)
    ensures r == NameSkills(table, requested, root, skills, root.children)
  {
    r := skills;
    var keys := root.children;
    var i := 0;
    while i < |keys|
      invariant 0 <= i <= |keys|
      invariant r == NameSkills(table, requested, root, skills, keys[..i])
    {
      var keyElement := keys[i];
      assert keys[..i + 1][..i] == keys[..i];
      i := i + 1;
      var keyVerdict := IsNodeEnabled(table, requested, root, FreshSettings, FreshSettings);
      if keyVerdict.enabled {
        r := NameSkillKey(r, keyElement);
      }
    }
    assert keys[..i] == keys;
  }

  /** The body of the name loop for one key the gate let through. */
  method NameSkillKey(skills: map<int, SkillData>, keyElement: Element) returns (r: map<int, SkillData>)
    ensures r == NameSkill(skills, keyElement)
  {
    r := skills;
    var skillId := ReadInt(keyElement, "id", 0);
    if skillId !in r {
      return;
    }
    var name := FindAttribute(keyElement, "name");
    if name.None? {
      return;
    }
    r := r[skillId := r[skillId].(name := name.value)];
  }

  /** The key loop of an effect-description file. */
  method AnnotateEffectDescriptions(table: FeatureTable, requested: string, root: Element, effects: map<int, AdditionalEffectData>)
    returns (r: map<int, AdditionalEffectData>)
    ensures r == DescribeEffects(table, requested, root, effects, root.children)
  {
    r := effects;
    var keys := root.children;
    var i := 0;
    while i < |keys|
      invariant 0 <= i <= |keys|
      invariant r == DescribeEffects(table, requested, root, effects, keys[..i])
    {
      var keyElement := keys[i];
      assert keys[..i + 1][..i] == keys[..i];
      i := i + 1;
      var keyVerdict := IsNodeEnabled(table, requested, root, FreshSettings, FreshSettings);
      if keyVerdict.enabled {
        r := DescribeEffectKey(r, keyElement);
      }
    }
    assert keys[..i] == keys;
  }

  /** The body of the effect-description loop for one key the gate let through. */
  method DescribeEffectKey(effects: map<int, AdditionalEffectData>, keyElement: Element) returns (r: map<int, AdditionalEffectData>)
    ensures r == DescribeEffect(effects, keyElement)
  {
    r := effects;
    var effectId := ReadInt(keyElement, "id", 0);
    if effectId !in r {
      return;
    }
    var effectLevel := ReadInt(keyElement, "level", 0);
    if effectLevel !in r[effectId].levels {
      return;
    }
    var level := r[effectId].levels[effectLevel];
    var name := FindAttribute(keyElement, "name");
    if name.Some? {
      level := level.(name := name.value);
    }
    var description := FindAttribute(keyElement, "tooltipDescription");
    if description.Some? {
      level := level.(description := description.value);
    }
    r := r[effectId := AdditionalEffectData(r[effectId].levels[effectLevel := level])];
  }

  /**
   * `ParseStrings`, with the file name's stem, its root element, the feature table and the
   * requested locale as parameters and the store passed in and returned.
   */
  method ParseStrings(table: FeatureTable, requested: string, store: Store, fileName: string, root: Element)
    returns (result: Store)
    ensures result == StringsFileOf(table, requested, store, fileName, root)
  {
    result := store;
    if StartsWith(fileName, "korskilldescription") {
      var fileVerdict := IsNodeEnabled(table, requested, root, FreshSettings, FreshSettings);
      if !fileVerdict.enabled {
        return;
      }
      var skills := AnnotateSkillDescriptions(table, requested, root, store.skills);
      result := store.(skills := skills);
      return;
    }
    if StartsWith(fileName, "skillname") {
      var fileVerdict := IsNodeEnabled(table, requested, root, FreshSettings, FreshSettings);
      if !fileVerdict.enabled {
        return;
      }
      var skills := AnnotateSkillNames(table, requested, root, store.skills);
      result := store.(skills := skills);
      return;
    }
    if StartsWith(fileName, "koradditionaldescription") {
      var fileVerdict := IsNodeEnabled(table, requested, root, FreshSettings, FreshSettings);
      if !fileVerdict.enabled {
        return;
      }
      var effects := AnnotateEffectDescriptions(table, requested, root, store.effects);
      result := store.(effects := effects);
      return;
    }
  }

  /** Two skill tables with the same records and levels, differing at most in level descriptions. */
  predicate OnlyDescriptionsDiffer(before: map<int, SkillData>, after: map<int, SkillData>)
  {
    && after.Keys == before.Keys
    && forall id :: id in before ==>
         && after[id].name == before[id].name
         && after[id].feature == before[id].feature && after[id].locale == before[id].locale
         && after[id].levels.Keys == before[id].levels.Keys
         && forall n :: n in before[id].levels ==>
              after[id].levels[n] == before[id].levels[n].(description := after[id].levels[n].description)
  }

  /** Two skill tables with the same records, differing at most in skill names. */
  predicate OnlyNamesDiffer(before: map<int, SkillData>, after: map<int, SkillData>)
  {
    && after.Keys == before.Keys
    && forall id :: id in before ==> after[id] == before[id].(name := after[id].name)
  }

  /** Two effect tables with the same records and levels, differing at most in level names and descriptions. */
  predicate OnlyEffectTextsDiffer(before: map<int, AdditionalEffectData>, after: map<int, AdditionalEffectData>)
  {
    && after.Keys == before.Keys
    && forall id :: id in before ==>
         && after[id].levels.Keys == before[id].levels.Keys
         && forall n :: n in before[id].levels ==>
              after[id].levels[n] == before[id].levels[n].(name := after[id].levels[n].name,
                                                          description := after[id].levels[n].description)
  }

  /** The skill-description loop creates no skill and no level and changes nothing but descriptions. */
  lemma {:induction false} DescribeSkillsOnlyDescribes(table: FeatureTable, requested: string, root: Element,
                                                       skills: map<int, SkillData>, keys: seq<Element>)
    ensures OnlyDescriptionsDiffer(skills, DescribeSkills(table, requested, root, skills, keys))
    decreases |keys|
  {
    if keys != [] {
      var prev := DescribeSkills(table, requested, root, skills, keys[..|keys| - 1]);
      DescribeSkillsOnlyDescribes(table, requested, root, skills, keys[..|keys| - 1]);
      DescribeSkillStep(skills, prev, keys[|keys| - 1]);
    }
  }

  lemma DescribeSkillStep(skills: map<int, SkillData>, prev: map<int, SkillData>, key: Element)
    requires OnlyDescriptionsDiffer(skills, prev)
    ensures OnlyDescriptionsDiffer(skills, DescribeSkill(prev, key))
  {
    var r := DescribeSkill(prev, key);
    forall id | id in skills
      ensures r[id].levels.Keys == skills[id].levels.Keys
      ensures forall n :: n in skills[id].levels ==>
                r[id].levels[n] == skills[id].levels[n].(description := r[id].levels[n].description)
    {
      forall n | n in skills[id].levels
        ensures r[id].levels[n] == skills[id].levels[n].(description := r[id].levels[n].description)
      {
        assert prev[id].levels[n] == skills[id].levels[n].(description := prev[id].levels[n].description);
      }
    }
  }

  /** The skill-name loop creates no skill and changes nothing but names. */
  lemma {:induction false} NameSkillsOnlyNames(table: FeatureTable, requested: string, root: Element,
                                               skills: map<int, SkillData>, keys: seq<Element>)
    ensures OnlyNamesDiffer(skills, NameSkills(table, requested, root, skills, keys))
    decreases |keys|
  {
    if keys != [] {
      NameSkillsOnlyNames(table, requested, root, skills, keys[..|keys| - 1]);
    }
  }

  /** The effect-description loop creates no effect and no level and changes nothing but level names and descriptions. */
  lemma {:induction false} DescribeEffectsOnlyTexts(table: FeatureTable, requested: string, root: Element,
                                                    effects: map<int, AdditionalEffectData>, keys: seq<Element>)
    ensures OnlyEffectTextsDiffer(effects, DescribeEffects(table, requested, root, effects, keys))
    decreases |keys|
  {
    if keys != [] {
      var prev := DescribeEffects(table, requested, root, effects, keys[..|keys| - 1]);
      DescribeEffectsOnlyTexts(table, requested, root, effects, keys[..|keys| - 1]);
      DescribeEffectStep(effects, prev, keys[|keys| - 1]);
    }
  }

  lemma DescribeEffectStep(effects: map<int, AdditionalEffectData>, prev: map<int, AdditionalEffectData>, key: Element)
    requires OnlyEffectTextsDiffer(effects, prev)
    ensures OnlyEffectTextsDiffer(effects, DescribeEffect(prev, key))
  {
    var r := DescribeEffect(prev, key);
    forall id | id in effects
      ensures r[id].levels.Keys == effects[id].levels.Keys
      ensures forall n :: n in effects[id].levels ==>
                r[id].levels[n] == effects[id].levels[n].(name := r[id].levels[n].name,
                                                          description := r[id].levels[n].description)
    {
      forall n | n in effects[id].levels
        ensures r[id].levels[n] == effects[id].levels[n].(name := r[id].levels[n].name,
                                                         description := r[id].levels[n].description)
      {
        assert prev[id].levels[n] == effects[id].levels[n].(name := prev[id].levels[n].name,
                                                           description := prev[id].levels[n].description);
      }
    }
  }

  /**
   * A string file only annotates: it creates no skill, effect or level record, changes only
   * descriptions and names, and leaves the other tables alone.
   */
  lemma StringsOnlyAnnotate(table: FeatureTable, requested: string, store: Store, fileName: string, root: Element)
    ensures var r := StringsFileOf(table, requested, store, fileName, root);
      && (StringFileKind(fileName) != SkillNames ==> OnlyDescriptionsDiffer(store.skills, r.skills))
      && (StringFileKind(fileName) == SkillNames ==> OnlyNamesDiffer(store.skills, r.skills))
      && OnlyEffectTextsDiffer(store.effects, r.effects)
      && r.jobs == store.jobs && r.setBonusOptions == store.setBonusOptions
      && r.setBonuses == store.setBonuses && r.items == store.items
  {
    DescribeSkillsOnlyDescribes(table, requested, root, store.skills, root.children);
    NameSkillsOnlyNames(table, requested, root, store.skills, root.children);
    DescribeEffectsOnlyTexts(table, requested, root, store.effects, root.children);
  }
}
