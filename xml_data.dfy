/**
 * XmlData.h and XmlData.cpp: the typed records ingestion produces and the graph builder reads,
 * and the renderer that turns a reference into the identifier of its graph node.
 */
module XmlData {
  import opened Decimal
  import opened ParserUtils
  import Wrappers

  /**
   * `enum class ReferenceType`. The parser casts an arbitrary integer to it (`splash`), so the
   * codes outside the three enumerators are kept as `OutOfRange`.
   */
  datatype ReferenceType = Effect | Skill | EffectCategory | OutOfRange(code: int)

  /** The enumerator values: Effect = 0, Skill = 1, EffectCategory = 2. */
  function CodeOf(t: ReferenceType): (code: int)
    ensures t.Effect? ==> code == 0
    ensures t.Skill? ==> code == 1
    ensures t.EffectCategory? ==> code == 2
  {
    match t
    case Effect => 0
    case Skill => 1
    case EffectCategory => 2
    case OutOfRange(c) => c
  }

  /** `(ReferenceType)code`. */
  function TypeOfCode(code: int): (t: ReferenceType)
    ensures t.Effect? <==> code == 0
    ensures t.Skill? <==> code == 1
    ensures t.EffectCategory? <==> code == 2
  {
    if code == 0 then Effect
    else if code == 1 then Skill
    else if code == 2 then EffectCategory
    else OutOfRange(code)
  }

  /** A reference type is well formed when an out-of-range code is really out of range. */
  predicate WellFormedType(t: ReferenceType)
  {
    t.OutOfRange? ==> t.code !in {0, 1, 2}
  }

  /** The cast and the enumerator value are inverse to each other. */
  lemma TypeCodeRoundTrip(code: int, t: ReferenceType)
    requires WellFormedType(t)
    ensures CodeOf(TypeOfCode(code)) == code
    ensures WellFormedType(TypeOfCode(code))
    ensures TypeOfCode(CodeOf(t)) == t
  {
  }

  /** `enum class SkillTarget`. */
  datatype SkillTarget = SkillTargetSelf | Owner | Target | Caster | PetOwner | Attacker

  /** `enum class ConditionReferenceType`. */
  datatype ConditionReferenceType = Require | Prevent | RequireRange | Ignore | RequireEvent

  /** `enum class ModifyReferenceType`. */
  datatype ModifyReferenceType = Cancel | Immune | ResetCooldown | ModifyDuration | ModifyStacks

  /** `JobCode` values are whatever integer the `code` attribute holds; these are the named ones. */
  type JobCode = int
  const NoJob: JobCode := 0

  /** `struct ReferenceData`: defaults Effect, 0, 0. */
  datatype ReferenceData = ReferenceData(kind: ReferenceType, id: int, level: int)
  const DefaultReference := ReferenceData(Effect, 0, 0)

  /** `struct EffectReferenceData`. */
  datatype EffectReferenceData = EffectReferenceData(kind: ReferenceType, id: int, level: int, minStacks: int, maxStacks: int)
  const DefaultEffectReference := EffectReferenceData(Effect, 0, 0, 0, 0)

  /** `struct TriggerReferenceData`. */
  datatype TriggerReferenceData =
    TriggerReferenceData(kind: ReferenceType, id: int, level: int, target: SkillTarget, condition: ConditionReferenceType)

  /** `struct BeginCondition`. */
  datatype BeginCondition = BeginCondition(references: seq<TriggerReferenceData>)

  /** `struct ConditionSkill`. */
  datatype ConditionSkill = ConditionSkill(reference: ReferenceData, randomCasts: seq<ReferenceData>, condition: BeginCondition)
  const EmptyConditionSkill := ConditionSkill(DefaultReference, [], BeginCondition([]))

  /** `struct ModifyReference`. */
  datatype ModifyReference =
    ModifyReference(kind: ReferenceType, id: int, level: int, modification: ModifyReferenceType, offset: int)

  /** `struct AdditionalEffectLevelData`. */
  datatype AdditionalEffectLevelData = AdditionalEffectLevelData(
    name: string, description: string, feature: SupportSettings, locale: SupportSettings,
    condition: BeginCondition, triggers: seq<ConditionSkill>, modifications: seq<ModifyReference>)
  const EmptyEffectLevel := AdditionalEffectLevelData("", "", FreshSettings, FreshSettings, BeginCondition([]), [], [])

  /** `struct AdditionalEffectData`. */
  datatype AdditionalEffectData = AdditionalEffectData(levels: map<int, AdditionalEffectLevelData>)

  /** `struct ChangeSkillReference`. */
  datatype ChangeSkillReference =
    ChangeSkillReference(effect: EffectReferenceData, skill: ReferenceData, originSkill: ReferenceData)

  /** `struct ComboReference`. */
  datatype ComboReference = ComboReference(
    isCombo: bool, isCharging: bool, originSkill: ReferenceData, inputSkill: ReferenceData, outputSkill: ReferenceData)
  const EmptyCombo := ComboReference(false, false, DefaultReference, DefaultReference, DefaultReference)

  /** `struct SkillAttack` and `struct SkillMotion`. */
  datatype SkillAttack = SkillAttack(triggers: seq<ConditionSkill>)
  datatype SkillMotion = SkillMotion(attacks: seq<SkillAttack>)

  /** `struct SkillLevelData`. */
  datatype SkillLevelData = SkillLevelData(
    description: string, feature: SupportSettings, locale: SupportSettings, condition: BeginCondition,
    combo: ComboReference, passives: seq<ConditionSkill>, changeSkillReferences: seq<ChangeSkillReference>,
    motions: seq<SkillMotion>)
  const EmptySkillLevel := SkillLevelData("", FreshSettings, FreshSettings, BeginCondition([]), EmptyCombo, [], [], [])

  /** `struct SkillData`. */
  datatype SkillData = SkillData(name: string, feature: SupportSettings, locale: SupportSettings, levels: map<int, SkillLevelData>)
  const EmptySkill := SkillData("", FreshSettings, FreshSettings, map[])

  /** `struct JobSkill`. */
  datatype JobSkill = JobSkill(skill: ReferenceData, subSkills: seq<ReferenceData>)

  /** `struct JobData`. */
  datatype JobData = JobData(
    job: JobCode, name: string, awakenedName: string, feature: SupportSettings, locale: SupportSettings, skills: seq<JobSkill>)
  const EmptyJob := JobData(NoJob, "", "", FreshSettings, FreshSettings, [])

  /** `struct SetBonusOptionPartData` and `struct SetBonusOptionData`. */
  datatype SetBonusOptionPartData = SetBonusOptionPartData(count: int, additionalEffects: seq<ReferenceData>)
  datatype SetBonusOptionData = SetBonusOptionData(parts: seq<SetBonusOptionPartData>)

  /**
   * `struct SetBonusData`. The `OptionData` pointer into the option table becomes the key of the
   * option it points at.
   */
  datatype SetBonusData = SetBonusData(
    optionId: int, name: string, optionData: Wrappers.Option<int>, feature: SupportSettings,
    locale: SupportSettings, itemIds: seq<int>)
  const EmptySetBonus := SetBonusData(0, "", Wrappers.None, FreshSettings, FreshSettings, [])

  /** The item record, with the fields ingestion writes. */
  datatype ItemData = ItemData(
    feature: SupportSettings, locale: SupportSettings, additionalEffects: seq<ReferenceData>, name: string, itemClass: string)
  const EmptyItem := ItemData(FreshSettings, FreshSettings, [], "", "")

  /** The six global tables ingestion fills, passed in and returned explicitly. */
  datatype Store = Store(
    effects: map<int, AdditionalEffectData>,
    skills: map<int, SkillData>,
    jobs: map<JobCode, JobData>,
    setBonusOptions: map<int, SetBonusOptionData>,
    setBonuses: map<int, SetBonusData>,
    items: map<int, ItemData>)
  const EmptyStore := Store(map[], map[], map[], map[], map[], map[])

  /** A non-empty set has a member. */
  lemma HasMember(keys: set<int>)
    requires keys != {}
    ensures exists x :: x in keys
  {
    if forall x :: x !in keys {
      assert false;
    }
  }

  /** There is a least element in every non-empty finite set of integers. */
  lemma {:induction false} LeastExists(keys: set<int>)
    requires keys != {}
    ensures exists k :: k in keys && forall j :: j in keys ==> k <= j
    decreases |keys|
  {
    HasMember(keys);
    var x :| x in keys;
    var rest := keys - {x};
    if rest == {} {
      forall j | j in keys ensures x <= j {
        assert j !in rest;
      }
    } else {
      LeastExists(rest);
      var m :| m in rest && forall j :: j in rest ==> m <= j;
      var least := if x < m then x else m;
      forall j | j in keys ensures least <= j {
        if j != x {
          assert j in rest;
        }
      }
      assert least in keys;
    }
  }

  /** The least key of a non-empty level table. */
  function LeastKey<V>(levels: map<int, V>): (k: int)
    requires levels != map[]
    ensures k in levels
    ensures forall j :: j in levels ==> k <= j
  {
    assert levels.Keys != {} by {
      if forall j :: j !in levels {
        assert false;
      }
      var j :| j in levels;
      assert j in levels.Keys;
    }
    LeastExists(levels.Keys);
    var k :| k in levels && forall j :: j in levels ==> k <= j;
    k
  }

  /**
   * `Levels.begin()->second`: the level the graph builder reads from a skill or an effect. The
   * source takes whichever entry its hash table happens to list first; this model fixes that
   * choice as the least level number.
   */
  function BeginLevel<V(==)>(levels: map<int, V>): (level: V)
    requires levels != map[]
    ensures level in levels.Values
    ensures exists k :: k in levels && levels[k] == level && forall j :: j in levels ==> k <= j
  {
    var k := LeastKey(levels);
    assert levels[k] == levels[k];
    levels[k]
  }

  /** `operator<<(ostream&, const ReferenceData&)`: the graph node identifier of a reference. */
  function ReferenceName(r: ReferenceData): (s: string)
  {
    KindPrefix(r.kind) + IntToString(r.id) + LevelSuffix(r.level)
  }

  /** The kind part of a reference name: "skill_" for a Skill, "effect_" for every other type. */
  function KindPrefix(kind: ReferenceType): (s: string)
  {
    if kind == Skill then "skill_" else "effect_"
  }

  /** The prefix names the reference's kind, and the decimal id follows it. */
  lemma ReferenceNameShape(r: ReferenceData)
    ensures r.kind == Skill ==> ReferenceName(r)[..6] == "skill_"
    ensures r.kind != Skill ==> ReferenceName(r)[..7] == "effect_"
    ensures var p := if r.kind == Skill then 6 else 7;
      ReferenceName(r)[p..p + |IntToString(r.id)|] == IntToString(r.id)
    ensures r.level == -1 <==> '_' !in ReferenceName(r)[if r.kind == Skill then 6 else 7..]
  {
    var p := if r.kind == Skill then 6 else 7;
    var head := KindPrefix(r.kind);
    var number := IntToString(r.id);
    var suffix := LevelSuffix(r.level);
    assert ReferenceName(r) == head + number + suffix;
    assert ReferenceName(r)[p..] == number + suffix;
    if r.level != -1 {
      assert (number + suffix)[|number|] == '_';
    } else {
      assert ReferenceName(r)[p..] == number;
      assert forall i :: 0 <= i < |number| ==> number[i] != '_';
    }
  }

  /** The position of the first '_' in a text, or its length when it has none. */
  function FirstUnderscore(s: string): (i: nat)
    ensures i <= |s|
    ensures forall k :: 0 <= k < i ==> s[k] != '_'
    ensures i == |s| || s[i] == '_'
  {
    if s == [] || s[0] == '_' then 0 else 1 + FirstUnderscore(s[1..])
  }

  /** A text free of '_' followed by a suffix that is empty or starts with '_' ends where the first '_' is. */
  lemma FirstUnderscoreAfter(x: string, y: string)
    requires '_' !in x
    requires y == [] || y[0] == '_'
    ensures FirstUnderscore(x + y) == |x|
  {
    var s := x + y;
    assert forall k :: 0 <= k < |x| ==> s[k] == x[k];
    assert |x| < |s| ==> s[|x|] == y[0] == '_';
  }

  /** Texts free of '_' followed by suffixes that are empty or start with '_' split in one way only. */
  lemma SplitAtUnderscore(x: string, y: string, x': string, y': string)
    requires '_' !in x && '_' !in x'
    requires y == [] || y[0] == '_'
    requires y' == [] || y'[0] == '_'
    requires x + y == x' + y'
    ensures x == x' && y == y'
  {
    FirstUnderscoreAfter(x, y);
    FirstUnderscoreAfter(x', y');
    assert x == (x + y)[..|x|] == (x' + y')[..|x'|] == x';
    assert y == (x + y)[|x|..] == (x' + y')[|x'|..] == y';
  }

  /** The number text of a reference never holds '_'. */
  lemma NoUnderscoreInNumber(n: int)
    ensures '_' !in IntToString(n)
  {
    var s := IntToString(n);
    forall i | 0 <= i < |s| ensures s[i] != '_' {
      assert IsDigit(s[i]) || s[i] == '-';
    }
  }

  /**
   * Two references render the same node identifier exactly when they agree on being a Skill or
   * not, on the id and on the level.
   */
  lemma ReferenceNameInjective(a: ReferenceData, b: ReferenceData)
    ensures ReferenceName(a) == ReferenceName(b) <==>
      (a.kind == Skill <==> b.kind == Skill) && a.id == b.id && a.level == b.level
  {
    var ra := IntToString(a.id) + LevelSuffix(a.level);
    var rb := IntToString(b.id) + LevelSuffix(b.level);
    assert ReferenceName(a) == KindPrefix(a.kind) + ra;
    assert ReferenceName(b) == KindPrefix(b.kind) + rb;
    if ReferenceName(a) == ReferenceName(b) {
      SameKindSameRest(a.kind, ra, b.kind, rb);
      SameNumberAndLevel(a.id, a.level, b.id, b.level);
    }
  }

  /** The level part of a reference name: empty for level -1, else '_' and the level. */
  function LevelSuffix(level: int): (s: string)
    ensures s == [] || s[0] == '_'
  {
    if level != -1 then "_" + IntToString(level) else ""
  }

  /** The two kind prefixes differ in their first character, so a name has only one of them. */
  lemma SameKindSameRest(k: ReferenceType, ra: string, k': ReferenceType, rb: string)
    requires KindPrefix(k) + ra == KindPrefix(k') + rb
    ensures (k == Skill <==> k' == Skill) && ra == rb
  {
    var ha := KindPrefix(k);
    var hb := KindPrefix(k');
    assert (ha + ra)[0] == ha[0] && (hb + rb)[0] == hb[0];
    assert ha == hb;
    assert ra == (ha + ra)[|ha|..];
    assert rb == (hb + rb)[|hb|..];
  }

  /** The id and level parts of a name split in one way only and read back one way only. */
  lemma SameNumberAndLevel(id: int, level: int, id': int, level': int)
    requires IntToString(id) + LevelSuffix(level) == IntToString(id') + LevelSuffix(level')
    ensures id == id' && level == level'
  {
    NoUnderscoreInNumber(id);
    NoUnderscoreInNumber(id');
    SplitAtUnderscore(IntToString(id), LevelSuffix(level), IntToString(id'), LevelSuffix(level'));
    IntToStringInjective(id, id');
    if level != -1 && level' != -1 {
      assert IntToString(level) == LevelSuffix(level)[1..] == LevelSuffix(level')[1..] == IntToString(level');
      IntToStringInjective(level, level');
    }
  }
}
