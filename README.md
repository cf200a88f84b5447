# Ms2DependencyGraph in Dafny

Ms2DependencyGraph reads the XML game data of a MapleStory 2 server and writes, per class and
per set bonus, a Graphviz digraph of which skills and additional effects can lead to which.
This project models the two halves of its core.

- **Ingestion** (XmlParsing.cpp, ParserUtils.h/.cpp). The routines read parsed XML elements into six id-keyed
  tables: effects, skills, jobs, set-bonus options, set bonuses and items. Most routines pass
  elements through the feature/locale gate (`isNodeEnabled`):
  - the root of the effect, skill, string, job and job-name files;
  - effect level elements and the skill's `basic` child;
  - job, set-bonus and item-environment elements;
  - the keys of the job-name, set-name and item-name files.

  Not gated are the option file (nothing in it), the roots of the set-bonus, set-name, item and
  item-name files, skill `level` children, effect and skill property elements, job-skill
  children and option parts. Scalar attributes are read
  through tinyxml2's `IntValue`, modelled as `atoi`; delimited integer lists are read with
  `atoi` itself. The model gives each routine:
  - a specification function, such as `EffectFileOf`, `JobsFileOf` or `SetBonusesFileOf`, from the
    old `Store` of tables to the new one;
  - a method with the source's loops, proved to compute it;
  - lemmas about the specification functions: which keys a file creates, what it leaves unchanged, what
    a list attribute reads back, and which references a property element contributes.
- **Graph building** (GraphPrinting.cpp, XmlData.cpp). `GraphData` is a class with the builder's two maps of
  linked targets, its two FIFO queues of ids to expand, and its output. The output is a sequence of
  node and edge events. Every method is proved to leave exactly the state that a function of
  `GraphModel` or `GraphRoots` computes. Those functions have these
  properties:
  - the queues hold each id once and match the maps;
  - `Print` never draws a duplicate trigger edge, but random casts are not deduplicated;
  - the combo walk follows combo links and leaves no skill twice;
  - the drain in `PrintLinked` terminates and draws every reached stored record exactly once;
  - a reference's node name determines whether it is a skill, its id and its level. An Effect
    and an EffectCategory reference with the same id and level print the same name.

The modules, one file each, are:
- `XmlTree`: elements;
- `Decimal`: `atoi` and integer printing;
- `ParserUtils`: support levels and attribute readers;
- `FeatureGate`: the gate and `loadFeatures`;
- `XmlData`: records and the reference printer;
- `Conditions`: begin conditions and condition skills;
- `EffectLists`: the parallel id and level lists;
- `EffectParsing`, `SkillParsing`, `StringParsing`, `JobParsing`, `SetBonusParsing`, `ItemParsing`;
- `Desanitizing`;
- `GraphModel`, `GraphRoots` and `GraphPrinting`.

The global feature table, the requested locale and the entity tables are parameters. Each file
routine receives the root element it would have loaded and, where the source reads it from
the file name, the file's id or stem.

Where the code and its intent part, the code is followed:
- A node without a `feature` attribute gets support -1, so `isNodeEnabled` rejects it.
- `ParseBeginCondition` maps `owner` and `target` to Caster, and `caster` to Target.
- The per-key gate of `ParseStrings` tests the root element again, not the key.
- The combined test at ParserUtils.cpp:163 reads `feature->Version` even when no feature slot is passed. Every call site passes one, so the model always has both slots.

## Model

| member | source | states |
|---|---|---|
| XmlTree.FirstChildNamed | Ms2DependencyGraph/Ms2DependencyGraph/XmlParsing.cpp:118-121 | `FirstChildElement(name)`: none exactly when no child has the name; otherwise the first child with that name |
| XmlTree.FirstChild | Ms2DependencyGraph/Ms2DependencyGraph/XmlParsing.cpp:95 | `FirstChildElement()`: none exactly when there are no children, else the first child |
| XmlTree.FindAttribute | Ms2DependencyGraph/Ms2DependencyGraph/ParserUtils.h:101-104 | `FindAttribute(name)`: none exactly when the element lacks the attribute, else its text |
| Decimal.LeadingDigits | Ms2DependencyGraph/Ms2DependencyGraph/ParserUtils.h:109-113 | the longest all-digit prefix `atoi` consumes: a prefix, all digits, followed by a non-digit or the end |
| Decimal.AtoiOfDigitFirst | Ms2DependencyGraph/Ms2DependencyGraph/ParserUtils.h:109-113 | `atoi` of a text that starts with a digit is the value of its leading digit run |
| Decimal.SkipSpaces | Ms2DependencyGraph/Ms2DependencyGraph/ParserUtils.h:109-113 | the suffix after `atoi`'s leading white space, which starts with a non-space |
| Decimal.Atoi | Ms2DependencyGraph/Ms2DependencyGraph/ParserUtils.h:109-113 | C's `atoi`: leading white space skipped, one optional sign, then the longest digit run; 0 when no digit follows (definition; its properties are the `Atoi*` lemmas) |
| Decimal.IntToString | Ms2DependencyGraph/Ms2DependencyGraph/XmlData.cpp:10 | `out << int` prints a non-empty run of digits, optionally after a minus sign |
| Decimal.DigitsValueOfNatToString | Ms2DependencyGraph/Ms2DependencyGraph/XmlData.cpp:10 | reading back the printed digits of a natural number gives the number |
| Decimal.AtoiOfDigits | Ms2DependencyGraph/Ms2DependencyGraph/ParserUtils.h:109-113 | `atoi` of a digit run followed by a non-digit is the run's value |
| Decimal.AtoiOfNegatedDigits | Ms2DependencyGraph/Ms2DependencyGraph/ParserUtils.h:109-113 | `atoi` of a minus sign and a digit run is the negated value |
| Decimal.AtoiOfIntToString | Ms2DependencyGraph/Ms2DependencyGraph/XmlData.cpp:10 | round trip: `atoi` of a printed integer followed by a non-digit gives back the integer |
| Decimal.IntToStringInjective | Ms2DependencyGraph/Ms2DependencyGraph/XmlData.cpp:10 | two integers that print the same are equal |
| ParserUtils.OverriddenBy | Ms2DependencyGraph/Ms2DependencyGraph/ParserUtils.h:43-46 | an Override slot is replaced only by Override support; any other slot by anything |
| ParserUtils.ReadInt | Ms2DependencyGraph/Ms2DependencyGraph/ParserUtils.h:98-107 | scalar `readAttribute<int>`: the default when the attribute is missing, else its text's integer value (tinyxml2's `IntValue`, taken as `atoi`) |
| ParserUtils.ReadBool | Ms2DependencyGraph/Ms2DependencyGraph/ParserUtils.cpp:42-46 | scalar `readAttribute<bool>`: the default when missing, else whether the text's integer value is non-zero |
| ParserUtils.DigitRunEnd | Ms2DependencyGraph/Ms2DependencyGraph/ParserUtils.h:146-147 | the end of the digit run from a position: everything skipped is a digit and the run stops at a non-digit or the end |
| ParserUtils.SeparatorRunEnd | Ms2DependencyGraph/Ms2DependencyGraph/ParserUtils.h:149-150 | the end of the separator run: everything skipped is a non-digit and the run stops at a digit or the end |
| ParserUtils.ListAttribute | Ms2DependencyGraph/Ms2DependencyGraph/ParserUtils.h:127-152 | the list `readAttribute` appends: empty for a missing or empty attribute, else the integer list of its text |
| ParserUtils.IntList | Ms2DependencyGraph/Ms2DependencyGraph/ParserUtils.h:140-151 | the values the list loop pushes: `atoi` at the start, then after each digit run and the separator run that follows it (definition; `IntListOfWrittenList` and `IntListOfJoined` state what it reads back) |
| ParserUtils.ReadIntList | Ms2DependencyGraph/Ms2DependencyGraph/ParserUtils.h:127-152 | the reader's loop appends exactly the attribute's list to the caller's vector |
| ParserUtils.SkipDigits | Ms2DependencyGraph/Ms2DependencyGraph/ParserUtils.h:146-147 | the inner skip loop stops at the end of the digit run |
| ParserUtils.SkipSeparators | Ms2DependencyGraph/Ms2DependencyGraph/ParserUtils.h:149-150 | the second skip loop stops at the end of the separator run |
| ParserUtils.ReadFreshIntList | Ms2DependencyGraph/Ms2DependencyGraph/ParserUtils.h:127-152 | reading into a fresh vector yields exactly the attribute's list |
| ParserUtils.IntListFromLength | Ms2DependencyGraph/Ms2DependencyGraph/ParserUtils.h:142-151 | the reader appends at most one value per remaining character, so it terminates |
| ParserUtils.IntListOfJoined | Ms2DependencyGraph/Ms2DependencyGraph/ParserUtils.h:140-151 | numerals joined by any non-empty digit-free separator read back as their values |
| ParserUtils.IntListOfWrittenList | Ms2DependencyGraph/Ms2DependencyGraph/ParserUtils.h:140-151 | round trip: a list of natural numbers printed in decimal and joined by a separator reads back as the same list |
| ParserUtils.LeadingSeparatorReadsZero | Ms2DependencyGraph/Ms2DependencyGraph/ParserUtils.h:142-150 | a list starting with a separator reads an extra 0 first, because `atoi` of the separator is 0 |
| ParserUtils.MinusSignReadsTwice | Ms2DependencyGraph/Ms2DependencyGraph/ParserUtils.h:142-150 | "-d" reads as the negative value and then, after skipping the sign, the positive value |
| ParserUtils.OneSeparatorThenNumber | Ms2DependencyGraph/Ms2DependencyGraph/ParserUtils.h:142-150 | a single leading non-digit followed by a number reads two values: `atoi` of the whole text, then the number |
| FeatureGate.FeatureIsActive | Ms2DependencyGraph/Ms2DependencyGraph/ParserUtils.cpp:96-104 | an empty feature is 1, a known feature its table level, an unknown one -1 |
| FeatureGate.MatchesLocale | Ms2DependencyGraph/Ms2DependencyGraph/ParserUtils.cpp:106-112 | Default exactly for an empty locale; Override exactly for the requested locale; None for any other |
| FeatureGate.LevelOfCode | Ms2DependencyGraph/Ms2DependencyGraph/ParserUtils.cpp:127 | the integer support passed to `OverriddenBy` counts as Override exactly when it is 2 |
| FeatureGate.AttributeOrEmpty | Ms2DependencyGraph/Ms2DependencyGraph/ParserUtils.cpp:116-125 | the attribute's text, or "" when it is missing |
| FeatureGate.NodeFeatureCode | Ms2DependencyGraph/Ms2DependencyGraph/ParserUtils.cpp:116-125 | -1 for a node without a feature attribute, else the feature's support |
| FeatureGate.FeatureIsActiveNode | Ms2DependencyGraph/Ms2DependencyGraph/ParserUtils.cpp:114-131 | the new feature slot: when the old slot may be replaced, the node's feature at Default with its support as version; otherwise the None slot; never Override |
| FeatureGate.MatchesLocaleNode | Ms2DependencyGraph/Ms2DependencyGraph/ParserUtils.cpp:133-150 | the new locale slot: Override only for the requested locale; an Override slot turns None on any other locale; otherwise the node's locale support |
| FeatureGate.IsNodeEnabled | Ms2DependencyGraph/Ms2DependencyGraph/ParserUtils.cpp:152-173 | a rejected node leaves both slots; an accepted one writes both; accepted exactly when the feature is known, not version 99 and not older than the slot, and the locale is not None |
| FeatureGate.GateAllKeepsVersion | Ms2DependencyGraph/Ms2DependencyGraph/ParserUtils.cpp:152-173 | over a sequence of gates on the same slots, the feature version never decreases and never becomes Override |
| FeatureGate.LocaleOverrideSticks | Ms2DependencyGraph/Ms2DependencyGraph/ParserUtils.cpp:146-149 | once a locale slot is Override it stays Override, and a later node with another locale is rejected |
| FeatureGate.RowCeiling | Ms2DependencyGraph/Ms2DependencyGraph/ParserUtils.cpp:202-205 | a setting row's level for the locale, or -1 when the row has no such attribute |
| FeatureGate.Ceiling | Ms2DependencyGraph/Ms2DependencyGraph/ParserUtils.cpp:186-209 | -1 when no setting row has the environment's type |
| FeatureGate.CeilingIsFirstEnvRow | Ms2DependencyGraph/Ms2DependencyGraph/ParserUtils.cpp:195-208 | the ceiling is read from the first row of the environment's type and no other |
| FeatureGate.AddFeature | Ms2DependencyGraph/Ms2DependencyGraph/ParserUtils.cpp:220-236 | a feature row with the locale level and a name, at or below the ceiling, sets that name's level; any other row changes nothing |
| FeatureGate.AdmitsNameSnoc | Ms2DependencyGraph/Ms2DependencyGraph/ParserUtils.cpp:220-236 | a name is admitted by a list of rows exactly when an earlier row admits it or the last row does |
| FeatureGate.AddFeaturesKeys | Ms2DependencyGraph/Ms2DependencyGraph/ParserUtils.cpp:220-236 | after the feature loop, a name is in the table exactly when it was before or some row admits it |
| FeatureGate.AddFeaturesBelowCeiling | Ms2DependencyGraph/Ms2DependencyGraph/ParserUtils.cpp:234-235 | every level in the table stays at or below the ceiling |
| FeatureGate.LoadFeatures | Ms2DependencyGraph/Ms2DependencyGraph/ParserUtils.cpp:175-239 | succeeds exactly when both files exist and a ceiling was found; on success the table is the feature fold, otherwise unchanged |
| XmlData.CodeOf | Ms2DependencyGraph/Ms2DependencyGraph/XmlData.h:11-17 | the enumerator values: Effect 0, Skill 1, EffectCategory 2 |
| XmlData.TypeOfCode | Ms2DependencyGraph/Ms2DependencyGraph/XmlParsing.cpp:81 | the cast `(ReferenceType)int`: 0, 1 and 2 are exactly Effect, Skill and EffectCategory |
| XmlData.TypeCodeRoundTrip | Ms2DependencyGraph/Ms2DependencyGraph/XmlParsing.cpp:81 | the cast and the code are inverse in both directions |
| XmlData.LeastKey | Ms2DependencyGraph/Ms2DependencyGraph/GraphPrinting.cpp:73 | `Levels.begin()` as the least key: a key no greater than any other |
| XmlData.BeginLevel | Ms2DependencyGraph/Ms2DependencyGraph/GraphPrinting.cpp:73 | `Levels.begin()->second` of a non-empty level table is one of its levels, the one with the least level number |
| XmlData.ReferenceName | Ms2DependencyGraph/Ms2DependencyGraph/XmlData.cpp:3-16 | `operator<<`: the DOT identifier of a reference (definition; `ReferenceNameShape` and `ReferenceNameInjective` state its shape and injectivity) |
| XmlData.ReferenceNameShape | Ms2DependencyGraph/Ms2DependencyGraph/XmlData.cpp:3-16 | a node name is "skill_" or "effect_", then the id, then a level suffix exactly when the level is not -1 |
| XmlData.ReferenceNameInjective | Ms2DependencyGraph/Ms2DependencyGraph/XmlData.cpp:3-16 | two references print the same node name exactly when they agree on skill-or-not, id and level |
| Conditions.TargetOf | Ms2DependencyGraph/Ms2DependencyGraph/XmlParsing.cpp:19-25 | as written: owner and target become Caster, caster becomes Target |
| Conditions.ScalarReference | Ms2DependencyGraph/Ms2DependencyGraph/XmlParsing.cpp:27-53 | a zero id adds nothing; a non-zero id adds one reference |
| Conditions.EventReferences | Ms2DependencyGraph/Ms2DependencyGraph/XmlParsing.cpp:55-60 | one RequireEvent reference per listed event id |
| Conditions.AppendEvents | Ms2DependencyGraph/Ms2DependencyGraph/XmlParsing.cpp:59-60 | the event loop appends exactly the event references |
| Conditions.AppendLeadingScalars | Ms2DependencyGraph/Ms2DependencyGraph/XmlParsing.cpp:27-53 | the four scalar tests append exactly the scalar references |
| Conditions.AppendSide | Ms2DependencyGraph/Ms2DependencyGraph/XmlParsing.cpp:14-72 | one owner/target/caster child appends exactly its references |
| Conditions.ParseBeginCondition | Ms2DependencyGraph/Ms2DependencyGraph/XmlParsing.cpp:10-77 | appends the references of all children in document order to the condition's list |
| Conditions.EventReferencesShape | Ms2DependencyGraph/Ms2DependencyGraph/XmlParsing.cpp:59-72 | every event reference has the list's kind and side, condition RequireEvent and level 0 |
| Conditions.LeadingScalarsShape | Ms2DependencyGraph/Ms2DependencyGraph/XmlParsing.cpp:27-53 | scalar references have the child's side, are not RequireEvent, and never have id 0 |
| Conditions.SideReferencesShape | Ms2DependencyGraph/Ms2DependencyGraph/XmlParsing.cpp:19-72 | every reference of a child has the child's side; the non-event ones have non-zero ids |
| Conditions.ConditionTargets | Ms2DependencyGraph/Ms2DependencyGraph/XmlParsing.cpp:19-25 | no reference of a begin condition targets Owner |
| Conditions.ScalarIdsNonZero | Ms2DependencyGraph/Ms2DependencyGraph/XmlParsing.cpp:27-65 | only event references can have id 0 |
| Conditions.EventIdsOfEvents | Ms2DependencyGraph/Ms2DependencyGraph/XmlParsing.cpp:55-72 | the event references give back the listed ids in order |
| Conditions.SideEventIds | Ms2DependencyGraph/Ms2DependencyGraph/XmlParsing.cpp:55-72 | the event ids of a child are its skill-event list followed by its effect-event list |
| Conditions.OtherChildrenIgnored | Ms2DependencyGraph/Ms2DependencyGraph/XmlParsing.cpp:16-17 | children not named owner, target or caster contribute nothing |
| Conditions.RandomCastsOf | Ms2DependencyGraph/Ms2DependencyGraph/XmlParsing.cpp:91-92 | one random cast per listed id |
| Conditions.RandomCastsOfIds | Ms2DependencyGraph/Ms2DependencyGraph/XmlParsing.cpp:91-92 | the i-th random cast is the Effect reference to the i-th id at level 0 |
| Conditions.ConditionSkillOf | Ms2DependencyGraph/Ms2DependencyGraph/XmlParsing.cpp:79-96 | the reference is cast from splash, skillID and level; random casts are appended only when randomCast is set; the first child's condition references are appended |
| Conditions.ParseConditionSkill | Ms2DependencyGraph/Ms2DependencyGraph/XmlParsing.cpp:79-96 | the routine computes exactly that record |
| Conditions.RandomCastsAreEffects | Ms2DependencyGraph/Ms2DependencyGraph/XmlParsing.cpp:91-92 | random casts stay Effect references at level 0, even when the skill id is a skill |
| EffectLists.ListedEffects | Ms2DependencyGraph/Ms2DependencyGraph/XmlParsing.cpp:659-661 | never more references than ids |
| EffectLists.AppendListedEffects | Ms2DependencyGraph/Ms2DependencyGraph/XmlParsing.cpp:653-661 | the id/level loop appends exactly the listed effects |
| EffectLists.ListedEffectsShape | Ms2DependencyGraph/Ms2DependencyGraph/XmlParsing.cpp:764-772 | one reference per non-zero id, each an Effect with non-zero id, and every non-zero id appears with the level at its position |
| EffectParsing.CodeModifications | Ms2DependencyGraph/Ms2DependencyGraph/XmlParsing.cpp:170-171 | one modification per listed code |
| EffectParsing.StackModifications | Ms2DependencyGraph/Ms2DependencyGraph/XmlParsing.cpp:158-159 | one stack modification per effect code |
| EffectParsing.AppendCodes | Ms2DependencyGraph/Ms2DependencyGraph/XmlParsing.cpp:170-171 | the code loop appends exactly the code modifications |
| EffectParsing.AppendStacks | Ms2DependencyGraph/Ms2DependencyGraph/XmlParsing.cpp:158-159 | the stack loop appends exactly the stack modifications |
| EffectParsing.ParseEffectProperty | Ms2DependencyGraph/Ms2DependencyGraph/XmlParsing.cpp:130-225 | one property element updates the level exactly as the specification's property step |
| EffectParsing.ParseEffectProperties | Ms2DependencyGraph/Ms2DependencyGraph/XmlParsing.cpp:130-225 | the property loop computes the property fold |
| EffectParsing.ParseEffectLevel | Ms2DependencyGraph/Ms2DependencyGraph/XmlParsing.cpp:118-225 | one level element: skipped without BasicProperty, the level record created, then gated on its own slots and filled |
| EffectParsing.ParseEffectLevels | Ms2DependencyGraph/Ms2DependencyGraph/XmlParsing.cpp:116-226 | the level loop computes the level fold |
| EffectParsing.EffectFileOf | Ms2DependencyGraph/Ms2DependencyGraph/XmlParsing.cpp:98-227 | the store after one effect file: the record for the file id is inserted, and the level fold runs only when the root passes the gate with fresh slots (`ParseAdditionalEffect` computes it; `EffectFileFrame` states its frame) |
| EffectParsing.ParseAdditionalEffect | Ms2DependencyGraph/Ms2DependencyGraph/XmlParsing.cpp:98-227 | the effect file yields exactly the specified store |
| EffectParsing.CodeModificationsEntries | Ms2DependencyGraph/Ms2DependencyGraph/XmlParsing.cpp:170-171 | the i-th modification names the i-th code, level 0, offset 0 |
| EffectParsing.StackModificationsEntries | Ms2DependencyGraph/Ms2DependencyGraph/XmlParsing.cpp:158-159 | the i-th stack modification has the i-th offset, or 0 when no offsets are listed |
| EffectParsing.ResetCooldownTargetsSkills | Ms2DependencyGraph/Ms2DependencyGraph/XmlParsing.cpp:176-186 | a cooldown reset yields one Skill ResetCooldown reference per skill code |
| EffectParsing.ImmuneEffectsFirst | Ms2DependencyGraph/Ms2DependencyGraph/XmlParsing.cpp:188-205 | immunity lists the effect codes first, then the buff categories as EffectCategory |
| EffectParsing.CancelEffectsFirst | Ms2DependencyGraph/Ms2DependencyGraph/XmlParsing.cpp:207-224 | cancellation lists the effect codes first, then the buff categories |
| EffectParsing.ApplyPropertiesKeeps | Ms2DependencyGraph/Ms2DependencyGraph/XmlParsing.cpp:130-225 | properties never touch name, description or slots, and only append triggers, condition references and modifications |
| EffectParsing.ApplyPropertyKeeps | Ms2DependencyGraph/Ms2DependencyGraph/XmlParsing.cpp:130-225 | the same for a single property |
| EffectParsing.ApplyLevelsKeys | Ms2DependencyGraph/Ms2DependencyGraph/XmlParsing.cpp:116-128 | the levels after the loop are the old ones plus those named by a BasicProperty, even when the gate rejects the level; no other level changes |
| EffectParsing.ApplyLevelKeys | Ms2DependencyGraph/Ms2DependencyGraph/XmlParsing.cpp:118-128 | the same for one level element |
| EffectParsing.EffectFileFrame | Ms2DependencyGraph/Ms2DependencyGraph/XmlParsing.cpp:100-114 | the file's effect record exists afterwards even when the root gate rejects the file; no other table or record changes |
| SkillParsing.ComboOf | Ms2DependencyGraph/Ms2DependencyGraph/XmlParsing.cpp:311-320 | the combo's origin, input and output are Skill references at level 0 |
| SkillParsing.ParseChangeSkill | Ms2DependencyGraph/Ms2DependencyGraph/XmlParsing.cpp:277-309 | a change-skill element yields the specified reference: the last listed checked effect and changed skill, and the origin |
| SkillParsing.ParseAttack | Ms2DependencyGraph/Ms2DependencyGraph/XmlParsing.cpp:346-356 | an attack collects the condition skills among its children, in order |
| SkillParsing.ParseMotion | Ms2DependencyGraph/Ms2DependencyGraph/XmlParsing.cpp:335-357 | a motion collects one attack per `attack` child, in order |
| SkillParsing.ParseSkillProperty | Ms2DependencyGraph/Ms2DependencyGraph/XmlParsing.cpp:266-361 | one property element updates the level exactly as the property step |
| SkillParsing.ParseSkillChild | Ms2DependencyGraph/Ms2DependencyGraph/XmlParsing.cpp:247-362 | one child: `basic` gates the skill's slots, `level` selects (creating) and fills a level, others are ignored |
| SkillParsing.ParseSkillChildren | Ms2DependencyGraph/Ms2DependencyGraph/XmlParsing.cpp:247-362 | the child loop computes the child fold |
| SkillParsing.SkillFileOf | Ms2DependencyGraph/Ms2DependencyGraph/XmlParsing.cpp:229-363 | the store after one skill file: the record is inserted, and the child fold runs only when the root passes the gate (`ParseSkill` computes it; `SkillFileFrame` states its frame) |
| SkillParsing.ParseSkill | Ms2DependencyGraph/Ms2DependencyGraph/XmlParsing.cpp:229-363 | the skill file yields exactly the specified store |
| SkillParsing.MotionCounts | Ms2DependencyGraph/Ms2DependencyGraph/XmlParsing.cpp:335-356 | a motion has one attack per `attack` child and an attack one trigger per `conditionSkill` child |
| SkillParsing.ApplySkillPropertiesKeeps | Ms2DependencyGraph/Ms2DependencyGraph/XmlParsing.cpp:266-361 | properties never touch description or slots and only append condition references, change skills, passives and motions |
| SkillParsing.ApplySkillPropertyKeeps | Ms2DependencyGraph/Ms2DependencyGraph/XmlParsing.cpp:266-361 | the same for one property |
| SkillParsing.ApplySkillPropertiesCounts | Ms2DependencyGraph/Ms2DependencyGraph/XmlParsing.cpp:277-327 | one change skill per `changeSkill`, one passive per `conditionSkill`, one motion per `motion` property |
| SkillParsing.ApplySkillChildrenLevels | Ms2DependencyGraph/Ms2DependencyGraph/XmlParsing.cpp:251-264 | the levels afterwards are the old ones plus those the `level` children name; others unchanged; the feature version never decreases |
| SkillParsing.SkillFileFrame | Ms2DependencyGraph/Ms2DependencyGraph/XmlParsing.cpp:231-245 | the skill record exists afterwards even when the root gate rejects the file; nothing else changes |
| StringParsing.DescribeSkillKey | Ms2DependencyGraph/Ms2DependencyGraph/XmlParsing.cpp:397-418 | one key sets the description of an existing level of an existing skill, when given |
| StringParsing.AnnotateSkillDescriptions | Ms2DependencyGraph/Ms2DependencyGraph/XmlParsing.cpp:389-419 | the description loop computes the description fold |
| StringParsing.NameSkillKey | Ms2DependencyGraph/Ms2DependencyGraph/XmlParsing.cpp:446-460 | one key sets the name of an existing skill, when given |
| StringParsing.AnnotateSkillNames | Ms2DependencyGraph/Ms2DependencyGraph/XmlParsing.cpp:438-461 | the name loop computes the name fold |
| StringParsing.DescribeEffectKey | Ms2DependencyGraph/Ms2DependencyGraph/XmlParsing.cpp:488-514 | one key sets the name and the description of an existing effect level, each when given |
| StringParsing.AnnotateEffectDescriptions | Ms2DependencyGraph/Ms2DependencyGraph/XmlParsing.cpp:480-515 | the effect-text loop computes its fold |
| StringParsing.StringsFileOf | Ms2DependencyGraph/Ms2DependencyGraph/XmlParsing.cpp:365-519 | the store after one string file: the kind chosen by file-name prefix, and that kind's key fold run when the root passes the gate (`ParseStrings` computes it; `StringsOnlyAnnotate` states what it may change) |
| StringParsing.ParseStrings | Ms2DependencyGraph/Ms2DependencyGraph/XmlParsing.cpp:365-519 | a string file yields exactly the specified store: its kind is chosen by file-name prefix, and only that kind's loop runs, when the root gate passes |
| StringParsing.DescribeSkillsOnlyDescribes | Ms2DependencyGraph/Ms2DependencyGraph/XmlParsing.cpp:389-419 | the description loop creates no skill or level and changes only descriptions |
| StringParsing.DescribeSkillStep | Ms2DependencyGraph/Ms2DependencyGraph/XmlParsing.cpp:397-418 | one description key keeps the only-descriptions-differ relation |
| StringParsing.NameSkillsOnlyNames | Ms2DependencyGraph/Ms2DependencyGraph/XmlParsing.cpp:438-461 | the name loop creates nothing and changes only skill names |
| StringParsing.DescribeEffectsOnlyTexts | Ms2DependencyGraph/Ms2DependencyGraph/XmlParsing.cpp:480-515 | the effect-text loop creates nothing and changes only level names and descriptions |
| StringParsing.DescribeEffectStep | Ms2DependencyGraph/Ms2DependencyGraph/XmlParsing.cpp:488-514 | one effect key keeps that relation |
| StringParsing.StringsOnlyAnnotate | Ms2DependencyGraph/Ms2DependencyGraph/XmlParsing.cpp:365-519 | a string file never creates a record and changes only texts; jobs, set bonuses and items are untouched |
| JobParsing.SubSkills | Ms2DependencyGraph/Ms2DependencyGraph/XmlParsing.cpp:575-576 | one sub-skill reference per listed id |
| JobParsing.JobSkills | Ms2DependencyGraph/Ms2DependencyGraph/XmlParsing.cpp:561-577 | one job skill per child of `skills`, whatever its name |
| JobParsing.ParseJobSkill | Ms2DependencyGraph/Ms2DependencyGraph/XmlParsing.cpp:563-576 | one job skill: its main skill and its sub-skill list |
| JobParsing.ParseJobSkillList | Ms2DependencyGraph/Ms2DependencyGraph/XmlParsing.cpp:561-577 | the skill loop computes the job-skill list |
| JobParsing.ParseJob | Ms2DependencyGraph/Ms2DependencyGraph/XmlParsing.cpp:537-577 | one job element: fresh gate, code None skipped, then the record step |
| JobParsing.ParseJobRecord | Ms2DependencyGraph/Ms2DependencyGraph/XmlParsing.cpp:548-577 | the record is created, gated on its own slots, and on acceptance gets its code and a rebuilt skill list |
| JobParsing.ParseJobList | Ms2DependencyGraph/Ms2DependencyGraph/XmlParsing.cpp:535-578 | the job loop computes the job fold |
| JobParsing.JobsFileOf | Ms2DependencyGraph/Ms2DependencyGraph/XmlParsing.cpp:521-579 | the store after the job file: the job fold when the root passes the gate, else unchanged (`ParseJobs` computes it; `ApplyJobsKeys` states its keys) |
| JobParsing.ParseJobs | Ms2DependencyGraph/Ms2DependencyGraph/XmlParsing.cpp:521-579 | the job file yields exactly the specified store |
| JobParsing.JobSkillsEntries | Ms2DependencyGraph/Ms2DependencyGraph/XmlParsing.cpp:561-577 | the i-th job skill comes from the i-th child |
| JobParsing.SubSkillsEntries | Ms2DependencyGraph/Ms2DependencyGraph/XmlParsing.cpp:575-576 | the i-th sub skill is the Skill reference to the i-th id at level 0 |
| JobParsing.ApplyJobsKeys | Ms2DependencyGraph/Ms2DependencyGraph/XmlParsing.cpp:535-578 | the job loop removes no job, never creates code None, and every record's code agrees with its key |
| JobParsing.ApplyJobKeys | Ms2DependencyGraph/Ms2DependencyGraph/XmlParsing.cpp:537-577 | the same for one job element |
| JobParsing.AcceptedJobRebuildsSkills | Ms2DependencyGraph/Ms2DependencyGraph/XmlParsing.cpp:550-577 | an accepted job element sets the code and replaces the skill list, with one entry per child of `skills` or none |
| JobParsing.TruncatingDivideByTen | Ms2DependencyGraph/Ms2DependencyGraph/XmlParsing.cpp:604 | C's `/ 10` truncates toward zero: the remainder has the sign of the id |
| JobParsing.AwakeningIffNotMultipleOfTen | Ms2DependencyGraph/Ms2DependencyGraph/XmlParsing.cpp:603-609 | a name id is an awakening name exactly when it is not a multiple of ten, negative ids included |
| JobParsing.NameJobKey | Ms2DependencyGraph/Ms2DependencyGraph/XmlParsing.cpp:597-624 | one key: fresh gate, the job named by id/10 must exist and a name be given; sets the awakened name or the name |
| JobParsing.NameJobList | Ms2DependencyGraph/Ms2DependencyGraph/XmlParsing.cpp:595-625 | the name loop computes the name fold |
| JobParsing.JobStringsFileOf | Ms2DependencyGraph/Ms2DependencyGraph/XmlParsing.cpp:581-626 | the store after the job-name file: the name fold when the root passes the gate, else unchanged (`ParseJobStrings` computes it; `NameJobsOnlyNames` states what it may change) |
| JobParsing.ParseJobStrings | Ms2DependencyGraph/Ms2DependencyGraph/XmlParsing.cpp:581-626 | the job-name file yields exactly the specified store |
| JobParsing.NameJobsOnlyNames | Ms2DependencyGraph/Ms2DependencyGraph/XmlParsing.cpp:595-625 | job names never create a job and change only the two names |
| JobParsing.NameJobOnlyNames | Ms2DependencyGraph/Ms2DependencyGraph/XmlParsing.cpp:597-624 | the same for one key |
| SetBonusParsing.PartsOf | Ms2DependencyGraph/Ms2DependencyGraph/XmlParsing.cpp:645-662 | one part per child of an option |
| SetBonusParsing.ParsePart | Ms2DependencyGraph/Ms2DependencyGraph/XmlParsing.cpp:647-661 | a part: its count and its listed effects |
| SetBonusParsing.ParsePartList | Ms2DependencyGraph/Ms2DependencyGraph/XmlParsing.cpp:645-662 | the part loop appends exactly the parts |
| SetBonusParsing.ParseOption | Ms2DependencyGraph/Ms2DependencyGraph/XmlParsing.cpp:638-662 | id 0 is skipped; otherwise the option is created if needed and its parts appended |
| SetBonusParsing.ParseOptionList | Ms2DependencyGraph/Ms2DependencyGraph/XmlParsing.cpp:636-663 | the option loop computes the option fold |
| SetBonusParsing.SetBonusOptionsFileOf | Ms2DependencyGraph/Ms2DependencyGraph/XmlParsing.cpp:628-664 | the store after the option file: the option fold, with no gate (`ParseSetBonusOptions` computes it; `ApplyOptionsKeys` states its keys) |
| SetBonusParsing.ParseSetBonusOptions | Ms2DependencyGraph/Ms2DependencyGraph/XmlParsing.cpp:628-664 | the option file yields exactly the specified store, with no gate |
| SetBonusParsing.ApplyOptionsKeys | Ms2DependencyGraph/Ms2DependencyGraph/XmlParsing.cpp:636-663 | the options afterwards are the old ones plus the non-zero listed ids; old parts are kept as a prefix |
| SetBonusParsing.ApplyOptionKeys | Ms2DependencyGraph/Ms2DependencyGraph/XmlParsing.cpp:638-662 | the same for one option element |
| SetBonusParsing.PartsOfEntries | Ms2DependencyGraph/Ms2DependencyGraph/XmlParsing.cpp:645-662 | the j-th part comes from the j-th child |
| SetBonusParsing.ParseSet | Ms2DependencyGraph/Ms2DependencyGraph/XmlParsing.cpp:676-702 | one set element: fresh gate; a zero id, zero option or unknown option is skipped; then the record step |
| SetBonusParsing.ParseSetRecord | Ms2DependencyGraph/Ms2DependencyGraph/XmlParsing.cpp:693-701 | the record is created and gated on its own slots; on acceptance it points at its option and appends the item ids |
| SetBonusParsing.ParseSetList | Ms2DependencyGraph/Ms2DependencyGraph/XmlParsing.cpp:674-702 | the set loop computes the set fold |
| SetBonusParsing.SetBonusesFileOf | Ms2DependencyGraph/Ms2DependencyGraph/XmlParsing.cpp:666-703 | the store after the set file: the set fold when the root passes the gate (`ParseSetBonuses` computes it; `ApplySetsKeys` states its keys) |
| SetBonusParsing.ParseSetBonuses | Ms2DependencyGraph/Ms2DependencyGraph/XmlParsing.cpp:666-703 | the set file yields exactly the specified store |
| SetBonusParsing.ApplySetsKeys | Ms2DependencyGraph/Ms2DependencyGraph/XmlParsing.cpp:674-702 | no set is removed, set 0 is never created, every option a set points at exists, item lists only grow |
| SetBonusParsing.ApplySetKeys | Ms2DependencyGraph/Ms2DependencyGraph/XmlParsing.cpp:676-702 | the same for one set element |
| SetBonusParsing.GateSetKeys | Ms2DependencyGraph/Ms2DependencyGraph/XmlParsing.cpp:693-701 | the same for the record step of a non-zero set with an existing option |
| SetBonusParsing.ApplySetsLinked | Ms2DependencyGraph/Ms2DependencyGraph/XmlParsing.cpp:676-701 | the set loop leaves no set without its option: a record it inserts is re-gated with the fresh slots that already passed, so it is always accepted and pointed at its option |
| SetBonusParsing.SetBonusesFileResolves | Ms2DependencyGraph/Ms2DependencyGraph/XmlParsing.cpp:666-703 | after the set-bonus file every set points at an option that exists in the option table |
| SetBonusParsing.NameSetKey | Ms2DependencyGraph/Ms2DependencyGraph/XmlParsing.cpp:715-732 | one key: the set must exist and pass the gate on its slots (which are written); its name is set when given |
| SetBonusParsing.NameSetList | Ms2DependencyGraph/Ms2DependencyGraph/XmlParsing.cpp:713-733 | the name loop computes the name fold |
| SetBonusParsing.SetBonusStringsFileOf | Ms2DependencyGraph/Ms2DependencyGraph/XmlParsing.cpp:705-734 | the store after the set-name file: the name fold (`ParseSetBonusStrings` computes it; `NameSetsOnlyNames` states what it may change) |
| SetBonusParsing.ParseSetBonusStrings | Ms2DependencyGraph/Ms2DependencyGraph/XmlParsing.cpp:705-734 | the set-name file yields exactly the specified store |
| SetBonusParsing.NameSetsOnlyNames | Ms2DependencyGraph/Ms2DependencyGraph/XmlParsing.cpp:713-733 | set names create no set and change only the name and the two slots |
| SetBonusParsing.NameSetOnlyNames | Ms2DependencyGraph/Ms2DependencyGraph/XmlParsing.cpp:715-732 | the same for one key |
| ItemParsing.ParseEnvironment | Ms2DependencyGraph/Ms2DependencyGraph/XmlParsing.cpp:750-772 | one environment: gated on the item's slots; on acceptance, appends the effects of its first AdditionalEffect child |
| ItemParsing.ParseEnvironmentList | Ms2DependencyGraph/Ms2DependencyGraph/XmlParsing.cpp:748-773 | the environment loop computes the environment fold |
| ItemParsing.ItemFileOf | Ms2DependencyGraph/Ms2DependencyGraph/XmlParsing.cpp:736-774 | the store after one item file: the record inserted, then the environment fold (`ParseItems` computes it; `ItemFileFrame` states its frame) |
| ItemParsing.ParseItems | Ms2DependencyGraph/Ms2DependencyGraph/XmlParsing.cpp:736-774 | the item file yields exactly the specified store |
| ItemParsing.ApplyEnvironmentsAppends | Ms2DependencyGraph/Ms2DependencyGraph/XmlParsing.cpp:748-773 | environments only append Effect references with non-zero ids and never touch name or class |
| ItemParsing.ApplyEnvironmentAppends | Ms2DependencyGraph/Ms2DependencyGraph/XmlParsing.cpp:750-772 | the same for one environment |
| ItemParsing.ItemFileFrame | Ms2DependencyGraph/Ms2DependencyGraph/XmlParsing.cpp:738-740 | the item record exists afterwards whatever the gates decide; no other record or table changes |
| ItemParsing.NameItemKey | Ms2DependencyGraph/Ms2DependencyGraph/XmlParsing.cpp:786-813 | one key: id 0 and unknown items are skipped, then the gate on the item's slots, then name and class |
| ItemParsing.NameItemList | Ms2DependencyGraph/Ms2DependencyGraph/XmlParsing.cpp:784-814 | the name loop computes the name fold |
| ItemParsing.ItemStringsFileOf | Ms2DependencyGraph/Ms2DependencyGraph/XmlParsing.cpp:776-815 | the store after the item-name file: the name fold (`ParseItemStrings` computes it; `NameItemsOnlyNames` states what it may change) |
| ItemParsing.ParseItemStrings | Ms2DependencyGraph/Ms2DependencyGraph/XmlParsing.cpp:776-815 | the item-name file yields exactly the specified store |
| ItemParsing.NameItemsOnlyNames | Ms2DependencyGraph/Ms2DependencyGraph/XmlParsing.cpp:784-814 | item names create no item, never touch item 0, and never change effect lists |
| ItemParsing.NameItemOnlyNames | Ms2DependencyGraph/Ms2DependencyGraph/XmlParsing.cpp:786-813 | the same for one key |
| ItemParsing.ClassNeedsName | Ms2DependencyGraph/Ms2DependencyGraph/XmlParsing.cpp:801-813 | a key without a name changes neither name nor class, even when it has a class |
| Desanitizing.LastAmpersand | Ms2DependencyGraph/Ms2DependencyGraph/XmlParsing.cpp:825-829 | the entity start is -1 or a position in the text |
| Desanitizing.LastAmpersandIsLast | Ms2DependencyGraph/Ms2DependencyGraph/XmlParsing.cpp:825-829 | the entity start is an `&` with no `&` after it |
| Desanitizing.StrncmpIsPrefixTest | Ms2DependencyGraph/Ms2DependencyGraph/XmlParsing.cpp:835 | `strncmp` with at most six characters succeeds exactly when the entity text is a prefix of "&apos" |
| Desanitizing.ScanStep | Ms2DependencyGraph/Ms2DependencyGraph/XmlParsing.cpp:823-838 | one character of the counting loop keeps the scan state and adds one exactly when it closes an apostrophe entity |
| Desanitizing.Desanitize | Ms2DependencyGraph/Ms2DependencyGraph/XmlParsing.cpp:817-841 | the name comes back unchanged exactly when it holds no apostrophe entity |
| Desanitizing.EntityBodyCountsNothing | Ms2DependencyGraph/Ms2DependencyGraph/XmlParsing.cpp:823-838 | inside an entity nothing is counted and the start stays at its `&` |
| Desanitizing.EntityCounted | Ms2DependencyGraph/Ms2DependencyGraph/XmlParsing.cpp:831-837 | an appended entity counts once exactly when its text is a prefix of "&apos": "&apos;" counts, "&amp;" does not, nor does anything of six or more characters |
| Desanitizing.NoAmpersandNoApostrophe | Ms2DependencyGraph/Ms2DependencyGraph/XmlParsing.cpp:840-841 | a text without `&` counts nothing and is returned unchanged |
| GraphModel.Deref | Ms2DependencyGraph/Ms2DependencyGraph/GraphPrinting.cpp:7-29 | a known id changes nothing; a new id is queued at the end of its kind's queue and recorded with an empty list; nothing is drawn |
| GraphModel.DerefIdempotent | Ms2DependencyGraph/Ms2DependencyGraph/GraphPrinting.cpp:7-29 | dereferencing twice, or with any other level, is dereferencing once |
| GraphModel.PrintCasts | Ms2DependencyGraph/Ms2DependencyGraph/GraphPrinting.cpp:35-53 | every random cast is recorded and drawn as one edge, in order, duplicates included |
| GraphModel.Print | Ms2DependencyGraph/Ms2DependencyGraph/GraphPrinting.cpp:31-62 | random casts: all drawn; otherwise a target already linked with the same kind and id draws nothing, a new one is recorded and drawn once |
| GraphModel.PrintCastsValid | Ms2DependencyGraph/Ms2DependencyGraph/GraphPrinting.cpp:35-53 | random casts keep the queues matching the maps |
| GraphModel.PrintValid | Ms2DependencyGraph/Ms2DependencyGraph/GraphPrinting.cpp:31-62 | printing from a known caller keeps the queues matching the maps |
| GraphModel.PrintKnownValid | Ms2DependencyGraph/Ms2DependencyGraph/GraphPrinting.cpp:31-62 | the same, with the caller known as a precondition |
| GraphModel.PrintKeepsLinksDistinct | Ms2DependencyGraph/Ms2DependencyGraph/GraphPrinting.cpp:55-59 | without random casts, a caller's list never holds two targets with the same kind and id |
| GraphModel.RandomCastsNotDeduplicated | Ms2DependencyGraph/Ms2DependencyGraph/GraphPrinting.cpp:41-47 | a repeated random cast is recorded and drawn twice: the found flag is never used |
| GraphModel.PrintTriggers | Ms2DependencyGraph/Ms2DependencyGraph/GraphPrinting.cpp:165-168 | after any trigger the caller is known |
| GraphModel.PrintTriggersValid | Ms2DependencyGraph/Ms2DependencyGraph/GraphPrinting.cpp:165-168 | a trigger list keeps the queues matching and the caller known |
| GraphModel.PrintAttacksValid | Ms2DependencyGraph/Ms2DependencyGraph/GraphPrinting.cpp:174-182 | the same over the triggers of attacks |
| GraphModel.PrintMotionsValid | Ms2DependencyGraph/Ms2DependencyGraph/GraphPrinting.cpp:170-183 | the same over the attacks of motions |
| GraphModel.Valid | Ms2DependencyGraph/Ms2DependencyGraph/GraphPrinting.h:15-18 | the builder's invariant: each queue holds every id once and exactly the keys of its map |
| GraphModel.RejectedSkillFileLacksLevels | Ms2DependencyGraph/Ms2DependencyGraph/XmlParsing.cpp:233-245 | a skill file whose root the gate rejects leaves a new record with no level, so the graph builder's `LevelsPresent` precondition does not follow from ingestion |
| GraphModel.RejectedEffectFileLacksLevels | Ms2DependencyGraph/Ms2DependencyGraph/XmlParsing.cpp:102-114 | the same for an additional-effect file |
| GraphModel.SkillTargetsWithin | Ms2DependencyGraph/Ms2DependencyGraph/GraphPrinting.cpp:163-183 | the triggers a stored skill is drawn with only reach ids of the store's target set |
| GraphModel.EffectTargetsWithin | Ms2DependencyGraph/Ms2DependencyGraph/GraphPrinting.cpp:205-215 | the same for stored effects |
| GraphModel.StoreTargetsWithin | Ms2DependencyGraph/Ms2DependencyGraph/GraphPrinting.cpp:139-219 | the store's target set bounds everything the drain can dereference |
| GraphModel.DerefDraws | Ms2DependencyGraph/Ms2DependencyGraph/GraphPrinting.cpp:7-29 | dereferencing only appends to the queues and adds keys from the target set |
| GraphModel.DerefEdgeDraws | Ms2DependencyGraph/Ms2DependencyGraph/GraphPrinting.cpp:49 | a dereference followed by an edge only appends edges |
| GraphModel.PrintCastsDraws | Ms2DependencyGraph/Ms2DependencyGraph/GraphPrinting.cpp:35-53 | random casts only append edges and queue ids of the target set |
| GraphModel.PrintDraws | Ms2DependencyGraph/Ms2DependencyGraph/GraphPrinting.cpp:31-62 | `Print` only appends edges and queues ids of the target set |
| GraphModel.PrintTriggersDraws | Ms2DependencyGraph/Ms2DependencyGraph/GraphPrinting.cpp:165-168 | the same for a trigger list |
| GraphModel.PrintAttacksDraws | Ms2DependencyGraph/Ms2DependencyGraph/GraphPrinting.cpp:174-182 | the same for attacks |
| GraphModel.PrintMotionsDraws | Ms2DependencyGraph/Ms2DependencyGraph/GraphPrinting.cpp:170-183 | the same for motions |
| GraphModel.ProcessSkillDraws | Ms2DependencyGraph/Ms2DependencyGraph/GraphPrinting.cpp:141-186 | one skill round draws exactly one skill node when the skill is stored, none otherwise, and no effect node |
| GraphModel.ProcessEffectDraws | Ms2DependencyGraph/Ms2DependencyGraph/GraphPrinting.cpp:188-218 | one effect round draws exactly one effect node when the effect is stored, and no skill node |
| GraphModel.ProcessSkill | Ms2DependencyGraph/Ms2DependencyGraph/GraphPrinting.cpp:143-185 | one round of the skill loop: an id without a record is skipped; otherwise its node, then its passives and its attacks' triggers from its begin level (definition; `ProcessSkillDraws` states what it draws) |
| GraphModel.ProcessEffect | Ms2DependencyGraph/Ms2DependencyGraph/GraphPrinting.cpp:190-217 | one round of the effect loop: its node, then its begin level's triggers (definition; `ProcessEffectDraws` states what it draws) |
| GraphModel.QueuesWithinBudget | Ms2DependencyGraph/Ms2DependencyGraph/GraphPrinting.cpp:139-141 | the queues never outgrow the target set plus the known keys, which bounds the drain |
| GraphModel.PositionsWithinBudget | Ms2DependencyGraph/Ms2DependencyGraph/GraphPrinting.cpp:139-141 | the two read positions together stay within that bound |
| GraphModel.BudgetKept | Ms2DependencyGraph/Ms2DependencyGraph/GraphPrinting.cpp:139-219 | growing by ids of the target set does not change the bound |
| GraphModel.Drain | Ms2DependencyGraph/Ms2DependencyGraph/GraphPrinting.cpp:133-220 | the drain terminates and keeps the queues matching the maps |
| GraphModel.DrainAnyBound | Ms2DependencyGraph/Ms2DependencyGraph/GraphPrinting.cpp:133-220 | the drain's result does not depend on the bound used to prove it terminates |
| GraphModel.DrainPhase | Ms2DependencyGraph/Ms2DependencyGraph/GraphPrinting.cpp:139-141 | when one queue is exhausted, it does not matter which inner loop the drain is in |
| GraphModel.SkillPass | Ms2DependencyGraph/Ms2DependencyGraph/GraphPrinting.cpp:141-186 | the inner skill loop keeps the queues matching, only grows them, and exhausts the skill queue |
| GraphModel.EffectPass | Ms2DependencyGraph/Ms2DependencyGraph/GraphPrinting.cpp:188-218 | the inner effect loop keeps the queues matching, only grows them, and exhausts the effect queue |
| GraphModel.SkillPassDrain | Ms2DependencyGraph/Ms2DependencyGraph/GraphPrinting.cpp:141-186 | running the inner skill loop first does not change where the drain ends |
| GraphModel.EffectPassDrain | Ms2DependencyGraph/Ms2DependencyGraph/GraphPrinting.cpp:188-218 | the same for the inner effect loop |
| GraphModel.SkillRound | Ms2DependencyGraph/Ms2DependencyGraph/GraphPrinting.cpp:143-185 | one skill round keeps the queues matching and the bound, and draws that skill's node once when it is stored |
| GraphModel.EffectRound | Ms2DependencyGraph/Ms2DependencyGraph/GraphPrinting.cpp:190-217 | one effect round does the same for effects |
| GraphModel.DrainTrace | Ms2DependencyGraph/Ms2DependencyGraph/GraphPrinting.cpp:133-220 | from any position, the nodes drawn are the stored ids of the rest of each queue, in queue order |
| GraphModel.LinkedDrawsEachOnce | Ms2DependencyGraph/Ms2DependencyGraph/GraphPrinting.cpp:133-220 | `PrintLinked` draws one node for every queued id that has a record, in queue order, and no other node; the drawn ids are exactly the known ids with a record |
| GraphRoots.Link | Ms2DependencyGraph/Ms2DependencyGraph/GraphPrinting.cpp:75 | an edge to a target dereferences it and draws exactly that edge |
| GraphRoots.LinkKeeps | Ms2DependencyGraph/Ms2DependencyGraph/GraphPrinting.cpp:75 | an edge removes no key, changes no caller list and only appends |
| GraphRoots.LinkAllDraws | Ms2DependencyGraph/Ms2DependencyGraph/GraphPrinting.cpp:77-78 | one edge per target, in order, each target dereferenced |
| GraphRoots.LinkAll | Ms2DependencyGraph/Ms2DependencyGraph/GraphPrinting.cpp:77-78 | one dereferenced edge per target, in order (definition; `LinkAllDraws` states it) |
| GraphRoots.ComboLinks | Ms2DependencyGraph/Ms2DependencyGraph/GraphPrinting.cpp:89-111 | every stored skill's combo output, taken from its first level |
| GraphRoots.ComboWalkKeeps | Ms2DependencyGraph/Ms2DependencyGraph/GraphPrinting.cpp:80-112 | the combo walk only grows the state |
| GraphRoots.ComboWalk | Ms2DependencyGraph/Ms2DependencyGraph/GraphPrinting.cpp:80-112 | the combo loop with its visited list (definition; `ComboWalkChain` states what it draws) |
| GraphRoots.ComboWalkChain | Ms2DependencyGraph/Ms2DependencyGraph/GraphPrinting.cpp:80-112 | the walk draws a chain of green edges that follow combo links from the job skill between stored skills, and leaves no skill twice |
| GraphRoots.ChainThroughLink | Ms2DependencyGraph/Ms2DependencyGraph/GraphPrinting.cpp:105-111 | a green edge from an unvisited skill followed by a chain from its successor is a chain from that skill |
| GraphRoots.ChangeTargets | Ms2DependencyGraph/Ms2DependencyGraph/GraphPrinting.cpp:114-122 | change skills with id 0 are skipped |
| GraphRoots.ChangeTargetsMembers | Ms2DependencyGraph/Ms2DependencyGraph/GraphPrinting.cpp:114-122 | the red targets are exactly the change skills with non-zero id |
| GraphRoots.RootSkillDraws | Ms2DependencyGraph/Ms2DependencyGraph/GraphPrinting.cpp:64-123 | an unstored job skill draws nothing; otherwise only edges are appended, no red edge leads to id 0, and nothing earlier changes |
| GraphRoots.RootSkill | Ms2DependencyGraph/Ms2DependencyGraph/GraphPrinting.cpp:64-123 | `PrintRoot(JobSkill)` (definition; `RootSkillDraws` and `RootSkillHead` state what it draws) |
| GraphRoots.RootSkillHead | Ms2DependencyGraph/Ms2DependencyGraph/GraphPrinting.cpp:67-78 | a stored job skill's first edges are the root edge and then one sub-skill edge per sub skill, all dereferenced |
| GraphRoots.RootSkillsDraws | Ms2DependencyGraph/Ms2DependencyGraph/GraphPrinting.cpp:129-130 | a job's skills only append edges |
| GraphRoots.RootSkillsKnown | Ms2DependencyGraph/Ms2DependencyGraph/GraphPrinting.cpp:129-130 | every stored job skill ends up dereferenced, so `PrintLinked` will expand it |
| GraphRoots.RootJobDraws | Ms2DependencyGraph/Ms2DependencyGraph/GraphPrinting.cpp:125-131 | a job draws the root node first, then only edges, and every stored job skill is known |
| GraphRoots.RootJob | Ms2DependencyGraph/Ms2DependencyGraph/GraphPrinting.cpp:125-131 | `PrintRoot(JobData)` (definition; `RootJobDraws` states what it draws) |
| GraphRoots.TierPartDraws | Ms2DependencyGraph/Ms2DependencyGraph/GraphPrinting.cpp:226-235 | one tier: its node, the root-to-tier edge, then one edge per effect, each dereferenced |
| GraphRoots.TierPart | Ms2DependencyGraph/Ms2DependencyGraph/GraphPrinting.cpp:226-235 | one set-bonus tier (definition; `TierPartDraws` states what it draws) |
| GraphRoots.TierPartsDraws | Ms2DependencyGraph/Ms2DependencyGraph/GraphPrinting.cpp:226-235 | the tiers draw two events per part plus one per effect |
| GraphRoots.RootSetBonusDraws | Ms2DependencyGraph/Ms2DependencyGraph/GraphPrinting.cpp:222-236 | a set bonus draws the root node and then its tiers, and nothing earlier changes |
| GraphRoots.RootSetBonus | Ms2DependencyGraph/Ms2DependencyGraph/GraphPrinting.cpp:222-236 | `PrintRoot(SetBonusData)` (definition; `RootSetBonusDraws` states what it draws) |
| GraphRoots.LinkValid | Ms2DependencyGraph/Ms2DependencyGraph/GraphPrinting.cpp:75 | an edge keeps the queues matching the maps |
| GraphRoots.LinkAllValid | Ms2DependencyGraph/Ms2DependencyGraph/GraphPrinting.cpp:77-78 | so does a list of edges |
| GraphRoots.ComboWalkValid | Ms2DependencyGraph/Ms2DependencyGraph/GraphPrinting.cpp:80-112 | so does the combo walk |
| GraphRoots.RootSkillValid | Ms2DependencyGraph/Ms2DependencyGraph/GraphPrinting.cpp:64-123 | so does a job skill |
| GraphRoots.RootSkillsValid | Ms2DependencyGraph/Ms2DependencyGraph/GraphPrinting.cpp:129-130 | so do a job's skills |
| GraphRoots.RootJobValid | Ms2DependencyGraph/Ms2DependencyGraph/GraphPrinting.cpp:125-131 | so does a job root |
| GraphRoots.TierPartsValid | Ms2DependencyGraph/Ms2DependencyGraph/GraphPrinting.cpp:226-235 | so do the tiers |
| GraphRoots.RootSetBonusValid | Ms2DependencyGraph/Ms2DependencyGraph/GraphPrinting.cpp:222-236 | so does a set-bonus root |
| GraphPrinting.GraphData.constructor | Ms2DependencyGraph/Ms2DependencyGraph/GraphPrinting.h:9-26 | a new builder has empty maps, queues and output, keeps its root label, and satisfies the invariant |
| GraphPrinting.GraphData.Dereference | Ms2DependencyGraph/Ms2DependencyGraph/GraphPrinting.cpp:7-29 | returns the reference, leaves the state `Deref` specifies, and keeps the invariant |
| GraphPrinting.GraphData.SetTargets | Ms2DependencyGraph/Ms2DependencyGraph/GraphPrinting.cpp:33 | the caller's entry of its kind's map becomes the list, created when missing, and nothing else changes |
| GraphPrinting.GraphData.FindLink | Ms2DependencyGraph/Ms2DependencyGraph/GraphPrinting.cpp:55-57 | the scan over a caller's targets succeeds exactly when a target of the same kind and id is linked |
| GraphPrinting.GraphData.Visited | Ms2DependencyGraph/Ms2DependencyGraph/GraphPrinting.cpp:93-98 | the scan over the visited combos succeeds exactly when the id was already left |
| GraphPrinting.GraphData.PrintRandomCasts | Ms2DependencyGraph/Ms2DependencyGraph/GraphPrinting.cpp:37-50 | the random-cast loop leaves the state `PrintCasts` specifies |
| GraphPrinting.GraphData.Print | Ms2DependencyGraph/Ms2DependencyGraph/GraphPrinting.cpp:31-62 | leaves the state `GraphModel.Print` specifies, including the duplicate scan |
| GraphPrinting.GraphData.DrawLink | Ms2DependencyGraph/Ms2DependencyGraph/GraphPrinting.cpp:75 | one dereferenced edge |
| GraphPrinting.GraphData.DrawLinks | Ms2DependencyGraph/Ms2DependencyGraph/GraphPrinting.cpp:77-78 | the sub-skill loop leaves the state `LinkAll` specifies |
| GraphPrinting.GraphData.WalkCombos | Ms2DependencyGraph/Ms2DependencyGraph/GraphPrinting.cpp:80-112 | the combo loop with its visited list leaves the state `ComboWalk` specifies |
| GraphPrinting.GraphData.DrawChangeSkills | Ms2DependencyGraph/Ms2DependencyGraph/GraphPrinting.cpp:114-122 | the change-skill loop draws the non-zero change skills |
| GraphPrinting.GraphData.PrintRoot | Ms2DependencyGraph/Ms2DependencyGraph/GraphPrinting.cpp:64-123 | `PrintRoot(JobSkill)` leaves the state `RootSkill` specifies, and keeps the invariant |
| GraphPrinting.GraphData.PrintRootJob | Ms2DependencyGraph/Ms2DependencyGraph/GraphPrinting.cpp:125-131 | `PrintRoot(JobData)` leaves the state `RootJob` specifies, and keeps the invariant |
| GraphPrinting.GraphData.PrintRootSetBonus | Ms2DependencyGraph/Ms2DependencyGraph/GraphPrinting.cpp:222-236 | `PrintRoot(SetBonusData)` leaves the state `RootSetBonus` specifies, and keeps the invariant |
| GraphPrinting.GraphData.PrintEach | Ms2DependencyGraph/Ms2DependencyGraph/GraphPrinting.cpp:165-168 | a trigger loop prints each trigger in order |
| GraphPrinting.GraphData.ExpandSkill | Ms2DependencyGraph/Ms2DependencyGraph/GraphPrinting.cpp:154-183 | a stored skill's node, passives and attack triggers |
| GraphPrinting.GraphData.ExpandEffect | Ms2DependencyGraph/Ms2DependencyGraph/GraphPrinting.cpp:201-215 | a stored effect's node and triggers |
| GraphPrinting.GraphData.ExpandQueuedSkill | Ms2DependencyGraph/Ms2DependencyGraph/GraphPrinting.cpp:143-185 | one round of the skill loop, skipping an id the store lacks |
| GraphPrinting.GraphData.ExpandQueuedEffect | Ms2DependencyGraph/Ms2DependencyGraph/GraphPrinting.cpp:190-217 | one round of the effect loop |
| GraphPrinting.GraphData.DrainSkills | Ms2DependencyGraph/Ms2DependencyGraph/GraphPrinting.cpp:141-186 | the inner skill loop, over a queue that grows while it runs, leaves the state `SkillPass` specifies |
| GraphPrinting.GraphData.DrainEffects | Ms2DependencyGraph/Ms2DependencyGraph/GraphPrinting.cpp:188-218 | the inner effect loop leaves the state `EffectPass` specifies |
| GraphPrinting.GraphData.PrintLinked | Ms2DependencyGraph/Ms2DependencyGraph/GraphPrinting.cpp:133-220 | the outer loop terminates and leaves the state `Drain` specifies, whose node drawing `LinkedDrawsEachOnce` states; it ends with the invariant |

## Left out

- File system and XML loading (`forEachFile`, `LoadFile`, `fs::exists`, `filePath.stem()`). Each routine receives the root element, the file's id or stem, and whether the feature files exist.
- DOT text: quoting, colours, labels and the `digraph` wrapper. The output is a sequence of node and edge events; a style is an opaque label.
- `main.cpp`: which files are read, in which order, and the per-class and per-set driver loops. It is not part of this model.
- Floating-point and 64-bit readers of ParserUtils (`readValue<float>`, `<double>`, `<long long>`). The core never calls them.
- Integer widths: `atoi` overflow and the narrower integer casts are not modelled, because integers are unbounded.
- `std::unordered_map::begin()` is modelled as the least key. The source's choice depends on hashing.
- Desanitizing.Desanitize: the rebuild pass after the count is not modelled, and a name with an apostrophe entity gives `None`. That pass writes through `cleaned[textIndex++]` into a string whose size is 0, which is undefined behaviour.
- Desanitizing.Desanitize: `strncmp` is modelled as equality of the first n characters. This holds because "&apos;" contains no NUL.
- Reading a parallel list past its end is undefined behaviour. It becomes a precondition on the document:
  - change-skill lists in `ParseSkill`;
  - offset counts in `ParseAdditionalEffect`;
  - effect levels in set-bonus parts and item environments.
- EffectParsing.ParseAdditionalEffect: requires well-formed offset lists in every level element, including levels the gate or a missing BasicProperty skips.
- ItemParsing.ParseItems: requires covering level lists in every environment's AdditionalEffect child, including environments the gate rejects.
- SkillParsing.ParseSkill: requires well-formed change-skill lists in every `level` child.
- SetBonusParsing.ParseSetBonusOptions: requires covering level lists in every part of an option with a non-zero id.
- Conditions.ParseConditionSkill: when the node has no child element, the source calls `ParseBeginCondition` on a null pointer. The model leaves the condition unchanged.
- `SetBonusData::OptionData` is a pointer into the option table. It is modelled as the option's id (`Some(optionId)`). `SetBonusParsing.ApplySetsLinked` shows the set loop never leaves a set without it, and `SetBonusParsing.SetBonusesFileResolves` shows it always names an option in the table, which is the precondition of `GraphRoots.RootSetBonus`.
- Aliasing between the global tables and the graph builder: the builder reads the tables as a `Store` value that it never changes.
- The header's `SupportSettings` declares no `Version`, but ParserUtils.cpp reads and writes one. The model adds a `version` field, 0 in a default-constructed slot.
- `featureIsActive(node, settings)` passes an `int` support to `OverriddenBy`, which takes a `SupportLevel`. The model converts the code, so only a support of 2 counts as Override (`FeatureGate.LevelOfCode`).
- `JobCode` is an `enum` cast from an `int`. The model keeps it as the integer and names only `None` (0).
- ParserUtils.ReadInt: the scalar reader goes through tinyxml2's `XMLAttribute::IntValue`, whose parsing is not part of this model. It is modelled as `atoi`, which it matches on decimal text; hexadecimal or otherwise malformed text may read differently.
- ParserUtils.ReadBool: reads through `IntValue` as well, modelled as `atoi` in the same way.
- The graph builder reads `Levels.begin()->second` (GraphPrinting.cpp:73, 111, 163, 205), which is undefined for an empty level table, so its members require `LevelsPresent`: every skill and effect record has a level. Real input can break this. `GraphModel.RejectedSkillFileLacksLevels` and `GraphModel.RejectedEffectFileLacksLevels` show that a file whose root the gate rejects leaves a record with no level. A file with no level element does too.
- GraphPrinting.GraphData.PrintRoot: requires `LevelsPresent`, which ingestion does not guarantee (above).
- GraphPrinting.GraphData.PrintRootJob: requires `LevelsPresent`, which ingestion does not guarantee (above).
- GraphPrinting.GraphData.WalkCombos: requires `LevelsPresent`, which ingestion does not guarantee (above).
- GraphPrinting.GraphData.ExpandSkill: requires `LevelsPresent`, which ingestion does not guarantee (above).
- GraphPrinting.GraphData.ExpandEffect: requires `LevelsPresent`, which ingestion does not guarantee (above).
- GraphPrinting.GraphData.PrintLinked: requires `LevelsPresent`, which ingestion does not guarantee (above).
- GraphRoots.RootSkill: requires `LevelsPresent`, which ingestion does not guarantee (above).
- GraphRoots.RootJob: requires `LevelsPresent`, which ingestion does not guarantee (above).
- GraphModel.Drain: requires `LevelsPresent`, which ingestion does not guarantee (above).
- GraphModel.LinkedDrawsEachOnce: requires `LevelsPresent`, which ingestion does not guarantee (above).
