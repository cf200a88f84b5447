/**
 * ParserUtils.cpp: the feature/locale gate every ingested node passes through.
 *
 * The program's global feature table and requested locale are parameters here. A node is
 * enabled when its feature is known, released (not the reserved version 99) and not older than
 * what the record's feature slot already holds, and when its locale is compatible with the
 * record's locale slot. Only an accepted node writes the two slots.
 */
module FeatureGate {
  import opened XmlTree
  import opened Decimal
  import opened ParserUtils

  /** The global `features` table: feature name to the level it was released at. */
  type FeatureTable = map<string, int>

  /** The version the source reserves for features that must never be enabled. */
  const ReservedVersion := 99

  /**
   * `featureIsActive(const char*)`: 1 for a node that names no feature, the table's level for a
   * known feature and -1 for an unknown one.
   */
  function FeatureIsActive(table: FeatureTable, feature: string): (support: int)
    ensures feature == "" ==> support == 1
    ensures feature != "" && feature in table ==> support == table[feature]
    ensures feature != "" && feature !in table ==> support == -1
  {
    if feature == "" then 1
    else if feature in table then table[feature]
    else -1
  }

  /**
   * `matchesLocale(const char*)`: a node without a locale is Default, a node for the requested
   * locale is Override, and a node for any other locale is None.
   */
  function MatchesLocale(requested: string, nodeLocale: string): (support: SupportLevel)
    ensures support == Default <==> nodeLocale == ""
    ensures support == Override <==> nodeLocale != "" && nodeLocale == requested
    ensures support == None <==> nodeLocale != "" && nodeLocale != requested
  {
    if nodeLocale == "" then Default
    else if requested == nodeLocale then Override
    else None
  }

  /**
   * The feature overload hands its integer `support` to `OverriddenBy`, which compares it with
   * the enumerator Override (value 2); only that comparison is observable, so every other code
   * is read as a level that is not Override.
   */
  function LevelOfCode(code: int): (level: SupportLevel)
    ensures level == Override <==> code == 2
  {
    if code == 2 then Override
    else if code == 1 then Default
    else None
  }

  /** The value of an optional attribute, or the empty string when it is absent. */
  function AttributeOrEmpty(node: Element, name: string): (text: string)
    ensures name in node.attributes ==> text == node.attributes[name]
    ensures name !in node.attributes ==> text == ""
  {
    match FindAttribute(node, name)
    case None => ""
    case Some(value) => value
  }

  /** The feature support code of a node: -1 when it has no `feature` attribute at all. */
  function NodeFeatureCode(table: FeatureTable, node: Element): (code: int)
    ensures "feature" !in node.attributes ==> code == -1
    ensures "feature" in node.attributes ==> code == FeatureIsActive(table, node.attributes["feature"])
  {
    match FindAttribute(node, "feature")
    case None => -1
    case Some(feature) => FeatureIsActive(table, feature)
  }

  /**
   * `featureIsActive(node, settings)`: the node's feature decision, unless the slot holds an
   * Override that the node cannot beat, in which case the decision is None. Its level is never
   * Override, so on a slot it has written the guard always passes.
   */
  function FeatureIsActiveNode(table: FeatureTable, node: Element, slot: SupportSettings): (found: SupportSettings)
    ensures found.level != Override
    ensures slot.level != Override || NodeFeatureCode(table, node) == 2 ==>
      found == SupportSettings(AttributeOrEmpty(node, "feature"), Default, NodeFeatureCode(table, node))
    ensures slot.level == Override && NodeFeatureCode(table, node) != 2 ==> found == SupportSettings("", None, 0)
  {
    var code := NodeFeatureCode(table, node);
    if OverriddenBy(slot, LevelOfCode(code)) then SupportSettings(AttributeOrEmpty(node, "feature"), Default, code)
    else SupportSettings("", None, 0)
  }

  /**
   * `matchesLocale(node, settings)`: the node's locale decision, or None when the slot holds an
   * Override and the node is not for the requested locale.
   */
  function MatchesLocaleNode(requested: string, node: Element, slot: SupportSettings): (found: SupportSettings)
    ensures found.version == 0
    ensures found.level == Override ==> found.name == requested && requested != ""
    ensures found.level == Default ==> found.name == "" && slot.level != Override
    ensures found.level == None ==>
      found.name == "" || (slot.level != Override && found.name != requested)
    ensures slot.level == Override && AttributeOrEmpty(node, "locale") != requested ==> found.level == None
    ensures slot.level != Override ==> found.level == MatchesLocale(requested, AttributeOrEmpty(node, "locale"))
  {
    var nodeLocale := AttributeOrEmpty(node, "locale");
    var support := MatchesLocale(requested, nodeLocale);
    if OverriddenBy(slot, support) then SupportSettings(nodeLocale, support, 0)
    else SupportSettings("", None, 0)
  }

  /** The outcome of `isNodeEnabled`: whether the node is accepted, and the two slots afterwards. */
  datatype Verdict = Verdict(enabled: bool, feature: SupportSettings, locale: SupportSettings)

  /**
   * `isNodeEnabled`. The node is rejected when its feature code is -1 (no `feature` attribute or
   * an unknown feature), is the reserved 99, is older than the feature slot's version, or when
   * the locale decision is None; a rejection leaves both slots as they were. An accepted node
   * overwrites both slots, so the feature version held by a slot never goes down.
   */
  function IsNodeEnabled(table: FeatureTable, requested: string, node: Element,
                         feature: SupportSettings, locale: SupportSettings): (v: Verdict)
    ensures !v.enabled ==> v.feature == feature && v.locale == locale
    ensures v.enabled ==>
      && v.feature == FeatureIsActiveNode(table, node, feature)
      && v.locale == MatchesLocaleNode(requested, node, locale)
    ensures v.enabled ==>
      && v.feature.version != -1 && v.feature.version != ReservedVersion
      && v.feature.version >= feature.version
      && v.locale.level != None
    ensures feature.level != Override ==>
      (v.enabled <==>
        && NodeFeatureCode(table, node) != -1
        && NodeFeatureCode(table, node) != ReservedVersion
        && NodeFeatureCode(table, node) >= feature.version
        && MatchesLocaleNode(requested, node, locale).level != None)
    ensures feature.level != Override && "feature" !in node.attributes ==> !v.enabled
    ensures locale.level == Override && AttributeOrEmpty(node, "locale") != requested ==> !v.enabled
  {
    var featureFound := FeatureIsActiveNode(table, node, feature);
    var localeFound := MatchesLocaleNode(requested, node, locale);
    if featureFound.version == -1 || featureFound.version == ReservedVersion
       || featureFound.version < feature.version || localeFound.level == None
    then Verdict(false, feature, locale)
    else Verdict(true, featureFound, localeFound)
  }

  /** Passing the nodes through the gate one after another, carrying the slots along. */
  function GateAll(table: FeatureTable, requested: string, nodes: seq<Element>,
                   feature: SupportSettings, locale: SupportSettings): (v: Verdict)
    decreases |nodes|
  {
    if nodes == [] then Verdict(true, feature, locale)
    else
      var last := GateAll(table, requested, nodes[..|nodes| - 1], feature, locale);
      var step := IsNodeEnabled(table, requested, nodes[|nodes| - 1], last.feature, last.locale);
      Verdict(step.enabled, step.feature, step.locale)
  }

  /**
   * Along any sequence of gated nodes the feature version held by the slot never decreases, and a
   * feature slot that does not start as Override never becomes one.
   */
  lemma {:induction false} GateAllKeepsVersion(table: FeatureTable, requested: string, nodes: seq<Element>,
                                               feature: SupportSettings, locale: SupportSettings)
    requires feature.level != Override
    ensures var v := GateAll(table, requested, nodes, feature, locale);
      v.feature.version >= feature.version && v.feature.level != Override
    decreases |nodes|
  {
    if nodes != [] {
      GateAllKeepsVersion(table, requested, nodes[..|nodes| - 1], feature, locale);
    }
  }

  /**
   * Once a locale slot holds an Override, every later node that is not for the requested locale
   * is rejected, and the slot keeps its Override.
   */
  lemma {:induction false} LocaleOverrideSticks(table: FeatureTable, requested: string, nodes: seq<Element>,
                                                feature: SupportSettings, locale: SupportSettings)
    requires locale.level == Override
    ensures var v := GateAll(table, requested, nodes, feature, locale);
      v.locale.level == Override
      && (nodes != [] && AttributeOrEmpty(nodes[|nodes| - 1], "locale") != requested ==> !v.enabled)
    decreases |nodes|
  {
    if nodes != [] {
      LocaleOverrideSticks(table, requested, nodes[..|nodes| - 1], feature, locale);
    }
  }

  /** A settings row applies to the environment when its `type` attribute names it. */
  predicate IsEnvRow(row: Element, env: string)
  {
    "type" in row.attributes && row.attributes["type"] == env
  }

  /** The ceiling a matching settings row supplies: its locale column, or -1 when it has none. */
  function RowCeiling(row: Element, locale: string): (level: int)
    ensures locale !in row.attributes ==> level == -1
    ensures locale in row.attributes ==> level == Atoi(row.attributes[locale])
  {
    match FindAttribute(row, locale)
    case None => -1
    case Some(text) => Atoi(text)
  }

  /** The feature ceiling read from `feature_setting.xml`: only the first row for the environment counts. */
  function Ceiling(rows: seq<Element>, locale: string, env: string): (level: int)
    ensures (forall k :: 0 <= k < |rows| ==> !IsEnvRow(rows[k], env)) ==> level == -1
    decreases |rows|
  {
    if rows == [] then -1
    else if IsEnvRow(rows[0], env) then RowCeiling(rows[0], locale)
    else Ceiling(rows[1..], locale, env)
  }

  /** The ceiling is decided by the first row for the environment; later rows are never consulted. */
  lemma {:induction false} CeilingIsFirstEnvRow(rows: seq<Element>, locale: string, env: string, k: nat)
    requires k < |rows| && IsEnvRow(rows[k], env)
    requires forall j :: 0 <= j < k ==> !IsEnvRow(rows[j], env)
    ensures Ceiling(rows, locale, env) == RowCeiling(rows[k], locale)
    decreases k
  {
    if k > 0 {
      assert forall j :: 0 <= j < k - 1 ==> !IsEnvRow(rows[1..][j], env) by {
        forall j | 0 <= j < k - 1 ensures !IsEnvRow(rows[1..][j], env) {
          assert rows[1..][j] == rows[j + 1];
        }
      }
      CeilingIsFirstEnvRow(rows[1..], locale, env, k - 1);
    }
  }

  /** A feature row is admitted when it has a level for the locale and a name, and is within the ceiling. */
  predicate Admitted(row: Element, locale: string, ceiling: int)
  {
    locale in row.attributes && "name" in row.attributes && Atoi(row.attributes[locale]) <= ceiling
  }

  /** One round of the `feature.xml` loop. */
  function AddFeature(table: FeatureTable, row: Element, locale: string, ceiling: int): (r: FeatureTable)
    ensures Admitted(row, locale, ceiling) ==>
      r == table[row.attributes["name"] := Atoi(row.attributes[locale])]
    ensures !Admitted(row, locale, ceiling) ==> r == table
  {
    match FindAttribute(row, locale)
    case None => table
    case Some(levelText) =>
      match FindAttribute(row, "name")
      case None => table
      case Some(name) =>
        var level := Atoi(levelText);
        if level <= ceiling then table[name := level] else table
  }

  /** The table after the `feature.xml` loop has seen `rows`. */
  function AddFeatures(table: FeatureTable, rows: seq<Element>, locale: string, ceiling: int): FeatureTable
    decreases |rows|
  {
    if rows == [] then table
    else AddFeature(AddFeatures(table, rows[..|rows| - 1], locale, ceiling), rows[|rows| - 1], locale, ceiling)
  }

  /** Some row of `rows` is admitted and carries the name `n`. */
  predicate AdmitsName(rows: seq<Element>, locale: string, ceiling: int, n: string)
  {
    exists k :: 0 <= k < |rows| && Admitted(rows[k], locale, ceiling) && rows[k].attributes["name"] == n
  }

  /** Splitting `AdmitsName` at the last row. */
  lemma AdmitsNameSnoc(rows: seq<Element>, locale: string, ceiling: int, n: string)
    requires rows != []
    ensures var init := rows[..|rows| - 1]; var last := rows[|rows| - 1];
      AdmitsName(rows, locale, ceiling, n) <==>
        AdmitsName(init, locale, ceiling, n) || (Admitted(last, locale, ceiling) && last.attributes["name"] == n)
  {
    var init := rows[..|rows| - 1];
    if AdmitsName(init, locale, ceiling, n) {
      var k :| 0 <= k < |init| && Admitted(init[k], locale, ceiling) && init[k].attributes["name"] == n;
      assert rows[k] == init[k];
    }
    if AdmitsName(rows, locale, ceiling, n) {
      var k :| 0 <= k < |rows| && Admitted(rows[k], locale, ceiling) && rows[k].attributes["name"] == n;
      if k < |init| {
        assert init[k] == rows[k];
      }
    }
  }

  /** A name ends up in the table exactly when it was there before or some admitted row carries it. */
  lemma {:induction false} AddFeaturesKeys(table: FeatureTable, rows: seq<Element>, locale: string, ceiling: int, n: string)
    ensures n in AddFeatures(table, rows, locale, ceiling) <==> n in table || AdmitsName(rows, locale, ceiling, n)
    decreases |rows|
  {
    if rows != [] {
      AddFeaturesKeys(table, rows[..|rows| - 1], locale, ceiling, n);
      AdmitsNameSnoc(rows, locale, ceiling, n);
    }
  }

  /** Every level the loop admits respects the ceiling. */
  lemma {:induction false} AddFeaturesBelowCeiling(table: FeatureTable, rows: seq<Element>, locale: string, ceiling: int)
    requires forall n :: n in table ==> table[n] <= ceiling
    ensures forall n :: n in AddFeatures(table, rows, locale, ceiling) ==> AddFeatures(table, rows, locale, ceiling)[n] <= ceiling
    decreases |rows|
  {
    if rows != [] {
      var prev := AddFeatures(table, rows[..|rows| - 1], locale, ceiling);
      AddFeaturesBelowCeiling(table, rows[..|rows| - 1], locale, ceiling);
      var last := rows[|rows| - 1];
      if Admitted(last, locale, ceiling) {
        var name := last.attributes["name"];
        var level := Atoi(last.attributes[locale]);
        assert level <= ceiling;
        var r := prev[name := level];
        forall n | n in r ensures r[n] <= ceiling {
          if n != name {
            assert n in prev && r[n] == prev[n];
          }
        }
      }
    }
  }

  /**
   * `loadFeatures`, with the two documents given as the child rows of their roots. It fails when a
   * file is missing or when the first settings row for the environment supplies no ceiling; only
   * then is the table left as it was.
   */
  method LoadFeatures(filesExist: bool, settingRows: seq<Element>, featureRows: seq<Element>,
                      locale: string, env: string, table: FeatureTable)
    returns (ok: bool, features: FeatureTable)
    ensures ok <==> filesExist && Ceiling(settingRows, locale, env) != -1
    ensures ok ==> features == AddFeatures(table, featureRows, locale, Ceiling(settingRows, locale, env))
    ensures !ok ==> features == table
  {
    features := table;
    if !filesExist {
      return false, features;
    }
    var featureLevel := -1;
    var i := 0;
    while i < |settingRows|
      invariant 0 <= i <= |settingRows|
      invariant Ceiling(settingRows, locale, env) == Ceiling(settingRows[i..], locale, env)
      invariant featureLevel == -1
    {
      var row := settingRows[i];
      if IsEnvRow(row, env) {
        featureLevel := RowCeiling(row, locale);
        break;
      }
      assert settingRows[i..][1..] == settingRows[i + 1..];
      i := i + 1;
    }
    assert featureLevel == Ceiling(settingRows, locale, env);
    if featureLevel == -1 {
      return false, features;
    }
    var j := 0;
    while j < |featureRows|
      invariant 0 <= j <= |featureRows|
      invariant features == AddFeatures(table, featureRows[..j], locale, featureLevel)
    {
      var row := featureRows[j];
      match FindAttribute(row, locale) {
        case None =>
        case Some(levelText) =>
          match FindAttribute(row, "name") {
            case None =>
            case Some(name) =>
              var level := Atoi(levelText);
              if level <= featureLevel {
                features := features[name := level];
              }
          }
      }
      assert featureRows[..j + 1][..j] == featureRows[..j];
      j := j + 1;
    }
    assert featureRows[..j] == featureRows;
    ok := true;
  }
}
