/**
 * XmlParsing.cpp, `ParseBeginCondition` and `ParseConditionSkill`: the trigger references a
 * begin condition collects from its owner/target/caster children, and the condition-skill
 * record (its reference, its random casts and its own begin condition).
 */
module Conditions {
  import opened XmlTree
  import opened ParserUtils
  import opened XmlData
  import Wrappers

  /** The only children a begin condition reads. */
  predicate IsSideName(name: string)
  {
    name == "owner" || name == "target" || name == "caster"
  }

  /**
   * The target a side child maps to, with the two `strcmp(...) != 0` tests as written: starting
   * from Owner, every name other than "target" sets Target, then every name other than "caster"
   * sets Caster.
   */
  function TargetOf(name: string): (t: SkillTarget)
    requires IsSideName(name)
    ensures name == "owner" ==> t == Caster
    ensures name == "target" ==> t == Caster
    ensures name == "caster" ==> t == Target
  {
    var t0 := Owner;
    var t1 := if name != "target" then Target else t0;
    if name != "caster" then Caster else t1
  }

  /** A scalar reference: nothing when its id attribute reads as 0. */
  function ScalarReference(id: int, kind: ReferenceType, level: int, target: SkillTarget,
                           condition: ConditionReferenceType): (refs: seq<TriggerReferenceData>)
    ensures id == 0 ==> refs == []
    ensures id != 0 ==> refs == [TriggerReferenceData(kind, id, level, target, condition)]
  {
    if id != 0 then [TriggerReferenceData(kind, id, level, target, condition)] else []
  }

  /** One RequireEvent reference per listed id, in list order and without filtering. */
  function EventReferences(kind: ReferenceType, ids: seq<int>, target: SkillTarget): (refs: seq<TriggerReferenceData>)
    ensures |refs| == |ids|
  {
    if ids == [] then []
    else EventReferences(kind, ids[..|ids| - 1], target) + [TriggerReferenceData(kind, ids[|ids| - 1], 0, target, RequireEvent)]
  }

  /** The four leading scalar references of a side child: hasBuff, hasSkill, hasNotBuff, ignoreOwnerEvent. */
  function LeadingScalars(child: Element, target: SkillTarget): (refs: seq<TriggerReferenceData>)
  {
    var hasBuffId := ReadInt(child, "hasBuffID", 0);
    var hasSkillId := ReadInt(child, "hasSkillID", 0);
    ScalarReference(hasBuffId, Effect, if hasBuffId != 0 then ReadInt(child, "hasBuffLevel", 0) else 0, target, Require)
    + ScalarReference(hasSkillId, Skill, if hasSkillId != 0 then ReadInt(child, "hasSkillLevel", 0) else 0, target, Require)
    + ScalarReference(ReadInt(child, "hasNotBuffID", 0), Effect, 0, target, Prevent)
    + ScalarReference(ReadInt(child, "ignoreOwnerEvent", 0), Effect, 0, target, Ignore)
  }

  /**
   * The references one side child contributes, in the fixed order hasBuff, hasSkill, hasNotBuff,
   * ignoreOwnerEvent, eventSkillID entries, eventIgnoreSkillID, eventEffectID entries.
   */
  function SideReferences(child: Element): (refs: seq<TriggerReferenceData>)
    requires IsSideName(child.name)
  {
    var target := TargetOf(child.name);
    LeadingScalars(child, target)
    + EventReferences(Skill, ListAttribute(child, "eventSkillID"), target)
    + ScalarReference(ReadInt(child, "eventIgnoreSkillID", 0), Skill, 0, target, Ignore)
    + EventReferences(Effect, ListAttribute(child, "eventEffectID"), target)
  }

  /** What one child of a begin condition contributes: nothing unless it is a side child. */
  function ChildReferences(child: Element): seq<TriggerReferenceData>
  {
    if IsSideName(child.name) then SideReferences(child) else []
  }

  /** The references a begin condition collects from a sequence of children. */
  function ConditionReferences(children: seq<Element>): seq<TriggerReferenceData>
    decreases |children|
  {
    if children == [] then []
    else ConditionReferences(children[..|children| - 1]) + ChildReferences(children[|children| - 1])
  }

  /** The loop pushing one RequireEvent reference per listed id. */
  method AppendEvents(refs: seq<TriggerReferenceData>, kind: ReferenceType, ids: seq<int>, target: SkillTarget)
    returns (result: seq<TriggerReferenceData>)
    ensures result == refs + EventReferences(kind, ids, target)
  {
    result := refs;
    var j := 0;
    while j < |ids|
      invariant 0 <= j <= |ids|
      invariant result == refs + EventReferences(kind, ids[..j], target)
    {
      result := result + [TriggerReferenceData(kind, ids[j], 0, target, RequireEvent)];
      assert ids[..j + 1][..j] == ids[..j];
      j := j + 1;
    }
    assert ids[..j] == ids;
  }

  /** The four scalar tests at the head of the loop body. */
  method AppendLeadingScalars(refs: seq<TriggerReferenceData>, child: Element, target: SkillTarget)
    returns (result: seq<TriggerReferenceData>)
    ensures result == refs + LeadingScalars(child, target)
  {
    result := refs;
    var hasBuffId := ReadInt(child, "hasBuffID", 0);
    var hasBuffLevel := 0;
    if hasBuffId != 0 {
      hasBuffLevel := ReadInt(child, "hasBuffLevel", 0);
      result := result + [TriggerReferenceData(Effect, hasBuffId, hasBuffLevel, target, Require)];
    }
    var s1 := ScalarReference(hasBuffId, Effect, hasBuffLevel, target, Require);
    assert result == refs + s1;
    var hasSkillId := ReadInt(child, "hasSkillID", 0);
    var hasSkillLevel := 0;
    if hasSkillId != 0 {
      hasSkillLevel := ReadInt(child, "hasSkillLevel", 0);
      result := result + [TriggerReferenceData(Skill, hasSkillId, hasSkillLevel, target, Require)];
    }
    var s2 := ScalarReference(hasSkillId, Skill, hasSkillLevel, target, Require);
    assert result == refs + s1 + s2;
    var hasNotBuffId := ReadInt(child, "hasNotBuffID", 0);
    if hasNotBuffId != 0 {
      result := result + [TriggerReferenceData(Effect, hasNotBuffId, 0, target, Prevent)];
    }
    var s3 := ScalarReference(hasNotBuffId, Effect, 0, target, Prevent);
    assert result == refs + s1 + s2 + s3;
    var ignoreOwnerEvent := ReadInt(child, "ignoreOwnerEvent", 0);
    if ignoreOwnerEvent != 0 {
      result := result + [TriggerReferenceData(Effect, ignoreOwnerEvent, 0, target, Ignore)];
    }
    var s4 := ScalarReference(ignoreOwnerEvent, Effect, 0, target, Ignore);
    assert result == refs + s1 + s2 + s3 + s4;
    assert LeadingScalars(child, target) == s1 + s2 + s3 + s4;
    Associative4(refs, s1, s2, s3, s4);
  }

  lemma Associative4<T>(r: seq<T>, a: seq<T>, b: seq<T>, c: seq<T>, d: seq<T>)
    ensures r + a + b + c + d == r + (a + b + c + d)
  {
    assert r + a + b == r + (a + b);
    assert r + (a + b) + c == r + (a + b + c);
    assert r + (a + b + c) + d == r + (a + b + c + d);
  }

  /** The loop body of `ParseBeginCondition` for one accepted child. */
  method AppendSide(refs: seq<TriggerReferenceData>, child: Element) returns (result: seq<TriggerReferenceData>)
    requires IsSideName(child.name)
    ensures result == refs + SideReferences(child)
  {
    var target := Owner;
    if child.name != "target" {
      target := Target;
    }
    if child.name != "caster" {
      target := Caster;
    }
    assert target == TargetOf(child.name);
    result := AppendLeadingScalars(refs, child, target);
    ghost var s1 := LeadingScalars(child, target);
    var eventIds := ReadIntList(child, "eventSkillID", []);
    assert [] + ListAttribute(child, "eventSkillID") == ListAttribute(child, "eventSkillID");
    result := AppendEvents(result, Skill, eventIds, target);
    ghost var s2 := EventReferences(Skill, ListAttribute(child, "eventSkillID"), target);
    var eventIgnoreSkillId := ReadInt(child, "eventIgnoreSkillID", 0);
    if eventIgnoreSkillId != 0 {
      result := result + [TriggerReferenceData(Skill, eventIgnoreSkillId, 0, target, Ignore)];
    }
    ghost var s3 := ScalarReference(eventIgnoreSkillId, Skill, 0, target, Ignore);
    assert result == refs + s1 + s2 + s3;
    eventIds := ReadIntList(child, "eventEffectID", []);
    assert [] + ListAttribute(child, "eventEffectID") == ListAttribute(child, "eventEffectID");
    result := AppendEvents(result, Effect, eventIds, target);
    ghost var s4 := EventReferences(Effect, ListAttribute(child, "eventEffectID"), target);
    assert result == refs + s1 + s2 + s3 + s4;
    assert SideReferences(child) == s1 + s2 + s3 + s4;
    Associative4(refs, s1, s2, s3, s4);
  }

  /** `ParseBeginCondition`: appends the collected references, keeping those already there. */
  method ParseBeginCondition(node: Element, condition: BeginCondition) returns (result: BeginCondition)
    ensures result.references == condition.references + ConditionReferences(node.children)
  {
    var refs := condition.references;
    var i := 0;
    while i < |node.children|
      invariant 0 <= i <= |node.children|
      invariant refs == condition.references + ConditionReferences(node.children[..i])
    {
      var child := node.children[i];
      ConditionReferencesStep(node.children, i);
      Wrappers.AppendAssociative(condition.references, ConditionReferences(node.children[..i]), ChildReferences(child));
      if IsSideName(child.name) {
        refs := AppendSide(refs, child);
      } else {
        assert refs + [] == refs;
      }
      i := i + 1;
    }
    assert node.children[..i] == node.children;
    result := BeginCondition(refs);
  }

  lemma ConditionReferencesStep(children: seq<Element>, i: nat)
    requires i < |children|
    ensures ConditionReferences(children[..i + 1]) == ConditionReferences(children[..i]) + ChildReferences(children[i])
  {
    assert children[..i + 1][..i] == children[..i];
  }

  /** Every list entry becomes a RequireEvent reference of the given kind and target. */
  lemma {:induction false} EventReferencesShape(kind: ReferenceType, ids: seq<int>, target: SkillTarget)
    ensures forall r :: r in EventReferences(kind, ids, target) ==>
      r.kind == kind && r.target == target && r.condition == RequireEvent && r.level == 0
    decreases |ids|
  {
    if ids != [] {
      EventReferencesShape(kind, ids[..|ids| - 1], target);
    }
  }

  /** The four leading scalars carry the side's target, a non-event condition and a non-zero id. */
  lemma LeadingScalarsShape(child: Element, target: SkillTarget)
    ensures forall r :: r in LeadingScalars(child, target) ==>
      r.target == target && r.condition != RequireEvent && r.id != 0
  {
    var hasBuffId := ReadInt(child, "hasBuffID", 0);
    var hasSkillId := ReadInt(child, "hasSkillID", 0);
    var a := ScalarReference(hasBuffId, Effect, if hasBuffId != 0 then ReadInt(child, "hasBuffLevel", 0) else 0, target, Require);
    var b := ScalarReference(hasSkillId, Skill, if hasSkillId != 0 then ReadInt(child, "hasSkillLevel", 0) else 0, target, Require);
    var c := ScalarReference(ReadInt(child, "hasNotBuffID", 0), Effect, 0, target, Prevent);
    var d := ScalarReference(ReadInt(child, "ignoreOwnerEvent", 0), Effect, 0, target, Ignore);
    assert LeadingScalars(child, target) == a + b + c + d;
    forall r: TriggerReferenceData | r in a + b + c + d
      ensures r.target == target && r.condition != RequireEvent && r.id != 0
    {
      assert r in a || r in b || r in c || r in d;
    }
  }

  /**
   * What one side child contributes: every reference carries the side's target, and every
   * reference that is not a RequireEvent list entry has a non-zero id.
   */
  lemma SideReferencesShape(child: Element)
    requires IsSideName(child.name)
    ensures forall r :: r in SideReferences(child) ==> r.target == TargetOf(child.name)
    ensures forall r :: r in SideReferences(child) && r.condition != RequireEvent ==> r.id != 0
  {
    var target := TargetOf(child.name);
    var lead := LeadingScalars(child, target);
    var skills := EventReferences(Skill, ListAttribute(child, "eventSkillID"), target);
    var ignore := ScalarReference(ReadInt(child, "eventIgnoreSkillID", 0), Skill, 0, target, Ignore);
    var effects := EventReferences(Effect, ListAttribute(child, "eventEffectID"), target);
    assert SideReferences(child) == lead + skills + ignore + effects;
    LeadingScalarsShape(child, target);
    EventReferencesShape(Skill, ListAttribute(child, "eventSkillID"), target);
    EventReferencesShape(Effect, ListAttribute(child, "eventEffectID"), target);
  }

  /**
   * No collected reference ever targets the Owner: as written, "owner" and "target" both map to
   * Caster and "caster" maps to Target.
   */
  lemma {:induction false} ConditionTargets(children: seq<Element>)
    ensures forall r :: r in ConditionReferences(children) ==> r.target == Caster || r.target == Target
    decreases |children|
  {
    if children != [] {
      var last := children[|children| - 1];
      if IsSideName(last.name) {
        SideReferencesShape(last);
      }
      ConditionTargets(children[..|children| - 1]);
    }
  }

  /**
   * Scalar ids of 0 are skipped: every reference other than a RequireEvent list entry has a
   * non-zero id.
   */
  lemma {:induction false} ScalarIdsNonZero(children: seq<Element>)
    ensures forall r :: r in ConditionReferences(children) && r.condition != RequireEvent ==> r.id != 0
    decreases |children|
  {
    if children != [] {
      var last := children[|children| - 1];
      if IsSideName(last.name) {
        SideReferencesShape(last);
      }
      ScalarIdsNonZero(children[..|children| - 1]);
    }
  }

  /** The ids of the RequireEvent references, in order. */
  function EventIds(refs: seq<TriggerReferenceData>): (ids: seq<int>)
    ensures |ids| <= |refs|
    decreases |refs|
  {
    if refs == [] then []
    else EventIds(refs[..|refs| - 1]) + (if refs[|refs| - 1].condition == RequireEvent then [refs[|refs| - 1].id] else [])
  }

  lemma {:induction false} EventIdsAppend(a: seq<TriggerReferenceData>, b: seq<TriggerReferenceData>)
    ensures EventIds(a + b) == EventIds(a) + EventIds(b)
    decreases |b|
  {
    if b == [] {
      assert a + b == a;
      assert EventIds(a) + [] == EventIds(a);
    } else {
      var init := b[..|b| - 1];
      var last := b[|b| - 1];
      var tail := if last.condition == RequireEvent then [last.id] else [];
      assert (a + b)[..|a + b| - 1] == a + init;
      assert (a + b)[|a + b| - 1] == last;
      EventIdsAppend(a, init);
      Wrappers.AppendAssociative(EventIds(a), EventIds(init), tail);
    }
  }

  lemma {:induction false} EventIdsOfEvents(kind: ReferenceType, ids: seq<int>, target: SkillTarget)
    ensures EventIds(EventReferences(kind, ids, target)) == ids
    decreases |ids|
  {
    if ids != [] {
      var init := ids[..|ids| - 1];
      var refs := EventReferences(kind, ids, target);
      assert refs[..|refs| - 1] == EventReferences(kind, init, target);
      EventIdsOfEvents(kind, init, target);
      assert ids == init + [ids[|ids| - 1]];
    }
  }

  lemma {:induction false} NoEventIdsIn(refs: seq<TriggerReferenceData>)
    requires forall r :: r in refs ==> r.condition != RequireEvent
    ensures EventIds(refs) == []
    decreases |refs|
  {
    if refs != [] {
      assert refs[|refs| - 1] in refs;
      assert forall r :: r in refs[..|refs| - 1] ==> r in refs;
      NoEventIdsIn(refs[..|refs| - 1]);
    }
  }

  /**
   * The event lists are not filtered: a side child's RequireEvent ids are exactly its
   * eventSkillID entries followed by its eventEffectID entries, zeros included.
   */
  lemma SideEventIds(child: Element)
    requires IsSideName(child.name)
    ensures EventIds(SideReferences(child)) == ListAttribute(child, "eventSkillID") + ListAttribute(child, "eventEffectID")
  {
    var target := TargetOf(child.name);
    var skillIds := ListAttribute(child, "eventSkillID");
    var effectIds := ListAttribute(child, "eventEffectID");
    var lead := LeadingScalars(child, target);
    var skills := EventReferences(Skill, skillIds, target);
    var ignore := ScalarReference(ReadInt(child, "eventIgnoreSkillID", 0), Skill, 0, target, Ignore);
    var effects := EventReferences(Effect, effectIds, target);
    assert SideReferences(child) == lead + skills + ignore + effects;
    LeadingScalarsShape(child, target);
    NoEventIdsIn(lead);
    NoEventIdsIn(ignore);
    EventIdsOfEvents(Skill, skillIds, target);
    EventIdsOfEvents(Effect, effectIds, target);
    EventIdsAppend(lead, skills);
    assert EventIds(lead + skills) == skillIds;
    EventIdsAppend(lead + skills, ignore);
    assert EventIds(lead + skills + ignore) == skillIds;
    EventIdsAppend(lead + skills + ignore, effects);
  }

  /** Children not named owner, target or caster are never read. */
  lemma {:induction false} OtherChildrenIgnored(children: seq<Element>)
    requires forall k :: 0 <= k < |children| ==> !IsSideName(children[k].name)
    ensures ConditionReferences(children) == []
    decreases |children|
  {
    if children != [] {
      OtherChildrenIgnored(children[..|children| - 1]);
    }
  }

  /** One Effect-typed, level-0 random cast per listed id. */
  function RandomCastsOf(ids: seq<int>): (casts: seq<ReferenceData>)
    ensures |casts| == |ids|
    decreases |ids|
  {
    if ids == [] then [] else RandomCastsOf(ids[..|ids| - 1]) + [ReferenceData(Effect, ids[|ids| - 1], 0)]
  }

  /** The casts are the listed ids, in list order, each an Effect at level 0. */
  lemma {:induction false} RandomCastsOfIds(ids: seq<int>)
    ensures forall i :: 0 <= i < |ids| ==> RandomCastsOf(ids)[i] == ReferenceData(Effect, ids[i], 0)
    decreases |ids|
  {
    if ids != [] {
      RandomCastsOfIds(ids[..|ids| - 1]);
    }
  }

  /**
   * The condition skill `ParseConditionSkill` leaves: its reference typed by the `splash` code,
   * one random cast per `skillID` entry when `randomCast` is set, and its first child's begin
   * condition appended. A node without children leaves the condition as it was.
   */
  function ConditionSkillOf(node: Element, cs: ConditionSkill): (r: ConditionSkill)
    ensures r.reference == ReferenceData(TypeOfCode(ReadInt(node, "splash", 0)), ReadInt(node, "skillID", 0), ReadInt(node, "level", 0))
    ensures ReadBool(node, "randomCast", false) ==>
      r.randomCasts == cs.randomCasts + RandomCastsOf(ListAttribute(node, "skillID"))
    ensures !ReadBool(node, "randomCast", false) ==> r.randomCasts == cs.randomCasts
    ensures node.children == [] ==> r.condition == cs.condition
    ensures node.children != [] ==>
      r.condition.references == cs.condition.references + ConditionReferences(node.children[0].children)
  {
    var reference := ReferenceData(TypeOfCode(ReadInt(node, "splash", 0)), ReadInt(node, "skillID", 0), ReadInt(node, "level", 0));
    var casts := if ReadBool(node, "randomCast", false)
      then cs.randomCasts + RandomCastsOf(ListAttribute(node, "skillID"))
      else cs.randomCasts;
    var condition := match FirstChild(node)
      case None => cs.condition
      case Some(first) => BeginCondition(cs.condition.references + ConditionReferences(first.children));
    ConditionSkill(reference, casts, condition)
  }

  /** `ParseConditionSkill`. */
  method ParseConditionSkill(node: Element, cs: ConditionSkill) returns (r: ConditionSkill)
    ensures r == ConditionSkillOf(node, cs)
  {
    var reference := ReferenceData(TypeOfCode(ReadInt(node, "splash", 0)), ReadInt(node, "skillID", 0), ReadInt(node, "level", 0));
    var casts := cs.randomCasts;
    if ReadBool(node, "randomCast", false) {
      var ids := ReadIntList(node, "skillID", []);
      var i := 0;
      while i < |ids|
        invariant 0 <= i <= |ids|
        invariant casts == cs.randomCasts + RandomCastsOf(ids[..i])
      {
        casts := casts + [ReferenceData(Effect, ids[i], 0)];
        assert ids[..i + 1][..i] == ids[..i];
        i := i + 1;
      }
      assert ids[..i] == ids;
    }
    var condition := cs.condition;
    match FirstChild(node) {
      case None =>
      case Some(first) =>
        condition := ParseBeginCondition(first, cs.condition);
    }
    r := ConditionSkill(reference, casts, condition);
  }

  /** A random-cast condition skill always takes the cast path: every cast is an Effect at level 0. */
  lemma RandomCastsAreEffects(node: Element, cs: ConditionSkill)
    requires forall c :: c in cs.randomCasts ==> c.kind == Effect && c.level == 0
    ensures forall c :: c in ConditionSkillOf(node, cs).randomCasts ==> c.kind == Effect && c.level == 0
  {
    var ids := ListAttribute(node, "skillID");
    RandomCastsOfIds(ids);
    forall c | c in RandomCastsOf(ids) ensures c.kind == Effect && c.level == 0 {
      var i :| 0 <= i < |RandomCastsOf(ids)| && RandomCastsOf(ids)[i] == c;
    }
  }
}
