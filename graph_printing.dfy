/**
 * `struct GraphData` (GraphPrinting.h/.cpp) as a class. The fields are the builder's two maps,
 * its two queues and the output stream, kept as a sequence of node and edge events. Every
 * method is proved to leave exactly the state the matching function of GraphModel or GraphRoots
 * computes from the old state; what those functions promise is proved there. The entity tables
 * the source reads as globals are passed in as a read-only `Store`.
 */
module GraphPrinting {
  import opened XmlData
  import opened GraphModel
  import opened GraphRoots

  class GraphData {
    /** `RootLabel`. `RootName`, the root node's identifier, is the endpoint `Root`. */
    const rootLabel: string
    var referencedSkills: map<int, seq<ReferenceData>>
    var referencedEffects: map<int, seq<ReferenceData>>
    var queuedSkills: seq<int>
    var queuedEffects: seq<int>
    var out: seq<Event>

    /** The fields as a value. */
    function State(): GraphState
      reads this
    {
      GraphState(referencedSkills, referencedEffects, queuedSkills, queuedEffects, out)
    }

    /** A fresh builder: no references, empty queues, nothing drawn. */
    constructor(rootLabel: string)
      ensures State() == EmptyGraph && GraphModel.Valid(State())
      ensures this.rootLabel == rootLabel
    {
      this.rootLabel := rootLabel;
      referencedSkills := map[];
      referencedEffects := map[];
      queuedSkills := [];
      queuedEffects := [];
      out := [];
    }

    /** `Dereference`: queues an id seen for the first time and returns the reference itself. */
    method Dereference(reference: ReferenceData) returns (r: ReferenceData)
      modifies this
      ensures r == reference
      ensures State() == Deref(old(State()), reference)
      ensures GraphModel.Valid(old(State())) ==> GraphModel.Valid(State())
    {
      var id := reference.id;
      r := reference;
      if reference.kind == Skill {
        if id in referencedSkills {
          return;
        }
        queuedSkills := queuedSkills + [id];
        referencedSkills := referencedSkills[id := []];
        return;
      }
      if id in referencedEffects {
        return;
      }
      queuedEffects := queuedEffects + [id];
      referencedEffects := referencedEffects[id := []];
    }

    /** Stores a caller's target list, creating its entry when missing (`operator[]`). */
    method SetTargets(caller: ReferenceData, list: seq<ReferenceData>)
      modifies this
      ensures State() == WithCallerList(old(State()), caller, list)
    {
      if caller.kind == Skill {
        referencedSkills := referencedSkills[caller.id := list];
      } else {
        referencedEffects := referencedEffects[caller.id := list];
      }
    }

    /** The search `Print` runs over a caller's targets: is a target of the same type and id linked? */
    static method FindLink(references: seq<ReferenceData>, target: ReferenceData) returns (linkReferenced: bool)
      ensures linkReferenced <==> Linked(references, target)
    {
      linkReferenced := false;
      var i := 0;
      while i < |references| && !linkReferenced
        invariant 0 <= i <= |references|
        invariant linkReferenced <==> Linked(references[..i], target)
      {
        if references[i].kind == target.kind && references[i].id == target.id {
          linkReferenced := true;
        }
        assert forall k :: 0 <= k < i ==> references[..i + 1][k] == references[..i][k];
        i := i + 1;
      }
      assert !linkReferenced ==> references[..i] == references;
      if linkReferenced {
        var k :| 0 <= k < i && references[..i][k].kind == target.kind && references[..i][k].id == target.id;
        assert references[k] == references[..i][k];
      }
    }

    /** The random-cast loop of `Print`. */
    method PrintRandomCasts(caller: ReferenceData, casts: seq<ReferenceData>, style: string)
      requires Known(State(), caller)
      modifies this
      ensures State() == PrintCasts(old(State()), caller, casts, style)
    {
      ghost var g := State();
      var i := 0;
      while i < |casts|
        invariant 0 <= i <= |casts|
        invariant State() == PrintCasts(g, caller, casts[..i], style)
      {
        var cast := casts[i];
        var references := CallerList(State(), caller);
        // The source searches for an earlier link to the same target but never reads the
        // answer: every random cast is linked and drawn.
        var linkReferenced := FindLink(references, cast);
        SetTargets(caller, references + [cast]);
        var target := Dereference(cast);
        out := out + [Edge(Ref(caller), Ref(target), RandomCastEdge(style))];
        PrintCastsSnoc(g, caller, casts, i, style);
        i := i + 1;
      }
      assert casts[..i] == casts;
    }

    /** `Print`: draws one trigger from a caller. */
    method Print(caller: ReferenceData, trigger: ConditionSkill, style: string)
      modifies this
      ensures State() == GraphModel.Print(old(State()), caller, trigger, style)
    {
      var references := CallerList(State(), caller);
      SetTargets(caller, references);
      if |trigger.randomCasts| > 0 {
        PrintRandomCasts(caller, trigger.randomCasts, style);
        return;
      }
      var linkReferenced := FindLink(references, trigger.reference);
      if linkReferenced {
        return;
      }
      SetTargets(caller, references + [trigger.reference]);
      var target := Dereference(trigger.reference);
      out := out + [Edge(Ref(caller), Ref(target), TriggerEdge(style))];
    }

    /** `out << source << " -> " << Dereference(target)`. */
    method DrawLink(source: Endpoint, target: ReferenceData, style: EdgeStyle)
      modifies this
      ensures State() == Link(old(State()), source, target, style)
    {
      var r := Dereference(target);
      out := out + [Edge(source, Ref(r), style)];
    }

    /** A loop of `DrawLink` over a list of targets. */
    method DrawLinks(source: Endpoint, targets: seq<ReferenceData>, style: EdgeStyle)
      modifies this
      ensures State() == LinkAll(old(State()), source, targets, style)
    {
      ghost var g := State();
      var j := 0;
      while j < |targets|
        invariant 0 <= j <= |targets|
        invariant State() == LinkAll(g, source, targets[..j], style)
      {
        DrawLink(source, targets[j], style);
        assert targets[..j + 1][..j] == targets[..j];
        j := j + 1;
      }
      assert targets[..j] == targets;
    }

    /** The search of the combo walk: was the next id already left? */
    static method Visited(visitedCombos: seq<int>, id: int) returns (alreadyVisited: bool)
      ensures alreadyVisited <==> id in visitedCombos
    {
      alreadyVisited := false;
      var i := 0;
      while i < |visitedCombos| && !alreadyVisited
        invariant 0 <= i <= |visitedCombos|
        invariant alreadyVisited <==> id in visitedCombos[..i]
      {
        if visitedCombos[i] == id {
          alreadyVisited := true;
        }
        assert visitedCombos[..i + 1] == visitedCombos[..i] + [visitedCombos[i]];
        i := i + 1;
      }
      assert !alreadyVisited ==> visitedCombos[..i] == visitedCombos;
    }

    /** The combo loop of `PrintRoot(const JobSkill&)`, from a stored skill. */
    method WalkCombos(store: Store, start: ReferenceData)
      requires LevelsPresent(store) && start.id in store.skills
      modifies this
      ensures State() == ComboWalk(ComboLinks(store), old(State()), start, [])
    {
      ghost var links := ComboLinks(store);
      ghost var g := State();
      var combo := start;
      var visitedCombos: seq<int> := [];
      while combo.id != 0
        invariant combo.id in store.skills
        invariant combo.id in visitedCombos ==> links[combo.id].id == combo.id
        invariant ComboWalk(links, State(), combo, visitedCombos) == ComboWalk(links, g, start, [])
        decreases |store.skills.Keys - SetOf(visitedCombos)|
      {
        var comboSkillLevel := BeginLevel(store.skills[combo.id].levels);
        var nextCombo := comboSkillLevel.combo.outputSkill;
        assert nextCombo == links[combo.id];
        var alreadyVisited := Visited(visitedCombos, nextCombo.id);
        if alreadyVisited {
          break;
        }
        if nextCombo.id !in store.skills {
          break;
        }
        WalkShrinks(store.skills.Keys, visitedCombos, combo.id);
        visitedCombos := visitedCombos + [combo.id];
        DrawLink(Ref(combo), nextCombo, ComboEdge);
        combo := nextCombo;
      }
    }

    /** The change-skill loop of `PrintRoot(const JobSkill&)`: a red edge per change skill whose id is not 0. */
    method DrawChangeSkills(skill: ReferenceData, changes: seq<ChangeSkillReference>)
      modifies this
      ensures State() == LinkAll(old(State()), Ref(skill), ChangeTargets(changes), ChangeSkillEdge)
    {
      ghost var g := State();
      var i := 0;
      while i < |changes|
        invariant 0 <= i <= |changes|
        invariant State() == LinkAll(g, Ref(skill), ChangeTargets(changes[..i]), ChangeSkillEdge)
      {
        var changeSkill := changes[i];
        ghost var targets := ChangeTargets(changes[..i]);
        assert changes[..i + 1][..i] == changes[..i];
        if changeSkill.skill.id == 0 {
          assert ChangeTargets(changes[..i + 1]) == targets;
          i := i + 1;
          continue;
        }
        assert ChangeTargets(changes[..i + 1]) == targets + [changeSkill.skill];
        assert (targets + [changeSkill.skill])[..|targets|] == targets;
        assert LinkAll(g, Ref(skill), targets + [changeSkill.skill], ChangeSkillEdge)
          == Link(LinkAll(g, Ref(skill), targets, ChangeSkillEdge), Ref(skill), changeSkill.skill, ChangeSkillEdge);
        DrawLink(Ref(skill), changeSkill.skill, ChangeSkillEdge);
        i := i + 1;
      }
      assert changes[..i] == changes;
    }

    /** `PrintRoot(const JobSkill&)`. */
    method PrintRoot(store: Store, jobSkill: JobSkill)
      requires LevelsPresent(store)
      modifies this
      ensures State() == RootSkill(store, old(State()), jobSkill)
      ensures GraphModel.Valid(old(State())) ==> GraphModel.Valid(State())
    {
      if GraphModel.Valid(State()) {
        RootSkillValid(store, State(), jobSkill);
      }
      if jobSkill.skill.id !in store.skills {
        return;
      }
      var skill := store.skills[jobSkill.skill.id];
      var skillLevel := BeginLevel(skill.levels);
      DrawLink(Root, jobSkill.skill, RootEdge);
      DrawLinks(Ref(jobSkill.skill), jobSkill.subSkills, SubSkillEdge);
      WalkCombos(store, jobSkill.skill);
      DrawChangeSkills(jobSkill.skill, skillLevel.changeSkillReferences);
    }

    /** `PrintRoot(const JobData&)`: the root node, then every job skill. */
    method PrintRootJob(store: Store, jobData: JobData)
      requires LevelsPresent(store)
      modifies this
      ensures State() == RootJob(store, old(State()), jobData, rootLabel)
      ensures GraphModel.Valid(old(State())) ==> GraphModel.Valid(State())
    {
      if GraphModel.Valid(State()) {
        RootJobValid(store, State(), jobData, rootLabel);
      }
      out := out + [Node(Root, RootLabel(rootLabel))];
      ghost var g := State();
      var i := 0;
      while i < |jobData.skills|
        invariant 0 <= i <= |jobData.skills|
        invariant State() == RootSkills(store, g, jobData.skills[..i])
      {
        PrintRoot(store, jobData.skills[i]);
        assert jobData.skills[..i + 1][..i] == jobData.skills[..i];
        i := i + 1;
      }
      assert jobData.skills[..i] == jobData.skills;
    }

    /** `PrintRoot(const SetBonusData&)`: the root node, then each tier of the set's option. */
    method PrintRootSetBonus(store: Store, setData: SetBonusData)
      requires setData.optionData.Some? && setData.optionData.value in store.setBonusOptions
      modifies this
      ensures State() == RootSetBonus(store, old(State()), setData, rootLabel)
      ensures GraphModel.Valid(old(State())) ==> GraphModel.Valid(State())
    {
      if GraphModel.Valid(State()) {
        RootSetBonusValid(store, State(), setData, rootLabel);
      }
      out := out + [Node(Root, RootLabel(rootLabel))];
      ghost var g := State();
      var parts := store.setBonusOptions[setData.optionData.value].parts;
      var i := 0;
      while i < |parts|
        invariant 0 <= i <= |parts|
        invariant State() == TierParts(g, parts[..i])
      {
        var part := parts[i];
        out := out + [Node(Tier(part.count), TierLabel(part.count))];
        out := out + [Edge(Root, Tier(part.count), TierEdge)];
        DrawLinks(Tier(part.count), part.additionalEffects, TierEffectEdge);
        assert parts[..i + 1][..i] == parts[..i];
        i := i + 1;
      }
      assert parts[..i] == parts;
    }

    /** `Print` for each trigger of a list, in order. */
    method PrintEach(caller: ReferenceData, triggers: seq<ConditionSkill>, style: string)
      modifies this
      ensures State() == PrintTriggers(old(State()), caller, triggers, style)
    {
      ghost var g := State();
      var i := 0;
      while i < |triggers|
        invariant 0 <= i <= |triggers|
        invariant State() == PrintTriggers(g, caller, triggers[..i], style)
      {
        Print(caller, triggers[i], style);
        assert triggers[..i + 1][..i] == triggers[..i];
        i := i + 1;
      }
      assert triggers[..i] == triggers;
    }

    /** The body of the skill loop of `PrintLinked` for a stored skill. */
    method ExpandSkill(store: Store, skillId: int)
      requires LevelsPresent(store) && skillId in store.skills
      modifies this
      ensures State() == ProcessSkill(store, old(State()), skillId)
    {
      var skill := store.skills[skillId];
      var caller := SkillNode(skillId);
      out := out + [Node(Ref(caller), SkillBox(skillId, skill.name))];
      var skillLevel := BeginLevel(skill.levels);
      PrintEach(caller, skillLevel.passives, PassiveStyle);
      ghost var passives := State();
      var motions := skillLevel.motions;
      var m := 0;
      while m < |motions|
        invariant 0 <= m <= |motions|
        invariant State() == PrintMotions(passives, caller, motions[..m])
      {
        var attacks := motions[m].attacks;
        ghost var before := State();
        var a := 0;
        while a < |attacks|
          invariant 0 <= a <= |attacks|
          invariant State() == PrintAttacks(before, caller, attacks[..a])
        {
          PrintEach(caller, attacks[a].triggers, "");
          assert attacks[..a + 1][..a] == attacks[..a];
          a := a + 1;
        }
        assert attacks[..a] == attacks;
        assert motions[..m + 1][..m] == motions[..m];
        m := m + 1;
      }
      assert motions[..m] == motions;
    }

    /** The body of the effect loop of `PrintLinked` for a stored effect. */
    method ExpandEffect(store: Store, effectId: int)
      requires LevelsPresent(store) && effectId in store.effects
      modifies this
      ensures State() == ProcessEffect(store, old(State()), effectId)
    {
      var effectLevel := BeginLevel(store.effects[effectId].levels);
      var caller := EffectNode(effectId);
      out := out + [Node(Ref(caller), EffectEllipse(effectId, effectLevel.name))];
      PrintEach(caller, effectLevel.triggers, "");
    }

    /** One pass of the skill loop of `PrintLinked`: the skill at `skillIndex` is expanded when the store has it. */
    method ExpandQueuedSkill(store: Store, skillIndex: nat)
      requires LevelsPresent(store) && skillIndex < |queuedSkills|
      modifies this
      ensures State() == ProcessSkill(store, old(State()), old(queuedSkills[skillIndex]))
    {
      var skillId := queuedSkills[skillIndex];
      if skillId in store.skills {
        ExpandSkill(store, skillId);
      }
    }

    /** One pass of the effect loop of `PrintLinked`: the effect at `effectIndex` is expanded when the store has it. */
    method ExpandQueuedEffect(store: Store, effectIndex: nat)
      requires LevelsPresent(store) && effectIndex < |queuedEffects|
      modifies this
      ensures State() == ProcessEffect(store, old(State()), old(queuedEffects[effectIndex]))
    {
      var effectId := queuedEffects[effectIndex];
      if effectId in store.effects {
        ExpandEffect(store, effectId);
      }
    }

    /**
     * The skill loop of `PrintLinked`: expands queued skills until the skill queue is exhausted.
     * `u` bounds the ids the store's triggers name, which bounds how long the queues can grow.
     */
    method DrainSkills(store: Store, ghost u: set<int>, skillIndex0: nat, effectIndex: nat) returns (skillIndex: nat)
      requires LevelsPresent(store) && StoreWithin(store, u) && GraphModel.Valid(State())
      requires skillIndex0 <= |queuedSkills| && effectIndex <= |queuedEffects|
      modifies this
      ensures State() == SkillPass(store, u, old(State()), skillIndex0, effectIndex)
      ensures skillIndex == |queuedSkills|
    {
      ghost var g := State();
      ghost var budget := Budget(u, g);
      skillIndex := skillIndex0;
      PositionsWithinBudget(u, State(), skillIndex, effectIndex);
      while |queuedSkills| > skillIndex
        invariant GraphModel.Valid(State()) && Budget(u, State()) == budget
        invariant skillIndex <= |queuedSkills| && effectIndex <= |queuedEffects|
        invariant skillIndex + effectIndex <= budget
        invariant SkillPass(store, u, State(), skillIndex, effectIndex) == SkillPass(store, u, g, skillIndex0, effectIndex)
        decreases budget - skillIndex - effectIndex
      {
        SkillKeepsBudget(store, State(), skillIndex, u);
        ExpandQueuedSkill(store, skillIndex);
        skillIndex := skillIndex + 1;
        PositionsWithinBudget(u, State(), skillIndex, effectIndex);
      }
    }

    /** The effect loop of `PrintLinked`: expands queued effects until the effect queue is exhausted. */
    method DrainEffects(store: Store, ghost u: set<int>, skillIndex: nat, effectIndex0: nat) returns (effectIndex: nat)
      requires LevelsPresent(store) && StoreWithin(store, u) && GraphModel.Valid(State())
      requires skillIndex <= |queuedSkills| && effectIndex0 <= |queuedEffects|
      modifies this
      ensures State() == EffectPass(store, u, old(State()), skillIndex, effectIndex0)
      ensures effectIndex == |queuedEffects|
    {
      ghost var g := State();
      ghost var budget := Budget(u, g);
      effectIndex := effectIndex0;
      PositionsWithinBudget(u, State(), skillIndex, effectIndex);
      while |queuedEffects| > effectIndex
        invariant GraphModel.Valid(State()) && Budget(u, State()) == budget
        invariant skillIndex <= |queuedSkills| && effectIndex <= |queuedEffects|
        invariant skillIndex + effectIndex <= budget
        invariant EffectPass(store, u, State(), skillIndex, effectIndex) == EffectPass(store, u, g, skillIndex, effectIndex0)
        decreases budget - skillIndex - effectIndex
      {
        EffectKeepsBudget(store, State(), effectIndex, u);
        ExpandQueuedEffect(store, effectIndex);
        effectIndex := effectIndex + 1;
        PositionsWithinBudget(u, State(), skillIndex, effectIndex);
      }
    }

    /**
     * `PrintLinked`: drains both queues, skills first, until neither has ids left; expanding an
     * id can queue more of either kind. The bound of the drawing is the set of ids the stored
     * triggers name; by `DrainAnyBound` any other bound the store stays within gives the same.
     */
    method PrintLinked(store: Store)
      requires LevelsPresent(store) && GraphModel.Valid(State())
      modifies this
      ensures StoreWithin(store, StoreTargets(store))
      ensures State() == Drain(store, StoreTargets(store), old(State()), 0, 0, false)
      ensures GraphModel.Valid(State())
    {
      ghost var g := State();
      ghost var u := StoreTargets(store);
      StoreTargetsWithin(store);
      ghost var budget := Budget(u, g);
      ghost var drawn := Drain(store, u, g, 0, 0, false);
      var skillIndex: nat := 0;
      var effectIndex: nat := 0;
      PositionsWithinBudget(u, State(), skillIndex, effectIndex);
      while |queuedSkills| > skillIndex || |queuedEffects| > effectIndex
        invariant GraphModel.Valid(State()) && Budget(u, State()) == budget
        invariant skillIndex <= |queuedSkills| && effectIndex <= |queuedEffects|
        invariant skillIndex + effectIndex <= budget
        invariant Drain(store, u, State(), skillIndex, effectIndex, false) == drawn
        decreases budget - skillIndex - effectIndex
      {
        SkillPassDrain(store, u, State(), skillIndex, effectIndex);
        skillIndex := DrainSkills(store, u, skillIndex, effectIndex);
        DrainPhase(store, u, State(), skillIndex, effectIndex);
        EffectPassDrain(store, u, State(), skillIndex, effectIndex);
        effectIndex := DrainEffects(store, u, skillIndex, effectIndex);
        DrainPhase(store, u, State(), skillIndex, effectIndex);
        PositionsWithinBudget(u, State(), skillIndex, effectIndex);
      }
    }
  }
}
