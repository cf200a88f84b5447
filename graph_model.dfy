/**
 * GraphPrinting.h/.cpp as a specification. The builder's state is two id-keyed maps from a
 * caller to the targets already linked from it, two FIFO queues of ids waiting to be expanded,
 * and the output stream, here a sequence of abstract node and edge events (the DOT text, its
 * quoting and colours are not modelled; a style is an opaque label). Every member of
 * `GraphData` is a function from the old state to the new one; the class in module
 * GraphPrinting is proved against these functions, and the lemmas here state what they promise.
 *
 * The entity store is read only. `Levels.begin()` picks the least level number (see
 * XmlData.BeginLevel), which needs every skill and effect record to have a level.
 */
module GraphModel {
  import opened XmlData
  import Wrappers
  import XmlTree
  import ParserUtils
  import FeatureGate
  import EffectParsing
  import SkillParsing

  /** What an output line can name: the run's root, a reference, or a set-bonus tier node "set<count>". */
  datatype Endpoint = Root | Ref(ref: ReferenceData) | Tier(count: int)

  /** How an edge is drawn. */
  datatype EdgeStyle =
    | RootEdge                      // root -> main skill of a job skill
    | SubSkillEdge                  // main skill -> sub skill (undirected, blue)
    | ComboEdge                     // combo chain step (green)
    | ChangeSkillEdge               // alternate form of a skill (red)
    | TriggerEdge(style: string)    // a trigger, with the style text the caller passed
    | RandomCastEdge(style: string) // one random-cast alternative (orange)
    | TierEdge                      // root -> set-bonus tier
    | TierEffectEdge                // set-bonus tier -> effect

  /** The label of a node line. */
  datatype NodeLabel =
    | RootLabel(text: string)
    | SkillBox(id: int, name: string)
    | EffectEllipse(id: int, name: string)
    | TierLabel(count: int)

  datatype Event = Node(at: Endpoint, caption: NodeLabel) | Edge(source: Endpoint, target: Endpoint, style: EdgeStyle)

  /** The style text `PrintLinked` passes for a skill's passive triggers; every other trigger gets "". */
  const PassiveStyle := "[color=\"purple\"]"

  /** `GraphData` without its stream handle and names. */
  datatype GraphState = GraphState(
    referencedSkills: map<int, seq<ReferenceData>>,
    referencedEffects: map<int, seq<ReferenceData>>,
    queuedSkills: seq<int>,
    queuedEffects: seq<int>,
    out: seq<Event>)

  const EmptyGraph := GraphState(map[], map[], [], [], [])

  predicate NoDup(s: seq<int>)
  {
    forall i, j :: 0 <= i < j < |s| ==> s[i] != s[j]
  }

  /** A queue holds each id once, and exactly the ids its map has as keys. */
  ghost predicate QueueMatches(q: seq<int>, m: map<int, seq<ReferenceData>>)
  {
    NoDup(q) && forall id :: id in q <==> id in m
  }

  /** The builder's invariant: both queues match their maps. */
  ghost predicate Valid(g: GraphState)
  {
    QueueMatches(g.queuedSkills, g.referencedSkills) && QueueMatches(g.queuedEffects, g.referencedEffects)
  }

  /** Every skill and effect record has at least one level, so `Levels.begin()` is defined. */
  ghost predicate LevelsPresent(store: Store)
  {
    && (forall id :: id in store.skills ==> store.skills[id].levels != map[])
    && (forall id :: id in store.effects ==> store.effects[id].levels != map[])
  }

  /**
   * `LevelsPresent` is not something ingestion guarantees. A skill file whose root the gate
   * rejects still inserts the record for its id (XmlParsing.cpp:233, before the gate at :244), and
   * that record has no level, so `Levels.begin()->second` of it would be undefined.
   */
  lemma RejectedSkillFileLacksLevels(table: FeatureGate.FeatureTable, requested: string, store: Store,
                                     skillId: int, root: XmlTree.Element)
    requires SkillParsing.SkillDocumentWellFormed(root)
    requires skillId !in store.skills
    requires !FeatureGate.IsNodeEnabled(table, requested, root, ParserUtils.FreshSettings, ParserUtils.FreshSettings).enabled
    ensures !LevelsPresent(SkillParsing.SkillFileOf(table, requested, store, skillId, root))
  {
    SkillParsing.SkillFileFrame(table, requested, store, skillId, root);
  }

  /** The same for an additional-effect file (the record is inserted at XmlParsing.cpp:102, the gate is at :113). */
  lemma RejectedEffectFileLacksLevels(table: FeatureGate.FeatureTable, requested: string, store: Store,
                                      effectId: int, root: XmlTree.Element)
    requires EffectParsing.EffectDocumentWellFormed(root)
    requires effectId !in store.effects
    requires !FeatureGate.IsNodeEnabled(table, requested, root, ParserUtils.FreshSettings, ParserUtils.FreshSettings).enabled
    ensures !LevelsPresent(EffectParsing.EffectFileOf(table, requested, store, effectId, root))
  {
    EffectParsing.EffectFileFrame(table, requested, store, effectId, root);
  }

  /** A reference is known when its id is a key of the map for its kind: skills for Skill, effects otherwise. */
  predicate Known(g: GraphState, r: ReferenceData)
  {
    if r.kind == Skill then r.id in g.referencedSkills else r.id in g.referencedEffects
  }

  function Emit(g: GraphState, e: Event): (h: GraphState)
  {
    g.(out := g.out + [e])
  }

  /**
   * `Dereference`: the only way an id enters a queue. A reference whose id is not yet a key of
   * its kind's map is queued and recorded with an empty target list; otherwise nothing changes.
   * Only the id is the key: the level plays no part.
   */
  function Deref(g: GraphState, r: ReferenceData): (h: GraphState)
    ensures Known(h, r)
    ensures Known(g, r) ==> h == g
    ensures !Known(g, r) && r.kind == Skill ==>
      && h.queuedSkills == g.queuedSkills + [r.id]
      && h.referencedSkills == g.referencedSkills[r.id := []]
      && h.queuedEffects == g.queuedEffects && h.referencedEffects == g.referencedEffects && h.out == g.out
    ensures !Known(g, r) && r.kind != Skill ==>
      && h.queuedEffects == g.queuedEffects + [r.id]
      && h.referencedEffects == g.referencedEffects[r.id := []]
      && h.queuedSkills == g.queuedSkills && h.referencedSkills == g.referencedSkills && h.out == g.out
    ensures Valid(g) ==> Valid(h)
  {
    if r.kind == Skill then
      if r.id in g.referencedSkills then g
      else g.(queuedSkills := g.queuedSkills + [r.id], referencedSkills := g.referencedSkills[r.id := []])
    else
      if r.id in g.referencedEffects then g
      else g.(queuedEffects := g.queuedEffects + [r.id], referencedEffects := g.referencedEffects[r.id := []])
  }

  /**
   * Dereferencing twice, or with a reference that differs only in its level, is the same as
   * dereferencing once: the second call is a pure lookup.
   */
  lemma DerefIdempotent(g: GraphState, r: ReferenceData, level: int)
    ensures Deref(Deref(g, r), r) == Deref(g, r)
    ensures Deref(Deref(g, r), r.(level := level)) == Deref(g, r)
  {
    assert Known(Deref(g, r), r.(level := level));
  }

  /** The target list `ReferencedSkills[caller.Id]` (or the effect one) reads; a missing key reads as empty. */
  function CallerList(g: GraphState, caller: ReferenceData): seq<ReferenceData>
  {
    if caller.kind == Skill then
      if caller.id in g.referencedSkills then g.referencedSkills[caller.id] else []
    else
      if caller.id in g.referencedEffects then g.referencedEffects[caller.id] else []
  }

  /** Storing a caller's target list (`operator[]` creates the key when it is missing). */
  function WithCallerList(g: GraphState, caller: ReferenceData, list: seq<ReferenceData>): (h: GraphState)
    ensures Known(h, caller) && CallerList(h, caller) == list
  {
    if caller.kind == Skill then g.(referencedSkills := g.referencedSkills[caller.id := list])
    else g.(referencedEffects := g.referencedEffects[caller.id := list])
  }

  /** Some entry of `refs` has the same type and id as `r` (the level is not compared). */
  predicate Linked(refs: seq<ReferenceData>, r: ReferenceData)
  {
    exists i :: 0 <= i < |refs| && refs[i].kind == r.kind && refs[i].id == r.id
  }

  /** The random-cast loop of `Print`: every cast is appended, dereferenced and drawn, with no dedup. */
  function PrintCasts(g: GraphState, caller: ReferenceData, casts: seq<ReferenceData>, style: string): (h: GraphState)
    requires Known(g, caller)
    ensures Known(h, caller)
    ensures CallerList(h, caller) == CallerList(g, caller) + casts
    ensures |h.out| == |g.out| + |casts| && h.out[..|g.out|] == g.out
    ensures forall i :: 0 <= i < |casts| ==> h.out[|g.out| + i] == Edge(Ref(caller), Ref(casts[i]), RandomCastEdge(style))
    decreases |casts|
  {
    if casts == [] then g
    else
      var prev := PrintCasts(g, caller, casts[..|casts| - 1], style);
      var cast := casts[|casts| - 1];
      var linked := WithCallerList(prev, caller, CallerList(prev, caller) + [cast]);
      assert casts[..|casts| - 1] + [cast] == casts;
      Wrappers.AppendAssociative(CallerList(g, caller), casts[..|casts| - 1], [cast]);
      Emit(Deref(linked, cast), Edge(Ref(caller), Ref(cast), RandomCastEdge(style)))
  }

  /** One more cast: the list of casts drawn so far grows by the cast at `i`. */
  lemma PrintCastsSnoc(g: GraphState, caller: ReferenceData, casts: seq<ReferenceData>, i: nat, style: string)
    requires Known(g, caller) && i < |casts|
    ensures var prev := PrintCasts(g, caller, casts[..i], style);
      var linked := WithCallerList(prev, caller, CallerList(prev, caller) + [casts[i]]);
      PrintCasts(g, caller, casts[..i + 1], style) == Emit(Deref(linked, casts[i]), Edge(Ref(caller), Ref(casts[i]), RandomCastEdge(style)))
  {
    assert casts[..i + 1][..i] == casts[..i];
  }

  /**
   * `Print`: draws a trigger from a caller. With random casts, one edge per cast and no dedup;
   * otherwise the target is linked and drawn once, unless the caller already links a target of
   * the same type and id. The caller's entry is created if it was missing.
   */
  function Print(g: GraphState, caller: ReferenceData, trigger: ConditionSkill, style: string): (h: GraphState)
    ensures Known(h, caller)
    ensures |trigger.randomCasts| > 0 ==>
      && CallerList(h, caller) == CallerList(g, caller) + trigger.randomCasts
      && |h.out| == |g.out| + |trigger.randomCasts| && h.out[..|g.out|] == g.out
      && forall i :: 0 <= i < |trigger.randomCasts| ==>
           h.out[|g.out| + i] == Edge(Ref(caller), Ref(trigger.randomCasts[i]), RandomCastEdge(style))
    ensures |trigger.randomCasts| == 0 && Linked(CallerList(g, caller), trigger.reference) ==>
      h == WithCallerList(g, caller, CallerList(g, caller))
    ensures |trigger.randomCasts| == 0 && Linked(CallerList(g, caller), trigger.reference) && Known(g, caller) ==>
      h == g
    ensures |trigger.randomCasts| == 0 && !Linked(CallerList(g, caller), trigger.reference) ==>
      && CallerList(h, caller) == CallerList(g, caller) + [trigger.reference]
      && h.out == g.out + [Edge(Ref(caller), Ref(trigger.reference), TriggerEdge(style))]
      && Known(h, trigger.reference)
  {
    var refs := CallerList(g, caller);
    var touched := WithCallerList(g, caller, refs);
    if |trigger.randomCasts| > 0 then
      PrintCasts(touched, caller, trigger.randomCasts, style)
    else if Linked(refs, trigger.reference) then
      touched
    else
      var linked := WithCallerList(touched, caller, refs + [trigger.reference]);
      Emit(Deref(linked, trigger.reference), Edge(Ref(caller), Ref(trigger.reference), TriggerEdge(style)))
  }

  /** Every random cast is dereferenced, so the queues keep matching their maps. */
  lemma {:induction false} PrintCastsValid(g: GraphState, caller: ReferenceData, casts: seq<ReferenceData>, style: string)
    requires Known(g, caller) && Valid(g)
    ensures Valid(PrintCasts(g, caller, casts, style))
    decreases |casts|
  {
    if casts != [] {
      PrintCastsValid(g, caller, casts[..|casts| - 1], style);
      var prev := PrintCasts(g, caller, casts[..|casts| - 1], style);
      var linked := WithCallerList(prev, caller, CallerList(prev, caller) + [casts[|casts| - 1]]);
      assert linked.referencedSkills.Keys == prev.referencedSkills.Keys;
      assert linked.referencedEffects.Keys == prev.referencedEffects.Keys;
      assert Valid(linked);
    }
  }

  /** `Print` from a known caller keeps each queue matching its map. */
  lemma PrintValid(g: GraphState, caller: ReferenceData, trigger: ConditionSkill, style: string)
    ensures Known(g, caller) && Valid(g) ==> Valid(Print(g, caller, trigger, style))
  {
    if Known(g, caller) && Valid(g) {
      PrintKnownValid(g, caller, trigger, style);
    }
  }

  lemma PrintKnownValid(g: GraphState, caller: ReferenceData, trigger: ConditionSkill, style: string)
    requires Known(g, caller) && Valid(g)
    ensures Valid(Print(g, caller, trigger, style))
  {
    var refs := CallerList(g, caller);
    var touched := WithCallerList(g, caller, refs);
    assert touched.referencedSkills.Keys == g.referencedSkills.Keys;
    assert touched.referencedEffects.Keys == g.referencedEffects.Keys;
    assert Valid(touched);
    if |trigger.randomCasts| > 0 {
      PrintCastsValid(touched, caller, trigger.randomCasts, style);
    } else if !Linked(refs, trigger.reference) {
      var linked := WithCallerList(touched, caller, refs + [trigger.reference]);
      assert linked.referencedSkills.Keys == g.referencedSkills.Keys;
      assert linked.referencedEffects.Keys == g.referencedEffects.Keys;
      assert Valid(linked);
    }
  }

  /** No two entries of a target list have the same type and id. */
  predicate DistinctLinks(refs: seq<ReferenceData>)
  {
    forall i, j :: 0 <= i < j < |refs| ==> refs[i].kind != refs[j].kind || refs[i].id != refs[j].id
  }

  /**
   * Single-target triggers never link the same target twice from one caller: a caller's target
   * list stays free of repeated (type, id) pairs, and so does the set of edges drawn from it.
   */
  lemma PrintKeepsLinksDistinct(g: GraphState, caller: ReferenceData, trigger: ConditionSkill, style: string)
    requires |trigger.randomCasts| == 0
    requires DistinctLinks(CallerList(g, caller))
    ensures DistinctLinks(CallerList(Print(g, caller, trigger, style), caller))
  {
    var refs := CallerList(g, caller);
    var h := Print(g, caller, trigger, style);
    if !Linked(refs, trigger.reference) {
      var list := refs + [trigger.reference];
      assert CallerList(h, caller) == list;
      forall i, j | 0 <= i < j < |list| ensures list[i].kind != list[j].kind || list[i].id != list[j].id {
        if j == |refs| {
          assert list[i] == refs[i];
        }
      }
    }
  }

  /** Random casts are not deduplicated: the same cast listed twice is drawn twice. */
  lemma RandomCastsNotDeduplicated(g: GraphState, caller: ReferenceData, reference: ReferenceData,
                                   cast: ReferenceData, condition: BeginCondition, style: string)
    ensures var h := Print(g, caller, ConditionSkill(reference, [cast, cast], condition), style);
      var e := Edge(Ref(caller), Ref(cast), RandomCastEdge(style));
      h.out == g.out + [e, e] && CallerList(h, caller) == CallerList(g, caller) + [cast, cast]
  {
    var trigger := ConditionSkill(reference, [cast, cast], condition);
    var h := Print(g, caller, trigger, style);
    var e := Edge(Ref(caller), Ref(cast), RandomCastEdge(style));
    var n := |g.out|;
    assert |trigger.randomCasts| == 2 && trigger.randomCasts[0] == cast && trigger.randomCasts[1] == cast;
    assert h.out[n + 0] == e && h.out[n + 1] == e;
    TwoAppended(g.out, h.out, e);
  }

  lemma TwoAppended<T>(a: seq<T>, b: seq<T>, x: T)
    requires |b| == |a| + 2 && b[..|a|] == a && b[|a|] == x && b[|a| + 1] == x
    ensures b == a + [x, x]
  {
    assert b == b[..|a|] + [b[|a|], b[|a| + 1]];
  }

  /** `Print` applied to each trigger of a list in order, from one caller with one style. */
  function PrintTriggers(g: GraphState, caller: ReferenceData, triggers: seq<ConditionSkill>, style: string): (h: GraphState)
    ensures triggers != [] ==> Known(h, caller)
    decreases |triggers|
  {
    if triggers == [] then g
    else Print(PrintTriggers(g, caller, triggers[..|triggers| - 1], style), caller, triggers[|triggers| - 1], style)
  }

  /** The triggers of every attack, in order, with the default style. */
  function PrintAttacks(g: GraphState, caller: ReferenceData, attacks: seq<SkillAttack>): (h: GraphState)
    decreases |attacks|
  {
    if attacks == [] then g
    else PrintTriggers(PrintAttacks(g, caller, attacks[..|attacks| - 1]), caller, attacks[|attacks| - 1].triggers, "")
  }

  /** The attack triggers of every motion, in order. */
  function PrintMotions(g: GraphState, caller: ReferenceData, motions: seq<SkillMotion>): (h: GraphState)
    decreases |motions|
  {
    if motions == [] then g
    else PrintAttacks(PrintMotions(g, caller, motions[..|motions| - 1]), caller, motions[|motions| - 1].attacks)
  }

  /** Drawing a known caller's triggers keeps the state valid and the caller known. */
  lemma {:induction false} PrintTriggersValid(g: GraphState, caller: ReferenceData, triggers: seq<ConditionSkill>, style: string)
    requires Valid(g) && Known(g, caller)
    ensures var h := PrintTriggers(g, caller, triggers, style); Valid(h) && Known(h, caller)
    decreases |triggers|
  {
    if triggers != [] {
      PrintTriggersValid(g, caller, triggers[..|triggers| - 1], style);
      PrintKnownValid(PrintTriggers(g, caller, triggers[..|triggers| - 1], style), caller, triggers[|triggers| - 1], style);
    }
  }

  lemma {:induction false} PrintAttacksValid(g: GraphState, caller: ReferenceData, attacks: seq<SkillAttack>)
    requires Valid(g) && Known(g, caller)
    ensures var h := PrintAttacks(g, caller, attacks); Valid(h) && Known(h, caller)
    decreases |attacks|
  {
    if attacks != [] {
      PrintAttacksValid(g, caller, attacks[..|attacks| - 1]);
      PrintTriggersValid(PrintAttacks(g, caller, attacks[..|attacks| - 1]), caller, attacks[|attacks| - 1].triggers, "");
    }
  }

  lemma {:induction false} PrintMotionsValid(g: GraphState, caller: ReferenceData, motions: seq<SkillMotion>)
    requires Valid(g) && Known(g, caller)
    ensures var h := PrintMotions(g, caller, motions); Valid(h) && Known(h, caller)
    decreases |motions|
  {
    if motions != [] {
      PrintMotionsValid(g, caller, motions[..|motions| - 1]);
      PrintAttacksValid(PrintMotions(g, caller, motions[..|motions| - 1]), caller, motions[|motions| - 1].attacks);
    }
  }

  /** The node a queued skill id is drawn as, and the caller its triggers are drawn from. */
  function SkillNode(id: int): ReferenceData { ReferenceData(Skill, id, 0) }
  function EffectNode(id: int): ReferenceData { ReferenceData(Effect, id, 0) }

  /**
   * One round of the skill loop of `PrintLinked`: a skill missing from the store is skipped;
   * otherwise its node is drawn, then its passive triggers (purple) and every attack trigger of
   * every motion of the level `Levels.begin()` yields.
   */
  function ProcessSkill(store: Store, g: GraphState, id: int): (h: GraphState)
    requires LevelsPresent(store)
  {
    if id !in store.skills then g
    else
      var skill := store.skills[id];
      var level := BeginLevel(skill.levels);
      var drawn := Emit(g, Node(Ref(SkillNode(id)), SkillBox(id, skill.name)));
      PrintMotions(PrintTriggers(drawn, SkillNode(id), level.passives, PassiveStyle), SkillNode(id), level.motions)
  }

  /** One round of the effect loop of `PrintLinked`, over the triggers of the level `Levels.begin()` yields. */
  function ProcessEffect(store: Store, g: GraphState, id: int): (h: GraphState)
    requires LevelsPresent(store)
  {
    if id !in store.effects then g
    else
      var level := BeginLevel(store.effects[id].levels);
      var drawn := Emit(g, Node(Ref(EffectNode(id)), EffectEllipse(id, level.name)));
      PrintTriggers(drawn, EffectNode(id), level.triggers, "")
  }

  /** The ids a trigger can dereference: its random casts when it has any, else its own target. */
  ghost function TriggerTargets(t: ConditionSkill): set<int>
  {
    if |t.randomCasts| > 0 then set c | c in t.randomCasts :: c.id else {t.reference.id}
  }

  ghost function TriggersTargets(triggers: seq<ConditionSkill>): set<int>
  {
    set t, x | t in triggers && x in TriggerTargets(t) :: x
  }

  ghost function MotionsTargets(motions: seq<SkillMotion>): set<int>
  {
    set m, a, x | m in motions && a in m.attacks && x in TriggersTargets(a.triggers) :: x
  }

  /** The ids the triggers of the level a stored skill is drawn from can dereference. */
  ghost function SkillTargets(store: Store, id: int): set<int>
    requires LevelsPresent(store) && id in store.skills
  {
    var level := BeginLevel(store.skills[id].levels);
    TriggersTargets(level.passives) + MotionsTargets(level.motions)
  }

  ghost function EffectTargets(store: Store, id: int): set<int>
    requires LevelsPresent(store) && id in store.effects
  {
    TriggersTargets(BeginLevel(store.effects[id].levels).triggers)
  }

  /**
   * Every id a drain over this store can dereference: the targets of the triggers of the level
   * each skill and effect record is drawn from. A finite set, which bounds the queues.
   */
  ghost function StoreTargets(store: Store): set<int>
    requires LevelsPresent(store)
  {
    (set id, x | id in store.skills && x in SkillTargets(store, id) :: x)
    + (set id, x | id in store.effects && x in EffectTargets(store, id) :: x)
  }

  ghost predicate TriggersWithin(triggers: seq<ConditionSkill>, u: set<int>)
  {
    forall i :: 0 <= i < |triggers| ==> TriggerTargets(triggers[i]) <= u
  }

  ghost predicate AttacksWithin(attacks: seq<SkillAttack>, u: set<int>)
  {
    forall i :: 0 <= i < |attacks| ==> TriggersWithin(attacks[i].triggers, u)
  }

  ghost predicate MotionsWithin(motions: seq<SkillMotion>, u: set<int>)
  {
    forall i :: 0 <= i < |motions| ==> AttacksWithin(motions[i].attacks, u)
  }

  /** The triggers of the level a stored skill or effect is drawn from only reach ids of `StoreTargets`. */
  lemma SkillTargetsWithin(store: Store, id: int)
    requires LevelsPresent(store) && id in store.skills
    ensures TriggersWithin(BeginLevel(store.skills[id].levels).passives, StoreTargets(store))
    ensures MotionsWithin(BeginLevel(store.skills[id].levels).motions, StoreTargets(store))
  {
    var level := BeginLevel(store.skills[id].levels);
    forall i, x | 0 <= i < |level.passives| && x in TriggerTargets(level.passives[i])
      ensures x in StoreTargets(store)
    {
      assert x in TriggersTargets(level.passives);
      assert x in SkillTargets(store, id);
    }
    forall m, a, i, x | 0 <= m < |level.motions| && 0 <= a < |level.motions[m].attacks|
        && 0 <= i < |level.motions[m].attacks[a].triggers| && x in TriggerTargets(level.motions[m].attacks[a].triggers[i])
      ensures x in StoreTargets(store)
    {
      var attack := level.motions[m].attacks[a];
      assert x in TriggersTargets(attack.triggers);
      assert attack in level.motions[m].attacks;
      assert x in MotionsTargets(level.motions);
      assert x in SkillTargets(store, id);
    }
  }

  lemma EffectTargetsWithin(store: Store, id: int)
    requires LevelsPresent(store) && id in store.effects
    ensures TriggersWithin(BeginLevel(store.effects[id].levels).triggers, StoreTargets(store))
  {
    var level := BeginLevel(store.effects[id].levels);
    forall i, x | 0 <= i < |level.triggers| && x in TriggerTargets(level.triggers[i])
      ensures x in StoreTargets(store)
    {
      assert x in TriggersTargets(level.triggers);
      assert x in EffectTargets(store, id);
    }
  }

  /** The triggers of the level every stored skill and effect is drawn from only reach ids of `u`. */
  ghost predicate StoreWithin(store: Store, u: set<int>)
    requires LevelsPresent(store)
  {
    && (forall id :: id in store.skills ==>
          TriggersWithin(BeginLevel(store.skills[id].levels).passives, u) && MotionsWithin(BeginLevel(store.skills[id].levels).motions, u))
    && (forall id :: id in store.effects ==> TriggersWithin(BeginLevel(store.effects[id].levels).triggers, u))
  }

  lemma StoreTargetsWithin(store: Store)
    requires LevelsPresent(store)
    ensures StoreWithin(store, StoreTargets(store))
  {
    forall id | id in store.skills
      ensures TriggersWithin(BeginLevel(store.skills[id].levels).passives, StoreTargets(store))
      ensures MotionsWithin(BeginLevel(store.skills[id].levels).motions, StoreTargets(store))
    {
      SkillTargetsWithin(store, id);
    }
    forall id | id in store.effects
      ensures TriggersWithin(BeginLevel(store.effects[id].levels).triggers, StoreTargets(store))
    {
      EffectTargetsWithin(store, id);
    }
  }

  /**
   * `h` grew from `g` only by dereferencing ids of `u`: the queues and the output were only
   * appended to, and every new key is in `u`.
   */
  ghost predicate Extends(g: GraphState, h: GraphState, u: set<int>)
  {
    && g.queuedSkills <= h.queuedSkills && g.queuedEffects <= h.queuedEffects
    && g.referencedSkills.Keys <= h.referencedSkills.Keys <= g.referencedSkills.Keys + u
    && g.referencedEffects.Keys <= h.referencedEffects.Keys <= g.referencedEffects.Keys + u
    && g.out <= h.out
  }

  /** `h` extends `g` and everything it appended to the output is an edge. */
  ghost predicate Draws(g: GraphState, h: GraphState, u: set<int>)
  {
    Extends(g, h, u) && forall i :: |g.out| <= i < |h.out| ==> h.out[i].Edge?
  }

  lemma ExtendsTransitive(a: GraphState, b: GraphState, c: GraphState, u: set<int>)
    requires Extends(a, b, u) && Extends(b, c, u)
    ensures Extends(a, c, u)
  {
    assert a.queuedSkills == c.queuedSkills[..|a.queuedSkills|] by {
      assert b.queuedSkills == c.queuedSkills[..|b.queuedSkills|];
    }
    assert a.queuedEffects == c.queuedEffects[..|a.queuedEffects|] by {
      assert b.queuedEffects == c.queuedEffects[..|b.queuedEffects|];
    }
    assert a.out == c.out[..|a.out|] by {
      assert b.out == c.out[..|b.out|];
    }
  }

  lemma DrawsTransitive(a: GraphState, b: GraphState, c: GraphState, u: set<int>)
    requires Draws(a, b, u) && Draws(b, c, u)
    ensures Draws(a, c, u)
  {
    ExtendsTransitive(a, b, c, u);
    forall i | |a.out| <= i < |c.out| ensures c.out[i].Edge? {
      if i < |b.out| {
        assert c.out[i] == b.out[i];
      }
    }
  }

  lemma DerefDraws(g: GraphState, r: ReferenceData, u: set<int>)
    requires r.id in u
    ensures Draws(g, Deref(g, r), u)
  {
  }

  /** Dereferencing a target and drawing an edge to it. */
  lemma DerefEdgeDraws(g: GraphState, r: ReferenceData, e: Event, u: set<int>)
    requires r.id in u && e.Edge?
    ensures Draws(g, Emit(Deref(g, r), e), u)
  {
    var d := Deref(g, r);
    assert Draws(d, Emit(d, e), u);
    DrawsTransitive(g, d, Emit(d, e), u);
  }

  lemma {:induction false} PrintCastsDraws(g: GraphState, caller: ReferenceData, casts: seq<ReferenceData>,
                                           style: string, u: set<int>)
    requires Known(g, caller)
    requires forall i :: 0 <= i < |casts| ==> casts[i].id in u
    ensures Draws(g, PrintCasts(g, caller, casts, style), u)
    decreases |casts|
  {
    if casts != [] {
      var prev := PrintCasts(g, caller, casts[..|casts| - 1], style);
      var cast := casts[|casts| - 1];
      var linked := WithCallerList(prev, caller, CallerList(prev, caller) + [cast]);
      PrintCastsDraws(g, caller, casts[..|casts| - 1], style, u);
      assert Draws(prev, linked, u);
      DerefEdgeDraws(linked, cast, Edge(Ref(caller), Ref(cast), RandomCastEdge(style)), u);
      DrawsTransitive(prev, linked, PrintCasts(g, caller, casts, style), u);
      DrawsTransitive(g, prev, PrintCasts(g, caller, casts, style), u);
    }
  }

  lemma PrintDraws(g: GraphState, caller: ReferenceData, trigger: ConditionSkill, style: string, u: set<int>)
    requires Known(g, caller)
    requires TriggerTargets(trigger) <= u
    ensures Draws(g, Print(g, caller, trigger, style), u)
  {
    var refs := CallerList(g, caller);
    var touched := WithCallerList(g, caller, refs);
    assert Draws(g, touched, u);
    if |trigger.randomCasts| > 0 {
      forall i | 0 <= i < |trigger.randomCasts| ensures trigger.randomCasts[i].id in u {
        assert trigger.randomCasts[i] in trigger.randomCasts;
      }
      PrintCastsDraws(touched, caller, trigger.randomCasts, style, u);
      DrawsTransitive(g, touched, Print(g, caller, trigger, style), u);
    } else if !Linked(refs, trigger.reference) {
      var linked := WithCallerList(touched, caller, refs + [trigger.reference]);
      assert Draws(g, linked, u);
      DerefEdgeDraws(linked, trigger.reference, Edge(Ref(caller), Ref(trigger.reference), TriggerEdge(style)), u);
      DrawsTransitive(g, linked, Print(g, caller, trigger, style), u);
    }
  }

  lemma {:induction false} PrintTriggersDraws(g: GraphState, caller: ReferenceData, triggers: seq<ConditionSkill>,
                                              style: string, u: set<int>)
    requires Known(g, caller)
    requires TriggersWithin(triggers, u)
    ensures Draws(g, PrintTriggers(g, caller, triggers, style), u)
    decreases |triggers|
  {
    if triggers != [] {
      var init := triggers[..|triggers| - 1];
      PrintTriggersDraws(g, caller, init, style, u);
      var prev := PrintTriggers(g, caller, init, style);
      PrintDraws(prev, caller, triggers[|triggers| - 1], style, u);
      DrawsTransitive(g, prev, PrintTriggers(g, caller, triggers, style), u);
    }
  }

  lemma {:induction false} PrintAttacksDraws(g: GraphState, caller: ReferenceData, attacks: seq<SkillAttack>, u: set<int>)
    requires Known(g, caller)
    requires AttacksWithin(attacks, u)
    ensures Draws(g, PrintAttacks(g, caller, attacks), u)
    decreases |attacks|
  {
    if attacks != [] {
      var init := attacks[..|attacks| - 1];
      PrintAttacksDraws(g, caller, init, u);
      var prev := PrintAttacks(g, caller, init);
      PrintTriggersDraws(prev, caller, attacks[|attacks| - 1].triggers, "", u);
      DrawsTransitive(g, prev, PrintAttacks(g, caller, attacks), u);
    }
  }

  lemma {:induction false} PrintMotionsDraws(g: GraphState, caller: ReferenceData, motions: seq<SkillMotion>, u: set<int>)
    requires Known(g, caller)
    requires MotionsWithin(motions, u)
    ensures Draws(g, PrintMotions(g, caller, motions), u)
    decreases |motions|
  {
    if motions != [] {
      var init := motions[..|motions| - 1];
      PrintMotionsDraws(g, caller, init, u);
      var prev := PrintMotions(g, caller, init);
      PrintAttacksDraws(prev, caller, motions[|motions| - 1].attacks, u);
      DrawsTransitive(g, prev, PrintMotions(g, caller, motions), u);
    }
  }

  /** The ids of the skill boxes drawn in an output, in order. */
  function SkillNodeIds(out: seq<Event>): seq<int>
    decreases |out|
  {
    if out == [] then []
    else
      var e := out[|out| - 1];
      SkillNodeIds(out[..|out| - 1]) + (if e.Node? && e.caption.SkillBox? then [e.caption.id] else [])
  }

  /** The ids of the effect ellipses drawn in an output, in order. */
  function EffectNodeIds(out: seq<Event>): seq<int>
    decreases |out|
  {
    if out == [] then []
    else
      var e := out[|out| - 1];
      EffectNodeIds(out[..|out| - 1]) + (if e.Node? && e.caption.EffectEllipse? then [e.caption.id] else [])
  }

  /** Appending only edges draws no node. */
  lemma {:induction false} EdgesDrawNoNodes(a: seq<Event>, b: seq<Event>)
    requires a <= b
    requires forall i :: |a| <= i < |b| ==> b[i].Edge?
    ensures SkillNodeIds(b) == SkillNodeIds(a) && EffectNodeIds(b) == EffectNodeIds(a)
    decreases |b|
  {
    if |b| > |a| {
      assert b[..|b| - 1][..|a|] == a;
      assert b[|b| - 1].Edge?;
      EdgesDrawNoNodes(a, b[..|b| - 1]);
    } else {
      assert b == a;
    }
  }

  lemma NodeIdsOfEmit(out: seq<Event>, e: Event)
    ensures SkillNodeIds(out + [e]) == SkillNodeIds(out) + (if e.Node? && e.caption.SkillBox? then [e.caption.id] else [])
    ensures EffectNodeIds(out + [e]) == EffectNodeIds(out) + (if e.Node? && e.caption.EffectEllipse? then [e.caption.id] else [])
  {
    assert (out + [e])[..|out|] == out;
  }

  /**
   * One round of the skill loop only dereferences store targets, keeps the invariant, and draws
   * exactly one skill box, for the id, when the store has that skill, and no effect ellipse.
   */
  lemma ProcessSkillDraws(store: Store, g: GraphState, id: int, u: set<int>)
    requires LevelsPresent(store) && StoreWithin(store, u) && id in g.referencedSkills
    ensures var h := ProcessSkill(store, g, id);
      && Extends(g, h, u)
      && (Valid(g) ==> Valid(h))
      && SkillNodeIds(h.out) == SkillNodeIds(g.out) + (if id in store.skills then [id] else [])
      && EffectNodeIds(h.out) == EffectNodeIds(g.out)
  {
    if id in store.skills {
      var skill := store.skills[id];
      var level := BeginLevel(skill.levels);
      var e := Node(Ref(SkillNode(id)), SkillBox(id, skill.name));
      var drawn := Emit(g, e);
      NodeIdsOfEmit(g.out, e);
      PrintTriggersDraws(drawn, SkillNode(id), level.passives, PassiveStyle, u);
      var passives := PrintTriggers(drawn, SkillNode(id), level.passives, PassiveStyle);
      PrintMotionsDraws(passives, SkillNode(id), level.motions, u);
      if Valid(g) {
        PrintTriggersValid(drawn, SkillNode(id), level.passives, PassiveStyle);
        PrintMotionsValid(passives, SkillNode(id), level.motions);
      }
      var h := ProcessSkill(store, g, id);
      DrawsTransitive(drawn, passives, h, u);
      EdgesDrawNoNodes(drawn.out, h.out);
      assert Extends(g, drawn, u);
      ExtendsTransitive(g, drawn, h, u);
    }
  }

  lemma ProcessEffectDraws(store: Store, g: GraphState, id: int, u: set<int>)
    requires LevelsPresent(store) && StoreWithin(store, u) && id in g.referencedEffects
    ensures var h := ProcessEffect(store, g, id);
      && Extends(g, h, u)
      && (Valid(g) ==> Valid(h))
      && EffectNodeIds(h.out) == EffectNodeIds(g.out) + (if id in store.effects then [id] else [])
      && SkillNodeIds(h.out) == SkillNodeIds(g.out)
  {
    if id in store.effects {
      var level := BeginLevel(store.effects[id].levels);
      var e := Node(Ref(EffectNode(id)), EffectEllipse(id, level.name));
      var drawn := Emit(g, e);
      NodeIdsOfEmit(g.out, e);
      PrintTriggersDraws(drawn, EffectNode(id), level.triggers, "", u);
      if Valid(g) {
        PrintTriggersValid(drawn, EffectNode(id), level.triggers, "");
      }
      var h := ProcessEffect(store, g, id);
      EdgesDrawNoNodes(drawn.out, h.out);
      assert Extends(g, drawn, u);
      ExtendsTransitive(g, drawn, h, u);
    }
  }

  /** The elements of a sequence. */
  ghost function SetOf(q: seq<int>): set<int>
  {
    set x | x in q
  }

  lemma {:induction false} NoDupCard(q: seq<int>)
    requires NoDup(q)
    ensures |SetOf(q)| == |q|
    decreases |q|
  {
    if q != [] {
      var p := q[..|q| - 1];
      assert NoDup(p);
      NoDupCard(p);
      assert SetOf(q) == SetOf(p) + {q[|q| - 1]};
      assert q[|q| - 1] !in SetOf(p);
    }
  }

  lemma SubsetCard(a: set<int>, b: set<int>)
    requires a <= b
    ensures |a| <= |b|
  {
    assert b == a + (b - a);
  }

  /**
   * An upper bound on how long the queues can grow while only ids of `u` are dereferenced:
   * for each kind, the ids already keyed together with `u`.
   */
  ghost function Budget(u: set<int>, g: GraphState): int
  {
    |u + g.referencedSkills.Keys| + |u + g.referencedEffects.Keys|
  }

  lemma UnionAbsorbs(u: set<int>, a: set<int>, b: set<int>)
    requires a <= b <= a + u
    ensures u + b == u + a
  {
  }

  lemma BudgetKept(u: set<int>, g: GraphState, h: GraphState)
    requires Extends(g, h, u)
    ensures Budget(u, h) == Budget(u, g)
  {
    UnionAbsorbs(u, g.referencedSkills.Keys, h.referencedSkills.Keys);
    UnionAbsorbs(u, g.referencedEffects.Keys, h.referencedEffects.Keys);
  }

  /** The positions reached in the queues never pass the budget. */
  lemma PositionsWithinBudget(u: set<int>, g: GraphState, si: nat, ei: nat)
    requires Valid(g) && si <= |g.queuedSkills| && ei <= |g.queuedEffects|
    ensures si + ei <= Budget(u, g)
  {
    QueuesWithinBudget(u, g);
  }

  /** Each queue is no longer than its share of the budget. */
  lemma QueuesWithinBudget(u: set<int>, g: GraphState)
    requires Valid(g)
    ensures |g.queuedSkills| <= |u + g.referencedSkills.Keys|
    ensures |g.queuedEffects| <= |u + g.referencedEffects.Keys|
  {
    NoDupCard(g.queuedSkills);
    NoDupCard(g.queuedEffects);
    assert SetOf(g.queuedSkills) == g.referencedSkills.Keys;
    assert SetOf(g.queuedEffects) == g.referencedEffects.Keys;
    SubsetCard(g.referencedSkills.Keys, u + g.referencedSkills.Keys);
    SubsetCard(g.referencedEffects.Keys, u + g.referencedEffects.Keys);
  }

  /**
   * `PrintLinked` from queue positions `si` and `ei`; `inEffects` says whether the inner effect
   * loop is running. The skill loop runs until the skill queue is exhausted, then the effect loop
   * until the effect queue is, and the outer loop repeats while either queue has ids left.
   * Expanding an id can append to both queues.
   */
  function Drain(store: Store, ghost u: set<int>, g: GraphState, si: nat, ei: nat, inEffects: bool): (h: GraphState)
    requires LevelsPresent(store) && StoreWithin(store, u) && Valid(g)
    requires si <= |g.queuedSkills| && ei <= |g.queuedEffects|
    ensures Valid(h)
    decreases Budget(u, g) - si - ei
  {
    PositionsWithinBudget(u, g, si, ei);
    if si < |g.queuedSkills| && (!inEffects || ei == |g.queuedEffects|) then
      SkillKeepsBudget(store, g, si, u);
      Drain(store, u, ProcessSkill(store, g, g.queuedSkills[si]), si + 1, ei, false)
    else if ei < |g.queuedEffects| then
      EffectKeepsBudget(store, g, ei, u);
      Drain(store, u, ProcessEffect(store, g, g.queuedEffects[ei]), si, ei + 1, true)
    else
      g
  }

  /** The bound only serves termination: any two bounds the store stays within give the same drawing. */
  lemma {:induction false} DrainAnyBound(store: Store, u: set<int>, w: set<int>, g: GraphState, si: nat, ei: nat, inEffects: bool)
    requires LevelsPresent(store) && StoreWithin(store, u) && StoreWithin(store, w) && Valid(g)
    requires si <= |g.queuedSkills| && ei <= |g.queuedEffects|
    ensures Drain(store, u, g, si, ei, inEffects) == Drain(store, w, g, si, ei, inEffects)
    decreases Budget(u, g) - si - ei, 1
  {
    PositionsWithinBudget(u, g, si, ei);
    if si < |g.queuedSkills| && (!inEffects || ei == |g.queuedEffects|) {
      SkillAnyBound(store, u, w, g, si, ei, inEffects);
    } else if ei < |g.queuedEffects| {
      EffectAnyBound(store, u, w, g, si, ei, inEffects);
    }
  }

  /** `DrainAnyBound` when the next round expands a skill. */
  lemma {:induction false} SkillAnyBound(store: Store, u: set<int>, w: set<int>, g: GraphState, si: nat, ei: nat, inEffects: bool)
    requires LevelsPresent(store) && StoreWithin(store, u) && StoreWithin(store, w) && Valid(g)
    requires si < |g.queuedSkills| && ei <= |g.queuedEffects| && (!inEffects || ei == |g.queuedEffects|)
    ensures Drain(store, u, g, si, ei, inEffects) == Drain(store, w, g, si, ei, inEffects)
    decreases Budget(u, g) - si - ei, 0
  {
    PositionsWithinBudget(u, g, si, ei);
    SkillKeepsBudget(store, g, si, u);
    DrainAnyBound(store, u, w, ProcessSkill(store, g, g.queuedSkills[si]), si + 1, ei, false);
    DrainSkillStep(store, u, g, si, ei, inEffects);
    DrainSkillStep(store, w, g, si, ei, inEffects);
  }

  /** `DrainAnyBound` when the next round expands an effect. */
  lemma {:induction false} EffectAnyBound(store: Store, u: set<int>, w: set<int>, g: GraphState, si: nat, ei: nat, inEffects: bool)
    requires LevelsPresent(store) && StoreWithin(store, u) && StoreWithin(store, w) && Valid(g)
    requires si <= |g.queuedSkills| && ei < |g.queuedEffects| && !(si < |g.queuedSkills| && (!inEffects || ei == |g.queuedEffects|))
    ensures Drain(store, u, g, si, ei, inEffects) == Drain(store, w, g, si, ei, inEffects)
    decreases Budget(u, g) - si - ei, 0
  {
    PositionsWithinBudget(u, g, si, ei);
    EffectKeepsBudget(store, g, ei, u);
    DrainAnyBound(store, u, w, ProcessEffect(store, g, g.queuedEffects[ei]), si, ei + 1, true);
    DrainEffectStep(store, u, g, si, ei, inEffects);
    DrainEffectStep(store, w, g, si, ei, inEffects);
  }

  /** A round of the skill loop: the next queued skill is expanded and the drain goes on from there. */
  lemma DrainSkillStep(store: Store, u: set<int>, g: GraphState, si: nat, ei: nat, inEffects: bool)
    requires LevelsPresent(store) && StoreWithin(store, u) && Valid(g)
    requires si < |g.queuedSkills| && ei <= |g.queuedEffects| && (!inEffects || ei == |g.queuedEffects|)
    requires Valid(ProcessSkill(store, g, g.queuedSkills[si]))
    requires var next := ProcessSkill(store, g, g.queuedSkills[si]);
      |g.queuedSkills| <= |next.queuedSkills| && |g.queuedEffects| <= |next.queuedEffects|
    ensures Drain(store, u, g, si, ei, inEffects) == Drain(store, u, ProcessSkill(store, g, g.queuedSkills[si]), si + 1, ei, false)
  {
  }

  /** A round of the effect loop: the next queued effect is expanded and the drain goes on from there. */
  lemma DrainEffectStep(store: Store, u: set<int>, g: GraphState, si: nat, ei: nat, inEffects: bool)
    requires LevelsPresent(store) && StoreWithin(store, u) && Valid(g)
    requires si <= |g.queuedSkills| && ei < |g.queuedEffects| && !(si < |g.queuedSkills| && (!inEffects || ei == |g.queuedEffects|))
    requires Valid(ProcessEffect(store, g, g.queuedEffects[ei]))
    requires var next := ProcessEffect(store, g, g.queuedEffects[ei]);
      |g.queuedSkills| <= |next.queuedSkills| && |g.queuedEffects| <= |next.queuedEffects|
    ensures Drain(store, u, g, si, ei, inEffects) == Drain(store, u, ProcessEffect(store, g, g.queuedEffects[ei]), si, ei + 1, true)
  {
  }

  /** Once one of the queues is exhausted, it does not matter which inner loop is running. */
  lemma DrainPhase(store: Store, u: set<int>, g: GraphState, si: nat, ei: nat)
    requires LevelsPresent(store) && StoreWithin(store, u) && Valid(g)
    requires si <= |g.queuedSkills| && ei <= |g.queuedEffects|
    requires si == |g.queuedSkills| || ei == |g.queuedEffects|
    ensures Drain(store, u, g, si, ei, false) == Drain(store, u, g, si, ei, true)
  {
  }

  /** The skill loop of `PrintLinked` alone: every queued skill from `si` on, until the skill queue is exhausted. */
  function SkillPass(store: Store, ghost u: set<int>, g: GraphState, si: nat, ei: nat): (h: GraphState)
    requires LevelsPresent(store) && StoreWithin(store, u) && Valid(g)
    requires si <= |g.queuedSkills| && ei <= |g.queuedEffects|
    ensures Valid(h) && Budget(u, h) == Budget(u, g)
    ensures |g.queuedSkills| <= |h.queuedSkills| && |g.queuedEffects| <= |h.queuedEffects|
    decreases Budget(u, g) - si - ei
  {
    PositionsWithinBudget(u, g, si, ei);
    if si < |g.queuedSkills| then
      SkillKeepsBudget(store, g, si, u);
      SkillPass(store, u, ProcessSkill(store, g, g.queuedSkills[si]), si + 1, ei)
    else
      g
  }

  /** The effect loop of `PrintLinked` alone: every queued effect from `ei` on, until the effect queue is exhausted. */
  function EffectPass(store: Store, ghost u: set<int>, g: GraphState, si: nat, ei: nat): (h: GraphState)
    requires LevelsPresent(store) && StoreWithin(store, u) && Valid(g)
    requires si <= |g.queuedSkills| && ei <= |g.queuedEffects|
    ensures Valid(h) && Budget(u, h) == Budget(u, g)
    ensures |g.queuedSkills| <= |h.queuedSkills| && |g.queuedEffects| <= |h.queuedEffects|
    decreases Budget(u, g) - si - ei
  {
    PositionsWithinBudget(u, g, si, ei);
    if ei < |g.queuedEffects| then
      EffectKeepsBudget(store, g, ei, u);
      EffectPass(store, u, ProcessEffect(store, g, g.queuedEffects[ei]), si, ei + 1)
    else
      g
  }

  /**
   * Running the skill loop to its end and then draining from there is the drain from `si`:
   * the skill loop is the first phase of every outer round.
   */
  lemma {:induction false} SkillPassDrain(store: Store, u: set<int>, g: GraphState, si: nat, ei: nat)
    requires LevelsPresent(store) && StoreWithin(store, u) && Valid(g)
    requires si <= |g.queuedSkills| && ei <= |g.queuedEffects|
    ensures var h := SkillPass(store, u, g, si, ei);
      Drain(store, u, g, si, ei, false) == Drain(store, u, h, |h.queuedSkills|, ei, false)
    decreases Budget(u, g) - si - ei
  {
    PositionsWithinBudget(u, g, si, ei);
    if si < |g.queuedSkills| {
      SkillKeepsBudget(store, g, si, u);
      SkillPassDrain(store, u, ProcessSkill(store, g, g.queuedSkills[si]), si + 1, ei);
      DrainSkillStep(store, u, g, si, ei, false);
    }
  }

  /** Likewise for the effect loop, the second phase of every outer round. */
  lemma {:induction false} EffectPassDrain(store: Store, u: set<int>, g: GraphState, si: nat, ei: nat)
    requires LevelsPresent(store) && StoreWithin(store, u) && Valid(g)
    requires si <= |g.queuedSkills| && ei <= |g.queuedEffects|
    ensures var h := EffectPass(store, u, g, si, ei);
      Drain(store, u, g, si, ei, true) == Drain(store, u, h, si, |h.queuedEffects|, true)
    decreases Budget(u, g) - si - ei
  {
    PositionsWithinBudget(u, g, si, ei);
    if ei < |g.queuedEffects| {
      EffectKeepsBudget(store, g, ei, u);
      EffectPassDrain(store, u, ProcessEffect(store, g, g.queuedEffects[ei]), si, ei + 1);
      DrainEffectStep(store, u, g, si, ei, true);
    }
  }

  /** The ids of `q` the map has, in order. */
  ghost function Present<V>(q: seq<int>, m: map<int, V>): seq<int>
  {
    if q == [] then [] else (if q[0] in m then [q[0]] else []) + Present(q[1..], m)
  }

  lemma {:induction false} PresentMembers<V>(q: seq<int>, m: map<int, V>)
    ensures forall x :: x in Present(q, m) <==> x in q && x in m
  {
    if q != [] {
      PresentMembers(q[1..], m);
      assert forall x :: x in q <==> x == q[0] || x in q[1..];
    }
  }

  /** A skill round keeps the state valid, the budget unchanged and the queues' prefixes. */
  lemma SkillKeepsBudget(store: Store, g: GraphState, si: nat, u: set<int>)
    requires LevelsPresent(store) && StoreWithin(store, u) && Valid(g) && si < |g.queuedSkills|
    ensures var next := ProcessSkill(store, g, g.queuedSkills[si]);
      && Valid(next) && Budget(u, next) == Budget(u, g)
      && |g.queuedSkills| <= |next.queuedSkills| && |g.queuedEffects| <= |next.queuedEffects|
  {
    SkillRound(store, g, si, u);
  }

  /** An effect round keeps the state valid, the budget unchanged and the queues' prefixes. */
  lemma EffectKeepsBudget(store: Store, g: GraphState, ei: nat, u: set<int>)
    requires LevelsPresent(store) && StoreWithin(store, u) && Valid(g) && ei < |g.queuedEffects|
    ensures var next := ProcessEffect(store, g, g.queuedEffects[ei]);
      && Valid(next) && Budget(u, next) == Budget(u, g)
      && |g.queuedSkills| <= |next.queuedSkills| && |g.queuedEffects| <= |next.queuedEffects|
  {
    EffectRound(store, g, ei, u);
  }

  /** The state after one round of the skill loop, and what that round did. */
  lemma SkillRound(store: Store, g: GraphState, si: nat, u: set<int>)
    requires LevelsPresent(store) && StoreWithin(store, u) && Valid(g) && si < |g.queuedSkills|
    ensures var next := ProcessSkill(store, g, g.queuedSkills[si]);
      && Valid(next) && Extends(g, next, u) && Budget(u, next) == Budget(u, g)
      && SkillNodeIds(next.out) == SkillNodeIds(g.out) + (if g.queuedSkills[si] in store.skills then [g.queuedSkills[si]] else [])
      && EffectNodeIds(next.out) == EffectNodeIds(g.out)
  {
    var next := ProcessSkill(store, g, g.queuedSkills[si]);
    ProcessSkillDraws(store, g, g.queuedSkills[si], u);
    BudgetKept(u, g, next);
  }

  lemma EffectRound(store: Store, g: GraphState, ei: nat, u: set<int>)
    requires LevelsPresent(store) && StoreWithin(store, u) && Valid(g) && ei < |g.queuedEffects|
    ensures var next := ProcessEffect(store, g, g.queuedEffects[ei]);
      && Valid(next) && Extends(g, next, u) && Budget(u, next) == Budget(u, g)
      && EffectNodeIds(next.out) == EffectNodeIds(g.out) + (if g.queuedEffects[ei] in store.effects then [g.queuedEffects[ei]] else [])
      && SkillNodeIds(next.out) == SkillNodeIds(g.out)
  {
    var next := ProcessEffect(store, g, g.queuedEffects[ei]);
    ProcessEffectDraws(store, g, g.queuedEffects[ei], u);
    BudgetKept(u, g, next);
  }

  /**
   * What `PrintLinked` draws: every id the skill queue holds from position `si` on, up to the
   * queue's final length, is taken in queue order and drawn as one skill box when the store has
   * it; likewise for effects from `ei`. Only ids the stored triggers name enter the queues.
   */
  lemma {:induction false} DrainTrace(store: Store, g: GraphState, si: nat, ei: nat, inEffects: bool, u: set<int>)
    requires LevelsPresent(store) && StoreWithin(store, u) && Valid(g)
    requires si <= |g.queuedSkills| && ei <= |g.queuedEffects|
    ensures var h := Drain(store, u, g, si, ei, inEffects);
      && Extends(g, h, u)
      && SkillNodeIds(h.out) == SkillNodeIds(g.out) + Present(h.queuedSkills[si..], store.skills)
      && EffectNodeIds(h.out) == EffectNodeIds(g.out) + Present(h.queuedEffects[ei..], store.effects)
    decreases Budget(u, g) - si - ei, 1
  {
    if si < |g.queuedSkills| && (!inEffects || ei == |g.queuedEffects|) {
      SkillBranchTrace(store, g, si, ei, inEffects, u);
    } else if ei < |g.queuedEffects| {
      EffectBranchTrace(store, g, si, ei, inEffects, u);
    } else {
      assert Drain(store, u, g, si, ei, inEffects) == g;
    }
  }

  /** `DrainTrace` when the next round expands a skill. */
  lemma {:induction false} SkillBranchTrace(store: Store, g: GraphState, si: nat, ei: nat, inEffects: bool, u: set<int>)
    requires LevelsPresent(store) && StoreWithin(store, u) && Valid(g)
    requires si < |g.queuedSkills| && ei <= |g.queuedEffects| && (!inEffects || ei == |g.queuedEffects|)
    ensures var h := Drain(store, u, g, si, ei, inEffects);
      && Extends(g, h, u)
      && SkillNodeIds(h.out) == SkillNodeIds(g.out) + Present(h.queuedSkills[si..], store.skills)
      && EffectNodeIds(h.out) == EffectNodeIds(g.out) + Present(h.queuedEffects[ei..], store.effects)
    decreases Budget(u, g) - si - ei, 0
  {
    PositionsWithinBudget(u, g, si, ei);
    var next := ProcessSkill(store, g, g.queuedSkills[si]);
    SkillRound(store, g, si, u);
    var h := Drain(store, u, next, si + 1, ei, false);
    assert Drain(store, u, g, si, ei, inEffects) == h;
    DrainTrace(store, next, si + 1, ei, false, u);
    JoinSkillRound(store, g, next, h, si, ei, u);
  }

  /** `DrainTrace` when the next round expands an effect. */
  lemma {:induction false} EffectBranchTrace(store: Store, g: GraphState, si: nat, ei: nat, inEffects: bool, u: set<int>)
    requires LevelsPresent(store) && StoreWithin(store, u) && Valid(g)
    requires si <= |g.queuedSkills| && ei < |g.queuedEffects|
    requires !(si < |g.queuedSkills| && (!inEffects || ei == |g.queuedEffects|))
    ensures var h := Drain(store, u, g, si, ei, inEffects);
      && Extends(g, h, u)
      && SkillNodeIds(h.out) == SkillNodeIds(g.out) + Present(h.queuedSkills[si..], store.skills)
      && EffectNodeIds(h.out) == EffectNodeIds(g.out) + Present(h.queuedEffects[ei..], store.effects)
    decreases Budget(u, g) - si - ei, 0
  {
    PositionsWithinBudget(u, g, si, ei);
    var next := ProcessEffect(store, g, g.queuedEffects[ei]);
    EffectRound(store, g, ei, u);
    var h := Drain(store, u, next, si, ei + 1, true);
    assert Drain(store, u, g, si, ei, inEffects) == h;
    DrainTrace(store, next, si, ei + 1, true, u);
    JoinEffectRound(store, g, next, h, si, ei, u);
  }

  /** A skill round from `g` to `next` followed by the rest of the drain from `next` to `h`. */
  lemma JoinSkillRound(store: Store, g: GraphState, next: GraphState, h: GraphState, si: nat, ei: nat, u: set<int>)
    requires si < |g.queuedSkills| && ei <= |g.queuedEffects| && Extends(g, next, u) && Extends(next, h, u)
    requires SkillNodeIds(next.out) == SkillNodeIds(g.out) + (if g.queuedSkills[si] in store.skills then [g.queuedSkills[si]] else [])
    requires EffectNodeIds(next.out) == EffectNodeIds(g.out)
    requires SkillNodeIds(h.out) == SkillNodeIds(next.out) + Present(h.queuedSkills[si + 1..], store.skills)
    requires EffectNodeIds(h.out) == EffectNodeIds(next.out) + Present(h.queuedEffects[ei..], store.effects)
    ensures Extends(g, h, u)
    ensures SkillNodeIds(h.out) == SkillNodeIds(g.out) + Present(h.queuedSkills[si..], store.skills)
    ensures EffectNodeIds(h.out) == EffectNodeIds(g.out) + Present(h.queuedEffects[ei..], store.effects)
  {
    ExtendsTransitive(g, next, h, u);
    PresentStep(h.queuedSkills, next.queuedSkills, si, store.skills);
    JoinTrace(SkillNodeIds(g.out), SkillNodeIds(next.out), SkillNodeIds(h.out),
              if g.queuedSkills[si] in store.skills then [g.queuedSkills[si]] else [],
              Present(h.queuedSkills[si + 1..], store.skills), Present(h.queuedSkills[si..], store.skills));
  }

  /** An effect round from `g` to `next` followed by the rest of the drain from `next` to `h`. */
  lemma JoinEffectRound(store: Store, g: GraphState, next: GraphState, h: GraphState, si: nat, ei: nat, u: set<int>)
    requires si <= |g.queuedSkills| && ei < |g.queuedEffects| && Extends(g, next, u) && Extends(next, h, u)
    requires EffectNodeIds(next.out) == EffectNodeIds(g.out) + (if g.queuedEffects[ei] in store.effects then [g.queuedEffects[ei]] else [])
    requires SkillNodeIds(next.out) == SkillNodeIds(g.out)
    requires SkillNodeIds(h.out) == SkillNodeIds(next.out) + Present(h.queuedSkills[si..], store.skills)
    requires EffectNodeIds(h.out) == EffectNodeIds(next.out) + Present(h.queuedEffects[ei + 1..], store.effects)
    ensures Extends(g, h, u)
    ensures SkillNodeIds(h.out) == SkillNodeIds(g.out) + Present(h.queuedSkills[si..], store.skills)
    ensures EffectNodeIds(h.out) == EffectNodeIds(g.out) + Present(h.queuedEffects[ei..], store.effects)
  {
    ExtendsTransitive(g, next, h, u);
    PresentStep(h.queuedEffects, next.queuedEffects, ei, store.effects);
    JoinTrace(EffectNodeIds(g.out), EffectNodeIds(next.out), EffectNodeIds(h.out),
              if g.queuedEffects[ei] in store.effects then [g.queuedEffects[ei]] else [],
              Present(h.queuedEffects[ei + 1..], store.effects), Present(h.queuedEffects[ei..], store.effects));
  }

  /** Splicing one round's node ids into the rest of a trace. */
  lemma JoinTrace(before: seq<int>, mid: seq<int>, after: seq<int>, round: seq<int>, rest: seq<int>, whole: seq<int>)
    requires mid == before + round && after == mid + rest && whole == round + rest
    ensures after == before + whole
  {
  }

  /** Taking the id at position `i` of a queue that later grew. */
  lemma PresentStep<V>(q: seq<int>, p: seq<int>, i: nat, m: map<int, V>)
    requires p <= q && i < |p|
    ensures Present(q[i..], m) == (if p[i] in m then [p[i]] else []) + Present(q[i + 1..], m)
  {
    assert q[i] == p[i];
    assert q[i..][1..] == q[i + 1..];
  }

  /**
   * From the start of the queues: every id ever queued that the store has is drawn exactly once
   * (the queues hold no repeats), and the ids drawn are exactly those.
   */
  lemma LinkedDrawsEachOnce(store: Store, g: GraphState)
    requires LevelsPresent(store) && Valid(g)
    ensures StoreWithin(store, StoreTargets(store))
    ensures var h := Drain(store, StoreTargets(store), g, 0, 0, false);
      && Extends(g, h, StoreTargets(store))
      && SkillNodeIds(h.out) == SkillNodeIds(g.out) + Present(h.queuedSkills, store.skills)
      && EffectNodeIds(h.out) == EffectNodeIds(g.out) + Present(h.queuedEffects, store.effects)
      && (forall id :: id in Present(h.queuedSkills, store.skills) <==> id in h.referencedSkills && id in store.skills)
      && (forall id :: id in Present(h.queuedEffects, store.effects) <==> id in h.referencedEffects && id in store.effects)
  {
    StoreTargetsWithin(store);
    var h := Drain(store, StoreTargets(store), g, 0, 0, false);
    DrainTrace(store, g, 0, 0, false, StoreTargets(store));
    assert h.queuedSkills[0..] == h.queuedSkills;
    assert h.queuedEffects[0..] == h.queuedEffects;
    PresentMembers(h.queuedSkills, store.skills);
    PresentMembers(h.queuedEffects, store.effects);
  }
}
