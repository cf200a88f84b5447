/**
 * The three `GraphData::PrintRoot` overloads as functions of the builder's state. A root draws
 * edges from the run's root (or from a job skill, or a set-bonus tier) and dereferences every
 * target, so the later `PrintLinked` drain expands it; unlike `Print`, it never records a target
 * in a caller's list.
 */
module GraphRoots {
  import opened XmlData
  import opened GraphModel

  /** `out << source << " -> " << Dereference(target)`: the target is queued if new, then the edge is drawn. */
  function Link(g: GraphState, source: Endpoint, target: ReferenceData, style: EdgeStyle): (h: GraphState)
    ensures Known(h, target)
    ensures h.out == g.out + [Edge(source, Ref(target), style)]
  {
    Emit(Deref(g, target), Edge(source, Ref(target), style))
  }

  /** `Link` for every target of a list, in order, from one source with one style. */
  function LinkAll(g: GraphState, source: Endpoint, targets: seq<ReferenceData>, style: EdgeStyle): (h: GraphState)
    decreases |targets|
  {
    if targets == [] then g
    else Link(LinkAll(g, source, targets[..|targets| - 1], style), source, targets[|targets| - 1], style)
  }

  /**
   * `h` only grew from `g`: no key was removed, no target list already present changed, and the
   * queues and the output were only appended to.
   */
  ghost predicate KeepsLinks(g: GraphState, h: GraphState)
  {
    && (forall id :: id in g.referencedSkills ==> id in h.referencedSkills && h.referencedSkills[id] == g.referencedSkills[id])
    && (forall id :: id in g.referencedEffects ==> id in h.referencedEffects && h.referencedEffects[id] == g.referencedEffects[id])
    && g.queuedSkills <= h.queuedSkills && g.queuedEffects <= h.queuedEffects && g.out <= h.out
  }

  lemma KeepsLinksTransitive(a: GraphState, b: GraphState, c: GraphState)
    requires KeepsLinks(a, b) && KeepsLinks(b, c)
    ensures KeepsLinks(a, c)
  {
    assert a.queuedSkills == c.queuedSkills[..|a.queuedSkills|] by {
      assert b.queuedSkills == c.queuedSkills[..|b.queuedSkills|];
    }
    assert a.queuedEffects == c.queuedEffects[..|a.queuedEffects|] by {
      assert b.queuedEffects == c.queuedEffects[..|b.queuedEffects|];
    }
    assert a.out == c.out[..|a.out|] by {
      assert b.out == c.out[..|b.out|];
    }
  }

  lemma LinkKeeps(g: GraphState, source: Endpoint, target: ReferenceData, style: EdgeStyle)
    ensures KeepsLinks(g, Link(g, source, target, style))
  {
  }

  /** A known reference stays known while the state only grows. */
  lemma KnownKept(g: GraphState, h: GraphState, r: ReferenceData)
    requires KeepsLinks(g, h) && Known(g, r)
    ensures Known(h, r)
  {
  }

  /**
   * Linking a list draws exactly one edge per target, in order, leaves every target known and
   * records no target in any list.
   */
  lemma {:induction false} LinkAllDraws(g: GraphState, source: Endpoint, targets: seq<ReferenceData>, style: EdgeStyle)
    ensures var h := LinkAll(g, source, targets, style);
      && KeepsLinks(g, h)
      && |h.out| == |g.out| + |targets|
      && (forall i :: 0 <= i < |targets| ==> h.out[|g.out| + i] == Edge(source, Ref(targets[i]), style))
      && (forall i :: 0 <= i < |targets| ==> Known(h, targets[i]))
    decreases |targets|
  {
    if targets != [] {
      var n := |targets| - 1;
      var prev := LinkAll(g, source, targets[..n], style);
      var h := LinkAll(g, source, targets, style);
      LinkAllDraws(g, source, targets[..n], style);
      assert KeepsLinks(prev, h);
      KeepsLinksTransitive(g, prev, h);
      forall i | 0 <= i < |targets|
        ensures h.out[|g.out| + i] == Edge(source, Ref(targets[i]), style) && Known(h, targets[i])
      {
        if i < n {
          assert targets[..n][i] == targets[i];
          assert h.out[|g.out| + i] == prev.out[|g.out| + i];
          KnownKept(prev, h, targets[i]);
        }
      }
    }
  }

  /** The skill a stored skill's combo leads to: the output skill of the level `Levels.begin()` yields. */
  function ComboOutput(store: Store, id: int): ReferenceData
    requires LevelsPresent(store) && id in store.skills
  {
    BeginLevel(store.skills[id].levels).combo.outputSkill
  }

  /** Where the combo of every stored skill leads; the combo walk reads nothing else of the store. */
  function ComboLinks(store: Store): (links: map<int, ReferenceData>)
    requires LevelsPresent(store)
    ensures links.Keys == store.skills.Keys
    ensures forall id :: id in links ==> links[id] == ComboOutput(store, id)
  {
    map id | id in store.skills :: ComboOutput(store, id)
  }

  /** Leaving a stored skill not left before brings the walk closer to its end. */
  lemma WalkShrinks(keys: set<int>, visited: seq<int>, x: int)
    requires x in keys && x !in visited
    ensures |keys - SetOf(visited + [x])| < |keys - SetOf(visited)|
  {
    assert SetOf(visited + [x]) == SetOf(visited) + {x};
    assert keys - SetOf(visited) == (keys - SetOf(visited + [x])) + {x};
  }

  /**
   * The combo walk of `PrintRoot(JobSkill)`, over the combo links of the stored skills. From the
   * current combo skill, look up where its combo leads; stop when the current id is 0, when the
   * next id was already left, or when the store has no such skill; otherwise remember the
   * current id, draw the green edge to the next skill (dereferencing it) and continue from
   * there. `visited` holds the ids already left; the current id is in it only after a skill led
   * to itself, and then the walk stops at once.
   */
  function ComboWalk(links: map<int, ReferenceData>, g: GraphState, combo: ReferenceData, visited: seq<int>): (h: GraphState)
    requires combo.id in links
    requires combo.id in visited ==> links[combo.id].id == combo.id
    decreases |links.Keys - SetOf(visited)|
  {
    if combo.id == 0 then g
    else
      var next := links[combo.id];
      if next.id in visited || next.id !in links then g
      else
        WalkShrinks(links.Keys, visited, combo.id);
        ComboWalk(links, Link(g, Ref(combo), next, ComboEdge), next, visited + [combo.id])
  }

  /** One green edge: from a stored skill to the skill its combo leads to, which is stored too. */
  ghost predicate ComboStep(links: map<int, ReferenceData>, e: Event)
  {
    && e.Edge? && e.style == ComboEdge && e.source.Ref? && e.target.Ref?
    && e.source.ref.id in links
    && e.target.ref == links[e.source.ref.id]
    && e.target.ref.id in links
  }

  /**
   * A chain of green edges from `combo`: each edge follows a combo link, each starts where the
   * previous one ended, and no skill is left twice or left after being in `visited`.
   */
  ghost predicate ComboChain(links: map<int, ReferenceData>, es: seq<Event>, combo: ReferenceData, visited: seq<int>)
  {
    && (forall i :: 0 <= i < |es| ==> ComboStep(links, es[i]))
    && (es != [] ==> es[0].source == Ref(combo))
    && (forall i :: 0 < i < |es| ==> es[i].source == es[i - 1].target)
    && (forall i :: 0 <= i < |es| ==> es[i].source.ref.id !in visited)
    && (forall i, j :: 0 <= i < j < |es| ==> es[i].source.ref.id != es[j].source.ref.id)
  }

  /** The combo walk only grows the state. */
  lemma {:induction false} ComboWalkKeeps(links: map<int, ReferenceData>, g: GraphState, combo: ReferenceData, visited: seq<int>)
    requires combo.id in links
    requires combo.id in visited ==> links[combo.id].id == combo.id
    ensures KeepsLinks(g, ComboWalk(links, g, combo, visited))
    decreases |links.Keys - SetOf(visited)|
  {
    if combo.id != 0 && links[combo.id].id !in visited && links[combo.id].id in links {
      var next := links[combo.id];
      var g1 := Link(g, Ref(combo), next, ComboEdge);
      var v1 := visited + [combo.id];
      WalkShrinks(links.Keys, visited, combo.id);
      ComboWalkKeeps(links, g1, next, v1);
      LinkKeeps(g, Ref(combo), next, ComboEdge);
      KeepsLinksTransitive(g, g1, ComboWalk(links, g1, next, v1));
    }
  }

  /** What the combo walk draws: a chain of green edges that leaves each skill once, and nothing else. */
  lemma {:induction false} ComboWalkChain(links: map<int, ReferenceData>, g: GraphState, combo: ReferenceData, visited: seq<int>)
    requires combo.id in links
    requires combo.id in visited ==> links[combo.id].id == combo.id
    ensures var h := ComboWalk(links, g, combo, visited);
      |g.out| <= |h.out| && ComboChain(links, h.out[|g.out|..], combo, visited)
    decreases |links.Keys - SetOf(visited)|
  {
    var h := ComboWalk(links, g, combo, visited);
    if combo.id != 0 && links[combo.id].id !in visited && links[combo.id].id in links {
      var next := links[combo.id];
      var g1 := Link(g, Ref(combo), next, ComboEdge);
      var v1 := visited + [combo.id];
      WalkShrinks(links.Keys, visited, combo.id);
      assert h == ComboWalk(links, g1, next, v1);
      ComboWalkChain(links, g1, next, v1);
      ComboWalkKeeps(links, g1, next, v1);
      ChainThroughLink(links, g.out, g1.out, h.out, combo, visited);
    } else {
      assert h == g;
      assert h.out[|g.out|..] == [];
    }
  }

  /** A green edge drawn before a chain that starts where it ends makes a chain from its source. */
  lemma ChainThroughLink(links: map<int, ReferenceData>, before: seq<Event>, linked: seq<Event>, after: seq<Event>,
                         combo: ReferenceData, visited: seq<int>)
    requires combo.id in links && combo.id !in visited && links[combo.id].id in links
    requires linked == before + [Edge(Ref(combo), Ref(links[combo.id]), ComboEdge)] && linked <= after
    requires ComboChain(links, after[|linked|..], links[combo.id], visited + [combo.id])
    ensures |before| <= |after| && ComboChain(links, after[|before|..], combo, visited)
  {
    var e := Edge(Ref(combo), Ref(links[combo.id]), ComboEdge);
    var rest := after[|linked|..];
    assert after[|before|..] == [e] + rest by {
      assert after[..|linked|] == linked;
    }
    ChainCons(links, e, rest, combo, links[combo.id], visited);
  }

  /** A green edge from a skill not yet left, followed by a chain from where it ends that never leaves it. */
  lemma ChainCons(links: map<int, ReferenceData>, e: Event, rest: seq<Event>, combo: ReferenceData, next: ReferenceData, visited: seq<int>)
    requires ComboStep(links, e)
    requires e.source == Ref(combo) && e.target == Ref(next) && combo.id !in visited
    requires ComboChain(links, rest, next, visited + [combo.id])
    ensures ComboChain(links, [e] + rest, combo, visited)
  {
    var es := [e] + rest;
    forall i | 0 <= i < |es| ensures es[i].source.ref.id !in visited {
      if i > 0 {
        assert es[i] == rest[i - 1];
      }
    }
    forall i, j | 0 <= i < j < |es| ensures es[i].source.ref.id != es[j].source.ref.id {
      assert es[j] == rest[j - 1];
      assert rest[j - 1].source.ref.id !in visited + [combo.id];
      if i > 0 {
        assert es[i] == rest[i - 1];
      }
    }
  }

  /** The skill references a level's change-skill list names, without those whose skill id is 0. */
  function ChangeTargets(changes: seq<ChangeSkillReference>): (targets: seq<ReferenceData>)
    ensures forall i :: 0 <= i < |targets| ==> targets[i].id != 0
    decreases |changes|
  {
    if changes == [] then []
    else
      var last := changes[|changes| - 1];
      ChangeTargets(changes[..|changes| - 1]) + (if last.skill.id == 0 then [] else [last.skill])
  }

  /** Exactly the change skills with a non-zero id are drawn, in order. */
  lemma {:induction false} ChangeTargetsMembers(changes: seq<ChangeSkillReference>)
    ensures forall c :: c in changes && c.skill.id != 0 ==> c.skill in ChangeTargets(changes)
    ensures forall t :: t in ChangeTargets(changes) ==> exists c :: c in changes && c.skill == t
    ensures |ChangeTargets(changes)| <= |changes|
    decreases |changes|
  {
    if changes != [] {
      var prev := changes[..|changes| - 1];
      var last := changes[|changes| - 1];
      ChangeTargetsMembers(prev);
      assert forall c :: c in changes ==> c in prev || c == last;
      forall t | t in ChangeTargets(changes) ensures exists c :: c in changes && c.skill == t {
        if t in ChangeTargets(prev) {
          var c :| c in prev && c.skill == t;
          assert c in changes;
        } else {
          assert last in changes;
        }
      }
    }
  }

  /**
   * `PrintRoot(JobSkill)`. A job skill whose id is not in the store draws nothing. Otherwise:
   * the root's edge to the skill, one undirected blue edge per sub skill, the combo walk from
   * the skill, and one red edge per change skill of the skill's `Levels.begin()` level whose id
   * is not 0; every target is dereferenced.
   */
  function RootSkill(store: Store, g: GraphState, jobSkill: JobSkill): (h: GraphState)
    requires LevelsPresent(store)
  {
    if jobSkill.skill.id !in store.skills then g
    else
      var level := BeginLevel(store.skills[jobSkill.skill.id].levels);
      var rooted := Link(g, Root, jobSkill.skill, RootEdge);
      var subs := LinkAll(rooted, Ref(jobSkill.skill), jobSkill.subSkills, SubSkillEdge);
      var combos := ComboWalk(ComboLinks(store), subs, jobSkill.skill, []);
      LinkAll(combos, Ref(jobSkill.skill), ChangeTargets(level.changeSkillReferences), ChangeSkillEdge)
  }

  /**
   * Everything drawn from index `from` on is an edge, and no red edge among them leads to a
   * skill with id 0.
   */
  ghost predicate RootEdges(out: seq<Event>, from: nat)
  {
    forall i :: from <= i < |out| ==>
      out[i].Edge? && (out[i].style == ChangeSkillEdge ==> out[i].target.Ref? && out[i].target.ref.id != 0)
  }

  lemma RootEdgesJoin(a: seq<Event>, b: seq<Event>, from: nat)
    requires a <= b && RootEdges(a, from) && RootEdges(b, |a|)
    ensures RootEdges(b, from)
  {
    forall i | from <= i < |b| && i < |a| ensures b[i] == a[i] {
    }
  }

  /** Linking a list draws only edges; red ones only to targets with a non-zero id. */
  lemma LinkAllRootEdges(g: GraphState, source: Endpoint, targets: seq<ReferenceData>, style: EdgeStyle)
    requires style == ChangeSkillEdge ==> forall i :: 0 <= i < |targets| ==> targets[i].id != 0
    ensures var h := LinkAll(g, source, targets, style); KeepsLinks(g, h) && RootEdges(h.out, |g.out|)
  {
    var h := LinkAll(g, source, targets, style);
    LinkAllDraws(g, source, targets, style);
    forall i | |g.out| <= i < |h.out|
      ensures h.out[i].Edge? && (h.out[i].style == ChangeSkillEdge ==> h.out[i].target.Ref? && h.out[i].target.ref.id != 0)
    {
      assert h.out[|g.out| + (i - |g.out|)] == Edge(source, Ref(targets[i - |g.out|]), style);
    }
  }

  /** The combo walk draws only green edges. */
  lemma ComboWalkRootEdges(links: map<int, ReferenceData>, g: GraphState, combo: ReferenceData)
    requires combo.id in links
    ensures var h := ComboWalk(links, g, combo, []); KeepsLinks(g, h) && RootEdges(h.out, |g.out|)
  {
    var h := ComboWalk(links, g, combo, []);
    ComboWalkKeeps(links, g, combo, []);
    ComboWalkChain(links, g, combo, []);
    forall i | |g.out| <= i < |h.out| ensures h.out[i].Edge? && h.out[i].style == ComboEdge {
      assert h.out[i] == h.out[|g.out|..][i - |g.out|];
    }
  }

  /**
   * What `PrintRoot(JobSkill)` draws: nothing for a skill missing from the store; otherwise only
   * edges, no red one to id 0, and no target list is touched.
   */
  lemma RootSkillDraws(store: Store, g: GraphState, jobSkill: JobSkill)
    requires LevelsPresent(store)
    ensures jobSkill.skill.id !in store.skills ==> RootSkill(store, g, jobSkill) == g
    ensures var h := RootSkill(store, g, jobSkill); KeepsLinks(g, h) && RootEdges(h.out, |g.out|)
  {
    if jobSkill.skill.id in store.skills {
      var skill := jobSkill.skill;
      var rooted := Link(g, Root, skill, RootEdge);
      var subs := LinkAll(rooted, Ref(skill), jobSkill.subSkills, SubSkillEdge);
      var combos := ComboWalk(ComboLinks(store), subs, skill, []);
      var targets := ChangeTargets(BeginLevel(store.skills[skill.id].levels).changeSkillReferences);
      var h := LinkAll(combos, Ref(skill), targets, ChangeSkillEdge);
      assert h == RootSkill(store, g, jobSkill);
      LinkKeeps(g, Root, skill, RootEdge);
      assert RootEdges(rooted.out, |g.out|);
      LinkAllRootEdges(rooted, Ref(skill), jobSkill.subSkills, SubSkillEdge);
      ComboWalkRootEdges(ComboLinks(store), subs, skill);
      LinkAllRootEdges(combos, Ref(skill), targets, ChangeSkillEdge);
      KeepsLinksTransitive(g, rooted, subs);
      KeepsLinksTransitive(g, subs, combos);
      KeepsLinksTransitive(g, combos, h);
      RootEdgesJoin(rooted.out, subs.out, |g.out|);
      RootEdgesJoin(subs.out, combos.out, |g.out|);
      RootEdgesJoin(combos.out, h.out, |g.out|);
    }
  }

  /**
   * For a stored skill, `PrintRoot(JobSkill)` starts with the root's edge to the skill and then
   * one edge per sub skill in order; the skill and its sub skills are known afterwards.
   */
  lemma RootSkillHead(store: Store, g: GraphState, jobSkill: JobSkill)
    requires LevelsPresent(store) && jobSkill.skill.id in store.skills
    ensures var h := RootSkill(store, g, jobSkill);
      var subs := jobSkill.subSkills;
      && |h.out| >= |g.out| + 1 + |subs|
      && h.out[|g.out|] == Edge(Root, Ref(jobSkill.skill), RootEdge)
      && (forall i :: 0 <= i < |subs| ==> h.out[|g.out| + 1 + i] == Edge(Ref(jobSkill.skill), Ref(subs[i]), SubSkillEdge))
      && Known(h, jobSkill.skill)
      && (forall i :: 0 <= i < |subs| ==> Known(h, subs[i]))
  {
    var skill := jobSkill.skill;
    var rooted := Link(g, Root, skill, RootEdge);
    var subs := LinkAll(rooted, Ref(skill), jobSkill.subSkills, SubSkillEdge);
    var combos := ComboWalk(ComboLinks(store), subs, skill, []);
    var targets := ChangeTargets(BeginLevel(store.skills[skill.id].levels).changeSkillReferences);
    var h := LinkAll(combos, Ref(skill), targets, ChangeSkillEdge);
    assert h == RootSkill(store, g, jobSkill);
    ComboWalkKeeps(ComboLinks(store), subs, skill, []);
    LinkAllDraws(combos, Ref(skill), targets, ChangeSkillEdge);
    KeepsLinksTransitive(subs, combos, h);
    SubSkillEdges(g, rooted, subs, h, skill, jobSkill.subSkills);
    LinkKeeps(g, Root, skill, RootEdge);
    LinkAllDraws(rooted, Ref(skill), jobSkill.subSkills, SubSkillEdge);
    KeepsLinksTransitive(rooted, subs, h);
    KnownKept(rooted, h, skill);
  }

  /** The root edge and the sub-skill edges stay where they were drawn while the rest is appended. */
  lemma SubSkillEdges(g: GraphState, rooted: GraphState, subs: GraphState, h: GraphState,
                      skill: ReferenceData, subSkills: seq<ReferenceData>)
    requires rooted == Link(g, Root, skill, RootEdge)
    requires subs == LinkAll(rooted, Ref(skill), subSkills, SubSkillEdge)
    requires KeepsLinks(subs, h)
    ensures |h.out| >= |g.out| + 1 + |subSkills|
    ensures h.out[|g.out|] == Edge(Root, Ref(skill), RootEdge)
    ensures forall i :: 0 <= i < |subSkills| ==> h.out[|g.out| + 1 + i] == Edge(Ref(skill), Ref(subSkills[i]), SubSkillEdge)
    ensures forall i :: 0 <= i < |subSkills| ==> Known(h, subSkills[i])
  {
    LinkAllDraws(rooted, Ref(skill), subSkills, SubSkillEdge);
    assert h.out[..|subs.out|] == subs.out;
    assert h.out[|g.out|] == subs.out[|g.out|] == rooted.out[|g.out|];
    forall i | 0 <= i < |subSkills|
      ensures h.out[|g.out| + 1 + i] == Edge(Ref(skill), Ref(subSkills[i]), SubSkillEdge)
      ensures Known(h, subSkills[i])
    {
      assert h.out[|g.out| + 1 + i] == subs.out[|rooted.out| + i];
      KnownKept(subs, h, subSkills[i]);
    }
  }

  /** `PrintRoot(JobData)`'s loop: the job skills in order. */
  function RootSkills(store: Store, g: GraphState, jobSkills: seq<JobSkill>): (h: GraphState)
    requires LevelsPresent(store)
    decreases |jobSkills|
  {
    if jobSkills == [] then g
    else RootSkill(store, RootSkills(store, g, jobSkills[..|jobSkills| - 1]), jobSkills[|jobSkills| - 1])
  }

  /** `PrintRoot(JobData)`: the root node with its label, then every job skill. */
  function RootJob(store: Store, g: GraphState, job: JobData, rootLabel: string): (h: GraphState)
    requires LevelsPresent(store)
  {
    RootSkills(store, Emit(g, Node(Root, RootLabel(rootLabel))), job.skills)
  }

  lemma {:induction false} RootSkillsDraws(store: Store, g: GraphState, jobSkills: seq<JobSkill>)
    requires LevelsPresent(store)
    ensures var h := RootSkills(store, g, jobSkills); KeepsLinks(g, h) && RootEdges(h.out, |g.out|)
    decreases |jobSkills|
  {
    if jobSkills != [] {
      var n := |jobSkills| - 1;
      var prev := RootSkills(store, g, jobSkills[..n]);
      var h := RootSkills(store, g, jobSkills);
      RootSkillsDraws(store, g, jobSkills[..n]);
      RootSkillDraws(store, prev, jobSkills[n]);
      KeepsLinksTransitive(g, prev, h);
      RootEdgesJoin(prev.out, h.out, |g.out|);
    }
  }

  /** After the job-skill loop, every job skill the store has is known, so the drain will expand it. */
  lemma {:induction false} RootSkillsKnown(store: Store, g: GraphState, jobSkills: seq<JobSkill>)
    requires LevelsPresent(store)
    ensures var h := RootSkills(store, g, jobSkills);
      forall i :: 0 <= i < |jobSkills| && jobSkills[i].skill.id in store.skills ==> Known(h, jobSkills[i].skill)
    decreases |jobSkills|
  {
    if jobSkills != [] {
      var n := |jobSkills| - 1;
      var prev := RootSkills(store, g, jobSkills[..n]);
      var h := RootSkills(store, g, jobSkills);
      RootSkillsKnown(store, g, jobSkills[..n]);
      RootSkillDraws(store, prev, jobSkills[n]);
      if jobSkills[n].skill.id in store.skills {
        RootSkillHead(store, prev, jobSkills[n]);
      }
      forall i | 0 <= i < n && jobSkills[i].skill.id in store.skills
        ensures Known(h, jobSkills[i].skill)
      {
        assert jobSkills[..n][i] == jobSkills[i];
        KnownKept(prev, h, jobSkills[i].skill);
      }
    }
  }

  /**
   * What `PrintRoot(JobData)` draws: the root node first, then only edges; every job skill the
   * store has is known afterwards (so the drain will expand it), no red edge goes to id 0, and no
   * target list is touched.
   */
  lemma RootJobDraws(store: Store, g: GraphState, job: JobData, rootLabel: string)
    requires LevelsPresent(store)
    ensures var h := RootJob(store, g, job, rootLabel);
      && |h.out| > |g.out| && h.out[|g.out|] == Node(Root, RootLabel(rootLabel))
      && KeepsLinks(g, h) && RootEdges(h.out, |g.out| + 1)
      && (forall i :: 0 <= i < |job.skills| && job.skills[i].skill.id in store.skills ==> Known(h, job.skills[i].skill))
  {
    var g1 := Emit(g, Node(Root, RootLabel(rootLabel)));
    var h := RootJob(store, g, job, rootLabel);
    RootSkillsDraws(store, g1, job.skills);
    RootSkillsKnown(store, g1, job.skills);
    assert KeepsLinks(g, g1);
    KeepsLinksTransitive(g, g1, h);
    assert h.out[|g.out|] == g1.out[|g.out|];
  }

  /** One tier of `PrintRoot(SetBonusData)`: the tier node, the root's edge to it, and its effects. */
  function TierPart(g: GraphState, part: SetBonusOptionPartData): (h: GraphState)
  {
    var c := part.count;
    var drawn := Emit(Emit(g, Node(Tier(c), TierLabel(c))), Edge(Root, Tier(c), TierEdge));
    LinkAll(drawn, Tier(c), part.additionalEffects, TierEffectEdge)
  }

  function TierParts(g: GraphState, parts: seq<SetBonusOptionPartData>): (h: GraphState)
    decreases |parts|
  {
    if parts == [] then g
    else TierPart(TierParts(g, parts[..|parts| - 1]), parts[|parts| - 1])
  }

  /**
   * `PrintRoot(SetBonusData)`: the root node with its label, then every part of the option the
   * set points at. The option must exist: the source dereferences the pointer unchecked.
   */
  function RootSetBonus(store: Store, g: GraphState, setData: SetBonusData, rootLabel: string): (h: GraphState)
    requires setData.optionData.Some? && setData.optionData.value in store.setBonusOptions
  {
    TierParts(Emit(g, Node(Root, RootLabel(rootLabel))), store.setBonusOptions[setData.optionData.value].parts)
  }

  /** The number of lines the parts of an option draw: a node and an edge per tier, and an edge per effect. */
  function PartsSize(parts: seq<SetBonusOptionPartData>): nat
    decreases |parts|
  {
    if parts == [] then 0 else PartsSize(parts[..|parts| - 1]) + 2 + |parts[|parts| - 1].additionalEffects|
  }

  /**
   * One tier draws its node, the root's edge to it and one edge per effect in order; each effect
   * is known afterwards and no target list is touched.
   */
  lemma TierPartDraws(g: GraphState, part: SetBonusOptionPartData)
    ensures var h := TierPart(g, part); var c := part.count; var n := |g.out|;
      && KeepsLinks(g, h)
      && |h.out| == n + 2 + |part.additionalEffects|
      && h.out[n] == Node(Tier(c), TierLabel(c)) && h.out[n + 1] == Edge(Root, Tier(c), TierEdge)
      && (forall i :: 0 <= i < |part.additionalEffects| ==>
            h.out[n + 2 + i] == Edge(Tier(c), Ref(part.additionalEffects[i]), TierEffectEdge))
      && (forall i :: 0 <= i < |part.additionalEffects| ==> Known(h, part.additionalEffects[i]))
  {
    var c := part.count;
    var drawn := Emit(Emit(g, Node(Tier(c), TierLabel(c))), Edge(Root, Tier(c), TierEdge));
    var h := TierPart(g, part);
    LinkAllDraws(drawn, Tier(c), part.additionalEffects, TierEffectEdge);
    assert KeepsLinks(g, drawn);
    KeepsLinksTransitive(g, drawn, h);
    assert h.out[|g.out|] == drawn.out[|g.out|];
    assert h.out[|g.out| + 1] == drawn.out[|g.out| + 1];
  }

  lemma {:induction false} TierPartsDraws(g: GraphState, parts: seq<SetBonusOptionPartData>)
    ensures var h := TierParts(g, parts);
      KeepsLinks(g, h) && |h.out| == |g.out| + PartsSize(parts)
    decreases |parts|
  {
    if parts != [] {
      var prev := TierParts(g, parts[..|parts| - 1]);
      TierPartsDraws(g, parts[..|parts| - 1]);
      TierPartDraws(prev, parts[|parts| - 1]);
      KeepsLinksTransitive(g, prev, TierParts(g, parts));
    }
  }

  /**
   * What `PrintRoot(SetBonusData)` draws: the root node, then a node, an edge and the effect edges
   * of each tier (1 + PartsSize lines in all), touching no target list.
   */
  lemma RootSetBonusDraws(store: Store, g: GraphState, setData: SetBonusData, rootLabel: string)
    requires setData.optionData.Some? && setData.optionData.value in store.setBonusOptions
    ensures var h := RootSetBonus(store, g, setData, rootLabel);
      var parts := store.setBonusOptions[setData.optionData.value].parts;
      && KeepsLinks(g, h) && |h.out| == |g.out| + 1 + PartsSize(parts)
      && h.out[|g.out|] == Node(Root, RootLabel(rootLabel))
  {
    var g1 := Emit(g, Node(Root, RootLabel(rootLabel)));
    var h := RootSetBonus(store, g, setData, rootLabel);
    TierPartsDraws(g1, store.setBonusOptions[setData.optionData.value].parts);
    assert KeepsLinks(g, g1);
    KeepsLinksTransitive(g, g1, h);
    assert h.out[|g.out|] == g1.out[|g.out|];
  }

  /** Every root dereferences what it draws to, so the queues keep matching their maps. */
  lemma LinkValid(g: GraphState, source: Endpoint, target: ReferenceData, style: EdgeStyle)
    requires Valid(g)
    ensures Valid(Link(g, source, target, style))
  {
    var d := Deref(g, target);
    assert Valid(d);
    assert Link(g, source, target, style) == d.(out := d.out + [Edge(source, Ref(target), style)]);
  }

  lemma {:induction false} LinkAllValid(g: GraphState, source: Endpoint, targets: seq<ReferenceData>, style: EdgeStyle)
    requires Valid(g)
    ensures Valid(LinkAll(g, source, targets, style))
    decreases |targets|
  {
    if targets != [] {
      LinkAllValid(g, source, targets[..|targets| - 1], style);
      LinkValid(LinkAll(g, source, targets[..|targets| - 1], style), source, targets[|targets| - 1], style);
    }
  }

  lemma {:induction false} ComboWalkValid(links: map<int, ReferenceData>, g: GraphState, combo: ReferenceData, visited: seq<int>)
    requires combo.id in links
    requires combo.id in visited ==> links[combo.id].id == combo.id
    requires Valid(g)
    ensures Valid(ComboWalk(links, g, combo, visited))
    decreases |links.Keys - SetOf(visited)|
  {
    if combo.id != 0 && links[combo.id].id !in visited && links[combo.id].id in links {
      var next := links[combo.id];
      WalkShrinks(links.Keys, visited, combo.id);
      LinkValid(g, Ref(combo), next, ComboEdge);
      ComboWalkValid(links, Link(g, Ref(combo), next, ComboEdge), next, visited + [combo.id]);
    }
  }

  lemma RootSkillValid(store: Store, g: GraphState, jobSkill: JobSkill)
    requires LevelsPresent(store) && Valid(g)
    ensures Valid(RootSkill(store, g, jobSkill))
  {
    if jobSkill.skill.id in store.skills {
      var skill := jobSkill.skill;
      var rooted := Link(g, Root, skill, RootEdge);
      var subs := LinkAll(rooted, Ref(skill), jobSkill.subSkills, SubSkillEdge);
      var combos := ComboWalk(ComboLinks(store), subs, skill, []);
      var targets := ChangeTargets(BeginLevel(store.skills[skill.id].levels).changeSkillReferences);
      LinkValid(g, Root, skill, RootEdge);
      LinkAllValid(rooted, Ref(skill), jobSkill.subSkills, SubSkillEdge);
      ComboWalkValid(ComboLinks(store), subs, skill, []);
      LinkAllValid(combos, Ref(skill), targets, ChangeSkillEdge);
    }
  }

  lemma {:induction false} RootSkillsValid(store: Store, g: GraphState, jobSkills: seq<JobSkill>)
    requires LevelsPresent(store) && Valid(g)
    ensures Valid(RootSkills(store, g, jobSkills))
    decreases |jobSkills|
  {
    if jobSkills != [] {
      RootSkillsValid(store, g, jobSkills[..|jobSkills| - 1]);
      RootSkillValid(store, RootSkills(store, g, jobSkills[..|jobSkills| - 1]), jobSkills[|jobSkills| - 1]);
    }
  }

  /** `PrintRoot(JobData)` keeps the queues matching their maps. */
  lemma RootJobValid(store: Store, g: GraphState, job: JobData, rootLabel: string)
    requires LevelsPresent(store) && Valid(g)
    ensures Valid(RootJob(store, g, job, rootLabel))
  {
    RootSkillsValid(store, Emit(g, Node(Root, RootLabel(rootLabel))), job.skills);
  }

  lemma {:induction false} TierPartsValid(g: GraphState, parts: seq<SetBonusOptionPartData>)
    requires Valid(g)
    ensures Valid(TierParts(g, parts))
    decreases |parts|
  {
    if parts != [] {
      TierPartsValid(g, parts[..|parts| - 1]);
      var prev := TierParts(g, parts[..|parts| - 1]);
      var part := parts[|parts| - 1];
      var c := part.count;
      LinkAllValid(Emit(Emit(prev, Node(Tier(c), TierLabel(c))), Edge(Root, Tier(c), TierEdge)), Tier(c), part.additionalEffects, TierEffectEdge);
    }
  }

  /** `PrintRoot(SetBonusData)` keeps the queues matching their maps. */
  lemma RootSetBonusValid(store: Store, g: GraphState, setData: SetBonusData, rootLabel: string)
    requires setData.optionData.Some? && setData.optionData.value in store.setBonusOptions
    requires Valid(g)
    ensures Valid(RootSetBonus(store, g, setData, rootLabel))
  {
    TierPartsValid(Emit(g, Node(Root, RootLabel(rootLabel))), store.setBonusOptions[setData.optionData.value].parts);
  }
}
