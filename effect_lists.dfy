/**
 * The additional-effect lists of set-bonus parts and items (XmlParsing.cpp, `ParseSetBonusOptions`
 * and `ParseItems`): two parallel integer lists, effect ids and effect levels, read into fresh
 * vectors; every non-zero id gives an Effect reference at the level in the same position.
 */
module EffectLists {
  import opened XmlTree
  import opened ParserUtils
  import opened XmlData
  import Wrappers

  /**
   * The level list covers every position the loop reads: the source indexes the level vector at
   * every non-zero id, so a non-zero id past its end would be read out of bounds.
   */
  predicate LevelsCover(ids: seq<int>, levels: seq<int>)
  {
    forall i :: |levels| <= i < |ids| ==> ids[i] == 0
  }

  /** The references the loop appends: one per non-zero id, in list order. */
  function ListedEffects(ids: seq<int>, levels: seq<int>): (refs: seq<ReferenceData>)
    requires LevelsCover(ids, levels)
    ensures |refs| <= |ids|
    decreases |ids|
  {
    if ids == [] then []
    else
      var front := ids[..|ids| - 1];
      var id := ids[|ids| - 1];
      var prev := ListedEffects(front, levels);
      if id == 0 then prev else prev + [ReferenceData(Effect, id, levels[|ids| - 1])]
  }

  /** The number of non-zero ids in a list. */
  function NonZeroCount(ids: seq<int>): nat
    decreases |ids|
  {
    if ids == [] then 0
    else NonZeroCount(ids[..|ids| - 1]) + (if ids[|ids| - 1] == 0 then 0 else 1)
  }

  /**
   * The loop appending to `refs`: the ids and levels are the two list attributes of `node`, read
   * into fresh vectors.
   */
  method AppendListedEffects(node: Element, idName: string, levelName: string, refs: seq<ReferenceData>)
    returns (r: seq<ReferenceData>)
    requires LevelsCover(ListAttribute(node, idName), ListAttribute(node, levelName))
    ensures r == refs + ListedEffects(ListAttribute(node, idName), ListAttribute(node, levelName))
  {
    var effectIds := ReadFreshIntList(node, idName);
    var effectLevels := ReadFreshIntList(node, levelName);
    r := refs;
    var i := 0;
    while i < |effectIds|
      invariant 0 <= i <= |effectIds|
      invariant r == refs + ListedEffects(effectIds[..i], effectLevels)
    {
      assert effectIds[..i + 1][..i] == effectIds[..i];
      var effectId := effectIds[i];
      if effectId != 0 {
        Wrappers.AppendAssociative(refs, ListedEffects(effectIds[..i], effectLevels), [ReferenceData(Effect, effectId, effectLevels[i])]);
        r := r + [ReferenceData(Effect, effectId, effectLevels[i])];
      }
      i := i + 1;
    }
    assert effectIds[..i] == effectIds;
  }

  /**
   * Every appended reference is an Effect reference with a non-zero id, there is one per non-zero
   * id, and every non-zero id appears with the level at its position.
   */
  lemma {:induction false} ListedEffectsShape(ids: seq<int>, levels: seq<int>)
    requires LevelsCover(ids, levels)
    ensures var refs := ListedEffects(ids, levels);
      && |refs| == NonZeroCount(ids)
      && (forall k :: 0 <= k < |refs| ==> refs[k].kind == Effect && refs[k].id != 0)
      && (forall i :: 0 <= i < |ids| && ids[i] != 0 ==> ReferenceData(Effect, ids[i], levels[i]) in refs)
    decreases |ids|
  {
    if ids != [] {
      var front := ids[..|ids| - 1];
      assert LevelsCover(front, levels);
      ListedEffectsShape(front, levels);
      var prev := ListedEffects(front, levels);
      forall i | 0 <= i < |ids| && ids[i] != 0
        ensures ReferenceData(Effect, ids[i], levels[i]) in ListedEffects(ids, levels)
      {
        if i < |front| {
          assert front[i] == ids[i];
          assert ReferenceData(Effect, ids[i], levels[i]) in prev;
        }
      }
    }
  }
}
