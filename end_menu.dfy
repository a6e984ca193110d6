/**
 * The end-of-game panel (`end-menu`): the final statistics with their
 * accuracy percentage, and a replay button that clears the scene of
 * targets and arrows and brings the start menu back.
 */
module EndMenu {
  import opened Common

  /** An accuracy in percent: `Math.round(hits / arrows * 100)`, or 0 before any arrow. */
  function Accuracy(hits: int, arrows: int): (r: int)
    ensures arrows <= 0 ==> r == 0
    ensures arrows > 0 ==> var pct := hits as real / arrows as real * 100.0;
                           pct - 0.5 < r as real <= pct + 0.5
  {
    if arrows > 0 then JsRound(hits as real / arrows as real * 100.0) else 0
  }

  lemma RatioAtMostOne(hits: int, arrows: int)
    requires 0 <= hits <= arrows && arrows > 0
    ensures 0.0 <= hits as real / arrows as real <= 1.0
  {
    var h, a := hits as real, arrows as real;
    assert (a - h) / a >= 0.0;
    assert a / a - h / a == (a - h) / a;
  }

  /** As long as no more hits than arrows are counted, the accuracy is a percentage. */
  lemma AccuracyBounds(hits: int, arrows: int)
    requires 0 <= hits <= arrows
    ensures 0 <= Accuracy(hits, arrows) <= 100
  {
    if arrows > 0 {
      RatioAtMostOne(hits, arrows);
    }
  }

  /** Every arrow a hit gives 100, no hit at all gives 0. */
  lemma AccuracyExtremes(hits: int, arrows: int)
    requires arrows > 0
    ensures hits == arrows ==> Accuracy(hits, arrows) == 100
    ensures hits == 0 ==> Accuracy(hits, arrows) == 0
  {
    if hits == arrows {
      assert hits as real / arrows as real == 1.0;
    }
  }

  /** The entities of the scene that replay looks for. */
  datatype Kind = TargetEntity | ArrowEntity | StartMenuEntity | OtherEntity

  /** The scene's entities without those of one kind, in order. */
  function Without(es: seq<Kind>, k: Kind): seq<Kind>
  {
    if |es| == 0 then []
    else Without(es[..|es| - 1], k) + (if es[|es| - 1] == k then [] else [es[|es| - 1]])
  }

  /** How many entities of a kind the scene holds. */
  function Count(es: seq<Kind>, k: Kind): nat
  {
    if |es| == 0 then 0 else Count(es[..|es| - 1], k) + (if es[|es| - 1] == k then 1 else 0)
  }

  lemma {:induction false} CountAppend(es: seq<Kind>, more: seq<Kind>, k: Kind)
    ensures Count(es + more, k) == Count(es, k) + Count(more, k)
    decreases |more|
  {
    if |more| > 0 {
      var init := more[..|more| - 1];
      assert (es + more)[..|es + more| - 1] == es + init;
      CountAppend(es, init, k);
    } else {
      assert es + more == es;
    }
  }

  lemma CountSingle(x: Kind, k: Kind)
    ensures Count([x], k) == if x == k then 1 else 0
  {
    assert [x][..0] == [];
  }

  /** Removing a kind leaves none of it and every other kind as many times as before. */
  lemma {:induction false} WithoutCounts(es: seq<Kind>, k: Kind, other: Kind)
    ensures Count(Without(es, k), k) == 0
    ensures other != k ==> Count(Without(es, k), other) == Count(es, other)
  {
    if |es| > 0 {
      var init, last := es[..|es| - 1], es[|es| - 1];
      WithoutCounts(init, k, other);
      var kept := Without(init, k);
      var tail: seq<Kind> := if last == k then [] else [last];
      assert Without(es, k) == kept + tail;
      CountAppend(kept, tail, k);
      CountAppend(kept, tail, other);
      if last != k {
        CountSingle(last, k);
        CountSingle(last, other);
      }
      assert Count(es, other) == Count(init, other) + (if last == other then 1 else 0);
    }
  }

  /** One `querySelectorAll(…).forEach(e => e.remove())` pass. */
  method RemoveAll(es: seq<Kind>, k: Kind) returns (r: seq<Kind>)
    ensures r == Without(es, k)
  {
    r := [];
    var i := 0;
    while i < |es|
      invariant 0 <= i <= |es|
      invariant r == Without(es[..i], k)
    {
      assert es[..i + 1][..i] == es[..i];
      if es[i] != k {
        r := r + [es[i]];
      }
      i := i + 1;
    }
    assert es[..|es|] == es;
  }

  class Scene {
    var entities: seq<Kind>
    /** Whether the `game-hud` element is attached. */
    var hudPresent: bool

    constructor (entities: seq<Kind>, hudPresent: bool)
      ensures this.entities == entities && this.hudPresent == hudPresent
    {
      this.entities := entities;
      this.hudPresent := hudPresent;
    }
  }

  class Menu {
    /** The schema: final score, hits and arrows shot. */
    const score: int
    const hits: int
    const arrows: int
    /** Whether `createEndPanel` stored the replay button. */
    const hasReplayButton: bool
    var isVisible: bool
    var removalsScheduled: nat

    /** A hidden panel always has its removal scheduled. */
    ghost predicate Valid()
      reads this`isVisible, this`removalsScheduled
    {
      !isVisible ==> removalsScheduled >= 1
    }

    /** `init`: the panel starts visible. */
    constructor (score: int, hits: int, arrows: int, hasReplayButton: bool)
      ensures Valid() && isVisible && removalsScheduled == 0
      ensures this.score == score && this.hits == hits && this.arrows == arrows
      ensures this.hasReplayButton == hasReplayButton
    {
      this.score := score;
      this.hits := hits;
      this.arrows := arrows;
      this.hasReplayButton := hasReplayButton;
      isVisible := true;
      removalsScheduled := 0;
    }

    /** `hideMenu`: only a visible panel is hidden and scheduled for removal. */
    method HideMenu()
      requires Valid()
      modifies this`isVisible, this`removalsScheduled
      ensures Valid() && !isVisible
      ensures removalsScheduled == old(removalsScheduled) + (if old(isVisible) then 1 else 0)
    {
      if !isVisible {
        return;
      }
      isVisible := false;
      removalsScheduled := removalsScheduled + 1;
    }

    /** `onReplayClick`: HUD, targets and arrows go, the panel hides, one start menu is added. */
    method OnReplayClick(scene: Scene)
      requires Valid()
      modifies this`isVisible, this`removalsScheduled, scene
      ensures Valid() && !isVisible && !scene.hudPresent
      ensures removalsScheduled == old(removalsScheduled) + (if old(isVisible) then 1 else 0)
      ensures scene.entities == Without(Without(old(scene.entities), TargetEntity), ArrowEntity) + [StartMenuEntity]
    {
      scene.hudPresent := false;
      var es := RemoveAll(scene.entities, TargetEntity);
      es := RemoveAll(es, ArrowEntity);
      scene.entities := es;
      HideMenu();
      scene.entities := scene.entities + [StartMenuEntity];
    }

    /** `checkArrowHit`: a hit on the visible replay button's sphere replays. */
    method CheckArrowHit(distance: real, scene: Scene) returns (hit: bool)
      requires Valid()
      modifies this`isVisible, this`removalsScheduled, scene
      ensures Valid()
      ensures hit <==> old(isVisible) && hasReplayButton && distance < 0.5
      ensures hit ==> !isVisible && !scene.hudPresent
                      && scene.entities == Without(Without(old(scene.entities), TargetEntity), ArrowEntity) + [StartMenuEntity]
      ensures !hit ==> isVisible == old(isVisible) && removalsScheduled == old(removalsScheduled)
                       && scene.entities == old(scene.entities) && scene.hudPresent == old(scene.hudPresent)
    {
      if !isVisible || !hasReplayButton {
        return false;
      }
      if distance < 0.5 {
        OnReplayClick(scene);
        return true;
      }
      return false;
    }
  }

  /** After replay the scene holds no target and no arrow, and exactly one start menu more. */
  lemma ReplayClearsScene(before: seq<Kind>, after: seq<Kind>)
    requires after == Without(Without(before, TargetEntity), ArrowEntity) + [StartMenuEntity]
    ensures Count(after, TargetEntity) == 0 && Count(after, ArrowEntity) == 0
    ensures Count(after, StartMenuEntity) == Count(before, StartMenuEntity) + 1
    ensures Count(after, OtherEntity) == Count(before, OtherEntity)
  {
    var noTargets := Without(before, TargetEntity);
    var kept := Without(noTargets, ArrowEntity);
    WithoutCounts(before, TargetEntity, ArrowEntity);
    WithoutCounts(before, TargetEntity, StartMenuEntity);
    WithoutCounts(before, TargetEntity, OtherEntity);
    WithoutCounts(noTargets, ArrowEntity, TargetEntity);
    WithoutCounts(noTargets, ArrowEntity, StartMenuEntity);
    WithoutCounts(noTargets, ArrowEntity, OtherEntity);
    CountAppend(kept, [StartMenuEntity], TargetEntity);
    CountAppend(kept, [StartMenuEntity], ArrowEntity);
    CountAppend(kept, [StartMenuEntity], StartMenuEntity);
    CountAppend(kept, [StartMenuEntity], OtherEntity);
    assert [StartMenuEntity][..0] == [];
  }
}
