/**
 * The bow input (`bow-draw-system`): the trigger state machine that hooks
 * and releases the string, and the mapping from draw distance to arrow
 * speed.
 */
module BowDraw {
  import opened Common

  /** The schema values. */
  datatype Config = Config(maxArrowSpeed: real, minArrowSpeed: real, maxDrawDistance: real,
                           minDrawDistance: real, snapDistance: real)

  const DefaultConfig := Config(30.0, 10.0, 0.5, 0.15, 0.2)

  /** `Math.min(drawDistance / maxDrawDistance, 1)`. */
  function DrawRatio(d: real, maxDrawDistance: real): (r: real)
    requires maxDrawDistance > 0.0
    ensures r <= 1.0
    ensures d >= maxDrawDistance ==> r == 1.0
    ensures 0.0 <= d ==> 0.0 <= r
  {
    Min(d / maxDrawDistance, 1.0)
  }

  /** The shot speed for draw distance `d`. */
  function ArrowSpeed(cfg: Config, d: real): (r: real)
    requires cfg.maxDrawDistance > 0.0
    ensures d == 0.0 ==> r == cfg.minArrowSpeed
    ensures d >= cfg.maxDrawDistance ==> r == cfg.maxArrowSpeed
  {
    cfg.minArrowSpeed + (cfg.maxArrowSpeed - cfg.minArrowSpeed) * DrawRatio(d, cfg.maxDrawDistance)
  }

  lemma ScaleWithin(s: real, r: real)
    requires s >= 0.0 && 0.0 <= r <= 1.0
    ensures 0.0 <= s * r <= s
  {
    assert s * (1.0 - r) >= 0.0;
  }

  lemma ScaleMonotone(s: real, r1: real, r2: real)
    requires s >= 0.0 && r1 <= r2
    ensures s * r1 <= s * r2
  {
    assert s * (r2 - r1) >= 0.0;
  }

  lemma DivideMonotone(a: real, b: real, m: real)
    requires m > 0.0 && a <= b
    ensures a / m <= b / m
  {
    assert (b - a) / m >= 0.0;
    assert b / m - a / m == (b - a) / m;
  }

  /** For a non-negative draw the speed lies between the minimum and the maximum speed. */
  lemma ArrowSpeedBounds(cfg: Config, d: real)
    requires cfg.maxDrawDistance > 0.0 && cfg.minArrowSpeed <= cfg.maxArrowSpeed && d >= 0.0
    ensures cfg.minArrowSpeed <= ArrowSpeed(cfg, d) <= cfg.maxArrowSpeed
  {
    ScaleWithin(cfg.maxArrowSpeed - cfg.minArrowSpeed, DrawRatio(d, cfg.maxDrawDistance));
  }

  /** A longer draw never gives a slower arrow. */
  lemma ArrowSpeedMonotone(cfg: Config, d1: real, d2: real)
    requires cfg.maxDrawDistance > 0.0 && cfg.minArrowSpeed <= cfg.maxArrowSpeed && d1 <= d2
    ensures ArrowSpeed(cfg, d1) <= ArrowSpeed(cfg, d2)
  {
    var s, r1, r2 := cfg.maxArrowSpeed - cfg.minArrowSpeed, DrawRatio(d1, cfg.maxDrawDistance), DrawRatio(d2, cfg.maxDrawDistance);
    DivideMonotone(d1, d2, cfg.maxDrawDistance);
    ScaleMonotone(s, r1, r2);
    SpeedOrder(cfg.minArrowSpeed, s * r1, s * r2, ArrowSpeed(cfg, d1), ArrowSpeed(cfg, d2));
  }

  lemma SpeedOrder(base: real, p1: real, p2: real, v1: real, v2: real)
    requires p1 <= p2 && v1 == base + p1 && v2 == base + p2
    ensures v1 <= v2
  {
  }

  /** A full draw (or more) gives exactly the maximum speed. */
  lemma ArrowSpeedAtFullDraw(cfg: Config, d: real)
    requires cfg.maxDrawDistance > 0.0 && d >= cfg.maxDrawDistance
    ensures ArrowSpeed(cfg, d) == cfg.maxArrowSpeed
  {
  }

  /** `createFlyingArrow`'s arguments: the bow hand's position, the aim rotation and the speed. */
  datatype FlyingArrow<Rotation> = FlyingArrow(position: Vec3, rotation: Rotation, speed: real)

  class Bow<Rotation> {
    const cfg: Config
    /** Whether `play` found both hands. */
    var hasHands: bool
    var isDrawing: bool
    var drawDistance: real
    var triggerPressed: bool
    /** Arrows created and `arrow-shot` emissions, in order. */
    var arrows: seq<FlyingArrow<Rotation>>
    var arrowShotEvents: nat

    ghost predicate Valid()
      reads this`isDrawing, this`hasHands, this`arrows, this`arrowShotEvents
    {
      cfg.maxDrawDistance > 0.0
      && (isDrawing ==> hasHands)
      && arrowShotEvents == |arrows|
    }

    constructor (cfg: Config)
      requires cfg.maxDrawDistance > 0.0
      ensures Valid() && this.cfg == cfg
      ensures !hasHands && !isDrawing && drawDistance == 0.0 && !triggerPressed && arrows == []
    {
      this.cfg := cfg;
      hasHands := false;
      isDrawing := false;
      drawDistance := 0.0;
      triggerPressed := false;
      arrows := [];
      arrowShotEvents := 0;
    }

    /** `play`: records whether both hands were found. */
    method Play(handsFound: bool)
      requires Valid() && !isDrawing
      modifies this`hasHands
      ensures Valid() && hasHands == handsFound
    {
      hasHands := handsFound;
    }

    /** `handleTriggerDown` with the current distance between the hands. */
    method TriggerDown(handDistance: real)
      requires Valid()
      modifies this`triggerPressed, this`isDrawing
      ensures Valid()
      ensures !hasHands ==> triggerPressed == old(triggerPressed) && isDrawing == old(isDrawing)
      ensures hasHands ==> triggerPressed && isDrawing == (old(isDrawing) || handDistance < cfg.snapDistance)
    {
      if !hasHands {
        return;
      }
      triggerPressed := true;
      if handDistance < cfg.snapDistance {
        isDrawing := true;
      }
    }

    /** `tick` while drawing: the draw distance follows the hands. */
    method Tick(handDistance: real)
      requires Valid()
      modifies this`drawDistance
      ensures Valid()
      ensures drawDistance == if isDrawing && hasHands then handDistance else old(drawDistance)
    {
      if !isDrawing || !hasHands {
        return;
      }
      drawDistance := handDistance;
    }

    /** `shootArrow`: no arrow below the minimum draw, otherwise one arrow at `ArrowSpeed` and one event. */
    method ShootArrow(bowHand: Vec3, aim: Rotation)
      requires Valid()
      modifies this`arrows, this`arrowShotEvents
      ensures Valid()
      ensures drawDistance < cfg.minDrawDistance ==> arrows == old(arrows) && arrowShotEvents == old(arrowShotEvents)
      ensures drawDistance >= cfg.minDrawDistance ==>
                arrows == old(arrows) + [FlyingArrow(bowHand, aim, ArrowSpeed(cfg, drawDistance))]
                && arrowShotEvents == old(arrowShotEvents) + 1
    {
      if drawDistance < cfg.minDrawDistance {
        return;
      }
      var speed := ArrowSpeed(cfg, drawDistance);
      arrows := arrows + [FlyingArrow(bowHand, aim, speed)];
      arrowShotEvents := arrowShotEvents + 1;
    }

    /** `handleTriggerUp`: shoots only while drawing, and always ends the draw. */
    method TriggerUp(bowHand: Vec3, aim: Rotation)
      requires Valid()
      modifies this`triggerPressed, this`isDrawing, this`arrows, this`arrowShotEvents
      ensures Valid() && !triggerPressed && !isDrawing
      ensures !old(isDrawing) || drawDistance < cfg.minDrawDistance ==>
                arrows == old(arrows) && arrowShotEvents == old(arrowShotEvents)
      ensures old(isDrawing) && drawDistance >= cfg.minDrawDistance ==>
                arrows == old(arrows) + [FlyingArrow(bowHand, aim, ArrowSpeed(cfg, drawDistance))]
                && arrowShotEvents == old(arrowShotEvents) + 1
    {
      triggerPressed := false;
      if isDrawing {
        ShootArrow(bowHand, aim);
        isDrawing := false;
      }
    }
  }

  /**
   * `drawDistance` is never reset: hooking the string and releasing it
   * before any tick shoots with the previous draw's distance.
   */
  method ReleaseBeforeTick<Rotation>(b: Bow<Rotation>, handDistance: real, bowHand: Vec3, aim: Rotation)
    requires b.Valid() && b.hasHands && !b.isDrawing && handDistance < b.cfg.snapDistance
    requires b.drawDistance >= b.cfg.minDrawDistance
    modifies b
    ensures b.arrows == old(b.arrows) + [FlyingArrow(bowHand, aim, ArrowSpeed(b.cfg, old(b.drawDistance)))]
  {
    b.TriggerDown(handDistance);
    b.TriggerUp(bowHand, aim);
  }
}
