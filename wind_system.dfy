/**
 * The wind component (`wind`): an alternating calm/wind cycle, a random
 * force drawn while the wind blows, and the volume ramp of the wind sound.
 * The force computation is shared with the system version (`WindSystemV2`).
 */
module WindSystem {
  import opened Common

  /** The schema values (`enabled` is a field of the class, since `setEnabled` writes it). */
  datatype Config = Config(baseForce: real, forceVariation: real, changeInterval: real,
                           windDuration: real, calmDuration: real, rampDuration: real)

  const DefaultConfig := Config(0.002, 0.006, 4000.0, 8000.0, 20000.0, 800.0)

  /** The six `Math.random()` draws of one `generateWind`, in evaluation order. */
  datatype Draws = Draws(xSign: real, xMag: real, ySign: real, yMag: real, zSign: real, zMag: real)

  predicate ValidDraws(d: Draws)
  {
    IsDraw(d.xSign) && IsDraw(d.xMag) && IsDraw(d.ySign) && IsDraw(d.yMag) && IsDraw(d.zSign) && IsDraw(d.zMag)
  }

  /** The force `generateWind` sets: a signed horizontal push and a smaller vertical one. */
  function GeneratedForce(base: real, variation: real, d: Draws): Vec3
  {
    Vec3(Horizontal(base, variation, d.xSign, d.xMag),
         Vertical(base, variation, d.ySign, d.yMag),
         Horizontal(base, variation, d.zSign, d.zMag))
  }

  /** `(Math.random() - 0.5) * 2 * (base + Math.random() * variation)`. */
  function Horizontal(base: real, variation: real, sign: real, mag: real): real
  {
    (sign - 0.5) * 2.0 * (base + mag * variation)
  }

  /** `(Math.random() - 0.5) * (base * 0.3 + Math.random() * variation * 0.3)`. */
  function Vertical(base: real, variation: real, sign: real, mag: real): real
  {
    (sign - 0.5) * (base * 0.3 + mag * variation * 0.3)
  }

  /** |p| ≤ A·B for p = a·b with |a| ≤ A and 0 ≤ b ≤ B. */
  lemma ProductBound(p: real, a: real, bigA: real, b: real, bigB: real)
    requires p == a * b && Abs(a) <= bigA && 0.0 <= b <= bigB
    ensures Abs(p) <= bigA * bigB
  {
    assert (bigA - Abs(a)) * b >= 0.0;
    assert bigA * (bigB - b) >= 0.0;
    if a < 0.0 {
      assert Abs(a * b) == (-a) * b;
    }
  }

  /** r·v ≤ v for a draw r and v ≥ 0. */
  lemma DrawScale(r: real, v: real)
    requires IsDraw(r) && v >= 0.0
    ensures 0.0 <= r * v <= v
  {
    assert v * (1.0 - r) >= 0.0;
  }

  /** One horizontal component: a sign draw scaled to [-1, 1) times base plus a share of the variation. */
  lemma HorizontalBound(base: real, variation: real, sign: real, mag: real)
    requires base >= 0.0 && variation >= 0.0 && IsDraw(sign) && IsDraw(mag)
    ensures Abs(Horizontal(base, variation, sign, mag)) <= base + variation
  {
    DrawScale(mag, variation);
    var a, b := (sign - 0.5) * 2.0, base + mag * variation;
    ProductBound(Horizontal(base, variation, sign, mag), a, 1.0, b, base + variation);
  }

  /** The vertical component: a sign draw in [-0.5, 0.5) times 0.3 of base plus a share of the variation. */
  lemma VerticalBound(base: real, variation: real, sign: real, mag: real)
    requires base >= 0.0 && variation >= 0.0 && IsDraw(sign) && IsDraw(mag)
    ensures Abs(Vertical(base, variation, sign, mag)) <= 0.5 * (0.3 * base + 0.3 * variation)
  {
    DrawScale(mag, variation);
    var m := mag * variation;
    ShareBound(base, m, variation);
    ProductBound(Vertical(base, variation, sign, mag), sign - 0.5, 0.5, base * 0.3 + m * 0.3, 0.3 * base + 0.3 * variation);
  }

  lemma ShareBound(base: real, m: real, variation: real)
    requires base >= 0.0 && 0.0 <= m <= variation
    ensures 0.0 <= base * 0.3 + m * 0.3 <= 0.3 * base + 0.3 * variation
  {
  }

  /**
   * With non-negative base and variation, the horizontal components stay
   * within base + variation and the vertical one within half of
   * 0.3·base + 0.3·variation.
   */
  lemma ForceBounds(base: real, variation: real, d: Draws)
    requires base >= 0.0 && variation >= 0.0 && ValidDraws(d)
    ensures var f := GeneratedForce(base, variation, d);
            Abs(f.x) <= base + variation && Abs(f.z) <= base + variation
            && Abs(f.y) <= 0.5 * (0.3 * base + 0.3 * variation)
  {
    HorizontalBound(base, variation, d.xSign, d.xMag);
    HorizontalBound(base, variation, d.zSign, d.zMag);
    VerticalBound(base, variation, d.ySign, d.yMag);
  }

  /** The fraction of a ramp done after `elapsed` milliseconds. */
  function RampProgress(duration: real, elapsed: real): (t: real)
    ensures t <= 1.0
    ensures elapsed >= 0.0 ==> 0.0 <= t
  {
    Min(1.0, elapsed / Max(1.0, duration))
  }

  /** The volume one ramp frame sets. */
  function RampVolume(from: real, to: real, duration: real, elapsed: real): (v: real)
    ensures 0.0 <= v <= 1.0
  {
    Clamp(from + (to - from) * RampProgress(duration, elapsed), 0.0, 1.0)
  }

  lemma AtLeastOne(e: real, m: real)
    requires m > 0.0 && e >= m
    ensures e / m >= 1.0
  {
    assert (e - m) / m >= 0.0;
    assert e / m - m / m == (e - m) / m;
  }

  /** Once the duration has elapsed the ramp is complete. */
  lemma RampEndsAtTarget(duration: real, elapsed: real)
    requires elapsed >= Max(1.0, duration)
    ensures RampProgress(duration, elapsed) == 1.0
  {
    AtLeastOne(elapsed, Max(1.0, duration));
  }

  /** A complete ramp sets exactly the target volume. */
  lemma CompleteRampAtTarget(from: real, to: real, duration: real, elapsed: real)
    requires 0.0 <= to <= 1.0 && RampProgress(duration, elapsed) >= 1.0
    ensures RampVolume(from, to, duration, elapsed) == to
  {
    assert RampProgress(duration, elapsed) == 1.0;
    assert from + (to - from) * 1.0 == to;
  }

  /** The first frame starts from the initial volume, and every frame lies between the two ends. */
  lemma RampBetween(from: real, to: real, duration: real, elapsed: real)
    requires 0.0 <= from <= 1.0 && 0.0 <= to <= 1.0 && elapsed >= 0.0
    ensures Min(from, to) <= RampVolume(from, to, duration, elapsed) <= Max(from, to)
    ensures elapsed == 0.0 ==> RampVolume(from, to, duration, elapsed) == from
  {
    var t := RampProgress(duration, elapsed);
    var v := from + (to - from) * t;
    LerpBetween(from, to, t);
    assert 0.0 <= v <= 1.0;
    assert RampVolume(from, to, duration, elapsed) == v;
    if elapsed == 0.0 {
      assert elapsed / Max(1.0, duration) == 0.0;
      assert t == 0.0;
      assert v == from;
    }
  }

  /** A linear blend of two values at t in [0, 1] lies between them. */
  lemma LerpBetween(a: real, b: real, t: real)
    requires 0.0 <= t <= 1.0
    ensures Min(a, b) <= a + (b - a) * t <= Max(a, b)
  {
    var d := b - a;
    if d >= 0.0 {
      DrawScaleClosed(t, d);
    } else {
      DrawScaleClosed(t, -d);
      assert d * t == -((-d) * t);
    }
  }

  lemma DrawScaleClosed(t: real, v: real)
    requires 0.0 <= t <= 1.0 && v >= 0.0
    ensures 0.0 <= v * t <= v
  {
    assert v * (1.0 - t) >= 0.0;
  }

  /** `wind-changed`: the new force and its length. */
  datatype WindChanged = WindChanged(force: Vec3, intensity: real)

  class Wind {
    const cfg: Config
    /** Whether the `wind-sound` element exists. */
    const soundPresent: bool
    var enabled: bool
    var windActive: bool
    var windForce: Vec3
    var windForceSpeed: Vec3
    var windIntensity: real
    /** The normalised direction `windDirection` is set from (the Euler angles are not modelled). */
    var direction: Vec3
    /** The delay of the pending `runCycle` timeout, and whether the change interval runs. */
    var cycleDelay: Option<real>
    var changeIntervalOn: bool
    var events: seq<WindChanged>
    /** The sound element's volume and play state. */
    var volume: real
    var soundPlaying: bool
    /** Whether `createWindVisuals` has run, and so registered the `start-game` listener. */
    var visualsCreated: bool
    /** The pending ramp frame and its closure: ends, duration, start time (0 while unset). */
    var rampFramePending: bool
    var rampFrom: real
    var rampTo: real
    var rampDuration: real
    var rampStart: real

    ghost predicate Valid()
      reads this`enabled, this`windActive, this`windForce, this`windIntensity, this`changeIntervalOn,
            this`volume, this`rampFrom, this`rampTo
    {
      ((!windActive || !enabled) ==> windForce == Zero && windIntensity == 0.0)
      && (changeIntervalOn ==> windActive)
      && 0.0 <= volume <= 1.0
      && 0.0 <= rampFrom <= 1.0 && 0.0 <= rampTo <= 1.0
    }

    /** `init`: calm, no force, nothing scheduled. */
    constructor (cfg: Config, enabled: bool, soundPresent: bool, volume: real)
      requires 0.0 <= volume <= 1.0
      ensures Valid() && this.cfg == cfg && this.enabled == enabled && this.soundPresent == soundPresent
      ensures !windActive && windForce == Zero && windIntensity == 0.0 && cycleDelay.None? && !changeIntervalOn
      ensures events == [] && this.volume == volume && !rampFramePending
    {
      this.cfg := cfg;
      this.soundPresent := soundPresent;
      this.enabled := enabled;
      windActive := false;
      windForce := Zero;
      windForceSpeed := Zero;
      windIntensity := 0.0;
      direction := Zero;
      cycleDelay := None;
      changeIntervalOn := false;
      events := [];
      this.volume := volume;
      soundPlaying := false;
      visualsCreated := false;
      rampFramePending := false;
      rampFrom := 0.0;
      rampTo := 0.0;
      rampDuration := 0.0;
      rampStart := 0.0;
    }

    /** `startWindCycle`: the first period is calm. */
    method StartWindCycle()
      modifies this`cycleDelay
      ensures cycleDelay == Some(cfg.calmDuration)
    {
      cycleDelay := Some(cfg.calmDuration);
    }

    /**
     * What `generateWind` leaves behind: zero force, speed and intensity when
     * disabled or calm; otherwise the drawn force, its length, the direction
     * when that length exceeds 0.1, and one `wind-changed` event.
     */
    twostate predicate Generated(d: Draws, g: Geometry)
      reads this`enabled, this`windActive, this`windForce, this`windForceSpeed, this`windIntensity,
              this`direction, this`events
    {
      if !enabled || !windActive then
        windForce == Zero && windForceSpeed == Zero && windIntensity == 0.0
        && direction == old(direction) && events == old(events)
      else
        var f := GeneratedForce(cfg.baseForce, cfg.forceVariation, d);
        windForce == f && windForceSpeed == f && windIntensity == g.length(f)
        && direction == (if g.length(f) > 0.1 then g.normalize(f) else old(direction))
        && events == old(events) + [WindChanged(f, g.length(f))]
    }

    /** `generateWind`: zero when disabled or calm, otherwise a fresh force and one event. */
    method GenerateWind(d: Draws, g: Geometry)
      requires Valid()
      modifies this`windForce, this`windForceSpeed, this`windIntensity, this`direction, this`events
      ensures Valid()
      ensures Generated(d, g)
    {
      if !enabled || !windActive {
        windForce := Zero;
        windForceSpeed := Zero;
        windIntensity := 0.0;
        return;
      }
      var f := GeneratedForce(cfg.baseForce, cfg.forceVariation, d);
      windForce := f;
      windForceSpeed := f;
      windIntensity := g.length(f);
      if windIntensity > 0.1 {
        direction := g.normalize(f);
      }
      events := events + [WindChanged(f, windIntensity)];
    }

    /** The closure of a pending ramp frame (its ends, duration and start) is untouched. */
    twostate predicate RampKept()
      reads this`rampFrom, this`rampTo, this`rampDuration, this`rampStart
    {
      rampFrom == old(rampFrom) && rampTo == old(rampTo) && rampDuration == old(rampDuration) && rampStart == old(rampStart)
    }

    /**
     * What `rampWindVolume(windSound, target, rampDuration)` leaves when the
     * sound element exists, and nothing changed when it does not: the
     * clamped target at once, or a pending frame from the clamped current
     * volume to it over the configured duration.
     */
    twostate predicate VolumeRamped(target: real)
      reads this`volume, this`rampFramePending, this`rampFrom, this`rampTo, this`rampDuration, this`rampStart
    {
      (!soundPresent ==> volume == old(volume) && rampFramePending == old(rampFramePending) && RampKept())
      && (soundPresent && !rampFramePending ==> volume == Clamp(target, 0.0, 1.0) && RampKept())
      && (soundPresent && rampFramePending ==>
            volume == old(volume) && rampFrom == Clamp(old(volume), 0.0, 1.0) && rampTo == Clamp(target, 0.0, 1.0)
            && rampDuration == cfg.rampDuration && rampStart == 0.0)
    }

    /**
     * `rampWindVolume` on the wind sound: any pending frame is cancelled;
     * a negligible change or a non-positive duration is applied at once,
     * otherwise a frame is scheduled.
     */
    method RampWindVolume(target: real, duration: real)
      requires Valid()
      modifies this`volume, this`rampFramePending, this`rampFrom, this`rampTo, this`rampDuration, this`rampStart
      ensures Valid()
      ensures var from, to := Clamp(old(volume), 0.0, 1.0), Clamp(target, 0.0, 1.0);
              if Abs(to - from) < 0.001 || duration <= 0.0 then
                volume == to && !rampFramePending && RampKept()
              else
                volume == old(volume) && rampFramePending && rampFrom == from && rampTo == to
                && rampDuration == duration && rampStart == 0.0
    {
      rampFramePending := false;
      var from := Clamp(volume, 0.0, 1.0);
      var to := Clamp(target, 0.0, 1.0);
      if Abs(to - from) < 0.001 || duration <= 0.0 {
        volume := to;
        return;
      }
      rampFrom, rampTo, rampDuration, rampStart := from, to, duration, 0.0;
      rampFramePending := true;
    }

    /** One animation frame of the ramp at time `now`; the last frame lands on the target. */
    method RampFrame(now: real)
      requires Valid() && rampFramePending
      modifies this`volume, this`rampFramePending, this`rampStart
      ensures Valid()
      ensures rampStart == if old(rampStart) == 0.0 then now else old(rampStart)
      ensures volume == RampVolume(rampFrom, rampTo, rampDuration, now - rampStart)
      ensures rampFramePending == (RampProgress(rampDuration, now - rampStart) < 1.0)
      ensures !rampFramePending ==> volume == rampTo
    {
      if rampStart == 0.0 {
        rampStart := now;
      }
      var t := RampProgress(rampDuration, now - rampStart);
      volume := RampVolume(rampFrom, rampTo, rampDuration, now - rampStart);
      rampFramePending := t < 1.0;
      if !rampFramePending {
        CompleteRampAtTarget(rampFrom, rampTo, rampDuration, now - rampStart);
      }
    }

    /** `runCycle`: the wind stops and calm is scheduled, or the wind starts and its end is scheduled. */
    method RunCycle(d: Draws, g: Geometry)
      requires Valid()
      modifies this`windActive, this`windForce, this`windForceSpeed, this`windIntensity, this`changeIntervalOn,
               this`direction, this`events, this`cycleDelay, this`soundPlaying,
               this`volume, this`rampFramePending, this`rampFrom, this`rampTo, this`rampDuration, this`rampStart
      ensures Valid()
      ensures windActive == !old(windActive) && changeIntervalOn == windActive
      ensures old(windActive) ==>
                windForce == Zero && windForceSpeed == Zero && windIntensity == 0.0
                && cycleDelay == Some(cfg.calmDuration) && events == old(events)
                && direction == old(direction) && soundPlaying == old(soundPlaying)
      ensures !old(windActive) ==> cycleDelay == Some(cfg.windDuration) && Generated(d, g)
      ensures !old(windActive) ==> soundPlaying == (soundPresent || old(soundPlaying))
      ensures VolumeRamped(if old(windActive) then 0.08 else 1.0)
    {
      if windActive {
        StopWind();
      } else {
        StartWind(d, g);
      }
    }

    /** The calm half of `runCycle`: no force, the volume ramps towards 0.08, calm is scheduled. */
    method StopWind()
      requires Valid() && windActive
      modifies this`windActive, this`windForce, this`windForceSpeed, this`windIntensity, this`changeIntervalOn,
               this`cycleDelay, this`volume, this`rampFramePending, this`rampFrom, this`rampTo, this`rampDuration,
               this`rampStart
      ensures Valid() && !windActive && !changeIntervalOn
      ensures windForce == Zero && windForceSpeed == Zero && windIntensity == 0.0 && cycleDelay == Some(cfg.calmDuration)
      ensures VolumeRamped(0.08)
    {
      windActive, windForce, windForceSpeed, windIntensity, changeIntervalOn := false, Zero, Zero, 0.0, false;
      if soundPresent {
        RampWindVolume(0.08, cfg.rampDuration);
      }
      cycleDelay := Some(cfg.calmDuration);
    }

    /** The windy half of `runCycle`: a fresh force, the volume ramps towards 1 and the sound plays. */
    method StartWind(d: Draws, g: Geometry)
      requires Valid() && !windActive
      modifies this`windActive, this`windForce, this`windForceSpeed, this`windIntensity, this`changeIntervalOn,
               this`direction, this`events, this`cycleDelay, this`soundPlaying,
               this`volume, this`rampFramePending, this`rampFrom, this`rampTo, this`rampDuration, this`rampStart
      ensures Valid() && windActive && changeIntervalOn && cycleDelay == Some(cfg.windDuration)
      ensures Generated(d, g)
      ensures soundPlaying == (soundPresent || old(soundPlaying))
      ensures VolumeRamped(1.0)
    {
      Blow(d, g);
      RaiseWindSound();
      cycleDelay := Some(cfg.windDuration);
    }

    /** The wind half of the windy branch: wind on, a fresh force, the change interval running. */
    method Blow(d: Draws, g: Geometry)
      requires Valid()
      modifies this`windActive, this`windForce, this`windForceSpeed, this`windIntensity, this`changeIntervalOn,
               this`direction, this`events
      ensures Valid() && windActive && changeIntervalOn
      ensures Generated(d, g)
    {
      windActive := true;
      GenerateWind(d, g);
      changeIntervalOn := true;
    }

    /** The sound part of the windy branch: when the element exists, ramp to 1 and play it if paused. */
    method RaiseWindSound()
      requires Valid()
      modifies this`soundPlaying, this`volume, this`rampFramePending, this`rampFrom, this`rampTo, this`rampDuration,
               this`rampStart
      ensures Valid()
      ensures soundPlaying == (soundPresent || old(soundPlaying))
      ensures VolumeRamped(1.0)
    {
      if soundPresent {
        RampWindVolume(1.0, cfg.rampDuration);
        soundPlaying := true;
      }
    }

    /**
     * `startWindSound`: with the sound element present and the wind enabled,
     * the volume is set to 0.08 and the looping sound is asked to play; a
     * pending ramp frame is not cancelled.
     */
    method StartWindSound()
      requires Valid()
      modifies this`volume, this`soundPlaying
      ensures Valid()
      ensures soundPresent && enabled ==> volume == 0.08 && soundPlaying
      ensures !(soundPresent && enabled) ==> volume == old(volume) && soundPlaying == old(soundPlaying)
    {
      if soundPresent && enabled {
        volume := 0.08;
        soundPlaying := true;
      }
    }

    /**
     * The sound part of `createWindVisuals` once the scene and camera exist:
     * a second call returns at once; the first starts the sound and
     * registers the `start-game` listener.
     */
    method CreateWindVisuals()
      requires Valid()
      modifies this`volume, this`soundPlaying, this`visualsCreated
      ensures Valid() && visualsCreated
      ensures old(visualsCreated) ==> volume == old(volume) && soundPlaying == old(soundPlaying)
      ensures !old(visualsCreated) && soundPresent && enabled ==> volume == 0.08 && soundPlaying
      ensures !(soundPresent && enabled) ==> volume == old(volume) && soundPlaying == old(soundPlaying)
    {
      if visualsCreated {
        return;
      }
      StartWindSound();
      visualsCreated := true;
    }

    /** A `start-game` event: the sound restarts once the visuals, and so the listener, exist. */
    method OnStartGame()
      requires Valid()
      modifies this`volume, this`soundPlaying
      ensures Valid()
      ensures visualsCreated && soundPresent && enabled ==> volume == 0.08 && soundPlaying
      ensures !(visualsCreated && soundPresent && enabled) ==> volume == old(volume) && soundPlaying == old(soundPlaying)
    {
      if visualsCreated {
        StartWindSound();
      }
    }

    /** The change interval: a new force while the wind blows. */
    method ChangeIntervalTick(d: Draws, g: Geometry)
      requires Valid() && changeIntervalOn
      modifies this`windForce, this`windForceSpeed, this`windIntensity, this`direction, this`events
      ensures Valid() && windActive
      ensures Generated(d, g)
    {
      if windActive {
        GenerateWind(d, g);
      }
    }

    /** `setEnabled`: disabling zeroes the force; enabling draws a new one. */
    method SetEnabled(on: bool, d: Draws, g: Geometry)
      requires Valid()
      modifies this`enabled, this`windForce, this`windForceSpeed, this`windIntensity, this`direction, this`events
      ensures Valid() && enabled == on
      ensures !on ==> windForce == Zero && windIntensity == 0.0 && events == old(events)
                      && windForceSpeed == old(windForceSpeed) && direction == old(direction)
      ensures on ==> Generated(d, g)
    {
      enabled := on;
      if !on {
        windForce := Zero;
        windIntensity := 0.0;
      } else {
        GenerateWind(d, g);
      }
    }

    /** `getWindDirection`: the unit force above an intensity of 0.1, otherwise the zero vector. */
    function GetWindDirection(g: Geometry): (dir: Vec3)
      reads this`windIntensity, this`windForce
      ensures windIntensity > 0.1 ==> dir == g.normalize(windForce)
      ensures windIntensity <= 0.1 ==> dir == Zero
    {
      if windIntensity > 0.1 then g.normalize(windForce) else Zero
    }

    /** During calm, or while disabled, arrows see no wind at all. */
    lemma CalmHasNoDirection(g: Geometry)
      requires Valid() && (!windActive || !enabled)
      ensures GetWindDirection(g) == Zero && windForce == Zero
    {
    }
  }

  /** Two calls of `runCycle` from calm return to calm with the force cleared. */
  method FullCycle(w: Wind, d: Draws, g: Geometry)
    requires w.Valid() && !w.windActive
    modifies w
    ensures w.Valid() && !w.windActive && !w.changeIntervalOn && w.windForce == Zero
    ensures w.cycleDelay == Some(w.cfg.calmDuration)
  {
    w.RunCycle(d, g);
    w.RunCycle(d, g);
  }
}
