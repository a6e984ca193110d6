/**
 * The system version of the wind (`wind` system, v2): the same calm/wind
 * cycle and force as the component, with the sound volume set outright
 * (0.05 in calm, 0.8 in wind) instead of ramped.
 */
module WindSystemV2 {
  import opened Common
  import W = WindSystem

  /** The schema values; this version has no ramp duration. */
  datatype Config = Config(baseForce: real, forceVariation: real, changeInterval: real,
                           windDuration: real, calmDuration: real)

  const DefaultConfig := Config(0.002, 0.006, 4000.0, 8000.0, 20000.0)

  const CalmVolume := 0.05
  const WindVolume := 0.8

  class WindV2 {
    const cfg: Config
    /** Whether the `wind-sound` element exists. */
    const soundPresent: bool
    var enabled: bool
    var windActive: bool
    var windForce: Vec3
    var windForceSpeed: Vec3
    var windIntensity: real
    /** The normalised direction `windDirection` is set from (the Euler angles are not modelled). */
    var direction: Vec3
    /** The delay of the pending `runCycle` timeout, and whether the change interval runs. */
    var cycleDelay: Option<real>
    var changeIntervalOn: bool
    var events: seq<W.WindChanged>
    var volume: real
    var soundPlaying: bool
    /** Whether `createWindVisuals` has run, and so registered the `start-game` listener. */
    var visualsCreated: bool

    ghost predicate Valid()
      reads this`enabled, this`windActive, this`windForce, this`windIntensity, this`changeIntervalOn
    {
      ((!windActive || !enabled) ==> windForce == Zero && windIntensity == 0.0)
      && (changeIntervalOn ==> windActive)
    }

    /** `init`: calm, no force, nothing scheduled. */
    constructor (cfg: Config, enabled: bool, soundPresent: bool, volume: real)
      ensures Valid() && this.cfg == cfg && this.enabled == enabled && this.soundPresent == soundPresent
      ensures !windActive && windForce == Zero && windIntensity == 0.0 && cycleDelay.None? && !changeIntervalOn
      ensures events == [] && this.volume == volume
    {
      this.cfg := cfg;
      this.soundPresent := soundPresent;
      this.enabled := enabled;
      windActive := false;
      windForce := Zero;
      windForceSpeed := Zero;
      windIntensity := 0.0;
      direction := Zero;
      cycleDelay := None;
      changeIntervalOn := false;
      events := [];
      this.volume := volume;
      soundPlaying := false;
      visualsCreated := false;
    }

    /** `startWindCycle`: the first period is calm. */
    method StartWindCycle()
      modifies this`cycleDelay
      ensures cycleDelay == Some(cfg.calmDuration)
    {
      cycleDelay := Some(cfg.calmDuration);
    }

    /**
     * What `generateWind` leaves behind: zero force, speed and intensity when
     * disabled or calm; otherwise the drawn force, its length, the direction
     * when that length exceeds 0.1, and one `wind-changed` event.
     */
    twostate predicate Generated(d: W.Draws, g: Geometry)
      reads this`enabled, this`windActive, this`windForce, this`windForceSpeed, this`windIntensity,
              this`direction, this`events
    {
      if !enabled || !windActive then
        windForce == Zero && windForceSpeed == Zero && windIntensity == 0.0
        && direction == old(direction) && events == old(events)
      else
        var f := W.GeneratedForce(cfg.baseForce, cfg.forceVariation, d);
        windForce == f && windForceSpeed == f && windIntensity == g.length(f)
        && direction == (if g.length(f) > 0.1 then g.normalize(f) else old(direction))
        && events == old(events) + [W.WindChanged(f, g.length(f))]
    }

    /** `generateWind`: zero when disabled or calm, otherwise a fresh force and one event. */
    method GenerateWind(d: W.Draws, g: Geometry)
      requires Valid()
      modifies this`windForce, this`windForceSpeed, this`windIntensity, this`direction, this`events
      ensures Valid()
      ensures Generated(d, g)
    {
      if !enabled || !windActive {
        windForce := Zero;
        windForceSpeed := Zero;
        windIntensity := 0.0;
        return;
      }
      var f := W.GeneratedForce(cfg.baseForce, cfg.forceVariation, d);
      windForce := f;
      windForceSpeed := f;
      windIntensity := g.length(f);
      if windIntensity > 0.1 {
        direction := g.normalize(f);
      }
      events := events + [W.WindChanged(f, windIntensity)];
    }

    /** `runCycle`: the wind stops (volume 0.05) or starts (volume 0.8), and the next toggle is scheduled. */
    method RunCycle(d: W.Draws, g: Geometry)
      requires Valid()
      modifies this`windActive, this`windForce, this`windForceSpeed, this`windIntensity, this`changeIntervalOn,
               this`direction, this`events, this`cycleDelay, this`soundPlaying, this`volume
      ensures Valid()
      ensures windActive == !old(windActive) && changeIntervalOn == windActive
      ensures old(windActive) ==>
                windForce == Zero && windForceSpeed == Zero && windIntensity == 0.0
                && cycleDelay == Some(cfg.calmDuration) && events == old(events) && direction == old(direction)
      ensures !old(windActive) ==> cycleDelay == Some(cfg.windDuration) && Generated(d, g)
      ensures volume == if !soundPresent then old(volume) else if old(windActive) then CalmVolume else WindVolume
      ensures soundPlaying == (old(soundPlaying) || (soundPresent && !old(windActive)))
      ensures enabled == old(enabled)
    {
      if windActive {
        windActive := false;
        windForce := Zero;
        windForceSpeed := Zero;
        windIntensity := 0.0;
        changeIntervalOn := false;
        if soundPresent {
          volume := CalmVolume;
        }
        cycleDelay := Some(cfg.calmDuration);
      } else {
        windActive := true;
        GenerateWind(d, g);
        changeIntervalOn := true;
        if soundPresent {
          volume := WindVolume;
          soundPlaying := true;
        }
        cycleDelay := Some(cfg.windDuration);
      }
    }

    /**
     * `startWindSound`: with the sound element present and the wind enabled,
     * the volume is set to the calm 0.05 and the looping sound is asked to play.
     */
    method StartWindSound()
      modifies this`volume, this`soundPlaying
      ensures soundPresent && enabled ==> volume == CalmVolume && soundPlaying
      ensures !(soundPresent && enabled) ==> volume == old(volume) && soundPlaying == old(soundPlaying)
    {
      if soundPresent && enabled {
        volume := CalmVolume;
        soundPlaying := true;
      }
    }

    /**
     * The sound part of `createWindVisuals` once the scene and camera exist:
     * a second call returns at once; the first starts the sound and
     * registers the `start-game` listener.
     */
    method CreateWindVisuals()
      modifies this`volume, this`soundPlaying, this`visualsCreated
      ensures visualsCreated
      ensures old(visualsCreated) ==> volume == old(volume) && soundPlaying == old(soundPlaying)
      ensures !old(visualsCreated) && soundPresent && enabled ==> volume == CalmVolume && soundPlaying
      ensures !(soundPresent && enabled) ==> volume == old(volume) && soundPlaying == old(soundPlaying)
    {
      if visualsCreated {
        return;
      }
      StartWindSound();
      visualsCreated := true;
    }

    /** A `start-game` event on the scene: the sound restarts once the visuals, and so the listener, exist. */
    method OnStartGame()
      modifies this`volume, this`soundPlaying
      ensures visualsCreated && soundPresent && enabled ==> volume == CalmVolume && soundPlaying
      ensures !(visualsCreated && soundPresent && enabled) ==> volume == old(volume) && soundPlaying == old(soundPlaying)
    {
      if visualsCreated {
        StartWindSound();
      }
    }

    /** The change interval: a new force while the wind blows. */
    method ChangeIntervalTick(d: W.Draws, g: Geometry)
      requires Valid() && changeIntervalOn
      modifies this`windForce, this`windForceSpeed, this`windIntensity, this`direction, this`events
      ensures Valid() && windActive
      ensures Generated(d, g)
    {
      if windActive {
        GenerateWind(d, g);
      }
    }

    /** `setEnabled`: disabling zeroes the force; enabling draws a new one. */
    method SetEnabled(on: bool, d: W.Draws, g: Geometry)
      requires Valid()
      modifies this`enabled, this`windForce, this`windForceSpeed, this`windIntensity, this`direction, this`events
      ensures Valid() && enabled == on
      ensures !on ==> windForce == Zero && windIntensity == 0.0 && events == old(events)
                      && windForceSpeed == old(windForceSpeed) && direction == old(direction)
      ensures on ==> Generated(d, g)
    {
      enabled := on;
      if !on {
        windForce := Zero;
        windIntensity := 0.0;
      } else {
        GenerateWind(d, g);
      }
    }

    /** `getWindDirection`: the unit force above an intensity of 0.1, otherwise the zero vector. */
    function GetWindDirection(g: Geometry): (dir: Vec3)
      reads this`windIntensity, this`windForce
      ensures windIntensity > 0.1 ==> dir == g.normalize(windForce)
      ensures windIntensity <= 0.1 ==> dir == Zero
    {
      if windIntensity > 0.1 then g.normalize(windForce) else Zero
    }

    /** During calm, or while disabled, arrows see no wind at all. */
    lemma CalmHasNoDirection(g: Geometry)
      requires Valid() && (!windActive || !enabled)
      ensures GetWindDirection(g) == Zero && windForce == Zero
    {
    }
  }

  /** The force of every wind period obeys the component version's bounds. */
  lemma ForceWithinBounds(w: WindV2, d: W.Draws)
    requires w.Valid() && w.windActive && w.enabled && W.ValidDraws(d)
    requires w.cfg.baseForce >= 0.0 && w.cfg.forceVariation >= 0.0
    requires w.windForce == W.GeneratedForce(w.cfg.baseForce, w.cfg.forceVariation, d)
    ensures Abs(w.windForce.x) <= w.cfg.baseForce + w.cfg.forceVariation
    ensures Abs(w.windForce.z) <= w.cfg.baseForce + w.cfg.forceVariation
    ensures Abs(w.windForce.y) <= 0.5 * (0.3 * w.cfg.baseForce + 0.3 * w.cfg.forceVariation)
  {
    W.ForceBounds(w.cfg.baseForce, w.cfg.forceVariation, d);
  }
}
