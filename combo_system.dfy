/**
 * The combo counter (`combo-system`): consecutive hits within a timeout
 * grow the combo (bullseyes count double), a capped multiplier follows it,
 * the combo expires on a later frame, and cumulative kills select a
 * milestone sound at most once per kill count.
 */
module ComboSystem {
  import opened Common
  import TargetBehavior

  datatype Sound = DoubleSound | TripleSound | QuadSound | PentaSound

  /** `playKillMilestoneSound`'s selection: none for the first kill, then double … penta. */
  function KillSound(killCount: int): (s: Option<Sound>)
    ensures s.None? <==> killCount < 2
    ensures killCount == 2 ==> s == Some(DoubleSound)
    ensures killCount == 3 ==> s == Some(TripleSound)
    ensures killCount == 4 ==> s == Some(QuadSound)
    ensures killCount >= 5 ==> s == Some(PentaSound)
  {
    if killCount == 1 then None
    else if killCount == 2 then Some(DoubleSound)
    else if killCount == 3 then Some(TripleSound)
    else if killCount == 4 then Some(QuadSound)
    else if killCount >= 5 then Some(PentaSound)
    else None
  }

  /** `playComboSound`'s selection; a combo of 6 has no sound. */
  function ComboSound(combo: int): (s: Option<Sound>)
    ensures s.None? <==> combo < 2 || combo == 6
    ensures combo == 2 ==> s == Some(DoubleSound)
    ensures combo == 3 ==> s == Some(TripleSound)
    ensures combo == 4 ==> s == Some(QuadSound)
    ensures combo == 5 || combo >= 7 ==> s == Some(PentaSound)
  {
    if combo == 3 then Some(TripleSound)
    else if combo == 4 then Some(QuadSound)
    else if combo == 5 then Some(PentaSound)
    else if combo == 2 then Some(DoubleSound)
    else if combo >= 7 then Some(PentaSound)
    else None
  }

  /** `Math.min(1 + 0.2 · combo, maxMultiplier)`. */
  function ComboMultiplier(combo: int, maxMultiplier: real): (m: real)
    ensures m <= maxMultiplier && m <= 1.0 + combo as real * 0.2
    ensures m == maxMultiplier || m == 1.0 + combo as real * 0.2
  {
    Min(1.0 + combo as real * 0.2, maxMultiplier)
  }

  /** Sounds are attempted only from a combo of 3, so the double-hit combo sound is never played. */
  lemma ComboNeverDouble(combo: int)
    requires combo >= 3
    ensures ComboSound(combo) != Some(DoubleSound)
  {
  }

  /** With the default cap of 5, the multiplier reaches the cap exactly from a combo of 20. */
  lemma DefaultCapReachedAt(combo: int)
    ensures ComboMultiplier(combo, 5.0) == 5.0 <==> combo >= 20
  {
  }

  /** `getStats`. */
  datatype Stats = Stats(currentCombo: int, maxCombo: int, multiplier: real)

  class Combo {
    const comboTimeout: int
    const maxMultiplier: real
    var combo: int
    var multiplier: real
    var maxCombo: int
    var lastHitTime: int
    var comboActive: bool
    var totalKills: nat
    var milestonesReached: set<int>
    /** The kill sounds started and the combo sounds attempted, in order. */
    var killSounds: seq<Sound>
    var comboSounds: seq<Sound>

    /**
     * The counter invariants: the best combo bounds the current one, the
     * multiplier is 1 or within the cap, and the kill sounds played are
     * exactly the milestones 2 … totalKills, each once.
     */
    ghost predicate Valid()
      reads this
    {
      0 <= combo <= maxCombo
      && (multiplier == 1.0 || multiplier <= maxMultiplier)
      && (forall k :: k in milestonesReached <==> 2 <= k <= totalKills)
      && |killSounds| == (if totalKills < 2 then 0 else totalKills - 1)
      && (forall i :: 0 <= i < |killSounds| ==> Some(killSounds[i]) == KillSound(i + 2))
    }

    /** `init` with the schema's timeout and cap. */
    constructor (comboTimeout: int, maxMultiplier: real)
      ensures Valid() && this.comboTimeout == comboTimeout && this.maxMultiplier == maxMultiplier
      ensures combo == 0 && multiplier == 1.0 && maxCombo == 0 && lastHitTime == 0 && !comboActive
      ensures totalKills == 0 && milestonesReached == {} && killSounds == [] && comboSounds == []
    {
      this.comboTimeout := comboTimeout;
      this.maxMultiplier := maxMultiplier;
      combo := 0;
      multiplier := 1.0;
      maxCombo := 0;
      lastHitTime := 0;
      comboActive := false;
      totalKills := 0;
      milestonesReached := {};
      killSounds := [];
      comboSounds := [];
    }

    /**
     * `onTargetHit` at time `now`: a hit while active and strictly within
     * the timeout continues the combo (+1, +2 for a bullseye); any other hit
     * starts a new combo of 1.  Combo sounds are attempted from 3 upwards.
     */
    method OnTargetHit(now: int, zone: TargetBehavior.Zone)
      requires Valid()
      modifies this`combo, this`comboActive, this`lastHitTime, this`maxCombo, this`multiplier, this`comboSounds
      ensures Valid() && comboActive && lastHitTime == now
      ensures old(comboActive) && now - old(lastHitTime) < comboTimeout ==>
                combo == old(combo) + (if zone == TargetBehavior.Bullseye then 2 else 1)
      ensures !(old(comboActive) && now - old(lastHitTime) < comboTimeout) ==> combo == 1
      ensures maxCombo == IMax(old(maxCombo), combo)
      ensures multiplier == ComboMultiplier(combo, maxMultiplier)
      ensures comboSounds == old(comboSounds) + (if combo >= 3 && ComboSound(combo).Some? then [ComboSound(combo).value] else [])
    {
      if comboActive && now - lastHitTime < comboTimeout {
        combo := combo + 1;
        if zone == TargetBehavior.Bullseye {
          combo := combo + 1;
        }
      } else {
        combo := 1;
        comboActive := true;
      }
      lastHitTime := now;
      maxCombo := IMax(maxCombo, combo);
      multiplier := ComboMultiplier(combo, maxMultiplier);
      if combo >= 3 {
        PlayComboSound();
      }
    }

    /** `playComboSound`: the sound for the current combo, if any. */
    method PlayComboSound()
      modifies this`comboSounds
      ensures comboSounds == old(comboSounds) + (if ComboSound(combo).Some? then [ComboSound(combo).value] else [])
    {
      var s := ComboSound(combo);
      if s.Some? {
        comboSounds := comboSounds + [s.value];
      }
    }

    /** `tick` at time `now`: an active combo older than the timeout expires. */
    method Tick(now: int)
      requires Valid()
      modifies this`comboActive, this`combo, this`multiplier
      ensures Valid()
      ensures old(comboActive) && now - lastHitTime > comboTimeout ==> !comboActive && combo == 0 && multiplier == 1.0
      ensures !(old(comboActive) && now - lastHitTime > comboTimeout) ==>
                comboActive == old(comboActive) && combo == old(combo) && multiplier == old(multiplier)
    {
      if comboActive {
        if now - lastHitTime > comboTimeout {
          comboActive := false;
          combo := 0;
          multiplier := 1.0;
        }
      }
    }

    /** `onTargetDestroyed`: one more kill, then its milestone sound. */
    method OnTargetDestroyed()
      requires Valid()
      modifies this`totalKills, this`milestonesReached, this`killSounds
      ensures Valid() && totalKills == old(totalKills) + 1
      ensures killSounds == old(killSounds) + (if totalKills >= 2 then [KillSound(totalKills).value] else [])
      ensures milestonesReached == old(milestonesReached) + (if totalKills >= 2 then {totalKills} else {})
    {
      totalKills := totalKills + 1;
      PlayKillMilestoneSound(totalKills);
    }

    /** `playKillMilestoneSound`: a kill count with a sound plays it only if not reached before. */
    method PlayKillMilestoneSound(killCount: int)
      modifies this`milestonesReached, this`killSounds
      ensures KillSound(killCount).Some? && killCount !in old(milestonesReached) ==>
                milestonesReached == old(milestonesReached) + {killCount}
                && killSounds == old(killSounds) + [KillSound(killCount).value]
      ensures KillSound(killCount).None? || killCount in old(milestonesReached) ==>
                milestonesReached == old(milestonesReached) && killSounds == old(killSounds)
    {
      var s := KillSound(killCount);
      if s.Some? && killCount !in milestonesReached {
        milestonesReached := milestonesReached + {killCount};
        killSounds := killSounds + [s.value];
      }
    }

    /** `getStats`: the best combo is never below the current one. */
    function GetStats(): (s: Stats)
      requires Valid()
      reads this
      ensures s.currentCombo == combo && s.maxCombo == maxCombo && s.multiplier == multiplier
      ensures 0 <= s.currentCombo <= s.maxCombo
      ensures s.multiplier == 1.0 || s.multiplier <= maxMultiplier
    {
      Stats(combo, maxCombo, multiplier)
    }
  }

  /** A kill count plays its milestone sound once: repeating it changes nothing. */
  method MilestoneOnce(c: Combo, killCount: int)
    modifies c
    ensures c.milestonesReached == old(c.milestonesReached) + (if KillSound(killCount).Some? then {killCount} else {})
    ensures |c.killSounds| <= |old(c.killSounds)| + 1
  {
    c.PlayKillMilestoneSound(killCount);
    c.PlayKillMilestoneSound(killCount);
  }
}
