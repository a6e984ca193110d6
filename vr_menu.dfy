/**
 * The start menu (`vr-menu`): a visible panel whose play button is pressed
 * by shooting an arrow into it; pressing it starts the game and hides the
 * panel.
 */
module VrMenu {
  /** The radius around the button's centre that counts as a hit. */
  const HitRadius := 0.5

  datatype MenuEvent = StartGame

  class Menu {
    /** Whether `createMenuPanel` stored the play button. */
    const hasPlayButton: bool
    /** Whether the rig carries a bow system that can disable its lasers. */
    const hasBowLasers: bool
    var isVisible: bool
    /** Scene events emitted, removals of the panel scheduled, lasers disabled. */
    var events: seq<MenuEvent>
    var removalsScheduled: nat
    var lasersDisabled: bool

    /** A hidden panel always has its removal scheduled. */
    ghost predicate Valid()
      reads this`isVisible, this`removalsScheduled
    {
      !isVisible ==> removalsScheduled >= 1
    }

    /** `init`: the panel starts visible. */
    constructor (hasPlayButton: bool, hasBowLasers: bool)
      ensures Valid() && isVisible && this.hasPlayButton == hasPlayButton && this.hasBowLasers == hasBowLasers
      ensures events == [] && removalsScheduled == 0 && !lasersDisabled
    {
      this.hasPlayButton := hasPlayButton;
      this.hasBowLasers := hasBowLasers;
      isVisible := true;
      events := [];
      removalsScheduled := 0;
      lasersDisabled := false;
    }

    /** `hideMenu`: only a visible panel is hidden and scheduled for removal. */
    method HideMenu()
      requires Valid()
      modifies this`isVisible, this`removalsScheduled
      ensures Valid() && !isVisible
      ensures removalsScheduled == old(removalsScheduled) + (if old(isVisible) then 1 else 0)
    {
      if !isVisible {
        return;
      }
      isVisible := false;
      removalsScheduled := removalsScheduled + 1;
    }

    /** `showMenu`: only a hidden panel is shown again. */
    method ShowMenu()
      modifies this`isVisible
      ensures isVisible && Valid()
    {
      if isVisible {
        return;
      }
      isVisible := true;
    }

    /** The scene's `start-game` listener registered in `init`. */
    method OnStartGame()
      requires Valid()
      modifies this`isVisible, this`removalsScheduled
      ensures Valid() && !isVisible
      ensures removalsScheduled == old(removalsScheduled) + (if old(isVisible) then 1 else 0)
    {
      HideMenu();
    }

    /** `onPlayClick`: lasers off, `start-game` (whose listener hides the panel), then a second hide. */
    method OnPlayClick()
      requires Valid()
      modifies this`isVisible, this`removalsScheduled, this`events, this`lasersDisabled
      ensures Valid() && !isVisible
      ensures events == old(events) + [StartGame]
      ensures removalsScheduled == old(removalsScheduled) + (if old(isVisible) then 1 else 0)
      ensures lasersDisabled == (old(lasersDisabled) || hasBowLasers)
    {
      if hasBowLasers {
        lasersDisabled := true;
      }
      events := events + [StartGame];
      OnStartGame();
      HideMenu();
    }

    /** `checkArrowHit`: a hit on the visible button's sphere presses play. */
    method CheckArrowHit(distance: real) returns (hit: bool)
      requires Valid()
      modifies this`isVisible, this`removalsScheduled, this`events, this`lasersDisabled
      ensures Valid()
      ensures hit <==> old(isVisible) && hasPlayButton && distance < HitRadius
      ensures hit ==> !isVisible && events == old(events) + [StartGame] && removalsScheduled == old(removalsScheduled) + 1
                      && lasersDisabled == (old(lasersDisabled) || hasBowLasers)
      ensures !hit ==> isVisible == old(isVisible) && events == old(events)
                       && removalsScheduled == old(removalsScheduled) && lasersDisabled == old(lasersDisabled)
    {
      if !isVisible || !hasPlayButton {
        return false;
      }
      if distance < HitRadius {
        OnPlayClick();
        return true;
      }
      return false;
    }
  }

  /** Once hidden, the menu ignores every arrow and stays hidden. */
  method HiddenIgnoresArrows(m: Menu, distance: real) returns (hit: bool)
    requires m.Valid()
    modifies m
    ensures !hit && !m.isVisible && m.events == old(m.events) && m.lasersDisabled == old(m.lasersDisabled)
    ensures m.removalsScheduled == old(m.removalsScheduled) + (if old(m.isVisible) then 1 else 0)
  {
    m.HideMenu();
    hit := m.CheckArrowHit(distance);
  }

  /** Pressing play hides the panel once even though it is hidden twice. */
  method PlayHidesOnce(m: Menu) returns (hit: bool)
    requires m.Valid() && m.isVisible && m.hasPlayButton
    modifies m
    ensures hit && !m.isVisible && m.removalsScheduled == old(m.removalsScheduled) + 1
    ensures m.events == old(m.events) + [StartGame] && m.lasersDisabled == (old(m.lasersDisabled) || m.hasBowLasers)
  {
    hit := m.CheckArrowHit(0.0);
  }
}
