/**
 * The game loop (`game-manager` system): start and end of a round, the
 * countdown, score totals, spawn gating and the points/HP rules of a
 * spawned target.
 */
module GameManager {
  import opened Common

  /** `points` and `hp` of a spawned target. */
  datatype Reward = Reward(points: int, hp: int)

  /**
   * The difficulty rules (one draw, used only by the branch that needs it),
   * then the 1.2 bonus for vertical surfaces.
   */
  function PointsAndHp(difficulty: string, draw: real, surfaceType: string): (r: Reward)
    requires IsDraw(draw)
    ensures difficulty == "hard" ==> 1 <= r.hp <= 3 && r.points == (if surfaceType == "vertical" then 24 else 20)
    ensures difficulty == "normal" ==> (r.hp == 1 || r.hp == 2) && r.points == (if surfaceType == "vertical" then 18 else 15)
    ensures difficulty != "hard" && difficulty != "normal" ==> r.hp == 1 && r.points == (if surfaceType == "vertical" then 12 else 10)
  {
    var base := if difficulty == "hard" then Reward(20, JsFloor(draw * 3.0) + 1)
                else if difficulty == "normal" then Reward(15, if draw > 0.7 then 2 else 1)
                else Reward(10, 1);
    if surfaceType == "vertical" then Reward(JsFloor(base.points as real * 1.2), base.hp) else base
  }

  /** The camera gates of `spawnRandomTarget`: distance in [1.5, 10] and a view angle of at most 30° (60° after the first spawn). */
  predicate InView(distance: real, angleDegrees: real, firstTargetSpawned: bool)
  {
    1.5 <= distance <= 10.0 && angleDegrees <= (if firstTargetSpawned then 60.0 else 30.0)
  }

  /** Whether an existing target (skipping those without an object) lies within 0.5 of `pos`. */
  predicate TooClose(existing: seq<Option<Vec3>>, pos: Vec3, geo: Geometry)
  {
    exists k :: 0 <= k < |existing| && existing[k].Some? && Distance(geo, existing[k].value, pos) < 0.5
  }

  /** The `for…of` loop over the active targets. */
  method TooCloseToExisting(existing: seq<Option<Vec3>>, pos: Vec3, geo: Geometry) returns (tooClose: bool)
    ensures tooClose == TooClose(existing, pos, geo)
  {
    var i := 0;
    while i < |existing|
      invariant 0 <= i <= |existing|
      invariant forall k :: 0 <= k < i ==> !(existing[k].Some? && Distance(geo, existing[k].value, pos) < 0.5)
    {
      if existing[i].Some? && Distance(geo, existing[i].value, pos) < 0.5 {
        return true;
      }
      i := i + 1;
    }
    return false;
  }

  /** The positions of the active targets, `None` for one without an object. */
  function Positions(targets: seq<nat>, positionOf: nat -> Option<Vec3>): (r: seq<Option<Vec3>>)
    ensures |r| == |targets|
    ensures forall k :: 0 <= k < |targets| ==> r[k] == positionOf(targets[k])
  {
    if |targets| == 0 then [] else Positions(targets[..|targets| - 1], positionOf) + [positionOf(targets[|targets| - 1])]
  }

  /** A candidate spawn: where, on what kind of surface, and whether that surface is vertical. */
  datatype SpawnData = SpawnData(position: Vec3, surfaceType: string, isVertical: bool)

  /**
   * The source priority: the wall records, then a hit-test surface (a
   * non-vertical one is dropped when the draw is below 0.7), then the
   * surface detector.
   */
  function ChooseSpawn(fromWalls: Option<SpawnData>, fromHitTest: Option<SpawnData>, rejectDraw: real,
                       fromDetector: Option<SpawnData>): (r: Option<SpawnData>)
    ensures fromWalls.Some? ==> r == fromWalls
    ensures fromWalls.None? && fromHitTest.Some? && (fromHitTest.value.isVertical || rejectDraw >= 0.7) ==> r == fromHitTest
    ensures fromWalls.None? && (fromHitTest.None? || (!fromHitTest.value.isVertical && rejectDraw < 0.7)) ==> r == fromDetector
  {
    if fromWalls.Some? then fromWalls
    else if fromHitTest.Some? && (fromHitTest.value.isVertical || rejectDraw >= 0.7) then fromHitTest
    else fromDetector
  }

  /** The surface lists of the surface detector, as the `isRealSurface` flag of each entry. */
  datatype DetectorLists = DetectorLists(horizontal: seq<bool>, vertical: seq<bool>)

  function CountTrue(s: seq<bool>): (n: nat)
    ensures n <= |s|
    ensures n == 0 <==> forall k :: 0 <= k < |s| ==> !s[k]
  {
    if |s| == 0 then 0 else CountTrue(s[..|s| - 1]) + (if s[|s| - 1] then 1 else 0)
  }

  /** `hasAvailableSurface`. */
  function HasAvailableSurface(wallRecords: nat, hitTestActive: bool, detected: Option<bool>,
                               detector: Option<DetectorLists>, requireRealSurfaces: bool): (r: bool)
    ensures wallRecords > 0 ==> r
    ensures hitTestActive && detected == Some(true) ==> r
    ensures wallRecords == 0 && !(hitTestActive && detected == Some(true)) ==>
              (r <==> detector.Some? && |detector.value.horizontal| + |detector.value.vertical| > 0
                      && (!requireRealSurfaces
                          || CountTrue(detector.value.horizontal) + CountTrue(detector.value.vertical) > 0))
  {
    if wallRecords > 0 then true
    else if hitTestActive && detected == Some(true) then true
    else if detector.None? then false
    else
      var d := detector.value;
      if |d.horizontal| + |d.vertical| == 0 then false
      else if !requireRealSurfaces then true
      else CountTrue(d.horizontal) + CountTrue(d.vertical) > 0
  }

  /** `activeTargets.filter(t => t.parentNode)`. */
  function KeepAttached(targets: seq<nat>, attached: nat -> bool): (r: seq<nat>)
    ensures |r| <= |targets|
    ensures forall t :: t in r <==> t in targets && attached(t)
    ensures forall t :: multiset(r)[t] == if attached(t) then multiset(targets)[t] else 0
  {
    if |targets| == 0 then []
    else
      var init, last := targets[..|targets| - 1], targets[|targets| - 1];
      assert targets == init + [last];
      KeepAttached(init, attached) + (if attached(last) then [last] else [])
  }


  /** What the end menu is created with. */
  datatype Summary = Summary(score: int, hits: nat, arrows: nat)

  datatype SpawnedTarget = SpawnedTarget(id: nat, position: Vec3, reward: Reward, surfaceType: string)

  class Game {
    const maxTargets: nat
    const difficulty: string
    const requireRealSurfaces: bool

    var activeTargets: seq<nat>
    var totalScore: int
    var totalArrowsShot: nat
    var totalHits: nat
    var gameRunning: bool
    var gameTime: int
    var surfacesReady: bool
    var firstTargetSpawned: bool
    /** Whether the spawn and countdown intervals are running. */
    var spawnTimer: bool
    var countdownTimer: bool
    /** Spawned targets, `game-ended` emissions and end menus created, in order. */
    var spawned: seq<SpawnedTarget>
    var gameEndedEvents: nat
    var endMenus: seq<Summary>
    /** Source of fresh target identities (the element ids). */
    var nextId: nat

    ghost predicate Valid()
      reads this`activeTargets
    {
      |activeTargets| <= maxTargets
    }

    constructor (maxTargets: nat, difficulty: string, requireRealSurfaces: bool)
      ensures Valid() && this.maxTargets == maxTargets && this.difficulty == difficulty
      ensures this.requireRealSurfaces == requireRealSurfaces
      ensures activeTargets == [] && totalScore == 0 && totalArrowsShot == 0 && totalHits == 0
      ensures !gameRunning && !spawnTimer && !countdownTimer && !firstTargetSpawned
    {
      this.maxTargets := maxTargets;
      this.difficulty := difficulty;
      this.requireRealSurfaces := requireRealSurfaces;
      activeTargets := [];
      totalScore := 0;
      totalArrowsShot := 0;
      totalHits := 0;
      gameRunning := false;
      gameTime := 0;
      surfacesReady := false;
      firstTargetSpawned := false;
      spawnTimer := false;
      countdownTimer := false;
      spawned := [];
      gameEndedEvents := 0;
      endMenus := [];
      nextId := 0;
    }

    /** The totals, the game time and both intervals are as they were. */
    twostate predicate RoundUnchanged()
      reads this
    {
      totalScore == old(totalScore) && totalHits == old(totalHits) && totalArrowsShot == old(totalArrowsShot)
      && gameTime == old(gameTime) && spawnTimer == old(spawnTimer) && countdownTimer == old(countdownTimer)
    }

    /** What `startGame` leaves: the game running, and a fresh round of 1060 s unless one was already running. */
    twostate predicate RoundStarted()
      reads this
    {
      gameRunning
      && (old(gameRunning) ==> RoundUnchanged())
      && (!old(gameRunning) ==>
            totalScore == 0 && totalHits == 0 && totalArrowsShot == 0 && gameTime == 1060 && spawnTimer && countdownTimer)
    }

    /** `startGame`: nothing while running; otherwise a fresh round of 1060 s with both intervals started. */
    method StartGame()
      modifies this`gameRunning, this`totalScore, this`totalHits, this`totalArrowsShot, this`gameTime,
               this`spawnTimer, this`countdownTimer
      ensures RoundStarted()
    {
      if gameRunning {
        return;
      }
      gameRunning := true;
      totalScore := 0;
      totalHits := 0;
      totalArrowsShot := 0;
      gameTime := 1060;
      spawnTimer := true;
      countdownTimer := true;
    }

    /** The `surfaces-detected` listener, with the event's three counts. */
    method OnSurfacesDetected(realCount: int, mesh: int, hitTest: int)
      modifies this`surfacesReady, this`gameRunning, this`totalScore, this`totalHits, this`totalArrowsShot,
               this`gameTime, this`spawnTimer, this`countdownTimer
      ensures requireRealSurfaces && realCount + mesh + hitTest <= 0 ==>
                surfacesReady == old(surfacesReady) && gameRunning == old(gameRunning) && RoundUnchanged()
      ensures !(requireRealSurfaces && realCount + mesh + hitTest <= 0) ==> surfacesReady && RoundStarted()
    {
      if requireRealSurfaces && !(realCount + mesh + hitTest > 0) {
        return;
      }
      surfacesReady := true;
      if !gameRunning {
        StartGame();
      }
    }

    /** `stopGame`: clears the running flag and the spawn interval. */
    method StopGame()
      modifies this`gameRunning, this`spawnTimer
      ensures !gameRunning && !spawnTimer
    {
      gameRunning := false;
      spawnTimer := false;
    }

    /** `endGame`: stops the round and both intervals, emits `game-ended` and creates the end menu with the totals. */
    method EndGame()
      modifies this`gameRunning, this`spawnTimer, this`countdownTimer, this`gameEndedEvents, this`endMenus
      ensures !gameRunning && !spawnTimer && !countdownTimer
      ensures gameEndedEvents == old(gameEndedEvents) + 1
      ensures endMenus == old(endMenus) + [Summary(totalScore, totalHits, totalArrowsShot)]
    {
      StopGame();
      countdownTimer := false;
      gameEndedEvents := gameEndedEvents + 1;
      endMenus := endMenus + [Summary(totalScore, totalHits, totalArrowsShot)];
    }

    /** One firing of the countdown interval: one second less, and the end of the round at zero. */
    method CountdownTick()
      requires countdownTimer
      modifies this`gameTime, this`gameRunning, this`spawnTimer, this`countdownTimer, this`gameEndedEvents, this`endMenus
      ensures gameTime == old(gameTime) - 1
      ensures gameTime <= 0 ==> !gameRunning && !spawnTimer && !countdownTimer && gameEndedEvents == old(gameEndedEvents) + 1
                                && endMenus == old(endMenus) + [Summary(totalScore, totalHits, totalArrowsShot)]
      ensures gameTime > 0 ==> gameRunning == old(gameRunning) && spawnTimer == old(spawnTimer) && countdownTimer
                               && gameEndedEvents == old(gameEndedEvents) && endMenus == old(endMenus)
    {
      gameTime := gameTime - 1;
      if gameTime <= 0 {
        EndGame();
      }
    }

    /** `onTargetHit`: a falsy (zero) point value changes nothing. */
    method OnTargetHit(points: int)
      modifies this`totalHits, this`totalScore
      ensures points == 0 ==> totalHits == old(totalHits) && totalScore == old(totalScore)
      ensures points != 0 ==> totalHits == old(totalHits) + 1 && totalScore == old(totalScore) + points
    {
      if points == 0 {
        return;
      }
      totalHits := totalHits + 1;
      totalScore := totalScore + points;
    }

    /** `onTargetDestroyed`: drops detached targets, then adds a positive bonus. */
    method OnTargetDestroyed(bonusPoints: int, attached: nat -> bool)
      requires Valid()
      modifies this`activeTargets, this`totalScore
      ensures Valid()
      ensures activeTargets == KeepAttached(old(activeTargets), attached)
      ensures totalScore == old(totalScore) + (if bonusPoints > 0 then bonusPoints else 0)
    {
      activeTargets := KeepAttached(activeTargets, attached);
      if bonusPoints > 0 {
        totalScore := totalScore + bonusPoints;
      }
    }

    /** `onArrowShot`. */
    method OnArrowShot()
      modifies this`totalArrowsShot
      ensures totalArrowsShot == old(totalArrowsShot) + 1
    {
      totalArrowsShot := totalArrowsShot + 1;
    }

    /** Nothing spawned: the target list, the first-spawn flag, the created targets and the id source are as they were. */
    twostate predicate NoSpawn()
      reads this
    {
      activeTargets == old(activeTargets) && firstTargetSpawned == old(firstTargetSpawned)
      && spawned == old(spawned) && nextId == old(nextId)
    }

    /**
     * What `spawnRandomTarget` leaves: a new target at the chosen position
     * when there is one, it is in view and it is not too close to an
     * existing target; nothing otherwise.
     */
    twostate predicate SpawnOutcome(fromWalls: Option<SpawnData>, fromHitTest: Option<SpawnData>, rejectDraw: real,
                                    fromDetector: Option<SpawnData>, distanceToCamera: Vec3 -> real, viewAngle: Vec3 -> real,
                                    positionOf: nat -> Option<Vec3>, geo: Geometry, rewardDraw: real)
      requires IsDraw(rewardDraw)
      reads this
    {
      var s := ChooseSpawn(fromWalls, fromHitTest, rejectDraw, fromDetector);
      var existing := Positions(old(activeTargets), positionOf);
      if s.Some? && InView(distanceToCamera(s.value.position), viewAngle(s.value.position), old(firstTargetSpawned))
         && !TooClose(existing, s.value.position, geo)
      then activeTargets == old(activeTargets) + [old(nextId)] && firstTargetSpawned && nextId == old(nextId) + 1
           && spawned == old(spawned) + [SpawnedTarget(old(nextId), s.value.position,
                                                       PointsAndHp(difficulty, rewardDraw, s.value.surfaceType), s.value.surfaceType)]
      else NoSpawn()
    }

    /**
     * `spawnRandomTarget`, given the candidate spawns, the draws, and the
     * foreign camera measures of a position (distance, view angle in
     * degrees) and of the existing targets' positions.
     */
    method SpawnRandomTarget(fromWalls: Option<SpawnData>, fromHitTest: Option<SpawnData>, rejectDraw: real,
                             fromDetector: Option<SpawnData>, distanceToCamera: Vec3 -> real, viewAngle: Vec3 -> real,
                             positionOf: nat -> Option<Vec3>, geo: Geometry, rewardDraw: real)
      requires Valid() && |activeTargets| < maxTargets && IsDraw(rewardDraw)
      modifies this`activeTargets, this`firstTargetSpawned, this`spawned, this`nextId
      ensures Valid()
      ensures SpawnOutcome(fromWalls, fromHitTest, rejectDraw, fromDetector, distanceToCamera, viewAngle, positionOf, geo, rewardDraw)
    {
      var s := ChooseSpawn(fromWalls, fromHitTest, rejectDraw, fromDetector);
      if s.None? {
        return;
      }
      var pos := s.value.position;
      if !InView(distanceToCamera(pos), viewAngle(pos), firstTargetSpawned) {
        return;
      }
      var existing := Positions(activeTargets, positionOf);
      var tooClose := TooCloseToExisting(existing, pos, geo);
      if tooClose {
        return;
      }
      var reward := PointsAndHp(difficulty, rewardDraw, s.value.surfaceType);
      activeTargets := activeTargets + [nextId];
      firstTargetSpawned := true;
      spawned := spawned + [SpawnedTarget(nextId, pos, reward, s.value.surfaceType)];
      nextId := nextId + 1;
    }

    /**
     * One firing of the spawn interval: nothing at capacity or without an
     * available surface (`hasAvailableSurface` on the wall-record count, the
     * hit-test state and the detector's lists), so spawning never grows the
     * list past `maxTargets`; otherwise `spawnRandomTarget`.
     */
    method SpawnTick(wallRecords: nat, hitTestActive: bool, detected: Option<bool>, detector: Option<DetectorLists>,
                     fromWalls: Option<SpawnData>, fromHitTest: Option<SpawnData>, rejectDraw: real,
                     fromDetector: Option<SpawnData>, distanceToCamera: Vec3 -> real, viewAngle: Vec3 -> real,
                     positionOf: nat -> Option<Vec3>, geo: Geometry, rewardDraw: real)
      requires Valid() && spawnTimer && IsDraw(rewardDraw)
      modifies this`activeTargets, this`firstTargetSpawned, this`spawned, this`nextId
      ensures Valid()
      ensures (old(|activeTargets|) >= maxTargets
               || !HasAvailableSurface(wallRecords, hitTestActive, detected, detector, requireRealSurfaces)) ==>
                NoSpawn()
      ensures old(|activeTargets|) < maxTargets
              && HasAvailableSurface(wallRecords, hitTestActive, detected, detector, requireRealSurfaces) ==>
                SpawnOutcome(fromWalls, fromHitTest, rejectDraw, fromDetector, distanceToCamera, viewAngle, positionOf, geo, rewardDraw)
      ensures |activeTargets| <= old(|activeTargets|) + 1
    {
      if |activeTargets| >= maxTargets {
        return;
      }
      if !HasAvailableSurface(wallRecords, hitTestActive, detected, detector, requireRealSurfaces) {
        return;
      }
      SpawnRandomTarget(fromWalls, fromHitTest, rejectDraw, fromDetector, distanceToCamera, viewAngle, positionOf, geo, rewardDraw);
    }
  }
}
