# SAE-402 archery game core, in Dafny

SAE-402 is an A-Frame/WebXR mixed-reality archery game. The player draws a
bow with the VR controllers. The arrows fly straight and hit flying targets
(falcon, bat, armed bee). The targets roam inside the room the headset has
scanned. This project models the game's logic in Dafny:

- the target catalogue and its lookups;
- arrow flight, hit testing and hit classification over the scene graph;
- the target's behaviour: room bounds, waypoints, flight clamping, hit zones, points and destruction;
- the game manager: round, countdown, score totals and spawn gating;
- the combo system;
- the bow draw and the bow string curve;
- the wind (component and system versions);
- room discovery: the plane-based wall debugger, the room scanner, the surface detector, the scene-mesh/hit-test handler and the anchor registry;
- the start and end menus.

One Dafny module stands for each source file. `Common` holds the shared
vocabulary (3-vectors, `Option`, JavaScript's `Math.floor`/`Math.round`, and
the bundle of square-root based vector operations).

The source's objects update their fields in place. They become classes. Each method that models an operation of
the source names the fields it may change and states the new value of each of them in every case; the few
methods that chain several operations to exhibit a property state that property only. Timers (`setTimeout`, `setInterval`,
`requestAnimationFrame`) become flags or counters, plus an explicit method for
each firing. `Math.random()` draws and `Date.now()` are parameters, and so are
the results of three.js calls the model cannot see. Those calls are
`length`/`distanceTo`/`normalize`, quaternion rotations and ray casts. Pure
computations become functions with lemmas. The loops of the source become
methods proved against these functions.

## Flight and freeze as the code has them

Arrows fly in a straight line at a constant speed, with no gravity and no
drag. A movable target is driven twice: by its `tick` and by the backup
interval its init timeout always starts (`TargetBehavior.Target.OnInitTimeout`).
A hit stops the flight, but the next flight update past the start delay makes
the target fly again (`TargetBehavior.FreezeIsNotDurable`).

## Model

| member | source | states |
|---|---|---|
| TargetTypes.RandomTargetType | src/config/target-types.js:65-68 | for every draw in [0,1) the chosen kind is one of the three table entries |
| TargetTypes.FindFirst | src/config/target-types.js:74-78 | the for-of search (by difficulty here, by asset id at lines 90-95) returns an index whose entry has the key, and the first such; none means no entry has it |
| TargetTypes.TargetByDifficulty | src/config/target-types.js:73-80 | the result is a table entry; it has the asked difficulty whenever some entry does, and is the falcon otherwise |
| TargetTypes.DeathAnimationOf | src/config/target-types.js:85-104 | a type object yields its own animation; an asset id yields the matching entry's animation, or the default fall animation when no entry matches |
| TargetTypes.CreateTargetHTML | src/config/target-types.js:109-117 | the template literal with the asset id, the scale written three times and the clip; it has no contract of its own, `TargetTypes.CreateTargetHTMLEmbeds` states where each piece sits |
| TargetTypes.CreateTargetHTMLEmbeds | src/config/target-types.js:109-117 | the markup names the model as `#assetId`, repeats the scale three times separated by spaces and names the animation clip |
| TargetTypes.TableShape | src/config/target-types.js:6-60 | three entries with distinct asset ids and difficulties easy/medium/hard, hit points 1/2/3 and points 10/15/20 |
| TargetTypes.NormalDifficultyIsFly | src/config/target-types.js:73-80 | "normal", the game manager's default difficulty, is no table difficulty, so the lookup yields the falcon |
| TargetTypes.DeathAnimationByKnownAsset | src/config/target-types.js:85-98 | each entry's asset id yields that entry's death animation |
| ArrowPhysics.Chain | src/components/arrow-physics.js:140-151 | the walk from the hit object follows `parent` links from the object itself up to a root |
| ArrowPhysics.TargetEntries | src/components/arrow-physics.js:46-55 | the target entries are at most one per entity, and all are of type target |
| ArrowPhysics.EnvironmentEntries | src/components/arrow-physics.js:58-71 | the environment entries are at most one per entity, all of type environment, and none is the arrow itself |
| ArrowPhysics.CollisionEntriesComplete | src/components/arrow-physics.js:42-76 | every target with an object is listed as a target, and every other geometry entity except the arrow as environment |
| ArrowPhysics.CollisionEntriesSound | src/components/arrow-physics.js:42-76 | every listed entry comes from an entity that the two queries select, with that entity's object |
| ArrowPhysics.FirstMatch | src/components/arrow-physics.js:140-151 | the index found is the first entry whose object lies on the parent chain; none means no entry does |
| ArrowPhysics.ClassifyHit | src/components/arrow-physics.js:136-151 | the nested loop yields the entity and type of the first matching entry, or environment with no entity |
| ArrowPhysics.Within | src/components/arrow-physics.js:115-119 | the raycaster keeps only candidates at distances in [0, far] |
| ArrowPhysics.WithinFirst | src/components/arrow-physics.js:115-119 | over distance-sorted candidates something survives iff some candidate is in range, and the first survivor is the nearest one in range |
| ArrowPhysics.AcceptedWhenInRange | src/components/arrow-physics.js:115-127 | a candidate within the step guarantees an accepted hit |
| ArrowPhysics.AcceptedIsNearest | src/components/arrow-physics.js:115-127 | an accepted hit lies within the step, although the ray reaches 1.2 steps |
| ArrowPhysics.AcceptedHitIsNearest | src/components/arrow-physics.js:115-127 | a hit is accepted iff some sorted candidate lies within the step, and it is then the nearest candidate at non-negative distance |
| ArrowPhysics.Arrow.constructor | src/components/arrow-physics.js:12-40 | a fresh arrow has not collided, has lifetime 0, has notified nothing, and its collision list is targets then environment |
| ArrowPhysics.Arrow.UpdateCollisionObjects | src/components/arrow-physics.js:42-76 | the list grows by all targets, then the environment meshes |
| ArrowPhysics.Arrow.Tick | src/components/arrow-physics.js:78-128 | nothing moves after a collision; otherwise the lifetime grows by the frame time; an expired arrow is removed, with the removal and ray length kept; a menu hit plants the arrow; a miss moves it by one step; an accepted hit commits the collision; in each case the ray length and the removal list are stated |
| ArrowPhysics.Arrow.HandleCollision | src/components/arrow-physics.js:130-173 | the collision commits at most once: the arrow is planted at the impact point (0.1 out along the face normal), one removal is scheduled, and the target is notified iff classification found a live target |
| ArrowPhysics.Arrow.FireRemovalTimer | src/components/arrow-physics.js:170-202 | the timeout ends with the arrow detached and one more fired removal |
| ArrowPhysics.Arrow.RemoveArrow | src/components/arrow-physics.js:198-202 | afterwards the arrow is detached |
| ArrowPhysics.Arrow.Detach | src/components/arrow-physics.js:198-202 | another component's removal of the element leaves the arrow detached |
| GameManager.PointsAndHp | src/systems/game-manager.js:381-394 | hard gives 1-3 hp and 20 points, normal 1-2 hp and 15, anything else 1 hp and 10; a vertical surface raises the points to floor(1.2 · p) |
| GameManager.InView | src/systems/game-manager.js:358-369 | the camera gates: a distance in [1.5, 10] and a view angle of at most 30°, or 60° once a target has spawned; a definition, used by `SpawnOutcome` |
| GameManager.TooClose | src/systems/game-manager.js:372-377 | some existing target with an object lies within 0.5; a definition, computed by `GameManager.TooCloseToExisting` |
| GameManager.TooCloseToExisting | src/systems/game-manager.js:372-377 | the loop answers whether some existing target with an object lies within 0.5 of the position |
| GameManager.Positions | src/systems/game-manager.js:373-376 | one entry per active target, that target's optional position |
| GameManager.ChooseSpawn | src/systems/game-manager.js:317-343 | wall records first, then a hit-test surface unless it is not vertical and the draw is below 0.7, then the surface detector |
| GameManager.CountTrue | src/systems/game-manager.js:201-209 | the count of real surfaces is at most the list length, and zero iff none is real |
| GameManager.HasAvailableSurface | src/systems/game-manager.js:186-210 | wall records or a real hit-test surface suffice; otherwise some detector surface is needed (a real one when real surfaces are required) |
| GameManager.KeepAttached | src/systems/game-manager.js:452-454 | the kept targets are exactly the attached ones among the active targets, each as often as it was listed |
| GameManager.Game.constructor | src/systems/game-manager.js:15-31 | the manager starts idle: no targets, zero totals, no timers |
| GameManager.Game.StartGame | src/systems/game-manager.js:93-127 | a running game is left as it is; otherwise totals reset, the round lasts 1060 s and both intervals run |
| GameManager.Game.OnSurfacesDetected | src/systems/game-manager.js:58-84 | without any real surface while real surfaces are required nothing changes; otherwise the surfaces are ready and `startGame` runs: a round already running keeps its totals, time and timers, a new one resets the totals, lasts 1060 s and starts both intervals |
| GameManager.Game.StopGame | src/systems/game-manager.js:594-601 | the game stops and the spawn interval is cleared |
| GameManager.Game.EndGame | src/systems/game-manager.js:142-176 | all timers stop, one `game-ended` is emitted, and one end menu carries the score, hits and arrows |
| GameManager.Game.CountdownTick | src/systems/game-manager.js:116-127 | one second less; at zero the round ends and one summary with the round totals is appended to the end menus; before zero the spawn timer and the end menus are kept |
| GameManager.Game.OnTargetHit | src/systems/game-manager.js:439-450 | a zero point value changes nothing; otherwise one more hit and the points added |
| GameManager.Game.OnTargetDestroyed | src/systems/game-manager.js:452-463 | detached targets are dropped and only a positive bonus is added |
| GameManager.Game.OnArrowShot | src/systems/game-manager.js:465-468 | one more arrow shot |
| GameManager.Game.SpawnRandomTarget | src/systems/game-manager.js:312-431 | a target is added iff a spawn is chosen, is in view and is not too close to another target; it then carries the difficulty rules' points and hp, gets the next id and sets the first-spawn flag; otherwise nothing changes |
| GameManager.Game.SpawnTick | src/systems/game-manager.js:178-184 | nothing at capacity or when `hasAvailableSurface` (on the wall records, the hit-test state and the detector lists) is false; otherwise exactly the outcome of `spawnRandomTarget`; the list grows by at most one |
| AnchorManager.Filtered | src/components/webxr-anchor-manager.js:123-129 | the filtered map keeps exactly the entries the predicate accepts, with their values |
| AnchorManager.FilterEntries | src/components/webxr-anchor-manager.js:136-141 | the delete-while-iterating loop computes the filtered map |
| AnchorManager.HandlesInOrder | src/components/webxr-anchor-manager.js:145-150 | one handle per id, in insertion order |
| AnchorManager.Manager.constructor | src/components/webxr-anchor-manager.js:6-22 | an empty registry with no handler and no cleanup timer |
| AnchorManager.Manager.OnEnterVR | src/components/webxr-anchor-manager.js:24-35 | the handler is picked up if found, auto-cleanup starts if configured, and readiness is announced |
| AnchorManager.Manager.DeleteAnchor | src/components/webxr-anchor-manager.js:114-132 | false and no change for an unknown id; otherwise the anchor leaves the order and the map, its handle is deleted through the handler, and every entity on it is detached |
| AnchorManager.Manager.CreateAnchor | src/components/webxr-anchor-manager.js:45-76 | nothing without the handler; at capacity the oldest anchor is evicted first, with its handle deleted, even if no anchor is then created; a created anchor is registered under its fresh id with one `anchor-created` event; the list of deleted handles is stated in every case |
| AnchorManager.Manager.MakeRoom | src/components/webxr-anchor-manager.js:48-51 | at capacity the oldest anchor is evicted (handle deleted when the handler exists), leaving room below the maximum; otherwise nothing changes |
| AnchorManager.Manager.Register | src/components/webxr-anchor-manager.js:69-76 | the fresh id joins the order once and maps to the new handle, and one `anchor-created` event with the position is appended |
| AnchorManager.Manager.EvictOldest | src/components/webxr-anchor-manager.js:48-51 | the first inserted id leaves the order and the map, the entities on it are detached, and its handle is deleted when the handler exists |
| AnchorManager.Manager.OrderMatchesAnchors | src/components/webxr-anchor-manager.js:48-71 | the insertion order lists exactly as many ids as the map holds |
| AnchorManager.Manager.AttachToAnchor | src/components/webxr-anchor-manager.js:78-93 | false and no change for an unknown anchor; otherwise the entity (or a generated id when it has none) maps to the anchor |
| AnchorManager.Manager.AutoCleanupTick | src/components/webxr-anchor-manager.js:134-143 | the entries whose entity no longer exists are dropped, and only those |
| AnchorManager.Manager.Cleanup | src/components/webxr-anchor-manager.js:145-153 | every handle goes back to the handler oldest first, and both maps are emptied |
| AnchorManager.Manager.OnExitVR | src/components/webxr-anchor-manager.js:37-43 | the registry is empty, the cleanup interval is cleared, and every anchor handle is deleted in insertion order when the handler exists |
| AnchorManager.RemoveId | src/components/webxr-anchor-manager.js:115-130 | removing an id keeps every other id and drops that one |
| AnchorManager.RemoveIdKeepsOthers | src/components/webxr-anchor-manager.js:115-130 | a duplicate-free order stays duplicate-free and shrinks by exactly one when the id is present |
| AnchorManager.RemoveAbsent | src/components/webxr-anchor-manager.js:114-117 | an unknown id leaves the order as it is |
| AnchorManager.RemoveFirst | src/components/webxr-anchor-manager.js:48-51 | evicting the oldest id drops the head of the order |
| AnchorManager.DistinctCard | src/components/webxr-anchor-manager.js:48-71 | a duplicate-free list holds as many ids as its set |
| AnchorManager.ZeroCapacityOverflows | src/components/webxr-anchor-manager.js:46-71 | with a capacity of 0 the eviction finds nothing and one anchor is still registered, so the size bound needs a capacity of at least one |
| WindSystem.HorizontalBound | src/components/wind-system.js:99 | one horizontal component stays within base + variation for any pair of draws |
| WindSystem.VerticalBound | src/components/wind-system.js:100 | the vertical component stays within half of 0.3·base + 0.3·variation |
| WindSystem.GeneratedForce | src/components/wind-system.js:96-103 | the drawn force: signed horizontal x and z pushes and a smaller vertical y; a definition, bounded by `WindSystem.ForceBounds` |
| WindSystem.ForceBounds | src/components/wind-system.js:96-103 | the generated force obeys both bounds in every component |
| WindSystem.RampProgress | src/components/wind-system.js:294 | the ramp fraction never exceeds 1 and is non-negative once time has passed |
| WindSystem.RampVolume | src/components/wind-system.js:294-300 | a ramp frame's volume is always a valid volume in [0, 1] |
| WindSystem.RampEndsAtTarget | src/components/wind-system.js:294-300 | after the duration (at least 1 ms) has elapsed the ramp is complete |
| WindSystem.CompleteRampAtTarget | src/components/wind-system.js:284-300 | a complete ramp sets exactly the target volume |
| WindSystem.RampBetween | src/components/wind-system.js:283-295 | every frame's volume lies between the start and target volumes, and the first frame keeps the start volume |
| WindSystem.Wind.constructor | src/components/wind-system.js:19-50 | the wind starts calm, with no force, no pending cycle and no ramp frame |
| WindSystem.Wind.StartWindCycle | src/components/wind-system.js:84-85 | the first period is a calm one |
| WindSystem.Wind.GenerateWind | src/components/wind-system.js:88-124 | disabled or calm: the force and intensity are zero; otherwise the drawn force, its length as intensity, the direction updated above 0.1, and one `wind-changed` event |
| WindSystem.Wind.RampWindVolume | src/components/wind-system.js:276-304 | a pending frame is cancelled; a change under 0.001 or a non-positive duration sets the clamped target at once and leaves the ramp closure as it was; otherwise a frame is scheduled from the clamped current volume to the clamped target over the duration |
| WindSystem.Wind.RampFrame | src/components/wind-system.js:292-301 | the first frame fixes the start time; each frame sets the ramp volume, and the last one lands on the target |
| WindSystem.Wind.RunCycle | src/components/wind-system.js:53-82 | the wind toggles: calm clears the force (direction and sound kept), ramps to 0.08 and schedules the next wind; wind draws the force (its length as intensity, the direction above 0.1, one event), starts the change interval, ramps to 1.0, plays the sound and schedules the calm; a pending ramp runs from the clamped current volume to that target over the configured duration |
| WindSystem.Wind.StopWind | src/components/wind-system.js:54-66 | the calm branch: wind off, force, speed and intensity zero, change interval stopped, volume ramped towards 0.08 when the sound exists (at once, or by a pending ramp from the clamped current volume over the configured duration), calm duration scheduled |
| WindSystem.Wind.StartWind | src/components/wind-system.js:67-80 | the windy branch: wind on, the drawn force, speed, intensity and direction with one event when enabled (none otherwise), change interval running, volume ramped towards 1 (at once, or by a pending ramp from the clamped current volume over the configured duration) and the sound playing when it exists, wind duration scheduled |
| WindSystem.Wind.Blow | src/components/wind-system.js:68-72 | the wind is on, the force is drawn as `generateWind` does, and the change interval runs |
| WindSystem.Wind.RaiseWindSound | src/components/wind-system.js:73-79 | with the sound element, the volume is ramped towards 1 (at once, or by a pending ramp from the clamped current volume over the configured duration) and the sound plays; without it nothing changes |
| WindSystem.Wind.StartWindSound | src/components/wind-system.js:198-214 | with the sound element and the wind enabled the volume is 0.08 and the sound is asked to play; otherwise nothing changes |
| WindSystem.Wind.CreateWindVisuals | src/components/wind-system.js:189-196 | nothing the second time; the first time the sound is started as `startWindSound` does and the `start-game` listener is registered |
| WindSystem.Wind.OnStartGame | src/components/wind-system.js:191-193 | once the visuals exist, each `start-game` restarts the sound as `startWindSound` does; before that nothing changes |
| WindSystem.Wind.ChangeIntervalTick | src/components/wind-system.js:70-72 | while the wind blows, each firing draws a new force, speed, intensity and direction, with one event |
| WindSystem.Wind.SetEnabled | src/components/wind-system.js:306-314 | disabling zeroes the force and intensity, and keeps the speed and the direction; enabling draws a new force while the wind blows, as `generateWind` does |
| WindSystem.Wind.GetWindDirection | src/components/wind-system.js:269-274 | the normalised force above an intensity of 0.1, the zero vector otherwise |
| WindSystem.Wind.CalmHasNoDirection | src/components/wind-system.js:54-58 | during calm, or while disabled, arrows see no force and no direction |
| WindSystem.FullCycle | src/components/wind-system.js:53-82 | two cycle steps from calm return to calm with the force cleared and the next wind scheduled |
| WindSystemV2.WindV2.constructor | src/systems/wind-system-v2.js:18-50 | the wind starts calm, with no force and no pending cycle |
| WindSystemV2.WindV2.StartWindCycle | src/systems/wind-system-v2.js:103-106 | the first period is a calm one |
| WindSystemV2.WindV2.GenerateWind | src/systems/wind-system-v2.js:109-146 | as the component: zero when disabled or calm, otherwise the drawn force, its length, the direction above 0.1 and one event |
| WindSystemV2.WindV2.RunCycle | src/systems/wind-system-v2.js:53-101 | the wind toggles; calm clears the force (direction kept) and sets the volume to 0.05; wind draws the force as `generateWind` does, sets 0.8 and plays the sound; each schedules the other period, and only the listed fields change |
| WindSystemV2.WindV2.StartWindSound | src/systems/wind-system-v2.js:237-260 | with the sound element and the wind enabled the volume is the calm 0.05 and the sound is asked to play; otherwise nothing changes |
| WindSystemV2.WindV2.CreateWindVisuals | src/systems/wind-system-v2.js:225-234 | nothing the second time; the first time the sound is started as `startWindSound` does and the scene's `start-game` listener is registered |
| WindSystemV2.WindV2.OnStartGame | src/systems/wind-system-v2.js:229-231 | once the visuals exist, each `start-game` restarts the sound at 0.05; before that nothing changes |
| WindSystemV2.WindV2.ChangeIntervalTick | src/systems/wind-system-v2.js:82-84 | while the wind blows, each firing draws a new force, speed, intensity and direction, with one event |
| WindSystemV2.WindV2.SetEnabled | src/systems/wind-system-v2.js:345-353 | disabling zeroes the force and intensity, and keeps the speed and the direction; enabling draws a new force while the wind blows, as `generateWind` does |
| WindSystemV2.WindV2.GetWindDirection | src/systems/wind-system-v2.js:338-343 | the normalised force above an intensity of 0.1, the zero vector otherwise |
| WindSystemV2.WindV2.CalmHasNoDirection | src/systems/wind-system-v2.js:54-59 | during calm, or while disabled, arrows see no force and no direction |
| WindSystemV2.ForceWithinBounds | src/systems/wind-system-v2.js:120-122 | the system version's force obeys the component's bounds |
| VrMenu.Menu.constructor | src/components/vr-menu.js:9-21 | the menu starts visible, with nothing emitted or scheduled |
| VrMenu.Menu.HideMenu | src/components/vr-menu.js:265-284 | only a visible panel is hidden and scheduled for removal; a hidden one stays as it is |
| VrMenu.Menu.ShowMenu | src/components/vr-menu.js:286-294 | afterwards the panel is visible |
| VrMenu.Menu.OnStartGame | src/components/vr-menu.js:16-18 | the `start-game` listener hides the panel |
| VrMenu.Menu.OnPlayClick | src/components/vr-menu.js:252-263 | lasers off when the rig has them, one `start-game`, and the panel hidden and scheduled for removal once |
| VrMenu.Menu.CheckArrowHit | src/components/vr-menu.js:235-250 | a hit iff the panel is visible, the button exists and the arrow is closer than 0.5; a hit presses play (bow lasers off, `start-game`, the panel hidden with one removal), a miss changes nothing |
| VrMenu.HiddenIgnoresArrows | src/components/vr-menu.js:235-250 | once hidden, the menu ignores every arrow: no event, the lasers as they were |
| VrMenu.PlayHidesOnce | src/components/vr-menu.js:252-284 | pressing play hides the panel twice but schedules its removal once; one `start-game`, and the bow lasers are turned off |
| EndMenu.Accuracy | src/components/end-menu.js:151-154 | 0 before any arrow; otherwise the nearest integer to 100 · hits / arrows, halves rounded up |
| EndMenu.AccuracyBounds | src/components/end-menu.js:151-154 | with no more hits than arrows the accuracy is a percentage in [0, 100] |
| EndMenu.AccuracyExtremes | src/components/end-menu.js:151-154 | every arrow a hit gives 100, no hit gives 0 |
| EndMenu.WithoutCounts | src/components/end-menu.js:271-279 | removing a kind leaves none of it and every other kind as often as before |
| EndMenu.RemoveAll | src/components/end-menu.js:271-279 | one remove-all pass removes exactly the entities of that kind, keeping the order of the rest |
| EndMenu.Menu.constructor | src/components/end-menu.js:9-21 | the panel starts visible with the final score, hits and arrows |
| EndMenu.Menu.HideMenu | src/components/end-menu.js:289-307 | only a visible panel is hidden and scheduled for removal |
| EndMenu.Menu.OnReplayClick | src/components/end-menu.js:266-287 | the HUD, every target and every arrow go, the panel hides, and one start menu is added |
| EndMenu.Menu.CheckArrowHit | src/components/end-menu.js:252-264 | a hit iff the panel is visible, the button exists and the arrow is closer than 0.5; a hit replays, a miss changes nothing |
| EndMenu.ReplayClearsScene | src/components/end-menu.js:266-287 | after replay no target and no arrow is left, one more start menu exists and other entities are untouched |
| BowString.InitialPoint | src/components/bow-string.js:59-66 | the straight string: every point on the y axis, from -0.4 at point 0 to 0.4 at point 20 |
| BowString.Bezier | src/components/bow-string.js:142-160 | the quadratic Bézier point; a definition, whose ends and convex-hull bound `BowString.BezierEnds` and `BowString.BezierWithin` state |
| BowString.MiddlePoint | src/components/bow-string.js:120-138 | the drawing hand while drawing, otherwise the anchors' midpoint pushed by the rotated rest offset; a definition used by `BowString.Str.Tick` |
| BowString.BezierEnds | src/components/bow-string.js:142-160 | the curve starts at the top anchor and ends at the bottom anchor |
| BowString.Weights | src/components/bow-string.js:150-154 | the three Bézier weights are non-negative on [0,1] and sum to one |
| BowString.BezierWithin | src/components/bow-string.js:142-160 | every coordinate of a string point lies between the smallest and largest control coordinate |
| BowString.Str.constructor | src/components/bow-string.js:16-84 | 21 points on the straight string from y = -0.4 to 0.4 |
| BowString.Str.Play | src/components/bow-string.js:34-52 | the hands are found only if both are, and the bow-draw system is picked up only then |
| BowString.Str.Tick | src/components/bow-string.js:86-174 | without hands nothing changes; the draw state is copied from the bow-draw system; every point i is the Bézier point at i/20 through the drawing hand or the bent rest point, from the top anchor to the bottom anchor |
| BowString.TickPointsWithin | src/components/bow-string.js:142-160 | every string point lies in the box spanned by the three control points |
| BowDraw.DrawRatio | src/components/bow-draw-system.js:161-164 | the draw ratio never exceeds 1, is exactly 1 from the maximum draw on, and is non-negative for a non-negative draw |
| BowDraw.ArrowSpeed | src/components/bow-draw-system.js:161-167 | no draw gives the minimum speed and a full draw, or more, the maximum; `BowDraw.ArrowSpeedBounds` and `BowDraw.ArrowSpeedMonotone` give the range and the order |
| BowDraw.ArrowSpeedBounds | src/components/bow-draw-system.js:161-167 | for a non-negative draw the speed lies between the minimum and the maximum speed |
| BowDraw.ArrowSpeedMonotone | src/components/bow-draw-system.js:161-167 | a longer draw never gives a slower arrow |
| BowDraw.ArrowSpeedAtFullDraw | src/components/bow-draw-system.js:161-167 | a full draw, or more, gives exactly the maximum speed |
| BowDraw.Bow.constructor | src/components/bow-draw-system.js:10-25 | no hands, no draw, distance 0, trigger released, no arrows |
| BowDraw.Bow.Play | src/components/bow-draw-system.js:27-48 | the hands are known iff both were found |
| BowDraw.Bow.TriggerDown | src/components/bow-draw-system.js:79-107 | without hands nothing changes; otherwise the trigger is pressed and the string is hooked when the hands are closer than the snap distance |
| BowDraw.Bow.Tick | src/components/bow-draw-system.js:121-128 | while drawing with both hands the draw distance follows the hands; otherwise it is kept |
| BowDraw.Bow.ShootArrow | src/components/bow-draw-system.js:154-212 | no arrow below the minimum draw; otherwise one arrow from the bow hand at the computed speed and one `arrow-shot` |
| BowDraw.Bow.TriggerUp | src/components/bow-draw-system.js:109-119 | the trigger and the draw are released; an arrow is shot only if the string was hooked and drawn far enough |
| BowDraw.ReleaseBeforeTick | src/components/bow-draw-system.js:90-115 | hooking and releasing before any tick shoots with the previous draw's distance, since it is never reset |
| RoomScanner.WallName | src/components/room-scanner.js:157-161 | east/west when the x part dominates (by its sign), south/north otherwise (by the sign of z); each name exactly in its case |
| RoomScanner.WallNameScaleInvariant | src/components/room-scanner.js:155-161 | scaling the direction by a positive factor keeps its wall name |
| RoomScanner.Classify | src/components/room-scanner.js:146-163 | floor iff y > 0.7, ceiling iff y < -0.7, wall iff |y| < 0.5 (named after the normalised horizontal normal), other otherwise |
| RoomScanner.ClassifyRawNormal | src/components/room-scanner.js:151-161 | when normalisation scales by a positive factor, a wall is named after the raw normal |
| RoomScanner.WallsAtMostFour | src/components/room-scanner.js:162 | a duplicate-free collection of compass walls has at most four members |
| RoomScanner.Readiness | src/components/room-scanner.js:184-208 | complete iff enough surfaces and enough walls; missing walls are reported first, with the exact positive shortfall, then missing surfaces |
| RoomScanner.Scanner.constructor | src/components/room-scanner.js:14-36 | not scanning, not complete, nothing detected |
| RoomScanner.Scanner.StartScan | src/components/room-scanner.js:38-54 | nothing while scanning or after completion; otherwise scanning from now with empty results, the panel and button shown, no message, and the visualisation and `room-scan-started` events |
| RoomScanner.Scanner.OnSurfaceEvent | src/components/room-scanner.js:23-27 | surfaces are recorded only while scanning, with the panel message as `onSurfaceDetected` sets it; otherwise lists and message are kept |
| RoomScanner.Scanner.OnSurfaceDetected | src/components/room-scanner.js:141-174 | the classified surface is appended; a wall adds its name to the set (at most four); the panel shows the readiness when it exists, and the message is kept otherwise |
| RoomScanner.Scanner.UpdateScanUI | src/components/room-scanner.js:176-209 | a panel, when present, shows the readiness of the current counts |
| RoomScanner.Scanner.CompleteScan | src/components/room-scanner.js:211-235 | only while scanning: the scan completes, the panel goes, and the three events end with `start-game`; otherwise scanning flags, panel and events are kept |
| RoomScanner.Scanner.CheckArrowHit | src/components/room-scanner.js:238-251 | a hit iff scanning, the button exists and the arrow is closer than 0.35; a hit completes the scan as `completeScan` does, a miss keeps flags, panel and events |
| RoomScanner.Scanner.Tick | src/components/room-scanner.js:253-264 | after the scan duration the scan completes, as `completeScan` does, once enough surfaces are known, whatever the wall count; otherwise flags, panel and events are kept |
| RoomScanner.CompleteOnce | src/components/room-scanner.js:211-216 | the scan completes at most once, whichever route triggers it |
| SurfaceDetector.KeyOf | src/components/surface-detector.js:229-231 | each key component is the decimetre coordinate rounded half up |
| SurfaceDetector.KeySeparatesX | src/components/surface-detector.js:229-231 | positions more than a decimetre apart along x never share a key |
| SurfaceDetector.SameRoundingSameKey | src/components/surface-detector.js:229-231 | positions with the same decimetre roundings share a key |
| SurfaceDetector.OrDefault | src/components/surface-detector.js:73-76 | a reported size or stability that is absent or zero takes the default, any other value is kept |
| SurfaceDetector.Or | src/components/surface-detector.js:186-187 | a stored zero takes the default, any other value is kept |
| SurfaceDetector.StabilityOf | src/components/surface-detector.js:224-227 | an unknown key has stability 0, a known one its sighting count |
| SurfaceDetector.Sighted | src/components/surface-detector.js:204-215 | a new key starts at one sighting, a known key gains one; its last-seen time and surface are updated and other keys are untouched |
| SurfaceDetector.Evicted | src/components/surface-detector.js:217-221 | exactly the entries last seen more than 3000 ms ago go; the rest keep their values |
| SurfaceDetector.Evict | src/components/surface-detector.js:217-221 | the delete-while-iterating loop computes the eviction |
| SurfaceDetector.SightingCounts | src/components/surface-detector.js:202-222 | a sighting raises the key's stability by exactly one, and the key survives that eviction |
| SurfaceDetector.SightingLeavesOthers | src/components/surface-detector.js:202-222 | any other key keeps its count, or drops to 0 when it is evicted |
| SurfaceDetector.CameraOrDefault | src/components/surface-detector.js:162-164 | the camera position, or (0, 1.6, 0) without a camera |
| SurfaceDetector.ValidateSurface | src/components/surface-detector.js:180-200 | the first failing check in the order distance, area, stability (stability only for real surfaces); none iff all pass |
| SurfaceDetector.ClassifySurface | src/components/surface-detector.js:157-178 | none iff validation fails; otherwise the surface with its normalised normal, horizontal iff the normal's |y| exceeds 0.7 |
| SurfaceDetector.ClassifyEach | src/components/surface-detector.js:98-104 | the classified surfaces are at most as many as the inputs |
| SurfaceDetector.OfKindMembers | src/components/surface-detector.js:101 | a list holds exactly the classified surfaces of its kind |
| SurfaceDetector.KindsPartition | src/components/surface-detector.js:101 | every classified surface lands in exactly one of the two lists |
| SurfaceDetector.ClassifyInto | src/components/surface-detector.js:98-104 | the loop pushes each valid surface to the list of its kind, in order, and counts them |
| SurfaceDetector.Detect | src/components/surface-detector.js:90-155 | the two lists together hold as many surfaces as the real count plus the mock count; no real pass means a real count of 0 and no fallback pass a mock count of 0, so the mock count the event derives is the number of accepted fallback meshes |
| SurfaceDetector.ClassifyLists | src/components/surface-detector.js:93-141 | the real pass (skipped when disabled or empty) and the fallback pass appending to the same lists compute the detection |
| SurfaceDetector.HorizontalSpawn | src/components/surface-detector.js:249-285 | a horizontal spawn point keeps the surface's realness and normal; under a ceiling it is pushed 0.5 along the normal, otherwise lifted by the target height |
| SurfaceDetector.VerticalSpawn | src/components/surface-detector.js:291-321 | a vertical spawn point keeps the surface's realness and normal and sits 0.2 out from the wall, offset along the in-plane perpendicular and vertically |
| SurfaceDetector.HorizontalSpawnPoint | src/components/surface-detector.js:246-249 | none iff there is no horizontal surface; otherwise the point on the first one |
| SurfaceDetector.VerticalSpawnPoint | src/components/surface-detector.js:288-291 | none iff there is no vertical surface; otherwise the point on the first one |
| SurfaceDetector.RandomSpawnPoint | src/components/surface-detector.js:233-244 | none without surfaces; the vertical getter exactly when walls exist and the draw is below 0.8, the horizontal getter otherwise |
| SurfaceDetector.StoredSurface | src/components/surface-detector.js:63-77 | a stored surface keeps the position, normalises the normal, is real, and defaults its sizes and stability to 1 |
| SurfaceDetector.ValuesInOrder | src/components/surface-detector.js:98 | the surfaces of the map in key insertion order |
| SurfaceDetector.Detector.constructor | src/components/surface-detector.js:19-42 | empty lists, history and map, no pending re-detect |
| SurfaceDetector.Detector.EnableRealSurfaces | src/components/surface-detector.js:30-32 | real surfaces are used from then on |
| SurfaceDetector.Detector.UpdateSurfaceStability | src/components/surface-detector.js:202-222 | the history is the sighting followed by the eviction, and the key's stability rises by one |
| SurfaceDetector.Detector.OnRealSurfaceDetected | src/components/surface-detector.js:48-88 | disabled or no data: nothing; otherwise the surface is stored under its key (a known key keeps its place), the sighting counted, and one re-detect is pending |
| SurfaceDetector.Detector.DetectSurfaces | src/components/surface-detector.js:90-155 | disabled: nothing; otherwise both lists are rebuilt from the real surfaces in order, then the fallback meshes, and the event reports the list sizes, the real count and the fallback count |
| SurfaceDetector.Detector.FirePendingDetect | src/components/surface-detector.js:83-86 | the timeout clears the pending flag and re-detects exactly as `detectSurfaces` does: both lists rebuilt and one event when enabled, nothing otherwise |
| SurfaceDetector.Detector.GetRandomSpawnPoint | src/components/surface-detector.js:233-244 | none without surfaces, and a point of a kind only when that kind's list is not empty |
| SurfaceDetector.BurstSchedulesOnce | src/components/surface-detector.js:82-87 | two reports in a row leave exactly one re-detect pending |
| SceneMeshHandler.LabelOf | src/components/scene-mesh-handler.js:365-386 | horizontal planes are floor below 0.3, ceiling above 2.0, table in (0.5, 1.3), other surface otherwise; planes with |y| in [0.5, 0.7] are other surfaces; steep planes are named after their compass wall |
| SceneMeshHandler.Extent | src/components/scene-mesh-handler.js:392-393 | an extent is max(1, \|a − b\|), also when the difference is 0; a missing third vertex gives 1 |
| SceneMeshHandler.PlaneSize | src/components/scene-mesh-handler.js:389-394 | width and height are max(1, \|Δx\|) and max(1, \|Δz\|) between vertices 0 and 2, and 1 × 1 with fewer than three vertices |
| SceneMeshHandler.PlaneId | src/components/scene-mesh-handler.js:339 | the plane id, or the last-changed time when the id is missing |
| SceneMeshHandler.AddPlane | src/components/scene-mesh-handler.js:323-472 | one loop iteration; a definition, whose shape `SceneMeshHandler.AddPlaneKeepsShape` states |
| SceneMeshHandler.AddPlanes | src/components/scene-mesh-handler.js:323-472 | the loop as a fold over the planes; a definition, whose shape `SceneMeshHandler.AddPlanesKeepsShape` states |
| SceneMeshHandler.HitReportOf | src/components/scene-mesh-handler.js:200-208 | the `surface-detected` detail: the hit's position and normal, floor iff y > 0.7, wall iff \|y\| < 0.4, ceiling iff y < -0.7 |
| SceneMeshHandler.AddPlanesKeepsShape | src/components/scene-mesh-handler.js:323-472 | processing keeps ids distinct and at most twelve, only appends, and never replaces a known plane's record |
| SceneMeshHandler.FullRegistryStays | src/components/scene-mesh-handler.js:323-338 | once twelve planes are known, further planes change nothing |
| SceneMeshHandler.PushNewest | src/components/scene-mesh-handler.js:189-192 | the newest surface comes first, the older ones follow in order, and at most three are kept |
| SceneMeshHandler.GetDetectedSurface | src/components/scene-mesh-handler.js:571-588 | none iff the buffer is empty; otherwise the newest surface's position and normal, horizontal iff its |y| exceeds 0.7 |
| SceneMeshHandler.IsHitTestActive | src/components/scene-mesh-handler.js:590-595 | inactive without session or source; active with a hit this frame; otherwise active iff a result came less than 30 s ago |
| SceneMeshHandler.Handler.constructor | src/components/scene-mesh-handler.js:13-45 | no session, no source, empty buffer and registry |
| SceneMeshHandler.Handler.StartSceneMeshDetection | src/components/scene-mesh-handler.js:85-105 | the session and reference space are recorded; without a session nothing is announced and the plane tracking and its count are kept; otherwise two `scene-mesh-handler-ready` events and plane tracking from a zero count |
| SceneMeshHandler.Handler.InitializeHitTest | src/components/scene-mesh-handler.js:107-128 | a source exists iff the viewer or the local request succeeded; mock surfaces are used iff both failed |
| SceneMeshHandler.Handler.ProcessPlanes | src/components/scene-mesh-handler.js:315-486 | nothing without visual surfaces; otherwise the registry is the fold of the planes, and iff a plane was added one mesh update and one `surfaces-detected` whose real count is the number of spawn surfaces |
| SceneMeshHandler.Handler.RegisterPlanes | src/components/scene-mesh-handler.js:323-472 | the loop leaves the registry at the fold of the planes, and reports an addition iff the plane order grew |
| SceneMeshHandler.Handler.Tick | src/components/scene-mesh-handler.js:145-212 | the plane counter advances while planes are tracked; on every tenth such frame the registry becomes the fold of the frame's planes, on the other nine the frame returns at once; a hit exists iff the session, source, frame, result and pose all do, and then its surface is pushed newest-first and its report appended; session, source and tracking flags are unchanged |
| SceneMeshHandler.Handler.PlaneCheck | src/components/scene-mesh-handler.js:145-156 | the plane half of `tick`: the hit flag is cleared, the counter advances while planes are tracked, nine frames in ten stop there, and on the tenth the registry becomes the fold of the frame's planes with one update and one `surfaces-detected` event when planes were added |
| SceneMeshHandler.Handler.HitTest | src/components/scene-mesh-handler.js:158-212 | the hit-test half of `tick`: a hit iff source, frame, result and pose exist; it is then the newest of at most three surfaces, stamps the time and appends its report; otherwise nothing changes |
| SceneMeshHandler.Handler.StopSceneMeshDetection | src/components/scene-mesh-handler.js:623-635 | everything detected is dropped, and session, source and plane tracking are cleared |
| SceneMeshHandler.AddPlanesConcat | src/components/scene-mesh-handler.js:336-472 | processing two lists in turn is processing their concatenation |
| WallDebug.ClassifyPlane | src/components/wall-debug.js:129-146 | floor iff \|normal.y\| > 0.7 below 0.8 m, ceiling iff \|normal.y\| > 0.7 above 1.8 m, unknown between, wall iff \|normal.y\| ≤ 0.7 |
| WallDebug.ExtentBoundsX | src/components/wall-debug.js:152-160 | the running minimum and maximum lie below and above every polygon x and are attained |
| WallDebug.ExtentBoundsZ | src/components/wall-debug.js:152-160 | likewise for z |
| WallDebug.PolygonExtent | src/components/wall-debug.js:148-164 | 2 × 2 without a polygon, otherwise the x and z spans of its points |
| WallDebug.ExtentNonNegative | src/components/wall-debug.js:162-163 | both spans of a non-empty polygon are non-negative |
| WallDebug.WallFromPlane | src/components/wall-debug.js:259-346 | a wall record at least the configured height and 1 m wide, standing on floorY, with the horizontal normal and the name "MUR n+1" |
| WallDebug.FloorFromPlane | src/components/wall-debug.js:350-413 | a WebXR floor record at the plane's position, at least 2 × 2 |
| WallDebug.CeilingFromPlane | src/components/wall-debug.js:417-480 | a WebXR ceiling record at the plane's position, at least 2 × 2 |
| WallDebug.ManualFloor | src/components/wall-debug.js:510-566 | a non-WebXR floor record of the given size at floorY |
| WallDebug.ManualCeiling | src/components/wall-debug.js:570-628 | a non-WebXR ceiling record of the given size at floorY + height |
| WallDebug.RecordOf | src/components/wall-debug.js:192-213 | the records one plane yields; a definition, whose kinds `WallDebug.RecordOfKind` states |
| WallDebug.RecordOfKind | src/components/wall-debug.js:192-213 | an unknown plane yields no record; any other plane exactly one WebXR record of its own kind |
| WallDebug.PlaneRecords | src/components/wall-debug.js:192-213 | at most one record per stored plane |
| WallDebug.ExtentOf | src/components/wall-debug.js:188-201 | no extent iff no plane is stored |
| WallDebug.FrameOf | src/components/wall-debug.js:216-236 | camera position and twice roomSize without planes, otherwise the extent's centre and largest span; the detected height only when it exceeds 2 m from below 1 m |
| WallDebug.Fallbacks | src/components/wall-debug.js:249-254 | the fallback floor and ceiling around the room frame; a definition, counted by `WallDebug.FallbackCounts` |
| WallDebug.FallbackCounts | src/components/wall-debug.js:249-254 | one fallback floor iff no floor plane was built and one fallback ceiling iff no ceiling plane was, neither from WebXR |
| WallDebug.PlaneRecordCounts | src/components/wall-debug.js:192-213 | one floor record per floor plane, one ceiling record per ceiling plane, and every plane record is WebXR |
| WallDebug.RoomHasFloorAndCeiling | src/components/wall-debug.js:192-254 | the built room has the detected floors and ceilings, or exactly one fallback of each |
| WallDebug.PlaneRoomKeepsFloorAndCeiling | src/components/wall-debug.js:178-257 | after a room from planes there is at least one floor and one ceiling record |
| WallDebug.ManualRoomKeepsFloorAndCeiling | src/components/wall-debug.js:484-503 | after the manual room there is at least one floor and one ceiling record |
| WallDebug.ReadyCountsSplit | src/components/wall-debug.js:637-642 | the webxr and manual counts of `surfaces-detected` add up to the real count and are never negative |
| WallDebug.SpawnWalls | src/components/wall-debug.js:647 | exactly the records that are neither floor nor ceiling; empty iff there is none |
| WallDebug.Offset | src/components/wall-debug.js:656-657 | a random offset never exceeds the half extent |
| WallDebug.PlaceOnWall | src/components/wall-debug.js:659-674 | the point 0.05 in front of the wall moved by the offsets along the wall's in-plane axis; a definition used by `WallDebug.RandomSpawnPoint` |
| WallDebug.ChosenWall | src/components/wall-debug.js:647-651 | none iff no spawn wall exists; otherwise a record of the list that is neither floor nor ceiling |
| WallDebug.RandomSpawnPoint | src/components/wall-debug.js:646-685 | null iff no wall record; otherwise a vertical point in front of the chosen wall, with its name, normal and WebXR flag, offset within 0.8 and 0.7 of its half width and height |
| WallDebug.PlaneLoop | src/components/wall-debug.js:183-213 | the loop's records, extent and floor and ceiling counts equal their specification functions |
| WallDebug.PlanesOf | src/components/wall-debug.js:192 | the stored planes in insertion order |
| WallDebug.WallDebugger.Planes | src/components/wall-debug.js:192 | the stored planes in insertion order |
| WallDebug.WallDebugger.constructor | src/components/wall-debug.js:29-37 | no records, no planes, not detecting, nothing created |
| WallDebug.WallDebugger.InitRoomCapture | src/components/wall-debug.js:53-81 | nothing when disabled; without a session or plane detection the session is recorded and the manual room is built with its `surfaces-detected` event (once only); otherwise detection starts, the reference space is requested and the room is untouched |
| WallDebug.WallDebugger.OnEnterVR | src/components/wall-debug.js:40-46 | room capture when configured (nothing at all when disabled), otherwise the manual room with its `surfaces-detected` event and the session flags kept |
| WallDebug.WallDebugger.OnReferenceSpace | src/components/wall-debug.js:74-80 | success keeps the space and starts the detection timeout, with the room untouched; failure builds the manual room with its `surfaces-detected` event (once only) |
| WallDebug.WallDebugger.FireDetectionTimeout | src/components/wall-debug.js:83-93 | the room from planes if any is stored, else the manual room; detection stops; a first build always leaves a floor and a ceiling record |
| WallDebug.WallDebugger.OnExitVR | src/components/wall-debug.js:48-50 | detection stops |
| WallDebug.WallDebugger.Store | src/components/wall-debug.js:166-174 | `Map.set`: the record is stored under the id, a new id goes to the end of the insertion order and a known one keeps its place |
| WallDebug.WallDebugger.Visit | src/components/wall-debug.js:103-107 | one step of the frame loop: a plane is added iff its id is new, it has a pose and a reference space exists, and it is then stored as `processPlane` stores it |
| WallDebug.ProgressStep | src/components/wall-debug.js:103-107 | one more plane keeps the loop's progress: stored planes kept, every posed plane so far stored, each new id stored from its first posed plane |
| WallDebug.WallDebugger.ProcessPlane | src/components/wall-debug.js:110-176 | nothing without a reference space or pose; otherwise the plane is stored with its position, normal, classification and extents (2 × 2 without polygon, at least 0.5 × 0.5 otherwise), other planes unchanged, insertion order kept |
| WallDebug.WallDebugger.Tick | src/components/wall-debug.js:95-108 | nothing unless detecting with a session, before the room, with planes; stored planes are never changed or dropped; every frame plane with a pose is stored when a reference space exists; every new id is stored with the record of the first posed plane of the frame carrying it |
| WallDebug.WallDebugger.EmitReadyEvents | src/components/wall-debug.js:632-644 | one `surfaces-detected` detail of the current records is appended |
| WallDebug.WallDebugger.CreateRoomFromPlanes | src/components/wall-debug.js:178-257 | at most once: the plane records in insertion order, then the fallbacks, then the ready event |
| WallDebug.WallDebugger.CreateManualRoom | src/components/wall-debug.js:484-503 | at most once: a floor and a ceiling around the camera, then the ready event |
| WallDebug.WallDebugger.Remove | src/components/wall-debug.js:687-696 | no records and no planes remain |
| TargetBehavior.ZoneOf | src/components/target-behavior.js:304-319 | bullseye iff within the centre radius, middle, outer and edge iff only the wider rings contain the distance |
| TargetBehavior.Multiplier | src/components/target-behavior.js:304-319 | the precision multiplier is between 0.5 and 3 |
| TargetBehavior.FinalPointsByZone | src/components/target-behavior.js:307-321 | a hit scores 3×, 2×, 1× the points, or half of them rounded down at the edge |
| TargetBehavior.HalfFloor | src/components/target-behavior.js:682 | `Math.floor(p · 0.5)` is the floor of p / 2 |
| TargetBehavior.FinalPoints | src/components/target-behavior.js:304-321 | for non-negative points the score lies between 0 and three times the points |
| TargetBehavior.FinalPointsMonotone | src/components/target-behavior.js:304-321 | with nested rings, a hit nearer the centre never scores less |
| TargetBehavior.FlatCoversWalls | src/components/target-behavior.js:113-133 | the X/Z accumulation exists iff some record is a wall, and then spans every wall's half width around its centre |
| TargetBehavior.FlatAttained | src/components/target-behavior.js:113-133 | each side of the X/Z accumulation is attained: some wall's centre minus or plus its half width |
| TargetBehavior.RoomBoundsFromWalls | src/components/target-behavior.js:102-145 | without walls the X/Z range is [-4, 4]; otherwise each wall lies within the bounds widened by the 1.5 m margin, and each widened side is some wall's edge |
| TargetBehavior.RoomBounds | src/components/target-behavior.js:102-149 | the accumulated box shrunk by the 1.5 margin; a definition, whose coverage `TargetBehavior.RoomBoundsFromWalls` states |
| TargetBehavior.FloorSetsHeight | src/components/target-behavior.js:118-120 | a floor record sets the vertical range to 1..2.8 m above it |
| TargetBehavior.CeilingCapsHeight | src/components/target-behavior.js:121-122 | a ceiling record caps the top at min(y − 0.3, bottom + 2) and keeps the bottom |
| TargetBehavior.RoomBoundsDependOnOrder | src/components/target-behavior.js:117-133 | a floor before a ceiling and after it give different tops (2.2 m and 2.8 m) |
| TargetBehavior.DrawTimesSpan | src/components/target-behavior.js:93-95 | a draw in [0, 1) times a positive span stays in [0, span) |
| TargetBehavior.Waypoint | src/components/target-behavior.js:88-97 | the drawn waypoint; a definition, placed by `TargetBehavior.WaypointInsideMargin` |
| TargetBehavior.CoordinateInsideMargin | src/components/target-behavior.js:93-95 | each waypoint coordinate lies in [lo + 0.4, lo + 0.4 + span) |
| TargetBehavior.WaypointInsideMargin | src/components/target-behavior.js:88-97 | a waypoint lies 0.4 m inside the box on every axis wide enough |
| TargetBehavior.EffectiveDelta | src/components/target-behavior.js:204 | the frame time is the given delta when it is in (0, 1000] ms, otherwise 16 ms |
| TargetBehavior.BlendFactor | src/components/target-behavior.js:225-226 | the steering blend is in (0, 1] and equals 2.5 · dt below the cap |
| TargetBehavior.Steer | src/components/target-behavior.js:221-231 | the velocity blended towards the waypoint and held at the flight speed unless near zero; a definition used by `TargetBehavior.Target.UpdateFlight` |
| TargetBehavior.ClampInto | src/components/target-behavior.js:238-248 | a clamped point lies in the inner box when that is non-empty, and a point already inside is unchanged |
| TargetBehavior.KeyOf | src/components/target-behavior.js:279 | the arrow's id, else its uuid, else the element itself |
| TargetBehavior.RemoveFirstHash | src/components/target-behavior.js:706 | only the first `#` goes: a string without one is unchanged, a leading one is dropped, and one character is removed when there is any |
| TargetBehavior.DeathAnimationForSpawned | src/components/target-behavior.js:693-708 | a target spawned with `#assetId` dies with its own kind's animation |
| TargetBehavior.Target.constructor | src/components/target-behavior.js:24-44 | full hit points, no hits, no arrows, not flying, no bounds or waypoint, start delay 200 + 500 · draw ms |
| TargetBehavior.Target.OnInitTimeout | src/components/target-behavior.js:47-51 | a movable target always starts the backup interval, taking now as the last tick time unless it was already running; otherwise nothing changes |
| TargetBehavior.Target.StartBackupInterval | src/components/target-behavior.js:173-188 | the interval runs afterwards; the tick time is reset only when it was not running |
| TargetBehavior.Target.StopFlying | src/components/target-behavior.js:162-168 | not flying and no backup interval |
| TargetBehavior.Target.CalculateRoomBounds | src/components/target-behavior.js:102-149 | the bounds are the specification's fold of the records; the walls are kept when there are any |
| TargetBehavior.Target.PickNewWaypoint | src/components/target-behavior.js:88-97 | nothing without bounds, otherwise the drawn waypoint in them |
| TargetBehavior.Target.StartFlying | src/components/target-behavior.js:57-83 | nothing at all when flying or without an object; otherwise flying from flight time 0 at the same position, bounds from the wall records or the default, the wall records replaced when the frame has any, a drawn velocity and a first waypoint |
| TargetBehavior.Target.UpdateFlight | src/components/target-behavior.js:193-261 | behind the start gate nothing moves and flying starts, as `startFlying` does, once the delay is over, all flight fields kept otherwise; when not moving nothing changes; otherwise the flight time grows by dt, the target steers, repicks within 0.4 m, and clamps into the inner box, repicking when clamped; the wall records are kept while moving |
| TargetBehavior.Target.WaitOrStart | src/components/target-behavior.js:196-202 | the gated branch: nothing moves; flying starts as `startFlying` does (bounds from the wall records or the default box, velocity, waypoint) once the delay is over; otherwise every flight field is kept |
| TargetBehavior.Target.Fly | src/components/target-behavior.js:203-251 | the moving branch: flight time grows by dt; within 0.4 m of the waypoint a new one is picked; otherwise the steered step is clamped into the inner box, repicking when clamped |
| TargetBehavior.Target.Tick | src/components/target-behavior.js:154-157 | exactly the `updateFlight` step for the frame, over all flight fields |
| TargetBehavior.Target.BackupTick | src/components/target-behavior.js:179-186 | the tick time becomes now, then exactly the `updateFlight` step, over all flight fields, with the time since the last tick as delta |
| TargetBehavior.Target.Destroy | src/components/target-behavior.js:650-756 | once only: the stuck arrows are removed, one destroyed event with half the last points, the kind's death animation and a timeout 100 ms longer |
| TargetBehavior.Target.OnArrowHit | src/components/target-behavior.js:267-366 | flight stops; no impact or a credited arrow changes no hit, arrow or destruction field; a new arrow is credited once, scored by its ring, and destroys the target or has its removal delayed, as `CreditHit` states |
| TargetBehavior.Target.CreditHit | src/components/target-behavior.js:284-362 | one more hit, one hit point less, one hit event with the ring's points; alive: the arrow is kept and its removal delayed; already destroying: the arrow is kept; first destruction: all arrows removed, one destroyed event with half the final points, the death animation and the removal timeout set |
| TargetBehavior.Target.Remove | src/components/target-behavior.js:891-902 | the backup interval is cleared |
| TargetBehavior.ArrowCreditedOnce | src/components/target-behavior.js:278-291 | the same arrow hitting twice counts one hit and one event |
| TargetBehavior.FreezeIsNotDurable | src/components/target-behavior.js:162-199 | after a hit, the next update past the start delay makes the target fly again |
| ComboSystem.KillSound | src/systems/combo-system.js:55-75 | no sound below two kills; double, triple, quad at 2, 3, 4 kills and penta from 5 |
| ComboSystem.ComboSound | src/systems/combo-system.js:412-427 | double, triple, quad, penta at 2, 3, 4, 5, penta again from 7, and no sound below 2 or at 6 |
| ComboSystem.ComboMultiplier | src/systems/combo-system.js:140-144 | the multiplier is the smaller of 1 + 0.2 · combo and the cap |
| ComboSystem.ComboNeverDouble | src/systems/combo-system.js:153-156 | from a combo of 3, where sounds are attempted, the double-hit sound is never chosen |
| ComboSystem.DefaultCapReachedAt | src/systems/combo-system.js:9-10 | with the default cap of 5, the multiplier is capped exactly from a combo of 20 |
| ComboSystem.Combo.constructor | src/systems/combo-system.js:13-23 | combo 0, multiplier 1, no best combo, no kills, no milestone reached |
| ComboSystem.Combo.OnTargetHit | src/systems/combo-system.js:118-160 | a hit strictly within the timeout of an active combo adds 1 (2 for a bullseye), any other starts at 1; the best combo and the capped multiplier follow; a sound is attempted from 3 |
| ComboSystem.Combo.PlayComboSound | src/systems/combo-system.js:412-442 | the current combo's sound, if it has one, is played |
| ComboSystem.Combo.Tick | src/systems/combo-system.js:465-488 | an active combo older than the timeout resets to 0 with multiplier 1; otherwise nothing changes |
| ComboSystem.Combo.OnTargetDestroyed | src/systems/combo-system.js:46-53 | one more kill, and its milestone sound from the second kill on, keeping every milestone 2 … kills played exactly once |
| ComboSystem.Combo.PlayKillMilestoneSound | src/systems/combo-system.js:55-116 | a kill count with a sound plays it iff not reached before, and is then marked reached |
| ComboSystem.Combo.GetStats | src/systems/combo-system.js:490-496 | the current and best combo and the multiplier, with the best never below the current |
| ComboSystem.MilestoneOnce | src/systems/combo-system.js:77-78 | the same milestone played twice is recorded once and plays at most one sound |

## Left out

- Rendering and the DOM: element creation, attributes, labels, materials, A-Frame animations, particles and text. This covers `playHitAnimation`, `showHitFeedback`, `createDestroyEffect`, `showComboFeedback`, `createComboParticles`, `updateComboDisplay`, the score and timer displays, the wind visuals, the menu and scan panels, and the arrow's `animateRemoval` shrink. None of it has behaviour beyond drawing.
- Audio playback: `play()`, `currentTime` and readiness checks are foreign media calls. The model records which sound would be started, and it keeps the wind ramp's volume arithmetic. The rejection of `startWindSound`'s play promise and the retry on the next click are not modelled; `WindSystem.Wind.StartWindSound` sets the volume directly and, as in the source, leaves a pending ramp frame scheduled.
- Three.js geometry: `length`, `distanceTo`, `normalize`, `worldToLocal`, `getWorldPosition`, quaternion and Euler rotations, `lookAt`, `atan2` and the ray caster. Their results are parameters (the `Geometry` bundle, rotation functions, hit lists), because they are floating-point library code.
- The target's orientation block (`src/components/target-behavior.js:253-260`) and the game manager's facing and hit-test placement maths (`calculateSpawnFromHitTest`, `ensureFacingCamera`). They only turn or place entities with trigonometry; their outcome is a parameter of the spawn.
- `anchorTarget` in the game manager and `updateEntityFromAnchor` and `tick` in the anchor manager: these copy XR poses onto entities and have no state of their own.
- Timers and asynchrony: `setTimeout`, `setInterval`, `requestAnimationFrame` and promises are flags plus one method per firing. The interleaving of the awaited anchor request in `createAnchor` is reduced to its two outcomes. The 500 ms retries of the bow systems' `play` are further calls of their `Play` methods.
- WebXR session set-up: the hit-test and plane-detection requests of the scene-mesh handler (`src/components/scene-mesh-handler.js:47-84`, `597-621`). The model keeps only the outcome flags that later code reads.
- Dead code: `checkAndApplyBouncing` (it reads fields that are never initialised) and `setupMovement` (never called) in `target-behavior.js`; `createHitTestVisualSurface`, `createOrUpdateVisualSurface` and `updateAllSurfacesOpacity` in `scene-mesh-handler.js` (the mock surfaces are disabled and only emit an update); `createManualWalls` in `wall-debug.js`, which does nothing.
- The `remove` handlers of both wind versions, the bow draw system and the bow string: they only detach listeners, meshes and timers.
- The scene-mesh handler's `deleteAnchor` only calls the XR anchor's own `delete`. Its `updateXRPlanes` is folded into `SceneMeshHandler.Handler.Tick`, whose frame carries the plane list from either `detectedPlanes` or `worldInformation`.
- The game manager's `tick`: it only refreshes the score display.
- `src/components/bow-logic.js`, `src/components/score-hud.js`, `src/components/model-debug.js`, `src/main.js` and the build configuration are not part of this model.
- SurfaceDetector.KeyOf: a key is the triple of rounded decimetres, not the string `${x}-${y}-${z}`. The string is injective on integer triples (a '-' separator followed by a minus sign stays unambiguous, and -0 prints as "0"), so equal keys mean the same in both.
- Coordinates, distances and times are exact reals and integers. Floating-point rounding and `Infinity` sentinels are not modelled; the min/max accumulations start from the first element instead.
- GameManager.Game.SpawnRandomTarget: requires fewer active targets than `maxTargets`. Its only caller, the spawn interval (`src/systems/game-manager.js:178-184`), checks this before calling it, and `GameManager.Game.SpawnTick` models that check.
- BowDraw.DrawRatio: requires a positive `maxDrawDistance`, as do `BowDraw.ArrowSpeed` and `BowDraw.Bow.constructor`; the source divides by it.
- BowDraw.Bow.Play: requires that no draw is in progress, so that a draw always has both hands. A `play` that loses the hands in the middle of a draw is not modelled.
- WindSystem.Wind.constructor: requires the sound's initial volume to lie in [0, 1], as a media element's volume always does.
- AnchorManager.Manager.Valid: the size bound `anchors.size ≤ maxAnchors` is kept only for `maxAnchors ≥ 1`. With a capacity of 0 the source itself overflows (`AnchorManager.ZeroCapacityOverflows`).
- BowString.Str.Tick: the `drawDistance || 0` fallback is the reported distance itself, since the model's distance is never undefined.
