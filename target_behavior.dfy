/**
 * A flying target (`target-behavior` component): per-arrow hit
 * de-duplication, hit points, zone scoring and the once-only destruction,
 * plus the flight model — room bounds derived from the wall records,
 * waypoint picking and a steering step clamped into the room.
 */
module TargetBehavior {
  import opened Common
  import TargetTypes
  import WallDebug

  // ---------------------------------------------------------------------
  // Zone scoring
  // ---------------------------------------------------------------------

  datatype Zone = Bullseye | Middle | Outer | Edge

  /** The schema radii of the scoring rings. */
  datatype Radii = Radii(center: real, middle: real, outer: real)

  const DefaultRadii: Radii := Radii(0.1, 0.3, 0.5)

  /** The ring an impact at `d` from the centre falls in, innermost ring first. */
  function ZoneOf(d: real, r: Radii): (z: Zone)
    ensures z == Bullseye <==> d <= r.center
    ensures z == Middle <==> r.center < d <= r.middle
    ensures z == Outer <==> r.center < d && r.middle < d <= r.outer
    ensures z == Edge <==> r.center < d && r.middle < d && r.outer < d
  {
    if d <= r.center then Bullseye
    else if d <= r.middle then Middle
    else if d <= r.outer then Outer
    else Edge
  }

  function Multiplier(z: Zone): (m: real)
    ensures 0.5 <= m <= 3.0
  {
    match z
    case Bullseye => 3.0
    case Middle => 2.0
    case Outer => 1.0
    case Edge => 0.5
  }

  /** `Math.floor(points · multiplier)`. */
  function FinalPoints(points: int, z: Zone): (r: int)
    ensures points >= 0 ==> 0 <= r <= 3 * points
  {
    JsFloor(points as real * Multiplier(z))
  }

  /** In integer terms: 3p, 2p, p and ⌊p/2⌋. */
  lemma FinalPointsByZone(points: int)
    ensures FinalPoints(points, Bullseye) == 3 * points
    ensures FinalPoints(points, Middle) == 2 * points
    ensures FinalPoints(points, Outer) == points
    ensures FinalPoints(points, Edge) == points / 2
  {
    HalfFloor(points);
  }

  /** `Math.floor(p · 0.5)` is the Euclidean half, which for a divisor 2 is the floor. */
  lemma HalfFloor(p: int)
    ensures JsFloor(p as real * 0.5) == p / 2
  {
    var q := p / 2;
    assert p == 2 * q + p % 2;
    assert q as real <= p as real * 0.5 < q as real + 1.0;
  }

  /** More central rings never score less, for non-negative base points. */
  lemma FinalPointsMonotone(points: nat, d1: real, d2: real, r: Radii)
    requires d1 <= d2 && r.center <= r.middle <= r.outer
    ensures FinalPoints(points, ZoneOf(d2, r)) <= FinalPoints(points, ZoneOf(d1, r))
  {
    FinalPointsByZone(points);
  }

  // ---------------------------------------------------------------------
  // Room bounds
  // ---------------------------------------------------------------------

  datatype Box = Box(minX: real, maxX: real, minY: real, maxY: real, minZ: real, maxZ: real)

  /** The box used without wall records: X, Z in [-4, 4] and Y in [1.0, 2.8]. */
  const DefaultBox: Box := Box(-4.0, 4.0, 1.0, 2.8, -4.0, 4.0)

  /** The horizontal running min/max; `None` while they are still ±Infinity. */
  datatype Flat = Flat(minX: real, maxX: real, minZ: real, maxZ: real)

  /** The state of the `wallData.forEach` accumulation. */
  datatype BoundsAcc = BoundsAcc(flat: Option<Flat>, minY: real, maxY: real)

  const StartAcc: BoundsAcc := BoundsAcc(None, 1.0, 2.8)

  /** `(wall.width || 2) / 2`: a zero width counts as 2. */
  function HalfWidth(w: WallDebug.WallRecord): real
  {
    (if w.width == 0.0 then 2.0 else w.width) / 2.0
  }

  predicate IsWallRecord(w: WallDebug.WallRecord)
  {
    !w.isFloor && !w.isCeiling
  }

  /** One record: a floor resets the Y range, a ceiling caps it, a wall widens X and Z. */
  function AccStep(acc: BoundsAcc, w: WallDebug.WallRecord): BoundsAcc
  {
    if w.isFloor then BoundsAcc(acc.flat, w.position.y + 1.0, w.position.y + 2.8)
    else if w.isCeiling then BoundsAcc(acc.flat, acc.minY, Min(w.position.y - 0.3, acc.minY + 2.0))
    else
      var p := w.position;
      var h := HalfWidth(w);
      var f := match acc.flat
        case None => Flat(p.x - h, p.x + h, p.z - h, p.z + h)
        case Some(f) => Flat(Min(f.minX, p.x - h), Max(f.maxX, p.x + h), Min(f.minZ, p.z - h), Max(f.maxZ, p.z + h));
      BoundsAcc(Some(f), acc.minY, acc.maxY)
  }

  /** The accumulation over the records, in array order. */
  function AccOf(walls: seq<WallDebug.WallRecord>): BoundsAcc
  {
    if |walls| == 0 then StartAcc else AccStep(AccOf(walls[..|walls| - 1]), walls[|walls| - 1])
  }

  /** `calculateRoomBounds`: the accumulated box shrunk by the 1.5 margin, defaults where no wall was seen. */
  function RoomBounds(walls: seq<WallDebug.WallRecord>): Box
  {
    if |walls| == 0 then DefaultBox
    else
      var acc := AccOf(walls);
      match acc.flat
      case None => Box(-4.0, 4.0, acc.minY, acc.maxY, -4.0, 4.0)
      case Some(f) => Box(f.minX + 1.5, f.maxX - 1.5, acc.minY, acc.maxY, f.minZ + 1.5, f.maxZ - 1.5)
  }

  /**
   * The horizontal extent is seen iff some record is a wall, and it then
   * covers every wall's ±half-width around its centre.
   */
  lemma {:induction false} FlatCoversWalls(walls: seq<WallDebug.WallRecord>)
    ensures AccOf(walls).flat.None? <==> forall k :: 0 <= k < |walls| ==> !IsWallRecord(walls[k])
    ensures AccOf(walls).flat.Some? ==>
              var f := AccOf(walls).flat.value;
              forall k :: 0 <= k < |walls| && IsWallRecord(walls[k]) ==>
                f.minX <= walls[k].position.x - HalfWidth(walls[k]) && walls[k].position.x + HalfWidth(walls[k]) <= f.maxX
                && f.minZ <= walls[k].position.z - HalfWidth(walls[k]) && walls[k].position.z + HalfWidth(walls[k]) <= f.maxZ
  {
    if |walls| > 0 {
      var prefix := walls[..|walls| - 1];
      FlatCoversWalls(prefix);
      assert forall k :: 0 <= k < |prefix| ==> prefix[k] == walls[k];
    }
  }

  /** A wall's low and high edge along X (`onX`) or Z. */
  function WallLo(w: WallDebug.WallRecord, onX: bool): real
  {
    (if onX then w.position.x else w.position.z) - HalfWidth(w)
  }

  function WallHi(w: WallDebug.WallRecord, onX: bool): real
  {
    (if onX then w.position.x else w.position.z) + HalfWidth(w)
  }

  /** Some wall record of the list has its low (high) edge exactly at v. */
  predicate LoAttained(walls: seq<WallDebug.WallRecord>, v: real, onX: bool)
  {
    exists k :: 0 <= k < |walls| && IsWallRecord(walls[k]) && WallLo(walls[k], onX) == v
  }

  predicate HiAttained(walls: seq<WallDebug.WallRecord>, v: real, onX: bool)
  {
    exists k :: 0 <= k < |walls| && IsWallRecord(walls[k]) && WallHi(walls[k], onX) == v
  }

  /** The accumulated extent is attained: each of its four sides is the edge of some wall. */
  lemma {:induction false} FlatAttained(walls: seq<WallDebug.WallRecord>, onX: bool)
    ensures AccOf(walls).flat.Some? ==>
              var f := AccOf(walls).flat.value;
              LoAttained(walls, if onX then f.minX else f.minZ, onX)
              && HiAttained(walls, if onX then f.maxX else f.maxZ, onX)
  {
    if |walls| > 0 {
      var n := |walls| - 1;
      var prefix, w := walls[..n], walls[n];
      FlatAttained(prefix, onX);
      assert forall k :: 0 <= k < n ==> prefix[k] == walls[k];
      var before := AccOf(prefix).flat;
      if IsWallRecord(w) {
        var f := AccOf(walls).flat.value;
        var lo, hi := if onX then f.minX else f.minZ, if onX then f.maxX else f.maxZ;
        if before.None? || lo == WallLo(w, onX) {
          assert IsWallRecord(walls[n]) && WallLo(walls[n], onX) == lo;
        } else {
          var b := before.value;
          assert lo == if onX then b.minX else b.minZ;
          var k :| 0 <= k < |prefix| && IsWallRecord(prefix[k]) && WallLo(prefix[k], onX) == lo;
          assert IsWallRecord(walls[k]) && WallLo(walls[k], onX) == lo;
        }
        if before.None? || hi == WallHi(w, onX) {
          assert IsWallRecord(walls[n]) && WallHi(walls[n], onX) == hi;
        } else {
          var b := before.value;
          assert hi == if onX then b.maxX else b.maxZ;
          var k :| 0 <= k < |prefix| && IsWallRecord(prefix[k]) && WallHi(prefix[k], onX) == hi;
          assert IsWallRecord(walls[k]) && WallHi(walls[k], onX) == hi;
        }
      } else if before.Some? {
        var b := before.value;
        var k :| 0 <= k < |prefix| && IsWallRecord(prefix[k]) && WallLo(prefix[k], onX) == (if onX then b.minX else b.minZ);
        assert IsWallRecord(walls[k]);
        var j :| 0 <= j < |prefix| && IsWallRecord(prefix[j]) && WallHi(prefix[j], onX) == (if onX then b.maxX else b.maxZ);
        assert IsWallRecord(walls[j]);
      }
    }
  }

  /**
   * Hence: without any wall record the X/Z range is the default [-4, 4];
   * with one, each side of the room box is the outermost wall edge on that
   * side moved 1.5 m inwards: every wall lies within the box widened by
   * the margin, and some wall touches each side of it.
   */
  lemma RoomBoundsFromWalls(walls: seq<WallDebug.WallRecord>)
    ensures (forall k :: 0 <= k < |walls| ==> !IsWallRecord(walls[k])) ==>
              var b := RoomBounds(walls); b.minX == -4.0 && b.maxX == 4.0 && b.minZ == -4.0 && b.maxZ == 4.0
    ensures forall k :: 0 <= k < |walls| && IsWallRecord(walls[k]) ==>
              var b := RoomBounds(walls);
              b.minX - 1.5 <= walls[k].position.x - HalfWidth(walls[k]) && walls[k].position.x + HalfWidth(walls[k]) <= b.maxX + 1.5
              && b.minZ - 1.5 <= walls[k].position.z - HalfWidth(walls[k]) && walls[k].position.z + HalfWidth(walls[k]) <= b.maxZ + 1.5
    ensures (exists k :: 0 <= k < |walls| && IsWallRecord(walls[k])) ==>
              var b := RoomBounds(walls);
              LoAttained(walls, b.minX - 1.5, true) && HiAttained(walls, b.maxX + 1.5, true)
              && LoAttained(walls, b.minZ - 1.5, false) && HiAttained(walls, b.maxZ + 1.5, false)
  {
    FlatCoversWalls(walls);
    FlatAttained(walls, true);
    FlatAttained(walls, false);
  }

  /** A floor record sets the vertical range to 1..2.8 m above it, whatever came before. */
  lemma FloorSetsHeight(walls: seq<WallDebug.WallRecord>, floor: WallDebug.WallRecord)
    requires floor.isFloor
    ensures RoomBounds(walls + [floor]).minY == floor.position.y + 1.0
    ensures RoomBounds(walls + [floor]).maxY == floor.position.y + 2.8
  {
    assert (walls + [floor])[..|walls + [floor]| - 1] == walls;
  }

  /** A ceiling record caps maxY at min(y − 0.3, minY-so-far + 2) and keeps minY. */
  lemma CeilingCapsHeight(walls: seq<WallDebug.WallRecord>, ceiling: WallDebug.WallRecord)
    requires ceiling.isCeiling && !ceiling.isFloor
    ensures RoomBounds(walls + [ceiling]).maxY == Min(ceiling.position.y - 0.3, AccOf(walls).minY + 2.0)
    ensures RoomBounds(walls + [ceiling]).minY == AccOf(walls).minY
  {
    assert (walls + [ceiling])[..|walls + [ceiling]| - 1] == walls;
  }

  /** Record order matters: a floor at 0 and a ceiling at 2.5 give maxY 2.2 in one order and 2.8 in the other. */
  lemma RoomBoundsDependOnOrder()
    ensures var floor := WallDebug.WallRecord("SOL", Vec3(0.0, 0.0, 0.0), Vec3(0.0, 1.0, 0.0), 2.0, 2.0, true, false, true);
            var ceiling := WallDebug.WallRecord("PLAFOND", Vec3(0.0, 2.5, 0.0), Vec3(0.0, -1.0, 0.0), 2.0, 2.0, false, true, true);
            RoomBounds([floor, ceiling]).maxY == 2.2 && RoomBounds([ceiling, floor]).maxY == 2.8
  {
    var floor := WallDebug.WallRecord("SOL", Vec3(0.0, 0.0, 0.0), Vec3(0.0, 1.0, 0.0), 2.0, 2.0, true, false, true);
    var ceiling := WallDebug.WallRecord("PLAFOND", Vec3(0.0, 2.5, 0.0), Vec3(0.0, -1.0, 0.0), 2.0, 2.0, false, true, true);
    CeilingCapsHeight([floor], ceiling);
    assert [floor] + [ceiling] == [floor, ceiling];
    FloorSetsHeight([ceiling], floor);
    assert [ceiling] + [floor] == [ceiling, floor];
  }

  // ---------------------------------------------------------------------
  // Waypoints and the flight step
  // ---------------------------------------------------------------------

  /** One coordinate of `pickNewWaypoint`: `lo + 0.4 + r · span`, with span = hi − lo − 0.8. */
  function WaypointCoordinate(lo: real, span: real, r: real): real
  {
    lo + 0.4 + r * span
  }

  /** `pickNewWaypoint` for a box and three draws. */
  function Waypoint(b: Box, rx: real, ry: real, rz: real): Vec3
  {
    Vec3(WaypointCoordinate(b.minX, b.maxX - b.minX - 0.8, rx),
         WaypointCoordinate(b.minY, b.maxY - b.minY - 0.8, ry),
         WaypointCoordinate(b.minZ, b.maxZ - b.minZ - 0.8, rz))
  }

  lemma DrawTimesSpan(r: real, s: real)
    requires IsDraw(r) && s > 0.0
    ensures 0.0 <= r * s < s
  {
    assert (1.0 - r) * s > 0.0;
  }

  lemma CoordinateInsideMargin(lo: real, span: real, r: real)
    requires IsDraw(r) && span > 0.0
    ensures lo + 0.4 <= WaypointCoordinate(lo, span, r) < lo + 0.4 + span
  {
    DrawTimesSpan(r, span);
  }

  /** Each coordinate lies in [min + 0.4, max − 0.4) wherever that interval is non-empty. */
  lemma WaypointInsideMargin(b: Box, rx: real, ry: real, rz: real)
    requires IsDraw(rx) && IsDraw(ry) && IsDraw(rz)
    ensures var w := Waypoint(b, rx, ry, rz);
            (b.maxX - b.minX > 0.8 ==> b.minX + 0.4 <= w.x < b.maxX - 0.4)
            && (b.maxY - b.minY > 0.8 ==> b.minY + 0.4 <= w.y < b.maxY - 0.4)
            && (b.maxZ - b.minZ > 0.8 ==> b.minZ + 0.4 <= w.z < b.maxZ - 0.4)
  {
    if b.maxX - b.minX > 0.8 { CoordinateInsideMargin(b.minX, b.maxX - b.minX - 0.8, rx); }
    if b.maxY - b.minY > 0.8 { CoordinateInsideMargin(b.minY, b.maxY - b.minY - 0.8, ry); }
    if b.maxZ - b.minZ > 0.8 { CoordinateInsideMargin(b.minZ, b.maxZ - b.minZ - 0.8, rz); }
  }

  /** The frame time used: a missing, non-positive or over-1000 ms delta becomes 16 ms. */
  function EffectiveDelta(deltaTime: Option<real>): (r: real)
    ensures 0.0 < r <= 1000.0
    ensures deltaTime.Some? && 0.0 < deltaTime.value <= 1000.0 ==> r == deltaTime.value
    ensures deltaTime.None? || deltaTime.value <= 0.0 || deltaTime.value > 1000.0 ==> r == 16.0
  {
    if deltaTime.None? || deltaTime.value <= 0.0 || deltaTime.value > 1000.0 then 16.0 else deltaTime.value
  }

  /** The steering blend factor `min(1, 2.5 · dt)`. */
  function BlendFactor(dt: real): (f: real)
    requires dt > 0.0
    ensures 0.0 < f <= 1.0
    ensures dt <= 0.4 ==> f == 2.5 * dt
  {
    Min(1.0, 2.5 * dt)
  }

  /** The velocity after one step: blended toward the waypoint, then held at `speed` unless near zero. */
  function Steer(v: Vec3, toWaypoint: Vec3, speed: real, dt: real, geo: Geometry): Vec3
    requires dt > 0.0
  {
    var blended := Lerp(v, Scale(geo.normalize(toWaypoint), speed), BlendFactor(dt));
    if LengthSq(blended) > 0.001 then Scale(geo.normalize(blended), speed) else blended
  }

  /** The inner box, 0.3 inside the room bounds. */
  predicate Inside(b: Box, p: Vec3)
  {
    b.minX + 0.3 <= p.x <= b.maxX - 0.3 && b.minY + 0.3 <= p.y <= b.maxY - 0.3 && b.minZ + 0.3 <= p.z <= b.maxZ - 0.3
  }

  predicate InnerNonEmpty(b: Box)
  {
    b.minX + 0.3 <= b.maxX - 0.3 && b.minY + 0.3 <= b.maxY - 0.3 && b.minZ + 0.3 <= b.maxZ - 0.3
  }

  /** The `Math.max(min + m, Math.min(max − m, v))` clamp applied to each coordinate. */
  function ClampInto(b: Box, p: Vec3): (q: Vec3)
    ensures InnerNonEmpty(b) ==> Inside(b, q)
    ensures Inside(b, p) ==> q == p
  {
    Vec3(Clamp(p.x, b.minX + 0.3, b.maxX - 0.3), Clamp(p.y, b.minY + 0.3, b.maxY - 0.3), Clamp(p.z, b.minZ + 0.3, b.maxZ - 0.3))
  }

  /** The browser inputs of one flight update: the drawn heading, vertical draw and waypoint draws. */
  datatype FlightDraws = FlightDraws(cosAngle: real, sinAngle: real, vy: real, wx: real, wy: real, wz: real)

  // ---------------------------------------------------------------------
  // Hits
  // ---------------------------------------------------------------------

  /** An arrow element: its `id`, its `uuid` and its object identity. */
  datatype ArrowRef = ArrowRef(elementId: string, uuid: string, identity: nat)

  /** The de-duplication key `arrowEl.id || arrowEl.uuid || arrowEl`. */
  datatype ArrowKey = Text(s: string) | Element(identity: nat)

  function KeyOf(a: ArrowRef): (k: ArrowKey)
    ensures a.elementId != "" ==> k == Text(a.elementId)
    ensures a.elementId == "" && a.uuid != "" ==> k == Text(a.uuid)
    ensures a.elementId == "" && a.uuid == "" ==> k == Element(a.identity)
  {
    if a.elementId != "" then Text(a.elementId) else if a.uuid != "" then Text(a.uuid) else Element(a.identity)
  }

  /** The `target-hit` detail (the position field is left out). */
  datatype HitEvent = HitEvent(points: int, zone: Zone, multiplier: real, distanceToCenter: real, surfaceType: string)

  /** The `target-destroyed` detail (the element id is left out). */
  datatype DestroyedEvent = DestroyedEvent(points: int, totalHits: nat, bonusPoints: int, surfaceType: string)

  /** `glbModelAttr.replace('#', '')`: only the first `#` is removed. */
  function RemoveFirstHash(s: string): (r: string)
    ensures '#' !in s ==> r == s
    ensures |s| > 0 && s[0] == '#' ==> r == s[1..]
    ensures '#' in s ==> |r| == |s| - 1
  {
    if |s| == 0 then s
    else if s[0] == '#' then s[1..]
    else [s[0]] + RemoveFirstHash(s[1..])
  }

  /** The death animation `destroy` uses for the child's `gltf-model` attribute (none or empty: the default). */
  function DeathAnimationFor(gltfModel: Option<string>): TargetTypes.DeathAnimation
  {
    if gltfModel.None? || gltfModel.value == "" then TargetTypes.DefaultDeathAnimation
    else TargetTypes.DeathAnimationOf(TargetTypes.ByAssetId(RemoveFirstHash(gltfModel.value)))
  }

  /** Spawned targets reference `#assetId`, so each kind dies with its own animation. */
  lemma DeathAnimationForSpawned(j: nat)
    requires j < |TargetTypes.Types|
    ensures DeathAnimationFor(Some("#" + TargetTypes.Types[j].assetId)) == TargetTypes.Types[j].deathAnimation
  {
    assert ("#" + TargetTypes.Types[j].assetId)[1..] == TargetTypes.Types[j].assetId;
    TargetTypes.DeathAnimationByKnownAsset(j);
  }

  /** The component's state. */
  class Target {
    const points: int
    const hp: int
    const movable: bool
    const flySpeed: real
    const radii: Radii
    const surfaceType: string
    /** `200 + Math.random() · 500` ms, drawn at init. */
    const flyStartDelay: real
    /** `Date.now()` at init. */
    const initTime: int

    var currentHp: int
    var hitCount: nat
    var hitByArrows: set<ArrowKey>
    var arrowElements: seq<ArrowRef>

    var isFlying: bool
    var flightTime: real
    var roomBounds: Option<Box>
    var wallsData: seq<WallDebug.WallRecord>
    var lastTickTime: int
    /** Whether the backup `setInterval` is running. */
    var tickInterval: bool
    var velocity: Vec3
    var waypoint: Option<Vec3>
    /** `object3D.position`. */
    var position: Vec3
    /** Whether the entity has an `object3D` yet. */
    var hasObject3D: bool

    var isDestroying: bool
    /** Emitted events and scheduled effects, in order. */
    var hitEvents: seq<HitEvent>
    var destroyedEvents: seq<DestroyedEvent>
    /** Arrows removed at once by `destroy`. */
    var removedArrows: seq<ArrowRef>
    /** Arrows whose 2 s removal timer was set by a non-lethal hit. */
    var delayedArrowRemovals: seq<ArrowRef>
    /** The death animation applied and the length of its safety removal timeout. */
    var deathAnimation: Option<TargetTypes.DeathAnimation>
    var removalTimeout: Option<int>

    ghost predicate Valid()
      reads this`hitCount, this`hitByArrows, this`currentHp, this`hitEvents, this`destroyedEvents, this`isDestroying
    {
      hitCount == |hitByArrows| && currentHp == hp - hitCount && |hitEvents| == hitCount
      && |destroyedEvents| <= 1 && (isDestroying <==> |destroyedEvents| == 1)
    }

    /** `init`, with the delay draw and the clock passed in. */
    constructor (points: int, hp: int, movable: bool, flySpeed: real, radii: Radii, surfaceType: string,
                 delayDraw: real, now: int, position: Vec3)
      ensures Valid() && this.points == points && this.hp == hp && this.movable == movable
      ensures this.flySpeed == flySpeed && this.radii == radii && this.surfaceType == surfaceType
      ensures flyStartDelay == 200.0 + delayDraw * 500.0 && initTime == now && lastTickTime == now
      ensures currentHp == hp && hitCount == 0 && hitByArrows == {} && arrowElements == []
      ensures !isFlying && flightTime == 0.0 && roomBounds.None? && waypoint.None? && !tickInterval
      ensures velocity == Zero && this.position == position && !isDestroying
    {
      this.points := points;
      this.hp := hp;
      this.movable := movable;
      this.flySpeed := flySpeed;
      this.radii := radii;
      this.surfaceType := surfaceType;
      flyStartDelay := 200.0 + delayDraw * 500.0;
      initTime := now;
      currentHp := hp;
      hitCount := 0;
      hitByArrows := {};
      arrowElements := [];
      isFlying := false;
      flightTime := 0.0;
      roomBounds := None;
      wallsData := [];
      lastTickTime := now;
      tickInterval := false;
      velocity := Zero;
      waypoint := None;
      this.position := position;
      hasObject3D := true;
      isDestroying := false;
      hitEvents := [];
      destroyedEvents := [];
      removedArrows := [];
      delayedArrowRemovals := [];
      deathAnimation := None;
      removalTimeout := None;
    }

    /**
     * The 2 s init timer.  `tickLogged` is never assigned, so a movable
     * target always starts the backup interval, alongside `tick`.
     */
    method OnInitTimeout(now: int)
      modifies this`tickInterval, this`lastTickTime
      ensures movable ==> tickInterval && lastTickTime == (if old(tickInterval) then old(lastTickTime) else now)
      ensures !movable ==> tickInterval == old(tickInterval) && lastTickTime == old(lastTickTime)
    {
      if movable {
        StartBackupInterval(now);
      }
    }

    /** `startBackupInterval`: does nothing when already running. */
    method StartBackupInterval(now: int)
      modifies this`tickInterval, this`lastTickTime
      ensures tickInterval
      ensures old(tickInterval) ==> lastTickTime == old(lastTickTime)
      ensures !old(tickInterval) ==> lastTickTime == now
    {
      if tickInterval {
        return;
      }
      lastTickTime := now;
      tickInterval := true;
    }

    /** `stopFlying`: only clears the flag and the backup interval; `initTime` stays set. */
    method StopFlying()
      modifies this`isFlying, this`tickInterval
      ensures !isFlying && !tickInterval
    {
      isFlying := false;
      tickInterval := false;
    }

    /** `calculateRoomBounds`: the `forEach` accumulation over the records. */
    method CalculateRoomBounds(walls: seq<WallDebug.WallRecord>)
      modifies this`roomBounds, this`wallsData
      ensures roomBounds == Some(RoomBounds(walls))
      ensures wallsData == if |walls| == 0 then old(wallsData) else walls
    {
      if |walls| == 0 {
        roomBounds := Some(DefaultBox);
        return;
      }
      var acc := StartAcc;
      var i := 0;
      while i < |walls|
        invariant 0 <= i <= |walls|
        invariant acc == AccOf(walls[..i])
      {
        assert walls[..i + 1][..i] == walls[..i];
        var w := walls[i];
        if w.isFloor {
          acc := acc.(minY := w.position.y + 1.0, maxY := w.position.y + 2.8);
        } else if w.isCeiling {
          acc := acc.(maxY := Min(w.position.y - 0.3, acc.minY + 2.0));
        } else {
          var h := HalfWidth(w);
          var p := w.position;
          var f := match acc.flat
            case None => Flat(p.x - h, p.x + h, p.z - h, p.z + h)
            case Some(f) => Flat(Min(f.minX, p.x - h), Max(f.maxX, p.x + h), Min(f.minZ, p.z - h), Max(f.maxZ, p.z + h));
          acc := acc.(flat := Some(f));
        }
        i := i + 1;
      }
      assert walls[..i] == walls;
      match acc.flat {
        case None => roomBounds := Some(Box(-4.0, 4.0, acc.minY, acc.maxY, -4.0, 4.0));
        case Some(f) => roomBounds := Some(Box(f.minX + 1.5, f.maxX - 1.5, acc.minY, acc.maxY, f.minZ + 1.5, f.maxZ - 1.5));
      }
      wallsData := walls;
    }

    /** `pickNewWaypoint`: nothing without bounds. */
    method PickNewWaypoint(d: FlightDraws)
      modifies this`waypoint
      ensures roomBounds.None? ==> waypoint == old(waypoint)
      ensures roomBounds.Some? ==> waypoint == Some(Waypoint(roomBounds.value, d.wx, d.wy, d.wz))
    {
      if roomBounds.None? {
        return;
      }
      waypoint := Some(Waypoint(roomBounds.value, d.wx, d.wy, d.wz));
    }

    /** None of the flight fields has changed. */
    twostate predicate FlightUnchanged()
      reads this
    {
      isFlying == old(isFlying) && flightTime == old(flightTime) && roomBounds == old(roomBounds)
      && wallsData == old(wallsData) && velocity == old(velocity) && waypoint == old(waypoint)
      && position == old(position)
    }

    /**
     * What `startFlying` leaves: flying from time 0, the bounds (and, when
     * there are any, the records) of the `wall-debug` component or the
     * default box, the drawn velocity and a first waypoint; the position is kept.
     */
    twostate predicate Started(wallDebug: Option<seq<WallDebug.WallRecord>>, d: FlightDraws)
      reads this
    {
      isFlying && flightTime == 0.0 && position == old(position)
      && roomBounds == Some(if wallDebug.None? then DefaultBox else RoomBounds(wallDebug.value))
      && wallsData == (if wallDebug.None? || |wallDebug.value| == 0 then old(wallsData) else wallDebug.value)
      && velocity == Vec3(d.cosAngle * flySpeed, (d.vy - 0.5) * flySpeed * 0.3, d.sinAngle * flySpeed)
      && waypoint == Some(Waypoint(roomBounds.value, d.wx, d.wy, d.wz))
    }

    /**
     * `startFlying`: with the wall records of the `wall-debug` component
     * when there is one, a drawn initial velocity and a first waypoint.
     */
    method StartFlying(wallDebug: Option<seq<WallDebug.WallRecord>>, d: FlightDraws)
      modifies this`isFlying, this`flightTime, this`roomBounds, this`wallsData, this`velocity, this`waypoint
      ensures old(isFlying) || !hasObject3D ==> FlightUnchanged()
      ensures !old(isFlying) && hasObject3D ==> Started(wallDebug, d)
    {
      if isFlying || !hasObject3D {
        return;
      }
      match wallDebug {
        case Some(walls) => CalculateRoomBounds(walls);
        case None => roomBounds := Some(DefaultBox);
      }
      velocity := Vec3(d.cosAngle * flySpeed, (d.vy - 0.5) * flySpeed * 0.3, d.sinAngle * flySpeed);
      PickNewWaypoint(d);
      isFlying := true;
      flightTime := 0.0;
    }

    /** The start-delay gate: movable, not flying, and `initTime` set. */
    predicate Gated()
      reads this`isFlying
    {
      movable && !isFlying && initTime != 0
    }

    /** The moving state: flying with a waypoint and bounds. */
    predicate Moving()
      reads this`isFlying, this`waypoint, this`roomBounds
    {
      isFlying && waypoint.Some? && roomBounds.Some?
    }

    /** Behind the start-delay gate: nothing moves, and flight (re)starts once the delay has elapsed. */
    twostate predicate GateStep(now: int, wallDebug: Option<seq<WallDebug.WallRecord>>, d: FlightDraws)
      reads this
    {
      if (now - initTime) as real >= flyStartDelay && hasObject3D then Started(wallDebug, d)
      else FlightUnchanged()
    }

    /**
     * In flight: the flight time grows by dt; within 0.4 of the waypoint a
     * new one is picked without moving; otherwise the velocity is steered,
     * the position advanced and clamped into the inner box, and the
     * waypoint repicked whenever the clamp was needed.
     */
    twostate predicate MoveStep(deltaTime: Option<real>, d: FlightDraws, geo: Geometry)
      requires old(Moving())
      reads this
    {
      var dt := EffectiveDelta(deltaTime) / 1000.0;
      var b := old(roomBounds).value;
      var toWaypoint := Sub(old(waypoint).value, old(position));
      isFlying && roomBounds == old(roomBounds) && wallsData == old(wallsData) && flightTime == old(flightTime) + dt
      && (geo.length(toWaypoint) < 0.4 ==>
            position == old(position) && velocity == old(velocity) && waypoint == Some(Waypoint(b, d.wx, d.wy, d.wz)))
      && (geo.length(toWaypoint) >= 0.4 ==>
            var v := Steer(old(velocity), toWaypoint, flySpeed, dt, geo);
            var raw := Add(old(position), Scale(v, dt));
            velocity == v && position == ClampInto(b, raw)
            && (InnerNonEmpty(b) ==> Inside(b, position))
            && waypoint == if Inside(b, raw) then old(waypoint) else Some(Waypoint(b, d.wx, d.wy, d.wz)))
    }

    /** One step of `updateFlight`: the gate, nothing without a flight, or the flight step. */
    twostate predicate FlightStep(now: int, deltaTime: Option<real>, wallDebug: Option<seq<WallDebug.WallRecord>>,
                                  d: FlightDraws, geo: Geometry)
      reads this
    {
      (old(Gated()) ==> GateStep(now, wallDebug, d))
      && (!old(Gated()) && !old(Moving()) ==> FlightUnchanged())
      && (!old(Gated()) && old(Moving()) ==> MoveStep(deltaTime, d, geo))
    }

    /** `updateFlight`, shared by `tick` and the backup interval. */
    method UpdateFlight(now: int, deltaTime: Option<real>, wallDebug: Option<seq<WallDebug.WallRecord>>,
                        d: FlightDraws, geo: Geometry)
      modifies this`isFlying, this`flightTime, this`roomBounds, this`wallsData, this`velocity, this`waypoint, this`position
      ensures FlightStep(now, deltaTime, wallDebug, d, geo)
    {
      if movable && !isFlying && initTime != 0 {
        WaitOrStart(now, wallDebug, d);
      } else if isFlying && waypoint.Some? && roomBounds.Some? {
        Fly(deltaTime, d, geo);
      }
    }

    /** The gated branch of `updateFlight`. */
    method WaitOrStart(now: int, wallDebug: Option<seq<WallDebug.WallRecord>>, d: FlightDraws)
      requires Gated()
      modifies this`isFlying, this`flightTime, this`roomBounds, this`wallsData, this`velocity, this`waypoint, this`position
      ensures GateStep(now, wallDebug, d)
    {
      if (now - initTime) as real >= flyStartDelay {
        StartFlying(wallDebug, d);
      }
    }

    /** The flight branch of `updateFlight`. */
    method Fly(deltaTime: Option<real>, d: FlightDraws, geo: Geometry)
      requires Moving()
      modifies this`flightTime, this`velocity, this`waypoint, this`position
      ensures MoveStep(deltaTime, d, geo)
    {
      var dt := EffectiveDelta(deltaTime) / 1000.0;
      flightTime := flightTime + dt;
      var toWaypoint := Sub(waypoint.value, position);
      if geo.length(toWaypoint) < 0.4 {
        PickNewWaypoint(d);
        return;
      }
      velocity := Lerp(velocity, Scale(geo.normalize(toWaypoint), flySpeed), BlendFactor(dt));
      if LengthSq(velocity) > 0.001 {
        velocity := Scale(geo.normalize(velocity), flySpeed);
      }
      var next := Add(position, Scale(velocity, dt));
      var b := roomBounds.value;
      if !Inside(b, next) {
        next := ClampInto(b, next);
        PickNewWaypoint(d);
      }
      position := next;
    }

    /** `tick`: delegates to `updateFlight`. */
    method Tick(now: int, deltaTime: Option<real>, wallDebug: Option<seq<WallDebug.WallRecord>>, d: FlightDraws, geo: Geometry)
      modifies this`isFlying, this`flightTime, this`roomBounds, this`wallsData, this`velocity, this`waypoint, this`position
      ensures FlightStep(now, deltaTime, wallDebug, d, geo)
    {
      UpdateFlight(now, deltaTime, wallDebug, d, geo);
    }

    /** One firing of the backup interval: the delta since the previous firing, then `updateFlight`. */
    method BackupTick(now: int, wallDebug: Option<seq<WallDebug.WallRecord>>, d: FlightDraws, geo: Geometry)
      requires tickInterval
      modifies this`isFlying, this`flightTime, this`roomBounds, this`wallsData, this`velocity, this`waypoint, this`position,
               this`lastTickTime
      ensures lastTickTime == now
      ensures FlightStep(now, Some((now - old(lastTickTime)) as real), wallDebug, d, geo)
    {
      var delta := now - lastTickTime;
      lastTickTime := now;
      UpdateFlight(now, Some(delta as real), wallDebug, d, geo);
    }

    /**
     * `destroy`: once only.  Removes the arrows stuck in the target,
     * reports the base points, hit count and half the last hit's points,
     * and applies the kind's death animation with a safety timeout 100 ms
     * longer than it.
     */
    method Destroy(lastPoints: int, gltfModel: Option<string>)
      requires Valid()
      modifies this`isDestroying, this`arrowElements, this`removedArrows, this`destroyedEvents,
               this`deathAnimation, this`removalTimeout
      ensures Valid() && isDestroying
      ensures old(isDestroying) ==>
                arrowElements == old(arrowElements) && removedArrows == old(removedArrows)
                && destroyedEvents == old(destroyedEvents) && deathAnimation == old(deathAnimation)
                && removalTimeout == old(removalTimeout)
      ensures !old(isDestroying) ==>
                arrowElements == [] && removedArrows == old(removedArrows) + old(arrowElements)
                && destroyedEvents == [DestroyedEvent(points, hitCount, lastPoints / 2, surfaceType)]
                && deathAnimation == Some(DeathAnimationFor(gltfModel))
                && removalTimeout == Some(DeathAnimationFor(gltfModel).duration + 100)
    {
      if isDestroying {
        return;
      }
      isDestroying := true;
      removedArrows := removedArrows + arrowElements;
      arrowElements := [];
      HalfFloor(lastPoints);
      destroyedEvents := destroyedEvents + [DestroyedEvent(points, hitCount, JsFloor(lastPoints as real * 0.5), surfaceType)];
      var anim := DeathAnimationFor(gltfModel);
      deathAnimation := Some(anim);
      removalTimeout := Some(anim.duration + 100);
    }

    /**
     * `onArrowHit`.  Flight stops first, even for a rejected hit; a
     * missing impact point or an arrow already credited changes nothing
     * else.  A new arrow is credited once, scored by the ring of its local
     * XY distance to the centre, and either destroys the target (hit
     * points exhausted) or has its removal scheduled after 2 s.
     */
    method OnArrowHit(arrow: ArrowRef, impact: Option<Vec3>, worldToLocal: Vec3 -> Vec3, geo: Geometry, gltfModel: Option<string>)
      requires Valid()
      modifies this`isFlying, this`tickInterval, this`hitByArrows, this`arrowElements, this`hitCount, this`currentHp,
               this`hitEvents, this`delayedArrowRemovals,
               this`isDestroying, this`removedArrows, this`destroyedEvents, this`deathAnimation, this`removalTimeout
      ensures Valid() && !isFlying && !tickInterval
      ensures impact.None? || KeyOf(arrow) in old(hitByArrows) ==> NotCredited()
      ensures impact.Some? && KeyOf(arrow) !in old(hitByArrows) ==>
                var local := worldToLocal(impact.value);
                Credited(arrow, geo.length(Vec3(local.x, local.y, 0.0)), gltfModel)
    {
      StopFlying();
      if impact.None? {
        return;
      }
      var key := KeyOf(arrow);
      if key in hitByArrows {
        return;
      }
      var local := worldToLocal(impact.value);
      var dist := geo.length(Vec3(local.x, local.y, 0.0));
      CreditHit(arrow, dist, gltfModel);
    }

    /** A rejected hit: nothing about hits, arrows or destruction has changed. */
    twostate predicate NotCredited()
      reads this
    {
      hitByArrows == old(hitByArrows) && hitCount == old(hitCount) && currentHp == old(currentHp)
      && arrowElements == old(arrowElements) && hitEvents == old(hitEvents) && delayedArrowRemovals == old(delayedArrowRemovals)
      && isDestroying == old(isDestroying) && removedArrows == old(removedArrows) && destroyedEvents == old(destroyedEvents)
      && deathAnimation == old(deathAnimation) && removalTimeout == old(removalTimeout)
    }

    /**
     * A credited hit at `dist`: the arrow is recorded, one hit point is lost
     * and the zone's points reported. With hit points left the arrow's
     * removal is scheduled; otherwise `destroy` runs, which acts only the first time.
     */
    twostate predicate Credited(arrow: ArrowRef, dist: real, gltfModel: Option<string>)
      reads this
    {
      var zone := ZoneOf(dist, radii);
      var fp := FinalPoints(points, zone);
      hitByArrows == old(hitByArrows) + {KeyOf(arrow)}
      && hitCount == old(hitCount) + 1 && currentHp == old(currentHp) - 1
      && hitEvents == old(hitEvents) + [HitEvent(fp, zone, Multiplier(zone), dist, surfaceType)]
      && if currentHp > 0 then
           delayedArrowRemovals == old(delayedArrowRemovals) + [arrow] && arrowElements == old(arrowElements) + [arrow]
           && isDestroying == old(isDestroying) && removedArrows == old(removedArrows)
           && destroyedEvents == old(destroyedEvents) && deathAnimation == old(deathAnimation)
           && removalTimeout == old(removalTimeout)
         else if old(isDestroying) then
           isDestroying && delayedArrowRemovals == old(delayedArrowRemovals) && arrowElements == old(arrowElements) + [arrow]
           && removedArrows == old(removedArrows) && destroyedEvents == old(destroyedEvents)
           && deathAnimation == old(deathAnimation) && removalTimeout == old(removalTimeout)
         else
           isDestroying && delayedArrowRemovals == old(delayedArrowRemovals) && arrowElements == []
           && removedArrows == old(removedArrows) + old(arrowElements) + [arrow]
           && destroyedEvents == [DestroyedEvent(points, hitCount, fp / 2, surfaceType)]
           && deathAnimation == Some(DeathAnimationFor(gltfModel))
           && removalTimeout == Some(DeathAnimationFor(gltfModel).duration + 100)
    }

    /** The part of `onArrowHit` after the de-duplication check, for an impact at `dist` from the centre. */
    method CreditHit(arrow: ArrowRef, dist: real, gltfModel: Option<string>)
      requires Valid() && KeyOf(arrow) !in hitByArrows
      modifies this`hitByArrows, this`arrowElements, this`hitCount, this`currentHp, this`hitEvents, this`delayedArrowRemovals,
               this`isDestroying, this`removedArrows, this`destroyedEvents, this`deathAnimation, this`removalTimeout
      ensures Valid()
      ensures Credited(arrow, dist, gltfModel)
    {
      var key := KeyOf(arrow);
      hitByArrows := hitByArrows + {key};
      arrowElements := arrowElements + [arrow];
      hitCount := hitCount + 1;
      currentHp := currentHp - 1;
      var zone := ZoneOf(dist, radii);
      var finalPoints := FinalPoints(points, zone);
      hitEvents := hitEvents + [HitEvent(finalPoints, zone, Multiplier(zone), dist, surfaceType)];
      if currentHp <= 0 {
        Destroy(finalPoints, gltfModel);
      } else {
        delayedArrowRemovals := delayedArrowRemovals + [arrow];
      }
    }

    /** `remove`: clears the backup interval. */
    method Remove()
      modifies this`tickInterval
      ensures !tickInterval
    {
      tickInterval := false;
    }
  }

  /** The same arrow hitting twice is credited once. */
  method ArrowCreditedOnce(t: Target, arrow: ArrowRef, impact: Vec3, worldToLocal: Vec3 -> Vec3, geo: Geometry, gltfModel: Option<string>)
    requires t.Valid() && KeyOf(arrow) !in t.hitByArrows
    modifies t
    ensures t.Valid() && t.hitCount == old(t.hitCount) + 1 && t.currentHp == old(t.currentHp) - 1
    ensures |t.hitEvents| == |old(t.hitEvents)| + 1
  {
    t.OnArrowHit(arrow, Some(impact), worldToLocal, geo, gltfModel);
    t.OnArrowHit(arrow, Some(impact), worldToLocal, geo, gltfModel);
  }

  /** A hit does not freeze the target for good: once the start delay has passed, the next update flies again. */
  method FreezeIsNotDurable(t: Target, arrow: ArrowRef, impact: Option<Vec3>, worldToLocal: Vec3 -> Vec3, geo: Geometry,
                            now: int, d: FlightDraws)
    requires t.Valid() && t.movable && t.initTime != 0 && t.hasObject3D
    requires (now - t.initTime) as real >= t.flyStartDelay
    modifies t
    ensures t.isFlying
  {
    t.OnArrowHit(arrow, impact, worldToLocal, geo, None);
    t.UpdateFlight(now, None, None, d, geo);
  }
}
