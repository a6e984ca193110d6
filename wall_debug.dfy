/**
 * Room construction from WebXR planes (`wall-debug` component): plane
 * classification and sizing, the once-only build of wall, floor and
 * ceiling records (with a fallback floor and ceiling), the manual room
 * used without plane detection, the ready-event counts and the random
 * spawn point on a wall.
 */
module WallDebug {
  import opened Common

  /** One element of `wallData`: what the rest of the game reads about a surface. */
  datatype WallRecord = WallRecord(
    name: string,
    position: Vec3,
    normal: Vec3,
    width: real,
    height: real,
    isFloor: bool,
    isCeiling: bool,
    isWebXR: bool)

  datatype PlaneType = Floor | Ceiling | Wall | Unknown

  /** The value stored in `detectedPlanes` for one XR plane. */
  datatype PlaneData = PlaneData(position: Vec3, normal: Vec3, planeType: PlaneType, width: real, height: real)

  /**
   * A plane as the frame reports it.  The pose gives the position and the
   * plane's normal, i.e. (0,1,0) rotated by the pose orientation.
   */
  datatype PlanePose = PlanePose(position: Vec3, normal: Vec3)
  datatype XRPlane = XRPlane(id: nat, pose: Option<PlanePose>, polygon: seq<Vec3>)

  /** The schema values the records depend on. */
  datatype Config = Config(roomSize: real, wallHeight: real, floorY: real)

  const DefaultConfig: Config := Config(8.0, 2.5, 0.0)

  /** `processPlane`'s classification by the normal's vertical component and the height. */
  function ClassifyPlane(normal: Vec3, position: Vec3): (t: PlaneType)
    ensures t == Floor <==> Abs(normal.y) > 0.7 && position.y < 0.8
    ensures t == Ceiling <==> Abs(normal.y) > 0.7 && position.y > 1.8
    ensures t == Unknown <==> Abs(normal.y) > 0.7 && 0.8 <= position.y <= 1.8
    ensures t == Wall <==> Abs(normal.y) <= 0.7
  {
    if Abs(normal.y) > 0.7 then
      if position.y < 0.8 then Floor
      else if position.y > 1.8 then Ceiling
      else Unknown
    else Wall
  }

  /** Smallest and largest x and z of a non-empty polygon. */
  function MinX(ps: seq<Vec3>): real
    requires |ps| > 0
  {
    if |ps| == 1 then ps[0].x else Min(MinX(ps[..|ps| - 1]), ps[|ps| - 1].x)
  }

  function MaxX(ps: seq<Vec3>): real
    requires |ps| > 0
  {
    if |ps| == 1 then ps[0].x else Max(MaxX(ps[..|ps| - 1]), ps[|ps| - 1].x)
  }

  function MinZ(ps: seq<Vec3>): real
    requires |ps| > 0
  {
    if |ps| == 1 then ps[0].z else Min(MinZ(ps[..|ps| - 1]), ps[|ps| - 1].z)
  }

  function MaxZ(ps: seq<Vec3>): real
    requires |ps| > 0
  {
    if |ps| == 1 then ps[0].z else Max(MaxZ(ps[..|ps| - 1]), ps[|ps| - 1].z)
  }

  /** The extents bound every vertex and are attained by one. */
  lemma {:induction false} ExtentBoundsX(ps: seq<Vec3>)
    requires |ps| > 0
    ensures forall k :: 0 <= k < |ps| ==> MinX(ps) <= ps[k].x <= MaxX(ps)
    ensures (exists k :: 0 <= k < |ps| && MinX(ps) == ps[k].x) && (exists k :: 0 <= k < |ps| && MaxX(ps) == ps[k].x)
  {
    if |ps| > 1 {
      var prefix := ps[..|ps| - 1];
      ExtentBoundsX(prefix);
      assert forall k :: 0 <= k < |prefix| ==> prefix[k] == ps[k];
      var lo :| 0 <= lo < |prefix| && MinX(prefix) == prefix[lo].x;
      var hi :| 0 <= hi < |prefix| && MaxX(prefix) == prefix[hi].x;
      var last := |ps| - 1;
      assert MinX(ps) == ps[if MinX(prefix) <= ps[last].x then lo else last].x;
      assert MaxX(ps) == ps[if MaxX(prefix) >= ps[last].x then hi else last].x;
    } else {
      assert MinX(ps) == ps[0].x && MaxX(ps) == ps[0].x;
    }
  }

  lemma {:induction false} ExtentBoundsZ(ps: seq<Vec3>)
    requires |ps| > 0
    ensures forall k :: 0 <= k < |ps| ==> MinZ(ps) <= ps[k].z <= MaxZ(ps)
    ensures (exists k :: 0 <= k < |ps| && MinZ(ps) == ps[k].z) && (exists k :: 0 <= k < |ps| && MaxZ(ps) == ps[k].z)
  {
    if |ps| > 1 {
      var prefix := ps[..|ps| - 1];
      ExtentBoundsZ(prefix);
      assert forall k :: 0 <= k < |prefix| ==> prefix[k] == ps[k];
      var lo :| 0 <= lo < |prefix| && MinZ(prefix) == prefix[lo].z;
      var hi :| 0 <= hi < |prefix| && MaxZ(prefix) == prefix[hi].z;
      var last := |ps| - 1;
      assert MinZ(ps) == ps[if MinZ(prefix) <= ps[last].z then lo else last].z;
      assert MaxZ(ps) == ps[if MaxZ(prefix) >= ps[last].z then hi else last].z;
    } else {
      assert MinZ(ps) == ps[0].z && MaxZ(ps) == ps[0].z;
    }
  }

  /**
   * The polygon loop of `processPlane`: the x and z extents of the polygon,
   * or 2 × 2 without one.
   */
  method PolygonExtent(polygon: seq<Vec3>) returns (width: real, height: real)
    ensures |polygon| == 0 ==> width == 2.0 && height == 2.0
    ensures |polygon| > 0 ==> width == MaxX(polygon) - MinX(polygon) && height == MaxZ(polygon) - MinZ(polygon)
  {
    width, height := 2.0, 2.0;
    if |polygon| > 0 {
      var minX, maxX, minZ, maxZ := polygon[0].x, polygon[0].x, polygon[0].z, polygon[0].z;
      var i := 1;
      while i < |polygon|
        invariant 1 <= i <= |polygon|
        invariant minX == MinX(polygon[..i]) && maxX == MaxX(polygon[..i])
        invariant minZ == MinZ(polygon[..i]) && maxZ == MaxZ(polygon[..i])
      {
        var next := polygon[..i + 1];
        assert next[..i] == polygon[..i] && next[i] == polygon[i];
        assert MinX(next) == Min(minX, polygon[i].x) && MaxX(next) == Max(maxX, polygon[i].x);
        assert MinZ(next) == Min(minZ, polygon[i].z) && MaxZ(next) == Max(maxZ, polygon[i].z);
        minX := Min(minX, polygon[i].x);
        maxX := Max(maxX, polygon[i].x);
        minZ := Min(minZ, polygon[i].z);
        maxZ := Max(maxZ, polygon[i].z);
        i := i + 1;
      }
      assert polygon[..i] == polygon;
      width := maxX - minX;
      height := maxZ - minZ;
    }
  }

  /** Hence the measured extents are never negative. */
  lemma ExtentNonNegative(polygon: seq<Vec3>)
    requires |polygon| > 0
    ensures MaxX(polygon) - MinX(polygon) >= 0.0 && MaxZ(polygon) - MinZ(polygon) >= 0.0
  {
    ExtentBoundsX(polygon);
    ExtentBoundsZ(polygon);
  }

  /** Decimal text of a natural number, as a template literal prints it. */
  function NatText(n: nat): string
  {
    if n < 10 then ["0123456789"[n]] else NatText(n / 10) + ["0123456789"[n % 10]]
  }

  /** `createWallFromPlane`: stretched to at least the configured height and standing on the floor. */
  function WallFromPlane(cfg: Config, pd: PlaneData, index: nat, normalize: Vec3 -> Vec3): (w: WallRecord)
    ensures w.height >= pd.height && w.height >= cfg.wallHeight
    ensures w.position == Vec3(pd.position.x, cfg.floorY + w.height / 2.0, pd.position.z)
    ensures w.width >= 1.0 && w.width >= pd.width && (pd.width >= 1.0 ==> w.width == pd.width)
    ensures w.normal == normalize(Vec3(pd.normal.x, 0.0, pd.normal.z))
    ensures !w.isFloor && !w.isCeiling && w.isWebXR
    ensures w.name == "MUR " + NatText(index + 1)
  {
    var h := Max(pd.height, cfg.wallHeight);
    WallRecord("MUR " + NatText(index + 1), Vec3(pd.position.x, cfg.floorY + h / 2.0, pd.position.z),
               normalize(Vec3(pd.normal.x, 0.0, pd.normal.z)), Max(pd.width, 1.0), h, false, false, true)
  }

  /** `createFloorFromPlane`: at the plane's position, at least 2 × 2. */
  function FloorFromPlane(pd: PlaneData): (w: WallRecord)
    ensures w.isFloor && !w.isCeiling && w.isWebXR && w.position == pd.position
    ensures w.width >= 2.0 && w.height >= 2.0 && w.width >= pd.width && w.height >= pd.height
  {
    WallRecord("SOL", pd.position, Vec3(0.0, 1.0, 0.0), Max(pd.width, 2.0), Max(pd.height, 2.0), true, false, true)
  }

  /** `createCeilingFromPlane`: at the plane's position, at least 2 × 2. */
  function CeilingFromPlane(pd: PlaneData): (w: WallRecord)
    ensures w.isCeiling && !w.isFloor && w.isWebXR && w.position == pd.position
    ensures w.width >= 2.0 && w.height >= 2.0 && w.width >= pd.width && w.height >= pd.height
  {
    WallRecord("PLAFOND", pd.position, Vec3(0.0, -1.0, 0.0), Max(pd.width, 2.0), Max(pd.height, 2.0), false, true, true)
  }

  /** `createFloor`: a square floor at `floorY`, not from WebXR. */
  function ManualFloor(cfg: Config, cx: real, cz: real, size: real): (w: WallRecord)
    ensures w.isFloor && !w.isCeiling && !w.isWebXR
    ensures w.position == Vec3(cx, cfg.floorY, cz) && w.width == size && w.height == size
  {
    WallRecord("SOL", Vec3(cx, cfg.floorY, cz), Vec3(0.0, 1.0, 0.0), size, size, true, false, false)
  }

  /** `createCeiling`: a square ceiling `height` above `floorY`, not from WebXR. */
  function ManualCeiling(cfg: Config, cx: real, cz: real, size: real, height: real): (w: WallRecord)
    ensures w.isCeiling && !w.isFloor && !w.isWebXR
    ensures w.position == Vec3(cx, cfg.floorY + height, cz) && w.width == size && w.height == size
  {
    WallRecord("PLAFOND", Vec3(cx, cfg.floorY + height, cz), Vec3(0.0, -1.0, 0.0), size, size, false, true, false)
  }

  function CountType(planes: seq<PlaneData>, t: PlaneType): nat
  {
    if |planes| == 0 then 0
    else CountType(planes[..|planes| - 1], t) + (if planes[|planes| - 1].planeType == t then 1 else 0)
  }

  /** The records one plane yields; walls are numbered by the walls before them. */
  function RecordOf(cfg: Config, pd: PlaneData, wallIndex: nat, normalize: Vec3 -> Vec3): seq<WallRecord>
  {
    match pd.planeType
    case Wall => [WallFromPlane(cfg, pd, wallIndex, normalize)]
    case Floor => [FloorFromPlane(pd)]
    case Ceiling => [CeilingFromPlane(pd)]
    case Unknown => []
  }

  /** An unknown plane yields no record; any other plane one WebXR record of its own kind. */
  lemma RecordOfKind(cfg: Config, pd: PlaneData, wallIndex: nat, normalize: Vec3 -> Vec3)
    ensures var r := RecordOf(cfg, pd, wallIndex, normalize);
            (|r| == 0 <==> pd.planeType == Unknown) && |r| <= 1
            && (|r| == 1 ==> r[0].isWebXR && (r[0].isFloor <==> pd.planeType == Floor)
                             && (r[0].isCeiling <==> pd.planeType == Ceiling))
  {
  }

  /** The records the plane loop of `createRoomFromPlanes` pushes, in plane order. */
  function PlaneRecords(cfg: Config, planes: seq<PlaneData>, normalize: Vec3 -> Vec3): (r: seq<WallRecord>)
    ensures |r| <= |planes|
  {
    if |planes| == 0 then []
    else
      var prefix := planes[..|planes| - 1];
      PlaneRecords(cfg, prefix, normalize) + RecordOf(cfg, planes[|planes| - 1], CountType(prefix, Wall), normalize)
  }

  /** The running min/max of `createRoomFromPlanes`; `None` while all are still infinite. */
  datatype Extent = Extent(minX: real, maxX: real, minZ: real, maxZ: real, minY: real, maxY: real)

  function Extend(e: Option<Extent>, pd: PlaneData): Extent
  {
    var p := pd.position;
    var x0, x1 := p.x - pd.width / 2.0, p.x + pd.width / 2.0;
    var z0, z1 := p.z - pd.height / 2.0, p.z + pd.height / 2.0;
    match e
    case None => Extent(x0, x1, z0, z1, p.y, p.y)
    case Some(b) => Extent(Min(b.minX, x0), Max(b.maxX, x1), Min(b.minZ, z0), Max(b.maxZ, z1), Min(b.minY, p.y), Max(b.maxY, p.y))
  }

  function ExtentOf(planes: seq<PlaneData>): (e: Option<Extent>)
    ensures e.None? <==> |planes| == 0
  {
    if |planes| == 0 then None else Some(Extend(ExtentOf(planes[..|planes| - 1]), planes[|planes| - 1]))
  }

  /** Centre, size and height the fallback floor and ceiling use. */
  datatype RoomFrame = RoomFrame(centerX: real, centerZ: real, size: real, height: real)

  function FrameOf(cfg: Config, e: Option<Extent>, camera: Vec3): (f: RoomFrame)
    ensures e.None? ==> f == RoomFrame(camera.x, camera.z, cfg.roomSize * 2.0, cfg.wallHeight)
    ensures e.Some? ==> f.centerX == (e.value.minX + e.value.maxX) / 2.0 && f.centerZ == (e.value.minZ + e.value.maxZ) / 2.0
                        && f.size == Max(e.value.maxX - e.value.minX, e.value.maxZ - e.value.minZ)
    ensures e.Some? && e.value.maxY > e.value.minY && e.value.minY < 1.0 && e.value.maxY > 2.0 ==>
              f.height == e.value.maxY - e.value.minY
    ensures !(e.Some? && e.value.maxY > e.value.minY && e.value.minY < 1.0 && e.value.maxY > 2.0) ==>
              f.height == cfg.wallHeight
  {
    match e
    case None => RoomFrame(camera.x, camera.z, cfg.roomSize * 2.0, cfg.wallHeight)
    case Some(b) =>
      RoomFrame((b.minX + b.maxX) / 2.0, (b.minZ + b.maxZ) / 2.0, Max(b.maxX - b.minX, b.maxZ - b.minZ),
                if b.maxY > b.minY && b.minY < 1.0 && b.maxY > 2.0 then b.maxY - b.minY else cfg.wallHeight)
  }

  /** The fallback floor and ceiling, each only when no plane of that kind was built. */
  function Fallbacks(cfg: Config, planes: seq<PlaneData>, camera: Vec3): seq<WallRecord>
  {
    var f := FrameOf(cfg, ExtentOf(planes), camera);
    (if CountType(planes, Floor) == 0 then [ManualFloor(cfg, f.centerX, f.centerZ, f.size)] else [])
    + (if CountType(planes, Ceiling) == 0 then [ManualCeiling(cfg, f.centerX, f.centerZ, f.size, f.height)] else [])
  }

  /** One fallback floor iff no floor plane was built, one fallback ceiling iff no ceiling plane was, neither from WebXR. */
  lemma FallbackCounts(cfg: Config, planes: seq<PlaneData>, camera: Vec3)
    ensures var r := Fallbacks(cfg, planes, camera);
            FloorRecords(r) == (if CountType(planes, Floor) == 0 then 1 else 0)
            && CeilingRecords(r) == (if CountType(planes, Ceiling) == 0 then 1 else 0)
            && WebXRRecords(r) == 0
  {
    var f := FrameOf(cfg, ExtentOf(planes), camera);
    var floor, ceiling := ManualFloor(cfg, f.centerX, f.centerZ, f.size), ManualCeiling(cfg, f.centerX, f.centerZ, f.size, f.height);
    var fl: seq<WallRecord> := if CountType(planes, Floor) == 0 then [floor] else [];
    var ce: seq<WallRecord> := if CountType(planes, Ceiling) == 0 then [ceiling] else [];
    assert Fallbacks(cfg, planes, camera) == fl + ce;
    CountsOfConcat(fl, ce);
    CountsOfOne(floor);
    CountsOfOne(ceiling);
  }

  /** The counts of a single record are its flags. */
  lemma CountsOfOne(w: WallRecord)
    ensures FloorRecords([w]) == (if w.isFloor then 1 else 0)
    ensures CeilingRecords([w]) == (if w.isCeiling then 1 else 0)
    ensures WebXRRecords([w]) == (if w.isWebXR then 1 else 0)
  {
    assert [w][..0] == [];
  }

  function FloorRecords(ws: seq<WallRecord>): nat
  {
    if |ws| == 0 then 0 else FloorRecords(ws[..|ws| - 1]) + (if ws[|ws| - 1].isFloor then 1 else 0)
  }

  function CeilingRecords(ws: seq<WallRecord>): nat
  {
    if |ws| == 0 then 0 else CeilingRecords(ws[..|ws| - 1]) + (if ws[|ws| - 1].isCeiling then 1 else 0)
  }

  function WebXRRecords(ws: seq<WallRecord>): (n: nat)
  {
    if |ws| == 0 then 0 else WebXRRecords(ws[..|ws| - 1]) + (if ws[|ws| - 1].isWebXR then 1 else 0)
  }

  lemma {:induction false} CountsOfConcat(a: seq<WallRecord>, b: seq<WallRecord>)
    ensures FloorRecords(a + b) == FloorRecords(a) + FloorRecords(b)
    ensures CeilingRecords(a + b) == CeilingRecords(a) + CeilingRecords(b)
    ensures WebXRRecords(a + b) == WebXRRecords(a) + WebXRRecords(b)
  {
    if |b| > 0 {
      assert (a + b)[..|a + b| - 1] == a + b[..|b| - 1];
      CountsOfConcat(a, b[..|b| - 1]);
    } else {
      assert a + b == a;
    }
  }

  /** Every floor plane yields one floor record, every ceiling plane one ceiling record. */
  lemma {:induction false} PlaneRecordCounts(cfg: Config, planes: seq<PlaneData>, normalize: Vec3 -> Vec3)
    ensures FloorRecords(PlaneRecords(cfg, planes, normalize)) == CountType(planes, Floor)
    ensures CeilingRecords(PlaneRecords(cfg, planes, normalize)) == CountType(planes, Ceiling)
    ensures WebXRRecords(PlaneRecords(cfg, planes, normalize)) == |PlaneRecords(cfg, planes, normalize)|
  {
    if |planes| > 0 {
      var prefix := planes[..|planes| - 1];
      PlaneRecordCounts(cfg, prefix, normalize);
      CountsOfConcat(PlaneRecords(cfg, prefix, normalize), RecordOf(cfg, planes[|planes| - 1], CountType(prefix, Wall), normalize));
    }
  }

  /**
   * A room built from planes has exactly one floor record per floor plane,
   * or the single fallback floor when there is none; likewise for ceilings.
   */
  lemma RoomHasFloorAndCeiling(cfg: Config, planes: seq<PlaneData>, normalize: Vec3 -> Vec3, camera: Vec3)
    ensures var ws := PlaneRecords(cfg, planes, normalize) + Fallbacks(cfg, planes, camera);
            FloorRecords(ws) == (if CountType(planes, Floor) == 0 then 1 else CountType(planes, Floor))
            && CeilingRecords(ws) == (if CountType(planes, Ceiling) == 0 then 1 else CountType(planes, Ceiling))
  {
    PlaneRecordCounts(cfg, planes, normalize);
    FallbackCounts(cfg, planes, camera);
    CountsOfConcat(PlaneRecords(cfg, planes, normalize), Fallbacks(cfg, planes, camera));
  }

  lemma PlaneRoomKeepsFloorAndCeiling(before: seq<WallRecord>, cfg: Config, planes: seq<PlaneData>,
                                      normalize: Vec3 -> Vec3, camera: Vec3)
    ensures var ws := before + PlaneRecords(cfg, planes, normalize) + Fallbacks(cfg, planes, camera);
            FloorRecords(ws) >= 1 && CeilingRecords(ws) >= 1
  {
    var room := PlaneRecords(cfg, planes, normalize) + Fallbacks(cfg, planes, camera);
    RoomHasFloorAndCeiling(cfg, planes, normalize, camera);
    CountsOfConcat(before, room);
    assert before + PlaneRecords(cfg, planes, normalize) + Fallbacks(cfg, planes, camera) == before + room;
  }

  lemma ManualRoomKeepsFloorAndCeiling(before: seq<WallRecord>, cfg: Config, camera: Vec3)
    ensures var ws := before + [ManualFloor(cfg, camera.x, camera.z, cfg.roomSize * 2.0),
                                ManualCeiling(cfg, camera.x, camera.z, cfg.roomSize * 2.0, cfg.wallHeight)];
            FloorRecords(ws) >= 1 && CeilingRecords(ws) >= 1
  {
    var room := [ManualFloor(cfg, camera.x, camera.z, cfg.roomSize * 2.0),
                 ManualCeiling(cfg, camera.x, camera.z, cfg.roomSize * 2.0, cfg.wallHeight)];
    CountsOfConcat(before, room);
    assert room[..1] == [room[0]] && [room[0]][..0] == [];
  }

  /** The detail of the `surfaces-detected` event of `emitReadyEvents`. */
  datatype ReadyCounts = ReadyCounts(realSurfaces: nat, webxr: nat, manual: int)

  function ReadyCountsOf(ws: seq<WallRecord>): ReadyCounts
  {
    ReadyCounts(|ws|, WebXRRecords(ws), |ws| - WebXRRecords(ws))
  }

  /** The reported counts split the records: webxr + manual = all, and neither is negative. */
  lemma {:induction false} ReadyCountsSplit(ws: seq<WallRecord>)
    ensures var c := ReadyCountsOf(ws); c.webxr + c.manual == c.realSurfaces && 0 <= c.manual <= c.realSurfaces
  {
    if |ws| > 0 {
      ReadyCountsSplit(ws[..|ws| - 1]);
    }
  }

  /** The records `getRandomSpawnPoint` chooses among: neither floor nor ceiling. */
  function SpawnWalls(ws: seq<WallRecord>): (r: seq<WallRecord>)
    ensures forall k :: 0 <= k < |r| ==> !r[k].isFloor && !r[k].isCeiling && r[k] in ws
    ensures |r| == 0 <==> forall k :: 0 <= k < |ws| ==> ws[k].isFloor || ws[k].isCeiling
  {
    if |ws| == 0 then []
    else
      var rest := SpawnWalls(ws[..|ws| - 1]);
      assert forall w :: w in ws[..|ws| - 1] ==> w in ws;
      assert forall k :: 0 <= k < |ws| - 1 ==> ws[..|ws| - 1][k] == ws[k];
      if !ws[|ws| - 1].isFloor && !ws[|ws| - 1].isCeiling then rest + [ws[|ws| - 1]] else rest
  }

  /** `(draw - 0.5) · 2 · half`: an offset of at most |half| either way. */
  function Offset(draw: real, half: real): (o: real)
    requires IsDraw(draw)
    ensures Abs(o) <= Abs(half)
  {
    assert -1.0 <= (draw - 0.5) * 2.0 < 1.0;
    OffsetBound((draw - 0.5) * 2.0, half);
    (draw - 0.5) * 2.0 * half
  }

  lemma OffsetBound(u: real, half: real)
    requires -1.0 <= u <= 1.0
    ensures Abs(u * half) <= Abs(half)
  {
    if half >= 0.0 {
      ScaleWithin(u, half);
      AbsWithin(u * half, half);
    } else {
      ScaleWithin(u, -half);
      NegMul(u, half);
      AbsWithin(u * half, -half);
    }
  }

  lemma NegMul(u: real, h: real)
    ensures u * (-h) == -(u * h)
  {
  }

  lemma AbsWithin(p: real, a: real)
    requires -a <= p <= a
    ensures Abs(p) <= a
  {
  }

  lemma NonNeg(a: real, b: real)
    requires a >= 0.0 && b >= 0.0
    ensures a * b >= 0.0
  {
  }

  lemma ScaleWithin(u: real, h: real)
    requires -1.0 <= u <= 1.0 && h >= 0.0
    ensures -h <= u * h <= h
  {
    NonNeg(1.0 - u, h);
    NonNeg(1.0 + u, h);
    assert (1.0 - u) * h == h - u * h;
    assert (1.0 + u) * h == h + u * h;
  }

  datatype SpawnPoint = SpawnPoint(position: Vec3, normal: Vec3, wallName: string, surfaceType: string, isRealSurface: bool)

  /**
   * The point in front of `wall` at in-plane offsets (ox, oy): along x for a
   * wall facing z, along z for a wall facing x, otherwise along the wall's
   * rotated right vector `right` (an atan2 rotation, taken as given).
   */
  function PlaceOnWall(wall: WallRecord, ox: real, oy: real, right: Vec3): Vec3
  {
    var p := Add(wall.position, Scale(wall.normal, 0.05));
    if Abs(wall.normal.z) > 0.5 then Vec3(p.x + ox, p.y + oy, p.z)
    else if Abs(wall.normal.x) > 0.5 then Vec3(p.x, p.y + oy, p.z + ox)
    else Vec3(p.x + right.x * ox, p.y + oy + right.y * ox, p.z + right.z * ox)
  }

  /** The wall `floor(d0 · n)` of the n spawn walls, or none when n = 0. */
  function ChosenWall(ws: seq<WallRecord>, d0: real): (r: Option<WallRecord>)
    requires IsDraw(d0)
    ensures r.None? <==> forall k :: 0 <= k < |ws| ==> ws[k].isFloor || ws[k].isCeiling
    ensures r.Some? ==> r.value in ws && !r.value.isFloor && !r.value.isCeiling
  {
    var walls := SpawnWalls(ws);
    if |walls| == 0 then None
    else
      DrawIndex(d0, |walls|);
      Some(walls[JsFloor(d0 * |walls| as real)])
  }

  /**
   * `getRandomSpawnPoint` with its three draws: null iff there is no wall
   * record; otherwise a point in front of the chosen wall, offset by
   * `Offset` within 0.8 · width/2 sideways and 0.7 · height/2 vertically.
   */
  function RandomSpawnPoint(ws: seq<WallRecord>, d0: real, d1: real, d2: real, rightOf: WallRecord -> Vec3): (r: Option<SpawnPoint>)
    requires IsDraw(d0) && IsDraw(d1) && IsDraw(d2)
    ensures r.None? <==> ChosenWall(ws, d0).None?
    ensures r.Some? ==>
              var wall := ChosenWall(ws, d0).value;
              r.value.surfaceType == "vertical" && r.value.isRealSurface == wall.isWebXR
              && r.value.wallName == wall.name && r.value.normal == wall.normal
              && r.value.position == PlaceOnWall(wall, Offset(d1, wall.width / 2.0 * 0.8),
                                                 Offset(d2, wall.height / 2.0 * 0.7), rightOf(wall))
  {
    match ChosenWall(ws, d0)
    case None => None
    case Some(wall) =>
      var ox := Offset(d1, wall.width / 2.0 * 0.8);
      var oy := Offset(d2, wall.height / 2.0 * 0.7);
      Some(SpawnPoint(PlaceOnWall(wall, ox, oy, rightOf(wall)), wall.normal, wall.name, "vertical", wall.isWebXR))
  }

  /**
   * The `detectedPlanes.forEach` loop of `createRoomFromPlanes`: the records
   * it pushes, the running extent and the floor and ceiling counts.
   */
  method PlaneLoop(cfg: Config, planes: seq<PlaneData>, normalize: Vec3 -> Vec3)
    returns (records: seq<WallRecord>, extent: Option<Extent>, floorCount: nat, ceilingCount: nat)
    ensures records == PlaneRecords(cfg, planes, normalize)
    ensures extent == ExtentOf(planes)
    ensures floorCount == CountType(planes, Floor) && ceilingCount == CountType(planes, Ceiling)
  {
    records, extent := [], None;
    var wallCount := 0;
    floorCount, ceilingCount := 0, 0;
    var i := 0;
    while i < |planes|
      invariant 0 <= i <= |planes|
      invariant extent == ExtentOf(planes[..i])
      invariant wallCount == CountType(planes[..i], Wall)
      invariant floorCount == CountType(planes[..i], Floor)
      invariant ceilingCount == CountType(planes[..i], Ceiling)
      invariant records == PlaneRecords(cfg, planes[..i], normalize)
    {
      var pd := planes[i];
      assert planes[..i + 1][..i] == planes[..i] && planes[..i + 1][i] == pd;
      extent := Some(Extend(extent, pd));
      records := records + RecordOf(cfg, pd, wallCount, normalize);
      match pd.planeType {
        case Wall => wallCount := wallCount + 1;
        case Floor => floorCount := floorCount + 1;
        case Ceiling => ceilingCount := ceilingCount + 1;
        case Unknown =>
      }
      i := i + 1;
    }
    assert planes[..i] == planes;
  }

  /** The component's state. */
  /** The k-th plane of a frame carries the id and has a pose. */
  predicate NewPlaneAt(planes: seq<XRPlane>, k: nat, id: nat)
    requires k < |planes|
  {
    planes[k].id == id && planes[k].pose.Some?
  }

  /** The record `processPlane` stores for a posed plane: sizes from the polygon, at least 0.5, 2 × 2 without one. */
  function StoredPlane(plane: XRPlane): PlaneData
    requires plane.pose.Some?
  {
    var pose, p := plane.pose.value, plane.polygon;
    PlaneData(pose.position, pose.normal, ClassifyPlane(pose.normal, pose.position),
              if |p| == 0 then 2.0 else Max(MaxX(p) - MinX(p), 0.5),
              if |p| == 0 then 2.0 else Max(MaxZ(p) - MinZ(p), 0.5))
  }

  /**
   * `id` was first stored from the k-th plane of the frame: no earlier plane
   * with that id had a pose, and `pd` is the k-th plane's record.
   */
  predicate FirstRecord(planes: seq<XRPlane>, k: nat, id: nat, pd: PlaneData)
    requires k < |planes|
  {
    NewPlaneAt(planes, k, id) && pd == StoredPlane(planes[k])
    && forall j :: 0 <= j < k && planes[j].id == id ==> planes[j].pose.None?
  }

  /**
   * What `tick`'s loop has done after the first i planes of the frame:
   * stored planes are kept, every posed plane so far is stored (with a
   * reference space), and `firstAt` names the first posed plane of each
   * new id.
   */
  ghost predicate Progress(planes: seq<XRPlane>, i: nat, before: map<nat, PlaneData>, now: map<nat, PlaneData>,
                           firstAt: map<nat, nat>, refSpace: bool)
    requires i <= |planes|
  {
    before.Keys <= now.Keys
    && (forall id :: id in before ==> now[id] == before[id])
    && (forall k :: 0 <= k < i && refSpace && planes[k].pose.Some? ==> planes[k].id in now)
    && (forall id :: id in now && id !in before ==>
          id in firstAt && firstAt[id] < i && FirstRecord(planes, firstAt[id], id, now[id]))
  }

  /** One more plane: a posed plane with a new id is stored under its first index, nothing else changes. */
  lemma ProgressStep(planes: seq<XRPlane>, i: nat, before: map<nat, PlaneData>, now: map<nat, PlaneData>,
                     firstAt: map<nat, nat>, refSpace: bool)
    requires i < |planes| && Progress(planes, i, before, now, firstAt, refSpace)
    ensures var added := planes[i].id !in now && refSpace && planes[i].pose.Some?;
            Progress(planes, i + 1, before,
                     if added then now[planes[i].id := StoredPlane(planes[i])] else now,
                     if added then firstAt[planes[i].id := i] else firstAt, refSpace)
  {
    if planes[i].id !in now && refSpace && planes[i].pose.Some? {
      assert FirstRecord(planes, i, planes[i].id, StoredPlane(planes[i]));
    }
  }

  class WallDebugger {
    const cfg: Config
    /** The schema's `enabled` and `useRoomCapture` flags. */
    const enabled: bool
    const useRoomCapture: bool
    var wallData: seq<WallRecord>
    var wallsCreated: bool
    /** `detectedPlanes` keyed by plane, with its insertion order. */
    var planeOrder: seq<nat>
    var detectedPlanes: map<nat, PlaneData>
    var isDetecting: bool
    var hasSession: bool
    var hasReferenceSpace: bool
    /** Every `surfaces-detected` detail emitted, in order. */
    var readyEvents: seq<ReadyCounts>
    /** Whether the `requestReferenceSpace` promise, and then the detection timeout, is pending. */
    var referenceSpaceRequested: bool
    var timeoutPending: bool

    ghost predicate Valid()
      reads this`planeOrder, this`detectedPlanes
    {
      (forall i, j :: 0 <= i < j < |planeOrder| ==> planeOrder[i] != planeOrder[j])
      && detectedPlanes.Keys == set id | id in planeOrder
      && (forall id :: id in detectedPlanes ==> detectedPlanes[id].width >= 0.5 && detectedPlanes[id].height >= 0.5)
    }

    /** The stored planes in insertion order, as `Map.forEach` visits them. */
    function Planes(): (ps: seq<PlaneData>)
      requires Valid()
      reads this`planeOrder, this`detectedPlanes
      ensures |ps| == |planeOrder|
      ensures forall k :: 0 <= k < |ps| ==> ps[k] == detectedPlanes[planeOrder[k]]
    {
      PlanesOf(planeOrder, detectedPlanes)
    }

    constructor (cfg: Config, enabled: bool, useRoomCapture: bool)
      ensures Valid() && this.cfg == cfg && wallData == [] && !wallsCreated && planeOrder == [] && readyEvents == []
      ensures this.enabled == enabled && this.useRoomCapture == useRoomCapture
      ensures !isDetecting && !hasSession && !hasReferenceSpace && !referenceSpaceRequested && !timeoutPending
    {
      this.cfg := cfg;
      this.enabled := enabled;
      this.useRoomCapture := useRoomCapture;
      referenceSpaceRequested := false;
      timeoutPending := false;
      wallData := [];
      wallsCreated := false;
      planeOrder := [];
      detectedPlanes := map[];
      isDetecting := false;
      hasSession := false;
      hasReferenceSpace := false;
      readyEvents := [];
    }

    /** `processPlane`: classify, size (at least 0.5 × 0.5) and store one plane. */
    method ProcessPlane(plane: XRPlane)
      requires Valid()
      modifies this`detectedPlanes, this`planeOrder
      ensures Valid()
      ensures !hasReferenceSpace || plane.pose.None? ==>
                detectedPlanes == old(detectedPlanes) && planeOrder == old(planeOrder)
      ensures hasReferenceSpace && plane.pose.Some? ==>
                plane.id in detectedPlanes
                && (forall id :: id in old(detectedPlanes) && id != plane.id ==> id in detectedPlanes && detectedPlanes[id] == old(detectedPlanes)[id])
                && planeOrder == old(planeOrder) + (if plane.id in old(detectedPlanes) then [] else [plane.id])
                && var pd := detectedPlanes[plane.id];
                   pd.position == plane.pose.value.position && pd.normal == plane.pose.value.normal
                   && pd.planeType == ClassifyPlane(plane.pose.value.normal, plane.pose.value.position)
                   && (|plane.polygon| == 0 ==> pd.width == 2.0 && pd.height == 2.0)
                   && (|plane.polygon| > 0 ==>
                         pd.width == Max(MaxX(plane.polygon) - MinX(plane.polygon), 0.5)
                         && pd.height == Max(MaxZ(plane.polygon) - MinZ(plane.polygon), 0.5))
      ensures hasReferenceSpace && plane.pose.Some? ==> detectedPlanes == old(detectedPlanes)[plane.id := StoredPlane(plane)]
    {
      if !hasReferenceSpace || plane.pose.None? {
        return;
      }
      var pose := plane.pose.value;
      var t := ClassifyPlane(pose.normal, pose.position);
      var w, h := PolygonExtent(plane.polygon);
      var pd := PlaneData(pose.position, pose.normal, t, Max(w, 0.5), Max(h, 0.5));
      assert pd == StoredPlane(plane);
      Store(plane.id, pd);
    }

    /** `detectedPlanes.set(id, pd)`: a new id goes to the end of the order, a known one keeps its place. */
    method Store(id: nat, pd: PlaneData)
      requires Valid() && pd.width >= 0.5 && pd.height >= 0.5
      modifies this`detectedPlanes, this`planeOrder
      ensures Valid()
      ensures detectedPlanes == old(detectedPlanes)[id := pd]
      ensures planeOrder == old(planeOrder) + (if id in old(detectedPlanes) then [] else [id])
    {
      if id !in detectedPlanes {
        planeOrder := planeOrder + [id];
      }
      detectedPlanes := detectedPlanes[id := pd];
    }

    /** `tick`: while detecting and before the room exists, process the frame's new planes. */
    method Tick(framePlanes: Option<seq<XRPlane>>)
      requires Valid()
      modifies this`detectedPlanes, this`planeOrder
      ensures Valid()
      ensures !isDetecting || !hasSession || wallsCreated || framePlanes.None? ==>
                detectedPlanes == old(detectedPlanes) && planeOrder == old(planeOrder)
      ensures old(detectedPlanes).Keys <= detectedPlanes.Keys && old(planeOrder) <= planeOrder
      ensures forall id :: id in old(detectedPlanes) ==> detectedPlanes[id] == old(detectedPlanes)[id]
      ensures isDetecting && hasSession && !wallsCreated && framePlanes.Some? ==>
                (forall k :: 0 <= k < |framePlanes.value| && hasReferenceSpace && framePlanes.value[k].pose.Some? ==>
                   framePlanes.value[k].id in detectedPlanes)
                && (forall id :: id in detectedPlanes && id !in old(detectedPlanes) ==>
                      exists k :: 0 <= k < |framePlanes.value| && FirstRecord(framePlanes.value, k, id, detectedPlanes[id]))
    {
      if !isDetecting || !hasSession || wallsCreated || framePlanes.None? {
        return;
      }
      var planes := framePlanes.value;
      var i := 0;
      // The index of the first posed plane of the frame for each id added so far.
      ghost var firstAt: map<nat, nat> := map[];
      while i < |planes|
        invariant 0 <= i <= |planes|
        invariant Valid() && old(planeOrder) <= planeOrder
        invariant Progress(planes, i, old(detectedPlanes), detectedPlanes, firstAt, hasReferenceSpace)
      {
        ProgressStep(planes, i, old(detectedPlanes), detectedPlanes, firstAt, hasReferenceSpace);
        var added := Visit(planes, i);
        if added {
          firstAt := firstAt[planes[i].id := i];
        }
        i := i + 1;
      }
      forall id | id in detectedPlanes && id !in old(detectedPlanes)
        ensures exists k :: 0 <= k < |planes| && FirstRecord(planes, k, id, detectedPlanes[id])
      {
        assert FirstRecord(planes, firstAt[id], id, detectedPlanes[id]);
      }
    }

    /** One step of `tick`'s loop: the i-th plane is processed unless its id is already stored. */
    method Visit(planes: seq<XRPlane>, i: nat) returns (added: bool)
      requires Valid() && i < |planes|
      modifies this`detectedPlanes, this`planeOrder
      ensures Valid()
      ensures added <==> planes[i].id !in old(detectedPlanes) && hasReferenceSpace && planes[i].pose.Some?
      ensures detectedPlanes == if added then old(detectedPlanes)[planes[i].id := StoredPlane(planes[i])] else old(detectedPlanes)
      ensures planeOrder == old(planeOrder) + (if added then [planes[i].id] else [])
    {
      added := planes[i].id !in detectedPlanes && hasReferenceSpace && planes[i].pose.Some?;
      if planes[i].id !in detectedPlanes {
        ProcessPlane(planes[i]);
      }
    }

    /** `emitReadyEvents`. */
    method EmitReadyEvents()
      modifies this`readyEvents
      ensures readyEvents == old(readyEvents) + [ReadyCountsOf(wallData)]
    {
      readyEvents := readyEvents + [ReadyCountsOf(wallData)];
    }

    /**
     * `createRoomFromPlanes`: at most once (shared flag with the manual
     * room), one record per wall/floor/ceiling plane in insertion order,
     * then the fallback floor and ceiling, then the ready events.
     */
    method CreateRoomFromPlanes(camera: Vec3, normalize: Vec3 -> Vec3)
      requires Valid()
      modifies this`wallData, this`wallsCreated, this`readyEvents
      ensures Valid() && wallsCreated
      ensures old(wallsCreated) ==> wallData == old(wallData) && readyEvents == old(readyEvents)
      ensures !old(wallsCreated) ==>
                wallData == old(wallData) + PlaneRecords(cfg, Planes(), normalize) + Fallbacks(cfg, Planes(), camera)
                && readyEvents == old(readyEvents) + [ReadyCountsOf(wallData)]
    {
      if wallsCreated {
        return;
      }
      var planes := Planes();
      var records, extent, floorCount, ceilingCount := PlaneLoop(cfg, planes, normalize);
      wallsCreated, wallData := true, wallData + records + Fallbacks(cfg, planes, camera);
      assert Planes() == planes;
      EmitReadyEvents();
    }

    /** The room records and the ready events are untouched. */
    twostate predicate RoomKept()
      reads this`wallData, this`wallsCreated, this`readyEvents
    {
      wallData == old(wallData) && wallsCreated == old(wallsCreated) && readyEvents == old(readyEvents)
    }

    /**
     * What `createManualRoom` leaves: nothing new when a room exists;
     * otherwise a floor and a ceiling around the camera and one ready event.
     */
    twostate predicate ManualRoomBuilt(camera: Vec3)
      reads this`wallData, this`wallsCreated, this`readyEvents
    {
      wallsCreated
      && (old(wallsCreated) ==> wallData == old(wallData) && readyEvents == old(readyEvents))
      && (!old(wallsCreated) ==>
            wallData == old(wallData) + [ManualFloor(cfg, camera.x, camera.z, cfg.roomSize * 2.0),
                                         ManualCeiling(cfg, camera.x, camera.z, cfg.roomSize * 2.0, cfg.wallHeight)]
            && readyEvents == old(readyEvents) + [ReadyCountsOf(wallData)])
    }

    /** `createManualRoom`: at most once; a floor and a ceiling around the camera. */
    method CreateManualRoom(camera: Vec3)
      modifies this`wallData, this`wallsCreated, this`readyEvents
      ensures wallsCreated
      ensures old(wallsCreated) ==> wallData == old(wallData) && readyEvents == old(readyEvents)
      ensures !old(wallsCreated) ==>
                wallData == old(wallData) + [ManualFloor(cfg, camera.x, camera.z, cfg.roomSize * 2.0),
                                             ManualCeiling(cfg, camera.x, camera.z, cfg.roomSize * 2.0, cfg.wallHeight)]
                && readyEvents == old(readyEvents) + [ReadyCountsOf(wallData)]
      ensures ManualRoomBuilt(camera)
    {
      if wallsCreated {
        return;
      }
      wallsCreated := true;
      wallData := wallData + [ManualFloor(cfg, camera.x, camera.z, cfg.roomSize * 2.0)];
      wallData := wallData + [ManualCeiling(cfg, camera.x, camera.z, cfg.roomSize * 2.0, cfg.wallHeight)];
      EmitReadyEvents();
    }

    /**
     * `initRoomCapture`: nothing when disabled; the manual room without a
     * session or without plane detection; otherwise detection starts and
     * the local reference space is requested.
     */
    method InitRoomCapture(sessionPresent: bool, planeDetection: bool, camera: Vec3)
      modifies this`hasSession, this`isDetecting, this`referenceSpaceRequested,
               this`wallData, this`wallsCreated, this`readyEvents
      ensures !enabled ==> hasSession == old(hasSession) && isDetecting == old(isDetecting)
                           && referenceSpaceRequested == old(referenceSpaceRequested) && RoomKept()
      ensures enabled ==> hasSession == sessionPresent
      ensures enabled && sessionPresent && planeDetection ==> isDetecting && referenceSpaceRequested && RoomKept()
      ensures enabled && !(sessionPresent && planeDetection) ==>
                isDetecting == old(isDetecting) && referenceSpaceRequested == old(referenceSpaceRequested)
                && ManualRoomBuilt(camera)
    {
      if !enabled {
        return;
      }
      hasSession := sessionPresent;
      if !sessionPresent || !planeDetection {
        CreateManualRoom(camera);
        return;
      }
      isDetecting := true;
      referenceSpaceRequested := true;
    }

    /** The scene's `enter-vr` listener: room capture, or straight to the manual room. */
    method OnEnterVR(sessionPresent: bool, planeDetection: bool, camera: Vec3)
      modifies this`hasSession, this`isDetecting, this`referenceSpaceRequested,
               this`wallData, this`wallsCreated, this`readyEvents
      ensures !useRoomCapture ==>
                hasSession == old(hasSession) && isDetecting == old(isDetecting)
                && referenceSpaceRequested == old(referenceSpaceRequested) && ManualRoomBuilt(camera)
      ensures useRoomCapture && !enabled ==>
                hasSession == old(hasSession) && isDetecting == old(isDetecting)
                && referenceSpaceRequested == old(referenceSpaceRequested) && RoomKept()
      ensures useRoomCapture && enabled ==> hasSession == sessionPresent
      ensures useRoomCapture && enabled && sessionPresent && planeDetection ==>
                isDetecting && referenceSpaceRequested && RoomKept()
      ensures useRoomCapture && enabled && !(sessionPresent && planeDetection) ==>
                isDetecting == old(isDetecting) && referenceSpaceRequested == old(referenceSpaceRequested)
                && ManualRoomBuilt(camera)
    {
      if useRoomCapture {
        InitRoomCapture(sessionPresent, planeDetection, camera);
      } else {
        CreateManualRoom(camera);
      }
    }

    /**
     * The settled `requestReferenceSpace` promise: on success the space is
     * kept and the detection timeout starts (`startDetectionTimeout`); on
     * failure the manual room is built.
     */
    method OnReferenceSpace(ok: bool, camera: Vec3)
      requires referenceSpaceRequested
      modifies this`referenceSpaceRequested, this`hasReferenceSpace, this`timeoutPending,
               this`wallData, this`wallsCreated, this`readyEvents
      ensures !referenceSpaceRequested
      ensures ok ==> hasReferenceSpace && timeoutPending && RoomKept()
      ensures !ok ==> hasReferenceSpace == old(hasReferenceSpace) && timeoutPending == old(timeoutPending)
                      && ManualRoomBuilt(camera)
    {
      referenceSpaceRequested := false;
      if ok {
        hasReferenceSpace := true;
        timeoutPending := true;
      } else {
        CreateManualRoom(camera);
      }
    }

    /**
     * The detection timeout: the room from the planes seen so far, or the
     * manual room when there are none; detection stops either way.
     */
    method FireDetectionTimeout(camera: Vec3, normalize: Vec3 -> Vec3)
      requires Valid() && timeoutPending
      modifies this`wallData, this`wallsCreated, this`readyEvents, this`isDetecting, this`timeoutPending
      ensures Valid() && wallsCreated && !isDetecting && !timeoutPending
      ensures old(wallsCreated) ==> wallData == old(wallData) && readyEvents == old(readyEvents)
      ensures !old(wallsCreated) && |planeOrder| > 0 ==>
                wallData == old(wallData) + PlaneRecords(cfg, Planes(), normalize) + Fallbacks(cfg, Planes(), camera)
      ensures !old(wallsCreated) && |planeOrder| == 0 ==>
                wallData == old(wallData) + [ManualFloor(cfg, camera.x, camera.z, cfg.roomSize * 2.0),
                                             ManualCeiling(cfg, camera.x, camera.z, cfg.roomSize * 2.0, cfg.wallHeight)]
      ensures !old(wallsCreated) ==>
                readyEvents == old(readyEvents) + [ReadyCountsOf(wallData)]
                && FloorRecords(wallData) >= 1 && CeilingRecords(wallData) >= 1
    {
      ghost var before := wallData;
      if |planeOrder| > 0 {
        ghost var planes := Planes();
        CreateRoomFromPlanes(camera, normalize);
        if !old(wallsCreated) {
          PlaneRoomKeepsFloorAndCeiling(before, cfg, planes, normalize, camera);
        }
      } else {
        CreateManualRoom(camera);
        if !old(wallsCreated) {
          ManualRoomKeepsFloorAndCeiling(before, cfg, camera);
        }
      }
      isDetecting := false;
      timeoutPending := false;
    }

    /** The scene's `exit-vr` listener: detection stops. */
    method OnExitVR()
      modifies this`isDetecting
      ensures !isDetecting
    {
      isDetecting := false;
    }

    /** `remove`: drops every record and every stored plane. */
    method Remove()
      modifies this`wallData, this`detectedPlanes, this`planeOrder
      ensures Valid() && wallData == [] && detectedPlanes == map[] && planeOrder == []
    {
      wallData := [];
      detectedPlanes := map[];
      planeOrder := [];
    }
  }

  function PlanesOf(order: seq<nat>, planes: map<nat, PlaneData>): (ps: seq<PlaneData>)
    requires forall k :: 0 <= k < |order| ==> order[k] in planes
    ensures |ps| == |order|
    ensures forall k :: 0 <= k < |ps| ==> ps[k] == planes[order[k]]
  {
    if |order| == 0 then [] else PlanesOf(order[..|order| - 1], planes) + [planes[order[|order| - 1]]]
  }
}
