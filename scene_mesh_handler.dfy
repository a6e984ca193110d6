/**
 * The WebXR surface source (`scene-mesh-handler`): a three-slot,
 * newest-first buffer of hit-test surfaces, a frame counter that runs plane
 * detection on one frame in ten, and a registry of at most twelve detected
 * planes with labels and sizes.
 */
module SceneMeshHandler {
  import opened Common
  import RoomScanner

  /** The label of a detected plane. */
  datatype Label = FloorQuest | CeilingQuest | TableQuest | WallEast | WallWest | WallSouth | WallNorth | SurfaceQuest

  /**
   * The plane labels: horizontal planes by height (floor below 0.3, ceiling
   * above 2.0, table between 0.5 and 1.3), vertical ones by compass wall.
   */
  function LabelOf(normal: Vec3, height: real, normalize: Vec3 -> Vec3): (l: Label)
    ensures Abs(normal.y) > 0.7 ==>
              (l == FloorQuest <==> height < 0.3)
              && (l == CeilingQuest <==> height > 2.0)
              && (l == TableQuest <==> 0.5 < height < 1.3)
              && (l == SurfaceQuest <==> 0.3 <= height <= 0.5 || 1.3 <= height <= 2.0)
    ensures Abs(normal.y) <= 0.7 && Abs(normal.y) >= 0.5 ==> l == SurfaceQuest
    ensures Abs(normal.y) < 0.5 ==>
              var d := normalize(RoomScanner.Horizontal(normal));
              l == match RoomScanner.WallName(d.x, d.z)
                   case East => WallEast
                   case West => WallWest
                   case South => WallSouth
                   case North => WallNorth
  {
    var isHorizontal := Abs(normal.y) > 0.7;
    if isHorizontal && height < 0.3 then FloorQuest
    else if isHorizontal && height > 2.0 then CeilingQuest
    else if isHorizontal && 0.5 < height < 1.3 then TableQuest
    else if Abs(normal.y) < 0.5 then
      var d := normalize(RoomScanner.Horizontal(normal));
      match RoomScanner.WallName(d.x, d.z)
      case East => WallEast
      case West => WallWest
      case South => WallSouth
      case North => WallNorth
    else SurfaceQuest
  }

  /**
   * One plane extent: `Math.max(1, Math.abs(a - b || 1))`, where a missing
   * third vertex makes the difference NaN and so 1.
   */
  function Extent(a: real, b: Option<real>): (e: real)
    ensures e >= 1.0
    ensures b.Some? && Abs(a - b.value) >= 1.0 ==> e == Abs(a - b.value)
    ensures b.None? ==> e == 1.0
    ensures b.Some? ==> e == Max(1.0, Abs(a - b.value))
  {
    if b.None? then 1.0
    else
      var d := a - b.value;
      Max(1.0, Abs(if d == 0.0 then 1.0 else d))
  }

  /** Width and height from the first and third polygon vertices, 1 without a polygon. */
  function PlaneSize(polygon: seq<Vec3>): (wh: (real, real))
    ensures wh.0 >= 1.0 && wh.1 >= 1.0
    ensures |polygon| <= 2 ==> wh == (1.0, 1.0)
    ensures |polygon| > 2 ==> wh == (Max(1.0, Abs(polygon[0].x - polygon[2].x)), Max(1.0, Abs(polygon[0].z - polygon[2].z)))
  {
    if |polygon| == 0 then (1.0, 1.0)
    else
      var third := if |polygon| > 2 then Some(polygon[2]) else None;
      (Extent(polygon[0].x, if third.Some? then Some(third.value.x) else None),
       Extent(polygon[0].z, if third.Some? then Some(third.value.z) else None))
  }

  /** A plane's pose in the reference space: its position and rotated up vector. */
  datatype Pose = Pose(position: Vec3, normal: Vec3)

  /** A detected plane of the frame; `planeId` 0 stands for a missing id. */
  datatype MeshPlane = MeshPlane(planeId: int, lastChangedTime: int, pose: Option<Pose>, polygon: seq<Vec3>)

  /** `plane.planeId || plane.lastChangedTime`. */
  function PlaneId(p: MeshPlane): (id: int)
    ensures p.planeId != 0 ==> id == p.planeId
    ensures p.planeId == 0 ==> id == p.lastChangedTime
  {
    if p.planeId != 0 then p.planeId else p.lastChangedTime
  }

  datatype PlaneRecord = PlaneRecord(entity: nat, planeLabel: Label, position: Vec3, normal: Vec3, width: real, height: real)

  /** The `surface-detected` payloads: from the hit test, and from a new plane. */
  datatype Report =
    | HitReport(position: Vec3, normal: Vec3, isFloor: bool, isWall: bool, isCeiling: bool)
    | PlaneReport(position: Vec3, normal: Vec3, width: real, height: real)

  /** The plane registry and what `processPlanes` adds to the scene. */
  datatype Registry = Registry(order: seq<int>, records: map<int, PlaneRecord>, meshes: seq<nat>,
                               reports: seq<Report>, nextEntity: nat)

  /** One iteration of the `processPlanes` loop (the cap check is the loop's `break`). */
  function AddPlane(r: Registry, p: MeshPlane, normalize: Vec3 -> Vec3): Registry
  {
    if |r.order| >= 12 then r
    else
      var id := PlaneId(p);
      if id in r.records || p.pose.None? then r
      else
        var pose := p.pose.value;
        var size := PlaneSize(p.polygon);
        var rec := PlaneRecord(r.nextEntity, LabelOf(pose.normal, pose.position.y, normalize), pose.position, pose.normal,
                               size.0, size.1);
        Registry(r.order + [id], r.records[id := rec], r.meshes + [r.nextEntity],
                 r.reports + [PlaneReport(pose.position, pose.normal, size.0, size.1)], r.nextEntity + 1)
  }

  function AddPlanes(r: Registry, ps: seq<MeshPlane>, normalize: Vec3 -> Vec3): Registry
  {
    if |ps| == 0 then r else AddPlane(AddPlanes(r, ps[..|ps| - 1], normalize), ps[|ps| - 1], normalize)
  }

  /** The registry's shape: distinct ids in insertion order, one record each, at most twelve. */
  ghost predicate WellFormed(r: Registry)
  {
    |r.order| <= 12
    && (forall i, j :: 0 <= i < j < |r.order| ==> r.order[i] != r.order[j])
    && (forall id :: id in r.records <==> id in r.order)
  }

  /**
   * Processing planes keeps the registry well formed (so never above twelve
   * planes), only appends, and never replaces a known plane's record.
   */
  lemma {:induction false} AddPlanesKeepsShape(r: Registry, ps: seq<MeshPlane>, normalize: Vec3 -> Vec3)
    requires WellFormed(r)
    ensures var r' := AddPlanes(r, ps, normalize);
            WellFormed(r') && r.order <= r'.order
            && (forall id :: id in r.records ==> id in r'.records && r'.records[id] == r.records[id])
  {
    if |ps| > 0 {
      var ps0 := ps[..|ps| - 1];
      AddPlanesKeepsShape(r, ps0, normalize);
      var mid := AddPlanes(r, ps0, normalize);
      var r' := AddPlane(mid, ps[|ps| - 1], normalize);
      if r' != mid {
        var id := PlaneId(ps[|ps| - 1]);
        assert id !in mid.order;
        assert r'.order == mid.order + [id];
        assert mid.order <= r'.order;
      }
    }
  }

  /** Once twelve planes are known, further planes change nothing: the early `return` and the `break`. */
  lemma {:induction false} FullRegistryStays(r: Registry, ps: seq<MeshPlane>, normalize: Vec3 -> Vec3)
    requires |r.order| >= 12
    ensures AddPlanes(r, ps, normalize) == r
  {
    if |ps| > 0 {
      FullRegistryStays(r, ps[..|ps| - 1], normalize);
    }
  }

  /** A hit-test surface in the buffer. */
  datatype HitSurface = HitSurface(position: Vec3, normal: Vec3)

  /** `unshift` then `pop` beyond three: the newest first, at most three. */
  function PushNewest(buffer: seq<HitSurface>, s: HitSurface): (b: seq<HitSurface>)
    requires |buffer| <= 3
    ensures 1 <= |b| <= 3 && b[0] == s
    ensures |b| == if |buffer| < 3 then |buffer| + 1 else 3
    ensures forall i :: 1 <= i < |b| ==> b[i] == buffer[i - 1]
  {
    var pushed := [s] + buffer;
    if |pushed| > 3 then pushed[..3] else pushed
  }

  /** What `getDetectedSurface` returns (its rotation is left to the renderer). */
  datatype DetectedSurface = DetectedSurface(position: Vec3, normal: Vec3, horizontal: bool, isRealSurface: bool)

  function GetDetectedSurface(buffer: seq<HitSurface>): (r: Option<DetectedSurface>)
    ensures r.None? <==> |buffer| == 0
    ensures r.Some? ==> r.value.position == buffer[0].position && r.value.normal == buffer[0].normal
                        && (r.value.horizontal <==> Abs(buffer[0].normal.y) > 0.7) && r.value.isRealSurface
  {
    if |buffer| == 0 then None
    else Some(DetectedSurface(buffer[0].position, buffer[0].normal, Abs(buffer[0].normal.y) > 0.7, true))
  }

  /** `lastResultTime` 0 stands for "no result yet". */
  function IsHitTestActive(hasSession: bool, hasHitTestSource: bool, hasHitTestThisFrame: bool,
                           lastResultTime: int, now: int): (r: bool)
    ensures !hasSession || !hasHitTestSource ==> !r
    ensures hasSession && hasHitTestSource && hasHitTestThisFrame ==> r
    ensures hasSession && hasHitTestSource && !hasHitTestThisFrame ==>
              (r <==> lastResultTime != 0 && now - lastResultTime < 30000)
  {
    if !hasSession || !hasHitTestSource then false
    else if hasHitTestThisFrame then true
    else if lastResultTime == 0 then false
    else now - lastResultTime < 30000
  }

  /** The `surface-detected` payload of a hit: floor, wall and ceiling by the normal's y. */
  function HitReportOf(hit: HitSurface): (r: Report)
    ensures r.HitReport? && r.position == hit.position && r.normal == hit.normal
    ensures r.isFloor <==> hit.normal.y > 0.7
    ensures r.isWall <==> -0.4 < hit.normal.y < 0.4
    ensures r.isCeiling <==> hit.normal.y < -0.7
  {
    HitReport(hit.position, hit.normal, hit.normal.y > 0.7, Abs(hit.normal.y) < 0.4, hit.normal.y < -0.7)
  }

  /** What the frame offers: its plane list, if any, and the first hit's pose, if any. */
  datatype Frame = Frame(planes: Option<seq<MeshPlane>>, hit: Option<HitSurface>)

  class Handler {
    const createVisualSurfaces: bool
    var hasSession: bool
    var hasRefSpace: bool
    var hasHitTestSource: bool
    var usesMockSurfaces: bool
    var planesEnabled: bool
    var planeCheckCount: nat
    var hasHitTestThisFrame: bool
    var lastResultTime: int
    var detectedSurfaces: seq<HitSurface>
    var planeOrder: seq<int>
    var planeRecords: map<int, PlaneRecord>
    var sceneMeshes: seq<nat>
    var spawnSurfaces: seq<nat>
    var nextEntity: nat
    /** `surface-detected` payloads, `scene-mesh-updated` payloads and `scene-mesh-handler-ready` count. */
    var reports: seq<Report>
    var meshUpdates: seq<seq<nat>>
    var readyEvents: nat
    /** The `real` count of each `surfaces-detected` event (its `mesh` and `hitTest` are always 0). */
    var detectedEvents: seq<nat>

    ghost function Reg(): Registry
      reads this`planeOrder, this`planeRecords, this`sceneMeshes, this`reports, this`nextEntity
    {
      Registry(planeOrder, planeRecords, sceneMeshes, reports, nextEntity)
    }

    ghost predicate Valid()
      reads this`planeOrder, this`planeRecords, this`detectedSurfaces, this`sceneMeshes, this`spawnSurfaces
    {
      |detectedSurfaces| <= 3
      && WellFormed(Registry(planeOrder, planeRecords, [], [], 0))
      && spawnSurfaces == sceneMeshes
    }

    constructor (createVisualSurfaces: bool)
      ensures Valid() && this.createVisualSurfaces == createVisualSurfaces
      ensures !hasSession && !hasHitTestSource && detectedSurfaces == [] && planeOrder == [] && sceneMeshes == []
      ensures reports == [] && meshUpdates == [] && detectedEvents == [] && readyEvents == 0
    {
      this.createVisualSurfaces := createVisualSurfaces;
      hasSession := false;
      hasRefSpace := false;
      hasHitTestSource := false;
      usesMockSurfaces := false;
      planesEnabled := false;
      planeCheckCount := 0;
      hasHitTestThisFrame := false;
      lastResultTime := 0;
      detectedSurfaces := [];
      planeOrder := [];
      planeRecords := map[];
      sceneMeshes := [];
      spawnSurfaces := [];
      nextEntity := 0;
      reports := [];
      meshUpdates := [];
      readyEvents := 0;
      detectedEvents := [];
    }

    /** `startSceneMeshDetection` with the renderer's session and reference space. */
    method StartSceneMeshDetection(session: bool, refSpace: bool)
      modifies this`hasSession, this`hasRefSpace, this`readyEvents, this`planesEnabled, this`planeCheckCount
      ensures hasSession == session && hasRefSpace == refSpace
      ensures !session ==> readyEvents == old(readyEvents) && planesEnabled == old(planesEnabled)
                           && planeCheckCount == old(planeCheckCount)
      ensures session ==> readyEvents == old(readyEvents) + 2 && planesEnabled && planeCheckCount == 0
    {
      hasSession := session;
      hasRefSpace := refSpace;
      if !hasSession {
        return;
      }
      readyEvents := readyEvents + 2;
      planesEnabled := true;
      planeCheckCount := 0;
    }

    /**
     * The outcome of `initializeHitTest`: a viewer-space source, else a
     * local-space one, else mock surfaces. When both requests fail the
     * source leaves `hitTestSource` as it was rather than clearing it; it is
     * only reached from `startSceneMeshDetection`, after `init` or
     * `stopSceneMeshDetection` has left it null, so clearing it here gives
     * the same state.
     */
    method InitializeHitTest(viewerSourceOk: bool, localSourceOk: bool)
      modifies this`hasHitTestSource, this`usesMockSurfaces
      ensures hasHitTestSource == (viewerSourceOk || localSourceOk)
      ensures usesMockSurfaces == (old(usesMockSurfaces) || (!viewerSourceOk && !localSourceOk))
    {
      if viewerSourceOk || localSourceOk {
        hasHitTestSource := true;
      } else {
        hasHitTestSource := false;
        usesMockSurfaces := true;
      }
    }

    /**
     * `processPlanes`: nothing unless visual surfaces are enabled or while
     * twelve planes are known; otherwise new planes with a pose are
     * registered, and if any was added one mesh update and one
     * `surfaces-detected` event with the spawn-surface count follow.
     */
    method ProcessPlanes(planes: seq<MeshPlane>, normalize: Vec3 -> Vec3)
      requires Valid()
      modifies this`planeOrder, this`planeRecords, this`sceneMeshes, this`spawnSurfaces, this`reports,
               this`nextEntity, this`meshUpdates, this`detectedEvents
      ensures Valid()
      ensures !createVisualSurfaces ==> Reg() == old(Reg()) && meshUpdates == old(meshUpdates)
      ensures createVisualSurfaces ==> Reg() == AddPlanes(old(Reg()), planes, normalize)
      ensures spawnSurfaces == sceneMeshes
      ensures meshUpdates == if |planeOrder| > old(|planeOrder|) then old(meshUpdates) + [spawnSurfaces] else old(meshUpdates)
      ensures detectedEvents ==
                if |planeOrder| > old(|planeOrder|) then old(detectedEvents) + [|spawnSurfaces|] else old(detectedEvents)
    {
      if !createVisualSurfaces {
        return;
      }
      var newPlanesAdded := RegisterPlanes(planes, normalize);
      if newPlanesAdded {
        meshUpdates := meshUpdates + [spawnSurfaces];
        detectedEvents := detectedEvents + [|spawnSurfaces|];
      }
    }

    /** The loop of `processPlanes`: the registry folds the planes, and the flag says whether one was added. */
    method RegisterPlanes(planes: seq<MeshPlane>, normalize: Vec3 -> Vec3) returns (newPlanesAdded: bool)
      requires Valid()
      modifies this`planeOrder, this`planeRecords, this`sceneMeshes, this`spawnSurfaces, this`reports, this`nextEntity
      ensures Valid()
      ensures Reg() == AddPlanes(old(Reg()), planes, normalize) && spawnSurfaces == sceneMeshes
      ensures newPlanesAdded <==> |planeOrder| > old(|planeOrder|)
    {
      if |planeOrder| >= 12 {
        FullRegistryStays(Reg(), planes, normalize);
        return false;
      }
      newPlanesAdded := false;
      ghost var start := Reg();
      assert WellFormed(start);
      var i := 0;
      while i < |planes|
        invariant 0 <= i <= |planes|
        invariant Reg() == AddPlanes(start, planes[..i], normalize)
        invariant WellFormed(Reg()) && spawnSurfaces == sceneMeshes
        invariant newPlanesAdded <==> |planeOrder| > |start.order|
        invariant |planeOrder| >= |start.order|
        modifies this`planeOrder, this`planeRecords, this`sceneMeshes, this`spawnSurfaces, this`reports, this`nextEntity
      {
        if |planeOrder| >= 12 {
          FullRegistryStays(Reg(), planes[i..], normalize);
          AddPlanesSplit(start, planes, i, normalize);
          break;
        }
        AddPlanesStep(start, planes, i, normalize);
        AddPlaneKeepsShape(Reg(), planes[i], normalize);
        var p := planes[i];
        var id := PlaneId(p);
        if id !in planeRecords {
          if p.pose.None? {
            i := i + 1;
            continue;
          }
          var pose := p.pose.value;
          var size := PlaneSize(p.polygon);
          var rec := PlaneRecord(nextEntity, LabelOf(pose.normal, pose.position.y, normalize), pose.position, pose.normal,
                                 size.0, size.1);
          planeRecords, planeOrder := planeRecords[id := rec], planeOrder + [id];
          sceneMeshes, spawnSurfaces, nextEntity := sceneMeshes + [nextEntity], spawnSurfaces + [nextEntity], nextEntity + 1;
          newPlanesAdded := true;
          reports := reports + [PlaneReport(pose.position, pose.normal, size.0, size.1)];
        }
        i := i + 1;
      }
      if i == |planes| {
        assert planes[..i] == planes;
      }
    }

    /**
     * `tick`: while planes are enabled the frame counter advances and nine
     * frames in ten return at once, skipping the hit test too; on the tenth
     * the frame's planes are processed.  Then, with a session and a source,
     * a hit-test pose is pushed newest-first into the three-slot buffer and
     * reported.
     */
    method Tick(frame: Option<Frame>, now: int, normalize: Vec3 -> Vec3)
      requires Valid()
      modifies this`planeCheckCount, this`hasHitTestThisFrame, this`lastResultTime, this`detectedSurfaces,
               this`planeOrder, this`planeRecords, this`sceneMeshes, this`spawnSurfaces, this`reports, this`nextEntity,
               this`meshUpdates, this`detectedEvents
      ensures Valid()
      ensures hasSession == old(hasSession) && hasHitTestSource == old(hasHitTestSource) && planesEnabled == old(planesEnabled)
      ensures spawnSurfaces == sceneMeshes
      ensures planeCheckCount == old(planeCheckCount) + (if old(hasSession && planesEnabled) then 1 else 0)
      ensures hasHitTestThisFrame <==>
                (!old(hasSession && planesEnabled) || planeCheckCount % 10 == 0)
                && hasSession && hasHitTestSource && frame.Some? && frame.value.hit.Some?
      ensures !hasHitTestThisFrame ==> detectedSurfaces == old(detectedSurfaces) && lastResultTime == old(lastResultTime)
      ensures hasHitTestThisFrame ==>
                detectedSurfaces == PushNewest(old(detectedSurfaces), frame.value.hit.value) && lastResultTime == now
      ensures var scanned := old(hasSession && planesEnabled) && planeCheckCount % 10 == 0
                             && createVisualSurfaces && frame.Some? && frame.value.planes.Some?;
              var r := if scanned then AddPlanes(old(Reg()), frame.value.planes.value, normalize) else old(Reg());
              Reg() == if hasHitTestThisFrame then r.(reports := r.reports + [HitReportOf(frame.value.hit.value)]) else r
      ensures meshUpdates == if |planeOrder| > old(|planeOrder|) then old(meshUpdates) + [spawnSurfaces] else old(meshUpdates)
      ensures detectedEvents ==
                if |planeOrder| > old(|planeOrder|) then old(detectedEvents) + [|spawnSurfaces|] else old(detectedEvents)
    {
      var proceed := PlaneCheck(frame, normalize);
      if proceed {
        HitTest(frame, now);
      }
    }

    /**
     * The plane half of `tick`: the hit flag is cleared, the counter advances
     * while planes are tracked, and every tenth such frame scans the frame's
     * planes; `proceed` is false on the nine frames that return at once.
     */
    method PlaneCheck(frame: Option<Frame>, normalize: Vec3 -> Vec3) returns (proceed: bool)
      requires Valid()
      modifies this`planeCheckCount, this`hasHitTestThisFrame,
               this`planeOrder, this`planeRecords, this`sceneMeshes, this`spawnSurfaces, this`reports, this`nextEntity,
               this`meshUpdates, this`detectedEvents
      ensures Valid() && !hasHitTestThisFrame && spawnSurfaces == sceneMeshes
      ensures planeCheckCount == old(planeCheckCount) + (if old(hasSession && planesEnabled) then 1 else 0)
      ensures proceed <==> !old(hasSession && planesEnabled) || planeCheckCount % 10 == 0
      ensures var scanned := old(hasSession && planesEnabled) && planeCheckCount % 10 == 0
                             && createVisualSurfaces && frame.Some? && frame.value.planes.Some?;
              Reg() == if scanned then AddPlanes(old(Reg()), frame.value.planes.value, normalize) else old(Reg())
      ensures meshUpdates == if |planeOrder| > old(|planeOrder|) then old(meshUpdates) + [spawnSurfaces] else old(meshUpdates)
      ensures detectedEvents ==
                if |planeOrder| > old(|planeOrder|) then old(detectedEvents) + [|spawnSurfaces|] else old(detectedEvents)
    {
      hasHitTestThisFrame := false;
      proceed := true;
      if hasSession && planesEnabled {
        planeCheckCount := planeCheckCount + 1;
        if planeCheckCount % 10 != 0 {
          proceed := false;
          return;
        }
        if frame.Some? && frame.value.planes.Some? {
          ProcessPlanes(frame.value.planes.value, normalize);
        }
      }
    }

    /** The hit-test half of `tick`: with a session, a source and a hit, buffer and report it. */
    method HitTest(frame: Option<Frame>, now: int)
      requires Valid() && !hasHitTestThisFrame
      modifies this`hasHitTestThisFrame, this`lastResultTime, this`detectedSurfaces, this`reports
      ensures Valid()
      ensures hasHitTestThisFrame <==> hasSession && hasHitTestSource && frame.Some? && frame.value.hit.Some?
      ensures !hasHitTestThisFrame ==>
                detectedSurfaces == old(detectedSurfaces) && lastResultTime == old(lastResultTime) && reports == old(reports)
      ensures hasHitTestThisFrame ==>
                detectedSurfaces == PushNewest(old(detectedSurfaces), frame.value.hit.value) && lastResultTime == now
                && reports == old(reports) + [HitReportOf(frame.value.hit.value)]
    {
      if !hasSession || !hasHitTestSource {
        return;
      }
      if frame.None? || frame.value.hit.None? {
        return;
      }
      var hit := frame.value.hit.value;
      detectedSurfaces, hasHitTestThisFrame, lastResultTime := PushNewest(detectedSurfaces, hit), true, now;
      reports := reports + [HitReportOf(hit)];
    }

    /** `stopSceneMeshDetection`: everything detected is dropped and the XR handles cleared. */
    method StopSceneMeshDetection()
      modifies this`sceneMeshes, this`spawnSurfaces, this`hasHitTestSource, this`hasSession, this`hasRefSpace,
               this`detectedSurfaces, this`planeOrder, this`planeRecords, this`planesEnabled
      ensures Valid()
      ensures sceneMeshes == [] && spawnSurfaces == [] && detectedSurfaces == [] && planeOrder == [] && planeRecords == map[]
      ensures !hasHitTestSource && !hasSession && !hasRefSpace && !planesEnabled
    {
      sceneMeshes := [];
      spawnSurfaces := [];
      hasHitTestSource := false;
      hasSession := false;
      hasRefSpace := false;
      detectedSurfaces := [];
      planeOrder := [];
      planeRecords := map[];
      planesEnabled := false;
    }
  }

  /** Folding a prefix and then the rest is folding the whole. */
  lemma AddPlanesStep(r: Registry, ps: seq<MeshPlane>, i: nat, normalize: Vec3 -> Vec3)
    requires i < |ps|
    ensures AddPlanes(r, ps[..i + 1], normalize) == AddPlane(AddPlanes(r, ps[..i], normalize), ps[i], normalize)
  {
    assert ps[..i + 1][..i] == ps[..i];
  }

  /** One plane keeps the registry well formed and never shortens it. */
  lemma AddPlaneKeepsShape(r: Registry, p: MeshPlane, normalize: Vec3 -> Vec3)
    requires WellFormed(r)
    ensures WellFormed(AddPlane(r, p, normalize)) && |AddPlane(r, p, normalize).order| >= |r.order|
  {
    var r' := AddPlane(r, p, normalize);
    if r' != r {
      assert PlaneId(p) !in r.order;
      assert r'.order == r.order + [PlaneId(p)];
    }
  }

  lemma {:induction false} AddPlanesSplit(r: Registry, ps: seq<MeshPlane>, i: nat, normalize: Vec3 -> Vec3)
    requires i <= |ps|
    requires AddPlanes(AddPlanes(r, ps[..i], normalize), ps[i..], normalize) == AddPlanes(r, ps[..i], normalize)
    ensures AddPlanes(r, ps, normalize) == AddPlanes(r, ps[..i], normalize)
  {
    AddPlanesConcat(r, ps[..i], ps[i..], normalize);
    assert ps[..i] + ps[i..] == ps;
  }

  lemma {:induction false} AddPlanesConcat(r: Registry, a: seq<MeshPlane>, b: seq<MeshPlane>, normalize: Vec3 -> Vec3)
    ensures AddPlanes(r, a + b, normalize) == AddPlanes(AddPlanes(r, a, normalize), b, normalize)
  {
    if |b| == 0 {
      assert a + b == a;
    } else {
      AddPlanesConcat(r, a, b[..|b| - 1], normalize);
      assert (a + b)[..|a + b| - 1] == a + b[..|b| - 1];
    }
  }
}
