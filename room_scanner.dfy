/**
 * The room scan phase (`room-scanner`): surfaces reported while scanning are
 * classified, wall normals name one of four compass walls, the scan panel
 * shows readiness, and the scan completes once (by an arrow on its button
 * or after the scan duration) and then starts the game.
 */
module RoomScanner {
  import opened Common

  datatype WallDir = East | West | South | North

  datatype SurfaceType = FloorSurface | CeilingSurface | WallSurface(dir: WallDir) | OtherSurface

  /** The compass wall of a horizontal direction (x, z). */
  function WallName(x: real, z: real): (w: WallDir)
    ensures w == East <==> Abs(x) > Abs(z) && x > 0.0
    ensures w == West <==> Abs(x) > Abs(z) && x <= 0.0
    ensures w == South <==> Abs(x) <= Abs(z) && z > 0.0
    ensures w == North <==> Abs(x) <= Abs(z) && z <= 0.0
  {
    if Abs(x) > Abs(z) then (if x > 0.0 then East else West)
    else (if z > 0.0 then South else North)
  }

  lemma AbsScale(k: real, x: real)
    requires k > 0.0
    ensures Abs(k * x) == k * Abs(x)
  {
    if x < 0.0 {
      assert k * x < 0.0;
      assert -(k * x) == k * (-x);
    } else {
      assert k * x >= 0.0;
    }
  }

  lemma LessScale(k: real, a: real, b: real)
    requires k > 0.0
    ensures k * a > k * b <==> a > b
  {
    assert k * a - k * b == k * (a - b);
  }

  /**
   * `normalize` divides by the (positive) length, so the wall name of the
   * normalised direction is the wall name of the raw normal's x and z.
   */
  lemma WallNameScaleInvariant(x: real, z: real, k: real)
    requires k > 0.0
    ensures WallName(k * x, k * z) == WallName(x, z)
  {
    var ax, az := Abs(x), Abs(z);
    AbsScale(k, x);
    AbsScale(k, z);
    LessScale(k, ax, az);
    assert (Abs(k * x) > Abs(k * z)) == (ax > az);
    LessScale(k, x, 0.0);
    LessScale(k, z, 0.0);
  }

  /** The horizontal part of a normal, before normalisation. */
  function Horizontal(normal: Vec3): Vec3 { Vec3(normal.x, 0.0, normal.z) }

  /** `onSurfaceDetected`'s classification; `normalize` is the foreign vector normalisation. */
  function Classify(normal: Vec3, normalize: Vec3 -> Vec3): (t: SurfaceType)
    ensures t == FloorSurface <==> normal.y > 0.7
    ensures t == CeilingSurface <==> normal.y < -0.7
    ensures t.WallSurface? <==> -0.7 <= normal.y <= 0.7 && Abs(normal.y) < 0.5
    ensures t.WallSurface? ==> t.dir == WallName(normalize(Horizontal(normal)).x, normalize(Horizontal(normal)).z)
  {
    if normal.y > 0.7 then FloorSurface
    else if normal.y < -0.7 then CeilingSurface
    else if Abs(normal.y) < 0.5 then
      var wallDir := normalize(Horizontal(normal));
      WallSurface(WallName(wallDir.x, wallDir.z))
    else OtherSurface
  }

  /** When `normalize` scales by a positive factor, a wall's name depends only on the raw normal. */
  lemma ClassifyRawNormal(normal: Vec3, normalize: Vec3 -> Vec3, k: real)
    requires k > 0.0 && normalize(Horizontal(normal)) == Scale(Horizontal(normal), k)
    requires Classify(normal, normalize).WallSurface?
    ensures Classify(normal, normalize).dir == WallName(normal.x, normal.z)
  {
    WallNameScaleInvariant(normal.x, normal.z, k);
    assert normal.x * k == k * normal.x && normal.z * k == k * normal.z;
  }

  datatype Detected = Detected(surfaceType: SurfaceType, position: Vec3, normal: Vec3, timestamp: int)

  predicate Distinct(walls: seq<WallDir>)
  {
    forall i, j :: 0 <= i < j < |walls| ==> walls[i] != walls[j]
  }

  function Elements(walls: seq<WallDir>): set<WallDir>
  {
    set w | w in walls
  }

  lemma DistinctElements(walls: seq<WallDir>)
    requires Distinct(walls)
    ensures |Elements(walls)| == |walls|
    decreases |walls|
  {
    if |walls| > 0 {
      var init := walls[..|walls| - 1];
      assert Distinct(init);
      DistinctElements(init);
      assert Elements(walls) == Elements(init) + {walls[|walls| - 1]};
      assert walls[|walls| - 1] !in Elements(init);
    }
  }

  lemma SubsetCard(a: set<WallDir>, b: set<WallDir>)
    requires a <= b
    ensures |a| <= |b|
    decreases |b|
  {
    if a != {} {
      var x :| x in a;
      SubsetCard(a - {x}, b - {x});
    }
  }

  /** A `Set` of compass walls has at most four members. */
  lemma {:induction false} WallsAtMostFour(walls: seq<WallDir>)
    requires Distinct(walls)
    ensures |walls| <= 4
  {
    DistinctElements(walls);
    var all := {East, West, South, North};
    assert Elements(walls) <= all by {
      forall w | w in Elements(walls) ensures w in all {
        assert w.East? || w.West? || w.South? || w.North?;
      }
    }
    SubsetCard(Elements(walls), all);
  }

  /** The panel's state after `updateScanUI`. */
  datatype ScanMessage = ScanCompleteMessage | NeedWalls(walls: int) | NeedSurfaces(surfaces: int)

  function Readiness(totalSurfaces: nat, wallCount: nat, minSurfaces: int, minWalls: int): (m: ScanMessage)
    ensures m == ScanCompleteMessage <==> totalSurfaces >= minSurfaces && wallCount >= minWalls
    ensures m.NeedWalls? <==> wallCount < minWalls
    ensures m.NeedWalls? ==> m.walls == minWalls - wallCount && m.walls > 0
    ensures m.NeedSurfaces? ==> m.surfaces == minSurfaces - totalSurfaces && m.surfaces > 0
  {
    if totalSurfaces >= minSurfaces && wallCount >= minWalls then ScanCompleteMessage
    else if wallCount < minWalls then NeedWalls(minWalls - wallCount)
    else NeedSurfaces(minSurfaces - totalSurfaces)
  }

  datatype ScanEvent =
    | ScanStarted
    | EnableVisualization
    | DisableVisualization
    | ScanCompleted(surfaces: seq<Detected>, walls: seq<WallDir>)
    | StartGame

  class Scanner {
    const minWalls: int
    const minSurfaces: int
    const scanDuration: int
    var isScanning: bool
    var scanComplete: bool
    /** The `Set` of wall names, in insertion order. */
    var detectedWalls: seq<WallDir>
    var detectedSurfaces: seq<Detected>
    var scanStartTime: int
    /** Whether the scan panel and its button exist. */
    var hasPanel: bool
    var hasButton: bool
    /** The panel's message, once shown. */
    var message: Option<ScanMessage>
    var events: seq<ScanEvent>

    ghost predicate Valid()
      reads this
    {
      Distinct(detectedWalls)
      && !(isScanning && scanComplete)
      && (isScanning ==> hasPanel && hasButton)
      && (forall i :: 0 <= i < |detectedWalls| ==> WallSurface(detectedWalls[i]) in TypesOf(detectedSurfaces))
    }

    ghost function TypesOf(surfaces: seq<Detected>): set<SurfaceType>
    {
      set k | 0 <= k < |surfaces| :: surfaces[k].surfaceType
    }

    constructor (minWalls: int, minSurfaces: int, scanDuration: int)
      ensures Valid() && this.minWalls == minWalls && this.minSurfaces == minSurfaces && this.scanDuration == scanDuration
      ensures !isScanning && !scanComplete && detectedWalls == [] && detectedSurfaces == [] && events == []
    {
      this.minWalls := minWalls;
      this.minSurfaces := minSurfaces;
      this.scanDuration := scanDuration;
      isScanning := false;
      scanComplete := false;
      detectedWalls := [];
      detectedSurfaces := [];
      scanStartTime := 0;
      hasPanel := false;
      hasButton := false;
      message := None;
      events := [];
    }

    /** `startScan` at time `now`: nothing while scanning or after completion. */
    method StartScan(now: int)
      requires Valid()
      modifies this
      ensures Valid()
      ensures old(isScanning) || old(scanComplete) ==>
                isScanning == old(isScanning) && scanComplete == old(scanComplete)
                && detectedWalls == old(detectedWalls) && detectedSurfaces == old(detectedSurfaces) && events == old(events)
                && scanStartTime == old(scanStartTime) && hasPanel == old(hasPanel) && hasButton == old(hasButton)
                && message == old(message)
      ensures !old(isScanning) && !old(scanComplete) ==>
                isScanning && !scanComplete && scanStartTime == now && detectedWalls == [] && detectedSurfaces == []
                && hasPanel && hasButton && message.None? && events == old(events) + [EnableVisualization, ScanStarted]
    {
      if isScanning || scanComplete {
        return;
      }
      isScanning := true;
      scanStartTime := now;
      detectedWalls := [];
      detectedSurfaces := [];
      hasPanel := true;
      hasButton := true;
      message := None;
      events := events + [EnableVisualization, ScanStarted];
    }

    /**
     * What `onSurfaceDetected` leaves: the surface appended, a new wall name
     * added to the set, and the panel (if any) showing the readiness.
     */
    twostate predicate Recorded(normal: Vec3, normalize: Vec3 -> Vec3, position: Vec3, now: int)
      reads this
    {
      var t := Classify(normal, normalize);
      detectedSurfaces == old(detectedSurfaces) + [Detected(t, position, normal, now)]
      && detectedWalls == (if t.WallSurface? && t.dir !in old(detectedWalls) then old(detectedWalls) + [t.dir]
                           else old(detectedWalls))
      && message == (if hasPanel then Some(Readiness(|detectedSurfaces|, |detectedWalls|, minSurfaces, minWalls))
                     else old(message))
    }

    /** What `completeScan` leaves while scanning: scan over, panel removed, the three events in order. */
    twostate predicate Completed()
      reads this
    {
      !isScanning && scanComplete && !hasPanel
      && events == old(events) + [DisableVisualization, ScanCompleted(detectedSurfaces, detectedWalls), StartGame]
    }

    /** Nothing `completeScan` may change has changed. */
    twostate predicate NotCompleted()
      reads this
    {
      isScanning == old(isScanning) && scanComplete == old(scanComplete) && hasPanel == old(hasPanel)
      && events == old(events)
    }

    /** The `surface-detected` listener: surfaces count only while scanning. */
    method OnSurfaceEvent(normal: Vec3, normalize: Vec3 -> Vec3, position: Vec3, now: int)
      requires Valid()
      modifies this`detectedWalls, this`detectedSurfaces, this`message
      ensures Valid()
      ensures !isScanning ==> detectedSurfaces == old(detectedSurfaces) && detectedWalls == old(detectedWalls)
                              && message == old(message)
      ensures isScanning ==> Recorded(normal, normalize, position, now)
    {
      if isScanning {
        OnSurfaceDetected(normal, normalize, position, now);
      }
    }

    /**
     * `onSurfaceDetected`: a wall adds its compass name to the set, and the
     * surface is always appended.
     */
    method OnSurfaceDetected(normal: Vec3, normalize: Vec3 -> Vec3, position: Vec3, now: int)
      requires Valid()
      modifies this`detectedWalls, this`detectedSurfaces, this`message
      ensures Valid()
      ensures Recorded(normal, normalize, position, now)
      ensures |detectedWalls| <= 4
    {
      var t := Classify(normal, normalize);
      if t.WallSurface? && t.dir !in detectedWalls {
        detectedWalls := detectedWalls + [t.dir];
      }
      detectedSurfaces := detectedSurfaces + [Detected(t, position, normal, now)];
      assert TypesOf(detectedSurfaces) == TypesOf(old(detectedSurfaces)) + {t} by {
        forall x | x in TypesOf(detectedSurfaces) ensures x in TypesOf(old(detectedSurfaces)) + {t} {
          var k :| 0 <= k < |detectedSurfaces| && detectedSurfaces[k].surfaceType == x;
          if k < |old(detectedSurfaces)| {
            assert old(detectedSurfaces)[k].surfaceType == x;
          }
        }
        forall x | x in TypesOf(old(detectedSurfaces)) ensures x in TypesOf(detectedSurfaces) {
          var k :| 0 <= k < |old(detectedSurfaces)| && old(detectedSurfaces)[k].surfaceType == x;
          assert detectedSurfaces[k].surfaceType == x;
        }
        assert detectedSurfaces[|detectedSurfaces| - 1].surfaceType == t;
      }
      WallsAtMostFour(detectedWalls);
      UpdateScanUI();
    }

    /** `updateScanUI`: the panel, if any, shows `Readiness`. */
    method UpdateScanUI()
      modifies this`message
      ensures hasPanel ==> message == Some(Readiness(|detectedSurfaces|, |detectedWalls|, minSurfaces, minWalls))
      ensures !hasPanel ==> message == old(message)
    {
      if !hasPanel {
        return;
      }
      message := Some(Readiness(|detectedSurfaces|, |detectedWalls|, minSurfaces, minWalls));
    }

    /** `completeScan`: only while scanning; removes the panel and starts the game. */
    method CompleteScan()
      requires Valid()
      modifies this`isScanning, this`scanComplete, this`hasPanel, this`events
      ensures Valid()
      ensures !old(isScanning) ==> NotCompleted()
      ensures old(isScanning) ==> Completed()
    {
      if !isScanning {
        return;
      }
      isScanning := false;
      scanComplete := true;
      hasPanel := false;
      events := events + [DisableVisualization, ScanCompleted(detectedSurfaces, detectedWalls), StartGame];
    }

    /** `checkArrowHit` with the arrow's distance to the button: completes the scan within 0.35. */
    method CheckArrowHit(distance: real) returns (hit: bool)
      requires Valid()
      modifies this`isScanning, this`scanComplete, this`hasPanel, this`events
      ensures Valid()
      ensures hit <==> old(isScanning) && hasButton && distance < 0.35
      ensures hit ==> Completed()
      ensures !hit ==> NotCompleted()
    {
      if !isScanning || !hasButton {
        return false;
      }
      if distance < 0.35 {
        CompleteScan();
        return true;
      }
      return false;
    }

    /** `tick` at time `now`: after the scan duration, completes once enough surfaces are known, whatever the wall count. */
    method Tick(now: int)
      requires Valid()
      modifies this`isScanning, this`scanComplete, this`hasPanel, this`events
      ensures Valid()
      ensures old(isScanning) && now - scanStartTime > scanDuration && |detectedSurfaces| >= minSurfaces ==> Completed()
      ensures !(old(isScanning) && now - scanStartTime > scanDuration && |detectedSurfaces| >= minSurfaces) ==>
                NotCompleted()
    {
      if !isScanning {
        return;
      }
      if now - scanStartTime > scanDuration {
        if |detectedSurfaces| >= minSurfaces {
          CompleteScan();
        }
      }
    }
  }

  /** The scan completes at most once: a second completion, by any route, changes nothing. */
  method CompleteOnce(s: Scanner, distance: real, now: int)
    requires s.Valid()
    modifies s
    ensures s.Valid()
    ensures |s.events| <= |old(s.events)| + 3
  {
    s.CompleteScan();
    var hit := s.CheckArrowHit(distance);
    assert !hit;
    s.Tick(now);
    s.CompleteScan();
  }
}
