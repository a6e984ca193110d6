/**
 * The surface registry (`surface-detector`): real surfaces reported by hit
 * testing are keyed by their rounded position, counted for stability,
 * validated and classified into horizontal and vertical lists, from which a
 * spawn point is drawn.
 */
module SurfaceDetector {
  import opened Common

  /** `getSurfaceKey`: the three rounded decimetre coordinates. */
  datatype Key = Key(x: int, y: int, z: int)

  function KeyOf(p: Vec3): (k: Key)
    ensures k.x as real - 0.5 <= p.x * 10.0 < k.x as real + 0.5
    ensures k.y as real - 0.5 <= p.y * 10.0 < k.y as real + 0.5
    ensures k.z as real - 0.5 <= p.z * 10.0 < k.z as real + 0.5
  {
    Key(JsRound(p.x * 10.0), JsRound(p.y * 10.0), JsRound(p.z * 10.0))
  }

  /** Positions more than a decimetre apart along x never share a key. */
  lemma {:induction false} KeySeparatesX(p: Vec3, q: Vec3)
    requires q.x - p.x > 0.1
    ensures KeyOf(p) != KeyOf(q)
  {
    var kp, kq := KeyOf(p), KeyOf(q);
    assert q.x * 10.0 - p.x * 10.0 > 1.0;
    assert kq.x > kp.x;
  }

  /** Positions with the same decimetre roundings share a key. */
  lemma SameRoundingSameKey(p: Vec3, q: Vec3)
    requires JsRound(p.x * 10.0) == JsRound(q.x * 10.0) && JsRound(p.y * 10.0) == JsRound(q.y * 10.0)
    requires JsRound(p.z * 10.0) == JsRound(q.z * 10.0)
    ensures KeyOf(p) == KeyOf(q)
  {
  }

  /** A surface as stored: defaults already applied to reported sizes and stability. */
  datatype Surface = Surface(position: Vec3, normal: Vec3, width: real, height: real, isRealSurface: bool, stability: real)

  /** A `surface-detected` event's payload; absent or zero sizes and stability mean "missing". */
  datatype SurfaceData = SurfaceData(position: Vec3, normal: Vec3, width: Option<real>, height: Option<real>, stability: Option<real>)

  /** `v || d` on an optional number. */
  function OrDefault(v: Option<real>, d: real): (r: real)
    ensures v.Some? && v.value != 0.0 ==> r == v.value
    ensures v.None? || v.value == 0.0 ==> r == d
  {
    if v.None? || v.value == 0.0 then d else v.value
  }

  /** `x || d` on a stored number. */
  function Or(x: real, d: real): (r: real)
    ensures x != 0.0 ==> r == x
    ensures x == 0.0 ==> r == d
  {
    if x == 0.0 then d else x
  }

  /** One `surfaceHistory` entry. */
  datatype Entry = Entry(count: nat, lastSeen: int, surface: Surface)

  /** `getSurfaceStability`. */
  function StabilityOf(history: map<Key, Entry>, key: Key): (n: nat)
    ensures key !in history ==> n == 0
    ensures key in history ==> n == history[key].count
  {
    if key in history then history[key].count else 0
  }

  /** The sighting part of `updateSurfaceStability`: a new key starts at 1, a known one gains 1. */
  function Sighted(history: map<Key, Entry>, key: Key, surface: Surface, now: int): (h: map<Key, Entry>)
    ensures h.Keys == history.Keys + {key}
    ensures h[key] == Entry(StabilityOf(history, key) + 1, now, surface)
    ensures forall k :: k in history && k != key ==> h[k] == history[k]
  {
    if key in history then history[key := Entry(history[key].count + 1, now, surface)]
    else history[key := Entry(1, now, surface)]
  }

  /** The eviction part: entries last seen more than 3000 ms before `now` go. */
  function Evicted(history: map<Key, Entry>, now: int): (h: map<Key, Entry>)
    ensures forall k :: k in h <==> k in history && now - history[k].lastSeen <= 3000
    ensures forall k :: k in h ==> h[k] == history[k]
  {
    map k | k in history && now - history[k].lastSeen <= 3000 :: history[k]
  }

  /** The eviction loop over the history's entries. */
  method Evict(history: map<Key, Entry>, now: int) returns (h: map<Key, Entry>)
    ensures h == Evicted(history, now)
  {
    h := history;
    var todo := history.Keys;
    while todo != {}
      invariant todo <= history.Keys
      invariant h.Keys <= history.Keys
      invariant forall k :: k in h ==> h[k] == history[k]
      invariant forall k :: k in history && k !in todo ==> (k in h <==> now - history[k].lastSeen <= 3000)
      invariant forall k :: k in todo ==> k in h
      decreases todo
    {
      var k :| k in todo;
      if now - h[k].lastSeen > 3000 {
        h := map j | j in h && j != k :: h[j];
      }
      todo := todo - {k};
    }
  }

  /** A sighting makes the key's stability exactly one more, and the key is never evicted by it. */
  lemma SightingCounts(history: map<Key, Entry>, key: Key, surface: Surface, now: int)
    ensures StabilityOf(Evicted(Sighted(history, key, surface, now), now), key) == StabilityOf(history, key) + 1
  {
    var s := Sighted(history, key, surface, now);
    assert now - s[key].lastSeen == 0;
  }

  /** Any other key keeps its count unless it is evicted, when it drops to 0. */
  lemma SightingLeavesOthers(history: map<Key, Entry>, key: Key, other: Key, surface: Surface, now: int)
    requires other != key
    ensures var n := StabilityOf(Evicted(Sighted(history, key, surface, now), now), other);
            n == (if other in history && now - history[other].lastSeen <= 3000 then history[other].count else 0)
  {
  }

  datatype Rejection = TooFar | TooSmall | Unstable

  datatype Config = Config(enabled: bool, defaultTargetHeight: real, maxDistance: real, minSurfaceArea: real,
                           stabilityFrames: real, allowFallback: bool)

  const DefaultConfig := Config(true, 0.5, 10.0, 0.25, 3.0, false)

  /** Everything a validation looks at besides the surface. */
  datatype Context = Context(cfg: Config, history: map<Key, Entry>, cameraPos: Vec3, geo: Geometry)

  /** The camera position, or (0, 1.6, 0) without a camera. */
  function CameraOrDefault(camera: Option<Vec3>): (p: Vec3)
    ensures camera.Some? ==> p == camera.value
    ensures camera.None? ==> p == Vec3(0.0, 1.6, 0.0)
  {
    if camera.Some? then camera.value else Vec3(0.0, 1.6, 0.0)
  }

  /** The area `validateSurface` checks: width × height, each defaulting to 1. */
  function Area(s: Surface): real
  {
    Or(s.width, 1.0) * Or(s.height, 1.0)
  }

  /** `validateSurface`: the first failing check, in order distance, area, stability. */
  function ValidateSurface(ctx: Context, s: Surface): (r: Option<Rejection>)
    ensures r == Some(TooFar) <==> Distance(ctx.geo, ctx.cameraPos, s.position) > ctx.cfg.maxDistance
    ensures r == Some(TooSmall) <==>
              (Distance(ctx.geo, ctx.cameraPos, s.position) <= ctx.cfg.maxDistance
               && Area(s) < ctx.cfg.minSurfaceArea)
    ensures r == Some(Unstable) <==>
              (Distance(ctx.geo, ctx.cameraPos, s.position) <= ctx.cfg.maxDistance
               && Area(s) >= ctx.cfg.minSurfaceArea
               && s.isRealSurface
               && (StabilityOf(ctx.history, KeyOf(s.position)) as real) < ctx.cfg.stabilityFrames)
  {
    if Distance(ctx.geo, ctx.cameraPos, s.position) > ctx.cfg.maxDistance then Some(TooFar)
    else if Area(s) < ctx.cfg.minSurfaceArea then Some(TooSmall)
    else if s.isRealSurface && (StabilityOf(ctx.history, KeyOf(s.position)) as real) < ctx.cfg.stabilityFrames then Some(Unstable)
    else None
  }

  datatype Kind = Horizontal | Vertical

  /** A classified surface with its (normalised) outward normal. */
  datatype Classified = Classified(surface: Surface, kind: Kind, outwardNormal: Vec3)

  /** `classifySurface`. */
  function ClassifySurface(ctx: Context, s: Surface): (r: Option<Classified>)
    ensures r.None? <==> ValidateSurface(ctx, s).Some?
    ensures r.Some? ==> r.value.surface == s && r.value.outwardNormal == ctx.geo.normalize(s.normal)
    ensures r.Some? ==> (r.value.kind == Horizontal <==> Abs(ctx.geo.normalize(s.normal).y) > 0.7)
  {
    var normal := ctx.geo.normalize(s.normal);
    var kind := if Abs(normal.y) > 0.7 then Horizontal else Vertical;
    if ValidateSurface(ctx, s).Some? then None else Some(Classified(s, kind, normal))
  }

  /** The valid surfaces of `ss`, classified, in order. */
  function ClassifyEach(ctx: Context, ss: seq<Surface>): (r: seq<Classified>)
    ensures |r| <= |ss|
  {
    if |ss| == 0 then []
    else
      var c := ClassifySurface(ctx, ss[|ss| - 1]);
      ClassifyEach(ctx, ss[..|ss| - 1]) + (if c.Some? then [c.value] else [])
  }

  function OfKind(cs: seq<Classified>, kind: Kind): seq<Classified>
  {
    if |cs| == 0 then []
    else OfKind(cs[..|cs| - 1], kind) + (if cs[|cs| - 1].kind == kind then [cs[|cs| - 1]] else [])
  }

  lemma OfKindAppend(cs: seq<Classified>, c: Classified, kind: Kind)
    ensures OfKind(cs + [c], kind) == OfKind(cs, kind) + (if c.kind == kind then [c] else [])
  {
    assert (cs + [c])[..|cs|] == cs;
  }

  /** A list holds exactly the classified surfaces of its kind. */
  lemma {:induction false} OfKindMembers(cs: seq<Classified>, kind: Kind, c: Classified)
    ensures c in OfKind(cs, kind) <==> c in cs && c.kind == kind
  {
    if |cs| > 0 {
      OfKindMembers(cs[..|cs| - 1], kind, c);
      assert cs == cs[..|cs| - 1] + [cs[|cs| - 1]];
    }
  }

  /** Every classified surface lands in exactly one of the two lists. */
  lemma {:induction false} KindsPartition(cs: seq<Classified>)
    ensures |OfKind(cs, Horizontal)| + |OfKind(cs, Vertical)| == |cs|
  {
    if |cs| > 0 {
      KindsPartition(cs[..|cs| - 1]);
    }
  }

  /** One more surface adds its classification, if any, to the end of the list of its kind. */
  lemma ClassifyStep(ctx: Context, ss: seq<Surface>, i: nat)
    requires i < |ss|
    ensures var before, after, c := ClassifyEach(ctx, ss[..i]), ClassifyEach(ctx, ss[..i + 1]), ClassifySurface(ctx, ss[i]);
            |after| == |before| + (if c.Some? then 1 else 0)
            && OfKind(after, Horizontal) == OfKind(before, Horizontal) + (if c.Some? && c.value.kind == Horizontal then [c.value] else [])
            && OfKind(after, Vertical) == OfKind(before, Vertical) + (if c.Some? && c.value.kind == Vertical then [c.value] else [])
  {
    assert ss[..i + 1][..i] == ss[..i];
    var before, c := ClassifyEach(ctx, ss[..i]), ClassifySurface(ctx, ss[i]);
    if c.Some? {
      assert ClassifyEach(ctx, ss[..i + 1]) == before + [c.value];
      OfKindAppend(before, c.value, Horizontal);
      OfKindAppend(before, c.value, Vertical);
    } else {
      assert ClassifyEach(ctx, ss[..i + 1]) == before + [];
      assert before + [] == before;
    }
  }

  /**
   * The loop of `detectSurfaces` over one list of surfaces: each valid one
   * is pushed to the list of its kind and counted.
   */
  method ClassifyInto(ctx: Context, ss: seq<Surface>, horizontal0: seq<Classified>, vertical0: seq<Classified>)
    returns (horizontal: seq<Classified>, vertical: seq<Classified>, count: nat)
    ensures horizontal == horizontal0 + OfKind(ClassifyEach(ctx, ss), Horizontal)
    ensures vertical == vertical0 + OfKind(ClassifyEach(ctx, ss), Vertical)
    ensures count == |ClassifyEach(ctx, ss)|
  {
    horizontal, vertical, count := horizontal0, vertical0, 0;
    ghost var done, hs, vs: seq<Classified> := [], [], [];
    var i := 0;
    while i < |ss|
      invariant 0 <= i <= |ss|
      invariant done == ClassifyEach(ctx, ss[..i]) && count == |done|
      invariant hs == OfKind(done, Horizontal) && vs == OfKind(done, Vertical)
      invariant horizontal == horizontal0 + hs && vertical == vertical0 + vs
    {
      ClassifyStep(ctx, ss, i);
      var c := ClassifySurface(ctx, ss[i]);
      if c.Some? {
        if c.value.kind == Horizontal {
          horizontal := horizontal + [c.value];
          hs := hs + [c.value];
        } else {
          vertical := vertical + [c.value];
          vs := vs + [c.value];
        }
        count := count + 1;
      }
      done := ClassifyEach(ctx, ss[..i + 1]);
      i := i + 1;
    }
    assert ss[..|ss|] == ss;
  }

  /** What one `detectSurfaces` pass produces: the two lists and the real and fallback counts. */
  datatype Detection = Detection(horizontal: seq<Classified>, vertical: seq<Classified>, realCount: nat, mockCount: int)

  /**
   * The two passes of `detectSurfaces`: the real surfaces when `useReal`,
   * then the fallback meshes when `useFallback`, each split by kind. The
   * lists hold exactly as many surfaces as the two passes accepted, so the
   * fallback count the source derives from the list sizes is the number of
   * fallback meshes accepted.
   */
  function Detect(ctx: Context, reals: seq<Surface>, useReal: bool, fallback: seq<Surface>, useFallback: bool): (d: Detection)
    ensures |d.horizontal| + |d.vertical| == d.realCount + d.mockCount
    ensures !useReal ==> d.realCount == 0
    ensures !useFallback ==> d.mockCount == 0
  {
    var fromReal := if useReal then ClassifyEach(ctx, reals) else [];
    var mock := if useFallback then ClassifyEach(ctx, fallback) else [];
    KindsPartition(fromReal);
    KindsPartition(mock);
    Detection(OfKind(fromReal, Horizontal) + OfKind(mock, Horizontal), OfKind(fromReal, Vertical) + OfKind(mock, Vertical),
              |fromReal|, |mock|)
  }

  /**
   * The loops of `detectSurfaces`: the real pass (skipped outright when
   * there are none), then the fallback pass appending to the same lists;
   * the mock count is what the lists gained beyond the real count.
   */
  method ClassifyLists(ctx: Context, reals: seq<Surface>, useReal: bool, fallback: seq<Surface>, useFallback: bool)
    returns (d: Detection)
    ensures d == Detect(ctx, reals, useReal, fallback, useFallback)
  {
    ghost var fromReal := if useReal then ClassifyEach(ctx, reals) else [];
    ghost var mock := if useFallback then ClassifyEach(ctx, fallback) else [];
    var h: seq<Classified>, v: seq<Classified>, realCount: nat := [], [], 0;
    if useReal && |reals| > 0 {
      h, v, realCount := ClassifyInto(ctx, reals, [], []);
      assert [] + OfKind(fromReal, Horizontal) == OfKind(fromReal, Horizontal);
      assert [] + OfKind(fromReal, Vertical) == OfKind(fromReal, Vertical);
    } else {
      assert fromReal == [];
    }
    assert h == OfKind(fromReal, Horizontal) && v == OfKind(fromReal, Vertical) && realCount == |fromReal|;
    if useFallback {
      var n;
      h, v, n := ClassifyInto(ctx, fallback, h, v);
    } else {
      assert h + OfKind(mock, Horizontal) == h;
      assert v + OfKind(mock, Vertical) == v;
    }
    KindsPartition(fromReal);
    KindsPartition(mock);
    d := Detection(h, v, realCount, |h| + |v| - realCount);
  }

  /** The counts of a `surfaces-detected` event. */
  datatype DetectedEvent = DetectedEvent(horizontal: nat, vertical: nat, realCount: nat, hitTest: nat, mesh: nat, mock: int)

  /** A spawn point of the detector; its rotation is left to the renderer. */
  datatype SpawnPoint = SpawnPoint(position: Vec3, kind: Kind, isRealSurface: bool, stability: real, normal: Vec3)

  /**
   * `getRandomHorizontalSpawnPoint` on the first horizontal surface:
   * offsets of at most 0.3 of the (default 2) size, lifted by the target
   * height, or pushed 0.5 along the normal under a ceiling.
   */
  function HorizontalSpawn(c: Classified, dx: real, dz: real, defaultTargetHeight: real): (p: SpawnPoint)
    ensures p.kind == Horizontal && p.isRealSurface == c.surface.isRealSurface && p.normal == c.outwardNormal
    ensures c.outwardNormal.y < -0.5 ==> p.position.y == c.surface.position.y + c.outwardNormal.y * 0.5
    ensures c.outwardNormal.y >= -0.5 ==> p.position.y == c.surface.position.y + defaultTargetHeight
  {
    var s := c.surface;
    var moved := Vec3(s.position.x + (dx - 0.5) * Or(s.width, 2.0) * 0.6, s.position.y,
                      s.position.z + (dz - 0.5) * Or(s.height, 2.0) * 0.6);
    var position := if c.outwardNormal.y < -0.5 then Add(moved, Scale(c.outwardNormal, 0.5))
                    else Vec3(moved.x, moved.y + defaultTargetHeight, moved.z);
    SpawnPoint(position, Horizontal, s.isRealSurface, s.stability, c.outwardNormal)
  }

  /**
   * `getRandomVerticalSpawnPoint` on the first vertical surface: a sideways
   * offset along the normalised in-plane perpendicular, a vertical offset,
   * and 0.2 out from the wall.
   */
  function VerticalSpawn(c: Classified, dy: real, dx: real, normalize: Vec3 -> Vec3): (p: SpawnPoint)
    ensures p.kind == Vertical && p.isRealSurface == c.surface.isRealSurface && p.normal == c.outwardNormal
    ensures var n := c.outwardNormal;
            var perp := normalize(Vec3(-n.z, 0.0, n.x));
            var offX := (dx - 0.5) * Or(c.surface.width, 2.0) * 0.6;
            p.position == Add(Add(Add(c.surface.position, Scale(perp, offX)),
                                  Vec3(0.0, (dy - 0.5) * Or(c.surface.height, 2.0) * 0.6, 0.0)),
                              Scale(n, 0.2))
  {
    var s := c.surface;
    var n := c.outwardNormal;
    var offY := (dy - 0.5) * Or(s.height, 2.0) * 0.6;
    var offX := (dx - 0.5) * Or(s.width, 2.0) * 0.6;
    var perp := normalize(Vec3(-n.z, 0.0, n.x));
    var position := Add(Add(Add(s.position, Scale(perp, offX)), Vec3(0.0, offY, 0.0)), Scale(n, 0.2));
    SpawnPoint(position, Vertical, s.isRealSurface, s.stability, n)
  }

  /** The two directional getters: none on an empty list, otherwise the list's first surface. */
  function HorizontalSpawnPoint(horizontal: seq<Classified>, dx: real, dz: real, defaultTargetHeight: real): (r: Option<SpawnPoint>)
    ensures r.None? <==> |horizontal| == 0
    ensures r.Some? ==> r.value == HorizontalSpawn(horizontal[0], dx, dz, defaultTargetHeight)
  {
    if |horizontal| == 0 then None else Some(HorizontalSpawn(horizontal[0], dx, dz, defaultTargetHeight))
  }

  function VerticalSpawnPoint(vertical: seq<Classified>, dy: real, dx: real, normalize: Vec3 -> Vec3): (r: Option<SpawnPoint>)
    ensures r.None? <==> |vertical| == 0
    ensures r.Some? ==> r.value == VerticalSpawn(vertical[0], dy, dx, normalize)
  {
    if |vertical| == 0 then None else Some(VerticalSpawn(vertical[0], dy, dx, normalize))
  }

  /**
   * `getRandomSpawnPoint`: none without surfaces; a vertical point only when
   * walls exist and the draw is below 0.8, otherwise the horizontal getter
   * (which is none when only walls exist and the draw is at least 0.8).
   */
  function RandomSpawnPoint(horizontal: seq<Classified>, vertical: seq<Classified>, choice: real,
                            d1: real, d2: real, defaultTargetHeight: real, normalize: Vec3 -> Vec3): (r: Option<SpawnPoint>)
    ensures |horizontal| + |vertical| == 0 ==> r.None?
    ensures r.Some? && r.value.kind == Vertical ==> |vertical| > 0 && choice < 0.8
    ensures |vertical| > 0 && choice < 0.8 ==> r == VerticalSpawnPoint(vertical, d1, d2, normalize)
    ensures !(|vertical| > 0 && choice < 0.8) ==> r == HorizontalSpawnPoint(horizontal, d1, d2, defaultTargetHeight)
  {
    if |horizontal| + |vertical| == 0 then None
    else if |vertical| > 0 && choice < 0.8 then VerticalSpawnPoint(vertical, d1, d2, normalize)
    else HorizontalSpawnPoint(horizontal, d1, d2, defaultTargetHeight)
  }

  /** The stored surface for a reported one: normal normalised, sizes and stability defaulted to 1. */
  function StoredSurface(d: SurfaceData, normalize: Vec3 -> Vec3): (s: Surface)
    ensures s.position == d.position && s.normal == normalize(d.normal) && s.isRealSurface
    ensures s.width == OrDefault(d.width, 1.0) && s.height == OrDefault(d.height, 1.0)
    ensures s.stability == OrDefault(d.stability, 1.0)
  {
    Surface(d.position, normalize(d.normal), OrDefault(d.width, 1.0), OrDefault(d.height, 1.0), true,
            OrDefault(d.stability, 1.0))
  }

  /** The values of a map in key order. */
  function ValuesInOrder(order: seq<Key>, m: map<Key, Surface>): (r: seq<Surface>)
    requires forall k :: k in order ==> k in m
    ensures |r| == |order|
    ensures forall i :: 0 <= i < |order| ==> r[i] == m[order[i]]
  {
    if |order| == 0 then [] else ValuesInOrder(order[..|order| - 1], m) + [m[order[|order| - 1]]]
  }

  class Detector {
    const cfg: Config
    var horizontal: seq<Classified>
    var vertical: seq<Classified>
    var history: map<Key, Entry>
    /** `realSurfaceMap`: keys in insertion order, and the latest surface per key. */
    var realOrder: seq<Key>
    var realSurfaces: map<Key, Surface>
    var realSurfacesEnabled: bool
    /** The debounce timer: whether one is pending, and how many are outstanding. */
    var pendingDetect: bool
    var outstandingTimers: nat
    var events: seq<DetectedEvent>

    ghost predicate Valid()
      reads this`realOrder, this`realSurfaces, this`pendingDetect, this`outstandingTimers
    {
      (forall i, j :: 0 <= i < j < |realOrder| ==> realOrder[i] != realOrder[j])
      && (forall k :: k in realSurfaces <==> k in realOrder)
      && outstandingTimers == (if pendingDetect then 1 else 0)
    }

    constructor (cfg: Config)
      ensures Valid() && this.cfg == cfg
      ensures horizontal == [] && vertical == [] && history == map[] && realOrder == [] && !pendingDetect && events == []
    {
      this.cfg := cfg;
      horizontal := [];
      vertical := [];
      history := map[];
      realOrder := [];
      realSurfaces := map[];
      realSurfacesEnabled := false;
      pendingDetect := false;
      outstandingTimers := 0;
      events := [];
    }

    /** The `scene-mesh-handler-ready` listener. */
    method EnableRealSurfaces()
      modifies this`realSurfacesEnabled
      ensures realSurfacesEnabled
    {
      realSurfacesEnabled := true;
    }

    /** `updateSurfaceStability` at time `now`. */
    method UpdateSurfaceStability(key: Key, surface: Surface, now: int)
      modifies this`history
      ensures history == Evicted(Sighted(old(history), key, surface, now), now)
      ensures StabilityOf(history, key) == StabilityOf(old(history), key) + 1
    {
      history := Sighted(history, key, surface, now);
      history := Evict(history, now);
      SightingCounts(old(history), key, surface, now);
    }

    /**
     * `onRealSurfaceDetected`: stores the surface under its key (a known key
     * keeps its place), counts the sighting, and schedules one re-detect
     * unless one is already pending.
     */
    method OnRealSurfaceDetected(data: Option<SurfaceData>, now: int, normalize: Vec3 -> Vec3)
      requires Valid()
      modifies this`realOrder, this`realSurfaces, this`history, this`pendingDetect, this`outstandingTimers
      ensures Valid()
      ensures !cfg.enabled || data.None? ==>
                realOrder == old(realOrder) && realSurfaces == old(realSurfaces) && history == old(history)
                && pendingDetect == old(pendingDetect)
      ensures cfg.enabled && data.Some? ==>
                var key := KeyOf(data.value.position);
                realSurfaces == old(realSurfaces)[key := StoredSurface(data.value, normalize)]
                && realOrder == (if key in old(realSurfaces) then old(realOrder) else old(realOrder) + [key])
                && history == Evicted(Sighted(old(history), key, StoredSurface(data.value, normalize), now), now)
                && pendingDetect && outstandingTimers == 1
    {
      if !cfg.enabled || data.None? {
        return;
      }
      var key := KeyOf(data.value.position);
      var surface := StoredSurface(data.value, normalize);
      if key !in realSurfaces {
        assert key !in realOrder;
        realOrder := realOrder + [key];
      }
      realSurfaces := realSurfaces[key := surface];
      UpdateSurfaceStability(key, surface, now);
      if !pendingDetect {
        pendingDetect := true;
        outstandingTimers := outstandingTimers + 1;
      }
    }

    /**
     * `detectSurfaces`: both lists rebuilt from the real surfaces (when
     * enabled) and, with `allowFallback`, from the scene's fallback meshes.
     */
    method DetectSurfaces(camera: Option<Vec3>, geo: Geometry, fallback: seq<Surface>)
      requires Valid()
      modifies this`horizontal, this`vertical, this`events
      ensures Detected(camera, geo, fallback)
    {
      if !cfg.enabled {
        return;
      }
      var ctx := Context(cfg, history, CameraOrDefault(camera), geo);
      var d := ClassifyLists(ctx, ValuesInOrder(realOrder, realSurfaces), realSurfacesEnabled, fallback, cfg.allowFallback);
      horizontal, vertical := d.horizontal, d.vertical;
      events := events + [DetectedEvent(|d.horizontal|, |d.vertical|, d.realCount, d.realCount, 0, d.mockCount)];
    }

    /**
     * What `detectSurfaces` leaves: nothing changes while disabled; otherwise
     * both lists are those of `Detect` on the pre-state, and one
     * `surfaces-detected` event carries their counts.
     */
    twostate predicate Detected(camera: Option<Vec3>, geo: Geometry, fallback: seq<Surface>)
      requires old(Valid())
      reads this
    {
      if !cfg.enabled then
        horizontal == old(horizontal) && vertical == old(vertical) && events == old(events)
      else
        var d := old(Detect(Context(cfg, history, CameraOrDefault(camera), geo), ValuesInOrder(realOrder, realSurfaces),
                            realSurfacesEnabled, fallback, cfg.allowFallback));
        horizontal == d.horizontal && vertical == d.vertical
        && events == old(events) + [DetectedEvent(|horizontal|, |vertical|, d.realCount, d.realCount, 0, d.mockCount)]
    }

    /** The debounce timer fires: re-detect, then clear the pending flag. */
    method FirePendingDetect(camera: Option<Vec3>, geo: Geometry, fallback: seq<Surface>)
      requires Valid() && pendingDetect
      modifies this`horizontal, this`vertical, this`events, this`pendingDetect, this`outstandingTimers
      ensures Valid() && !pendingDetect && outstandingTimers == 0
      ensures Detected(camera, geo, fallback)
    {
      DetectSurfaces(camera, geo, fallback);
      pendingDetect := false;
      outstandingTimers := outstandingTimers - 1;
    }

    /** `getRandomSpawnPoint` on the current lists. */
    function GetRandomSpawnPoint(choice: real, d1: real, d2: real, normalize: Vec3 -> Vec3): (r: Option<SpawnPoint>)
      reads this
      ensures |horizontal| + |vertical| == 0 ==> r.None?
      ensures r.Some? && r.value.kind == Vertical ==> |vertical| > 0
      ensures r.Some? && r.value.kind == Horizontal ==> |horizontal| > 0
    {
      RandomSpawnPoint(horizontal, vertical, choice, d1, d2, cfg.defaultTargetHeight, normalize)
    }
  }

  /** Reports in a burst schedule one re-detect between them. */
  method BurstSchedulesOnce(d: Detector, a: SurfaceData, b: SurfaceData, now: int, normalize: Vec3 -> Vec3)
    requires d.Valid() && d.cfg.enabled && !d.pendingDetect
    modifies d
    ensures d.Valid() && d.pendingDetect && d.outstandingTimers == 1
  {
    d.OnRealSurfaceDetected(Some(a), now, normalize);
    d.OnRealSurfaceDetected(Some(b), now, normalize);
  }
}
