/**
 * A flying arrow (`arrow-physics` component): straight-line flight at a
 * fixed speed with a lifetime cap, a ray-cast hit test over the step, and a
 * one-shot collision commit that classifies the hit object by walking the
 * scene graph's parent chain.
 */
module ArrowPhysics {
  import opened Common

  /** Identity of a three.js Object3D. */
  type Obj = nat
  /** Identity of an A-Frame entity (a DOM element). */
  type EntityId = nat

  /** An entity of the scene as the two attribute queries see it, in document order. */
  datatype SceneEntity = SceneEntity(id: EntityId, object3D: Option<Obj>, hasTargetBehavior: bool, hasGeometry: bool)

  datatype HitKind = Target | Environment

  /** One element of `collisionObjects`. */
  datatype CollisionEntry = CollisionEntry(obj: Obj, entity: EntityId, kind: HitKind)

  /**
   * The scene graph's `parent` links.  `rank` witnesses that the links are
   * acyclic: every parent has a smaller rank than its child.
   */
  datatype SceneGraph = SceneGraph(parent: map<Obj, Obj>, rank: map<Obj, nat>)

  predicate WellRanked(g: SceneGraph)
  {
    forall o :: o in g.parent ==> o in g.rank && g.parent[o] in g.rank && g.rank[g.parent[o]] < g.rank[o]
  }

  function Height(g: SceneGraph, o: Obj): nat
  {
    if o in g.rank then g.rank[o] + 1 else 0
  }

  /** `o`, its parent, its grandparent, ... up to the root. */
  function Chain(g: SceneGraph, o: Obj): (c: seq<Obj>)
    requires WellRanked(g)
    ensures |c| > 0 && c[0] == o
    ensures forall k :: 0 <= k < |c| - 1 ==> c[k] in g.parent && c[k + 1] == g.parent[c[k]]
    ensures c[|c| - 1] !in g.parent
    decreases Height(g, o)
  {
    if o in g.parent then [o] + Chain(g, g.parent[o]) else [o]
  }

  function TargetEntry(e: SceneEntity): seq<CollisionEntry>
  {
    if e.hasTargetBehavior && e.object3D.Some? then [CollisionEntry(e.object3D.value, e.id, Target)] else []
  }

  function EnvironmentEntry(e: SceneEntity, self: EntityId): seq<CollisionEntry>
  {
    if e.hasGeometry && e.object3D.Some? && e.id != self && !e.hasTargetBehavior
    then [CollisionEntry(e.object3D.value, e.id, Environment)] else []
  }

  /** The entries for `[target-behavior]` entities that have an object3D, in document order. */
  function TargetEntries(es: seq<SceneEntity>): (r: seq<CollisionEntry>)
    ensures |r| <= |es|
    ensures forall k :: 0 <= k < |r| ==> r[k].kind == Target
  {
    if |es| == 0 then [] else TargetEntries(es[..|es| - 1]) + TargetEntry(es[|es| - 1])
  }

  /** The entries for `[geometry]` entities that are neither the arrow itself nor targets. */
  function EnvironmentEntries(es: seq<SceneEntity>, self: EntityId): (r: seq<CollisionEntry>)
    ensures |r| <= |es|
    ensures forall k :: 0 <= k < |r| ==> r[k].kind == Environment && r[k].entity != self
  {
    if |es| == 0 then [] else EnvironmentEntries(es[..|es| - 1], self) + EnvironmentEntry(es[|es| - 1], self)
  }

  lemma AppendAssoc(a: seq<CollisionEntry>, b: seq<CollisionEntry>, c: seq<CollisionEntry>)
    ensures a + b + c == a + (b + c)
  {
  }

  lemma AppendEmpty(a: seq<CollisionEntry>)
    ensures a + [] == a
  {
  }

  lemma TargetEntriesStep(es: seq<SceneEntity>, i: nat)
    requires i < |es|
    ensures TargetEntries(es[..i + 1]) == TargetEntries(es[..i]) + TargetEntry(es[i])
  {
    assert es[..i + 1][..i] == es[..i];
  }

  lemma EnvironmentEntriesStep(es: seq<SceneEntity>, self: EntityId, i: nat)
    requires i < |es|
    ensures EnvironmentEntries(es[..i + 1], self) == EnvironmentEntries(es[..i], self) + EnvironmentEntry(es[i], self)
  {
    assert es[..i + 1][..i] == es[..i];
  }

  /**
   * The collection keeps exactly the entities the two queries select: every
   * target with an object3D is listed as a target, and every other geometry
   * entity except the arrow itself as environment.
   */
  lemma {:induction false} CollisionEntriesComplete(es: seq<SceneEntity>, self: EntityId, e: SceneEntity)
    requires e in es
    ensures e.hasTargetBehavior && e.object3D.Some? ==> CollisionEntry(e.object3D.value, e.id, Target) in TargetEntries(es)
    ensures e.hasGeometry && e.object3D.Some? && e.id != self && !e.hasTargetBehavior ==>
              CollisionEntry(e.object3D.value, e.id, Environment) in EnvironmentEntries(es, self)
  {
    if es[|es| - 1] != e {
      var i :| 0 <= i < |es| && es[i] == e;
      assert es[..|es| - 1][i] == e;
      CollisionEntriesComplete(es[..|es| - 1], self, e);
    }
  }

  /** Conversely, every listed entry comes from an entity the queries select. */
  lemma {:induction false} CollisionEntriesSound(es: seq<SceneEntity>, self: EntityId, c: CollisionEntry)
    ensures c in TargetEntries(es) ==>
              exists e :: e in es && e.hasTargetBehavior && e.object3D == Some(c.obj) && c.entity == e.id
    ensures c in EnvironmentEntries(es, self) ==>
              exists e :: e in es && e.hasGeometry && !e.hasTargetBehavior && e.object3D == Some(c.obj) && c.entity == e.id
  {
    if |es| > 0 {
      var last := es[|es| - 1];
      CollisionEntriesSound(es[..|es| - 1], self, c);
      assert forall e :: e in es[..|es| - 1] ==> e in es;
      if c in TargetEntry(last) || c in EnvironmentEntry(last, self) {
        assert last in es;
      }
    }
  }

  /** Index of the first entry, in list order, whose object lies on `chain`. */
  function FirstMatch(entries: seq<CollisionEntry>, chain: seq<Obj>): (r: Option<nat>)
    ensures r.Some? ==> r.value < |entries| && entries[r.value].obj in chain
                        && forall k :: 0 <= k < r.value ==> entries[k].obj !in chain
    ensures r.None? ==> forall k :: 0 <= k < |entries| ==> entries[k].obj !in chain
  {
    if |entries| == 0 then None
    else if entries[0].obj in chain then Some(0)
    else match FirstMatch(entries[1..], chain)
      case None => None
      case Some(k) => Some(k + 1)
  }

  /**
   * The nested for/while loop of `handleCollision`: the first collision
   * entry that is the hit object or one of its ancestors decides entity and
   * type; without a match the hit is "environment" with no entity.
   */
  method ClassifyHit(entries: seq<CollisionEntry>, g: SceneGraph, hitObject: Obj)
    returns (entity: Option<EntityId>, kind: HitKind)
    requires WellRanked(g)
    ensures match FirstMatch(entries, Chain(g, hitObject))
            case None => entity == None && kind == Environment
            case Some(i) => entity == Some(entries[i].entity) && kind == entries[i].kind
  {
    ghost var chain := Chain(g, hitObject);
    entity, kind := None, Environment;
    var i := 0;
    while i < |entries| && entity.None?
      invariant 0 <= i <= |entries|
      invariant entity.None? ==> kind == Environment && forall k :: 0 <= k < i ==> entries[k].obj !in chain
      invariant entity.Some? ==> FirstMatch(entries, chain) == Some(i - 1) && entity == Some(entries[i - 1].entity) && kind == entries[i - 1].kind
      decreases |entries| - i
    {
      var current: Option<Obj> := Some(hitObject);
      var found := false;
      ghost var walked := 0;
      while current.Some? && !found
        invariant 0 <= walked <= |chain|
        invariant current.Some? ==> walked < |chain| && current.value == chain[walked]
        invariant current.None? ==> walked == |chain|
        invariant forall k :: 0 <= k < walked ==> chain[k] != entries[i].obj
        invariant found ==> current.Some? && chain[walked] == entries[i].obj
        decreases |chain| - walked, if found then 0 else 1
      {
        if current.value == entries[i].obj {
          found := true;
        } else {
          if current.value in g.parent {
            current := Some(g.parent[current.value]);
          } else {
            current := None;
          }
          walked := walked + 1;
        }
      }
      if found {
        entity, kind := Some(entries[i].entity), entries[i].kind;
      }
      i := i + 1;
    }
  }

  /** One result of `Raycaster.intersectObjects`. */
  datatype Intersection = Intersection(distance: real, obj: Obj, point: Vec3, faceNormal: Option<Vec3>)

  predicate SortedByDistance(xs: seq<Intersection>)
  {
    forall i, j :: 0 <= i < j < |xs| ==> xs[i].distance <= xs[j].distance
  }

  /** The raycaster keeps the intersections between `near` (0) and `far`, in order. */
  function Within(xs: seq<Intersection>, far: real): (r: seq<Intersection>)
    ensures forall k :: 0 <= k < |r| ==> 0.0 <= r[k].distance <= far
    ensures forall k :: 0 <= k < |r| ==> r[k] in xs
  {
    if |xs| == 0 then []
    else
      var rest := Within(xs[1..], far);
      assert forall x :: x in xs[1..] ==> x in xs;
      if 0.0 <= xs[0].distance <= far then [xs[0]] + rest else rest
  }

  /**
   * Over distance-sorted candidates, something survives the range filter
   * exactly when some candidate is in range, and the first survivor is the
   * nearest candidate at non-negative distance.
   */
  lemma {:induction false} WithinFirst(xs: seq<Intersection>, far: real)
    requires SortedByDistance(xs)
    ensures |Within(xs, far)| > 0 <==> exists k :: 0 <= k < |xs| && 0.0 <= xs[k].distance <= far
    ensures |Within(xs, far)| > 0 ==>
              forall k :: 0 <= k < |xs| && 0.0 <= xs[k].distance ==> Within(xs, far)[0].distance <= xs[k].distance
  {
    if |xs| > 0 {
      var rest := xs[1..];
      assert SortedByDistance(rest);
      WithinFirst(rest, far);
      assert forall k :: 1 <= k < |xs| ==> xs[k] == rest[k - 1];
      if 0.0 <= xs[0].distance <= far {
        assert Within(xs, far)[0] == xs[0];
      } else {
        assert Within(xs, far) == Within(rest, far);
        if exists k :: 0 <= k < |xs| && 0.0 <= xs[k].distance <= far {
          var k :| 0 <= k < |xs| && 0.0 <= xs[k].distance <= far;
          assert k > 0 && rest[k - 1] == xs[k];
        }
      }
    }
  }

  /**
   * The hit `tick` accepts: the ray reaches 1.2 × the step length, but only
   * a first intersection no farther than the step itself counts.
   */
  function AcceptedHit(candidates: seq<Intersection>, rayDistance: real): Option<Intersection>
  {
    var intersects := Within(candidates, rayDistance * 1.2);
    if |intersects| > 0 && intersects[0].distance <= rayDistance then Some(intersects[0]) else None
  }

  /** A candidate within the step guarantees an accepted hit. */
  lemma AcceptedWhenInRange(candidates: seq<Intersection>, rayDistance: real, k: nat)
    requires SortedByDistance(candidates) && rayDistance >= 0.0
    requires k < |candidates| && 0.0 <= candidates[k].distance <= rayDistance
    ensures AcceptedHit(candidates, rayDistance).Some?
  {
    var far := rayDistance * 1.2;
    assert rayDistance <= far;
    WithinFirst(candidates, far);
    var w := Within(candidates, far);
    assert |w| > 0;
    assert w[0].distance <= candidates[k].distance;
  }

  /** An accepted hit is a candidate within the step, no farther than any candidate ahead. */
  lemma AcceptedIsNearest(candidates: seq<Intersection>, rayDistance: real)
    requires SortedByDistance(candidates) && AcceptedHit(candidates, rayDistance).Some?
    ensures var h := AcceptedHit(candidates, rayDistance).value;
            h in candidates && 0.0 <= h.distance <= rayDistance &&
            forall k :: 0 <= k < |candidates| && 0.0 <= candidates[k].distance ==> h.distance <= candidates[k].distance
  {
    WithinFirst(candidates, rayDistance * 1.2);
  }

  /**
   * Over distance-sorted candidates, a hit is accepted exactly when some
   * candidate lies within the step, and the accepted hit is then the nearest
   * candidate at non-negative distance.
   */
  lemma AcceptedHitIsNearest(candidates: seq<Intersection>, rayDistance: real)
    requires SortedByDistance(candidates) && rayDistance >= 0.0
    ensures AcceptedHit(candidates, rayDistance).Some? <==>
            exists k :: 0 <= k < |candidates| && 0.0 <= candidates[k].distance <= rayDistance
    ensures AcceptedHit(candidates, rayDistance).Some? ==>
            var h := AcceptedHit(candidates, rayDistance).value;
            h in candidates && 0.0 <= h.distance <= rayDistance &&
            forall k :: 0 <= k < |candidates| && 0.0 <= candidates[k].distance ==> h.distance <= candidates[k].distance
  {
    if exists k :: 0 <= k < |candidates| && 0.0 <= candidates[k].distance <= rayDistance {
      var k :| 0 <= k < |candidates| && 0.0 <= candidates[k].distance <= rayDistance;
      AcceptedWhenInRange(candidates, rayDistance, k);
    }
    if AcceptedHit(candidates, rayDistance).Some? {
      AcceptedIsNearest(candidates, rayDistance);
      var h := AcceptedHit(candidates, rayDistance).value;
      var k :| 0 <= k < |candidates| && candidates[k] == h;
    }
  }

  /** What `onArrowHit(arrowEl, impactPoint)` was called with. */
  datatype HitNotice = HitNotice(target: EntityId, impact: Vec3)

  class Arrow {
    /** `data.speed` and the fixed, normalised flight direction. */
    const speed: real
    const direction: Vec3
    const maxLifetime: int
    var position: Vec3
    var hasCollided: bool
    var lifetime: int
    var collisionObjects: seq<CollisionEntry>
    /** Whether the element still has a `parentNode`. */
    var attached: bool
    /** `raycaster.far` as last set by `tick`. */
    var rayFar: real
    /** Every call to a target's `onArrowHit`, in order. */
    var hitNotices: seq<HitNotice>
    /** The 5-second removal timeouts scheduled, and those that have fired. */
    var removalsScheduled: nat
    var removalsFired: nat

    /** The straight-line displacement of one tick: direction · speed · deltaTime/1000. */
    function Step(deltaTime: int): Vec3
      reads this
    {
      Scale(direction, speed * (deltaTime as real / 1000.0))
    }

    /**
     * The state right after a collision commit: collided, planted at the
     * impact point (0.1 out along the face normal if any), one removal
     * scheduled, and the hit target notified iff classification found a
     * target that still has its behaviour.
     */
    predicate Committed(before: seq<HitNotice>, hit: Intersection, g: SceneGraph, liveTargets: set<EntityId>)
      requires WellRanked(g)
      reads this
    {
      hasCollided && removalsScheduled == 1
      && position == (match hit.faceNormal
                      case None => hit.point
                      case Some(n) => Add(hit.point, Scale(n, 0.1)))
      && match FirstMatch(collisionObjects, Chain(g, hit.obj))
         case Some(i) =>
           hitNotices == before +
             (if collisionObjects[i].kind == Target && collisionObjects[i].entity in liveTargets
              then [HitNotice(collisionObjects[i].entity, hit.point)] else [])
         case None => hitNotices == before
    }

    /** The collision commit happens at most once, and so does what it triggers. */
    predicate Valid()
      reads this
    {
      maxLifetime == 8000
      && removalsScheduled <= 1 && removalsFired <= removalsScheduled
      && |hitNotices| <= removalsScheduled
      && (!hasCollided ==> removalsScheduled == 0)
    }

    constructor (speed: real, direction: Vec3, position: Vec3, entities: seq<SceneEntity>, self: EntityId)
      ensures Valid()
      ensures this.speed == speed && this.direction == direction && this.position == position
      ensures !hasCollided && lifetime == 0 && attached && hitNotices == []
      ensures collisionObjects == TargetEntries(entities) + EnvironmentEntries(entities, self)
    {
      this.speed := speed;
      this.direction := direction;
      this.position := position;
      maxLifetime := 8000;
      hasCollided := false;
      lifetime := 0;
      attached := true;
      rayFar := 0.0;
      hitNotices := [];
      removalsScheduled, removalsFired := 0, 0;
      collisionObjects := [];
      new;
      UpdateCollisionObjects(entities, self);
    }

    /** `updateCollisionObjects`: appends all targets, then the environment meshes. */
    method UpdateCollisionObjects(entities: seq<SceneEntity>, self: EntityId)
      modifies this`collisionObjects
      ensures collisionObjects == old(collisionObjects) + TargetEntries(entities) + EnvironmentEntries(entities, self)
    {
      ghost var base := collisionObjects;
      ghost var targets: seq<CollisionEntry> := [];
      var i := 0;
      while i < |entities|
        invariant 0 <= i <= |entities|
        invariant targets == TargetEntries(entities[..i]) && collisionObjects == base + targets
      {
        TargetEntriesStep(entities, i);
        var e := entities[i];
        if e.hasTargetBehavior && e.object3D.Some? {
          AppendAssoc(base, targets, [CollisionEntry(e.object3D.value, e.id, Target)]);
          collisionObjects := collisionObjects + [CollisionEntry(e.object3D.value, e.id, Target)];
        } else {
          AppendEmpty(targets);
        }
        targets := targets + TargetEntry(e);
        i := i + 1;
      }
      assert entities[..|entities|] == entities;
      assert targets == TargetEntries(entities);
      ghost var afterTargets := collisionObjects;
      ghost var environment: seq<CollisionEntry> := [];
      i := 0;
      while i < |entities|
        invariant 0 <= i <= |entities|
        invariant environment == EnvironmentEntries(entities[..i], self) && collisionObjects == afterTargets + environment
      {
        EnvironmentEntriesStep(entities, self, i);
        var e := entities[i];
        if e.hasGeometry && e.object3D.Some? && e.id != self && !e.hasTargetBehavior {
          AppendAssoc(afterTargets, environment, [CollisionEntry(e.object3D.value, e.id, Environment)]);
          collisionObjects := collisionObjects + [CollisionEntry(e.object3D.value, e.id, Environment)];
        } else {
          AppendEmpty(environment);
        }
        environment := environment + EnvironmentEntry(e, self);
        i := i + 1;
      }
      assert entities[..|entities|] == entities;
      assert environment == EnvironmentEntries(entities, self);
      assert collisionObjects == base + targets + environment;
    }

    /** `removeArrow`: detaches the element if it is still attached, otherwise nothing. */
    method RemoveArrow()
      modifies this`attached
      ensures !attached
    {
      if attached {
        attached := false;
      }
    }

    /**
     * `tick(time, deltaTime)`.  `menuHit` is the answer of the vr-menu's
     * `checkArrowHit` (false when there is no menu), `candidates` the
     * intersections along the ray, and `liveTargets` the entities that still
     * carry a `target-behavior` component.
     */
    method Tick(deltaTime: int, menuHit: bool, candidates: seq<Intersection>, geo: Geometry,
                g: SceneGraph, liveTargets: set<EntityId>)
      requires Valid() && WellRanked(g)
      modifies this
      ensures Valid()
      // Once collided, a tick changes nothing.
      ensures old(hasCollided) ==> position == old(position) && lifetime == old(lifetime) && attached == old(attached)
                                   && hitNotices == old(hitNotices) && removalsScheduled == old(removalsScheduled)
                                   && hasCollided && rayFar == old(rayFar)
      ensures !old(hasCollided) ==> lifetime == old(lifetime) + deltaTime
      // Past the lifetime cap the arrow is removed without moving.
      ensures !old(hasCollided) && lifetime > maxLifetime ==>
                !attached && position == old(position) && !hasCollided && hitNotices == old(hitNotices)
                && removalsScheduled == old(removalsScheduled) && rayFar == old(rayFar)
      ensures !old(hasCollided) && lifetime <= maxLifetime && menuHit ==>
                hasCollided && !attached && position == old(position) && hitNotices == old(hitNotices)
                && removalsScheduled == old(removalsScheduled) && rayFar == old(rayFar)
      ensures !old(hasCollided) && lifetime <= maxLifetime && !menuHit ==>
                rayFar == geo.length(Step(deltaTime)) * 1.2
      // No accepted hit: the arrow advances by exactly direction · speed · dt.
      ensures !old(hasCollided) && lifetime <= maxLifetime && !menuHit
              && AcceptedHit(candidates, geo.length(Step(deltaTime))).None? ==>
                position == Add(old(position), Step(deltaTime)) && !hasCollided && attached == old(attached)
                && hitNotices == old(hitNotices) && removalsScheduled == old(removalsScheduled)
      // An accepted hit is committed.
      ensures !old(hasCollided) && lifetime <= maxLifetime && !menuHit
              && AcceptedHit(candidates, geo.length(Step(deltaTime))).Some? ==>
                var hit := AcceptedHit(candidates, geo.length(Step(deltaTime))).value;
                Committed(old(hitNotices), hit, g, liveTargets) && attached == old(attached)
      ensures collisionObjects == old(collisionObjects) && removalsFired == old(removalsFired)
    {
      if hasCollided {
        return;
      }
      lifetime := lifetime + deltaTime;
      if lifetime > maxLifetime {
        RemoveArrow();
        return;
      }
      var dt := deltaTime as real / 1000.0;
      var step := Scale(direction, speed * dt);
      assert step == Step(deltaTime);
      var rayDistance := geo.length(step);
      if menuHit {
        hasCollided := true;
        RemoveArrow();
        return;
      }
      rayFar := rayDistance * 1.2;
      var hit := AcceptedHit(candidates, rayDistance);
      if hit.Some? {
        HandleCollision(hit.value, g, liveTargets);
      } else {
        position := Add(position, step);
      }
    }

    /**
     * `handleCollision`: commits at most once; notifies the hit target, plants
     * the arrow at the impact point (pushed 0.1 along the face normal when
     * there is one) and schedules the removal 5 s later, target hits included.
     */
    method HandleCollision(hit: Intersection, g: SceneGraph, liveTargets: set<EntityId>)
      requires Valid() && WellRanked(g)
      modifies this`hasCollided, this`position, this`hitNotices, this`removalsScheduled
      ensures Valid()
      ensures old(hasCollided) ==> position == old(position) && hitNotices == old(hitNotices)
                                   && removalsScheduled == old(removalsScheduled)
      ensures !old(hasCollided) ==> Committed(old(hitNotices), hit, g, liveTargets)
      ensures hasCollided
    {
      if hasCollided {
        return;
      }
      hasCollided := true;
      var entity, kind := ClassifyHit(collisionObjects, g, hit.obj);
      if kind == Target && entity.Some? && entity.value in liveTargets {
        hitNotices := hitNotices + [HitNotice(entity.value, hit.point)];
      }
      position := hit.point;
      if hit.faceNormal.Some? {
        position := Add(position, Scale(hit.faceNormal.value, 0.1));
      }
      removalsScheduled := removalsScheduled + 1;
    }

    /**
     * The 5-second timeout fires `animateRemoval`: nothing if the arrow is
     * already detached, otherwise the shrink animation ends in `removeArrow`.
     */
    method FireRemovalTimer()
      requires Valid() && removalsFired < removalsScheduled
      modifies this`attached, this`removalsFired
      ensures Valid() && !attached && removalsFired == old(removalsFired) + 1
    {
      removalsFired := removalsFired + 1;
      if !attached {
        return;
      }
      RemoveArrow();
    }

    /** Another component (a destroyed target) removes the arrow element. */
    method Detach()
      modifies this`attached
      ensures !attached
    {
      attached := false;
    }
  }
}
