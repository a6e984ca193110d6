/**
 * The anchor registry (`webxr-anchor-manager`): WebXR anchors by id, in
 * insertion order, evicted oldest first at capacity, and the entities
 * attached to them; every attached entity names a registered anchor.
 */
module AnchorManager {
  import opened Common

  /** The XR anchor objects are opaque handles of the scene-mesh handler. */
  type Handle = nat

  /** `map` restricted to the entries `keep` accepts. */
  function Filtered(m: map<string, string>, keep: (string, string) -> bool): (r: map<string, string>)
    ensures forall e :: e in r <==> e in m && keep(e, m[e])
    ensures forall e :: e in r ==> r[e] == m[e]
  {
    map e | e in m && keep(e, m[e]) :: m[e]
  }

  /** The `for … of entries()` loops that delete entries from `anchoredEntities` as they go. */
  method FilterEntries(m: map<string, string>, keep: (string, string) -> bool) returns (r: map<string, string>)
    ensures r == Filtered(m, keep)
  {
    r := m;
    var todo := m.Keys;
    while todo != {}
      invariant todo <= m.Keys && r.Keys <= m.Keys
      invariant forall e :: e in r ==> r[e] == m[e]
      invariant forall e :: e in m && e !in todo ==> (e in r <==> keep(e, m[e]))
      invariant forall e :: e in todo ==> e in r
      decreases todo
    {
      var e :| e in todo;
      if !keep(e, r[e]) {
        r := map x | x in r && x != e :: r[x];
      }
      todo := todo - {e};
    }
  }

  /** The handles of the anchors, in insertion order. */
  function HandlesInOrder(order: seq<string>, anchors: map<string, Handle>): (hs: seq<Handle>)
    requires forall a :: a in order ==> a in anchors
    ensures |hs| == |order|
    ensures forall i :: 0 <= i < |order| ==> hs[i] == anchors[order[i]]
  {
    if |order| == 0 then [] else HandlesInOrder(order[..|order| - 1], anchors) + [anchors[order[|order| - 1]]]
  }

  datatype AnchorEvent = AnchorCreated(anchorId: string, position: Vec3) | ManagerReady

  class Manager {
    const maxAnchors: int
    const autoCleanup: bool
    /** `anchors`: ids in insertion order, and the handle per id. */
    var order: seq<string>
    var anchors: map<string, Handle>
    /** `anchoredEntities`: entity id to anchor id. */
    var anchoredEntities: map<string, string>
    var hasHandler: bool
    var cleanupTimer: bool
    /** Handles passed to the handler's `deleteAnchor`, and emitted events, in order. */
    var deletedHandles: seq<Handle>
    var events: seq<AnchorEvent>

    ghost predicate Valid()
      reads this`order, this`anchors, this`anchoredEntities
    {
      (forall i, j :: 0 <= i < j < |order| ==> order[i] != order[j])
      && (forall a :: a in anchors <==> a in order)
      && (forall e :: e in anchoredEntities ==> anchoredEntities[e] in anchors)
      && (maxAnchors >= 1 ==> |order| <= maxAnchors)
    }

    constructor (maxAnchors: int, autoCleanup: bool)
      ensures Valid() && this.maxAnchors == maxAnchors && this.autoCleanup == autoCleanup
      ensures order == [] && anchors == map[] && anchoredEntities == map[] && !hasHandler && !cleanupTimer
      ensures deletedHandles == [] && events == []
    {
      this.maxAnchors := maxAnchors;
      this.autoCleanup := autoCleanup;
      order := [];
      anchors := map[];
      anchoredEntities := map[];
      hasHandler := false;
      cleanupTimer := false;
      deletedHandles := [];
      events := [];
    }

    /** `onEnterVR`: picks up the handler if found, starts auto-cleanup, announces readiness. */
    method OnEnterVR(handlerFound: bool)
      modifies this`hasHandler, this`cleanupTimer, this`events
      ensures hasHandler == (old(hasHandler) || handlerFound)
      ensures cleanupTimer == (old(cleanupTimer) || autoCleanup)
      ensures events == old(events) + [ManagerReady]
    {
      if handlerFound {
        hasHandler := true;
      }
      if autoCleanup {
        cleanupTimer := true;
      }
      events := events + [ManagerReady];
    }

    /** `deleteAnchor`: false for an unknown id; otherwise the anchor and every entity on it go. */
    method DeleteAnchor(anchorId: string) returns (deleted: bool)
      requires Valid()
      modifies this`order, this`anchors, this`anchoredEntities, this`deletedHandles
      ensures Valid()
      ensures deleted <==> anchorId in old(anchors)
      ensures !deleted ==> order == old(order) && anchors == old(anchors) && anchoredEntities == old(anchoredEntities)
                           && deletedHandles == old(deletedHandles)
      ensures deleted ==>
                anchors == old(anchors) - {anchorId}
                && order == RemoveId(old(order), anchorId) && |order| == |old(order)| - 1
                && anchoredEntities == Filtered(old(anchoredEntities), (e, a) => a != anchorId)
                && deletedHandles == old(deletedHandles) + (if hasHandler then [old(anchors)[anchorId]] else [])
    {
      if anchorId !in anchors {
        return false;
      }
      if hasHandler {
        deletedHandles := deletedHandles + [anchors[anchorId]];
      }
      var entities := FilterEntries(anchoredEntities, (e, a) => a != anchorId);
      DeleteKeepsLinks(order, anchors, anchoredEntities, entities, anchorId, maxAnchors);
      anchors, order, anchoredEntities := anchors - {anchorId}, RemoveId(order, anchorId), entities;
      return true;
    }

    /**
     * `createAnchor`: none without the handler. At capacity the oldest
     * anchor is deleted first, even when the handler then yields no anchor;
     * a new anchor is registered under `freshId` (replacing the handle if
     * that id is already taken).
     */
    method CreateAnchor(position: Vec3, handlerResult: Option<Handle>, freshId: string) returns (id: Option<string>)
      requires Valid()
      modifies this`order, this`anchors, this`anchoredEntities, this`deletedHandles, this`events
      ensures Valid()
      ensures !hasHandler ==> id.None? && order == old(order) && anchors == old(anchors)
                              && anchoredEntities == old(anchoredEntities) && events == old(events)
                              && deletedHandles == old(deletedHandles)
      ensures hasHandler ==>
                var evict := |old(order)| >= maxAnchors && |old(order)| > 0;
                var oldest := if evict then old(order)[0] else "";
                var kept := if evict then old(order)[1..] else old(order);
                var keptAnchors := if evict then old(anchors) - {oldest} else old(anchors);
                anchoredEntities == (if evict then Filtered(old(anchoredEntities), (e, a) => a != oldest)
                                     else old(anchoredEntities))
                && deletedHandles == old(deletedHandles) + (if evict then [old(anchors)[oldest]] else [])
                && (handlerResult.None? ==> id.None? && order == kept && anchors == keptAnchors && events == old(events))
                && (handlerResult.Some? ==>
                      id == Some(freshId)
                      && order == kept + (if freshId in keptAnchors then [] else [freshId])
                      && anchors == keptAnchors[freshId := handlerResult.value]
                      && events == old(events) + [AnchorCreated(freshId, position)])
    {
      if !hasHandler {
        return None;
      }
      MakeRoom();
      if handlerResult.None? {
        return None;
      }
      Register(freshId, handlerResult.value, position);
      return Some(freshId);
    }

    /** What the capacity check of `createAnchor` leaves: the oldest anchor deleted when the registry is full. */
    twostate predicate RoomMade()
      requires old(Valid())
      reads this
    {
      var evict := |old(order)| >= maxAnchors && |old(order)| > 0;
      var oldest := if evict then old(order)[0] else "";
      order == (if evict then old(order)[1..] else old(order))
      && anchors == (if evict then old(anchors) - {oldest} else old(anchors))
      && anchoredEntities == (if evict then Filtered(old(anchoredEntities), (e, a) => a != oldest)
                              else old(anchoredEntities))
      && deletedHandles == old(deletedHandles) + (if evict && hasHandler then [old(anchors)[oldest]] else [])
    }

    /** The capacity check of `createAnchor`. */
    method MakeRoom()
      requires Valid()
      modifies this`order, this`anchors, this`anchoredEntities, this`deletedHandles
      ensures Valid() && RoomMade()
      ensures maxAnchors >= 1 ==> |order| < maxAnchors
    {
      OrderMatchesAnchors();
      if |anchors| >= maxAnchors && |order| > 0 {
        EvictOldest();
      }
    }

    /** The registration step of `createAnchor`: the handle is stored under `id`, which joins the order if new. */
    method Register(id: string, handle: Handle, position: Vec3)
      requires Valid() && (maxAnchors >= 1 ==> |order| < maxAnchors)
      modifies this`order, this`anchors, this`events
      ensures Valid()
      ensures order == old(order) + (if id in old(anchors) then [] else [id])
      ensures anchors == old(anchors)[id := handle]
      ensures events == old(events) + [AnchorCreated(id, position)]
    {
      if id !in anchors {
        order := order + [id];
      }
      anchors := anchors[id := handle];
      events := events + [AnchorCreated(id, position)];
    }

    /** The eviction step of `createAnchor`: `deleteAnchor` on the first inserted id. */
    method EvictOldest()
      requires Valid() && |order| > 0
      modifies this`order, this`anchors, this`anchoredEntities, this`deletedHandles
      ensures Valid()
      ensures order == old(order)[1..] && anchors == old(anchors) - {old(order)[0]}
      ensures var oldest := old(order)[0]; anchoredEntities == Filtered(old(anchoredEntities), (e, a) => a != oldest)
      ensures deletedHandles == old(deletedHandles) + (if hasHandler then [old(anchors)[old(order)[0]]] else [])
    {
      RemoveFirst(order);
      var oldest := order[0];
      var _ := DeleteAnchor(oldest);
    }

    /** Without duplicates, the order lists as many ids as the map holds. */
    lemma OrderMatchesAnchors()
      requires Valid()
      ensures |anchors| == |order|
    {
      DistinctCard(order, anchors.Keys);
    }

    /** `attachToAnchor`: false and no change for an unknown anchor; otherwise the entity is (re)mapped. */
    method AttachToAnchor(entityId: string, anchorId: string, generatedId: string) returns (ok: bool)
      requires Valid()
      modifies this`anchoredEntities
      ensures Valid()
      ensures ok <==> anchorId in anchors
      ensures !ok ==> anchoredEntities == old(anchoredEntities)
      ensures ok ==> anchoredEntities == old(anchoredEntities)[(if entityId != "" then entityId else generatedId) := anchorId]
    {
      if anchorId !in anchors {
        return false;
      }
      var id := if entityId != "" then entityId else generatedId;
      anchoredEntities := anchoredEntities[id := anchorId];
      return true;
    }

    /** One run of the auto-cleanup interval: entries whose entity no longer exists go. */
    method AutoCleanupTick(entityExists: string -> bool)
      requires Valid() && cleanupTimer
      modifies this`anchoredEntities
      ensures Valid()
      ensures anchoredEntities == Filtered(old(anchoredEntities), (e, a) => entityExists(e))
    {
      anchoredEntities := FilterEntries(anchoredEntities, (e, a) => entityExists(e));
    }

    /** `cleanup`: every anchor is handed back (oldest first) and both maps are emptied. */
    method Cleanup()
      requires Valid()
      modifies this`order, this`anchors, this`anchoredEntities, this`deletedHandles
      ensures Valid()
      ensures order == [] && anchors == map[] && anchoredEntities == map[]
      ensures deletedHandles == old(deletedHandles) + (if hasHandler then HandlesInOrder(old(order), old(anchors)) else [])
    {
      var ids, handles := order, anchors;
      var i := 0;
      while i < |ids|
        invariant 0 <= i <= |ids|
        invariant deletedHandles == old(deletedHandles) + (if hasHandler then HandlesInOrder(ids[..i], handles) else [])
      {
        assert ids[..i + 1][..i] == ids[..i];
        if hasHandler {
          deletedHandles := deletedHandles + [handles[ids[i]]];
        }
        i := i + 1;
      }
      assert ids[..|ids|] == ids;
      order := [];
      anchors := map[];
      anchoredEntities := map[];
    }

    /** `onExitVR`: cleanup, and the interval is cleared. */
    method OnExitVR()
      requires Valid()
      modifies this`order, this`anchors, this`anchoredEntities, this`deletedHandles, this`cleanupTimer
      ensures Valid() && order == [] && anchors == map[] && anchoredEntities == map[] && !cleanupTimer
      ensures deletedHandles == old(deletedHandles) + (if hasHandler then HandlesInOrder(old(order), old(anchors)) else [])
    {
      Cleanup();
      cleanupTimer := false;
    }
  }

  /** The insertion order without one id. */
  function RemoveId(order: seq<string>, id: string): (r: seq<string>)
    ensures forall a :: a in r <==> a in order && a != id
    ensures |r| <= |order|
  {
    if |order| == 0 then []
    else RemoveId(order[..|order| - 1], id) + (if order[|order| - 1] == id then [] else [order[|order| - 1]])
  }

  /**
   * Deleting a registered anchor, with the entities attached to it, keeps
   * the registry consistent and shrinks it by one.
   */
  lemma DeleteKeepsLinks(order: seq<string>, anchors: map<string, Handle>, entities: map<string, string>,
                         kept: map<string, string>, id: string, maxAnchors: int)
    requires forall i, j :: 0 <= i < j < |order| ==> order[i] != order[j]
    requires forall a :: a in anchors <==> a in order
    requires forall e :: e in entities ==> entities[e] in anchors
    requires maxAnchors >= 1 ==> |order| <= maxAnchors
    requires id in anchors
    requires forall e :: e in kept ==> e in entities && kept[e] == entities[e] && kept[e] != id
    ensures var r := RemoveId(order, id);
            (forall i, j :: 0 <= i < j < |r| ==> r[i] != r[j])
            && (forall a :: a in anchors - {id} <==> a in r)
            && (forall e :: e in kept ==> kept[e] in anchors - {id})
            && |r| == |order| - 1
            && (maxAnchors >= 1 ==> |r| <= maxAnchors)
  {
    RemoveIdKeepsOthers(order, id);
  }

  /** Removing an id keeps the order free of duplicates, and drops exactly one element when present. */
  lemma {:induction false} RemoveIdKeepsOthers(order: seq<string>, id: string)
    requires forall i, j :: 0 <= i < j < |order| ==> order[i] != order[j]
    ensures var r := RemoveId(order, id);
            (forall i, j :: 0 <= i < j < |r| ==> r[i] != r[j])
            && |r| == if id in order then |order| - 1 else |order|
  {
    if |order| > 0 {
      var init := order[..|order| - 1];
      RemoveIdKeepsOthers(init, id);
      var last := order[|order| - 1];
      assert last !in init;
      assert id in order <==> id in init || id == last;
    }
  }

  /** An id that is not listed leaves the order as it is. */
  lemma {:induction false} RemoveAbsent(order: seq<string>, id: string)
    requires id !in order
    ensures RemoveId(order, id) == order
  {
    if |order| > 0 {
      RemoveAbsent(order[..|order| - 1], id);
      assert order[..|order| - 1] + [order[|order| - 1]] == order;
    }
  }

  /** Evicting the oldest id of a duplicate-free order drops its head. */
  lemma {:induction false} RemoveFirst(order: seq<string>)
    requires |order| > 0
    requires forall i, j :: 0 <= i < j < |order| ==> order[i] != order[j]
    ensures RemoveId(order, order[0]) == order[1..]
  {
    var init, last := order[..|order| - 1], order[|order| - 1];
    if |order| == 1 {
      assert RemoveId(order, order[0]) == RemoveId(init, order[0]);
    } else {
      RemoveFirst(init);
      assert last != order[0];
      assert init[1..] + [last] == order[1..];
    }
  }

  lemma {:induction false} DistinctCard(order: seq<string>, keys: set<string>)
    requires forall i, j :: 0 <= i < j < |order| ==> order[i] != order[j]
    requires forall a :: a in keys <==> a in order
    ensures |keys| == |order|
  {
    if |order| > 0 {
      var init := order[..|order| - 1];
      var last := order[|order| - 1];
      assert last !in init;
      DistinctCard(init, keys - {last});
    }
  }

  /**
   * The capacity bound needs a capacity of at least one: with `maxAnchors`
   * 0 the eviction finds nothing to delete and the first anchor is still
   * registered.
   */
  method ZeroCapacityOverflows(position: Vec3, h: Handle) returns (m: Manager)
    ensures |m.order| == 1 && m.maxAnchors == 0
  {
    m := new Manager(0, false);
    m.OnEnterVR(true);
    var id := m.CreateAnchor(position, Some(h), "anchor-0");
  }
}
