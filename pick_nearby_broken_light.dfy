/**
 * `PickNearbyBrokenLightOperator`: the planning half of the lightbot's task.
 * It chooses the nearest broken fixture on the bot's own map and commits to it
 * only when the pathfinder reports a path.
 */
module PickNearbyBrokenLight {
  import opened Wrappers
  import opened World
  import opened Htn
  import opened LightbotSystem

  /** The candidate is on the same map as the owner. */
  predicate SameMap(w: World, owner: EntityId, light: EntityId)
    requires owner in w && light in w
  {
    w[light].xform.mapId == w[owner].xform.mapId
  }

  function Distance(w: World, owner: EntityId, light: EntityId): int
    requires owner in w && light in w
  {
    DistanceSquared(w[light].xform.worldPosition, w[owner].xform.worldPosition)
  }

  predicate AllInWorld(w: World, lights: seq<EntityId>) {
    forall i :: 0 <= i < |lights| ==> lights[i] in w
  }

  /**
   * `lights[k]` is the fixture the selection loop keeps: on the owner's map,
   * no farther than any other same-map candidate, and strictly nearer than
   * every same-map candidate enumerated before it (the strict comparison
   * keeps the first of a tie).
   */
  ghost predicate IsNearest(w: World, owner: EntityId, lights: seq<EntityId>, k: int)
    requires owner in w && AllInWorld(w, lights)
  {
    && 0 <= k < |lights|
    && SameMap(w, owner, lights[k])
    && (forall j :: 0 <= j < |lights| && SameMap(w, owner, lights[j]) ==>
          Distance(w, owner, lights[k]) <= Distance(w, owner, lights[j]))
    && (forall j :: 0 <= j < k && SameMap(w, owner, lights[j]) ==>
          Distance(w, owner, lights[j]) > Distance(w, owner, lights[k]))
  }

  /** At most one position is the nearest: the tie-break is deterministic. */
  lemma NearestIsUnique(w: World, owner: EntityId, lights: seq<EntityId>, k1: int, k2: int)
    requires owner in w && AllInWorld(w, lights)
    requires IsNearest(w, owner, lights, k1) && IsNearest(w, owner, lights, k2)
    ensures k1 == k2
  {
  }

  /**
   * Whenever some candidate is on the owner's map, a nearest position exists:
   * the running minimum cannot end empty-handed.
   */
  lemma {:induction false} NearestExists(w: World, owner: EntityId, lights: seq<EntityId>)
    requires owner in w && AllInWorld(w, lights)
    requires exists i :: 0 <= i < |lights| && SameMap(w, owner, lights[i])
    ensures exists k :: IsNearest(w, owner, lights, k)
    decreases |lights|
  {
    var n := |lights|;
    var init, last := lights[..n - 1], lights[n - 1];
    assert forall i :: 0 <= i < n - 1 ==> init[i] == lights[i];
    if exists i :: 0 <= i < n - 1 && SameMap(w, owner, init[i]) {
      NearestExists(w, owner, init);
      var k :| IsNearest(w, owner, init, k);
      if SameMap(w, owner, last) && Distance(w, owner, last) < Distance(w, owner, init[k]) {
        assert IsNearest(w, owner, lights, n - 1);
      } else {
        assert IsNearest(w, owner, lights, k);
      }
    } else {
      var i :| 0 <= i < n && SameMap(w, owner, lights[i]);
      assert i == n - 1;
      assert IsNearest(w, owner, lights, n - 1);
    }
  }

  /** The selected fixture: there is one exactly when some candidate is on the owner's map. */
  ghost function NearestCandidate(w: World, owner: EntityId, lights: seq<EntityId>): (r: Option<EntityId>)
    requires owner in w && AllInWorld(w, lights)
    ensures r.Some? <==> exists i :: 0 <= i < |lights| && SameMap(w, owner, lights[i])
    ensures r.Some? <==> exists k :: IsNearest(w, owner, lights, k)
    ensures r.Some? ==> exists k :: IsNearest(w, owner, lights, k) && lights[k] == r.value
  {
    if exists i :: 0 <= i < |lights| && SameMap(w, owner, lights[i]) then
      NearestExists(w, owner, lights);
      var k :| IsNearest(w, owner, lights, k);
      Some(lights[k])
    else
      None
  }

  /** The fixture at the nearest position is exactly what `NearestCandidate` names. */
  lemma NearestCandidateIs(w: World, owner: EntityId, lights: seq<EntityId>, k: int)
    requires owner in w && AllInWorld(w, lights)
    requires IsNearest(w, owner, lights, k)
    ensures NearestCandidate(w, owner, lights) == Some(lights[k])
  {
  }

  /**
   * The selection loop of `Plan`: a running minimum over the broken fixtures,
   * skipping those on another map; `None` plays the part of `float.MaxValue`.
   * `index` is the position the loop kept.
   */
  method PickNearest(w: World, owner: EntityId, lights: seq<EntityId>) returns (best: Option<EntityId>, ghost index: nat)
    requires owner in w && AllInWorld(w, lights)
    ensures best.None? <==> forall i :: 0 <= i < |lights| ==> !SameMap(w, owner, lights[i])
    ensures best.Some? ==> index < |lights| && lights[index] == best.value && SameMap(w, owner, best.value)
    ensures best.Some? ==>
      forall j :: 0 <= j < |lights| && SameMap(w, owner, lights[j]) ==>
        Distance(w, owner, best.value) <= Distance(w, owner, lights[j])
    ensures best.Some? ==>
      forall j :: 0 <= j < index && SameMap(w, owner, lights[j]) ==>
        Distance(w, owner, lights[j]) > Distance(w, owner, best.value)
  {
    best, index := None, 0;
    var bestDistance: Option<int> := None;
    var ownerXform := w[owner].xform;
    for n := 0 to |lights|
      invariant best.None? <==> bestDistance.None?
      invariant best.None? <==> forall j :: 0 <= j < n ==> !SameMap(w, owner, lights[j])
      invariant best.Some? ==>
        && index < n
        && lights[index] == best.value
        && SameMap(w, owner, best.value)
        && bestDistance == Some(Distance(w, owner, best.value))
        && (forall j :: 0 <= j < n && SameMap(w, owner, lights[j]) ==>
              bestDistance.value <= Distance(w, owner, lights[j]))
        && (forall j :: 0 <= j < index && SameMap(w, owner, lights[j]) ==>
              Distance(w, owner, lights[j]) > bestDistance.value)
    {
      var light := lights[n];
      var lightXform := w[light].xform;
      if lightXform.mapId != ownerXform.mapId {
        continue;
      }
      var distance := DistanceSquared(lightXform.worldPosition, ownerXform.worldPosition);
      if bestDistance.None? || distance < bestDistance.value {
        bestDistance := Some(distance);
        best := Some(light);
        index := n;
      }
    }
  }

  /** `PickNearbyBrokenLightOperator` with its data fields. */
  class PickNearbyBrokenLightOperator {
    const rangeKey: string
    const targetKey: string
    const targetMoveKey: string

    constructor (rangeKey: string, targetKey: string, targetMoveKey: string)
      ensures this.rangeKey == rangeKey && this.targetKey == targetKey && this.targetMoveKey == targetMoveKey
    {
      this.rangeKey := rangeKey;
      this.targetKey := targetKey;
      this.targetMoveKey := targetMoveKey;
    }

    /** The dictionary initializer of the effects adds three keys; a repeated key would throw. */
    predicate DistinctEffectKeys() {
      targetKey != targetMoveKey && targetKey != PathfindKey && targetMoveKey != PathfindKey
    }

    /** The effects of a committed plan for `target`, which lies in `w`. */
    function Effects(w: World, target: EntityId, response: PathResponse): (m: map<string, Value>)
      requires target in w
      requires DistinctEffectKeys()
      ensures m.Keys == {targetKey, targetMoveKey, PathfindKey}
      ensures m[targetKey] == EntityValue(target)
      ensures m[targetMoveKey] == CoordinatesValue(w[target].xform.coordinates)
      ensures m[PathfindKey] == PathValue(response)
    {
      map[targetKey := EntityValue(target),
          targetMoveKey := CoordinatesValue(w[target].xform.coordinates),
          PathfindKey := PathValue(response)]
    }

    /**
     * `Plan`. The spatial query is `lookup`, called with the range read from
     * the blackboard; the pathfinder is `getPath`, asked about the chosen
     * fixture. The blackboard is only read: a plan's effects are returned.
     */
    method Plan(bb: NpcBlackboard, w: World, lookup: real -> seq<EntityId>, getPath: EntityId -> PathResponse)
      returns (valid: bool, effects: Option<map<string, Value>>)
      requires HasOwner(bb.entries)
      requires DistinctEffectKeys()
      ensures valid <==> effects.Some?
      ensures TryGetFloat(bb.entries, rangeKey).None? ==> !valid
      ensures !HasLightbot(w, Owner(bb.entries)) ==> !valid
      ensures (TryGetFloat(bb.entries, rangeKey).Some?
               && GetBrokenLightsInRange(w, lookup(TryGetFloat(bb.entries, rangeKey).value)) == []) ==> !valid
      ensures valid <==>
        var owner := Owner(bb.entries);
        && TryGetFloat(bb.entries, rangeKey).Some?
        && HasLightbot(w, owner)
        && var lights := GetBrokenLightsInRange(w, lookup(TryGetFloat(bb.entries, rangeKey).value));
           && NearestCandidate(w, owner, lights).Some?
           && getPath(NearestCandidate(w, owner, lights).value).result == Path
      ensures valid ==>
        var owner := Owner(bb.entries);
        var lights := GetBrokenLightsInRange(w, lookup(TryGetFloat(bb.entries, rangeKey).value));
        var target := NearestCandidate(w, owner, lights).value;
        && target in lights
        && target in w
        && SameMap(w, owner, target)
        && effects.value == Effects(w, target, getPath(target))
    {
      var owner := Owner(bb.entries);

      var range := TryGetFloat(bb.entries, rangeKey);
      if range.None? {
        return false, None;
      }

      if !HasLightbot(w, owner) {
        return false, None;
      }

      var brokenLights := GetBrokenLightsInRange(w, lookup(range.value));
      if |brokenLights| == 0 {
        return false, None;
      }

      var bestTarget, bestIndex := PickNearest(w, owner, brokenLights);
      if bestTarget.None? {
        return false, None;
      }
      NearestCandidateIs(w, owner, brokenLights, bestIndex);

      var path := getPath(bestTarget.value);
      if path.result != Path {
        return false, None;
      }

      return true, Some(Effects(w, bestTarget.value, path));
    }
  }

}
