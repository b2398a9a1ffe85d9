/**
 * The pieces of the NPC task network the lightbot operators use: the
 * blackboard (a per-NPC key/value store), the values it holds, the
 * pathfinder's answer and an operator's status.
 */
module Htn {
  import opened Wrappers
  import opened World

  /** `NPCBlackboard.Owner`: the key under which the NPC's own entity is stored. */
  const OwnerKey: string := "Owner"

  /** `NPCBlackboard.PathfindKey`: the key under which a computed path is handed to movement. */
  const PathfindKey: string := "MovementPathfind"

  /** `PathResult` of the pathfinding system. */
  datatype PathResult = NoPath | PartialPath | Path | Continuing

  /** The pathfinder's answer: its result tag and the path it found. */
  datatype PathResponse = PathResponse(result: PathResult, path: seq<EntityCoordinates>)

  /** `HTNOperatorStatus`. */
  datatype HTNOperatorStatus = Running | Finished | Failed

  /** A blackboard value, tagged with the type it was stored as. */
  datatype Value =
    | FloatValue(f: real)
    | EntityValue(entity: EntityId)
    | CoordinatesValue(coordinates: EntityCoordinates)
    | PathValue(response: PathResponse)

  /** `TryGetValue<float>`: present only when the key holds a float. */
  function TryGetFloat(entries: map<string, Value>, key: string): (r: Option<real>)
    ensures r.Some? <==> key in entries && entries[key].FloatValue?
    ensures r.Some? ==> entries[key] == FloatValue(r.value)
  {
    if key in entries && entries[key].FloatValue? then Some(entries[key].f) else None
  }

  /** `TryGetValue<EntityUid>`: present only when the key holds an entity. */
  function TryGetEntity(entries: map<string, Value>, key: string): (r: Option<EntityId>)
    ensures r.Some? <==> key in entries && entries[key].EntityValue?
    ensures r.Some? ==> entries[key] == EntityValue(r.value)
  {
    if key in entries && entries[key].EntityValue? then Some(entries[key].entity) else None
  }

  /** `GetValue<EntityUid>(Owner)` succeeds: every NPC's blackboard names its owner. */
  predicate HasOwner(entries: map<string, Value>) {
    OwnerKey in entries && entries[OwnerKey].EntityValue?
  }

  function Owner(entries: map<string, Value>): EntityId
    requires HasOwner(entries)
  {
    entries[OwnerKey].entity
  }

  /** `NPCBlackboard`: one NPC's scratch store, updated in place. */
  class NpcBlackboard {
    var entries: map<string, Value>

    constructor (initial: map<string, Value>)
      ensures entries == initial
    {
      entries := initial;
    }

    /** `Remove<T>(key)`: drops the key, whatever it holds; says whether it was there. */
    method Remove(key: string) returns (removed: bool)
      modifies this
      ensures removed <==> key in old(entries)
      ensures entries == old(entries) - {key}
    {
      removed := key in entries;
      entries := entries - {key};
    }
  }

}
