/**
 * `LightbotReplaceLightOperator`: the execution half of the lightbot's task.
 * Each tick re-checks the live state, then asks the light replacer once to
 * swap the bulb; on shutdown it drops its target from the blackboard.
 */
module LightbotReplaceLight {
  import opened Wrappers
  import opened World
  import opened Htn

  /** The one call an update makes to `LightReplacerSystem.TryReplaceBulb`. */
  datatype ReplaceCall = ReplaceCall(owner: EntityId, target: EntityId)

  /** What one `Update` did: the status it returned and the replace call it made, if any. */
  datatype UpdateStep = UpdateStep(status: HTNOperatorStatus, call: Option<ReplaceCall>)

  class LightbotReplaceLightOperator {
    const targetKey: string

    constructor (targetKey: string)
      ensures this.targetKey == targetKey
    {
      this.targetKey := targetKey;
    }

    /**
     * `Update`. `tryReplaceBulb(owner, target)` is the answer the light
     * replacer would give; the frame time is not read.
     */
    function Update(bb: NpcBlackboard, w: World, tryReplaceBulb: (EntityId, EntityId) -> bool): (r: UpdateStep)
      reads bb
      requires HasOwner(bb.entries)
      ensures r.status != Running
      ensures TryGetEntity(bb.entries, targetKey).None? ==> r == UpdateStep(Failed, None)
      ensures TryGetEntity(bb.entries, targetKey).Some? && TryGetEntity(bb.entries, targetKey).value !in w
              ==> r == UpdateStep(Failed, None)
      ensures !HasLightbot(w, Owner(bb.entries)) ==> r == UpdateStep(Failed, None)
      ensures !HasLightReplacer(w, Owner(bb.entries)) ==> r == UpdateStep(Failed, None)
      ensures TryGetEntity(bb.entries, targetKey).Some? && !HasPoweredLight(w, TryGetEntity(bb.entries, targetKey).value)
              ==> r == UpdateStep(Failed, None)
      ensures r.call.Some? <==>
        && TryGetEntity(bb.entries, targetKey).Some?
        && HasPoweredLight(w, TryGetEntity(bb.entries, targetKey).value)
        && HasLightbot(w, Owner(bb.entries))
        && HasLightReplacer(w, Owner(bb.entries))
      ensures r.call.Some? ==>
        && r.call.value == ReplaceCall(Owner(bb.entries), TryGetEntity(bb.entries, targetKey).value)
        && (r.status == Finished <==> tryReplaceBulb(r.call.value.owner, r.call.value.target))
      ensures r.status == Finished ==> r.call.Some?
    {
      var owner := Owner(bb.entries);
      var target := TryGetEntity(bb.entries, targetKey);
      if target.None? || target.value !in w then
        UpdateStep(Failed, None)
      else if !HasLightbot(w, owner) then
        UpdateStep(Failed, None)
      else if !HasPoweredLight(w, target.value) then
        UpdateStep(Failed, None)
      else if !HasLightReplacer(w, owner) then
        UpdateStep(Failed, None)
      else
        var success := tryReplaceBulb(owner, target.value);
        UpdateStep(if success then Finished else Failed, Some(ReplaceCall(owner, target.value)))
    }

    /** `TaskShutdown`: whatever the status, the target key goes and every other key stays. */
    method TaskShutdown(bb: NpcBlackboard, status: HTNOperatorStatus)
      modifies bb
      ensures targetKey !in bb.entries
      ensures bb.entries == old(bb.entries) - {targetKey}
      ensures forall k :: k in old(bb.entries) && k != targetKey ==> k in bb.entries && bb.entries[k] == old(bb.entries)[k]
    {
      var _ := bb.Remove(targetKey);
    }
  }

}
