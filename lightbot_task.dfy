/**
 * The lightbot's task as a whole: what the planner commits to is what the
 * replacer then works on.
 */
module LightbotTask {
  import opened Wrappers
  import opened World
  import opened Htn
  import opened LightbotSystem
  import opened PickNearbyBrokenLight
  import opened LightbotReplaceLight

  /**
   * When the planner committed to `target` and its effects were merged into
   * the blackboard, the replacer's next update on the unchanged world reads
   * that same target and passes every guard except the one on the bot's own
   * light replacer: it asks to replace the bulb of `target` exactly when the
   * bot carries a light replacer.
   */
  lemma PlannedTargetReachesReplacement(
    plan: PickNearbyBrokenLightOperator, replace: LightbotReplaceLightOperator,
    before: map<string, Value>, bb: NpcBlackboard, w: World,
    lookup: real -> seq<EntityId>, getPath: EntityId -> PathResponse,
    tryReplaceBulb: (EntityId, EntityId) -> bool, target: EntityId)
    requires HasOwner(before)
    requires plan.DistinctEffectKeys()
    requires OwnerKey != plan.targetKey && OwnerKey != plan.targetMoveKey && OwnerKey != PathfindKey
    requires replace.targetKey == plan.targetKey
    requires TryGetFloat(before, plan.rangeKey).Some? && HasLightbot(w, Owner(before))
    requires NearestCandidate(w, Owner(before), GetBrokenLightsInRange(w, lookup(TryGetFloat(before, plan.rangeKey).value)))
             == Some(target)
    requires target in w
    requires bb.entries == before + plan.Effects(w, target, getPath(target))
    ensures HasOwner(bb.entries) && Owner(bb.entries) == Owner(before)
    ensures replace.Update(bb, w, tryReplaceBulb).call.Some? <==> HasLightReplacer(w, Owner(before))
    ensures replace.Update(bb, w, tryReplaceBulb).call.Some? ==>
              replace.Update(bb, w, tryReplaceBulb).call.value == ReplaceCall(Owner(before), target)
  {
  }

}
