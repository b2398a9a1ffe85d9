/**
 * The autopilot part of `ShuttleConsoleSystem`: whether a shuttle console
 * offers the autopilot verb and with which label, and what the verb does
 * when used.
 */
module ShuttleConsoleAutopilot {
  import opened Wrappers
  import opened World

  datatype VerbLabel = EnableLabel | DisableLabel

  /** The alternative verb: its label and the toggle it runs when used. */
  datatype AutopilotVerb = AutopilotVerb(text: VerbLabel, user: EntityId, console: EntityId, grid: EntityId)

  /** The grid has an autopilot component and it is enabled. */
  predicate AutopilotEnabled(w: World, grid: EntityId) {
    grid in w && w[grid].autopilot.Some? && w[grid].autopilot.value.enabled
  }

  /**
   * The verb `OnGetAutopilotVerb` offers, if any. `shuttle` is the entity the
   * `ConsoleShuttleEvent` handlers leave in the event for the console.
   */
  function AutopilotVerbFor(w: World, user: EntityId, console: EntityId, canInteract: bool, canAccess: bool,
                            shuttle: Option<EntityId>): (r: Option<AutopilotVerb>)
    ensures !canInteract || !canAccess ==> r.None?
    ensures shuttle.None? || (shuttle.Some? && shuttle.value !in w) ==> r.None?
    ensures shuttle.Some? && shuttle.value in w && w[shuttle.value].xform.gridUid.None? ==> r.None?
    ensures r.Some? <==>
      canInteract && canAccess && shuttle.Some? && shuttle.value in w && w[shuttle.value].xform.gridUid.Some?
    ensures r.Some? ==>
      && r.value.grid == w[shuttle.value].xform.gridUid.value
      && r.value.user == user
      && r.value.console == console
      && (r.value.text == DisableLabel <==> AutopilotEnabled(w, r.value.grid))
  {
    if !canInteract || !canAccess then
      None
    else if shuttle.None? || shuttle.value !in w then
      None
    else
      match w[shuttle.value].xform.gridUid
      case None => None
      case Some(grid) =>
        Some(AutopilotVerb(if AutopilotEnabled(w, grid) then DisableLabel else EnableLabel, user, console, grid))
  }

  /** `GetVerbsEvent<AlternativeVerb>`: who asks, and the list the handlers add to. */
  class GetVerbsEvent {
    const user: EntityId
    const canInteract: bool
    const canAccess: bool
    var verbs: seq<AutopilotVerb>

    constructor (user: EntityId, canInteract: bool, canAccess: bool)
      ensures this.user == user && this.canInteract == canInteract && this.canAccess == canAccess
      ensures verbs == []
    {
      this.user := user;
      this.canInteract := canInteract;
      this.canAccess := canAccess;
      verbs := [];
    }
  }

  /** `OnGetAutopilotVerb`: appends the verb, when one is offered, and leaves the list alone otherwise. */
  method OnGetAutopilotVerb(w: World, console: EntityId, args: GetVerbsEvent, shuttle: Option<EntityId>)
    modifies args
    ensures args.verbs ==
      match AutopilotVerbFor(w, args.user, console, args.canInteract, args.canAccess, shuttle)
      case Some(v) => old(args.verbs) + [v]
      case None => old(args.verbs)
  {
    if !args.canInteract || !args.canAccess {
      return;
    }
    if shuttle.None? {
      return;
    }
    if shuttle.value !in w {
      return;
    }
    var shuttleGrid := w[shuttle.value].xform.gridUid;
    if shuttleGrid.None? {
      return;
    }
    var isEnabled := AutopilotEnabled(w, shuttleGrid.value);
    var verb := AutopilotVerb(if isEnabled then DisableLabel else EnableLabel, args.user, console, shuttleGrid.value);
    args.verbs := args.verbs + [verb];
  }

  /**
   * What `ToggleAutopilot` does: nothing, disable the autopilot, enable it
   * towards a target, or report that there is no target. Each of the last
   * three also shows the user a popup.
   */
  datatype ToggleOutcome =
    | Ignored
    | Disabled(shuttle: EntityId)
    | Enabled(shuttle: EntityId, target: MapCoordinates)
    | NoTarget

  /** The radar console's entity target is usable: set, a valid id, and alive. */
  predicate EntityTargetUsable(w: World, radar: RadarConsole) {
    radar.targetEntity.Some? && IsValidUid(radar.targetEntity.value) && radar.targetEntity.value in w
  }

  /** `_transform.GetMapCoordinates(xform)`. */
  function MapCoordinatesOf(xform: Transform): MapCoordinates {
    MapCoordinates(xform.worldPosition, xform.mapId)
  }

  function ToggleAutopilot(w: World, user: EntityId, console: EntityId, shuttle: EntityId): (r: ToggleOutcome)
    ensures r == Ignored <==> !(console in w && w[console].shuttleConsole) || !(shuttle in w && w[shuttle].shuttle)
    ensures r.Disabled? ==> r.shuttle == shuttle && AutopilotEnabled(w, shuttle)
    ensures r != Ignored && AutopilotEnabled(w, shuttle) ==> r == Disabled(shuttle)
    ensures r != Ignored && !AutopilotEnabled(w, shuttle) && w[console].radarConsole.None? ==> r == NoTarget
    ensures r != Ignored && !AutopilotEnabled(w, shuttle) && w[console].radarConsole.Some?
            && EntityTargetUsable(w, w[console].radarConsole.value)
            ==> r == Enabled(shuttle, MapCoordinatesOf(w[w[console].radarConsole.value.targetEntity.value].xform))
    ensures r != Ignored && !AutopilotEnabled(w, shuttle) && w[console].radarConsole.Some?
            && !EntityTargetUsable(w, w[console].radarConsole.value)
            && w[console].radarConsole.value.target.Some?
            ==> r == Enabled(shuttle, MapCoordinates(w[console].radarConsole.value.target.value, w[console].xform.mapId))
    ensures r == NoTarget <==>
      r != Ignored && !AutopilotEnabled(w, shuttle)
      && (w[console].radarConsole.None?
          || (!EntityTargetUsable(w, w[console].radarConsole.value) && w[console].radarConsole.value.target.None?))
  {
    if !(console in w && w[console].shuttleConsole) then
      Ignored
    else if !(shuttle in w && w[shuttle].shuttle) then
      Ignored
    else if AutopilotEnabled(w, shuttle) then
      Disabled(shuttle)
    else
      match w[console].radarConsole
      case None => NoTarget
      case Some(radar) =>
        if EntityTargetUsable(w, radar) then
          Enabled(shuttle, MapCoordinatesOf(w[radar.targetEntity.value].xform))
        else if radar.target.Some? then
          Enabled(shuttle, MapCoordinates(radar.target.value, w[console].xform.mapId))
        else
          NoTarget
  }

  /**
   * The offered label tells what using the verb will do in the same world: a
   * "disable" verb never enables, an "enable" verb never disables.
   */
  lemma VerbLabelPredictsToggle(w: World, user: EntityId, console: EntityId, canInteract: bool, canAccess: bool,
                                shuttle: Option<EntityId>)
    requires AutopilotVerbFor(w, user, console, canInteract, canAccess, shuttle).Some?
    ensures var v := AutopilotVerbFor(w, user, console, canInteract, canAccess, shuttle).value;
            var outcome := ToggleAutopilot(w, v.user, v.console, v.grid);
            && (v.text == DisableLabel ==> outcome == Ignored || outcome == Disabled(v.grid))
            && (v.text == EnableLabel ==> !outcome.Disabled?)
  {
  }

}
