# Lightbot task and shuttle-console autopilot, modelled in Dafny

This project models two pieces of game logic from a space-station game server.

The first is the lightbot's maintenance task. A lightbot is an NPC that looks for broken light fixtures and replaces their bulbs. The NPC's task network runs it in two steps:

- `PickNearbyBrokenLightOperator.Plan` chooses the nearest broken fixture on the bot's own map. It commits to that fixture only when the pathfinder reports a path.
- `LightbotReplaceLightOperator.Update` re-checks the live state on every tick and asks the light replacer once to swap the bulb. On shutdown the operator removes its target from the NPC's blackboard. The blackboard is a per-NPC key/value store.

Both steps rely on `LightbotSystem`. It decides whether a fixture needs a new bulb and filters a range query down to the broken fixtures.

The second piece is the autopilot verb of a shuttle console. The model decides whether the verb is offered and which label it carries ("enable" or "disable"). It also decides what using the verb does: disable the autopilot, enable it towards the radar console's entity target or manual target, or report that there is no target.

Modules:

- `World` (`world.dfy`): entities and the components the core reads, as `map<EntityId, Entity>`. An id missing from the map is a deleted entity. Every live entity has a transform.
- `Htn` (`htn.dfy`): the blackboard as a class whose `entries` map is updated in place, with typed read accessors. Also the blackboard values, the pathfinder's answer and the operator status.
- `LightbotSystem`, `PickNearbyBrokenLight`, `LightbotReplaceLight`, `ShuttleConsoleAutopilot`: one module per source file.
- `LightbotTask`: a lemma that connects planning with execution.

Collaborators whose code is not part of this model are parameters:

- the spatial lookup is `lookup: real -> seq<EntityId>`, applied to the range read from the blackboard;
- the pathfinder is `getPath: EntityId -> PathResponse`;
- `LightReplacerSystem.TryReplaceBulb` is `tryReplaceBulb: (EntityId, EntityId) -> bool`, and `Update` records the one call it makes in its result;
- the `ConsoleShuttleEvent` handlers are reduced to the shuttle id they leave in the event;
- `AutopilotSystem.EnableAutopilot`, `AutopilotSystem.DisableAutopilot` and the popups are reduced to the `ToggleOutcome` value.

The code keeps the first fixture enumerated among equally near ones, and so does the model.

NPCBlackboard.cs is not part of this model. Its key constants are taken as `"Owner"` and `"MovementPathfind"`. A typed read of a key that holds a value of another type is modelled as "absent".

## Model

| member | source | states |
|---|---|---|
| `World.SquareIsProduct` | Content.Server/NPC/HTN/PrimitiveTasks/Operators/Specific/PickNearbyBrokenLightOperator.cs:74 | The recursive square used for distances equals `n * n`. A candidate's distance is therefore the squared length of its position difference from the owner. |
| `LightbotSystem.NeedsReplacement` | Content.Server/Silicons/Bots/LightbotSystem.cs:19-38 | A non-fixture never needs a bulb. An empty bulb slot always does. A slot holding a bulb needs replacement iff the bulb's state is not `Normal`. A slot holding a non-bulb does not need replacement. |
| `LightbotSystem.GetBrokenLightsInRange` | Content.Server/Silicons/Bots/LightbotSystem.cs:43-53 | Every yielded entity is a fixture that needs replacement and came from the query. The result is no longer than the query. |
| `LightbotSystem.BrokenLightsMembership` | Content.Server/Silicons/Bots/LightbotSystem.cs:46-52 | An entity is yielded iff the query returned it and it needs replacement. No map is checked, so a fixture on another map than the bot is yielded too. |
| `LightbotSystem.BrokenLightsSubsequence` | Content.Server/Silicons/Bots/LightbotSystem.cs:48-52 | The yielded fixtures are a subsequence of the query, in query order. |
| `LightbotSystem.BrokenLightsAppend` | Content.Server/Silicons/Bots/LightbotSystem.cs:48-52 | Filtering a concatenated query gives the concatenation of the filtered parts. The filter works element by element, in order. |
| `LightbotSystem.RepairedFixtureIsSkipped` | Content.Server/Silicons/Bots/LightbotSystem.cs:32-35 | A fixture holding a `Normal` bulb is never yielded, whatever the query. |
| `Htn.TryGetFloat` | Content.Server/NPC/HTN/PrimitiveTasks/Operators/Specific/PickNearbyBrokenLightOperator.cs:49 | Gives a value iff the key is present and holds a float, and then gives that float. |
| `Htn.TryGetEntity` | Content.Server/NPC/HTN/PrimitiveTasks/Operators/Specific/LightbotReplaceLightOperator.cs:42 | Gives a value iff the key is present and holds an entity, and then gives that entity. |
| `Htn.NpcBlackboard.Remove` | Content.Server/NPC/HTN/PrimitiveTasks/Operators/Specific/LightbotReplaceLightOperator.cs:35 | Removes exactly the key and keeps every other entry. Reports whether the key was there. |
| `PickNearbyBrokenLight.NearestIsUnique` | Content.Server/NPC/HTN/PrimitiveTasks/Operators/Specific/PickNearbyBrokenLightOperator.cs:76 | Because the comparison is strict, at most one position holds the first same-map candidate at minimum distance. |
| `PickNearbyBrokenLight.NearestExists` | Content.Server/NPC/HTN/PrimitiveTasks/Operators/Specific/PickNearbyBrokenLightOperator.cs:62-81 | If any candidate is on the owner's map, some position is the nearest. The running minimum always ends with a fixture then. |
| `PickNearbyBrokenLight.NearestCandidate` | Content.Server/NPC/HTN/PrimitiveTasks/Operators/Specific/PickNearbyBrokenLightOperator.cs:62-84 | A fixture is selected iff some candidate is on the owner's map. Equivalently, iff some position is the nearest, and then the fixture at that position is selected. |
| `PickNearbyBrokenLight.NearestCandidateIs` | Content.Server/NPC/HTN/PrimitiveTasks/Operators/Specific/PickNearbyBrokenLightOperator.cs:74-80 | The fixture at any nearest position is exactly the selected one. |
| `PickNearbyBrokenLight.PickNearest` | Content.Server/NPC/HTN/PrimitiveTasks/Operators/Specific/PickNearbyBrokenLightOperator.cs:62-84 | Finds nothing iff every candidate is on another map. Otherwise it returns the candidate at some position on the owner's map, no farther than any same-map candidate. Closer candidates on other maps are skipped. Every same-map candidate at an earlier position is strictly farther, so ties go to the first. |
| `PickNearbyBrokenLight.PickNearbyBrokenLightOperator.Effects` | Content.Server/NPC/HTN/PrimitiveTasks/Operators/Specific/PickNearbyBrokenLightOperator.cs:95-100 | The effects hold exactly three keys. They are the target (the fixture), the move target (its coordinates) and the pathfind key (the path). |
| `PickNearbyBrokenLight.PickNearbyBrokenLightOperator.Plan` | Content.Server/NPC/HTN/PrimitiveTasks/Operators/Specific/PickNearbyBrokenLightOperator.cs:44-101 | A missing or non-float range key, a missing lightbot component or an empty broken list makes the plan invalid. The plan is valid iff those guards pass, a same-map broken fixture exists, and the path to the nearest one is `Path`. A valid plan's effects commit that fixture, which is on the owner's map. Every invalid plan carries no effects, and the blackboard is never written. |
| `LightbotReplaceLight.LightbotReplaceLightOperator.Update` | Content.Server/NPC/HTN/PrimitiveTasks/Operators/Specific/LightbotReplaceLightOperator.cs:38-61 | Never returns `Running`. Each of these gives `Failed` with no replace call: a missing target, a deleted target, an owner without the lightbot component, a target without a powered light, an owner without a light replacer. The replacer is called at most once, and only when all four guards pass, with (owner, target). Its answer `true` gives `Finished` and `false` gives `Failed`. |
| `LightbotReplaceLight.LightbotReplaceLightOperator.TaskShutdown` | Content.Server/NPC/HTN/PrimitiveTasks/Operators/Specific/LightbotReplaceLightOperator.cs:32-36 | Whatever the status, the target key is absent afterwards and every other entry is unchanged. |
| `LightbotTask.PlannedTargetReachesReplacement` | Content.Server/NPC/HTN/PrimitiveTasks/Operators/Specific/LightbotReplaceLightOperator.cs:40-55 | Merge a committed plan's effects into the blackboard and keep the world as it is. The next update then reads the planned fixture as its target and passes every target and lightbot guard. It calls the replacer on (owner, that fixture) iff the owner has a light replacer. |
| `ShuttleConsoleAutopilot.AutopilotVerbFor` | Content.Server/_WF/Shuttles/Systems/ShuttleConsoleSystem.Autopilot.cs:21-57 | No verb is offered without both interaction and access, or without a shuttle, its transform or its grid. Otherwise the verb targets the shuttle's grid. Its label is "disable" iff the grid has an enabled autopilot component. |
| `ShuttleConsoleAutopilot.OnGetAutopilotVerb` | Content.Server/_WF/Shuttles/Systems/ShuttleConsoleSystem.Autopilot.cs:21-57 | The event's verb list gains exactly the offered verb at its end, or stays as it was. |
| `ShuttleConsoleAutopilot.ToggleAutopilot` | Content.Server/_WF/Shuttles/Systems/ShuttleConsoleSystem.Autopilot.cs:59-107 | Nothing happens iff the console lacks the shuttle-console component or the shuttle lacks the shuttle component. An enabled autopilot is only disabled, and disabling happens only when it was enabled. Without a radar console the result is "no target". A valid, live entity target wins over a manual target. A manual target is used with the console's map id. "No target" happens iff neither target is usable. |
| `ShuttleConsoleAutopilot.VerbLabelPredictsToggle` | Content.Server/_WF/Shuttles/Systems/ShuttleConsoleSystem.Autopilot.cs:45-75 | In an unchanged world, using a "disable" verb never enables, and using an "enable" verb never disables. |

## Left out

- Pathfinding runs asynchronously and can be cancelled. It is an input function here, so cancellation is not modelled. Nothing is written to the blackboard on any path in any case.
- The spatial lookup (`GetEntitiesInRange`) is an input function of the range. The lightbot component's `Range` default is never read by this code.
- Distances are not floats. World positions are integer vectors, and candidates are compared by squared distance. `float.MaxValue` becomes "no best yet". This leaves out rounding ties and non-finite positions.
- `SharedInteractionSystem.InteractionRange - 0.5f` is a float constant that only the pathfinder reads.
- `NPCBlackboard`'s computed entries (the entity-manager fallback of `TryGetValue`) are not modelled.
- `PickNearbyBrokenLight.PickNearbyBrokenLightOperator.Plan`: requires the target, move-target and pathfind keys to be distinct. The source's dictionary initializer would throw on a duplicate, even though only the commit step needs this.
- `PickNearbyBrokenLight.PickNearbyBrokenLightOperator.Plan`: requires the owner key to be present and to hold an entity. The source reads it with `GetValue` (PickNearbyBrokenLightOperator.cs:47), which throws when it is absent; the throw is not modelled.
- `LightbotReplaceLight.LightbotReplaceLightOperator.Update`: requires the owner key to be present and to hold an entity. The source reads it with `GetValue` (LightbotReplaceLightOperator.cs:40), which throws when it is absent; the throw is not modelled.
- `Htn.TryGetFloat`: a key holding a value of another type reads as absent. The real blackboard's conversion rules belong to `NPCBlackboard`, which is not part of this model.
- `Htn.TryGetEntity`: a key holding a value of another type reads as absent, for the same reason.
- `LightbotReplaceLight.LightbotReplaceLightOperator.Update`: the side effects of `TryReplaceBulb` on the world are not modelled. Only the call and its answer are. The frame time is not read.
- `base.TaskShutdown` belongs to the operator base class, which is not part of this model.
- Localisation strings, popups, the verb icon and the verb priority are UI only. The outcome datatype stands for the popup that is shown.
- `AutopilotSystem.EnableAutopilot` and `AutopilotSystem.DisableAutopilot` are not part of this model. The toggle returns the action it would take.
- `ShuttleConsoleAutopilot.OnGetAutopilotVerb`: the event's verb list holds only autopilot verbs. Verbs added by other handlers are not modelled.
- `AdvancedCollarModuleComponent` holds data only and is unrelated to this logic.
