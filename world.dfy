/**
 * The part of the entity/component world that the lightbot operators and the
 * shuttle-console autopilot look at. The world is a map from entity id to the
 * components that entity carries; an id that is not in the map is a deleted
 * (or never spawned) entity. Every live entity has a transform, as in the
 * engine, so `TryComp<TransformComponent>(e)` succeeds exactly when `e in w`.
 */
module World {
  import opened Wrappers

  /** An `EntityUid`; id 0 is `EntityUid.Invalid`. */
  type EntityId = nat

  type MapId = nat

  /** `EntityUid.IsValid()`: every id except the invalid one. */
  predicate IsValidUid(e: EntityId) {
    e > 0
  }

  /** A position; the engine's float vectors are abstracted to integer ones. */
  datatype Vec = Vec(x: int, y: int)

  /** A position relative to a parent entity (`EntityCoordinates`). */
  datatype EntityCoordinates = EntityCoordinates(parent: EntityId, position: Vec)

  /** A position on a map (`MapCoordinates`). */
  datatype MapCoordinates = MapCoordinates(position: Vec, mapId: MapId)

  /** `TransformComponent`: the fields the core reads. */
  datatype Transform = Transform(
    mapId: MapId,
    gridUid: Option<EntityId>,
    worldPosition: Vec,
    coordinates: EntityCoordinates)

  datatype LightBulbState = Normal | Broken | Burned

  /** `PoweredLightComponent`: the entity held by its bulb container, if any. */
  datatype PoweredLight = PoweredLight(bulbSlot: Option<EntityId>)

  /** `LightBulbComponent`. */
  datatype LightBulb = LightBulb(state: LightBulbState)

  /** `RadarConsoleComponent`: the selected entity target and the manual coordinate target. */
  datatype RadarConsole = RadarConsole(targetEntity: Option<EntityId>, target: Option<Vec>)

  /** `AutopilotComponent`. */
  datatype Autopilot = Autopilot(enabled: bool)

  /**
   * One entity. Marker components that carry no state the core reads
   * (`LightbotComponent`, `LightReplacerComponent`, `ShuttleConsoleComponent`,
   * `ShuttleComponent`) are present or absent.
   */
  datatype Entity = Entity(
    xform: Transform,
    poweredLight: Option<PoweredLight>,
    lightBulb: Option<LightBulb>,
    lightbot: bool,
    lightReplacer: bool,
    shuttleConsole: bool,
    radarConsole: Option<RadarConsole>,
    shuttle: bool,
    autopilot: Option<Autopilot>)

  type World = map<EntityId, Entity>

  predicate HasLightbot(w: World, e: EntityId) {
    e in w && w[e].lightbot
  }

  predicate HasLightReplacer(w: World, e: EntityId) {
    e in w && w[e].lightReplacer
  }

  predicate HasPoweredLight(w: World, e: EntityId) {
    e in w && w[e].poweredLight.Some?
  }

  predicate HasLightBulb(w: World, e: EntityId) {
    e in w && w[e].lightBulb.Some?
  }

  /**
   * The squared distance between two world positions. The source compares
   * `Length()` of the difference; the square root is monotone, so comparing
   * squared distances orders candidates the same way.
   */
  function DistanceSquared(a: Vec, b: Vec): nat {
    Square(a.x - b.x) + Square(a.y - b.y)
  }

  /**
   * `n * n`, written by recursion so that the verifier can reason about
   * orderings of distances without nonlinear arithmetic.
   */
  function Square(n: int): nat
    decreases if n < 0 then -n else n, if n < 0 then 1 else 0
  {
    if n < 0 then Square(-n) else if n == 0 then 0 else Square(n - 1) + 2 * n - 1
  }

  /**
   * `Square` is the product `n * n`, so `DistanceSquared` is the squared
   * Euclidean length of `a - b`: the recursive form keeps the distance
   * comparisons of the nearest-fixture search out of nonlinear arithmetic.
   */
  lemma {:induction false} SquareIsProduct(n: int)
    ensures Square(n) == n * n
    decreases if n < 0 then -n else n, if n < 0 then 1 else 0
  {
    if n < 0 {
      SquareIsProduct(-n);
    } else if n > 0 {
      SquareIsProduct(n - 1);
    }
  }

}
