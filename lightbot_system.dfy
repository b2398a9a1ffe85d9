/**
 * `LightbotSystem`: which light fixtures need a new bulb, and the filter that
 * turns a range query into the list of broken fixtures.
 */
module LightbotSystem {
  import opened Wrappers
  import opened World

  /**
   * `NeedsReplacement`: a fixture needs a bulb when its bulb container is empty
   * or holds a bulb whose state is not `Normal`. An entity that is not a
   * powered light, and a fixture holding something that is not a bulb, do not.
   */
  function NeedsReplacement(w: World, light: EntityId): (r: bool)
    ensures !HasPoweredLight(w, light) ==> !r
    ensures HasPoweredLight(w, light) && w[light].poweredLight.value.bulbSlot.None? ==> r
    ensures HasPoweredLight(w, light) && w[light].poweredLight.value.bulbSlot.Some?
            && HasLightBulb(w, w[light].poweredLight.value.bulbSlot.value)
            ==> (r <==> w[w[light].poweredLight.value.bulbSlot.value].lightBulb.value.state != Normal)
    ensures HasPoweredLight(w, light) && w[light].poweredLight.value.bulbSlot.Some?
            && !HasLightBulb(w, w[light].poweredLight.value.bulbSlot.value)
            ==> !r
  {
    if !HasPoweredLight(w, light) then
      false
    else
      match w[light].poweredLight.value.bulbSlot
      case None => true
      case Some(bulb) =>
        if HasLightBulb(w, bulb) then w[bulb].lightBulb.value.state != Normal else false
  }

  /**
   * `GetBrokenLightsInRange`: the fixtures of the range query (`fixtures`, in
   * the order the lookup enumerates them) that need replacement. It looks at
   * no map id, so fixtures on another map than the bot pass through.
   */
  function GetBrokenLightsInRange(w: World, fixtures: seq<EntityId>): (r: seq<EntityId>)
    ensures |r| <= |fixtures|
    ensures forall i :: 0 <= i < |r| ==> NeedsReplacement(w, r[i]) && HasPoweredLight(w, r[i])
    ensures forall x :: x in r ==> x in fixtures
  {
    if fixtures == [] then
      []
    else
      var rest := GetBrokenLightsInRange(w, fixtures[1..]);
      if NeedsReplacement(w, fixtures[0]) then [fixtures[0]] + rest else rest
  }

  /** `a` is `b` with some elements dropped, the rest kept in order. */
  ghost predicate IsSubsequence<T>(a: seq<T>, b: seq<T>)
    decreases |b|
  {
    a == [] || (b != [] && ((a[0] == b[0] && IsSubsequence(a[1..], b[1..])) || IsSubsequence(a, b[1..])))
  }

  /** A fixture is yielded exactly when the query returned it and it needs replacement. */
  lemma {:induction false} BrokenLightsMembership(w: World, fixtures: seq<EntityId>, x: EntityId)
    ensures x in GetBrokenLightsInRange(w, fixtures) <==> x in fixtures && NeedsReplacement(w, x)
  {
    if fixtures != [] {
      BrokenLightsMembership(w, fixtures[1..], x);
      assert x in fixtures <==> x == fixtures[0] || x in fixtures[1..];
    }
  }

  /** The yielded fixtures keep the query's order. */
  lemma {:induction false} BrokenLightsSubsequence(w: World, fixtures: seq<EntityId>)
    ensures IsSubsequence(GetBrokenLightsInRange(w, fixtures), fixtures)
  {
    if fixtures != [] {
      var rest := GetBrokenLightsInRange(w, fixtures[1..]);
      BrokenLightsSubsequence(w, fixtures[1..]);
      if NeedsReplacement(w, fixtures[0]) {
        assert ([fixtures[0]] + rest)[1..] == rest;
      }
    }
  }

  /** Filtering a query in two parts gives the two filtered parts, one after the other. */
  lemma {:induction false} BrokenLightsAppend(w: World, a: seq<EntityId>, b: seq<EntityId>)
    ensures GetBrokenLightsInRange(w, a + b) == GetBrokenLightsInRange(w, a) + GetBrokenLightsInRange(w, b)
  {
    if a != [] {
      assert (a + b)[0] == a[0];
      assert (a + b)[1..] == a[1..] + b;
      BrokenLightsAppend(w, a[1..], b);
    } else {
      assert a + b == b;
    }
  }

  /**
   * Once a fixture holds a bulb in the `Normal` state it drops out of every
   * query's result, so a bot does not pick a light it has already fixed.
   */
  lemma RepairedFixtureIsSkipped(w: World, fixtures: seq<EntityId>, fixture: EntityId)
    requires HasPoweredLight(w, fixture)
    requires w[fixture].poweredLight.value.bulbSlot.Some?
    requires HasLightBulb(w, w[fixture].poweredLight.value.bulbSlot.value)
    requires w[w[fixture].poweredLight.value.bulbSlot.value].lightBulb.value.state == Normal
    ensures fixture !in GetBrokenLightsInRange(w, fixtures)
  {
  }

}
