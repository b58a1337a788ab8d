/**
 * The Tears of Guthix cave area: an inclusive rectangle on plane 2. The
 * "interior" variant narrows only the western (minimum-x) edge by one tile,
 * so that a player standing on the entry threshold is in the area but not
 * in its interior.
 */
module Geofence {
  import opened Options

  /** A world tile: plane (floor level) and x/y coordinates. */
  datatype WorldPoint = WorldPoint(plane: int, x: int, y: int)

  const TearsPlane := 2
  const TearsMinX := 3251
  const TearsMaxX := 3260
  const TearsMinY := 9515
  const TearsMaxY := 9519

  /**
   * `location` is None when there is no local player or the player has no
   * world location; both count as outside the area.
   */
  predicate InTearsArea(location: Option<WorldPoint>, includeExterior: bool): (r: bool)
    ensures r ==> location.Some? && location.value.plane == TearsPlane
    ensures r && !includeExterior ==> location.value.x > TearsMinX
  {
    match location
    case None => false
    case Some(wp) =>
      && wp.plane == TearsPlane
      && wp.x >= TearsMinX + (if includeExterior then 0 else 1)
      && wp.x <= TearsMaxX
      && wp.y >= TearsMinY && wp.y <= TearsMaxY
  }

  /** The whole area, threshold included. */
  predicate InExterior(location: Option<WorldPoint>): (r: bool)
    ensures r ==> location.Some?
  {
    InTearsArea(location, true)
  }

  /** The area without its entry threshold column. */
  predicate InInterior(location: Option<WorldPoint>): (r: bool)
    ensures r ==> InExterior(location) && location.value.x != TearsMinX
  {
    InTearsArea(location, false)
  }

  lemma ExteriorBounds(location: Option<WorldPoint>)
    ensures InExterior(location) <==>
      location.Some? && location.value.plane == 2
      && 3251 <= location.value.x <= 3260
      && 9515 <= location.value.y <= 9519
  {
  }

  lemma InteriorBounds(location: Option<WorldPoint>)
    ensures InInterior(location) <==> InExterior(location) && location.value.x >= 3252
    ensures InInterior(location) ==> InExterior(location)
  {
  }

  lemma MissingLocationIsOutside()
    ensures !InExterior(None) && !InInterior(None)
  {
  }
}
