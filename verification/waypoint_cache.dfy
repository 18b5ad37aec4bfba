/**
 * The per-framework waypoint cache: one processed entry per track waypoint. In this
 * version an entry holds only the waypoint's coordinates.
 */
module WaypointCache {
  import opened Geometry

  datatype ProcessedWaypoint = ProcessedWaypoint(x: real, y: real)

  /** `processed` has one entry per waypoint, in the same order, with the same coordinates. */
  ghost predicate Mirrors(processed: seq<ProcessedWaypoint>, waypoints: seq<Point>)
  {
    && |processed| == |waypoints|
    && forall i :: 0 <= i < |processed| ==> processed[i].x == waypoints[i].x && processed[i].y == waypoints[i].y
  }

  /** Builds the cache by appending one entry per waypoint, in waypoint order. */
  function ProcessedWaypoints(waypoints: seq<Point>): (r: seq<ProcessedWaypoint>)
    ensures Mirrors(r, waypoints)
  {
    if waypoints == [] then
      []
    else
      var last := waypoints[|waypoints| - 1];
      ProcessedWaypoints(waypoints[..|waypoints| - 1]) + [ProcessedWaypoint(last.x, last.y)]
  }
}
