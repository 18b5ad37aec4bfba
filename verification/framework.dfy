/**
 * The framework's per-step state. A `Framework` value is what the Python framework keeps in its
 * `Framework` object, created on the first call: the waypoint cache, the step history and the
 * derived attributes a reward function reads. `ProcessParams` is the per-step
 * transition and `RewardFunction` the entry point that creates the state lazily.
 */
module DeepRacerFramework {
  import opened Wrappers
  import opened Geometry
  import opened WaypointCache

  /** The telemetry record of one step, restricted to the fields this version reads. */
  datatype Params = Params(
    x: real,
    y: real,
    allWheelsOnTrack: bool,
    closestWaypoints: (int, int),   // (previous waypoint id, next waypoint id)
    waypoints: seq<Point>,
    distanceFromCenter: real,
    trackWidth: real,
    isLeftOfCenter: bool,
    isCrashed: bool,
    isOffTrack: bool,
    isReversed: bool,
    steps: int)

  /**
   * The framework state. The history's element type is left open (`H`): this version
   * only ever creates the history empty or clears it.
   */
  datatype Framework<H> = Framework(
    processedWaypoints: seq<ProcessedWaypoint>,
    history: seq<H>,
    x: real,
    y: real,
    allWheelsOnTrack: bool,
    previousWaypointId: int,
    previousWaypointX: real,
    previousWaypointY: real,
    nextWaypointId: int,
    nextWaypointX: real,
    nextWaypointY: real,
    closestWaypointId: int,
    closestWaypointX: real,
    closestWaypointY: real,
    distanceFromClosestWaypoint: real,
    distanceFromCenter: real,
    distanceFromEdge: real,
    isLeftOfCenter: bool,
    isRightOfCenter: bool,
    isCrashed: bool,
    isOffTrack: bool,
    isReversed: bool,
    steps: int)

  /**
   * The outcome of one transition. Both cases carry the state left behind: when a
   * waypoint lookup raises, the attributes assigned before it keep their new values.
   */
  datatype Outcome<H> = Completed(state: Framework<H>) | RaisedIndexError(state: Framework<H>)

  /** The state after one call of the entry point, and the reward it returned, if any. */
  datatype RewardCall<H> = RewardCall(global: Framework<H>, reward: Option<real>)

  function Max(a: real, b: real): (m: real)
    ensures m >= a && m >= b && (m == a || m == b)
  {
    if a >= b then a else b
  }

  function Min(a: real, b: real): (m: real)
    ensures m <= a && m <= b && (m == a || m == b)
  {
    if a <= b then a else b
  }

  /** Python list indexing: negative ids count from the end, anything else out of range raises. */
  function WaypointAt(waypoints: seq<Point>, id: int): (r: Option<Point>)
    ensures r.Some? <==> -|waypoints| <= id < |waypoints|
    ensures 0 <= id < |waypoints| ==> r == Some(waypoints[id])
    ensures -|waypoints| <= id < 0 ==> r == Some(waypoints[|waypoints| + id])
    // equivalently: every valid id, negative or not, names the waypoint at id modulo the length
    ensures -|waypoints| <= id < |waypoints| ==> r == Some(waypoints[id % |waypoints|])
  {
    if 0 <= id < |waypoints| then Some(waypoints[id])
    else if -|waypoints| <= id < 0 then Some(waypoints[|waypoints| + id])
    else None
  }

  /** Both ids of the closest-waypoint pair can be looked up in the waypoint list. */
  predicate ClosestWaypointsValid(p: Params)
  {
    && -|p.waypoints| <= p.closestWaypoints.0 < |p.waypoints|
    && -|p.waypoints| <= p.closestWaypoints.1 < |p.waypoints|
  }

  /** The simulator may report step 0 for the first step; it is counted as step 1. */
  function NormalisedSteps(steps: int): (n: int)
    ensures n != 0
    ensures steps != 0 ==> n == steps
    ensures steps == 0 ==> n == 1
  {
    if steps == 0 then 1 else steps
  }

  /**
   * The state created on the first call: an empty history, the waypoint cache built
   * from the first telemetry record, and placeholder values for every attribute.
   */
  function New<H>(p: Params): (r: Framework<H>)
    ensures r.history == []
    ensures Mirrors(r.processedWaypoints, p.waypoints)
    ensures r.steps == 0
    ensures r.allWheelsOnTrack && !r.isLeftOfCenter && !r.isRightOfCenter
    ensures !r.isCrashed && !r.isOffTrack && !r.isReversed
    ensures r.previousWaypointId == 0 && r.nextWaypointId == 0 && r.closestWaypointId == 0
    ensures r.x == 0.0 && r.y == 0.0 && r.distanceFromCenter == 0.0 && r.distanceFromEdge == 0.0
    ensures r.distanceFromClosestWaypoint == 0.0
    ensures r.previousWaypointX == 0.0 && r.previousWaypointY == 0.0
    ensures r.nextWaypointX == 0.0 && r.nextWaypointY == 0.0
    ensures r.closestWaypointX == 0.0 && r.closestWaypointY == 0.0
  {
    Framework(
      ProcessedWaypoints(p.waypoints), [],
      0.0, 0.0, true,
      0, 0.0, 0.0,
      0, 0.0, 0.0,
      0, 0.0, 0.0, 0.0,
      0.0, 0.0,
      false, false, false, false, false,
      0)
  }

  /**
   * What a completed step leaves in `s`, given the state `f` before it, the telemetry
   * `p`, and the two waypoints `prev` and `next` its closest-waypoint ids name.
   */
  ghost predicate CompletedStepFrom<H>(f: Framework<H>, p: Params, prev: Point, next: Point,
                                       dist: (Point, Point) -> real, s: Framework<H>)
  {
    var pos := Point(p.x, p.y);
    && s.processedWaypoints == f.processedWaypoints
    && s.x == p.x && s.y == p.y
    && s.allWheelsOnTrack == p.allWheelsOnTrack
    && s.previousWaypointId == p.closestWaypoints.0 && s.nextWaypointId == p.closestWaypoints.1
    && s.previousWaypointX == prev.x && s.previousWaypointY == prev.y
    && s.nextWaypointX == next.x && s.nextWaypointY == next.y
    // the previous waypoint wins only when strictly nearer; a tie goes to the next one
    && (dist(pos, prev) < dist(pos, next) ==>
          s.closestWaypointId == s.previousWaypointId
          && s.closestWaypointX == prev.x && s.closestWaypointY == prev.y)
    && (dist(pos, prev) >= dist(pos, next) ==>
          s.closestWaypointId == s.nextWaypointId
          && s.closestWaypointX == next.x && s.closestWaypointY == next.y)
    && s.distanceFromClosestWaypoint == Min(dist(pos, prev), dist(pos, next))
    // the edge margin clamps the width, not the margin, so it can be negative
    && s.distanceFromCenter == p.distanceFromCenter
    && s.distanceFromEdge + s.distanceFromCenter == Max(0.0, p.trackWidth) / 2.0
    && (s.distanceFromEdge < 0.0 <==> p.distanceFromCenter > Max(0.0, p.trackWidth) / 2.0)
    && s.isLeftOfCenter == p.isLeftOfCenter
    && s.isRightOfCenter == !s.isLeftOfCenter
    && s.isCrashed == p.isCrashed && s.isOffTrack == p.isOffTrack && s.isReversed == p.isReversed
    // step 0 counts as step 1; the history is cleared exactly on step 1
    && s.steps != 0
    && (p.steps != 0 ==> s.steps == p.steps)
    && (p.steps == 0 ==> s.steps == 1)
    && (s.steps == 1 ==> s.history == [])
    && (s.steps != 1 ==> s.history == f.history)
  }

  /** The part of a step after both waypoint lookups have succeeded. */
  function CompleteStep<H>(f: Framework<H>, p: Params, prev: Point, next: Point,
                           dist: (Point, Point) -> real): (s: Framework<H>)
    ensures CompletedStepFrom(f, p, prev, next, dist, s)
  {
    var pos := Point(p.x, p.y);
    var toPrevious := dist(pos, prev);
    var toNext := dist(pos, next);
    var previousIsCloser := toPrevious < toNext;
    var steps := NormalisedSteps(p.steps);
    Framework(
      f.processedWaypoints,
      if steps == 1 then [] else f.history,
      p.x, p.y, p.allWheelsOnTrack,
      p.closestWaypoints.0, prev.x, prev.y,
      p.closestWaypoints.1, next.x, next.y,
      if previousIsCloser then p.closestWaypoints.0 else p.closestWaypoints.1,
      if previousIsCloser then prev.x else next.x,
      if previousIsCloser then prev.y else next.y,
      if previousIsCloser then toPrevious else toNext,
      p.distanceFromCenter,
      Max(0.0, p.trackWidth) / 2.0 - p.distanceFromCenter,
      p.isLeftOfCenter, !p.isLeftOfCenter,
      p.isCrashed, p.isOffTrack, p.isReversed,
      steps)
  }

  /**
   * One step: copy the telemetry into the state, pick the nearer of the two closest
   * waypoints, derive the distance to the edge and the side of the centre line,
   * normalise the step counter and clear the history on step 1. `dist` is the
   * Euclidean distance (see `Geometry.IsEuclidean`).
   */
  function ProcessParams<H>(f: Framework<H>, p: Params, dist: (Point, Point) -> real): (r: Outcome<H>)
    // the waypoint cache is never rebuilt, and the history never grows
    ensures r.state.processedWaypoints == f.processedWaypoints
    ensures |r.state.history| <= |f.history|
    // assigned before the first lookup, so kept even when a lookup raises
    ensures r.state.x == p.x && r.state.y == p.y
    ensures r.state.allWheelsOnTrack == p.allWheelsOnTrack
    ensures r.state.previousWaypointId == p.closestWaypoints.0
    // a lookup raises exactly when an id is out of range, and then nothing later is assigned
    ensures r.Completed? <==> ClosestWaypointsValid(p)
    // a raising step keeps the earlier attributes and assigns only those set before the lookup
    ensures r.RaisedIndexError? ==> r.state.history == f.history && r.state.steps == f.steps
    ensures WaypointAt(p.waypoints, p.closestWaypoints.0).None? ==>
      r.state == f.(x := p.x, y := p.y, allWheelsOnTrack := p.allWheelsOnTrack,
                    previousWaypointId := p.closestWaypoints.0)
    ensures WaypointAt(p.waypoints, p.closestWaypoints.0).Some? && WaypointAt(p.waypoints, p.closestWaypoints.1).None? ==>
      var prev := WaypointAt(p.waypoints, p.closestWaypoints.0).value;
      r.state == f.(x := p.x, y := p.y, allWheelsOnTrack := p.allWheelsOnTrack,
                    previousWaypointId := p.closestWaypoints.0,
                    previousWaypointX := prev.x, previousWaypointY := prev.y,
                    nextWaypointId := p.closestWaypoints.1)
    ensures r.Completed? ==>
      CompletedStepFrom(f, p, WaypointAt(p.waypoints, p.closestWaypoints.0).value,
                        WaypointAt(p.waypoints, p.closestWaypoints.1).value, dist, r.state)
  {
    var s1 := f.(x := p.x, y := p.y, allWheelsOnTrack := p.allWheelsOnTrack,
                 previousWaypointId := p.closestWaypoints.0);
    match WaypointAt(p.waypoints, p.closestWaypoints.0)
    case None => RaisedIndexError(s1)
    case Some(prev) =>
      match WaypointAt(p.waypoints, p.closestWaypoints.1)
      case None =>
        RaisedIndexError(s1.(previousWaypointX := prev.x, previousWaypointY := prev.y,
                             nextWaypointId := p.closestWaypoints.1))
      case Some(next) =>
        Completed(CompleteStep(f, p, prev, next, dist))
  }

  /**
   * For a true Euclidean distance, the previous waypoint is chosen exactly when its
   * squared distance from the car is strictly smaller, and the recorded distance is
   * never more than the distance to either waypoint of the pair.
   */
  lemma ClosestWaypointBySquaredDistance<H>(f: Framework<H>, p: Params, dist: (Point, Point) -> real)
    requires IsEuclidean(dist)
    requires ClosestWaypointsValid(p)
    ensures
      var s := ProcessParams(f, p, dist).state;
      var pos := Point(p.x, p.y);
      var prev := WaypointAt(p.waypoints, p.closestWaypoints.0).value;
      var next := WaypointAt(p.waypoints, p.closestWaypoints.1).value;
      && (SquaredDistance(pos, prev) < SquaredDistance(pos, next) ==>
            s.closestWaypointId == p.closestWaypoints.0 && s.distanceFromClosestWaypoint == dist(pos, prev))
      && (SquaredDistance(pos, prev) >= SquaredDistance(pos, next) ==>
            s.closestWaypointId == p.closestWaypoints.1 && s.distanceFromClosestWaypoint == dist(pos, next))
      && 0.0 <= s.distanceFromClosestWaypoint
      && s.distanceFromClosestWaypoint <= dist(pos, prev)
      && s.distanceFromClosestWaypoint <= dist(pos, next)
  {
    var pos := Point(p.x, p.y);
    var prev := WaypointAt(p.waypoints, p.closestWaypoints.0).value;
    var next := WaypointAt(p.waypoints, p.closestWaypoints.1).value;
    NearerBySquaredDistance(dist, pos, prev, next);
  }

  /**
   * The entry point: the state is created from the first call's telemetry and then
   * reused, so later calls only run the transition. `getReward` is the pluggable
   * reward function; it is called only when the transition completed.
   */
  function RewardFunction<H>(global: Option<Framework<H>>, p: Params, dist: (Point, Point) -> real,
                             getReward: Framework<H> -> real): (r: RewardCall<H>)
    ensures global.None? ==> Mirrors(r.global.processedWaypoints, p.waypoints) && r.global.history == []
    ensures global.Some? ==> r.global.processedWaypoints == global.value.processedWaypoints
    ensures global.Some? ==> |r.global.history| <= |global.value.history|
    ensures r.global.x == p.x && r.global.y == p.y
    // an existing state is reused: the call only runs the transition on it
    ensures r.global == ProcessParams(if global.None? then New(p) else global.value, p, dist).state
    ensures r.reward.Some? <==> ClosestWaypointsValid(p)
    ensures r.reward.Some? ==> r.reward.value == getReward(r.global)
  {
    var framework := if global.None? then New(p) else global.value;
    match ProcessParams(framework, p, dist)
    case Completed(s) => RewardCall(s, Some(getReward(s)))
    case RaisedIndexError(s) => RewardCall(s, None)
  }

  /** The state after a sequence of calls to the entry point, starting from `global`. */
  function Episode<H>(global: Option<Framework<H>>, calls: seq<Params>, dist: (Point, Point) -> real,
                      getReward: Framework<H> -> real): Option<Framework<H>>
    decreases |calls|
  {
    if calls == [] then global
    else Episode(Some(RewardFunction(global, calls[0], dist, getReward).global), calls[1..], dist, getReward)
  }

  /**
   * Over any run of calls the history stays empty, and the waypoint cache is never
   * rebuilt: it is the one the state already had, or, when the run creates the state,
   * the one built from the first call's waypoints, whatever later calls report.
   */
  lemma {:induction false} EpisodeKeepsState<H>(global: Option<Framework<H>>, calls: seq<Params>,
                                                dist: (Point, Point) -> real, getReward: Framework<H> -> real)
    requires global.Some? || |calls| > 0
    requires global.Some? ==> global.value.history == []
    ensures Episode(global, calls, dist, getReward).Some?
    ensures Episode(global, calls, dist, getReward).value.history == []
    ensures global.Some? ==>
      Episode(global, calls, dist, getReward).value.processedWaypoints == global.value.processedWaypoints
    ensures global.None? ==>
      Mirrors(Episode(global, calls, dist, getReward).value.processedWaypoints, calls[0].waypoints)
    decreases |calls|
  {
    if calls != [] {
      var g := RewardFunction(global, calls[0], dist, getReward).global;
      EpisodeKeepsState(Some(g), calls[1..], dist, getReward);
    }
  }
}
