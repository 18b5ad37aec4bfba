/**
 * The centre-line example reward: full reward near the centre line, falling in three
 * steps as the car moves towards the edge. It exists in two forms, one reading the raw
 * telemetry record and one reading the framework state.
 */
module FollowCenterLine {
  import opened Wrappers
  import opened Geometry
  import opened DeepRacerFramework

  /** The four values the reward can take. */
  predicate IsBandValue(r: real)
  {
    r == 1.0 || r == 0.5 || r == 0.1 || r == 0.001
  }

  /**
   * The reward read from the raw telemetry record. With w the track width and d the
   * distance from the centre line, the markers are 0.1w, 0.25w and 0.5w.
   */
  function RewardFunction(p: Params): (r: real)
    ensures p.distanceFromCenter <= 0.1 * p.trackWidth ==> r == 1.0
    ensures 0.1 * p.trackWidth < p.distanceFromCenter <= 0.25 * p.trackWidth ==> r == 0.5
    ensures 0.25 * p.trackWidth < p.distanceFromCenter <= 0.5 * p.trackWidth ==> r == 0.1
    ensures p.trackWidth >= 0.0 && p.distanceFromCenter > 0.5 * p.trackWidth ==> r == 0.001
    ensures r == 0.001 <==>
      && p.distanceFromCenter > 0.1 * p.trackWidth
      && p.distanceFromCenter > 0.25 * p.trackWidth
      && p.distanceFromCenter > 0.5 * p.trackWidth
    ensures IsBandValue(r) && r > 0.0
  {
    var trackWidth := p.trackWidth;
    var distanceFromCenter := p.distanceFromCenter;
    var marker1 := 0.1 * trackWidth;
    var marker2 := 0.25 * trackWidth;
    var marker3 := 0.5 * trackWidth;
    if distanceFromCenter <= marker1 then 1.0
    else if distanceFromCenter <= marker2 then 0.5
    else if distanceFromCenter <= marker3 then 0.1
    else 0.001
  }

  /**
   * The same reward read from the framework state. The state has no track width
   * attribute, so the width is passed alongside it.
   */
  function GetReward<H>(framework: Framework<H>, trackWidth: real): (r: real)
    ensures framework.distanceFromCenter <= 0.1 * trackWidth ==> r == 1.0
    ensures 0.1 * trackWidth < framework.distanceFromCenter <= 0.25 * trackWidth ==> r == 0.5
    ensures 0.25 * trackWidth < framework.distanceFromCenter <= 0.5 * trackWidth ==> r == 0.1
    ensures trackWidth >= 0.0 && framework.distanceFromCenter > 0.5 * trackWidth ==> r == 0.001
    ensures r == 0.001 <==>
      && framework.distanceFromCenter > 0.1 * trackWidth
      && framework.distanceFromCenter > 0.25 * trackWidth
      && framework.distanceFromCenter > 0.5 * trackWidth
    ensures IsBandValue(r) && r > 0.0
  {
    var distanceFromCenter := framework.distanceFromCenter;
    var marker1 := 0.1 * trackWidth;
    var marker2 := 0.25 * trackWidth;
    var marker3 := 0.5 * trackWidth;
    if distanceFromCenter <= marker1 then 1.0
    else if distanceFromCenter <= marker2 then 0.5
    else if distanceFromCenter <= marker3 then 0.1
    else 0.001
  }

  /**
   * Moving away from the centre line never raises the reward. This holds for every
   * width: a negative width leaves the two middle bands empty.
   */
  lemma RewardIsNonIncreasing(p: Params, q: Params)
    requires p.trackWidth == q.trackWidth
    requires p.distanceFromCenter <= q.distanceFromCenter
    ensures RewardFunction(p) >= RewardFunction(q)
  {
  }

  /** No field other than the track width and the distance from the centre matters. */
  lemma RewardReadsOnlyWidthAndDistance(p: Params, q: Params)
    requires p.trackWidth == q.trackWidth && p.distanceFromCenter == q.distanceFromCenter
    ensures RewardFunction(p) == RewardFunction(q)
  {
  }

  /** The two forms agree whenever they see the same width and distance. */
  lemma GetRewardAgreesWithRewardFunction<H>(framework: Framework<H>, p: Params)
    requires framework.distanceFromCenter == p.distanceFromCenter
    ensures GetReward(framework, p.trackWidth) == RewardFunction(p)
  {
  }

  /**
   * End to end: plugging the framework form into the framework's entry point gives,
   * on every call that completes, the same reward as the raw form on the same record.
   */
  lemma FrameworkPathAgrees<H>(global: Option<Framework<H>>, p: Params, dist: (Point, Point) -> real)
    requires ClosestWaypointsValid(p)
    ensures
      var call := DeepRacerFramework.RewardFunction(global, p, dist, f => GetReward(f, p.trackWidth));
      call.reward == Some(RewardFunction(p))
  {
  }
}
