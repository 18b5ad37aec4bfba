# DeepRacer Framework (version 1.0): a Dafny model

The DeepRacer Framework wraps the AWS DeepRacer `reward_function(params)` callback. On the
first call it creates a `Framework` object. That object caches the track waypoints. On
every call it copies the telemetry record into named attributes and derives a few more
from it. A user-written `get_reward(framework)` then reads those attributes. This project
models that state and its per-step transition as pure functions over immutable datatypes.
It also models the example "follow the centre line" reward in both of its forms.

Modules, one per source component:

- `Geometry` (`geometry.dfy`) covers the angle helpers. `AngleInProperRange` wraps an angle once; `TurnBetweenDirections` gives a signed turn. It also defines the squared distance, and `IsEuclidean` says what the distance function must be.
- `WaypointCache` (`waypoint_cache.dfy`) holds `ProcessedWaypoint` and the cache builder.
- `DeepRacerFramework` (`framework.dfy`) holds:
  - the typed telemetry record `Params` and the state record `Framework`;
  - the constructor `New` and the transition `ProcessParams`;
  - the lazily-initialising entry point `RewardFunction`;
  - `Episode`, a fold of the entry point over a sequence of calls.
- `FollowCenterLine` (`follow_center_line.dfy`) has the banded reward: `RewardFunction` over the raw record, and `GetReward` over the framework state.
- `Wrappers` (`wrappers.dfy`) holds `Option`.

Design decisions:

- **The square root is a parameter.** `get_distance_between_points` takes a floating-point square root. The transition therefore takes the distance function `dist` as an argument. `Geometry.IsEuclidean(dist)` says `dist` is non-negative and squares to the exact squared distance. Under that assumption, `ClosestWaypointBySquaredDistance` shows the choice of waypoint is decided by squared distances alone.
- **Python list indexing is exact.** `WaypointAt` counts a negative id from the end of the list and returns `None` (Python's `IndexError`) for any other out-of-range id. The transition therefore returns an `Outcome`:
  - `Completed(state)` when both lookups succeed;
  - `RaisedIndexError(state)` otherwise. That state keeps the attributes the Python code had already assigned when the lookup raised: `x`, `y`, `all_wheels_on_track` and `previous_waypoint_id`, and, if the second lookup fails, the previous waypoint's coordinates and `next_waypoint_id`.
- **The history element type is open.** The history is a type parameter `H`, because this version never appends to the history and so never fixes its element type.
- **The reward function is an argument.** The entry point takes `getReward: Framework<H> -> real` in place of the module-level `get_reward`.
- **The framework form of the reward gets the width as a parameter.** That form reads `framework.track_width`, but the `Framework` class never defines that attribute, so the model passes the width in explicitly.

The model follows the code where it behaves differently from a tidied-up reading of the helpers' names:

- The angle wrap is applied once, not repeatedly. 180 maps to −180, and −180 maps to 180. The result therefore does not lie in a half-open interval, and the wrap is not idempotent at ±180 (`AngleInProperRangeSwapsBoundaries`).
- A turn is guaranteed to lie within ±180 only for directions that are themselves within ±180 (`TurnBetweenDirectionsWrapsOnce`).
- This version has none of the following: corridor edges, true-bearing history, speed windows, waypoint-crossing events, projection or obstacle handling. The history is only ever created empty or cleared on step 1.

## Model

| member | source | states |
|---|---|---|
| Geometry.AngleInProperRange | src/deep_racer_framework.py:69-75 | angles strictly inside (−180, 180) are unchanged; [180, 540) maps to angle − 360 in [−180, 180); (−540, −180] maps to angle + 360 in (−180, 180]; at 540 or more in magnitude the same single shift of 360 applies and the result stays out of range; every result differs from its input by 0 or ±360 |
| Geometry.AngleInProperRangeIsOdd | src/deep_racer_framework.py:69-75 | wrapping −a gives the negation of wrapping a, for every a |
| Geometry.AngleInProperRangeSwapsBoundaries | src/deep_racer_framework.py:70-73 | 180 maps to −180, −180 maps to 180, so the wrap is not idempotent at 180 |
| Geometry.TurnBetweenDirections | src/deep_racer_framework.py:78-80 | turning from a direction to itself is 0; for directions in [−180, 180] the turn lies in [−180, 180]; current + turn equals required up to one full revolution |
| Geometry.TurnBetweenDirectionsIsAntisymmetric | src/deep_racer_framework.py:78-80 | turn(a, b) = −turn(b, a) for all a, b, boundaries included |
| Geometry.TurnBetweenDirectionsWrapsOnce | src/deep_racer_framework.py:78-80 | for every pair whose difference is 540 or more in magnitude, the turn is the difference reduced by exactly one revolution and stays beyond ±180 (e.g. turn(0, 600) = 240) |
| Geometry.NearerBySquaredDistance | src/deep_racer_framework.py:51-58 | for a true Euclidean distance, "strictly nearer" holds iff the squared distance is strictly smaller |
| WaypointCache.ProcessedWaypoints | src/deep_racer_framework.py:89-98 | one processed entry per waypoint, same order, same x and y |
| DeepRacerFramework.WaypointAt | src/deep_racer_framework.py:152-155 | a waypoint id is found iff it lies in [−n, n) for a list of n waypoints; non-negative ids index from the front, negative ids from the back, so every valid id names the waypoint at id modulo n |
| DeepRacerFramework.NormalisedSteps | src/deep_racer_framework.py:182-188 | the normalised step count is never 0: 0 becomes 1, any other count is kept |
| DeepRacerFramework.New | src/deep_racer_framework.py:108-144 | a new state has an empty history, a waypoint cache mirroring the constructing record's waypoints, step 0 and the placeholder attribute values (all coordinates and distances 0.0, all ids 0, all wheels on track, every other flag false) |
| DeepRacerFramework.CompleteStep | src/deep_racer_framework.py:157-192 | after both lookups: previous waypoint chosen only when strictly nearer (ties go to next); closest distance is the minimum of the two; edge distance plus centre distance is max(0, width)/2, negative exactly when the car is beyond half the clamped width; right-of-centre is the negation of left-of-centre; a reported step 0 becomes step 1 and every other count is kept; history is empty on step 1 (so also on a reported 0) and unchanged otherwise |
| DeepRacerFramework.ProcessParams | src/deep_racer_framework.py:146-192 | completes iff both closest-waypoint ids are valid list indices; never rebuilds the waypoint cache or lengthens the history; on an index error the state is exactly the old state with x, y, all-wheels-on-track and the previous id assigned (first lookup failing), plus the previous waypoint's coordinates and the next id (second lookup failing); on completion satisfies everything listed for CompleteStep |
| DeepRacerFramework.ClosestWaypointBySquaredDistance | src/deep_racer_framework.py:157-168 | for a Euclidean distance, the previous id is chosen iff its squared distance is strictly smaller, and the recorded distance is non-negative and no more than either distance |
| DeepRacerFramework.RewardFunction | src/deep_racer_framework.py:224-229 | the state is built from the current record only when none exists, otherwise reused with its cache; the returned state is exactly the transition applied to the new or reused state; a reward is returned iff the step completes, and it is the reward function applied to the updated state |
| DeepRacerFramework.EpisodeKeepsState | src/deep_racer_framework.py:224-228 | over any run of calls the history stays empty and the waypoint cache is never rebuilt: it is the existing state's cache, or, when the run creates the state, the cache mirrors the first call's waypoints whatever later calls report |
| FollowCenterLine.RewardFunction | src/examples/follow_center_line.py:11-31 | reward 1.0 for d ≤ 0.1w, 0.5 for 0.1w < d ≤ 0.25w, 0.1 for 0.25w < d ≤ 0.5w, 0.001 exactly when d is beyond all three markers; always one of the four values, so strictly positive |
| FollowCenterLine.GetReward | src/examples/follow_center_line.py:45-66 | the same four bands and values, read from the framework state's distance from centre |
| FollowCenterLine.RewardIsNonIncreasing | src/examples/follow_center_line.py:17-29 | for a fixed width, a larger distance from centre never gives a larger reward (for every width, not only non-negative ones) |
| FollowCenterLine.RewardReadsOnlyWidthAndDistance | src/examples/follow_center_line.py:13-14 | two records with equal width and distance from centre get equal rewards |
| FollowCenterLine.GetRewardAgreesWithRewardFunction | src/examples/follow_center_line.py:45-66 | the framework form equals the raw form whenever both see the same width and distance |
| FollowCenterLine.FrameworkPathAgrees | src/deep_racer_framework.py:224-229 | plugging the framework form into the entry point yields, for every completing call, the raw form's reward on the same record |

## Left out

- `get_bearing_between_points` (atan2 and conversion to degrees) is not modelled. It is floating-point trigonometry, and nothing in this version's transition uses it.
- The square root in `get_distance_between_points` is not modelled. The distance is a parameter constrained by `Geometry.IsEuclidean`.
- Python's `float()`, `bool()`, `int()` and `int(round())` coercions and dictionary lookups are not modelled. `Params` is a typed record, and `steps` is already an integer.
- Floating-point rounding is not modelled. Arithmetic is exact over the reals. This includes the products `0.1 * track_width` and the like in the reward markers.
- The only `Params` fields kept are the ones this version reads. Fields such as heading, progress, speed, steering angle and the object fields are left out.
- `print_debug` and the placeholder `get_reward` (it prints every attribute and returns `steps * 2`) are not modelled, because they are console output. The entry point takes the reward function as a parameter instead.
- The module-level `framework_global` variable is not modelled. The model passes the state in and out explicitly.
- Exceptions a reward function might raise are not modelled.
- The `ParamNames` string constants are not modelled. They carry no behaviour.
- `src/examples/more_advanced_example.py` is not modelled. It raises to a real-valued power, and it reads attributes (`progress_speed`, `skew`, `slide`, `distance_from_extreme_edge`) that this version's `Framework` never defines.
- FollowCenterLine.GetReward: as written, `get_reward` reads `framework.track_width`, an attribute `Framework` never defines, so every call raises `AttributeError`. The model passes the width in explicitly, and so models the repaired form; `FrameworkPathAgrees` is a statement about that repaired form.
