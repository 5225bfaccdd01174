# EchoVRAPI frame interpolation, modelled in Dafny

EchoVRAPI mirrors the JSON that the EchoVR game serves about a running match:
a `Frame` holds one snapshot (scoreboard, session, disc, teams of players, the
recording user's tracked head) and the time it was recorded. For smooth
playback of recorded frames, `Frame.Lerp` builds the frame at any playhead time
between two recorded ones. `Transform.Lerp` and `VRPlayer.Lerp` blend tracked
positions and orientations in the same way. `Frame.Lerp` calls neither of them,
and it leaves the frame's `player` unset. This project models these three
blends, the roster lookups of `Frame`, and the small math helpers they rely
on, and proves what each promises.

Modules, following the C# source:

- `Common`: `Option` (C#'s null), `Result` (a call that may throw), and `Error`, the exceptions the code can raise.
- `Geometry`: the `Vector3` and `Quaternion` value types of System.Numerics, `Vector3.Cross` and `Vector3.Lerp`.
- `Math2` and `Vector3Extensions`: the two static helper classes of Frame.cs.
- `Poses`: the rotation logic shared by `Transform` and `VRPlayer`. Each has nullable direction lists and a quaternion cache.
- `Transforms` and `VRPlayers`: the classes `Transform` and `VRPlayer`. Each class has fields, getters, setters that update the fields in place, and a static `Lerp`.
- `Frames`: the `Frame` value, its lookups, and `Frame.Lerp`.

Modelling choices:

- `float` is `real` and `DateTime` is a tick count (`int`). The interpolation ratio is therefore an exact real division.
- A nullable `List<float>` is an `Option<seq<real>>`. The core only ever replaces such lists and never edits one in place, so sharing a list between two objects cannot be observed.
- A `float[]` stays an `array<real>`.
- Code the model cannot see, or that uses square roots, is passed in as a function parameter. Four calls are handled this way:
  - `Math2.QuaternionLookRotation`, as `look`;
  - `Quaternion.Lerp`, as `blend`;
  - `Disc.Lerp`, as `discLerp`;
  - `Team.Lerp`, as `teamLerp`.
- `Vector3.Cross` is the standard cross-product formula, so `Left` is a polynomial just like `Forward` and `Up`.

Three behaviours of the code worth noting:

- At exactly an endpoint time, `Frame.Lerp` builds a new frame with ratio 0 or 1. It does not return the endpoint frame, because the comparisons at Frame.cs:208-209 are strict.
- Teams are paired by their position in the list, not by player identity.
- Frames passed in the wrong order give null (`None`). No exception is raised.

## Model

| member | source | states |
|---|---|---|
| `Frames.Frame.Lerp` | Frame.cs:199-261 | Equal recording times give `from` whatever the playhead. If `from` was recorded after `to`, the result is null; this test comes after the equality test. A playhead strictly before `from` gives `from`, and one strictly after `to` gives `to`. Every playhead in the closed interval gives a new frame that satisfies the whole blend policy (`IsBlendOf`). |
| `Frames.Ratio` | Frame.cs:212-214 | The ratio lies in [0,1] for a playhead inside the interval. It is 0 exactly at `from`'s time and 1 exactly at `to`'s time. |
| `Frames.ReconcileTeams` | Frame.cs:237-258 | The result has one team per index of the longer team list. At an index that only `to` has, the team is `to`'s. At an index that only `from` has, it is `from`'s. At an index both have, it is `Team.Lerp` of the pair at that position. |
| `Frames.StoreAt` | Frame.cs:246 | The `List<T>` indexer store succeeds exactly below `Count`. On success it keeps the length, places the value and leaves every other entry as it was; otherwise it throws `ArgumentOutOfRange`. |
| `Frames.FillTeamsAsWritten` | Frame.cs:239-256 | The team loop as written, from index `i` on, succeeds exactly when no index is left to visit or the list already holds an entry for every index below the team count. On success the length is unchanged. The only exception is `ArgumentOutOfRange`. |
| `Frames.FillTeamsAsWrittenThrows` | Frame.cs:239-256 | The team loop as written, filling a list created with a capacity, throws on its first store whenever either frame has a team. It succeeds, with no teams, only when both frames have none. |
| `Frames.OneTeamEachThrows` | Frame.cs:239-256 | A concrete input for the defect: one team in each frame makes the loop as written throw. |
| `Frames.BlendedClockBetween` | Frame.cs:227 | The blended game clock lies between the two clocks. It equals `from`'s clock at `from`'s time and `to`'s clock at `to`'s time. |
| `Frames.BlendedClockMonotone` | Frame.cs:212-227 | For a clock that counts down, a later playhead never shows more time left. |
| `Frames.CountdownQuarterWay` | Frame.cs:212-227 | Clocks of 100 and 90, ten seconds apart, blend to 97.5 at 2.5 seconds in. |
| `Frames.BlendedLobbyFollowsFrom` | Frame.cs:54 | A blended frame is in the lobby (`inLobby`) exactly when `from` is, because `map_name` is copied from `from`. |
| `Frames.FindFirst` | Frame.cs:121-132 | The nested team-then-player search finds nothing exactly when no player matches. Otherwise it returns the position of the first match in team order, then list order. |
| `Frames.FirstMatchIsUnique` | Frame.cs:121-176 | There is at most one first match, so `GetPlayer` and `GetTeam` for the same key point at the same player. |
| `Frames.Frame.GetPlayerByName` | Frame.cs:121-132 | `GetPlayer(string)` returns null exactly when no player has that name. Otherwise it returns the first player with that name. |
| `Frames.Frame.GetPlayerByUserid` | Frame.cs:139-150 | `GetPlayer(ulong)` returns null exactly when no player has that userid. Otherwise it returns the first player with that userid. |
| `Frames.Frame.GetTeamByName` | Frame.cs:152-163 | `GetTeam(string)` returns null exactly when no player has that name. Otherwise it returns the team holding the first such player. |
| `Frames.Frame.GetTeamByUserid` | Frame.cs:165-176 | `GetTeam(ulong)` returns null exactly when no player has that userid. Otherwise it returns the team holding the first such player. |
| `Frames.Frame.GetTeamColor` | Frame.cs:178-189 | The result is `spectator` when no team holds the userid. Otherwise it is the color of the team holding the first match. |
| `Frames.Frame.GetAllPlayers` | Frame.cs:103-114 | The result is team 0's players, then team 1's, then team 2's exactly when spectators are asked for. This holds as membership, as length and segment by segment. A missing team throws `ArgumentOutOfRange`. |
| `Frames.Frame.PlayerTeams` | Frame.cs:94-98 | `playerTeams` is the first two teams, and it throws when there are fewer than two. |
| `Math2.Lerp` | Frame.cs:266-273 | Weight 0 gives `from` and weight 1 gives `to`. A weight in [0,1] gives a value between the endpoints. |
| `Math2.LerpMonotone` | Frame.cs:266-273 | For rising endpoints, a larger weight never gives a smaller value. |
| `Math2.Clamp01` | Frame.cs:275-280 | The result always lies in [0,1]. It is the identity on [0,1], 1 at or above 1, and 0 at or below 0. |
| `Math2.Clamp01Idempotent` | Frame.cs:275-280 | Clamping twice is clamping once. |
| `Vector3Extensions.ToVector3` | Frame.cs:352-360 | `List<float>.ToVector3` succeeds exactly on three-element lists and throws the conversion error otherwise. |
| `Vector3Extensions.VectorRoundTrip` | Frame.cs:352-360 | A three-element list converted to a vector and back is the same list. |
| `Vector3Extensions.ToFloatList` | Frame.cs:392-400 | The list has three entries, and `ToFloatList(v).ToVector3() == v`. |
| `Vector3Extensions.ArrayToVector3` | Frame.cs:362-370 | `float[].ToVector3` succeeds exactly on three-element arrays, with the same result as the list version. Together with `ToFloatArray` this gives the array round trip. |
| `Vector3Extensions.ArrayToVector3Backwards` | Frame.cs:372-380 | The conversion succeeds exactly on three-element arrays, and gives the array's entries in reverse order. |
| `Vector3Extensions.ToFloatArray` | Frame.cs:382-390 | The result is a new array holding the same components as `ToFloatList`, and converting it back gives the vector. |
| `Vector3Extensions.Forward` | Frame.cs:416-422 | `Forward` of a unit quaternion is a unit vector. |
| `Vector3Extensions.Up` | Frame.cs:435-441 | `Up` of a unit quaternion is a unit vector. |
| `Vector3Extensions.Left` | Frame.cs:427-430 | `Left` is orthogonal to `Up` and to `Forward`, and it is a unit vector for a unit quaternion. |
| `Vector3Extensions.DirectionsOrthonormal` | Frame.cs:416-441 | For a unit quaternion, `Forward`, `Up` and `Left` are unit vectors and are pairwise orthogonal. |
| `Geometry.Cross` | Frame.cs:429 | `Vector3.Cross` is orthogonal to both of its arguments. |
| `Geometry.Vector3Lerp` | Transform.cs:89 | `Vector3.Lerp` gives `a` at 0 and `b` at 1, and gives `a` when both endpoints are equal. |
| `Poses.DeriveRotation` | Transform.cs:56 | The rotation is derived from forward and up only when both lists are non-null and have three entries. It is `look` of the two vectors. A null or malformed `forward` throws first; with a good `forward`, a null or malformed `up` throws its own error. The only exceptions are `NullReference` and the conversion error. |
| `Poses.CacheIsStable` | Transform.cs:52-58 | Once a get has succeeded and filled the cache, every later get returns the same value, whatever the direction lists hold. |
| `Transforms.Transform.constructor` | Transform.cs:80-87 | The object initializer copies the five lists and leaves the cache empty. |
| `Transforms.Transform.Position` | Transform.cs:30-37 | `pos` takes precedence over `position`. The getter throws `NullReference` exactly when both are null. |
| `Transforms.Transform.SetPosition` | Transform.cs:38-43 | The setter rewrites only the representations that were already non-null, so the shape is kept. Reading right after setting `v` gives `v` when at least one representation exists, and nothing changes when neither does. |
| `Transforms.Transform.GetRotation` | Transform.cs:50-58 | The getter is a memo. A full cache is returned unchanged. An empty cache is filled with the derived rotation, which is also returned. Only `rot` is written. |
| `Transforms.Transform.SetRotation` | Transform.cs:59-65 | The setter caches `value` and rewrites forward, up and left from it. Every following get returns exactly `value`. |
| `Transforms.Transform.Lerp` | Transform.cs:76-93 | The result position is `Vector3.Lerp` of the two positions and the result rotation is `blend` of the two rotations, both at `Clamp01(t)`. The result has `from`'s position shape, and each position list it has holds the components of the blended position. Only the inputs' caches may change. Each getter that throws ends the call with its exception, in source order. |
| `VRPlayers.VRPlayer.constructor` | VRPlayer.cs:55-61 | The object initializer copies the four lists and leaves the cache empty. |
| `VRPlayers.VRPlayer.Position` | VRPlayer.cs:15-17 | A null `vr_position` reads as the zero vector. |
| `VRPlayers.VRPlayer.SetPosition` | VRPlayer.cs:18 | The setter always writes `vr_position`, and reading right after setting `v` gives `v`. |
| `VRPlayers.VRPlayer.GetRotation` | VRPlayer.cs:25-33 | The getter is a memo over `vr_forward` and `vr_up`. Only `rot` is written. |
| `VRPlayers.VRPlayer.SetRotation` | VRPlayer.cs:34-40 | The setter caches `value` and rewrites the three `vr_*` direction lists. Every following get returns `value`. |
| `VRPlayers.VRPlayer.Lerp` | VRPlayer.cs:51-67 | The position and rotation are blended at `Clamp01(t)`. The result's `vr_position` always holds the components of the blended position. Only the inputs' caches may change. |

## Findings

| source | as written | input that shows it | evidently intended | confidence | as-written member | corrected member |
|---|---|---|---|---|---|---|
| Frame.cs:239-256 | `new List<Team>(numTeams)` sets the capacity and leaves `Count` at 0, so the store `newFrame.teams[i] = …` throws `ArgumentOutOfRangeException` the first time it runs | `from.teams == [blue]`, `to.teams == [orange]`, playhead strictly between the two recording times | a list of `numTeams` teams, filled index by index by the per-index rule | high (not executed) | `Frames.FillTeamsAsWritten`, `Frames.FillTeamsAsWrittenThrows` | `Frames.ReconcileTeams` (used by `Frames.Frame.Lerp`) |

## Left out

- `Math2.QuaternionLookRotation` (Frame.cs:282-342) uses square roots and float division. It is the parameter `look`, and no orientation round trip through it is claimed.
- `Quaternion.Lerp` is System.Numerics code that normalises with a square root. It is the parameter `blend`.
- `DistanceTo` and `Normalized` (Frame.cs:402-410) are square-root and division numerics that the interpolation does not use.
- Single-precision rounding and the `(float)` cast of the ratio are not modelled. So are NaN and infinities, which the look rotation produces on degenerate input.
- `Disc`, `LastThrow`, `LastScore` and `Pause` are not part of this model, and neither are `Disc.Lerp` and `Team.Lerp`. They appear as opaque types and as the parameters `discLerp` and `teamLerp`.
- `Team` and `Player` carry only the fields the lookups read: color and players for a team, name and userid for a player.
- Exceptions thrown inside `Disc.Lerp` or `Team.Lerp` are not modelled.
- The JSON attributes and serialisation are library concerns and are not modelled.
- The `Console.WriteLine` before `Frame.Lerp` returns null is I/O and is not modelled.
- PrivateMatchSettings.cs is a plain container of enums with no behaviour.
- Null arguments are not modelled: a null frame, a null `teams` or `players` list, or a null `Transform` passed to `Lerp`. String fields are never null here except `sessionip`, which `Frame.Lerp` leaves unset.
- The rotation cache is modelled single-threaded. The concurrent publication of `rot` is out of scope.
