# Time-Trek: a verified model of the game loop

Time-Trek is a small side-scrolling exploration game. The player walks along a
2400-unit world, seen through an 800-unit viewport. Artifacts stand at fixed
positions. Standing less than 60 units from an uncollected artifact makes the
nearest such artifact (the earliest one on a tie) "active", and pressing E
opens a popup about it. The first inspection marks it
collected and counts it. While the popup is open the player cannot move.
Space, Enter or Escape closes the popup, and so does its close control.

The whole program is `script.js`. This project models its logic as Dafny:

- `wrappers.dfy` (`Wrappers`): `Option`, standing for the script's `null`.
- `movement.dfy` (`Movement`): the world constants, the clamped movement step
  `NextX` and the camera offset `CameraX`.
- `artifacts.dfy` (`Artifacts`): the artifact records built at startup from
  the placed markers and the registry of names and descriptions, and
  `CollectedCount`.
- `proximity.dfy` (`Proximity`): the specification of proximity detection,
  `NearestInRange`, with a declarative characterisation (`IsNearest`), and the
  scan `ScanNearest`, which is proved equal to it.
- `game.dfy` (`TimeTrek`): the class `Game`. It holds the script's
  module-level state as fields: `playerX`, `cameraX`, `keys`, `popupOpen`,
  `activeArtifact` (an index), `foundCount`, the status `message`, and the
  `artifacts` array, whose `collected` flags are set in place. The
  class has one method per handler: `KeyDown`, `KeyUp`, `ClickClose` and
  `Tick` (one call of `update`). It also has the helpers they call:
  `HandleMovement`, `CheckArtifacts`, `OpenPopup` and `ClosePopup`.

`Game.Valid()` is the invariant that every method keeps. It says the player is
inside `[0, 2368]` and the camera offset equals `CameraX(playerX)`. It also
says `foundCount` equals the number of collected artifacts, so by
`CollectedCount`'s contract it never exceeds `totalArtifacts`. `collected`
only ever goes from false to true. The methods' postconditions give each
new array contents as the old contents, with at most one entry newly
collected.

Some behaviour of the code is easy to mistake for something else. The model
follows the code:

- Closing the popup always rewrites the status line, even when the popup is
  already closed (clicking the close control twice, say). It sets
  MissionComplete or Explore, which replaces a `See` message.
- Proximity detection runs while the popup is open. It changes
  `activeArtifact` and writes a `See` message when another uncollected
  artifact is in range. Only the Explore message is held back while the popup
  is open.
- Key presses while the popup is open are not recorded. Key releases always
  are. A movement key held down before the popup opened therefore stays held,
  and movement resumes when the popup closes.

## Model

| member | source | states |
|---|---|---|
| `Movement.Clamp` | script.js:130-133 | the result lies in `[lo, hi]`; an in-range value is kept; a value below is raised to `lo` and one above lowered to `hi` |
| `Movement.CameraX` | script.js:139-143 | the camera offset always lies in `[0, 1600]`; it is `playerX - 400` when that is in range, 0 near the left end and 1600 near the right end |
| `Movement.NextX` | script.js:117-133 | after a step the player is always in `[0, 2368]`; with both a left and a right key held (or neither) an in-bounds position is unchanged; left alone moves 4 left, stopping at 0; right alone moves 4 right, stopping at 2368 |
| `Movement.PlayerVisible` | script.js:138-143 | for every in-bounds position, the whole 32-unit player lies inside the 800-unit viewport the camera shows |
| `Artifacts.MakeArtifact` | script.js:54-67 | an artifact record starts uncollected, at the parsed position or 0 when it does not parse, with the name and description its kind has in the registry |
| `Artifacts.BuildArtifacts` | script.js:53-70 | one record per marker, in marker order, and none of them collected |
| `Artifacts.CollectedCount` | script.js:181-184 | the number of collected artifacts is at most the number of artifacts; it is 0 exactly when none is collected and equals the total exactly when all are |
| `Artifacts.CollectOne` | script.js:181-184 | marking one uncollected artifact collected raises the collected count by exactly one |
| `Proximity.Dist` | script.js:154 | the distance is the absolute difference of the two positions |
| `Proximity.ScanPrefix` | script.js:149-159 | the best-so-far pair after scanning a prefix: the distance starts at 60 and never exceeds it; it is still 60 when there is no candidate, and the candidate, when there is one, lies inside the prefix at a distance strictly under 60 |
| `Proximity.NearestInRange` | script.js:148-165 | the active artifact, when there is one, is a valid index of an uncollected artifact strictly within 60; its full meaning is `IsNearest`, in both directions, by `NearestInRangeCorrect` and `NearestInRangeUnique` |
| `Proximity.ScanPrefixMeaning` | script.js:149-159 | after scanning any prefix, the best distance is at most 60; the candidate (if any) lies in range; no uncollected artifact of the prefix is closer; every uncollected one before the candidate is strictly farther |
| `Proximity.NearestInRangeCorrect` | script.js:148-165 | the active artifact is uncollected, strictly within 60, and no uncollected artifact is closer; on a tie the earliest one wins; there is no active artifact exactly when every uncollected artifact is at distance 60 or more |
| `Proximity.NearestInRangeUnique` | script.js:149-159 | any artifact meeting that characterisation is the one detection returns, so the characterisation determines the answer |
| `Proximity.NothingActiveWhenAllCollected` | script.js:153 | once every artifact is collected, no artifact is ever active again |
| `Proximity.ScanNearest` | script.js:149-159 | the scan over the artifact array returns exactly `NearestInRange` |
| `Proximity.ThreeArtifactsExample` | script.js:150-158 | with artifacts at 100, 500 and 900, a player at 150 activates the first, and a player at 170 activates none |
| `TimeTrek.IsCloseKey` | script.js:80 | none of the keys that close the popup (space, enter, escape) is the interact key or a movement key |
| `TimeTrek.Game.MovingLeft` | script.js:118 | definition of `movingLeft`: "arrowleft" or "a" is recorded as held, and a key never pressed counts as released; `HandleMovement`, `Tick`, `KeyDown`, `KeyUp` and the constructor state their contracts with it |
| `TimeTrek.Game.MovingRight` | script.js:119 | definition of `movingRight`: "arrowright" or "d" is recorded as held, and a key never pressed counts as released; `HandleMovement`, `Tick`, `KeyDown`, `KeyUp` and the constructor state their contracts with it |
| `TimeTrek.Game.CanOpen` | script.js:91 | "e" can open the popup only on an active, uncollected artifact, so only while some artifact remains uncollected |
| `TimeTrek.Game.constructor` | script.js:16-71 | startup state: player at 100, no keys, popup closed, no active artifact, nothing found, one uncollected artifact per marker, so the player is not moving |
| `TimeTrek.Game.HandleMovement` | script.js:117-146 | the new position is `NextX` of the old one under the held left and right keys; the camera follows; the invariant holds |
| `TimeTrek.Game.CheckArtifacts` | script.js:148-171 | the active artifact becomes `NearestInRange`; the message becomes `See(i)` if one is active, Explore if none is and the popup is closed, and is left alone otherwise |
| `TimeTrek.Game.OpenPopup` | script.js:175-195 | the popup opens; a first inspection flips exactly that artifact to collected and adds exactly one to the count; the message is AllFound exactly when every artifact is now collected, otherwise GreatDiscovery; reopening a collected artifact changes nothing else |
| `TimeTrek.Game.ClosePopup` | script.js:197-208 | the popup is closed afterwards, from either state; the count, the artifacts and the player do not change; the message is MissionComplete exactly when every artifact is collected, otherwise Explore |
| `TimeTrek.Game.KeyDown` | script.js:75-95 | with the popup open the key map, the count and the artifacts are untouched, and only space, enter or escape closes it; with it closed the key is recorded as held, and "e" opens it exactly when the active artifact is uncollected, collecting that one artifact; pressing a movement key with the popup closed starts that direction, and no other key (a close key included) changes either direction |
| `TimeTrek.Game.KeyUp` | script.js:97-100 | the key is recorded as released, in either mode, and nothing else changes; releasing one movement key stops that direction unless its other key is still held, and releasing any other key changes neither direction |
| `TimeTrek.Game.ClickClose` | script.js:103-105 | clicking the close control leaves the popup closed and sets the closing message, even when it was already closed |
| `TimeTrek.Game.Tick` | script.js:109-115 | while the popup is open the player does not move; otherwise it takes one `NextX` step; in every frame the active artifact becomes `NearestInRange` of the new position |

## Left out

- Writes to the page: the player's and the world's style, the popup's title,
  text and visibility, the collected marker class and the found counter's
  text. The model keeps the values behind them: `playerX`, `cameraX`,
  `popupOpen`, `message` and `foundCount`.
- The text of the five registry entries. The registry is a parameter of the
  constructor, and names and descriptions are opaque strings.
- Looking up an unknown artifact kind throws at startup. The constructor
  requires instead that every marker's kind is in the registry.
- Parsing a marker's position (`parseInt(..., 10) || 0`). A marker carries
  the already-parsed position as an `Option<int>`, where `None` means "not a
  number" and stands for 0.
- Lower-casing of key names. Keys arrive already in lower case.
- `requestAnimationFrame` rescheduling, event-listener registration and
  `preventDefault`. `Tick` is one frame, and each handler is one method call.
  The script's first `update()` at startup is a first call of `Tick`.
- The status text before the first frame comes from the page markup, which
  is not part of this model. The constructor starts with Explore, and the
  first `Tick` overwrites it.
- The DOM element each artifact record holds. The `activeArtifact` reference
  is modelled as an index into the array.
