# Draw the Perfect Shape: game area model

A Dafny model of the server-side game area of the "Draw the Perfect Shape"
minigame (`DrawThePerfectShapeGameArea`). The area holds at most one game
session. It routes the four commands players send (`JoinGame`, `GameMove`,
`PickDifficulty`, `LeaveGame`) and rejects every other command kind. When a
difficulty is picked, it draws a trace shape from that difficulty's three
titles. The first time it sees the current game `OVER`, it appends that
game's result to its match history.

Modules, one per part of the area:

- `Wrappers` (`wrappers.dfy`): `Option` and `Result`.
- `Shapes` (`shapes.dfy`): pixels and shapes, the three tiers' title lists,
  the random pick (`getRandomShape`), and the pixel provider
  (`getTraceShapePixels`). All pure functions.
- `Game` (`game.dfy`): the session the area drives, as a class with a
  constant `id` and a mutable `state` (status, two player slots, winner,
  trace shape). Its own logic is not shown in the source. `Perform` takes a
  `GameOutcome` for what `join`, `leave` or `applyMove` did: the new state,
  or the error thrown (state unchanged).
- `History` (`history.dfy`): pure definitions of name resolution, scores and
  `Record`, the history after one observation of a game state, plus
  lemmas: append-only, only when due, idempotent, any number of repeats
  equals one, ids stay unique, the score rule.
- `Area` (`area.dfy`): the class `DrawThePerfectShapeGameArea` with fields
  `game`, `occupants`, `history` and `emitted` (the number of change
  announcements). `HandleCommand`, `StateUpdated` and `HandleDifficulty`
  update these fields. `FindResult` and `FindOccupant` are the search loops
  behind `find`. Each method is proved against the `History` and `Shapes`
  functions.

How the model treats the source's inputs and edge cases:

- `Math.random()` is a real `random` with `0.0 <= random < 1.0`. The index
  drawn is `Floor(random * n)`, which is proved to be in bounds
  (`RandomIndex`), and every index can be drawn (`RandomIndexCovers`).
- The id of a newly created game is a parameter, `freshID`.
- The difficulty is a string. Anything other than `Easy`, `Medium` or `Hard`
  has no titles, so picking it changes nothing.
- The source tests values for truthiness, and the model copies this:
  - an empty game id records no result;
  - an empty player id counts as a missing slot;
  - an empty `userName` falls back to the raw player id.
- The scores are an object literal keyed by display name. When both players
  resolve to the same name, the second key overwrites the first, and the
  model keeps this (`ScoresNameCollision`).
- `JoinGame` installs the new game before calling `join`. So a `join` that
  throws still leaves the new game installed. `HandleCommand` states this.
  The three checks the area makes itself (no game, wrong id, unknown
  command) do throw before anything changes.

## Model

| member | source | states |
|---|---|---|
| `Shapes.TierTitlesInverse` | townService/src/town/games/DrawThePerfectGame/DrawThePerfectShapeGameArea.ts:111-121 | A title is in a tier's list exactly when that tier is the title's only tier. Only Easy, Medium and Hard have titles. |
| `Shapes.RandomIndex` | townService/src/town/games/DrawThePerfectGame/DrawThePerfectShapeGameArea.ts:137 | `Floor(random * n)` with `random` in [0, 1) is a valid index of n > 0 candidates. |
| `Shapes.RandomIndexCovers` | townService/src/town/games/DrawThePerfectGame/DrawThePerfectShapeGameArea.ts:137 | Every index k < n is drawn by some allowed random value, namely k / n. |
| `Shapes.RandomShape` | townService/src/town/games/DrawThePerfectGame/DrawThePerfectShapeGameArea.ts:136-138 | The title getRandomShape returns is one of the given candidates. |
| `Shapes.RandomShapeCovers` | townService/src/town/games/DrawThePerfectGame/DrawThePerfectShapeGameArea.ts:136-138 | Every candidate of the list is returned for some random draw. |
| `Shapes.TraceShapePixels` | townService/src/town/games/DrawThePerfectGame/DrawThePerfectShapeGameArea.ts:140-144 | The pixel provider currently returns no pixels, whatever the title. |
| `Shapes.PickedShapeInTier` | townService/src/town/games/DrawThePerfectGame/DrawThePerfectShapeGameArea.ts:122-129 | The shape built for a known difficulty has a title from that tier (and only that tier), that difficulty, and the provider's pixels. |
| `Game.DrawThePerfectShapeGame.constructor` | townService/src/town/games/DrawThePerfectGame/DrawThePerfectShapeGameArea.ts:73 | A new game has the given id and the initial state: waiting to start, no players, no winner, no trace shape. |
| `Game.DrawThePerfectShapeGame.Perform` | townService/src/town/games/DrawThePerfectGame/DrawThePerfectShapeGameArea.ts:61-65 | A game operation either installs the outcome's state or throws and leaves the state as it was. |
| `History.FirstWithId` | townService/src/town/games/DrawThePerfectGame/DrawThePerfectShapeGameArea.ts:33 | Returns nothing iff no occupant has the id. Otherwise returns an occupant with that id, and no occupant before it has that id. |
| `History.DisplayName` | townService/src/town/games/DrawThePerfectGame/DrawThePerfectShapeGameArea.ts:32-35 | The raw id when no occupant has it. Otherwise the first matching occupant's non-empty userName, or the raw id when that userName is empty. |
| `History.RecordAppendOnly` | townService/src/town/games/DrawThePerfectGame/DrawThePerfectShapeGameArea.ts:29-43 | The old history is a prefix of the new one. The new one is exactly one entry longer when a result is due, and the same length otherwise. |
| `History.RecordOnlyWhenDue` | townService/src/town/games/DrawThePerfectGame/DrawThePerfectShapeGameArea.ts:26-31 | History changes iff a result is due. Due means: status OVER, a non-empty current game id with no result yet, and both player slots set. |
| `History.RecordIdempotent` | townService/src/town/games/DrawThePerfectGame/DrawThePerfectShapeGameArea.ts:26-29 | Observing the same state a second time records nothing more. |
| `History.RecordRepeatedOnce` | townService/src/town/games/DrawThePerfectGame/DrawThePerfectShapeGameArea.ts:26-29 | Any number n >= 1 of observations of the same state gives the same history as one. |
| `History.RecordKeepsIdsUnique` | townService/src/town/games/DrawThePerfectGame/DrawThePerfectShapeGameArea.ts:28-43 | If no game id appears twice in the history before recording, none does after. |
| `History.RecordedEntry` | townService/src/town/games/DrawThePerfectGame/DrawThePerfectShapeGameArea.ts:36-42 | The appended entry has the current game's id and keys for both display names. Player 2's name scores 1 iff player 2 won, and so does player 1's when the names differ. With no winner every score is 0. |
| `History.ScoreRule` | townService/src/town/games/DrawThePerfectGame/DrawThePerfectShapeGameArea.ts:38-41 | For distinct names, each name scores 1 iff its player is the winner and 0 otherwise. With no winner both score 0. |
| `History.ScoresNameCollision` | townService/src/town/games/DrawThePerfectGame/DrawThePerfectShapeGameArea.ts:38-41 | When both players have the same display name, only player 2's score is kept. |
| `Area.DrawThePerfectShapeGameArea.FindResult` | townService/src/town/games/DrawThePerfectGame/DrawThePerfectShapeGameArea.ts:29 | Finds a result iff the history holds one for the game id. A found result is in the history and has that id. |
| `Area.DrawThePerfectShapeGameArea.FindOccupant` | townService/src/town/games/DrawThePerfectGame/DrawThePerfectShapeGameArea.ts:33 | The linear search returns the first occupant with the id, or nothing. |
| `Area.DrawThePerfectShapeGameArea.ResolveName` | townService/src/town/games/DrawThePerfectGame/DrawThePerfectShapeGameArea.ts:32-35 | Computes the display name, falling back to the raw id. |
| `Area.DrawThePerfectShapeGameArea.StateUpdated` | townService/src/town/games/DrawThePerfectGame/DrawThePerfectShapeGameArea.ts:25-47 | The new history is `Record` of the old one. It stays append-only and keeps ids unique. Exactly one change is announced, and nothing else changes. |
| `Area.DrawThePerfectShapeGameArea.HandleDifficulty` | townService/src/town/games/DrawThePerfectGame/DrawThePerfectShapeGameArea.ts:111-134 | For a known difficulty, the game's trace shape becomes the drawn title with that difficulty and the provider's pixels, and the rest of the state is kept. An unknown difficulty changes nothing. |
| `Area.DrawThePerfectShapeGameArea.HandleCommand` | townService/src/town/games/DrawThePerfectGame/DrawThePerfectShapeGameArea.ts:49-105 | Unknown kinds fail with InvalidCommand. GameMove, PickDifficulty and LeaveGame fail with GameNotInProgress when there is no game, and with GameIdMismatch when the id differs. These three rejections change no field and no game state. JoinGame creates a fresh game iff there is none or it is OVER, keeps it otherwise, and returns the current game's id. On success the history is recorded and one change announced; on failure neither happens. |

## Left out

- The internals of the game session: `join`, `leave`, `applyMove`, the round timer and accuracy scoring. Their source is not part of this model. Their effect is given to `HandleCommand` as an outcome, and a thrown error is assumed to leave the game state unchanged.
- The `GameArea` base class, including occupant arrival and departure. `occupants` is a field that no modelled operation changes.
- `_emitAreaChanged`: the broadcast to the transport is a counter, `emitted`, that only records the announcement.
- `Math.random`: floating-point rounding is not modelled. The draw is an exact real in [0, 1).
- `Shapes.RandomShape`: requires a non-empty list. Its one caller always passes three titles, and the source's behaviour on an empty list (an undefined title) is not modelled.
- `getType` and the frontend UI components, with their canvas, timers and pixel polling. They are presentation and transport, not area logic.
