# SneakByte core, modelled in Dafny

SneakByte runs two-player snake games between bots on a local network. This
project models three parts of it:

- **The bot registry** (Backend/discovery.js). Bots answer a UDP broadcast
  with a JSON description of themselves. The `message` handler stores each
  answer in a `Map` keyed by the reported `id`. The stored record carries the
  reported fields, with the datagram's source address as `ip` and the receive
  time as `lastSeen`. Every `BROADCAST_INTERVAL` (5000 ms), `cleanBots`
  deletes every record not seen within `TIMEOUT_MS` (15000 ms).
- **The bot-driven game** (Frontend/game.js). A 30 x 30 toroidal grid holds
  two snakes of initial length 4. Moves arrive as `BOT_MOVE` messages and
  are turned into direction changes by `handleBotMove`. A 150 ms loop moves
  both snakes, detects collisions, grows a snake that eats the food and
  decides the winner. A one-second timer ends the game after 60 s, decided
  by score.
- **The keyboard game** (frontend/component/Snake.jsx). It has the same rules
  on a 20 x 20 grid with a 30 s timer. W/A/S/D steer snake 1 and the arrow
  keys steer snake 2. `restartGame` resets everything. Its winner rule for a
  single collision is the reverse of game.js: the player whose snake crashed
  is declared the winner.

Files:

- `wrappers.dfy`: `Option`.
- `snake_rules.dfy` (module `SnakeRules`): what both games share.
  - Positions and the DIRECTIONS table.
  - JavaScript's truncating `%`, `wrapPosition` and `checkCollision`.
  - The reversal guard of the direction switch and the winner-by-score
    expression.
  - The grow-or-move step, and the board invariant it keeps: length = 4 +
    score, everything on the grid, food off both snakes.
- `bot_game.dfy` (module `BotGame`): game.js.
  - The page's closure variables are the fields of class `Game`, and each
    handler is a method.
  - Each method's postcondition ties the new state to a pure function of
    the old one (`Tick`, `BotMove`, `Init`, `Start`, `TimerStep`, `Ended`).
    The lemmas state the game rules about those functions.
- `keyboard_game.dfy` (module `KeyboardGame`): Snake.jsx, in the same style.
  Class `SnakeGame` holds the `useState` slots. The module also holds the
  lemmas that compare its winner rule with game.js.
- `discovery.dfy` (module `Discovery`): class `Registry` holds the `bots` map.
  The pure functions `Upsert` and `Swept` specify the receive handler and
  `cleanBots`.

Points of the registry's behaviour worth knowing:

- The handler does not check that a response has an `id`. A response
  without one is stored under the key `undefined` (`BotKey.Undefined`).
- The handler returns nothing: it does not report whether the id was new.
  The `Map`'s insertion order, which only `showBots` uses, is not modelled.
- A second response for a known id replaces the stored record as a whole
  (`UpsertReplaces`). Nothing of the earlier record is kept.

The reversal guard of both games compares a request with the direction the
last request set, not with the direction the snake last moved in. So two
requests between two moves can turn a snake back over its own body: a
quarter turn, then the reverse of the starting direction (`TwoMovesReverse`,
`TwoKeysReverse`). The next move then runs the head into the snake's second
segment, which is a self-collision.

Inputs that the code takes from the environment become parameters:

- `Date.now()` becomes `now`.
- The datagram's source address becomes `address`.
- `JSON.parse` becomes an already-parsed `Option<Payload>`, with `None`
  when the parse threw.
- `createFood` (`Math.random`) becomes a caller-supplied cell. A
  precondition says it is on the grid and on neither snake.

## Model

| member | source | states |
|---|---|---|
| `SnakeRules.Opposite` | Frontend/game.js:9-14 | the reverse direction negates both deltas and differs from the direction |
| `SnakeRules.JsRem` | Frontend/game.js:237-238 | JavaScript `%`: the dividend is n times the truncated quotient plus the result; the result lies strictly between -n and n and has the sign of the dividend |
| `SnakeRules.JsRemUnique` | Frontend/game.js:237-238 | these clauses determine JavaScript's `%`: any remainder with them equals `JsRem` |
| `SnakeRules.WrapStep` | Frontend/game.js:235-240 | a wrapped unit step from a grid cell is a grid cell; leaving one side re-enters on the opposite side; each coordinate that stays inside is unchanged |
| `SnakeRules.TurnToRefusesReversal` | Frontend/game.js:130-133 | a requested direction is taken iff it is not the reverse of the current one; a refused request keeps the current direction; one request never sets the exact reverse |
| `SnakeRules.TwoTurnsReverse` | Frontend/game.js:130-133 | a quarter turn followed by the reverse of the starting direction passes the guard twice and ends on the reverse |
| `SnakeRules.CheckCollisionMeans` | Frontend/game.js:243-247 | collision iff the head equals a segment at index 1 or later; a match at index 0 alone is no collision (same code at frontend/component/Snake.jsx:50-52) |
| `SnakeRules.ByScore` | Frontend/game.js:325 | 'Player 1' iff score1 > score2, 'Player 2' iff score2 > score1, 'tie' iff equal |
| `SnakeRules.MovedSnake1` | Frontend/game.js:346-354 | snake 1 becomes the new head followed by its old body; on the food it grows by one and scores one, otherwise it keeps its length and score |
| `SnakeRules.MovedSnake2` | Frontend/game.js:356-361 | the same grow-or-move rule for snake 2 |
| `SnakeRules.MovedFood` | Frontend/game.js:363-365 | the food changes only when a snake eats it, and then lands on neither new snake |
| `SnakeRules.MovedKeepsBoardOk` | Frontend/game.js:346-368 | a tick without collision keeps length = initial length + score, every segment and the food on the grid, and the food off both snakes |
| `BotGame.WrapPosition` | Frontend/game.js:235-240 | coordinates not below -30 wrap into [0, 30); each in-grid coordinate is kept, independently of the other; -1 maps to 29 and 30 to 0 |
| `BotGame.WrapPositionKeepsInGrid` | Frontend/game.js:313-314 | the new head computed from an in-grid head and a direction is in the grid |
| `BotGame.InitSetsUp` | Frontend/game.js:146-169 | initGame: two length-4 snakes at columns 8 and 22 with heads on row 15, both DOWN, scores 0, timer 60, not over, no winner, gameStarted untouched, board invariant established |
| `BotGame.InitIsValid` | Frontend/game.js:146-169 | initGame establishes the board invariant |
| `BotGame.EndedDecides` | Frontend/game.js:276-280 | after endGame the game is over with a winner: a winner already set is kept, otherwise it is decided by score; the board is untouched; ending twice is ending once |
| `BotGame.TurnRefusesReversal` | Frontend/game.js:129-134 | an unknown direction string keeps the direction; a known one is taken iff it is not the reverse of the current direction; never the exact reverse |
| `BotGame.BotMoveRule` | Frontend/game.js:125-143 | no effect unless started and not over; player 1's move turns dir1 by the guarded switch and changes nothing else, player 2's likewise dir2, any other bot's nothing; no move sets the exact reverse of the direction it replaces |
| `BotGame.DirectionName` | Frontend/game.js:130-133 | each direction has a name that `handleBotMove` parses back to it |
| `BotGame.TwoMovesReverse` | Frontend/game.js:125-134 | two moves of player 1 between ticks, a quarter turn and then the reverse of the starting direction, leave dir1 reversed |
| `BotGame.TickCollision` | Frontend/game.js:316-343 | on any collision only `gameOver` (now true) and `winner` change, so the snakes stay put; a double crash or head-on meeting is decided by score, snake 1 alone crashing gives 'Player 2', snake 2 alone 'Player 1' |
| `BotGame.TickMove` | Frontend/game.js:346-368 | without collision only the board changes, by the grow-or-move rule, with the wrapped new heads in front |
| `BotGame.CountdownEndsGame` | Frontend/game.js:390-409 | from a running game with t seconds left, fewer than t timer ticks leave it running and exactly t end it at 0 with the winner by score |
| `BotGame.OperationsKeepValid` | Frontend/game.js:312-372 | the game loop, bot moves, timer ticks, endGame, initGame and startGame all keep the board invariant |
| `BotGame.Game.constructor` | Frontend/game.js:16-27 | page load: the declared variables, then initGame with the given food |
| `BotGame.Game.InitGame` | Frontend/game.js:146-173 | the new state is `Init` of the old one, and the board invariant holds |
| `BotGame.Game.HandleBotMove` | Frontend/game.js:125-143 | the new state is `BotMove` of the old one |
| `BotGame.Game.EndGame` | Frontend/game.js:413-418 | the new state is `Ended` of the old one |
| `BotGame.Game.GameLoop` | Frontend/game.js:312-344 | the new state is `Tick` of the old one |
| `BotGame.Game.AdvanceSnakes` | Frontend/game.js:346-368 | the no-collision part of gameLoop replaces the board by `Moved` of the old one and nothing else |
| `BotGame.Game.StartGame` | Frontend/game.js:375-384 | no effect once started; otherwise gameStarted is set and initGame runs |
| `BotGame.Game.OnGameStarted` | Frontend/game.js:79-84 | a GAME_STARTED message records both bot ids and starts the game |
| `BotGame.Game.TimerTick` | Frontend/game.js:390-409 | the new state is `TimerStep` of the old one: one second less, and at zero or below the winner by score and the game over |
| `KeyboardGame.WrapPosition` | frontend/component/Snake.jsx:45-48 | coordinates not below -20 wrap into [0, 20); each in-grid coordinate is kept, independently of the other; -1 maps to 19 and 20 to 0 |
| `KeyboardGame.FreshSetsUp` | frontend/component/Snake.jsx:70-82 | restartGame: both initial snakes (columns 5 and 15, heads on row 10) heading DOWN, scores 0, not over, no winner, not started, timer 30, board invariant established |
| `KeyboardGame.LowerAscii` | frontend/component/Snake.jsx:58 | lower-casing keeps the length, leaves no capital A-Z, keeps every other character, and keeps each character's case-folded value |
| `KeyboardGame.LowerAsciiIdempotent` | frontend/component/Snake.jsx:58 | lower-casing twice is lower-casing once |
| `KeyboardGame.KeysIgnoreCase` | frontend/component/Snake.jsx:58 | any two keys that differ only in the case of their letters steer alike |
| `KeyboardGame.ShiftedKeysSteer` | frontend/component/Snake.jsx:58-63 | "W" and "w" steer snake 1 up; "ArrowUp" and "arrowup" steer snake 2 up |
| `KeyboardGame.KeyDownRule` | frontend/component/Snake.jsx:54-68 | no effect once over; otherwise any key starts the game; a w/s/a/d key turns dir1 by the guarded switch and leaves dir2, an arrow key turns dir2 and leaves dir1, other keys turn neither; no key sets the exact reverse of the direction it replaces |
| `KeyboardGame.Snake1Key` | frontend/component/Snake.jsx:59-62 | each direction has a key that steers snake 1 that way |
| `KeyboardGame.TwoKeysReverse` | frontend/component/Snake.jsx:54-62 | two key presses of snake 1 between moves, a quarter turn and then the reverse of the starting direction, leave dir1 reversed |
| `KeyboardGame.CountdownEndsGame` | frontend/component/Snake.jsx:96-105 | from a running game with t seconds left, fewer than t ticks leave it running and exactly t end it at 0 with the winner by score |
| `KeyboardGame.TickCollision` | frontend/component/Snake.jsx:117-133 | on any collision the game is over and the snakes stay put; double crash or head-on by score, snake 1 alone crashing gives 'Player 1', snake 2 alone 'Player 2' |
| `KeyboardGame.TickMove` | frontend/component/Snake.jsx:110-158 | nothing moves unless the game is running; without collision only the board changes, by the grow-or-move rule, and the game goes on |
| `KeyboardGame.OperationsKeepValid` | frontend/component/Snake.jsx:113-158 | the loop tick, key presses, timer ticks and restart all keep the board invariant |
| `KeyboardGame.WinnerRulesDisagree` | frontend/component/Snake.jsx:125-131 | for every single-snake crash the two files name opposite winners; on a double crash or head-on meeting they agree |
| `KeyboardGame.SingleCrashExample` | frontend/component/Snake.jsx:123-131 | a concrete valid state where snake 1 alone runs into snake 2: Snake.jsx names 'Player 1', game.js 'Player 2' |
| `KeyboardGame.SnakeGame.constructor` | frontend/component/Snake.jsx:16-29 | mounting gives the fresh state with the food placed by the mount effect |
| `KeyboardGame.SnakeGame.HandleKeyDown` | frontend/component/Snake.jsx:54-68 | the new state is `KeyDown` of the old one |
| `KeyboardGame.SnakeGame.RestartGame` | frontend/component/Snake.jsx:70-82 | the new state is the fresh state, and the board invariant holds |
| `KeyboardGame.SnakeGame.TimerTick` | frontend/component/Snake.jsx:93-105 | the new state is `TimerStep` of the old one: nothing unless running; at one second or less timer 0, over, winner by score; otherwise one second less |
| `KeyboardGame.SnakeGame.LoopTick` | frontend/component/Snake.jsx:110-133 | the new state is `Tick` of the old one |
| `KeyboardGame.SnakeGame.AdvanceSnakes` | frontend/component/Snake.jsx:135-157 | the no-collision part of the loop replaces the board by `Moved` of the old one and nothing else |
| `Discovery.MakeRecord` | Backend/discovery.js:17-21 | the stored record's `ip` is the source address, its `lastSeen` the receive time, and every other field is the reported one |
| `Discovery.UpsertRule` | Backend/discovery.js:12-25 | a parsed response is stored under its id with the observed address, receive time and other reported fields; the key set grows by that id only; other entries are unchanged; a failed parse changes nothing |
| `Discovery.UpsertReplaces` | Backend/discovery.js:17-21 | a later response for the same id replaces the earlier record as a whole |
| `Discovery.UpsertSize` | Backend/discovery.js:17 | one entry per id: the size stays for a known id and grows by one for a new one |
| `Discovery.Swept` | Backend/discovery.js:43-51 | a sweep adds no key, keeps surviving records unchanged, and leaves only records seen within TIMEOUT_MS |
| `Discovery.SweptIff` | Backend/discovery.js:46 | an entry survives iff now - lastSeen <= TIMEOUT_MS |
| `Discovery.SweptIdempotent` | Backend/discovery.js:43-51 | a second sweep at the same time changes nothing |
| `Discovery.SweptBoundary` | Backend/discovery.js:6 | seen exactly 15000 ms earlier survives; seen 15001 ms earlier is removed |
| `Discovery.AnsweringBotSurvives` | Backend/discovery.js:5-6 | a bot seen within three broadcast intervals survives the sweep |
| `Discovery.FreshRecordSurvivesSweep` | Backend/discovery.js:12-51 | a record stored at time t survives every sweep up to t + TIMEOUT_MS unchanged |
| `Discovery.Registry.constructor` | Backend/discovery.js:10 | the registry starts empty |
| `Discovery.Registry.OnMessage` | Backend/discovery.js:12-25 | the new map is `Upsert` of the old one |
| `Discovery.Registry.CleanBots` | Backend/discovery.js:43-51 | the loop over the entries leaves exactly `Swept` of the old map |

## Left out

- Socket I/O and logging in Backend/discovery.js: `sendDiscovery`, `showBots`, `host.bind`, the `setInterval` loop, and the `DISCOVERY_PORT` and `DISCOVERY_MESSAGE` constants. `cleanBots` is modelled as a method the caller invokes with `now`.
- `JSON.parse` in Backend/discovery.js: responses arrive already parsed as an object of scalar JSON values (`Json`). Top-level JSON values that are not objects are not modelled. The handler would store those under `undefined`, or throw for `null`. Nested objects and arrays and fractional numbers are not modelled either.
- Discovery.Registry.CleanBots: visits the entries in an arbitrary order, not the `Map`'s insertion order. The result does not depend on the order.
- `createFood`: `Math.random` and the retry recursion are replaced by a caller-supplied free cell. When the grid is full there is no such cell, so a game whose snakes fill the grid is not modelled. The source does not terminate in that case.
- In Frontend/game.js:
  - rendering: `createGrid`, `renderGrid`, `updateScore`, `updateTimer`, `setStatus`, the game-over modal;
  - the WebSocket connection (`connectWebSocket`, reconnects, `sendGameState`, the `GAME_OVER` sends, the start button);
  - `sessionStorage` and navigation.
  `setInterval` scheduling is left to the caller. `GameLoop` and `TimerTick` model the callbacks, which have no guard of their own: game.js calls them only between `startGame` and `endGame`.
- In Frontend/game.js, of the `onmessage` dispatch only `GAME_STARTED` is modelled (`OnGameStarted`). `BOT_MOVE` maps to `HandleBotMove` and `GAME_ENDED` to `EndGame`; the status text is left out.
- BotGame.Game.OnGameStarted: assumes the message carries `bots`. game.js builds the status text from `message.bots.join` before it records the ids. A `GAME_STARTED` without `bots` therefore throws; the `catch` swallows the error and the game does not start. The model does not represent that case.
- In frontend/component/Snake.jsx:
  - the JSX, `renderGrid`, and listener registration;
  - React's batching of setter calls and its stale closures. Each callback sees the latest committed state.
  - The install/clear cycle of the two effects appears as the "not running" guard in `TimerStep` and `Tick`.
  - The timer effect also depends on `score1` and `score2`, so every point clears and re-installs the one-second interval, restarting its period. The "30 s" game is therefore 30 timer callbacks, not 30 seconds of wall time. `TimerStep` and `CountdownEndsGame` count callbacks and model no clock.
- KeyboardGame.LowerAscii: lowers only the letters A-Z, not the full Unicode case mapping of `toLowerCase`. No other character lowers to one of the letters the key names use, so key matching is unaffected.
- `GAME_SPEED` (150 ms) is only an interval period and appears in no rule.
- The WebSocket server at `ws://localhost:1726` (game sessions, relaying bot moves) is not part of this model.
- Backend/rating.js (floating-point Elo arithmetic), Bots/dummy.js (socket I/O), Frontend/script.js (view switching and buttons) and frontend/src/App.jsx (a wrapper component) are not part of this model.
