# Gorillas match controller, modelled in Dafny

This project models the game logic of the two-player "Gorillas" game in
`app/games/gorillas/index.js`. A single `Gorillas` object holds one match:

- the **roster** of joined players, each with a username, a socket, a `playerIdx` and a `ready` flag;
- the **match and turn state**: the starting player, the turn counter, the win counts and `maxRounds`;
- the current round's **level**: a skyline of buildings and the building each gorilla stands on.

Socket handlers drive the state:

- `connection` adds a player;
- `ready` starts the match once two players are ready;
- `throwBanana` passes the throw to the opponent;
- `endRound` scores a round and either ends the match or starts the next round.

Modules:

- `Wrappers`: `Option`, which stands for JavaScript's `null`/`undefined`.
- `Oracle`: `randomIntBetween`, modelled as a choice of any integer in `[min, max]`.
- `Level`: `generateBuildings` and `generateGorillaBuildings`. It also defines the skyline predicates: `Contiguous`, `Tiled`, `Shaped` and `Placed`.
- `Turns`: the parity formulas of `currentPlayer`/`otherPlayer`, and `nextTurn` as a function on the counter.
- `Roster`: the player records, the emitted events, the username lookup, the ready count, and the messages of `emitAll` and `start`.
- `Match`: `getConfig` and the class `Gorillas`. Its fields are the object's fields. It also has a `log` field that records every `socket.emit` as a `(socket, event)` pair. Its methods are the handlers.

Behaviour of `index.js` that the model keeps as written:

- **Rejection sampling.** The loop at `index.js:269-272` redraws until both the width and the height differ from the previous building's; a draw that differs in only one of them is redrawn. So `Shaped` requires adjacent heights to differ, and adjacent widths too, except for the last building, which may have been clipped to the map edge (`index.js:274-276`).
- **No terminal state.** After `matchEnded` (`index.js:201-203`), handlers are still processed: later `endRound`/`throwBanana` calls act as before.
- **Repeated `ready`.** A `ready` from an already-ready player, while two players are ready, runs `start` again (`index.js:162-165`).
- **Rejoining.** A second `connection` with a known username leaves the roster unchanged (`index.js:112-114`).
- **Third player.** A third username joins with index 2; nothing limits the roster (`index.js:105-111`).
- **Turn counter.** From `null`, `nextTurn` sets the counter to 2. Because JavaScript evaluates `null + n` to `n`, the first turn of a round therefore does not change whose turn it is. The starting player throws first (`Turns.FirstTurnKeepsStarter`, `Turns.Alternation`).
- **Throw before any round.** A legitimate `throwBanana` while the counter is still `null` (before any round) also leaves the current player unchanged. `ThrowBanana`'s contract promises the flip only once the counter is set.

## Model

| member | source | states |
|---|---|---|
| `Oracle.RandomIntBetween` | app/games/gorillas/index.js:292-294 | the drawn integer lies in the closed range [min, max] |
| `Level.GenerateBuildings` | app/games/gorillas/index.js:258-290 | for a positive map width the buildings start at x = 0, each starts where the previous one ends, and their widths sum to the map width; every height is in [6,28] and differs from the previous height; every width except the last is in [6,10] and differs from the previous width; the last width is in [1,10]; a non-positive map width gives no buildings |
| `Level.WidthBound` | app/games/gorillas/index.js:270-276 | buildings at most 10 wide cover at most 10 units per building |
| `Level.AtLeastEightBuildings` | app/games/gorillas/index.js:267-287 | a valid skyline of the 80-wide map has at least eight buildings |
| `Level.GenerateGorillaBuildings` | app/games/gorillas/index.js:296-303 | player 0's building index is in [1,3] and player 1's is in [n-4, n-2] for n buildings |
| `Level.PlacementValid` | app/games/gorillas/index.js:299-300 | on an 80-wide layout both gorilla indices are valid building indices, and they are different |
| `Turns.Current` | app/games/gorillas/index.js:231-233 | the current player is 0 or 1 |
| `Turns.Other` | app/games/gorillas/index.js:235-237 | the other player is 0 or 1, differs from the current player, and the two sum to 1 |
| `Turns.Advance` | app/games/gorillas/index.js:247-253 | after a turn the counter is set and larger than before: exactly one more if it was set, 2 if it was unset |
| `Turns.AdvanceFlips` | app/games/gorillas/index.js:231-237 | once the counter is set, a turn swaps the current and the other player |
| `Turns.FirstTurnKeepsStarter` | app/games/gorillas/index.js:247-253 | the first turn of a round sets the counter to 2 and leaves the starting player as the current player |
| `Turns.AdvanceCount` | app/games/gorillas/index.js:247-253 | k turns from an unset counter leave it at k + 1 |
| `Turns.Alternation` | app/games/gorillas/index.js:231-253 | after the k-th turn of a round the current player is the starting player for odd k and the opponent for even k |
| `Roster.Lookup` | app/games/gorillas/index.js:51-59 | returns the position of the first player with the username, or nothing when no player has it |
| `Roster.LookupFindsPlayer` | app/games/gorillas/index.js:104-114 | in a roster built by `connection`, looking up a player's username finds that player, whose index equals its position |
| `Roster.SetReadyKeepsRoster` | app/games/gorillas/index.js:151 | setting a player's ready flag keeps every index and username |
| `Roster.ReadyCount` | app/games/gorillas/index.js:155-160 | the number of ready players never exceeds the roster size |
| `Roster.ReadyCountSet` | app/games/gorillas/index.js:150-160 | setting one player's flag raises the ready count by one exactly when that player was not ready before |
| `Roster.AllReady` | app/games/gorillas/index.js:155-162 | the ready count equals the roster size exactly when every player is ready |
| `Match.GetConfig` | app/games/gorillas/index.js:82-90 | `minPlayers` and `maxPlayers` yield 2 and `launchVerb` yields `play`; every other name the object literal does not supply yields nothing |
| `Match.ConfigIsTwoPlayer` | app/games/gorillas/index.js:83-87 | the game needs exactly two players and is launched through `play` |
| `Match.Gorillas.constructor` | app/games/gorillas/index.js:16-49 | no players, starting player 0, unset turn counter, wins [0, 0], no layout, nothing emitted |
| `Match.Gorillas.GetPlayerByUsername` | app/games/gorillas/index.js:51-59 | the scan returns the position the lookup specifies |
| `Match.Gorillas.Connection` | app/games/gorillas/index.js:104-114 | an unseen username is appended with `playerIdx` equal to the old roster length and not ready; a known one leaves the roster unchanged; afterwards the username is on the roster, indices equal positions, usernames stay unique, and nothing is emitted |
| `Match.Gorillas.EmitAll` | app/games/gorillas/index.js:136-141 | one emit of the event to each player's socket, in roster order, appended to the log |
| `Match.Gorillas.CountReady` | app/games/gorillas/index.js:155-160 | the counting loop returns the number of ready players |
| `Match.Gorillas.Ready` | app/games/gorillas/index.js:147-166 | only the caller's ready flag is set; the match starts exactly when two players are then ready; otherwise nothing is emitted and the round state is unchanged; with two players this happens exactly when both are ready; wins are unchanged |
| `Match.Gorillas.Start` | app/games/gorillas/index.js:213-229 | each player is sent its own index and the first two usernames, then a new round begins with a fresh layout broadcast to all, and the starting player is to throw |
| `Match.Gorillas.CurrentPlayer` | app/games/gorillas/index.js:231-233 | the current player is 0 or 1 |
| `Match.Gorillas.OtherPlayer` | app/games/gorillas/index.js:235-237 | the other player is 0 or 1 and differs from the current player |
| `Match.Gorillas.EnoughWins` | app/games/gorillas/index.js:239-245 | the JavaScript comparison `wins > maxRounds / 2` is equivalent to the integer test `2 * wins > maxRounds` |
| `Match.Gorillas.BestOfThree` | app/games/gorillas/index.js:239-245 | with `maxRounds` = 3, a player has enough wins exactly when it has at least 2 |
| `Match.Gorillas.NextTurn` | app/games/gorillas/index.js:247-253 | the counter becomes what `Turns.Advance` gives |
| `Match.Gorillas.NextRound` | app/games/gorillas/index.js:305-320 | a starting player in {0,1}, a tiled and shaped skyline with gorillas placed, counter 2, and `roundStarted` with exactly that data broadcast to every player; the starting player is current; roster and wins unchanged |
| `Match.Gorillas.GorillasOnDistinctBuildings` | app/games/gorillas/index.js:305-310 | in any round both gorilla indices are valid building indices, and they are different |
| `Match.Gorillas.ThrowBanana` | app/games/gorillas/index.js:169-184 | a caller who is not the current player only gets `error "It is not your turn."` on its own socket, with the counter unchanged; otherwise `bananaThrown` with the unchanged payload goes only to the other player's socket and the counter advances, which hands the throw to the opponent once the counter is set; wins, roster and layout never change |
| `Match.Gorillas.EndRound` | app/games/gorillas/index.js:187-207 | a caller who is not the other player only gets an error on its own socket, with wins and the round state unchanged; otherwise the other player's wins rise by exactly one and the opponent's stay; `matchEnded` naming that player is broadcast when its wins are enough, and a new round begins otherwise; wins never decrease |
| `Match.StartScenario` | app/games/gorillas/index.js:147-166 | after two players join and both signal ready, each has received its own `matchStarted`, and both have received the same `roundStarted` with an 80-wide tiling |
| `Match.ThrowScenario` | app/games/gorillas/index.js:169-184 | the starting player's first throw reaches only the opponent's socket |
| `Match.WrongTurnScenario` | app/games/gorillas/index.js:174-179 | a first throw by the non-starting player is answered with an error to that player only |

## Left out

- The `play` route and its session check, and `getRoutes` (`index.js:65-74`, `128-130`): these are web and authentication plumbing.
- The `err` argument of `connection`, which is rethrown unchanged (`index.js:99-102`).
- The `socketEventHandlers` table and the binding of handlers to sockets (`index.js:41-45`, `116-124`). Each handler is a method taking the socket and username it was bound with.
- `socket.emit` itself. Emits are appended to the `log` field.
- All `console.log` output.
- `mapHeight` (`index.js:48`), which the core never reads.
- `Match.GetConfig`: does not model names inherited from `Object.prototype` (`toString`, `constructor`, `__proto__`, ...), for which `config[configName]` returns the inherited member rather than `undefined`; those are JavaScript functions and objects, not configuration values, and have no counterpart among the model's `ConfigValue`s.
- `Oracle.RandomIntBetween`: does not model the floating-point draw `Math.floor(Math.random() * (max - min + 1)) + min` or its uniform distribution. Only the range of the result is modelled.
- `Level.GenerateBuildings`: the rejection loop at `index.js:269-272` is a single choice of a pair that satisfies the loop's exit condition. Its retries and their distribution are not modelled, and neither is the unbounded retrying the source would do on a configuration where no such pair exists. The constants 6-10 and 6-28 always allow such a pair.
- Player records are objects that `ready` mutates in place. Here they are values in a sequence, replaced at their index. No other reference to a player object exists in the source, so no aliasing is lost.
- `Match.Gorillas.GetPlayerByUsername`: returns the player's position instead of the player object. The object is `players[position]`.
- `buildings` and `gorillaBuildings` start as `null`. Here they start empty. Nothing reads them before the first round replaces them.
- `Match.Gorillas.Ready`, `Match.Gorillas.ThrowBanana`, `Match.Gorillas.EndRound`: require the username to be on the roster. For an unknown username the source dereferences `null` and throws.
- `Match.Gorillas.ThrowBanana`: requires the other player to exist. The source indexes `players[otherPlayer()]` and throws otherwise.
- `Match.Gorillas.Start`: requires two players. The source reads `players[1].username`.
- Concurrency: Node runs each handler to completion, so handlers are modelled as sequential method calls.
