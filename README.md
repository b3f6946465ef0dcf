# Addition game of the game-channel framework

A model of the small addition game that the game-channel framework uses in
its unit tests (`gamechannel/testgame.hpp`). Two parties play on a state that
is a pair of numbers: a current number and a turn count. It is player
`number % 2`'s turn. The game is over once the number reaches 100. A move is
a strictly positive number that is added to the current number, and each
accepted move adds one to the turn count.

The game's channel policy (`AdditionChannel`) has two parts:

- Automoves. When the last digit of the number is 6 to 9, the policy proposes
  an automatic move of +2. A chain can be one move long (8 -> 10) or two
  moves long (6 -> 8 -> 10). A flag, `automovesEnabled`, is on by default.
  While the flag is off, no automove is ever proposed.
- The on-chain move. When the number is exactly 100, the policy sends the
  on-chain move `"100"` through the channel's move sender. This also happens
  when 100 is reached through automoves.

Modules:

- `Rules` (`rules.dfy`): the board rules as pure functions on
  `State(number, count)`. It covers whose turn it is, whether the game is
  finished, and applying a move, which fails for a non-positive move.
- `Channel` (`channel.dfy`): the policy as a class holding the mutable
  `automovesEnabled` flag. `MoveSender` is the collaborator through which
  on-chain moves are sent; it records the moves it was given.
- `AutoMoves` (`automoves.dfy`): the automove chain. `AutoChain` is its
  specification. `RunAutoMoves` is the loop in which the channel manager
  asks the policy for an automove and applies it, until none is proposed or
  the game is over. The lemmas bound the chain and say where it ends.
  `Scenarios` is a client that runs example walks through the game, among
  them the two documented chains 8 -> 10 and 6 -> 8 -> 10.
- `Play` (`play.dfy`): sequences of moves. A play is accepted exactly when
  every move is positive. If the policy is consulted once on each state of
  an accepted play, the on-chain move is sent at most once along it. The
  policy itself re-sends "100" every time it is called on 100.

`WhoseTurn` returns no player once the game is finished. The header gives
the turn rule and the finish rule separately. Joining them follows the
framework's contract for parsed board states, in which "no turn" marks a
finished game. `boardrules.hpp` is not part of this model.

## Model

| member | source | states |
|---|---|---|
| `Rules.WhoseTurn` | gamechannel/testgame.hpp:41-44 | no player has the turn exactly when the number is at least 100; otherwise the player is 0 or 1, and 0 exactly when the number is even |
| `Rules.IsFinished` | gamechannel/testgame.hpp:43-44 | the game is finished exactly when the number is 100 or more |
| `Rules.ApplyMove` | gamechannel/testgame.hpp:44-46 | a move is accepted exactly when it is strictly positive; an accepted move m takes (n, c) to (n + m, c + 1), so the number strictly grows |
| `Rules.TurnAfterMove` | gamechannel/testgame.hpp:42-46 | after an accepted move the turn passes to the other player exactly when the move is odd, unless the game is then over |
| `Channel.HasAutoMoveDigit` | gamechannel/testgame.hpp:79-80 | the automove condition: the last decimal digit of the number is 6, 7, 8 or 9 |
| `Channel.OnChainMoves` | gamechannel/testgame.hpp:86-91 | at most one on-chain move is due for a state; one is due exactly when the number is exactly 100, and it is "100" |
| `Channel.MoveSender.constructor` | gamechannel/testgame.hpp:90-91 | a new sender has sent nothing |
| `Channel.MoveSender.SendMove` | gamechannel/testgame.hpp:90-91 | sending appends the move to the moves sent so far |
| `Channel.AdditionChannel.constructor` | gamechannel/testgame.hpp:67-68 | automoves are enabled by default |
| `Channel.AdditionChannel.SetAutomovesEnabled` | gamechannel/testgame.hpp:93-104 | the flag takes the given value; the flag is the channel's only state |
| `Channel.AdditionChannel.MaybeAutoMove` | gamechannel/testgame.hpp:78-99 | an automove is proposed only when automoves are enabled and the last digit is 6 to 9, and it is then +2; on an unfinished game with automoves enabled and such a digit, one is always proposed; with automoves disabled, none is ever proposed |
| `Channel.AdditionChannel.MaybeOnChainMove` | gamechannel/testgame.hpp:86-91 | the sender receives exactly the on-chain moves due for the state: "100" when the number is exactly 100, nothing otherwise (also above 100) |
| `AutoMoves.AutoMovesLeft` | gamechannel/testgame.hpp:79-83 | at most two automoves are still to come from a number, and some are exactly when its last digit is 6 to 9 |
| `AutoMoves.AutoStepShortens` | gamechannel/testgame.hpp:79-83 | each automove of +2 uses up one of the automoves still to come, so chains terminate |
| `AutoMoves.AutoChain` | gamechannel/testgame.hpp:78-84 | the state reached by applying +2 automoves while the game is in progress and one is due; it never goes backwards and ends in a finished state or one where no automove is due |
| `AutoMoves.AutoChainConverges` | gamechannel/testgame.hpp:78-84 | an automove chain makes two moves from a last digit of 6 or 7, one from 8 or 9, none otherwise or on a finished game; each adds 2 and one turn; it ends where no automove is due, on a last digit of 0 or 1 when it moved |
| `AutoMoves.OnChainAfterAutoMoves` | gamechannel/testgame.hpp:86-89 | after the automove chain, the on-chain move is due exactly when the chain started at 96, 98 or 100, so 100 reached by automoves also triggers it |
| `AutoMoves.RunAutoMoves` | gamechannel/testgame.hpp:78-84 | the query-and-apply loop applies at most two automoves, each adding 2 and one turn, and ends at the chain's end state; with automoves disabled it applies none |
| `Play.ApplyMoves` | gamechannel/testgame.hpp:44-46 | a play applies the moves in order and fails at the first rejected one; an accepted play of k moves adds k turns and at least k to the number |
| `Play.ApplyMovesAccepts` | gamechannel/testgame.hpp:44-46 | a sequence of moves is accepted exactly when every move is strictly positive; the number then grows by the sum of the moves and the turn count by their number |
| `Play.Trace` | gamechannel/testgame.hpp:44-46 | a play of k accepted moves passes through k + 1 states, starting with the initial state |
| `Play.TraceFollowsMoves` | gamechannel/testgame.hpp:44-46 | each state of a play's trace is the previous one with the next move applied, and the trace ends in the state the whole play reaches |
| `Play.TraceIncreasing` | gamechannel/testgame.hpp:44-46 | the number strictly grows along any play of accepted moves |
| `Play.SentAlong` | gamechannel/testgame.hpp:86-91 | the on-chain moves sent when the policy is consulted once on each state in turn: at most one per state, each of them "100" |
| `Play.SentAlongIncreasing` | gamechannel/testgame.hpp:86-91 | on states whose number strictly grows, "100" is sent once if some state has number exactly 100, and nothing is sent otherwise |
| `Play.OnChainMoveSentAtMostOnce` | gamechannel/testgame.hpp:86-91 | if the policy is consulted once on each state of a play of accepted moves, the on-chain move is sent at most once, and exactly when the play passes through 100 |

## Left out

- The string encoding of states and moves. The header says only that both are strings and does not give the format. States are pairs of unbounded naturals and moves are integers, so parse errors and C++ `int` overflow are not modelled.
- `Rules.ApplyMove` accepts a positive move on a finished game, because the header gives strict positivity as the only condition. Refusing moves once no player has the turn is the framework's job, and the framework is not part of this model.
- `Channel.AdditionChannel.MaybeAutoMove`: on a finished game with automoves enabled, the contract says only that any proposal is +2 and needs a last digit of 6 to 9. Whether one is proposed there is not stated by the source.
- `Play.OnChainMoveSentAtMostOnce` assumes that the channel manager consults `MaybeOnChainMove` once per state. The policy itself re-sends "100" on every call at 100, and the manager is not part of this model.
- `AutoMoves.RunAutoMoves` is the channel manager's automove loop, reduced to what this game needs. The manager's check that it is the local player's turn, its signing and its state-proof bookkeeping are not part of this model.
- `ResolutionMove` and `DisputeMove` (gamechannel/testgame.hpp:72-76): they build JSON from state proofs, and their behaviour is not described.
- `TestGame` (gamechannel/testgame.hpp:112-136): SQLite schema and state hooks, and dispute and resolution processing. These are database I/O.
- `TestGameFixture` (gamechannel/testgame.hpp:143-198): mock JSON-RPC servers, wallets and signature expectations. This is test plumbing and external cryptography.
- `ships/channelrpc.cpp`, `nonfungible/testutils.cpp` and `mover/main.cpp`: RPC wrappers under a mutex, SQLite test helpers and process startup. They contain no game logic of their own.
