# Tennis game score engine, in Dafny

This models the score of a single tennis game between two players, as the
TypeScript module `index.ts` computes it. A score is one of five variants:

- points, with Love, Fifteen or Thirty for each player;
- forty, naming the player at forty and the opponent's point;
- deuce;
- advantage to a player;
- game won by a player.

`score(current, winner)` advances the score by one point. It dispatches on the
variant to five pure sub-rules. Those rely on a partial successor on points
(`incrementPoint`) and on `otherPlayer`.

Modules:

- `Types` (`types.dfy`) holds the data model. `Player` has two constructors and
  `Point` has three. `PointsData` is a record with one field per player, and
  `Score` has five variants. `Value` gives the numeric point (0, 15 or 30) that
  the engine itself uses.
- `Tennis` (`tennis.dfy`) holds `OtherPlayer`, `IncrementPoint`, the five
  `ScoreWhen…` sub-rules and the entry point `ScorePoint`.
- `History` (`history.dfy`) threads a sequence of point winners through the
  engine (`Play`), as a caller does over a game. It proves that a finished game
  is final. From any score the opponent has not already won, it gives the
  exact number of straight points that win the game. It also shows that every
  score is reachable from Love - Love.
- `Tally` (`tally.dfy`) is an independent reference: the usual rule of tennis
  stated on counted points (the datatype `Counts`). A player wins with at
  least four points and two clear. The engine is proved to be an exact
  abstraction of counting, one point at a time and over whole histories.
- `Display` (`display.dfy`) holds the renderer `scoreToString` and a reader for
  its output. Reading a rendering gives the score back, so distinct scores
  render distinctly.

## Model

| member | source | states |
|---|---|---|
| `Tennis.OtherPlayer` | index.ts:15-22 | the result is never the argument, and the two players are exchanged |
| `Tennis.OtherPlayerInvolutive` | index.ts:15-22 | taking the opponent twice gives back the original player |
| `Tennis.IncrementPoint` | index.ts:65-69 | there is no next point exactly for Thirty; otherwise the next point is worth 15 more (Love to Fifteen, Fifteen to Thirty) |
| `Tennis.ScoreWhenPoint` | index.ts:88-106 | below Thirty the winner's entry moves up 15 and the opponent's entry is unchanged; at Thirty the result is forty for the winner with the opponent's point carried over |
| `Tennis.ScoreWhenForty` | index.ts:71-83 | the forty-holder winning takes the game; the opponent winning below Thirty moves up 15 with the same forty-holder; the opponent winning at Thirty gives deuce |
| `Tennis.DeuceGivesAdvantage` | index.ts:55 | from deuce, the point winner gets the advantage, so the two possible winners lead to different scores |
| `Tennis.AdvantageOutcomes` | index.ts:57-63 | the advantage-holder winning takes the game; the other player winning gives deuce, never the advantage to the other player |
| `Tennis.GameAbsorbing` | index.ts:109 | a won game is unchanged by any further point |
| `Tennis.ScorePoint` | index.ts:111-124 | a finished game never changes; a game or an advantage produced by a point always belongs to that point's winner; the advantage comes only from deuce; forty is held only by a player who already had it or who just won a point at Thirty |
| `Tennis.ScorePointSymmetric` | index.ts:111-124 | the rules favour neither player: exchanging the players before a point is the same as exchanging them after it |
| `History.GameIsFinal` | index.ts:109 | no sequence of further points changes a won game |
| `History.FourStraightPoints` | index.ts:111-124 | four straight points from Love - Love pass through Fifteen, Thirty and forty against Love to the game |
| `History.StraightWinsEndGame` | index.ts:111-124 | from any score the opponent has not won, the player wins the game after exactly `WinsNeeded` straight points: that many suffice and no fewer do |
| `History.FiveStraightWinsSuffice` | index.ts:111-124 | five straight points win the game from any score the opponent has not won; four are not enough when the opponent is at forty and the player is at Love |
| `History.Path` | index.ts:111-124 | every score is reached from Love - Love by the returned sequence of point winners |
| `History.EveryScoreReachable` | index.ts:111-124 | every value of the score type is reachable from Love - Love, so the data model has no state the rules cannot produce |
| `History.ReachableClosed` | index.ts:111-124 | the scores reachable from Love - Love are closed under the transition; this also follows from `EveryScoreReachable`, and is proved here directly by extending a history by one point |
| `Tally.RecordRefinesScorePoint` | index.ts:111-124 | for every count of points won, calling the score after one more point equals the engine applied to the called score |
| `Tally.PlayRefinesCount` | index.ts:111-124 | over any history of points, the engine's score equals the call of the counted points |
| `Tally.GameFromStartIsCalled` | index.ts:111-124 | a whole game from Love - Love ends at the call of the counted points: a player wins exactly when they have four points and two clear |
| `Display.ReadDescribe` | index.ts:24-53 | reading the rendering of any score gives the score back |
| `Display.DescribeInjective` | index.ts:37-53 | two different scores never have the same rendering |

## Left out

- The `default` branch of `pointToString` (index.ts:32-33) is left out. It renders a number other than 0, 15 or 30, and with three point constructors it cannot be reached.
- `playerToString` (index.ts:7-14) is modelled only as `Display.PlayerName`. `scoreToString` spells the same two names inline at lines 42, 47 and 50.
- `isSamePlayer`, `stringToPlayer` and the constructors `advantage`, `deuce`, `forty` and `game` come from `types/player` and `types/score`. Those files are not part of this model. Player comparison is structural equality, and `stringToPlayer('PLAYER_TWO')` is taken to be that player.
- The `effect` library's `pipe` and `Option.match` are modelled as a native `Option` and a `match`.
- The points mapping keyed by player name is a record with one field per player. The mapping is always total over both players, so it has no missing-key case.
- `__tests__/generators.ts` is left out. It only generates test data. Its record-shaped points (`{kind: 'LOVE'}`) differ from the numeric points the engine uses, and the model follows the engine.
- `Display.Describe` and `Display.PointName` carry no contract of their own. The rendering is stated by `ReadDescribe` and `DescribeInjective`.
- `Tennis.ScoreWhenDeuce`, `Tennis.ScoreWhenAdvantage` and `Tennis.ScoreWhenGame` carry no contract of their own. Their behaviour is stated on `ScorePoint` by `DeuceGivesAdvantage`, `AdvantageOutcomes` and `GameAbsorbing`.
