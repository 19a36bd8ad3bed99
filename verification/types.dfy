/**
 The data model of a single tennis game: the two players, the sub-forty
 point values, and the five-variant score.
 */
module Types {

  /** A value that may be absent: the result of a point increment, which has
      no next point beyond Thirty. */
  datatype Option<+T> = None | Some(value: T)

  /** One of the two identities of a game; there is no third player. */
  datatype Player = PlayerOne | PlayerTwo

  /** A player's point while both players are below forty. */
  datatype Point = Love | Fifteen | Thirty

  /** The numeric value the engine uses for a point (0, 15 or 30). */
  function Value(p: Point): nat
  {
    match p
    case Love => 0
    case Fifteen => 15
    case Thirty => 30
  }

  /** The number of points won that a point name stands for (0, 1 or 2). */
  function Steps(p: Point): (n: nat)
    ensures Value(p) == 15 * n
  {
    match p
    case Love => 0
    case Fifteen => 1
    case Thirty => 2
  }

  /** The point of each player, one entry per player. */
  datatype PointsData = PointsData(playerOne: Point, playerTwo: Point)

  /** The player at forty and the opponent's point. */
  datatype FortyData = FortyData(player: Player, otherPoint: Point)

  /** The score of a game: exactly one of five variants. */
  datatype Score =
    | Points(pointsData: PointsData)
    | Forty(fortyData: FortyData)
    | Deuce
    | Advantage(player: Player)
    | Game(player: Player)

  /** The score at the start of a game: Love - Love. */
  const Start: Score := Points(PointsData(Love, Love))

  /** The entry of `p` in the points mapping. */
  function Get(d: PointsData, p: Player): Point
  {
    match p
    case PlayerOne => d.playerOne
    case PlayerTwo => d.playerTwo
  }

  /** The points mapping with the entry of `p` replaced by `v`. */
  function With(d: PointsData, p: Player, v: Point): (r: PointsData)
    ensures Get(r, p) == v
    ensures forall q :: q != p ==> Get(r, q) == Get(d, q)
  {
    match p
    case PlayerOne => d.(playerOne := v)
    case PlayerTwo => d.(playerTwo := v)
  }
}
