/**
 The score engine: one transition per point won, dispatched on the variant of
 the current score to one of five sub-rules.
 */
module Tennis {
  import opened Types

  /** The opponent of `p`. */
  function OtherPlayer(p: Player): (r: Player)
    ensures r != p
    ensures p == PlayerOne <==> r == PlayerTwo
  {
    match p
    case PlayerOne => PlayerTwo
    case PlayerTwo => PlayerOne
  }

  /** The next point, if there is one below forty. */
  function IncrementPoint(p: Point): (r: Option<Point>)
    ensures r.None? <==> p == Thirty
    ensures r.Some? ==> Value(r.value) == Value(p) + 15
  {
    match p
    case Love => Some(Fifteen)
    case Fifteen => Some(Thirty)
    case Thirty => None
  }

  /** A point won while both players are below forty. */
  function ScoreWhenPoint(current: PointsData, winner: Player): (r: Score)
    // below thirty: only the winner's entry moves up by one step
    ensures Get(current, winner) != Thirty ==>
              && r.Points?
              && Value(Get(r.pointsData, winner)) == Value(Get(current, winner)) + 15
              && Get(r.pointsData, OtherPlayer(winner)) == Get(current, OtherPlayer(winner))
    // at thirty: the winner reaches forty, the opponent's point is carried over
    ensures Get(current, winner) == Thirty ==>
              r == Forty(FortyData(winner, Get(current, OtherPlayer(winner))))
  {
    var winnerPoint := Get(current, winner);
    var otherPoint := Get(current, OtherPlayer(winner));
    match IncrementPoint(winnerPoint)
    case None => Forty(FortyData(winner, otherPoint))
    case Some(newPoint) => Points(With(current, winner, newPoint))
  }

  /** A point won while one player holds forty. */
  function ScoreWhenForty(current: FortyData, winner: Player): (r: Score)
    ensures winner == current.player ==> r == Game(winner)
    // the opponent moves up by one step while still below forty
    ensures winner != current.player && current.otherPoint != Thirty ==>
              && r.Forty?
              && r.fortyData.player == current.player
              && Value(r.fortyData.otherPoint) == Value(current.otherPoint) + 15
    ensures winner != current.player && current.otherPoint == Thirty ==> r == Deuce
  {
    if current.player == winner then Game(winner)
    else
      match IncrementPoint(current.otherPoint)
      case None => Deuce
      case Some(p) => Forty(FortyData(current.player, p))
  }

  /** A point won at deuce. */
  function ScoreWhenDeuce(winner: Player): Score
  {
    Advantage(winner)
  }

  /** A point won while `advantaged` holds the advantage. */
  function ScoreWhenAdvantage(advantaged: Player, winner: Player): Score
  {
    if advantaged == winner then Game(winner) else Deuce
  }

  /** A point "won" after the game is over. */
  function ScoreWhenGame(current: Score): Score
  {
    current
  }

  /** The score after `winner` wins a point from `current`. */
  function ScorePoint(current: Score, winner: Player): (r: Score)
    // a finished game never changes
    ensures current.Game? ==> r == current
    // only the point winner can take the game or the advantage
    ensures !current.Game? && r.Game? ==> r.player == winner
    ensures r.Advantage? ==> r.player == winner && current.Deuce?
    // forty is only held by a player who had it or just won it from thirty
    ensures r.Forty? ==>
              || (current.Forty? && current.fortyData.player == r.fortyData.player)
              || (current.Points? && winner == r.fortyData.player
                  && Get(current.pointsData, winner) == Thirty)
  {
    match current
    case Points(d) => ScoreWhenPoint(d, winner)
    case Forty(f) => ScoreWhenForty(f, winner)
    case Deuce => ScoreWhenDeuce(winner)
    case Advantage(p) => ScoreWhenAdvantage(p, winner)
    case Game(_) => ScoreWhenGame(current)
  }

  lemma OtherPlayerInvolutive(p: Player)
    ensures OtherPlayer(OtherPlayer(p)) == p
  {
  }

  lemma DeuceGivesAdvantage(w: Player)
    ensures ScorePoint(Deuce, w) == Advantage(w)
    ensures ScorePoint(Deuce, w) != ScorePoint(Deuce, OtherPlayer(w))
  {
  }

  lemma AdvantageOutcomes(p: Player, w: Player)
    ensures w == p ==> ScorePoint(Advantage(p), w) == Game(p)
    ensures w != p ==> ScorePoint(Advantage(p), w) == Deuce
    ensures ScorePoint(Advantage(p), w) != Advantage(OtherPlayer(p))
  {
  }

  lemma GameAbsorbing(p: Player, w: Player)
    ensures ScorePoint(Game(p), w) == Game(p)
  {
  }

  /** The score with the two players' roles exchanged. */
  function Mirror(s: Score): (r: Score)
    ensures r.Game? <==> s.Game?
    ensures r.Deuce? <==> s.Deuce?
  {
    match s
    case Points(d) => Points(PointsData(d.playerTwo, d.playerOne))
    case Forty(f) => Forty(FortyData(OtherPlayer(f.player), f.otherPoint))
    case Deuce => Deuce
    case Advantage(p) => Advantage(OtherPlayer(p))
    case Game(p) => Game(OtherPlayer(p))
  }

  /** The rules favour neither player: exchanging the players before a point
      is the same as exchanging them after it. */
  lemma ScorePointSymmetric(s: Score, w: Player)
    ensures ScorePoint(Mirror(s), OtherPlayer(w)) == Mirror(ScorePoint(s, w))
  {
  }
}
