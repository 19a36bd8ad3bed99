/**
 An independent reference for the engine: the usual rule of tennis stated on
 the number of points each player has won. A player takes the game with at
 least four points and a lead of two; until then the counts are read as
 Love/Fifteen/Thirty/forty, deuce and advantage. The engine is shown to be an
 exact abstraction of counting.
 */
module Tally {
  import opened Types
  import opened Tennis
  import opened History

  /** Points won so far by each player. */
  datatype Counts = Counts(one: nat, two: nat)

  function Count(t: Counts, p: Player): nat
  {
    match p
    case PlayerOne => t.one
    case PlayerTwo => t.two
  }

  /** `p` has won the game: at least four points and two clear. */
  predicate Won(t: Counts, p: Player)
  {
    Count(t, p) >= 4 && Count(t, p) >= Count(t, OtherPlayer(p)) + 2
  }

  predicate Over(t: Counts)
  {
    Won(t, PlayerOne) || Won(t, PlayerTwo)
  }

  /** The point name of a count below three. */
  function PointOf(n: nat): (p: Point)
    requires n <= 2
    ensures Steps(p) == n
  {
    if n == 0 then Love else if n == 1 then Fifteen else Thirty
  }

  /** The tally after `w` wins a point; points after the game is over are
      not counted. */
  function Record(t: Counts, w: Player): (r: Counts)
    ensures Over(t) ==> r == t
    ensures !Over(t) ==> Count(r, w) == Count(t, w) + 1
    ensures Count(r, OtherPlayer(w)) == Count(t, OtherPlayer(w))
  {
    if Over(t) then t
    else match w
      case PlayerOne => t.(one := t.one + 1)
      case PlayerTwo => t.(two := t.two + 1)
  }

  /** How the counts are called. */
  function Call(t: Counts): Score
  {
    if Won(t, PlayerOne) then Game(PlayerOne)
    else if Won(t, PlayerTwo) then Game(PlayerTwo)
    else if t.one <= 2 && t.two <= 2 then Points(PointsData(PointOf(t.one), PointOf(t.two)))
    else if t.one == 3 && t.two <= 2 then Forty(FortyData(PlayerOne, PointOf(t.two)))
    else if t.two == 3 && t.one <= 2 then Forty(FortyData(PlayerTwo, PointOf(t.one)))
    else if t.one == t.two then Deuce
    else if t.one == t.two + 1 then Advantage(PlayerOne)
    else Advantage(PlayerTwo)
  }

  lemma RecordRefinesBelowForty(t: Counts, w: Player)
    requires t.one <= 2 && t.two <= 2
    ensures Call(Record(t, w)) == ScorePoint(Call(t), w)
  {
    assert !Over(t);
    assert Call(t) == Points(PointsData(PointOf(t.one), PointOf(t.two)));
  }

  lemma RecordRefinesForty(t: Counts, w: Player, p: Player)
    requires Count(t, p) == 3 && Count(t, OtherPlayer(p)) <= 2
    ensures Call(Record(t, w)) == ScorePoint(Call(t), w)
  {
    assert !Over(t);
    assert Call(t) == Forty(FortyData(p, PointOf(Count(t, OtherPlayer(p)))));
  }

  lemma RecordRefinesDeuceLevel(t: Counts, w: Player)
    requires t.one >= 3 && t.two >= 3 && !Over(t)
    ensures Call(Record(t, w)) == ScorePoint(Call(t), w)
  {
    assert t.one <= t.two + 1 && t.two <= t.one + 1;
  }

  /** The engine agrees with counting: calling the score after one more point
      is the engine applied to the called score. */
  lemma RecordRefinesScorePoint(t: Counts, w: Player)
    ensures Call(Record(t, w)) == ScorePoint(Call(t), w)
  {
    if Over(t) {
      assert Record(t, w) == t;
    } else if t.one <= 2 && t.two <= 2 {
      RecordRefinesBelowForty(t, w);
    } else if t.one == 3 && t.two <= 2 {
      RecordRefinesForty(t, w, PlayerOne);
    } else if t.two == 3 && t.one <= 2 {
      RecordRefinesForty(t, w, PlayerTwo);
    } else {
      RecordRefinesDeuceLevel(t, w);
    }
  }

  /** Counts that are called `s`, so the reference covers every score. */
  function Witness(s: Score): (t: Counts)
    ensures Call(t) == s
  {
    match s
    case Points(d) => Counts(Steps(d.playerOne), Steps(d.playerTwo))
    case Forty(f) =>
      if f.player == PlayerOne then Counts(3, Steps(f.otherPoint))
      else Counts(Steps(f.otherPoint), 3)
    case Deuce => Counts(3, 3)
    case Advantage(p) => if p == PlayerOne then Counts(4, 3) else Counts(3, 4)
    case Game(p) => if p == PlayerOne then Counts(4, 0) else Counts(0, 4)
  }

  /** The tally after the points `ws`, starting from `t`. */
  function RecordAll(t: Counts, ws: seq<Player>): Counts
    decreases |ws|
  {
    if ws == [] then t else RecordAll(Record(t, ws[0]), ws[1..])
  }

  /** Over any history, the engine's score is the call of the counted points. */
  lemma {:induction false} PlayRefinesCount(t: Counts, ws: seq<Player>)
    ensures Play(Call(t), ws) == Call(RecordAll(t, ws))
    decreases |ws|
  {
    if ws != [] {
      RecordRefinesScorePoint(t, ws[0]);
      PlayRefinesCount(Record(t, ws[0]), ws[1..]);
    }
  }

  /** In particular a whole game from Love - Love. */
  lemma GameFromStartIsCalled(ws: seq<Player>)
    ensures Play(Start, ws) == Call(RecordAll(Counts(0, 0), ws))
  {
    PlayRefinesCount(Counts(0, 0), ws);
  }
}
