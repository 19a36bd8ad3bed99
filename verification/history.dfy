/**
 Successive points threaded through the engine: the history of a game is the
 sequence of point winners, and the score after it is the engine applied to
 each in turn.
 */
module History {
  import opened Types
  import opened Tennis

  /** The score reached from `s` when the points are won by `ws`, in order. */
  function Play(s: Score, ws: seq<Player>): Score
    decreases |ws|
  {
    if ws == [] then s else Play(ScorePoint(s, ws[0]), ws[1..])
  }

  lemma {:induction false} PlayAppend(s: Score, a: seq<Player>, b: seq<Player>)
    ensures Play(s, a + b) == Play(Play(s, a), b)
    decreases |a|
  {
    if a == [] {
      assert a + b == b;
    } else {
      assert (a + b)[0] == a[0];
      assert (a + b)[1..] == a[1..] + b;
      PlayAppend(ScorePoint(s, a[0]), a[1..], b);
    }
  }

  lemma PlayRepeatStep(s: Score, w: Player, n: nat)
    ensures Play(s, Repeat(w, n + 1)) == Play(ScorePoint(s, w), Repeat(w, n))
  {
    assert Repeat(w, n + 1)[1..] == Repeat(w, n);
  }

  /** No sequence of further points changes a finished game. */
  lemma {:induction false} GameIsFinal(p: Player, ws: seq<Player>)
    ensures Play(Game(p), ws) == Game(p)
    decreases |ws|
  {
    if ws != [] {
      GameIsFinal(p, ws[1..]);
    }
  }

  /** `n` points in a row won by `w`. */
  function Repeat(w: Player, n: nat): (r: seq<Player>)
    ensures |r| == n
    ensures forall i :: 0 <= i < n ==> r[i] == w
  {
    if n == 0 then [] else [w] + Repeat(w, n - 1)
  }

  /** Four straight points from Love - Love win the game, through Fifteen,
      Thirty and forty against Love. */
  lemma FourStraightPoints(w: Player)
    ensures Play(Start, Repeat(w, 1)) == Points(With(PointsData(Love, Love), w, Fifteen))
    ensures Play(Start, Repeat(w, 2)) == Points(With(PointsData(Love, Love), w, Thirty))
    ensures Play(Start, Repeat(w, 3)) == Forty(FortyData(w, Love))
    ensures Play(Start, Repeat(w, 4)) == Game(w)
  {
    var s1 := ScorePoint(Start, w);
    var s2 := ScorePoint(s1, w);
    var s3 := ScorePoint(s2, w);
    PlayRepeatStep(Start, w, 0);
    PlayRepeatStep(Start, w, 1);
    PlayRepeatStep(s1, w, 0);
    PlayRepeatStep(Start, w, 2);
    PlayRepeatStep(s1, w, 1);
    PlayRepeatStep(s2, w, 0);
    PlayRepeatStep(Start, w, 3);
    PlayRepeatStep(s1, w, 2);
    PlayRepeatStep(s2, w, 1);
    PlayRepeatStep(s3, w, 0);
  }

  /** The number of points in a row `w` still needs to win the game from `s`;
      a game already won by the opponent is excluded. */
  function WinsNeeded(s: Score, w: Player): (n: nat)
    requires s != Game(OtherPlayer(w))
    ensures n <= 5
    ensures n == 0 <==> s == Game(w)
  {
    match s
    case Game(p) => assert p == w by { OtherPlayerInvolutive(w); } 0
    case Advantage(p) => if p == w then 1 else 3
    case Deuce => 2
    case Forty(f) =>
      if f.player == w then 1
      else (match f.otherPoint
        case Thirty => 3
        case Fifteen => 4
        case Love => 5)
    case Points(d) =>
      match Get(d, w)
      case Thirty => 2
      case Fifteen => 3
      case Love => 4
  }

  /** Each point won by `w` before the game ends brings it one point closer. */
  lemma WinBringsGameCloser(s: Score, w: Player)
    requires s != Game(OtherPlayer(w)) && s != Game(w)
    ensures ScorePoint(s, w) != Game(OtherPlayer(w))
    ensures WinsNeeded(ScorePoint(s, w), w) == WinsNeeded(s, w) - 1
  {
  }

  /** Winning `WinsNeeded` points in a row ends the game in `w`'s favour, and
      no shorter run does. */
  lemma {:induction false} StraightWinsEndGame(s: Score, w: Player, k: nat)
    requires s != Game(OtherPlayer(w))
    ensures k < WinsNeeded(s, w) ==> Play(s, Repeat(w, k)) != Game(w)
    ensures k >= WinsNeeded(s, w) ==> Play(s, Repeat(w, k)) == Game(w)
    decreases k
  {
    if k > 0 {
      PlayRepeatStep(s, w, k - 1);
      if s == Game(w) {
        StraightWinsEndGame(s, w, k - 1);
      } else {
        WinBringsGameCloser(s, w);
        StraightWinsEndGame(ScorePoint(s, w), w, k - 1);
      }
    }
  }

  /** From any score not already lost by `w`, five straight points win the
      game for `w`; with the opponent at forty and `w` at Love, four are not
      enough. */
  lemma FiveStraightWinsSuffice(s: Score, w: Player)
    requires s != Game(OtherPlayer(w))
    ensures Play(s, Repeat(w, 5)) == Game(w)
    ensures Play(Forty(FortyData(OtherPlayer(w), Love)), Repeat(w, 4)) != Game(w)
  {
    StraightWinsEndGame(s, w, 5);
    StraightWinsEndGame(Forty(FortyData(OtherPlayer(w), Love)), w, 4);
  }

  /** `p` winning the points that take them from Love to `x`. */
  function Climb(p: Player, x: Point): (r: seq<Player>)
    ensures |r| == Steps(x)
  {
    match x
    case Love => []
    case Fifteen => [p]
    case Thirty => [p, p]
  }

  lemma ClimbFromLove(d: PointsData, p: Player, x: Point)
    requires Get(d, p) == Love
    ensures Play(Points(d), Climb(p, x)) == Points(With(d, p, x))
  {
    match x
    case Love =>
      assert With(d, p, x) == d;
    case Fifteen =>
      assert Climb(p, x)[1..] == [];
    case Thirty =>
      assert Climb(p, x)[1..] == [p];
      assert [p][1..] == [];
      var mid := ScorePoint(Points(d), p);
      assert mid == Points(With(d, p, Fifteen));
      assert Play(Points(d), Climb(p, x)) == Play(mid, [p]);
      assert Play(mid, [p]) == ScorePoint(mid, p);
      assert With(With(d, p, Fifteen), p, Thirty) == With(d, p, Thirty);
  }

  /** A number that each step of `Path` strictly reduces. */
  function Depth(s: Score): nat
  {
    match s
    case Points(_) => 0
    case Forty(_) => 1
    case Deuce => 2
    case Advantage(_) => 3
    case Game(_) => 4
  }

  /** A history that leads from Love - Love to `s`: every score is reachable. */
  function Path(s: Score): (ws: seq<Player>)
    ensures Play(Start, ws) == s
    decreases Depth(s)
  {
    match s
    case Points(d) =>
      var a := Climb(PlayerOne, d.playerOne);
      var b := Climb(PlayerTwo, d.playerTwo);
      ClimbFromLove(PointsData(Love, Love), PlayerOne, d.playerOne);
      ClimbFromLove(PointsData(d.playerOne, Love), PlayerTwo, d.playerTwo);
      PlayAppend(Start, a, b);
      a + b
    case Forty(f) =>
      var before := Points(With(With(PointsData(Love, Love), OtherPlayer(f.player), f.otherPoint), f.player, Thirty));
      var ws := Path(before);
      PlayAppend(Start, ws, [f.player]);
      ws + [f.player]
    case Deuce =>
      var ws := Path(Forty(FortyData(PlayerOne, Thirty)));
      PlayAppend(Start, ws, [PlayerTwo]);
      ws + [PlayerTwo]
    case Advantage(p) =>
      var ws := Path(Deuce);
      PlayAppend(Start, ws, [p]);
      ws + [p]
    case Game(p) =>
      var ws := Path(Advantage(p));
      PlayAppend(Start, ws, [p]);
      ws + [p]
  }

  /** The scores some history leads to from Love - Love. */
  ghost predicate Reachable(s: Score)
  {
    exists ws :: Play(Start, ws) == s
  }

  /** Every score the type admits is reached by some game, so the five
      variants hold no state the rules cannot produce. */
  lemma EveryScoreReachable(s: Score)
    ensures Reachable(s)
  {
    var ws := Path(s);
  }

  /** Reachable scores are closed under the engine; this also follows from
      `EveryScoreReachable`, and is proved here directly from a history. */
  lemma ReachableClosed(s: Score, w: Player)
    requires Reachable(s)
    ensures Reachable(ScorePoint(s, w))
  {
    var ws :| Play(Start, ws) == s;
    PlayAppend(Start, ws, [w]);
    assert [w][1..] == [];
  }
}
