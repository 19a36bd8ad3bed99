/**
 The human-readable rendering of a score, and a reader for it: every score
 has exactly one rendering and reading it back gives the score again.
 */
module Display {
  import opened Types

  function PlayerName(p: Player): string
  {
    match p
    case PlayerOne => "Player 1"
    case PlayerTwo => "Player 2"
  }

  function PointName(p: Point): string
  {
    match p
    case Love => "Love"
    case Fifteen => "Fifteen"
    case Thirty => "Thirty"
  }

  /** The rendering of a score; in the points case the first player's point
      comes first. */
  function Describe(s: Score): string
  {
    match s
    case Points(d) => PointName(d.playerOne) + " - " + PointName(d.playerTwo)
    case Forty(f) => "Forty - " + PointName(f.otherPoint) + " (" + PlayerName(f.player) + " at 40)"
    case Deuce => "Deuce"
    case Advantage(p) => "Advantage " + PlayerName(p)
    case Game(p) => "Game " + PlayerName(p)
  }

  /** What follows `prefix` in `s`, if `s` starts with it. */
  function StripPrefix(prefix: string, s: string): (r: Option<string>)
    ensures r.Some? <==> prefix <= s
    ensures r.Some? ==> s == prefix + r.value
  {
    if prefix <= s then Some(s[|prefix|..]) else None
  }

  /** What precedes `suffix` in `s`, if `s` ends with it. */
  function StripSuffix(suffix: string, s: string): (r: Option<string>)
    ensures r.Some? ==> s == r.value + suffix
  {
    if |suffix| <= |s| && s[|s| - |suffix|..] == suffix then Some(s[..|s| - |suffix|]) else None
  }

  function ReadPlayer(s: string): (r: Option<Player>)
    ensures r.Some? ==> PlayerName(r.value) == s
  {
    if s == "Player 1" then Some(PlayerOne)
    else if s == "Player 2" then Some(PlayerTwo)
    else None
  }

  /** The point name `s` starts with, and the rest of `s`. */
  function ReadPoint(s: string): (r: Option<(Point, string)>)
    ensures r.Some? ==> s == PointName(r.value.0) + r.value.1
  {
    match StripPrefix("Love", s)
    case Some(rest) => Some((Love, rest))
    case None =>
      match StripPrefix("Fifteen", s)
      case Some(rest) => Some((Fifteen, rest))
      case None =>
        match StripPrefix("Thirty", s)
        case Some(rest) => Some((Thirty, rest))
        case None => None
  }

  function ReadPoints(s: string): (r: Option<Score>)
    ensures r.Some? ==> Describe(r.value) == s
  {
    match ReadPoint(s)
    case None => None
    case Some((a, rest)) =>
      match StripPrefix(" - ", rest)
      case None => None
      case Some(last) =>
        match ReadPoint(last)
        case Some((b, "")) =>
          assert last == PointName(b);
          assert s == PointName(a) + " - " + PointName(b);
          Some(Points(PointsData(a, b)))
        case _ => None
  }

  /** The forty-holder named in the tail `" (<player> at 40)"`. */
  function ReadHolder(tail: string): (r: Option<Player>)
    ensures r.Some? ==> tail == " (" + PlayerName(r.value) + " at 40)"
  {
    match StripPrefix(" (", tail)
    case None => None
    case Some(rest) =>
      match StripSuffix(" at 40)", rest)
      case None => None
      case Some(name) => ReadPlayer(name)
  }

  function ReadForty(s: string): (r: Option<Score>)
    ensures r.Some? ==> Describe(r.value) == s
  {
    match StripPrefix("Forty - ", s)
    case None => None
    case Some(rest) =>
      match ReadPoint(rest)
      case None => None
      case Some((o, tail)) =>
        match ReadHolder(tail)
        case None => None
        case Some(p) =>
          RegroupFive("Forty - ", PointName(o), " (", PlayerName(p), " at 40)");
          Some(Forty(FortyData(p, o)))
  }

  /** The score a rendering stands for, or None if `s` is no rendering. */
  function Read(s: string): (r: Option<Score>)
    ensures r.Some? ==> Describe(r.value) == s
  {
    if |s| == 0 then None
    else if s[0] == 'D' then (if s == "Deuce" then Some(Deuce) else None)
    else if s[0] == 'A' then
      (match StripPrefix("Advantage ", s)
       case None => None
       case Some(name) =>
         match ReadPlayer(name)
         case None => None
         case Some(p) => Some(Advantage(p)))
    else if s[0] == 'G' then
      (match StripPrefix("Game ", s)
       case None => None
       case Some(name) =>
         match ReadPlayer(name)
         case None => None
         case Some(p) => Some(Game(p)))
    else if |s| >= 2 && s[0] == 'F' && s[1] == 'o' then ReadForty(s)
    else ReadPoints(s)
  }

  lemma RegroupFive(a: string, b: string, c: string, d: string, e: string)
    ensures a + (b + ((c + d) + e)) == (((a + b) + c) + d) + e
  {
  }

  lemma StripPrefixConcat(prefix: string, t: string)
    ensures StripPrefix(prefix, prefix + t) == Some(t)
  {
    assert prefix <= prefix + t;
    assert (prefix + t)[|prefix|..] == t;
  }

  lemma StripSuffixConcat(suffix: string, t: string)
    ensures StripSuffix(suffix, t + suffix) == Some(t)
  {
    assert (t + suffix)[|t|..] == suffix;
    assert (t + suffix)[..|t|] == t;
  }

  lemma ReadPointName(p: Point, t: string)
    ensures ReadPoint(PointName(p) + t) == Some((p, t))
  {
    var s := PointName(p) + t;
    StripPrefixConcat(PointName(p), t);
    match p
    case Love =>
    case Fifteen =>
      assert s[0] == 'F';
    case Thirty =>
      assert s[0] == 'T';
  }

  /** A point name starts differently from every other rendering. */
  lemma PointNameStart(p: Point)
    ensures |PointName(p)| >= 2
    ensures PointName(p)[0] !in "DAG"
    ensures PointName(p)[0] == 'F' ==> PointName(p)[1] != 'o'
  {
    match p
    case Love =>
    case Fifteen =>
    case Thirty =>
  }

  lemma ReadDescribePoints(d: PointsData)
    ensures Read(Describe(Points(d))) == Some(Points(d))
  {
    var x := Describe(Points(d));
    var last := PointName(d.playerTwo);
    var rest := " - " + last;
    assert x == PointName(d.playerOne) + rest;
    assert last == last + "";
    ReadPointName(d.playerTwo, "");
    StripPrefixConcat(" - ", last);
    ReadPointName(d.playerOne, rest);
    assert ReadPoints(x) == Some(Points(d));
    PointNameStart(d.playerOne);
    assert x[0] == PointName(d.playerOne)[0];
    assert x[1] == PointName(d.playerOne)[1];
  }

  lemma ReadHolderName(p: Player)
    ensures ReadHolder(" (" + PlayerName(p) + " at 40)") == Some(p)
  {
    var name := PlayerName(p);
    assert " (" + name + " at 40)" == " (" + (name + " at 40)");
    StripPrefixConcat(" (", name + " at 40)");
    StripSuffixConcat(" at 40)", name);
  }

  lemma ReadFortyDescribe(f: FortyData)
    ensures ReadForty(Describe(Forty(f))) == Some(Forty(f))
  {
    var x := Describe(Forty(f));
    var tail := " (" + PlayerName(f.player) + " at 40)";
    var rest := PointName(f.otherPoint) + tail;
    RegroupFive("Forty - ", PointName(f.otherPoint), " (", PlayerName(f.player), " at 40)");
    assert x == "Forty - " + rest;
    StripPrefixConcat("Forty - ", rest);
    ReadPointName(f.otherPoint, tail);
    ReadHolderName(f.player);
  }

  lemma ReadDescribeForty(f: FortyData)
    ensures Read(Describe(Forty(f))) == Some(Forty(f))
  {
    var x := Describe(Forty(f));
    ReadFortyDescribe(f);
    assert x[0] == 'F' && x[1] == 'o';
    assert Read(x) == ReadForty(x);
  }

  /** Reading a rendering gives back the score. */
  lemma ReadDescribe(s: Score)
    ensures Read(Describe(s)) == Some(s)
  {
    match s
    case Points(d) =>
      ReadDescribePoints(d);
    case Forty(f) =>
      ReadDescribeForty(f);
    case Deuce =>
    case Advantage(p) =>
      StripPrefixConcat("Advantage ", PlayerName(p));
    case Game(p) =>
      StripPrefixConcat("Game ", PlayerName(p));
  }

  /** Different scores are rendered differently. */
  lemma DescribeInjective(a: Score, b: Score)
    requires Describe(a) == Describe(b)
    ensures a == b
  {
    ReadDescribe(a);
    ReadDescribe(b);
  }
}
