/**
 * Games as the archive endpoint returns them, and the helpers the search
 * panel uses to describe a game from the searched player's point of view.
 */
module Games {
  import opened Wrappers
  import opened Text

  /** One player's side of a game. */
  datatype Side = Side(rating: int, result: string, username: string)

  /** A finished game; the fields the dashboard never reads (pgn, fen, rules, ...) are omitted. */
  datatype Game = Game(url: string, timeClass: string, endTime: int, white: Side, black: Side)

  datatype Colour = White | Black

  function Other(c: Colour): Colour {
    if c == White then Black else White
  }

  function SideOf(g: Game, c: Colour): Side {
    if c == White then g.white else g.black
  }

  /** The colour the player played: white when white's name matches ignoring case, black otherwise. */
  function PlayerColour(g: Game, username: string): (c: Colour)
    ensures c == White <==> EqualsIgnoreCase(g.white.username, username)
  {
    if ToLower(g.white.username) == ToLower(username) then White else Black
  }

  /** `getGameResult`: the result tag of the side the player played. */
  function GameResult(g: Game, username: string): (r: string)
    ensures EqualsIgnoreCase(g.white.username, username) ==> r == g.white.result
    ensures !EqualsIgnoreCase(g.white.username, username) ==> r == g.black.result
  {
    SideOf(g, PlayerColour(g, username)).result
  }

  /** The opponent shown beside a game: always the side the player did not play. */
  function Opponent(g: Game, username: string): (o: Side)
    ensures EqualsIgnoreCase(g.white.username, username) ==> o == g.black
    ensures !EqualsIgnoreCase(g.white.username, username) ==> o == g.white
  {
    SideOf(g, Other(PlayerColour(g, username)))
  }

  /**
   * The result and the opponent always come from opposite sides, and the
   * choice does not depend on how the searched name is capitalised.
   */
  lemma ResultAndOpponentOppositeSides(g: Game, username: string)
    ensures (GameResult(g, username) == g.white.result && Opponent(g, username) == g.black)
         || (GameResult(g, username) == g.black.result && Opponent(g, username) == g.white)
    ensures GameResult(g, ToLower(username)) == GameResult(g, username)
    ensures Opponent(g, ToLower(username)) == Opponent(g, username)
  {
    ToLowerIdempotent(username);
  }

  datatype ResultColour = Green | Red | Yellow

  /** Result tags painted as losses. */
  const LossTags: set<string> := {"checkmated", "resigned", "timeout", "abandoned", "lose"}

  /** `getResultColor`: green for a win, red for the five loss tags, yellow for everything else. */
  function ResultColourOf(result: string): (c: ResultColour)
    ensures c == Green <==> result == "win"
    ensures c == Red <==> result in LossTags
    ensures c == Yellow <==> result != "win" && result !in LossTags
  {
    if result == "win" then Green
    else if result in LossTags then Red
    else Yellow
  }

  /** `getResultText`: a label per known tag, and "Draw" for exactly the tags painted yellow. */
  function ResultText(result: string): (t: string)
    ensures t == "Draw" <==> ResultColourOf(result) == Yellow
    ensures ResultColourOf(result) == Green ==> t == "Win"
    ensures result == "lose" ==> t == "Loss"
  {
    if result == "win" then "Win"
    else if result == "checkmated" then "Checkmated"
    else if result == "resigned" then "Resigned"
    else if result == "timeout" then "Timeout"
    else if result == "abandoned" then "Game abandoned"
    else if result == "lose" then "Loss"
    else "Draw"
  }

  /** The labels of distinct known tags are distinct. */
  lemma ResultTextDistinguishesTags(a: string, b: string)
    requires a in LossTags + {"win"} && b in LossTags + {"win"}
    ensures ResultText(a) == ResultText(b) <==> a == b
  {
  }

  function Min(a: int, b: int): int {
    if a <= b then a else b
  }

  function Reverse<T>(s: seq<T>): (r: seq<T>)
    ensures |r| == |s|
    ensures forall i :: 0 <= i < |s| ==> r[i] == s[|s| - 1 - i]
  {
    if |s| == 0 then [] else [s[|s| - 1]] + Reverse(s[..|s| - 1])
  }

  /**
   * `gamesData.games?.slice(-5).reverse() || []`: the last five games (or all
   * of them when fewer), newest first; nothing when the list is missing.
   */
  function RecentGames(games: Option<seq<Game>>): (r: seq<Game>)
    ensures games.None? ==> r == []
    ensures games.Some? ==> |r| == Min(5, |games.value|)
    ensures games.Some? ==> forall i :: 0 <= i < |r| ==> r[i] == games.value[|games.value| - 1 - i]
  {
    match games
    case None => []
    case Some(gs) => Reverse(gs[|gs| - Min(5, |gs|)..])
  }

  ghost predicate Chronological(gs: seq<Game>) {
    forall i, j :: 0 <= i < j < |gs| ==> gs[i].endTime <= gs[j].endTime
  }

  /**
   * Nothing sorts the games: when the archive lists them oldest first, the
   * recent games come out most recent first.
   */
  lemma RecentGamesNewestFirst(gs: seq<Game>)
    requires Chronological(gs)
    ensures forall i, j :: 0 <= i < j < |RecentGames(Some(gs))| ==>
      RecentGames(Some(gs))[i].endTime >= RecentGames(Some(gs))[j].endTime
  {
    var tail := gs[|gs| - Min(5, |gs|)..];
    assert Chronological(tail) by {
      forall i, j | 0 <= i < j < |tail|
        ensures tail[i].endTime <= tail[j].endTime
      {
        var k := |gs| - |tail|;
        assert tail[i] == gs[k + i] && tail[j] == gs[k + j];
      }
    }
    assert RecentGames(Some(gs)) == Reverse(tail);
    ReverseDescends(tail);
  }

  /** Reversing a list in ascending end-time order gives descending order. */
  lemma ReverseDescends(t: seq<Game>)
    requires Chronological(t)
    ensures forall i, j :: 0 <= i < j < |Reverse(t)| ==> Reverse(t)[i].endTime >= Reverse(t)[j].endTime
  {
    var r := Reverse(t);
    forall i, j | 0 <= i < j < |r|
      ensures r[i].endTime >= r[j].endTime
    {
      assert r[i] == t[|t| - 1 - i] && r[j] == t[|t| - 1 - j];
    }
  }

  /** `formatRating`'s choice: no number for a missing or zero rating. */
  datatype RatingLabel = NotAvailable | Grouped(value: int)

  function FormatRating(rating: Option<int>): (l: RatingLabel)
    ensures l.NotAvailable? <==> rating == None || rating == Some(0)
    ensures l.Grouped? ==> rating == Some(l.value)
  {
    if rating.None? || rating.value == 0 then NotAvailable else Grouped(rating.value)
  }

  /** The time-class caption: the three known classes capitalised, any other shown as is. */
  function TimeClassLabel(timeClass: string): (l: string)
    ensures timeClass !in {"rapid", "blitz", "bullet"} ==> l == timeClass
    ensures timeClass in {"rapid", "blitz", "bullet"} ==>
      && |l| == |timeClass| && l[1..] == timeClass[1..]
      && l[0] == (timeClass[0] as int - 32) as char && 'A' <= l[0] <= 'Z'
  {
    if timeClass == "rapid" then "Rapid"
    else if timeClass == "blitz" then "Blitz"
    else if timeClass == "bullet" then "Bullet"
    else timeClass
  }

  const LiveGamePrefix: string := "https://www.chess.com/game/live/"

  /** The "View game" link: the live-game page for the last path segment of the game's URL. */
  function GameLink(g: Game): (link: string)
    ensures |link| >= |LiveGamePrefix| && link[..|LiveGamePrefix|] == LiveGamePrefix
    ensures var id := link[|LiveGamePrefix|..];
      && '/' !in id
      && |id| <= |g.url| && g.url[|g.url| - |id|..] == id
      && (|id| == |g.url| || g.url[|g.url| - |id| - 1] == '/')
  {
    LiveGamePrefix + LastSegment(g.url)
  }
}
