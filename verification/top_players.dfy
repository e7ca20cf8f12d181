/**
 * The top-players widget: the leaderboards fetched on mount, cut down to
 * the first three players of the live blitz, rapid and bullet boards, shown
 * one category at a time.
 */
module TopPlayers {
  import opened Wrappers
  import opened Text
  import opened Http
  import Country

  /** A leaderboard entry; the fields the widget never reads are omitted. */
  datatype ChessPlayer = ChessPlayer(
    username: string,
    score: int,
    rank: int,
    title: Option<string>,
    country: Option<string>,
    avatar: Option<string>)

  /** The leaderboards body: one array per board name (`live_blitz`, `daily`, `tactics`, ...). */
  type Leaderboards = map<string, seq<ChessPlayer>>

  datatype Category = Blitz | Rapid | Bullet

  /** The board each category is read from. */
  function SourceBoard(c: Category): string {
    match c
    case Blitz => "live_blitz"
    case Rapid => "live_rapid"
    case Bullet => "live_bullet"
  }

  /** The players shown per category. */
  datatype Podiums = Podiums(blitz: seq<ChessPlayer>, rapid: seq<ChessPlayer>, bullet: seq<ChessPlayer>) {
    function Of(c: Category): seq<ChessPlayer> {
      match c
      case Blitz => blitz
      case Rapid => rapid
      case Bullet => bullet
    }
  }

  const Empty: Podiums := Podiums([], [], [])

  /** `board?.slice(0, 3) || []` */
  function FirstThree(board: Option<seq<ChessPlayer>>): (r: seq<ChessPlayer>)
    ensures board.None? ==> r == []
    ensures board.Some? ==> r <= board.value && |r| == (if |board.value| < 3 then |board.value| else 3)
  {
    match board
    case None => []
    case Some(players) => if |players| <= 3 then players else players[..3]
  }

  function Board(data: Leaderboards, name: string): Option<seq<ChessPlayer>> {
    if name in data then Some(data[name]) else None
  }

  /**
   * The podium of each category is a prefix of at most three players of its
   * own board - all three when the board has that many - and empty when the
   * board is missing.
   */
  function TopThree(data: Leaderboards): (p: Podiums)
    ensures forall c: Category :: |p.Of(c)| <= 3
    ensures forall c: Category :: SourceBoard(c) !in data ==> p.Of(c) == []
    ensures forall c: Category :: SourceBoard(c) in data ==>
      p.Of(c) <= data[SourceBoard(c)] &&
      |p.Of(c)| == (if |data[SourceBoard(c)]| < 3 then |data[SourceBoard(c)]| else 3)
  {
    Podiums(
      FirstThree(Board(data, SourceBoard(Blitz))),
      FirstThree(Board(data, SourceBoard(Rapid))),
      FirstThree(Board(data, SourceBoard(Bullet))))
  }

  /** Only the three live boards matter: every other board of the response is ignored. */
  lemma OnlyLiveBoardsMatter(a: Leaderboards, b: Leaderboards)
    requires forall c: Category :: Board(a, SourceBoard(c)) == Board(b, SourceBoard(c))
    ensures TopThree(a) == TopThree(b)
  {
    assert Board(a, SourceBoard(Blitz)) == Board(b, SourceBoard(Blitz));
    assert Board(a, SourceBoard(Rapid)) == Board(b, SourceBoard(Rapid));
    assert Board(a, SourceBoard(Bullet)) == Board(b, SourceBoard(Bullet));
  }

  /** The widget's state. */
  datatype TopState = TopState(players: Podiums, loading: bool, error: Option<string>, active: Category)

  const Initial: TopState := TopState(Empty, true, None, Blitz)

  const FetchFailedText: string := "Falha ao buscar dados do leaderboard"
  const UnknownErrorText: string := "Erro desconhecido"

  /** The `catch`: an `Error`'s message, or a fixed text for any other thrown value. */
  function CaughtMessage(t: Thrown): (msg: string)
    ensures t.ErrorValue? ==> msg == t.message
    ensures t.OtherValue? ==> msg == UnknownErrorText
  {
    match t
    case ErrorValue(_, message) => message
    case OtherValue => UnknownErrorText
  }

  /** What the leaderboards call throws: its own `Error` for a non-ok status, else the rejection as is. */
  function LeaderboardThrown(f: Fetch<Leaderboards>): (t: Thrown)
    requires !f.Ok?
    ensures t.ErrorValue?
    ensures f.HttpError? ==> t.message == FetchFailedText
    ensures !f.HttpError? ==> t.message == f.message
  {
    match f
    case HttpError(_) => ErrorValue("Error", FetchFailedText)
    case Aborted(m) => ErrorValue("AbortError", m)
    case NetworkFailure(m) => ErrorValue("TypeError", m)
    case MalformedBody(m) => ErrorValue("SyntaxError", m)
  }

  /**
   * `fetchTopPlayers`: on success the podiums are replaced and loading ends;
   * on failure the error is the thrown message, the podiums stay as they
   * were, and loading ends too.
   */
  function ReceiveLeaderboards(s: TopState, outcome: Fetch<Leaderboards>): (r: TopState)
    ensures !r.loading && r.active == s.active
    ensures outcome.Ok? ==> r.players == TopThree(outcome.body) && r.error == s.error
    ensures outcome.HttpError? ==> r.players == s.players && r.error == Some(FetchFailedText)
    ensures !outcome.Ok? && !outcome.HttpError? ==> r.players == s.players && r.error == Some(outcome.message)
  {
    if outcome.Ok? then s.(players := TopThree(outcome.body), loading := false)
    else s.(error := Some(CaughtMessage(LeaderboardThrown(outcome))), loading := false)
  }

  /** Clicking a tab selects that category and nothing else. */
  function SelectCategory(s: TopState, c: Category): (r: TopState)
    ensures r.active == c && r.players == s.players && r.loading == s.loading && r.error == s.error
  {
    s.(active := c)
  }

  /** The circle of a card: the avatar, or a number in its place. */
  datatype Badge = AvatarImage(url: string) | RankNumber(n: int)

  /** The avatar when it is a non-empty string; otherwise `rank || index + 1`. */
  function BadgeOf(p: ChessPlayer, index: nat): (b: Badge)
    ensures b.AvatarImage? <==> p.avatar.Some? && p.avatar.value != ""
    ensures b.AvatarImage? ==> b.url == p.avatar.value
    ensures b.RankNumber? ==> b.n == (if p.rank != 0 then p.rank else index + 1)
    ensures b.RankNumber? ==> b.n != 0 || p.rank == 0
  {
    if p.avatar.Some? && p.avatar.value != "" then AvatarImage(p.avatar.value)
    else if p.rank != 0 then RankNumber(p.rank)
    else RankNumber(index + 1)
  }

  /** Without an avatar a zero rank never shows: the card's position stands in for it. */
  lemma BadgeNeverZero(p: ChessPlayer, index: nat)
    requires BadgeOf(p, index).RankNumber?
    ensures BadgeOf(p, index).n != 0
    ensures p.rank == 0 ==> BadgeOf(p, index).n == index + 1
  {
  }

  /** The title line: the player's title, or "N/A" when it is missing or empty. */
  function TitleText(p: ChessPlayer): (t: string)
    ensures t != ""
    ensures p.title.Some? && p.title.value != "" ==> t == p.title.value
    ensures p.title.None? || p.title.value == "" ==> t == "N/A"
  {
    match p.title
    case Some(title) => if title != "" then title else "N/A"
    case None => "N/A"
  }

  /** A card as the widget draws it. */
  datatype Card = Card(username: string, badge: Badge, title: string, flag: Option<string>, score: int)

  /** The flag row is drawn only for a non-empty country, with the same flag rule as the search panel. */
  function CardOf(p: ChessPlayer, index: nat): (c: Card)
    ensures c.flag.Some? <==> p.country.Some? && p.country.value != ""
    ensures c.flag.Some? ==> c.flag.value == Country.FlagUrl(p.country.value)
    ensures c.badge == BadgeOf(p, index) && c.title == TitleText(p)
    ensures c.username == p.username && c.score == p.score
  {
    var flag := if p.country.Some? && p.country.value != "" then Some(Country.FlagUrl(p.country.value)) else None;
    Card(p.username, BadgeOf(p, index), TitleText(p), flag, p.score)
  }

  function Cards(players: seq<ChessPlayer>): (cs: seq<Card>)
    ensures |cs| == |players|
    ensures forall i :: 0 <= i < |players| ==> cs[i] == CardOf(players[i], i)
  {
    seq(|players|, i requires 0 <= i < |players| => CardOf(players[i], i))
  }

  datatype Screen = Spinner | ErrorScreen(message: string) | CardRow(cards: seq<Card>)

  /** The spinner while loading; the error when it is a non-empty string; else the active category's cards. */
  function View(s: TopState): (v: Screen)
    ensures v == Spinner <==> s.loading
    ensures v.ErrorScreen? <==> !s.loading && s.error.Some? && s.error.value != ""
    ensures v.CardRow? ==> v.cards == Cards(s.players.Of(s.active))
    ensures v.CardRow? ==> |v.cards| == |s.players.Of(s.active)|
  {
    if s.loading then Spinner
    else if s.error.Some? && s.error.value != "" then ErrorScreen(s.error.value)
    else CardRow(Cards(s.players.Of(s.active)))
  }

  /** After the first fetch succeeds the widget shows at most three blitz cards. */
  lemma FirstLoadShowsBlitzPodium(data: Leaderboards)
    ensures var v := View(ReceiveLeaderboards(Initial, Ok(data)));
      v.CardRow? && |v.cards| <= 3 && |v.cards| == |FirstThree(Board(data, "live_blitz"))|
  {
  }

  /**
   * After a failed first fetch the error screen shows the status text or the
   * thrown message; a rejection with an empty message is falsy, so the
   * (empty) blitz card row shows instead.
   */
  lemma FirstLoadFailureShowsError(outcome: Fetch<Leaderboards>)
    requires !outcome.Ok?
    ensures outcome.HttpError? ==> View(ReceiveLeaderboards(Initial, outcome)) == ErrorScreen(FetchFailedText)
    ensures !outcome.HttpError? && outcome.message != "" ==>
      View(ReceiveLeaderboards(Initial, outcome)) == ErrorScreen(outcome.message)
    ensures !outcome.HttpError? && outcome.message == "" ==>
      View(ReceiveLeaderboards(Initial, outcome)) == CardRow([])
  {
  }
}
