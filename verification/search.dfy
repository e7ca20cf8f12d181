/**
 * The player search panel: the lookup pipeline that turns a typed username
 * into a profile, its statistics and its last games, the error message and
 * hint shown when the lookup fails, and the close button.
 *
 * The six network calls are abstracted into the outcomes they had
 * (`Responses`); `FetchPlayerData` returns the panel's state once the lookup
 * has settled, together with the requests it issued, in order.
 */
module Search {
  import opened Wrappers
  import opened Text
  import opened Http
  import opened Games

  /** The profile endpoint's body, spread as is into the displayed profile. */
  datatype PlayerProfile = PlayerProfile(
    avatar: Option<string>,
    username: string,
    title: Option<string>,
    name: Option<string>,
    followers: int,
    country: string,
    lastOnline: int,
    joined: int,
    isStreamer: bool,
    twitchUrl: Option<string>,
    url: string)

  datatype RatingAt = RatingAt(rating: int, date: int)
  datatype Record = Record(win: int, loss: int, draw: int)
  datatype ModeStats = ModeStats(last: Option<RatingAt>, best: Option<RatingAt>, record: Option<Record>)
  datatype Tactics = Tactics(highest: Option<RatingAt>, lowest: Option<RatingAt>)

  /** The stats endpoint's body, kept verbatim. */
  datatype PlayerStats = PlayerStats(
    rapid: Option<ModeStats>,
    blitz: Option<ModeStats>,
    bullet: Option<ModeStats>,
    tactics: Option<Tactics>)

  /** `{ archives: [url, ...] }`, oldest month first. */
  datatype ArchiveIndex = ArchiveIndex(archives: Option<seq<string>>)
  /** `{ games: [...] }` for one month. */
  datatype ArchiveMonth = ArchiveMonth(games: Option<seq<Game>>)
  /** `{ is_streamer }`; a missing or falsy flag reads as false. */
  datatype StreamerFlag = StreamerFlag(isStreamer: bool)
  /** `{ twitch_url }` */
  datatype TwitchInfo = TwitchInfo(twitchUrl: Option<string>)

  /** How each of the six calls of one lookup would end. */
  datatype Responses = Responses(
    profile: Fetch<PlayerProfile>,
    stats: Fetch<PlayerStats>,
    archives: Fetch<ArchiveIndex>,
    lastArchive: Fetch<ArchiveMonth>,
    streamer: Fetch<StreamerFlag>,
    twitch: Fetch<TwitchInfo>)

  /** A request the lookup issues; `user` is the lowercased query. */
  datatype Request =
    | ProfileRequest(user: string)
    | StatsRequest(user: string)
    | ArchivesRequest(user: string)
    | ArchiveRequest(url: string)
    | StreamerRequest(user: string)
    | TwitchRequest(user: string)

  /** The panel's state: the input box and the five pieces of view state. */
  datatype SearchState = SearchState(
    query: string,
    playerData: Option<PlayerProfile>,
    playerStats: Option<PlayerStats>,
    recentGames: seq<Game>,
    loading: bool,
    error: Option<string>)

  const NotFoundText: string := "Player not found"
  const TimeoutText: string := "Request took too long. Please try again."
  const ConnectionText: string := "Connection problem. Check your internet."
  const GenericText: string := "Error searching player"

  /**
   * The `catch` of the lookup: turns whatever was thrown into the message
   * shown.  The tests run in a fixed order, so "404" in the message wins
   * over an abort, and the result is one of the fixed texts or the thrown
   * message itself.
   */
  function ClassifyError(t: Thrown): (msg: string)
    ensures t.OtherValue? ==> msg == GenericText
    ensures t.ErrorValue? && Contains(t.message, "404") ==> msg == NotFoundText
    ensures t.ErrorValue? && !Contains(t.message, "404") && t.name == "AbortError" ==> msg == TimeoutText
    ensures t.ErrorValue? && !Contains(t.message, "404") && t.name != "AbortError" ==>
      msg == (if Contains(t.message, "Failed to fetch") then ConnectionText else t.message)
    ensures msg in [NotFoundText, TimeoutText, ConnectionText, GenericText] || (t.ErrorValue? && msg == t.message)
  {
    match t
    case OtherValue => GenericText
    case ErrorValue(name, message) =>
      if Contains(message, "404") then NotFoundText
      else if name == "AbortError" then TimeoutText
      else if Contains(message, "Failed to fetch") then ConnectionText
      else message
  }

  /**
   * The message a failed call produces.  The test for "404" comes first and
   * applies to every call, so a 404 from any endpoint reads "Player not
   * found"; an abort reads as a timeout; a rejection reads as a connection
   * problem only when the browser's message is "Failed to fetch"; any other
   * status or body error shows its own message.
   */
  function OutcomeMessage<T>(f: Fetch<T>): (msg: string)
    requires !f.Ok?
    ensures f.HttpError? && 100 <= f.status <= 999 ==>
      msg == (if f.status == 404 then NotFoundText else HttpErrorMessage(f.status))
    ensures f.Aborted? ==>
      msg == (if Contains(f.message, "404") then NotFoundText else TimeoutText)
    ensures f.NetworkFailure? || f.MalformedBody? ==>
      msg == (if Contains(f.message, "404") then NotFoundText
              else if Contains(f.message, "Failed to fetch") then ConnectionText
              else f.message)
  {
    if f.HttpError? && 100 <= f.status <= 999 then
      HttpMessageMentions404(f.status);
      HttpMessageNotFailedToFetch(f.status);
      ClassifyError(TimedFetchThrown(f))
    else
      ClassifyError(TimedFetchThrown(f))
  }

  /** The hint under the error message, as written: plain case-sensitive substring tests. */
  const ConnectionHint: string := "Check your internet connection and try again."
  const BusyHint: string := "The server may be busy. Please try again in a few moments."
  const NameHint: string := "Check if the name is correct and try again."

  function ErrorHint(error: string): (hint: string)
    ensures hint == ConnectionHint <==> Contains(error, "connection")
    ensures hint == BusyHint <==> !Contains(error, "connection") && Contains(error, "try again")
    ensures hint == NameHint <==> !Contains(error, "connection") && !Contains(error, "try again")
  {
    HintsDistinct();
    if Contains(error, "connection") then ConnectionHint
    else if Contains(error, "try again") then BusyHint
    else NameHint
  }

  /** The three hints are different texts. */
  lemma HintsDistinct()
    ensures ConnectionHint != BusyHint && BusyHint != NameHint && ConnectionHint != NameHint
  {
    assert |ConnectionHint| == 45 && |BusyHint| == 58 && |NameHint| == 43;
  }

  /** `clearPlayerData`: the close button empties the panel but keeps the input and the loading flag. */
  function ClearPlayerData(s: SearchState): (r: SearchState)
    ensures r.playerData == None && r.playerStats == None && r.recentGames == [] && r.error == None
    ensures r.query == s.query && r.loading == s.loading
  {
    s.(playerData := None, playerStats := None, recentGames := [], error := None)
  }

  /** The submit button is enabled when no lookup is running and the query is not blank. */
  predicate SubmitEnabled(s: SearchState) {
    !s.loading && !IsBlank(s.query)
  }

  /** The state while a lookup is in flight: loading, with nothing of an earlier lookup left on screen. */
  function Started(s: SearchState): (r: SearchState)
    ensures r.loading && r.error == None && r.playerData == None && r.playerStats == None && r.recentGames == []
    ensures r.query == s.query
  {
    s.(loading := true, error := None, playerData := None, playerStats := None, recentGames := [])
  }

  /** Where the mandatory calls stopped: the message of what was thrown, or the three pieces of data. */
  datatype Mandatory =
    | Failed(message: string, requests: seq<Request>)
    | Fetched(profile: PlayerProfile, stats: PlayerStats, games: seq<Game>, requests: seq<Request>)

  /** The archive index names at least one month, so the last month is fetched. */
  predicate NeedsLastArchive(env: Responses) {
    env.archives.Ok? && env.archives.body.archives.Some? && |env.archives.body.archives.value| > 0
  }

  /** Some mandatory call, among those actually issued, failed. */
  predicate MandatoryFails(env: Responses) {
    || !env.profile.Ok?
    || !env.stats.Ok?
    || !env.archives.Ok?
    || (NeedsLastArchive(env) && !env.lastArchive.Ok?)
  }

  /** The message of the first mandatory call that failed, in call order. */
  function FirstFailureMessage(env: Responses): string
    requires MandatoryFails(env)
  {
    if !env.profile.Ok? then OutcomeMessage(env.profile)
    else if !env.stats.Ok? then OutcomeMessage(env.stats)
    else if !env.archives.Ok? then OutcomeMessage(env.archives)
    else OutcomeMessage(env.lastArchive)
  }

  /** Profile, stats, archive index and (when there is one) the last month, in that order; the first failure ends it. */
  function MandatoryCalls(user: string, env: Responses): (m: Mandatory)
    ensures m.Failed? <==> MandatoryFails(env)
    ensures m.Failed? ==> m.message == FirstFailureMessage(env)
    ensures m.Fetched? ==>
      m.profile == env.profile.body && m.stats == env.stats.body && m.games == RecentGames(MonthGames(env))
  {
    var r1 := [ProfileRequest(user)];
    if !env.profile.Ok? then Failed(OutcomeMessage(env.profile), r1)
    else
      var r2 := r1 + [StatsRequest(user)];
      if !env.stats.Ok? then Failed(OutcomeMessage(env.stats), r2)
      else
        var r3 := r2 + [ArchivesRequest(user)];
        if !env.archives.Ok? then Failed(OutcomeMessage(env.archives), r3)
        else if !NeedsLastArchive(env) then Fetched(env.profile.body, env.stats.body, [], r3)
        else
          var months := env.archives.body.archives.value;
          var r4 := r3 + [ArchiveRequest(months[|months| - 1])];
          if !env.lastArchive.Ok? then Failed(OutcomeMessage(env.lastArchive), r4)
          else Fetched(env.profile.body, env.stats.body, RecentGames(env.lastArchive.body.games), r4)
  }

  /** The best-effort streamer calls: the twitch link they found, if any, and the requests issued. */
  datatype StreamerInfo = StreamerInfo(twitchUrl: Option<Option<string>>, requests: seq<Request>)

  /**
   * Is-streamer, then twitch only for a streamer; a failure of either is
   * swallowed.  A successful twitch call yields its `twitch_url`, present or
   * not.
   */
  function StreamerCalls(user: string, env: Responses): (x: StreamerInfo)
    ensures x.twitchUrl.Some? <==> env.streamer.Ok? && env.streamer.body.isStreamer && env.twitch.Ok?
    ensures x.twitchUrl.Some? ==> x.twitchUrl.value == env.twitch.body.twitchUrl
  {
    var r1 := [StreamerRequest(user)];
    if env.streamer.Ok? && env.streamer.body.isStreamer then
      var r2 := r1 + [TwitchRequest(user)];
      if env.twitch.Ok? then StreamerInfo(Some(env.twitch.body.twitchUrl), r2)
      else StreamerInfo(None, r2)
    else StreamerInfo(None, r1)
  }

  /** `{...profileData, ...additionalInfo}`: the twitch field, when fetched, overrides the profile's own. */
  function Merge(profile: PlayerProfile, twitchUrl: Option<Option<string>>): (p: PlayerProfile)
    ensures p.(twitchUrl := profile.twitchUrl) == profile
    ensures p.twitchUrl == (if twitchUrl.Some? then twitchUrl.value else profile.twitchUrl)
  {
    match twitchUrl
    case None => profile
    case Some(u) => profile.(twitchUrl := u)
  }

  /** What one lookup leaves on screen once it settles, and the requests it made. */
  datatype Settled = Settled(
    playerData: Option<PlayerProfile>,
    playerStats: Option<PlayerStats>,
    recentGames: seq<Game>,
    error: Option<string>,
    requests: seq<Request>)

  /** The body of the `try`/`catch` for the lowercased query `user`. */
  function RunLookup(user: string, env: Responses): (o: Settled)
    ensures o.error.Some? <==> MandatoryFails(env)
    ensures o.error.Some? ==> o.error.value == FirstFailureMessage(env)
    ensures o.error.Some? ==> o.playerData == None && o.playerStats == None && o.recentGames == []
    ensures o.error.None? ==> o.playerData.Some? && o.playerStats == Some(env.stats.body)
    ensures |o.requests| >= 1 && o.requests[0] == ProfileRequest(user)
  {
    match MandatoryCalls(user, env)
    case Failed(message, requests) =>
      Settled(None, None, [], Some(message), requests)
    case Fetched(profile, stats, games, requests) =>
      var extra := StreamerCalls(user, env);
      Settled(Some(Merge(profile, extra.twitchUrl)), Some(stats), games, None, requests + extra.requests)
  }

  /** The settled state of one lookup and the requests it made. */
  datatype Lookup = Lookup(state: SearchState, requests: seq<Request>)

  /**
   * `fetchPlayerData`, from the click to the `finally`: a blank query does
   * nothing; otherwise the panel starts over (`Started`) and ends with the
   * lookup's result and loading off.
   */
  function FetchPlayerData(s: SearchState, env: Responses): (r: Lookup)
    ensures IsBlank(s.query) ==> r.state == s && r.requests == []
    ensures !IsBlank(s.query) ==> !r.state.loading && r.state.query == s.query
    ensures !IsBlank(s.query) ==> |r.requests| >= 1 && r.requests[0] == ProfileRequest(ToLower(s.query))
  {
    if IsBlank(s.query) then Lookup(s, [])
    else
      var o := RunLookup(ToLower(s.query), env);
      var pending := Started(s);
      Lookup(
        pending.(playerData := o.playerData, playerStats := o.playerStats,
                 recentGames := o.recentGames, error := o.error, loading := false),
        o.requests)
  }

  // ---------------------------------------------------------------------------
  // Properties of the lookup
  // ---------------------------------------------------------------------------

  /** A blank query changes nothing and consults no outcome at all. */
  lemma BlankQueryIsNoOp(s: SearchState, env1: Responses, env2: Responses)
    requires IsBlank(s.query)
    ensures FetchPlayerData(s, env1) == FetchPlayerData(s, env2) == Lookup(s, [])
  {
  }

  /**
   * With no lookup running, the button is enabled exactly when a click
   * would issue requests: a blank query, which disables it, would do
   * nothing anyway.
   */
  lemma SubmitEnabledIffLookupRuns(s: SearchState, env: Responses)
    requires !s.loading
    ensures SubmitEnabled(s) <==> FetchPlayerData(s, env).requests != []
  {
  }

  /**
   * A lookup fails exactly when a mandatory call fails; then nothing of the
   * player is shown and an error is, and otherwise the profile and stats are
   * shown and no error is.  Loading is over either way.
   */
  lemma FailsIffMandatoryCallFails(s: SearchState, env: Responses)
    requires !IsBlank(s.query)
    ensures var st := FetchPlayerData(s, env).state;
      && (st.error.Some? <==> MandatoryFails(env))
      && (MandatoryFails(env) ==>
            st.error == Some(FirstFailureMessage(env)) &&
            st.playerData == None && st.playerStats == None && st.recentGames == [] && !st.loading)
      && (!MandatoryFails(env) ==>
            st.playerData.Some? && st.playerStats == Some(env.stats.body) && !st.loading)
  {
    LookupSettles(s, env);
  }

  /**
   * A 404 from whichever mandatory call fails first reads "Player not
   * found" - not only from the profile call.
   */
  lemma NotFoundFromAnyMandatoryCall(s: SearchState, env: Responses)
    requires !IsBlank(s.query)
    requires
      || env.profile == HttpError(404)
      || (env.profile.Ok? && env.stats == HttpError(404))
      || (env.profile.Ok? && env.stats.Ok? && env.archives == HttpError(404))
      || (env.profile.Ok? && env.stats.Ok? && NeedsLastArchive(env) && env.lastArchive == HttpError(404))
    ensures FetchPlayerData(s, env).state.error == Some(NotFoundText)
    ensures FetchPlayerData(s, env).state.playerData == None
  {
    var m := MandatoryCalls(ToLower(s.query), env);
    assert m.Failed? && m.message == NotFoundText;
  }

  /** A failing stats call with any other status shows the raw status message. */
  lemma StatsFailureShowsStatus(s: SearchState, env: Responses, status: nat)
    requires !IsBlank(s.query)
    requires env.profile.Ok? && env.stats == HttpError(status)
    requires 100 <= status <= 999 && status != 404
    ensures FetchPlayerData(s, env).state.error == Some(HttpErrorMessage(status))
  {
    var m := MandatoryCalls(ToLower(s.query), env);
    assert m.Failed? && m.message == HttpErrorMessage(status);
  }

  /**
   * The streamer calls never surface an error nor change the stats or the
   * games; they only decide the profile's twitch link.  Every other profile field is the profile
   * endpoint's, unchanged.
   */
  lemma StreamerCallsAreBestEffort(s: SearchState, env: Responses, streamer: Fetch<StreamerFlag>, twitch: Fetch<TwitchInfo>)
    requires !IsBlank(s.query)
    ensures var a := FetchPlayerData(s, env).state;
            var b := FetchPlayerData(s, env.(streamer := streamer, twitch := twitch)).state;
      && a.error == b.error && a.playerStats == b.playerStats && a.recentGames == b.recentGames
      && a.playerData.Some? == b.playerData.Some?
      && (a.playerData.Some? ==> a.playerData.value.(twitchUrl := None) == b.playerData.value.(twitchUrl := None))
  {
    var env2 := env.(streamer := streamer, twitch := twitch);
    LookupSettles(s, env);
    LookupSettles(s, env2);
    StreamerOutcomesOnlyTouchTwitch(ToLower(s.query), env, env2);
  }

  /** `StreamerCallsAreBestEffort` on the `try` body alone. */
  lemma StreamerOutcomesOnlyTouchTwitch(user: string, env: Responses, env2: Responses)
    requires env2.profile == env.profile && env2.stats == env.stats
    requires env2.archives == env.archives && env2.lastArchive == env.lastArchive
    ensures var a := RunLookup(user, env);
            var b := RunLookup(user, env2);
      && a.error == b.error && a.playerStats == b.playerStats && a.recentGames == b.recentGames
      && a.playerData.Some? == b.playerData.Some?
      && (a.playerData.Some? ==> a.playerData.value.(twitchUrl := None) == b.playerData.value.(twitchUrl := None))
  {
    var m := MandatoryCalls(user, env);
    assert MandatoryCalls(user, env2) == m;
  }

  /** A non-blank lookup ends in `Started`'s state overwritten by what the `try` body settled on. */
  lemma LookupSettles(s: SearchState, env: Responses)
    requires !IsBlank(s.query)
    ensures var o := RunLookup(ToLower(s.query), env);
      && FetchPlayerData(s, env).state == s.(playerData := o.playerData, playerStats := o.playerStats,
                                            recentGames := o.recentGames, error := o.error, loading := false)
      && FetchPlayerData(s, env).requests == o.requests
  {
  }

  /**
   * After a successful lookup the profile is the profile endpoint's body,
   * except that its twitch link is the twitch endpoint's exactly when the
   * player is flagged a streamer and the twitch call succeeded.
   */
  lemma ProfileIsMergedResponse(s: SearchState, env: Responses)
    requires !IsBlank(s.query) && !MandatoryFails(env)
    ensures var p := FetchPlayerData(s, env).state.playerData;
      && p.Some?
      && p.value.(twitchUrl := env.profile.body.twitchUrl) == env.profile.body
      && p.value.twitchUrl ==
           (if env.streamer.Ok? && env.streamer.body.isStreamer && env.twitch.Ok?
            then env.twitch.body.twitchUrl else env.profile.body.twitchUrl)
  {
    LookupSettles(s, env);
  }

  /**
   * The games list of the month the lookup reads: none when the archive
   * index is missing or empty, when that month's call failed, or when its
   * body has no games list.
   */
  function MonthGames(env: Responses): (g: Option<seq<Game>>)
    ensures g.Some? <==> NeedsLastArchive(env) && env.lastArchive.Ok? && env.lastArchive.body.games.Some?
    ensures g.Some? ==> g == env.lastArchive.body.games
  {
    if NeedsLastArchive(env) && env.lastArchive.Ok? then env.lastArchive.body.games else None
  }

  /**
   * The recent games are the last month's last five, newest first, and
   * there are none when the archive index is missing or empty.
   */
  lemma RecentGamesFromLastMonth(s: SearchState, env: Responses)
    requires !IsBlank(s.query) && !MandatoryFails(env)
    ensures var games := FetchPlayerData(s, env).state.recentGames;
            var month := MonthGames(env);
      && |games| <= 5
      && (month.None? ==> games == [])
      && (month.Some? ==>
            |games| == Min(5, |month.value|) &&
            forall i :: 0 <= i < |games| ==> games[i] == month.value[|month.value| - 1 - i])
  {
    LookupSettles(s, env);
    LookupGames(ToLower(s.query), env);
  }

  /** The games a successful lookup settles on, stated on the `try` body alone. */
  lemma LookupGames(user: string, env: Responses)
    requires !MandatoryFails(env)
    ensures RunLookup(user, env).recentGames == RecentGames(MonthGames(env))
  {
    var m := MandatoryCalls(user, env);
    assert RunLookup(user, env).recentGames == m.games;
  }

  /** The URLs of the archive months requested, in order. */
  function ArchiveUrls(reqs: seq<Request>): seq<string> {
    if |reqs| == 0 then []
    else (if reqs[0].ArchiveRequest? then [reqs[0].url] else []) + ArchiveUrls(reqs[1..])
  }

  /** How many times the twitch endpoint was requested. */
  function TwitchCount(reqs: seq<Request>): nat {
    if |reqs| == 0 then 0
    else (if reqs[0].TwitchRequest? then 1 else 0) + TwitchCount(reqs[1..])
  }

  lemma {:induction false} LogAppend(a: seq<Request>, b: seq<Request>)
    ensures ArchiveUrls(a + b) == ArchiveUrls(a) + ArchiveUrls(b)
    ensures TwitchCount(a + b) == TwitchCount(a) + TwitchCount(b)
  {
    if |a| == 0 {
      assert a + b == b;
    } else {
      assert (a + b)[1..] == a[1..] + b;
      LogAppend(a[1..], b);
    }
  }

  /** The last month of a non-empty archive index. */
  function LastMonth(env: Responses): string
    requires NeedsLastArchive(env)
  {
    var months := env.archives.body.archives.value;
    months[|months| - 1]
  }

  /**
   * Of the archive index only the last month is ever requested, once, and
   * only when the profile, stats and index calls succeeded; the twitch
   * endpoint is requested once for a player flagged a streamer and never
   * otherwise.
   */
  lemma RequestsIssued(user: string, env: Responses)
    ensures var reqs := RunLookup(user, env).requests;
      && ArchiveUrls(reqs) ==
           (if env.profile.Ok? && env.stats.Ok? && NeedsLastArchive(env) then [LastMonth(env)] else [])
      && TwitchCount(reqs) ==
           (if !MandatoryFails(env) && env.streamer.Ok? && env.streamer.body.isStreamer then 1 else 0)
  {
    var m := MandatoryCalls(user, env);
    var x := StreamerCalls(user, env);
    LogAppend(m.requests, x.requests);
    var r1 := [ProfileRequest(user)];
    var r2 := r1 + [StatsRequest(user)];
    var r3 := r2 + [ArchivesRequest(user)];
    LogAppend(r1, [StatsRequest(user)]);
    LogAppend(r2, [ArchivesRequest(user)]);
    if NeedsLastArchive(env) {
      LogAppend(r3, [ArchiveRequest(LastMonth(env))]);
    }
    LogAppend([StreamerRequest(user)], [TwitchRequest(user)]);
  }

  /**
   * The query is lowercased for the requests but not trimmed: a query that
   * differs only in case makes the same requests with the same outcome.
   */
  lemma QueryCaseIrrelevant(s: SearchState, q: string, env: Responses)
    requires ToLower(q) == ToLower(s.query)
    ensures FetchPlayerData(s.(query := q), env).requests == FetchPlayerData(s, env).requests
    ensures FetchPlayerData(s.(query := q), env).state.(query := s.query)
         == (if IsBlank(s.query) then s else FetchPlayerData(s, env).state)
  {
    BlankToLower(q);
    BlankToLower(s.query);
  }

  /** " Hikaru" has a non-space character, so it is not blank. */
  lemma HikaruNotBlank(q: string)
    requires q == " Hikaru"
    ensures !IsBlank(q)
  {
    assert !IsWhitespace(q[1]);
    BlankIffAllWhitespace(q);
  }

  /** " Hikaru" lowercases to " hikaru", leading space kept. */
  lemma HikaruLowered(q: string)
    requires q == " Hikaru"
    ensures ToLower(q) == " hikaru"
  {
    var l := ToLower(q);
    forall k | 0 <= k < 7
      ensures l[k] == " hikaru"[k]
    {
      assert l[k] == Lower(q[k]);
    }
  }

  /** Surrounding spaces reach the request path: " Hikaru" asks for " hikaru". */
  lemma QueryNotTrimmed(s: SearchState, env: Responses)
    requires s.query == " Hikaru"
    ensures !IsBlank(s.query) && FetchPlayerData(s, env).requests[0] == ProfileRequest(" hikaru")
  {
    HikaruNotBlank(s.query);
    HikaruLowered(s.query);
  }

  // ---------------------------------------------------------------------------
  // The error hint
  // ---------------------------------------------------------------------------

  lemma ConnectionTextLacksLowerConnection()
    ensures !Contains(ConnectionText, "connection")
  {
    ExcludedByFirstPair(ConnectionText, "connection");
  }

  lemma ConnectionTextLacksTryAgain()
    ensures !Contains(ConnectionText, "try again")
  {
    ExcludedByFirstPair(ConnectionText, "try again");
  }

  lemma TimeoutTextLacksConnection()
    ensures !Contains(TimeoutText, "connection")
  {
    ExcludedByFirstPair(TimeoutText, "connection");
  }

  lemma TimeoutTextHasTryAgain()
    ensures Contains(TimeoutText, "try again")
  {
    assert TimeoutText[30..39] == "try again";
    OccursThenContains(TimeoutText, "try again", 30);
  }

  lemma NotFoundTextLacksConnection()
    ensures !Contains(NotFoundText, "connection")
  {
    ExcludedByFirstPair(NotFoundText, "connection");
  }

  lemma NotFoundTextLacksTryAgain()
    ensures !Contains(NotFoundText, "try again")
  {
    ExcludedByFirstPair(NotFoundText, "try again");
  }

  /**
   * As written, the connection message never gets the connection hint: it
   * says "Connection" with a capital C, and it holds no "try again" either,
   * so it falls through to the hint about the name.
   */
  lemma ConnectionTextGetsNameHint()
    ensures ErrorHint(ConnectionText) == NameHint
  {
    ConnectionTextLacksLowerConnection();
    ConnectionTextLacksTryAgain();
  }

  /** The browser's "Failed to fetch" rejection reads as the connection message. */
  lemma FailedToFetchIsConnectionProblem(m: string)
    requires m == "Failed to fetch"
    ensures OutcomeMessage<PlayerProfile>(NetworkFailure(m)) == ConnectionText
  {
    FailedToFetchLacks404(m);
    FailedToFetchFound(m);
  }

  lemma FailedToFetchFound(m: string)
    requires m == "Failed to fetch"
    ensures Contains(m, "Failed to fetch")
  {
    assert m[0..|m|] == m;
    OccursThenContains(m, m, 0);
  }

  lemma FailedToFetchLacks404(m: string)
    requires m == "Failed to fetch"
    ensures !Contains(m, "404")
  {
    assert '4' !in m;
    ExcludedByFirstChar(m, "404");
  }

  /**
   * End to end: when the profile call is rejected with "Failed to fetch",
   * the panel shows the connection message under the hint about the name.
   */
  lemma RejectedLookupGetsNameHint(s: SearchState, env: Responses)
    requires !IsBlank(s.query)
    requires env.profile == NetworkFailure("Failed to fetch")
    ensures FetchPlayerData(s, env).state.error == Some(ConnectionText)
    ensures ErrorHint(FetchPlayerData(s, env).state.error.value) == NameHint
  {
    FailsIffMandatoryCallFails(s, env);
    FailedToFetchIsConnectionProblem(env.profile.message);
    ConnectionTextGetsNameHint();
  }

  /** The timeout message gets the busy-server hint, as meant. */
  lemma TimeoutTextGetsBusyHint()
    ensures ErrorHint(TimeoutText) == BusyHint
  {
    TimeoutTextLacksConnection();
    TimeoutTextHasTryAgain();
  }

  /** "Player not found" gets the hint about the name, as meant. */
  lemma NotFoundTextGetsNameHint()
    ensures ErrorHint(NotFoundText) == NameHint
  {
    NotFoundTextLacksConnection();
    NotFoundTextLacksTryAgain();
  }

  /** The hint as evidently intended: the same tests, ignoring case. */
  function IntendedErrorHint(error: string): (hint: string)
    ensures hint == ConnectionHint <==> Contains(ToLower(error), "connection")
    ensures hint == BusyHint <==> !Contains(ToLower(error), "connection") && Contains(ToLower(error), "try again")
    ensures hint == NameHint <==> !Contains(ToLower(error), "connection") && !Contains(ToLower(error), "try again")
  {
    HintsDistinct();
    var e := ToLower(error);
    if Contains(e, "connection") then ConnectionHint
    else if Contains(e, "try again") then BusyHint
    else NameHint
  }

  /** The intended hint depends only on the lowercased message. */
  lemma IntendedHintIgnoresCase(a: string, b: string)
    requires ToLower(a) == ToLower(b)
    ensures IntendedErrorHint(a) == IntendedErrorHint(b)
  {
  }

  lemma LoweredConnectionTextHasConnection()
    ensures Contains(ToLower(ConnectionText), "connection")
  {
    var l := ToLower(ConnectionText);
    forall k | 0 <= k < 10
      ensures l[k] == "connection"[k]
    {
      assert l[k] == Lower(ConnectionText[k]);
    }
    assert l[0..10] == "connection";
    OccursThenContains(l, "connection", 0);
  }

  lemma LoweredTimeoutTextLacksConnection()
    ensures !Contains(ToLower(TimeoutText), "connection")
  {
    TimeoutTextLacksC();
    LowerAvoids(TimeoutText, 'c');
    ExcludedByFirstChar(ToLower(TimeoutText), "connection");
  }

  lemma TimeoutTextLacksC()
    ensures 'c' !in TimeoutText && 'C' !in TimeoutText
  {
  }

  lemma LoweredTimeoutTextHasTryAgain()
    ensures Contains(ToLower(TimeoutText), "try again")
  {
    var l := ToLower(TimeoutText);
    forall k | 0 <= k < 9
      ensures l[30 + k] == "try again"[k]
    {
      assert l[30 + k] == Lower(TimeoutText[30 + k]);
    }
    assert l[30..39] == "try again";
    OccursThenContains(l, "try again", 30);
  }

  lemma LoweredNotFoundTextLacksConnection()
    ensures !Contains(ToLower(NotFoundText), "connection")
  {
    ExcludedByFirstPair(ToLower(NotFoundText), "connection");
  }

  lemma LoweredNotFoundTextLacksTryAgain()
    ensures !Contains(ToLower(NotFoundText), "try again")
  {
    ExcludedByFirstPair(ToLower(NotFoundText), "try again");
  }

  /** With case ignored, each of the three classified messages gets the hint written for it. */
  lemma IntendedHintMatchesCategory()
    ensures IntendedErrorHint(ConnectionText) == ConnectionHint
    ensures IntendedErrorHint(TimeoutText) == BusyHint
    ensures IntendedErrorHint(NotFoundText) == NameHint
  {
    LoweredConnectionTextHasConnection();
    LoweredTimeoutTextLacksConnection();
    LoweredTimeoutTextHasTryAgain();
    LoweredNotFoundTextLacksConnection();
    LoweredNotFoundTextLacksTryAgain();
  }
}
