# chess-stats dashboard: a Dafny model of its decision logic

The dashboard shows chess.com player data in the browser. Almost all of it is markup and network calls. The part with real decisions is modelled here:

- **Player search** (`src/components/Search.tsx`). Typing a username runs a lookup. It calls the profile, stats and game-archive endpoints, then the most recent monthly archive, then the best-effort is-streamer and twitch endpoints. It merges the answers into one view state, or turns the first mandatory failure into a message and a hint. The panel's helpers are modelled too: the game result, opponent, result colour and label, flag URL, rating label and game link.
- **Live streamers** (`src/components/Streamers.tsx`). The streamer list is filtered to live streamers and mapped to the widget's records. The first nine are shown, with a toggle to show all of them. Each card's link and viewer caption are modelled too.
- **Top players** (`src/components/TopPlayers.tsx`). The leaderboards are cut to the top three of the live blitz, rapid and bullet boards. The error handling, the rank badge and the title fallback are modelled too.

No network call is performed. Each call is an abstract outcome, `Http.Fetch<T>`: `Ok(body)`, `HttpError(status)`, `Aborted(message)`, `NetworkFailure(message)` or `MalformedBody(message)`. The last three carry the message the browser supplies, because the error classification reads it. `Search.FetchPlayerData` takes the outcomes of all six calls (`Search.Responses`). It returns the settled panel state together with the list of requests issued, in order. That list is how the model states which calls happen, for example that only the last archive month is fetched.

Files, one module each: `wrappers.dfy` (Option), `text.dfy` (trim, lowercase, `includes`, `split('/').pop()`, decimal rendering), `http.dfy` (fetch outcomes and thrown values), `games.dfy`, `country.dfy`, `search.dfy`, `streamers.dfy`, `top_players.dfy`.

Some behaviours of the code are easy to misread. The model keeps them as written:

- The query is lowercased but not trimmed before it goes into the request paths. Trimming is only used to decide whether the query is blank. See `Search.QueryNotTrimmed`.
- The "404 → Player not found" rule applies to a 404 from any mandatory call, not only the profile call. It is a substring test on the thrown message.
- A failed stats call aborts the lookup, like a failed profile call.
- Recent games are the last five of the archive in reverse order. Nothing sorts them, so "most recent first" holds only when the archive is chronological (`Games.RecentGamesNewestFirst`).

## Model

| member | source | states |
|---|---|---|
| Text.TrimStart | src/components/Search.tsx:120 | the result is the suffix of the input after its leading whitespace (ECMAScript's set), and does not start with whitespace |
| Text.TrimEnd | src/components/Search.tsx:120 | the result is the prefix before the trailing whitespace, and does not end with whitespace |
| Text.BlankIffAllWhitespace | src/components/Search.tsx:120 | `!query.trim()` holds exactly when every character of the query is whitespace |
| Text.BlankToLower | src/components/Search.tsx:120-131 | lowercasing a query does not change whether it is blank |
| Text.ToLowerIdempotent | src/components/Search.tsx:232 | lowercasing twice equals lowercasing once |
| Text.ContainsIffOccurs | src/components/Search.tsx:187 | the `includes` scan succeeds exactly when the substring occurs at some index |
| Text.LastSegment | src/components/Search.tsx:78 | `split('/').pop()` is a '/'-free suffix of the input that is either the whole input or follows a '/' |
| Text.LastSegmentUnique | src/components/Search.tsx:78 | any '/'-free suffix that is the whole input or follows a '/' is the last segment, so the characterisation is complete |
| Text.LastSegmentToLower | src/components/Search.tsx:78 | taking the last segment commutes with lowercasing |
| Text.NatToString | src/components/Search.tsx:102 | the status rendered in the message is a non-empty digit string that reads back as the status, with no leading zero |
| Text.IntToString | src/components/Streamers.tsx:98 | a rendered count is a digit string that reads back as the count, with no leading zero unless it is 0; a negative one is "-" followed by the digits of its absolute value, again with no leading zero |
| Http.TimedFetchThrown | src/components/Search.tsx:101-108 | a non-ok status throws `HTTP error! status: <n>`; other failures are rethrown unchanged; only an abort is named `AbortError` |
| Http.HttpMessageMentions404 | src/components/Search.tsx:102 | for every three-digit status, the thrown message contains "404" exactly when the status is 404 |
| Http.HttpMessageNotFailedToFetch | src/components/Search.tsx:102 | a status message never contains "Failed to fetch" |
| Search.ClassifyError | src/components/Search.tsx:183-196 | a non-Error value gives "Error searching player"; for an Error, "404" in the message wins, then an abort gives the timeout text, then "Failed to fetch" gives the connection text, else the raw message; the result is always a fixed text or the thrown message |
| Search.OutcomeMessage | src/components/Search.tsx:184-196 | the message per failed call: a 404 from any call gives "Player not found"; otherwise an abort gives the timeout text; a rejection whose message holds "Failed to fetch" gives the connection text; any other failure gives its own message |
| Search.ErrorHint | src/components/Search.tsx:280-286 | the connection hint exactly when the message contains lower-case "connection"; the busy hint exactly when it does not but contains "try again"; the name hint exactly when it contains neither |
| Search.ClearPlayerData | src/components/Search.tsx:112-117 | closing the profile empties player data, stats, games and error, and keeps the query and the loading flag |
| Search.SubmitEnabledIffLookupRuns | src/components/Search.tsx:269 | with no lookup running, the button is enabled exactly when a click would issue requests |
| Search.Started | src/components/Search.tsx:122-126 | while a lookup runs, loading is on and nothing from an earlier lookup is shown |
| Search.MandatoryCalls | src/components/Search.tsx:129-150 | the mandatory phase fails exactly when profile, stats or the archive index fails, or the last month fails when one is fetched; the message is then that of the first failing call in call order; on success it carries the profile and stats bodies and the recent games of the last month |
| Search.StreamerCalls | src/components/Search.tsx:152-173 | a twitch link is found exactly when is-streamer succeeds with the flag set and the twitch call succeeds, and it is the twitch body's `twitch_url`, present or not |
| Search.Merge | src/components/Search.tsx:175-179 | the merged profile differs from the profile body at most in twitch_url, which is the fetched one when the twitch call produced one |
| Search.RunLookup | src/components/Search.tsx:128-198 | an error is set exactly when a mandatory call fails, and it is the first failing call's message; then no profile, stats or games are set; otherwise profile and stats are set; the first request is always the profile |
| Search.FetchPlayerData | src/components/Search.tsx:119-202 | a blank query leaves the state as it is and issues no request; any other query ends with loading off, the query kept, and the profile of the lowercased query requested first |
| Search.BlankQueryIsNoOp | src/components/Search.tsx:120 | with a blank query the result is the same for every set of outcomes: the unchanged state and no requests |
| Search.FailsIffMandatoryCallFails | src/components/Search.tsx:122-150 | the error is set exactly when a mandatory call fails; then it is the message of the first failing call, player data and stats are null, games are empty and loading is off; otherwise the profile and the stats are shown |
| Search.NotFoundFromAnyMandatoryCall | src/components/Search.tsx:184-188 | a 404 from the first failing mandatory call (profile, stats, archive index or last month) yields "Player not found" and no profile |
| Search.StatsFailureShowsStatus | src/components/Search.tsx:193-195 | a stats failure with another three-digit status shows the raw `HTTP error! status: <n>` message |
| Search.StreamerCallsAreBestEffort | src/components/Search.tsx:152-173 | changing the outcomes of the two streamer calls changes neither the error, nor the stats, nor the games, nor any profile field except the twitch link |
| Search.ProfileIsMergedResponse | src/components/Search.tsx:175-179 | the shown profile is the profile body with only `twitch_url` possibly replaced, and it is replaced exactly when the player is a streamer and the twitch call succeeded |
| Search.RecentGamesFromLastMonth | src/components/Search.tsx:144-150 | the games shown are at most five: the last min(5, n) games of the last month, reversed; none when the index is missing or empty, or the month has no games list |
| Search.RequestsIssued | src/components/Search.tsx:145-170 | only the last month of the archive index is requested, once, and only after profile, stats and index succeeded; twitch is requested once for a flagged streamer after a successful mandatory phase, and never otherwise |
| Search.QueryCaseIrrelevant | src/components/Search.tsx:131 | queries that differ only in letter case issue the same requests and reach the same state |
| Search.QueryNotTrimmed | src/components/Search.tsx:120-131 | the query " Hikaru" is not blank and its profile request is for " hikaru", leading space included |
| Search.FailedToFetchIsConnectionProblem | src/components/Search.tsx:191-192 | a rejection whose message is "Failed to fetch" reads as the connection message |
| Search.RejectedLookupGetsNameHint | src/components/Search.tsx:280-286 | end to end: a profile call rejected with "Failed to fetch" shows the connection message together with the check-the-name hint |
| Search.ConnectionTextGetsNameHint | src/components/Search.tsx:280-286 | the hint as written: the connection message, which says "Connection" with a capital C, gets the check-the-name hint |
| Search.TimeoutTextGetsBusyHint | src/components/Search.tsx:280-286 | the timeout message gets the busy-server hint |
| Search.NotFoundTextGetsNameHint | src/components/Search.tsx:280-286 | "Player not found" gets the check-the-name hint |
| Search.IntendedErrorHint | src/components/Search.tsx:280-286 | the corrected chooser: the connection hint exactly when the lowercased message contains "connection"; the busy hint exactly when it does not but contains "try again"; the name hint exactly when it contains neither |
| Search.IntendedHintIgnoresCase | src/components/Search.tsx:280-286 | messages that differ only in letter case get the same corrected hint |
| Search.IntendedHintMatchesCategory | src/components/Search.tsx:280-286 | with the tests made case-insensitive, each of the three messages gets the hint written for it |
| Games.PlayerColour | src/components/Search.tsx:232 | the player is white exactly when white's username equals the given name ignoring case |
| Games.GameResult | src/components/Search.tsx:231-234 | the result is white's when white's username matches ignoring case, and black's otherwise |
| Games.Opponent | src/components/Search.tsx:493-495 | the opponent is black when white's username matches ignoring case, and white otherwise |
| Games.ResultAndOpponentOppositeSides | src/components/Search.tsx:492-495 | result and opponent always come from opposite sides, and neither depends on the capitalisation of the searched name |
| Games.ResultColourOf | src/components/Search.tsx:236-240 | green exactly for "win", red exactly for checkmated, resigned, timeout, abandoned and lose, yellow exactly for the rest |
| Games.ResultText | src/components/Search.tsx:242-250 | the label is "Draw" exactly when the colour is yellow; a win reads "Win" and "lose" reads "Loss" |
| Games.ResultTextDistinguishesTags | src/components/Search.tsx:242-250 | the six non-draw tags have pairwise different labels |
| Games.Reverse | src/components/Search.tsx:149 | the reversal has the same length, and element i is element n-1-i of the input |
| Games.RecentGames | src/components/Search.tsx:149 | a missing games list gives no games; otherwise min(5, n) games, the i-th being the (n-1-i)-th of the month |
| Games.RecentGamesNewestFirst | src/components/Search.tsx:146-149 | when the month lists games by ascending end time, the recent games come out by descending end time |
| Games.FormatRating | src/components/Search.tsx:227-229 | "N/A" exactly for a missing or zero rating; otherwise the rating itself is formatted |
| Games.TimeClassLabel | src/components/Search.tsx:507-509 | rapid, blitz and bullet are shown with the first letter upper-cased and the rest unchanged; any other class is shown unchanged |
| Games.GameLink | src/components/Search.tsx:520 | the link is the live-game prefix followed by the URL's last '/'-free segment |
| Country.FlagUrl | src/components/Search.tsx:76-80 | "" exactly when the last segment is empty (the empty URL included); otherwise the flagcdn URL of the lowercased last segment |
| Country.FlagUrlIgnoresCase | src/components/Search.tsx:78 | the flag URL does not depend on the capitalisation of the country URL |
| Country.FlagForCountryResource | src/components/TopPlayers.tsx:102-106 | for a country resource URL ending in a code, the flag is the flagcdn image of the lowercased code |
| Streamers.ToStreamer | src/components/Streamers.tsx:28-35 | username, avatar, twitch_url, title and is_live are copied; viewers is undefined exactly when viewer_count is missing or 0, and is viewer_count otherwise |
| Streamers.LiveStreamers | src/components/Streamers.tsx:26-35 | the stored list is no longer than the input and holds only live streamers |
| Streamers.LiveStreamersAppend | src/components/Streamers.tsx:26-27 | the filter of a concatenation is the concatenation of the filters, so the input order is kept |
| Streamers.LiveStreamersMembership | src/components/Streamers.tsx:26-35 | a record is stored exactly when it is the mapping of some live input entry |
| Streamers.LiveStreamersExtremes | src/components/Streamers.tsx:26-27 | with every entry live the list is the entry-wise mapping; with none live it is empty |
| Streamers.CollectLive | src/components/Streamers.tsx:26-35 | the filter and map done as a loop gives the same list |
| Streamers.ReceiveStreamers | src/components/Streamers.tsx:20-43 | loading ends either way; a body with a streamer array stores its live streamers; any failure keeps the previous list |
| Streamers.FailedFetchShowsNoStreamers | src/components/Streamers.tsx:38-42 | a failed first fetch leaves an empty list, loading off and show-all off |
| Streamers.Visible | src/components/Streamers.tsx:52 | the visible list is a prefix of the stored list: all of it when showing all, otherwise min(9, n) entries |
| Streamers.NoToggleShowsAll | src/components/Streamers.tsx:52 | with at most nine streamers all are visible whatever the switch says |
| Streamers.HasToggle | src/components/Streamers.tsx:118 | the toggle is offered exactly when the folded view hides some live streamers |
| Streamers.Toggle | src/components/Streamers.tsx:120 | a click negates show-all and changes nothing else |
| Streamers.ToggleTwiceRestores | src/components/Streamers.tsx:118-120 | two clicks restore the state; where the toggle exists, a click changes what is visible |
| Streamers.ToggleCaption | src/components/Streamers.tsx:118-134 | the toggle exists exactly when more than nine streamers are live; it reads "Show less" when unfolded and "See all (n)" with n the full count when folded |
| Streamers.LinkTarget | src/components/Streamers.tsx:67 | the card links to twitch_url when it is non-empty and to '#' otherwise, so the link is never empty |
| Streamers.ViewerLabel | src/components/Streamers.tsx:97-99 | "Live" exactly when viewers is missing or 0; otherwise "<n> viewers" |
| Streamers.ViewerLabelOfEntry | src/components/Streamers.tsx:34 | a stored streamer reads "Live" exactly when the API gave no viewer count or 0 |
| Streamers.View | src/components/Streamers.tsx:48-134 | the loading message exactly while loading; the empty message exactly when loaded with no live streamers; otherwise the visible streamers, with the toggle caption drawn exactly when there are more than nine |
| TopPlayers.TopThree | src/components/TopPlayers.tsx:65-69 | each category holds at most three players; it is a prefix of its own live board, min(3, n) long, and empty when that board is missing |
| TopPlayers.FirstThree | src/components/TopPlayers.tsx:66-68 | `slice(0, 3) \|\| []`: a prefix of the board of min(3, n) players; empty when the board is missing |
| TopPlayers.OnlyLiveBoardsMatter | src/components/TopPlayers.tsx:22-36 | two responses that agree on live_blitz, live_rapid and live_bullet give the same podiums, whatever the other boards hold |
| TopPlayers.CaughtMessage | src/components/TopPlayers.tsx:74 | an Error gives its message; any other thrown value gives "Erro desconhecido" |
| TopPlayers.LeaderboardThrown | src/components/TopPlayers.tsx:56-62 | a non-ok status throws the fixed leaderboard failure text; other failures are rethrown with their own message |
| TopPlayers.ReceiveLeaderboards | src/components/TopPlayers.tsx:51-77 | loading ends either way; on success the podiums are replaced; on failure they are kept and the error is the thrown message |
| TopPlayers.SelectCategory | src/components/TopPlayers.tsx:143 | a tab click changes only the active category |
| TopPlayers.BadgeOf | src/components/TopPlayers.tsx:167-175 | the avatar when it is non-empty; otherwise the rank when it is non-zero, else index + 1 |
| TopPlayers.BadgeNeverZero | src/components/TopPlayers.tsx:174 | a numeric badge is never 0; a zero rank shows the card's position |
| TopPlayers.TitleText | src/components/TopPlayers.tsx:179 | the title when present and non-empty, else "N/A", so the title line is never empty |
| TopPlayers.CardOf | src/components/TopPlayers.tsx:167-191 | the card shows the player's username and score, the badge and title fallbacks, and a flag row exactly for a non-empty country, with the same flag rule as the search panel |
| TopPlayers.Cards | src/components/TopPlayers.tsx:153-193 | one card per player of the active category, card i built with index i |
| TopPlayers.View | src/components/TopPlayers.tsx:82-98 | the spinner exactly while loading; the error screen exactly when loaded with a non-empty error; otherwise the cards of the active category's players, one per player |
| TopPlayers.FirstLoadShowsBlitzPodium | src/components/TopPlayers.tsx:65-69 | after a successful first fetch at most three blitz cards are shown, as many as live_blitz has up to three |
| TopPlayers.FirstLoadFailureShowsError | src/components/TopPlayers.tsx:72-98 | after a failed first fetch the error screen shows the fixed text for a bad status, or the thrown message; a rejection with an empty message shows the empty card row instead |

## Findings

| source | as written | input that shows it | evidently intended | confidence | as-written member | corrected member |
|---|---|---|---|---|---|---|
| src/components/Search.tsx:280-286 | the hint tests `error.includes('connection')` case-sensitively, but the connection message is "Connection problem. Check your internet." | a lookup whose profile call is rejected with "Failed to fetch": the message is the connection text and the hint is "Check if the name is correct and try again." | the connection message gets "Check your internet connection and try again." | medium; not executed | Search.RejectedLookupGetsNameHint | Search.IntendedHintMatchesCategory |

## Left out

- Real HTTP, the 8-second `AbortController` timer, `axios` and `fetch`. Each call is an abstract outcome, and the browser's failure messages are inputs.
- Overlapping lookups, where a slow stale response overwrites a newer one. This is interleaving of asynchronous work. The model gives the settled state of one lookup.
- `encodeURIComponent` on the request paths. A request names the lowercased query itself.
- `getCountryName`, and the locale formatting in `formatDate`, `formatDateTime`, `formatRating` and `followers.toLocaleString`. They depend on `Intl` locale data. Only `formatRating`'s "N/A" choice is modelled (`Games.FormatRating`).
- Text.ToLower: only the ASCII letters A–Z are mapped. JavaScript's full Unicode case mapping is not modelled, so the case-insensitive comparisons are exact only for names that use ASCII letters only.
- JSON shape errors other than a missing field. Examples are a `null` body, or an `archives` or `games` value that is not an array. Bodies are typed records, and missing fields are `None`. `is_streamer` and `is_live` are read as booleans, so a missing flag is false.
- The statistics cards, the time-class and result colour class strings, and the medal borders. These are JSX and Tailwind rendering.
- The error banner's visibility for an empty message. This is a rendering condition.
- `src/components/ChessNewsSection.tsx`, `Header.tsx`, `Footer.tsx` and `ChessStats.tsx`. They are a proxied RSS fetch parsed with `DOMParser`, plus static markup, scrolling and page reload. They are not part of this model.
- Games.ResultColourOf: chess.com's variant loss tags (for example `threecheck`, `kingofthehill`) fall into the yellow "Draw" group exactly as the code does. The model does not claim anything about which tags chess.com actually sends.
- Search.OutcomeMessage: for an HTTP status outside 100–999 the contract does not say whether the message contains "404". Real responses carry three-digit statuses.
