/**
 * The live-streamers widget: the streamer list fetched on mount, reduced to
 * the streamers that are live; the first nine are shown, with a toggle to
 * show all of them.
 */
module Streamers {
  import opened Wrappers
  import opened Text
  import opened Http

  /** One entry of `{ streamers: [...] }` as the API returns it. */
  datatype StreamerEntry = StreamerEntry(
    username: string,
    avatar: Option<string>,
    twitchUrl: Option<string>,
    title: Option<string>,
    isLive: bool,
    viewerCount: Option<int>)

  /** The record the widget keeps per live streamer. */
  datatype Streamer = Streamer(
    username: string,
    avatar: Option<string>,
    twitchUrl: Option<string>,
    title: Option<string>,
    isLive: bool,
    viewers: Option<int>)

  /** The body of the streamers endpoint; without a `streamers` array the `.filter` call throws. */
  datatype StreamersBody = StreamersBody(streamers: Option<seq<StreamerEntry>>)

  /**
   * The `.map` step: five fields copied, and `viewer_count || undefined`,
   * which drops a missing or zero count.
   */
  function ToStreamer(e: StreamerEntry): (s: Streamer)
    ensures s.username == e.username && s.avatar == e.avatar && s.twitchUrl == e.twitchUrl
    ensures s.title == e.title && s.isLive == e.isLive
    ensures s.viewers == None <==> e.viewerCount == None || e.viewerCount == Some(0)
    ensures s.viewers.Some? ==> s.viewers == e.viewerCount && s.viewers.value != 0
  {
    var viewers := if e.viewerCount.None? || e.viewerCount.value == 0 then None else e.viewerCount;
    Streamer(e.username, e.avatar, e.twitchUrl, e.title, e.isLive, viewers)
  }

  /** `.filter(s => s.is_live).map(...)`. */
  function LiveStreamers(entries: seq<StreamerEntry>): (r: seq<Streamer>)
    ensures |r| <= |entries|
    ensures forall i :: 0 <= i < |r| ==> r[i].isLive
  {
    if |entries| == 0 then []
    else (if entries[0].isLive then [ToStreamer(entries[0])] else []) + LiveStreamers(entries[1..])
  }

  /** Filtering a concatenation filters each part in turn: the input order is kept. */
  lemma {:induction false} LiveStreamersAppend(a: seq<StreamerEntry>, b: seq<StreamerEntry>)
    ensures LiveStreamers(a + b) == LiveStreamers(a) + LiveStreamers(b)
  {
    if |a| == 0 {
      assert a + b == b;
    } else {
      assert (a + b)[1..] == a[1..] + b;
      LiveStreamersAppend(a[1..], b);
    }
  }

  /** A stored streamer is exactly the record of some live entry. */
  lemma {:induction false} LiveStreamersMembership(entries: seq<StreamerEntry>, s: Streamer)
    ensures s in LiveStreamers(entries) <==> exists e :: e in entries && e.isLive && ToStreamer(e) == s
  {
    if |entries| > 0 {
      LiveStreamersMembership(entries[1..], s);
      assert forall e :: e in entries <==> e == entries[0] || e in entries[1..];
    }
  }

  /** When every entry is live nothing is dropped; when none is, nothing is kept. */
  lemma {:induction false} LiveStreamersExtremes(entries: seq<StreamerEntry>)
    ensures (forall i :: 0 <= i < |entries| ==> entries[i].isLive) ==>
      |LiveStreamers(entries)| == |entries| &&
      forall i :: 0 <= i < |entries| ==> LiveStreamers(entries)[i] == ToStreamer(entries[i])
    ensures (forall i :: 0 <= i < |entries| ==> !entries[i].isLive) ==> LiveStreamers(entries) == []
  {
    if |entries| > 0 {
      LiveStreamersExtremes(entries[1..]);
    }
  }

  /** The same filter and map as a loop over the entries, agreeing with `LiveStreamers`. */
  method CollectLive(entries: seq<StreamerEntry>) returns (live: seq<Streamer>)
    ensures live == LiveStreamers(entries)
  {
    live := [];
    var i := 0;
    while i < |entries|
      invariant 0 <= i <= |entries|
      invariant live == LiveStreamers(entries[..i])
    {
      LiveStreamersAppend(entries[..i], [entries[i]]);
      assert entries[..i + 1] == entries[..i] + [entries[i]];
      if entries[i].isLive {
        live := live + [ToStreamer(entries[i])];
      }
      i := i + 1;
    }
    assert entries[..i] == entries;
  }

  /** The widget's state: the stored list, the loading flag and the show-all switch. */
  datatype StreamersState = StreamersState(streamers: seq<Streamer>, loading: bool, showAll: bool)

  const Initial: StreamersState := StreamersState([], true, false)

  /**
   * The end of `fetchLiveStreamers`: a body with a streamer array replaces
   * the list with its live streamers; any failure (a rejected request, a body
   * without the array) leaves the list as it was.  Loading ends either way.
   */
  function ReceiveStreamers(s: StreamersState, outcome: Fetch<StreamersBody>): (r: StreamersState)
    ensures !r.loading && r.showAll == s.showAll
    ensures outcome.Ok? && outcome.body.streamers.Some? ==>
      r.streamers == LiveStreamers(outcome.body.streamers.value)
    ensures !(outcome.Ok? && outcome.body.streamers.Some?) ==> r.streamers == s.streamers
  {
    match outcome
    case Ok(StreamersBody(Some(entries))) => s.(streamers := LiveStreamers(entries), loading := false)
    case _ => s.(loading := false)
  }

  /** A failed first fetch leaves the widget with no streamers and not loading. */
  lemma FailedFetchShowsNoStreamers(outcome: Fetch<StreamersBody>)
    requires !(outcome.Ok? && outcome.body.streamers.Some?)
    ensures ReceiveStreamers(Initial, outcome) == StreamersState([], false, false)
  {
  }

  const PageSize: nat := 9

  /** `visibleStreamers`: everything when showing all, otherwise the first nine. */
  function Visible(s: StreamersState): (v: seq<Streamer>)
    ensures s.showAll ==> v == s.streamers
    ensures !s.showAll ==> |v| == (if |s.streamers| < PageSize then |s.streamers| else PageSize)
    ensures v <= s.streamers
  {
    if s.showAll then s.streamers
    else if |s.streamers| <= PageSize then s.streamers
    else s.streamers[..PageSize]
  }

  /** The toggle is offered only when there are more than nine live streamers. */
  predicate HasToggle(s: StreamersState)
    ensures HasToggle(s) <==> |Visible(s.(showAll := false))| < |s.streamers|
  {
    |s.streamers| > PageSize
  }

  /** Without a toggle every stored streamer is visible, whatever the switch says. */
  lemma NoToggleShowsAll(s: StreamersState)
    requires !HasToggle(s)
    ensures Visible(s) == s.streamers
  {
  }

  /** Clicking the toggle flips the switch and nothing else; two clicks undo each other. */
  function Toggle(s: StreamersState): (r: StreamersState)
    ensures r.showAll == !s.showAll && r.streamers == s.streamers && r.loading == s.loading
    ensures r != s
  {
    s.(showAll := !s.showAll)
  }

  lemma ToggleTwiceRestores(s: StreamersState)
    ensures Toggle(Toggle(s)) == s
    ensures HasToggle(s) ==> Visible(Toggle(s)) != Visible(s)
  {
  }

  datatype ToggleLabel = SeeAll(count: nat) | ShowLess

  /** The toggle's caption: "See all (n)" while folded, "Show less" while unfolded. */
  function ToggleCaption(s: StreamersState): (l: Option<ToggleLabel>)
    ensures l.Some? <==> HasToggle(s)
    ensures l == Some(ShowLess) <==> HasToggle(s) && s.showAll
    ensures l.Some? && l.value.SeeAll? ==> l.value.count == |s.streamers| && |Visible(s)| < l.value.count
  {
    if !HasToggle(s) then None
    else if s.showAll then Some(ShowLess)
    else Some(SeeAll(|s.streamers|))
  }

  /** The card's link: the twitch URL when it is a non-empty string, "#" otherwise. */
  function LinkTarget(st: Streamer): (href: string)
    ensures href != ""
    ensures st.twitchUrl.Some? && st.twitchUrl.value != "" ==> href == st.twitchUrl.value
    ensures st.twitchUrl.None? || st.twitchUrl.value == "" ==> href == "#"
  {
    match st.twitchUrl
    case Some(u) => if u != "" then u else "#"
    case None => "#"
  }

  /** The viewer caption: "<n> viewers" for a non-zero count, "Live" otherwise. */
  function ViewerLabel(st: Streamer): (caption: string)
    ensures caption == "Live" <==> st.viewers.None? || st.viewers.value == 0
    ensures st.viewers.Some? && st.viewers.value != 0 ==> caption == IntToString(st.viewers.value) + " viewers"
  {
    match st.viewers
    case Some(n) =>
      if n != 0 then
        var caption := IntToString(n) + " viewers";
        assert caption[|caption| - 1] == 's';
        caption
      else "Live"
    case None => "Live"
  }

  /** For a stored streamer the caption is "Live" exactly when the API gave no count or zero. */
  lemma ViewerLabelOfEntry(e: StreamerEntry)
    ensures ViewerLabel(ToStreamer(e)) == "Live" <==> e.viewerCount == None || e.viewerCount == Some(0)
  {
  }

  /** What the widget shows. */
  datatype Screen = LoadingMessage | NoneLiveMessage | Grid(cards: seq<Streamer>, toggle: Option<ToggleLabel>)

  /** The loading message first, then the empty message, then the grid of visible streamers. */
  function View(s: StreamersState): (v: Screen)
    ensures v == LoadingMessage <==> s.loading
    ensures v == NoneLiveMessage <==> !s.loading && s.streamers == []
    ensures v.Grid? ==> v.cards == Visible(s) && 0 < |v.cards| <= |s.streamers|
    ensures v.Grid? ==> v.toggle == ToggleCaption(s)
  {
    if s.loading then LoadingMessage
    else if |s.streamers| == 0 then NoneLiveMessage
    else Grid(Visible(s), ToggleCaption(s))
  }
}
