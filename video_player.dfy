/**
  * The video player component: extraction of a YouTube video id from a URL,
  * and the player's own state — the handle of the embedded player, the
  * one-second position sampler, the seek effect and the play/mute toggles of
  * the native video element.
  */
module VideoPlayer {
  import opened Options
  import opened Text

  // ---------------------------------------------------------------------------
  // Video-id extraction.
  //
  // The source matches the URL against
  //   (?:youtube\.com\/(?:[^\/]+\/.+\/|(?:v|e(?:mbed)?)\/|.*[?&]v=)|youtu\.be\/)([^"&?\/\s]{11})
  // without anchors and returns the captured group. The functions below are a
  // hand-written matcher with the same leftmost-first, backtracking semantics:
  // the first start index that admits a match wins, and at that index the
  // alternatives are tried in order, greedy repetitions longest first.
  // ---------------------------------------------------------------------------

  const IdLength: nat := 11

  /** `[^"&?\/\s]`: a character the id group accepts. */
  predicate IsIdChar(c: char) {
    c != '"' && c != '&' && c != '?' && c != '/' && !IsWhitespace(c)
  }

  /** `[\w-]`: the characters of a canonical YouTube video id. */
  predicate IsIdWordChar(c: char) {
    ('a' <= c <= 'z') || ('A' <= c <= 'Z') || ('0' <= c <= '9') || c == '_' || c == '-'
  }

  /** The characters the regex `.` does not match. */
  predicate IsLineTerminator(c: char) {
    c == '\n' || c == '\r' || c == '\U{2028}' || c == '\U{2029}'
  }

  /** The id group `([^"&?\/\s]{11})` matches at index `q`. */
  predicate IdAt(s: string, q: nat) {
    q + IdLength <= |s| && forall k | q <= k < q + IdLength :: IsIdChar(s[k])
  }

  /** `[?&]v=` matches at index `d`. */
  predicate QueryAt(s: string, d: nat) {
    d + 3 <= |s| && (s[d] == '?' || s[d] == '&') && s[d + 1] == 'v' && s[d + 2] == '='
  }

  /** Index of the first '/' at or after `i`, or `|s|`. */
  function NextSlash(s: string, i: nat): (j: nat)
    requires i <= |s|
    ensures i <= j <= |s|
    ensures forall k | i <= k < j :: s[k] != '/'
    ensures j < |s| ==> s[j] == '/'
    decreases |s| - i
  {
    if i < |s| && s[i] != '/' then NextSlash(s, i + 1) else i
  }

  /** Index of the first line terminator at or after `i`, or `|s|`: where a greedy `.*` stops. */
  function NextLineTerminator(s: string, i: nat): (j: nat)
    requires i <= |s|
    ensures i <= j <= |s|
    ensures forall k | i <= k < j :: !IsLineTerminator(s[k])
    ensures j < |s| ==> IsLineTerminator(s[j])
    decreases |s| - i
  {
    if i < |s| && !IsLineTerminator(s[i]) then NextLineTerminator(s, i + 1) else i
  }

  /**
    * Backtracking of `.+\/` followed by the id group: the '/' is tried at
    * `hi - 1`, then further left, down to `lo`. The result is where the id starts.
    */
  function SlashThenId(s: string, lo: nat, hi: nat): (q: Option<nat>)
    requires hi <= |s|
    ensures q.Some? ==> lo < q.value <= hi && s[q.value - 1] == '/' && IdAt(s, q.value)
    decreases hi
  {
    if hi <= lo then None
    else if s[hi - 1] == '/' && IdAt(s, hi) then Some(hi)
    else SlashThenId(s, lo, hi - 1)
  }

  /**
    * Backtracking of `.*[?&]v=` followed by the id group: `[?&]` is tried at
    * `hi - 1`, then further left, down to `lo`.
    */
  function QueryThenId(s: string, lo: nat, hi: nat): (q: Option<nat>)
    requires hi <= |s|
    ensures q.Some? ==> lo + 3 <= q.value <= hi + 2 && QueryAt(s, q.value - 3) && IdAt(s, q.value)
    decreases hi
  {
    if hi <= lo then None
    else if QueryAt(s, hi - 1) && IdAt(s, hi + 2) then Some(hi + 2)
    else QueryThenId(s, lo, hi - 1)
  }

  /** First alternative after "youtube.com/": `[^\/]+\/.+\/`. */
  function ChannelPathId(s: string, a: nat): (q: Option<nat>)
    requires a <= |s|
    ensures q.Some? ==> a < q.value && IdAt(s, q.value)
  {
    var b := NextSlash(s, a);
    if b == a || b == |s| then None
    else SlashThenId(s, b + 2, NextLineTerminator(s, b + 1))
  }

  /** Second alternative after "youtube.com/": `(?:v|e(?:mbed)?)\/`, tried as "v/", "embed/", "e/". */
  function ShortPathId(s: string, a: nat): (q: Option<nat>)
    ensures q.Some? ==> a < q.value && IdAt(s, q.value)
  {
    if HasAt(s, a, "v/") && IdAt(s, a + 2) then Some(a + 2)
    else if HasAt(s, a, "embed/") && IdAt(s, a + 6) then Some(a + 6)
    else if HasAt(s, a, "e/") && IdAt(s, a + 2) then Some(a + 2)
    else None
  }

  /** Third alternative after "youtube.com/": `.*[?&]v=`. */
  function QueryId(s: string, a: nat): (q: Option<nat>)
    requires a <= |s|
    ensures q.Some? ==> a < q.value && IdAt(s, q.value)
  {
    QueryThenId(s, a, NextLineTerminator(s, a))
  }

  function FirstOf(x: Option<nat>, y: Option<nat>): Option<nat> {
    if x.Some? then x else y
  }

  /** The whole pattern tried at start index `p`; the result is where the captured id starts. */
  function MatchAt(s: string, p: nat): (q: Option<nat>)
    ensures q.Some? ==> p < q.value && IdAt(s, q.value)
  {
    if HasAt(s, p, "youtube.com/") then
      var a := p + 12;
      FirstOf(ChannelPathId(s, a), FirstOf(ShortPathId(s, a), QueryId(s, a)))
    else if HasAt(s, p, "youtu.be/") && IdAt(s, p + 9) then Some(p + 9)
    else None
  }

  /** The pattern tried at each start index of `s`. */
  function Attempts(s: string): nat -> Option<nat> {
    (p: nat) => MatchAt(s, p)
  }

  /** Leftmost search: the first index in `[p, n)` where `attempt` succeeds. */
  function Leftmost(attempt: nat -> Option<nat>, p: nat, n: nat): (r: Option<nat>)
    requires p <= n
    ensures r.Some? ==> p <= r.value < n && attempt(r.value).Some?
    ensures r.Some? ==> forall k | p <= k < r.value :: attempt(k).None?
    ensures r.None? ==> forall k | p <= k < n :: attempt(k).None?
    decreases n - p
  {
    if p == n then None
    else if attempt(p).Some? then Some(p)
    else Leftmost(attempt, p + 1, n)
  }

  /** Where the leftmost match at or after `p` starts, as `String.prototype.match` scans. */
  function FirstMatch(s: string, p: nat): (r: Option<nat>)
    requires p <= |s|
    ensures r.Some? ==> p <= r.value < |s| && MatchAt(s, r.value).Some?
  {
    Leftmost(Attempts(s), p, |s|)
  }

  /** `getYoutubeVideoId`: the 11-character id the pattern captures, if it matches anywhere. */
  function GetYoutubeVideoId(url: string): (id: Option<string>)
    ensures id.Some? ==> |id.value| == IdLength
    ensures id.Some? ==> forall k | 0 <= k < IdLength :: IsIdChar(id.value[k])
  {
    match FirstMatch(url, 0)
    case Some(r) =>
      var q := MatchAt(url, r).value;
      Some(url[q..q + IdLength])
    case None => None
  }

  /** `youtubeUrl ? getYoutubeVideoId(youtubeUrl) : null`: the empty URL is falsy. */
  function VideoIdOf(youtubeUrl: string): (id: Option<string>)
    ensures youtubeUrl == "" ==> id == None
    ensures id.Some? ==> |id.value| == IdLength
  {
    if youtubeUrl == "" then None else GetYoutubeVideoId(youtubeUrl)
  }

  // Lemmas about the matcher

  /** Attempts that fail before `r` do not change where the leftmost search lands. */
  lemma LeftmostSkips(attempt: nat -> Option<nat>, p: nat, r: nat, n: nat)
    requires p <= r <= n
    requires forall k | p <= k < r :: attempt(k).None?
    ensures Leftmost(attempt, p, n) == Leftmost(attempt, r, n)
  {
  }

  /** The search lands on the first success. */
  lemma LeftmostIs(attempt: nat -> Option<nat>, p: nat, r: nat, n: nat)
    requires p <= r < n && attempt(r).Some?
    requires forall k | p <= k < r :: attempt(k).None?
    ensures Leftmost(attempt, p, n) == Some(r)
  {
  }

  /** Start indices that do not hold a 'y' cannot start a match. */
  lemma FirstMatchSkips(s: string, p: nat, r: nat)
    requires p <= r <= |s|
    requires forall k | p <= k < r :: s[k] != 'y'
    ensures FirstMatch(s, p) == FirstMatch(s, r)
  {
    forall k | p <= k < r ensures Attempts(s)(k).None? {
      NoMatchWithoutY(s, k);
    }
    LeftmostSkips(Attempts(s), p, r, |s|);
  }

  lemma NoMatchWithoutY(s: string, p: nat)
    requires p < |s| && s[p] != 'y'
    ensures MatchAt(s, p) == None
  {
    if HasAt(s, p, "youtube.com/") {
      HasAtChar(s, p, "youtube.com/", 0);
    }
    if HasAt(s, p, "youtu.be/") {
      HasAtChar(s, p, "youtu.be/", 0);
    }
  }

  /** A match at any start index `r` at or after `p` means the leftmost search succeeds. */
  lemma FirstMatchFinds(s: string, p: nat, r: nat)
    requires p <= r < |s|
    requires MatchAt(s, r).Some?
    ensures FirstMatch(s, p).Some?
  {
    assert Attempts(s)(r).Some?;
  }

  lemma {:induction false} SlashThenIdNone(s: string, lo: nat, hi: nat)
    requires hi <= |s|
    requires forall k | lo <= k < hi :: s[k] != '/'
    ensures SlashThenId(s, lo, hi) == None
    decreases hi
  {
    if lo < hi {
      SlashThenIdNone(s, lo, hi - 1);
    }
  }

  /** The backtracking search settles on the rightmost `[?&]v=` that an id follows, whatever else lies after it. */
  lemma {:induction false} QueryThenIdRightmost(s: string, lo: nat, hi: nat, d: nat)
    requires lo <= d < hi <= |s|
    requires QueryAt(s, d) && IdAt(s, d + 3)
    requires forall k | d < k < hi :: !(QueryAt(s, k) && IdAt(s, k + 3))
    ensures QueryThenId(s, lo, hi) == Some(d + 3)
    decreases hi
  {
    if d < hi - 1 {
      QueryThenIdRightmost(s, lo, hi - 1, d);
    }
  }

  /** Some `[?&]v=` followed by an id in the searched range is enough for the search to succeed. */
  lemma {:induction false} QueryThenIdFinds(s: string, lo: nat, hi: nat, d: nat)
    requires lo <= d < hi <= |s|
    requires QueryAt(s, d) && IdAt(s, d + 3)
    ensures QueryThenId(s, lo, hi).Some?
    decreases hi
  {
    if d < hi - 1 && !(QueryAt(s, hi - 1) && IdAt(s, hi + 2)) {
      QueryThenIdFinds(s, lo, hi - 1, d);
    }
  }

  predicate IsCanonicalId(id: string) {
    |id| == IdLength && forall k | 0 <= k < |id| :: IsIdWordChar(id[k])
  }

  lemma CanonicalIdAt(s: string, q: nat)
    requires q + IdLength <= |s|
    requires forall k | q <= k < q + IdLength :: IsIdWordChar(s[k])
    ensures IdAt(s, q)
  {
  }

  lemma ShortLinkMatch(s: string, p: nat)
    requires HasAt(s, p, "youtu.be/") && IdAt(s, p + 9)
    ensures MatchAt(s, p) == Some(p + 9)
  {
    HasAtChar(s, p, "youtu.be/", 5);
    if HasAt(s, p, "youtube.com/") {
      HasAtChar(s, p, "youtube.com/", 5);
    }
  }

  lemma EmbedLinkMatch(s: string, p: nat)
    requires HasAt(s, p, "youtube.com/embed/")
    requires p + 18 + IdLength == |s|
    requires forall k | p + 18 <= k < |s| :: IsIdWordChar(s[k])
    ensures MatchAt(s, p) == Some(p + 18)
  {
    var a := p + 12;
    var lit := "youtube.com/embed/";
    assert HasAt(s, p, "youtube.com/") by {
      forall k | 0 <= k < 12 ensures s[p + k] == "youtube.com/"[k] {
        assert s[p + k] == lit[k];
      }
    }
    assert HasAt(s, a, "embed/") by {
      forall k | 0 <= k < 6 ensures s[a + k] == "embed/"[k] {
        assert s[p + (12 + k)] == lit[12 + k];
      }
    }
    assert s[p + 12] == lit[12] && s[p + 17] == lit[17];
    if HasAt(s, a, "v/") {
      HasAtChar(s, a, "v/", 0);
    }
    forall k | a <= k < a + 5 ensures s[k] != '/' {
      assert s[p + (k - p)] == lit[k - p];
    }
    var b := NextSlash(s, a);
    assert b == a + 5;
    SlashThenIdNone(s, b + 2, NextLineTerminator(s, b + 1));
    assert ChannelPathId(s, a) == None;
    CanonicalIdAt(s, a + 6);
    assert ShortPathId(s, a) == Some(a + 6);
  }

  lemma WatchLinkMatch(s: string, p: nat)
    requires HasAt(s, p, "youtube.com/watch?v=")
    requires p + 20 + IdLength == |s|
    requires forall k | p + 20 <= k < |s| :: IsIdWordChar(s[k])
    ensures MatchAt(s, p) == Some(p + 20)
  {
    var a := p + 12;
    var lit := "youtube.com/watch?v=";
    assert HasAt(s, p, "youtube.com/") by {
      forall k | 0 <= k < 12 ensures s[p + k] == "youtube.com/"[k] {
        assert s[p + k] == lit[k];
      }
    }
    assert s[p + 12] == lit[12];
    assert s[p + 17] == lit[17] && s[p + 18] == lit[18] && s[p + 19] == lit[19];
    forall k | a <= k < |s| ensures s[k] != '/' && !IsLineTerminator(s[k]) {
      if k < p + 20 {
        assert s[p + (k - p)] == lit[k - p];
      }
    }
    forall k | a + 5 < k < |s| ensures s[k] != '?' && s[k] != '&' {
      if k < p + 20 {
        assert s[p + (k - p)] == lit[k - p];
      }
    }
    assert NextSlash(s, a) == |s|;
    assert ChannelPathId(s, a) == None;
    if HasAt(s, a, "v/") {
      HasAtChar(s, a, "v/", 0);
    }
    if HasAt(s, a, "embed/") {
      HasAtChar(s, a, "embed/", 0);
    }
    if HasAt(s, a, "e/") {
      HasAtChar(s, a, "e/", 0);
    }
    assert ShortPathId(s, a) == None;
    assert NextLineTerminator(s, a) == |s|;
    CanonicalIdAt(s, a + 8);
    QueryThenIdRightmost(s, a, |s|, a + 5);
  }

  /**
    * For `youtu.be/<id>`, `youtube.com/embed/<id>` and `youtube.com/watch?v=<id>`
    * with a canonical id and nothing after it, behind any prefix without a 'y'
    * (a scheme, "www.", surrounding blanks), the extractor returns `<id>`.
    */
  lemma {:induction false} CanonicalUrlId(prefix: string, route: string, id: string)
    requires forall k | 0 <= k < |prefix| :: prefix[k] != 'y'
    requires IsCanonicalRoute(route)
    requires IsCanonicalId(id)
    ensures GetYoutubeVideoId(prefix + route + id) == Some(id)
  {
    var s := prefix + route + id;
    var p := |prefix|;
    var q := p + |route|;
    CanonicalShape(prefix, route, id);
    assert |s| == q + IdLength;
    assert forall k | q <= k < |s| :: IsIdWordChar(s[k]);
    CanonicalMatchAt(s, p, route);
    assert forall k | 0 <= k < p :: s[k] != 'y';
    FirstMatchSkips(s, 0, p);
    LeftmostIs(Attempts(s), p, p, |s|);
    ExtractedAt(s, p, q);
    assert s[q..q + IdLength] == s[q..];
  }

  /** The three URL shapes the extractor is meant for. */
  predicate IsCanonicalRoute(route: string) {
    route == "youtu.be/" || route == "youtube.com/embed/" || route == "youtube.com/watch?v="
  }

  lemma CanonicalMatchAt(s: string, p: nat, route: string)
    requires IsCanonicalRoute(route)
    requires HasAt(s, p, route)
    requires p + |route| + IdLength == |s|
    requires forall k | p + |route| <= k < |s| :: IsIdWordChar(s[k])
    ensures MatchAt(s, p) == Some(p + |route|)
  {
    if route == "youtu.be/" {
      CanonicalIdAt(s, p + 9);
      ShortLinkMatch(s, p);
    } else if route == "youtube.com/embed/" {
      EmbedLinkMatch(s, p);
    } else {
      WatchLinkMatch(s, p);
    }
  }

  lemma ExtractedAt(s: string, r: nat, q: nat)
    requires FirstMatch(s, 0) == Some(r) && MatchAt(s, r) == Some(q)
    ensures GetYoutubeVideoId(s) == Some(s[q..q + IdLength])
  {
    assert MatchAt(s, r).value == q;
  }

  lemma CanonicalShape(prefix: string, route: string, id: string)
    ensures HasAt(prefix + route + id, |prefix|, route)
    ensures forall k | |prefix| + |route| <= k < |prefix + route + id| ::
      (prefix + route + id)[k] == id[k - |prefix| - |route|]
    ensures forall k | 0 <= k < |prefix| :: (prefix + route + id)[k] == prefix[k]
    ensures (prefix + route + id)[|prefix| + |route|..] == id
    ensures |prefix + route + id| == |prefix| + |route| + |id|
  {
    var head := prefix + route;
    var s := head + id;
    forall k | 0 <= k < |route| ensures s[|prefix| + k] == route[k] {
      assert s[|prefix| + k] == head[|prefix| + k];
    }
  }

  // ---------------------------------------------------------------------------
  // The player component's state.
  // ---------------------------------------------------------------------------

  /**
    * What `playerRef.current` holds: a YouTube player object. The API attaches
    * `seekTo` and the other player methods once the player is ready;
    * `destroy()` releases it but leaves the object (and the ref) in place.
    */
  datatype Handle = Handle(seekable: bool, destroyed: bool)

  class Player {
    /** The id derived from the `youtubeUrl` prop. */
    var videoId: Option<string>
    /** `playerRef.current`. */
    var handle: Option<Handle>
    /** `intervalRef.current` is set. */
    var intervalSet: bool
    /** The one-second sampler timer is still scheduled. */
    var ticking: bool
    var isPlaying: bool
    var isMuted: bool

    ghost predicate Valid()
      reads this
    {
      ticking ==> intervalSet && handle.Some?
    }

    /** The native `<video>` element is rendered, and `videoRef.current` set, only without a YouTube id. */
    predicate HasVideoElement()
      reads this
    {
      videoId.None?
    }

    /** `playerRef.current && playerRef.current.seekTo`. */
    predicate CanSeek()
      reads this
    {
      handle.Some? && handle.value.seekable
    }

    constructor (youtubeUrl: string)
      ensures Valid()
      ensures videoId == VideoIdOf(youtubeUrl)
      ensures handle == None && !intervalSet && !ticking
      ensures !isPlaying && !isMuted
    {
      videoId := VideoIdOf(youtubeUrl);
      handle := None;
      intervalSet, ticking := false, false;
      isPlaying, isMuted := false, false;
    }

    /** The API-ready callback installed for the current id constructs the player. */
    method OnPlayerCreated()
      requires Valid() && videoId.Some?
      modifies this
      ensures Valid()
      ensures handle == Some(Handle(false, false))
      ensures videoId == old(videoId) && intervalSet == old(intervalSet) && ticking == old(ticking)
      ensures isPlaying == old(isPlaying) && isMuted == old(isMuted)
    {
      handle := Some(Handle(false, false));
    }

    /** The player's `onReady` event: its methods become available and the sampler starts. */
    method OnPlayerReady()
      requires Valid() && handle.Some?
      modifies this
      ensures Valid()
      ensures handle == Some(old(handle.value).(seekable := true))
      ensures intervalSet && ticking
      ensures videoId == old(videoId) && isPlaying == old(isPlaying) && isMuted == old(isMuted)
    {
      handle := Some(handle.value.(seekable := true));
      intervalSet, ticking := true, true;
    }

    /**
      * One firing of the sampler: `getCurrentTime()` (here `clock`) is forwarded
      * unchanged to `onTimeUpdate` when the player and the callback exist. A
      * cleared timer never fires.
      */
    method SamplerTick(clock: nat, hasOnTimeUpdate: bool) returns (reported: Option<nat>)
      requires Valid()
      ensures reported.Some? <==> ticking && hasOnTimeUpdate
      ensures reported.Some? ==> reported.value == clock
      ensures !ticking ==> reported == None
    {
      if ticking && handle.Some? && hasOnTimeUpdate {
        reported := Some(clock);
      } else {
        reported := None;
      }
    }

    /**
      * The seek effect: with a target and a player exposing `seekTo`, the player
      * is sought to the target and `onSeekComplete` is called once; otherwise
      * neither happens.
      */
    method ApplySeek(target: Option<nat>, hasOnSeekComplete: bool) returns (seekedTo: Option<nat>, completed: bool)
      ensures seekedTo.Some? <==> target.Some? && CanSeek()
      ensures seekedTo.Some? ==> seekedTo == target
      ensures completed <==> seekedTo.Some? && hasOnSeekComplete
    {
      if target.Some? && handle.Some? && handle.value.seekable {
        seekedTo := target;
        completed := hasOnSeekComplete;
      } else {
        seekedTo, completed := None, false;
      }
    }

    /** The load effect's cleanup: clear the interval if one was set, destroy the player if there is one. */
    method Teardown()
      requires Valid()
      modifies this
      ensures Valid()
      ensures !ticking && intervalSet == old(intervalSet)
      ensures handle == if old(handle).Some? then Some(old(handle).value.(destroyed := true)) else None
      ensures videoId == old(videoId) && isPlaying == old(isPlaying) && isMuted == old(isMuted)
    {
      if intervalSet {
        ticking := false;
      }
      if handle.Some? {
        handle := Some(handle.value.(destroyed := true));
      }
    }

    /**
      * A new `youtubeUrl` prop. The load effect depends on the derived id, so
      * it is torn down only when the id changes; the same id leaves every
      * piece of state, the sampler included, as it was.
      */
    method ChangeUrl(youtubeUrl: string)
      requires Valid()
      modifies this
      ensures Valid()
      ensures videoId == VideoIdOf(youtubeUrl)
      ensures VideoIdOf(youtubeUrl) == old(videoId) ==>
        handle == old(handle) && intervalSet == old(intervalSet) && ticking == old(ticking)
      ensures VideoIdOf(youtubeUrl) != old(videoId) ==>
        !ticking && intervalSet == old(intervalSet) &&
        handle == if old(handle).Some? then Some(old(handle).value.(destroyed := true)) else None
      ensures isPlaying == old(isPlaying) && isMuted == old(isMuted)
    {
      var id := VideoIdOf(youtubeUrl);
      if id != videoId {
        Teardown();
        videoId := id;
      }
    }

    /** `togglePlay`: flips `isPlaying` only when the native video element exists. */
    method TogglePlay()
      requires Valid()
      modifies this
      ensures Valid()
      ensures isPlaying == if old(HasVideoElement()) then !old(isPlaying) else old(isPlaying)
      ensures videoId == old(videoId) && handle == old(handle) && isMuted == old(isMuted)
      ensures intervalSet == old(intervalSet) && ticking == old(ticking)
    {
      if videoId.None? {
        isPlaying := !isPlaying;
      }
    }

    /** `toggleMute`: flips `isMuted` only when the native video element exists. */
    method ToggleMute()
      requires Valid()
      modifies this
      ensures Valid()
      ensures isMuted == if old(HasVideoElement()) then !old(isMuted) else old(isMuted)
      ensures videoId == old(videoId) && handle == old(handle) && isPlaying == old(isPlaying)
      ensures intervalSet == old(intervalSet) && ticking == old(ticking)
    {
      if videoId.None? {
        isMuted := !isMuted;
      }
    }
  }
}
