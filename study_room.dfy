/**
  * The study-room page: the anchored YouTube URL validator behind "Load
  * Video", the playback-position and pending-seek state shared between the
  * page and its video player, and the page's menu and tab handlers.
  */
module StudyRoom {
  import opened Options
  import opened Text
  import opened VideoPlayer

  // ---------------------------------------------------------------------------
  // youtubeUrlSchema: trim, then
  //   ^(https?://)?(www\.)?(youtube\.com/(watch\?v=|embed/)|youtu\.be/)[\w-]{11}(\S*)?$
  // ---------------------------------------------------------------------------

  const InvalidUrlMessage := "Please enter a valid YouTube URL"

  /** The optional scheme, the optional subdomain and the route, each as its alternatives. */
  const Schemes: seq<string> := ["", "http://", "https://"]
  const Subdomains: seq<string> := ["", "www."]
  const Routes: seq<string> := ["youtube.com/watch?v=", "youtube.com/embed/", "youtu.be/"]

  /** `[\w-]{11}(\S*)?$` matches `t` from index `n` to its end. */
  predicate IdThenNonBlank(t: string, n: nat) {
    && n + IdLength <= |t|
    && (forall k | n <= k < n + IdLength :: IsIdWordChar(t[k]))
    && (forall k | n + IdLength <= k < |t| :: !IsWhitespace(t[k]))
  }

  /** Scheme `i`, subdomain `j` and route `k` spell the start of `t`, and the id and tail follow. */
  predicate SpelledBy(t: string, i: nat, j: nat, k: nat)
    requires i < |Schemes| && j < |Subdomains| && k < |Routes|
  {
    var prefix := Schemes[i] + Subdomains[j] + Routes[k];
    HasAt(t, 0, prefix) && IdThenNonBlank(t, |prefix|)
  }

  /** Reference reading of the anchored pattern: some choice of the three optional parts matches. */
  ghost predicate UrlPattern(t: string) {
    exists i: nat, j: nat, k: nat | i < |Schemes| && j < |Subdomains| && k < |Routes| :: SpelledBy(t, i, j, k)
  }

  /** Length of the scheme the pattern consumes: "https://", "http://" or nothing. */
  function SchemeLength(t: string): nat {
    if HasAt(t, 0, "https://") then 8 else if HasAt(t, 0, "http://") then 7 else 0
  }

  /** Where the route starts once an optional "www." at `a` is consumed. */
  function SubdomainEnd(t: string, a: nat): nat {
    if HasAt(t, a, "www.") then a + 4 else a
  }

  /** Where the id starts once one of the three routes is read at `b`. */
  function RouteEnd(t: string, b: nat): Option<nat> {
    if HasAt(t, b, "youtube.com/watch?v=") then Some(b + 20)
    else if HasAt(t, b, "youtube.com/embed/") then Some(b + 18)
    else if HasAt(t, b, "youtu.be/") then Some(b + 9)
    else None
  }

  /** The pattern as a left-to-right matcher that never backtracks. */
  predicate MatchesUrlPattern(t: string) {
    var r := RouteEnd(t, SubdomainEnd(t, SchemeLength(t)));
    r.Some? && IdThenNonBlank(t, r.value)
  }

  /** `youtubeUrlSchema.parse` succeeds on `input`. */
  predicate UrlAccepted(input: string) {
    MatchesUrlPattern(Trim(input))
  }

  lemma SchemeLengthOf(t: string, i: nat)
    requires i < |Schemes| && HasAt(t, 0, Schemes[i])
    requires |Schemes[i]| < |t| && (t[|Schemes[i]|] == 'w' || t[|Schemes[i]|] == 'y')
    ensures SchemeLength(t) == |Schemes[i]|
  {
    if i == 1 {
      HasAtChar(t, 0, "http://", 4);
      if HasAt(t, 0, "https://") {
        HasAtChar(t, 0, "https://", 4);
      }
    } else if i == 0 {
      if HasAt(t, 0, "https://") {
        HasAtChar(t, 0, "https://", 0);
      }
      if HasAt(t, 0, "http://") {
        HasAtChar(t, 0, "http://", 0);
      }
    }
  }

  lemma SubdomainEndOf(t: string, a: nat, j: nat)
    requires j < |Subdomains| && HasAt(t, a, Subdomains[j])
    requires a + |Subdomains[j]| < |t| && t[a + |Subdomains[j]|] == 'y'
    ensures SubdomainEnd(t, a) == a + |Subdomains[j]|
  {
    if j == 0 && HasAt(t, a, "www.") {
      HasAtChar(t, a, "www.", 0);
    }
  }

  lemma RouteEndOf(t: string, b: nat, k: nat)
    requires k < |Routes| && HasAt(t, b, Routes[k])
    ensures RouteEnd(t, b) == Some(b + |Routes[k]|)
  {
    if k == 1 && HasAt(t, b, "youtube.com/watch?v=") {
      HasAtChar(t, b, "youtube.com/watch?v=", 12);
      HasAtChar(t, b, "youtube.com/embed/", 12);
    } else if k == 2 {
      HasAtChar(t, b, "youtu.be/", 5);
      if HasAt(t, b, "youtube.com/watch?v=") {
        HasAtChar(t, b, "youtube.com/watch?v=", 5);
      }
      if HasAt(t, b, "youtube.com/embed/") {
        HasAtChar(t, b, "youtube.com/embed/", 5);
      }
    }
  }

  /** The scheme `SchemeLength` consumes is one of those the pattern allows. */
  lemma SchemeOf(t: string) returns (i: nat)
    ensures i < |Schemes| && |Schemes[i]| == SchemeLength(t) && HasAt(t, 0, Schemes[i])
  {
    i := if HasAt(t, 0, "https://") then 2 else if HasAt(t, 0, "http://") then 1 else 0;
  }

  lemma SubdomainOf(t: string, a: nat) returns (j: nat)
    requires a <= |t|
    ensures j < |Subdomains| && a + |Subdomains[j]| == SubdomainEnd(t, a) && HasAt(t, a, Subdomains[j])
  {
    j := if HasAt(t, a, "www.") then 1 else 0;
  }

  lemma RouteOf(t: string, b: nat) returns (k: nat)
    requires RouteEnd(t, b).Some?
    ensures k < |Routes| && RouteEnd(t, b) == Some(b + |Routes[k]|) && HasAt(t, b, Routes[k])
  {
    k := if HasAt(t, b, "youtube.com/watch?v=") then 0 else if HasAt(t, b, "youtube.com/embed/") then 1 else 2;
  }

  lemma MatchesUrlPatternSound(t: string)
    requires MatchesUrlPattern(t)
    ensures UrlPattern(t)
  {
    var i := SchemeOf(t);
    var a := SchemeLength(t);
    var j := SubdomainOf(t, a);
    var k := RouteOf(t, SubdomainEnd(t, a));
    HasAtConcat(t, 0, Schemes[i], Subdomains[j]);
    HasAtConcat(t, 0, Schemes[i] + Subdomains[j], Routes[k]);
    assert SpelledBy(t, i, j, k);
  }

  lemma SpelledByMatches(t: string, i: nat, j: nat, k: nat)
    requires i < |Schemes| && j < |Subdomains| && k < |Routes|
    requires SpelledBy(t, i, j, k)
    ensures MatchesUrlPattern(t)
  {
    var a := |Schemes[i]|;
    var b := a + |Subdomains[j]|;
    HasAtConcat(t, 0, Schemes[i] + Subdomains[j], Routes[k]);
    HasAtConcat(t, 0, Schemes[i], Subdomains[j]);
    HasAtChar(t, b, Routes[k], 0);
    if j == 1 {
      HasAtChar(t, a, "www.", 0);
    }
    SchemeLengthOf(t, i);
    SubdomainEndOf(t, a, j);
    RouteEndOf(t, b, k);
  }

  /** The matcher accepts exactly the strings the reference reading of the pattern accepts. */
  lemma MatchesUrlPatternIff(t: string)
    ensures MatchesUrlPattern(t) <==> UrlPattern(t)
  {
    if MatchesUrlPattern(t) {
      MatchesUrlPatternSound(t);
    }
    if UrlPattern(t) {
      var i: nat, j: nat, k: nat :| i < |Schemes| && j < |Subdomains| && k < |Routes| && SpelledBy(t, i, j, k);
      SpelledByMatches(t, i, j, k);
    }
  }

  /** A URL is accepted iff its trimmed form follows the pattern. */
  lemma UrlAcceptedIff(input: string)
    ensures UrlAccepted(input) <==> UrlPattern(Trim(input))
  {
    MatchesUrlPatternIff(Trim(input));
  }

  /** A short link whose id uses the canonical alphabet is accepted. */
  lemma ShortLinkAccepted(id: string)
    requires IsCanonicalId(id)
    ensures UrlAccepted("https://youtu.be/" + id)
  {
    var prefix := Schemes[2] + Subdomains[0] + Routes[2];
    assert prefix == "https://youtu.be/";
    var u := prefix + id;
    assert "" + prefix + id == u;
    CanonicalShape("", prefix, id);
    TrimUnpadded(u);
    assert IdThenNonBlank(u, 17);
    SpelledByMatches(u, 2, 0, 2);
  }

  lemma ShortLinkExample()
    ensures UrlAccepted("https://youtu.be/dQw4w9WgXcQ")
  {
    ShortLinkAccepted("dQw4w9WgXcQ");
    assert "https://youtu.be/" + "dQw4w9WgXcQ" == "https://youtu.be/dQw4w9WgXcQ";
  }

  lemma PlainTextRejected()
    ensures !UrlAccepted("not a url")
  {
    var u := "not a url";
    TrimUnpadded(u);
    if HasAt(u, 0, "https://") {
      HasAtChar(u, 0, "https://", 0);
    }
    if HasAt(u, 0, "http://") {
      HasAtChar(u, 0, "http://", 0);
    }
    if HasAt(u, 0, "www.") {
      HasAtChar(u, 0, "www.", 0);
    }
    if HasAt(u, 0, "youtu.be/") {
      HasAtChar(u, 0, "youtu.be/", 0);
    }
  }

  // ---------------------------------------------------------------------------
  // Validator and extractor together
  // ---------------------------------------------------------------------------

  /** After "youtube.com/", "watch?v=" and an id make the query alternative succeed. */
  lemma WatchQueryFinds(s: string, a: nat)
    requires HasAt(s, a, "watch?v=") && IdAt(s, a + 8)
    ensures QueryId(s, a).Some?
  {
    forall k | a <= k < a + 8 ensures !IsLineTerminator(s[k]) {
      HasAtChar(s, a, "watch?v=", k - a);
    }
    HasAtChar(s, a, "watch?v=", 5);
    HasAtChar(s, a, "watch?v=", 6);
    HasAtChar(s, a, "watch?v=", 7);
    var hi := NextLineTerminator(s, a);
    assert a + 5 < hi;
    QueryThenIdFinds(s, a, hi, a + 5);
  }

  lemma WatchRouteMatches(s: string, p: nat)
    requires HasAt(s, p, "youtube.com/watch?v=") && IdAt(s, p + 20)
    ensures MatchAt(s, p).Some?
  {
    assert "youtube.com/watch?v=" == "youtube.com/" + "watch?v=";
    HasAtConcat(s, p, "youtube.com/", "watch?v=");
    WatchQueryFinds(s, p + 12);
  }

  lemma EmbedRouteMatches(s: string, p: nat)
    requires HasAt(s, p, "youtube.com/embed/") && IdAt(s, p + 18)
    ensures MatchAt(s, p).Some?
  {
    var a := p + 12;
    assert "youtube.com/embed/" == "youtube.com/" + "embed/";
    HasAtConcat(s, p, "youtube.com/", "embed/");
    HasAtChar(s, a, "embed/", 0);
    if HasAt(s, a, "v/") {
      HasAtChar(s, a, "v/", 0);
    }
  }

  /** Each of the routes the validator knows, followed by an id, starts a match of the extractor. */
  lemma RouteMatches(s: string, p: nat, route: string)
    requires IsCanonicalRoute(route) && HasAt(s, p, route) && IdAt(s, p + |route|)
    ensures MatchAt(s, p).Some?
  {
    if route == "youtube.com/watch?v=" {
      WatchRouteMatches(s, p);
    } else if route == "youtube.com/embed/" {
      EmbedRouteMatches(s, p);
    } else {
      ShortLinkMatch(s, p);
    }
  }

  /** An id the validator reads in the trimmed text is an id group match in the input. */
  lemma SliceIdAt(u: string, lo: nat, t: string, n: nat)
    requires lo + |t| <= |u| && t == u[lo..lo + |t|]
    requires IdThenNonBlank(t, n)
    ensures IdAt(u, lo + n)
  {
    forall m | lo + n <= m < lo + n + IdLength ensures IsIdWordChar(u[m]) {
      assert u[m] == t[m - lo];
    }
    CanonicalIdAt(u, lo + n);
  }

  /** Where the route starts in text the pattern matches, and which route it is. */
  lemma TrimmedRoute(t: string) returns (b: nat, route: string)
    requires MatchesUrlPattern(t)
    ensures IsCanonicalRoute(route) && HasAt(t, b, route) && IdThenNonBlank(t, b + |route|)
  {
    var i := SchemeOf(t);
    b := SubdomainEnd(t, SchemeLength(t));
    var k := RouteOf(t, b);
    route := Routes[k];
  }

  /** Where an accepted URL's route starts in the untrimmed input, and which route it is. */
  lemma AcceptedUrlRoute(u: string) returns (p: nat, route: string)
    requires UrlAccepted(u)
    ensures IsCanonicalRoute(route) && p < |u| && HasAt(u, p, route) && IdAt(u, p + |route|)
  {
    var t := Trim(u);
    var b;
    b, route := TrimmedRoute(t);
    var i0 := TrimStart(u);
    p := i0 + b;
    HasAtSlice(u, i0, i0 + |t|, b, route);
    SliceIdAt(u, i0, t, b + |route|);
  }

  /**
    * Every URL the validator accepts gives the player a video id. The id need
    * not be the one the validator read: see `TrailingSegmentOverridesId`.
    */
  lemma AcceptedUrlHasVideoId(u: string)
    requires UrlAccepted(u)
    ensures VideoIdOf(u).Some?
  {
    var p, route := AcceptedUrlRoute(u);
    RouteMatches(u, p, route);
    FirstMatchFinds(u, 0, p);
  }

  /** Backtracking of `.+\/` settles on the rightmost '/' that an id follows, whatever else lies after it. */
  lemma {:induction false} SlashThenIdRightmost(s: string, lo: nat, hi: nat, c: nat)
    requires lo < c <= hi <= |s|
    requires s[c - 1] == '/' && IdAt(s, c)
    requires forall k | c <= k < hi :: !(s[k] == '/' && IdAt(s, k + 1))
    ensures SlashThenId(s, lo, hi) == Some(c)
    decreases hi
  {
    if hi > c {
      SlashThenIdRightmost(s, lo, hi - 1, c);
    }
  }

  lemma {:induction false} NextSlashIs(s: string, i: nat, j: nat)
    requires i <= j < |s| && s[j] == '/'
    requires forall k | i <= k < j :: s[k] != '/'
    ensures NextSlash(s, i) == j
    decreases j - i
  {
    if i < j {
      NextSlashIs(s, i + 1, j);
    }
  }

  /** An embed link followed by a second path segment. */
  function EmbedWithTrailingSegment(first: string, second: string): string {
    "youtube.com/embed/" + first + "/" + second
  }

  lemma TrailingSegmentShape(first: string, second: string)
    requires |first| == IdLength && |second| == IdLength
    ensures var s := EmbedWithTrailingSegment(first, second);
      && |s| == 41
      && s[..18] == "youtube.com/embed/"
      && (forall k | 18 <= k < 29 :: s[k] == first[k - 18])
      && s[29] == '/'
      && (forall k | 30 <= k < 41 :: s[k] == second[k - 30])
      && s[30..] == second
  {
  }

  lemma TrailingSegmentAccepted(first: string, second: string)
    requires IsCanonicalId(first) && IsCanonicalId(second)
    ensures UrlAccepted(EmbedWithTrailingSegment(first, second))
  {
    var s := EmbedWithTrailingSegment(first, second);
    TrailingSegmentShape(first, second);
    TrimUnpadded(s);
    assert HasAt(s, 0, Schemes[0] + Subdomains[0] + Routes[1]) by {
      assert Schemes[0] + Subdomains[0] + Routes[1] == Routes[1];
      assert Routes[1] == s[..18];
    }
    assert IdThenNonBlank(s, 18);
    SpelledByMatches(s, 0, 0, 1);
  }

  /** The channel-path alternative backtracks to the last '/' that an id follows. */
  lemma TrailingSegmentChannel(first: string, second: string)
    requires IsCanonicalId(first) && IsCanonicalId(second)
    ensures ChannelPathId(EmbedWithTrailingSegment(first, second), 12) == Some(30)
  {
    var s := EmbedWithTrailingSegment(first, second);
    TrailingSegmentShape(first, second);
    forall k | 12 <= k <= 17 ensures s[k] == "youtube.com/embed/"[k] {
      assert s[k] == s[..18][k];
    }
    NextSlashIs(s, 12, 17);
    assert NextLineTerminator(s, 18) == |s|;
    CanonicalIdAt(s, 30);
    SlashThenIdRightmost(s, 19, |s|, 30);
  }

  lemma TrailingSegmentMatch(first: string, second: string)
    requires IsCanonicalId(first) && IsCanonicalId(second)
    ensures MatchAt(EmbedWithTrailingSegment(first, second), 0) == Some(30)
  {
    var s := EmbedWithTrailingSegment(first, second);
    TrailingSegmentShape(first, second);
    assert HasAt(s, 0, "youtube.com/") by {
      assert s[..12] == s[..18][..12];
    }
    TrailingSegmentChannel(first, second);
  }

  /**
    * The two patterns disagree on which id such a URL names: the validator
    * reads the id right after "embed/", the player plays the last segment.
    */
  lemma TrailingSegmentOverridesId(first: string, second: string)
    requires IsCanonicalId(first) && IsCanonicalId(second)
    ensures UrlAccepted(EmbedWithTrailingSegment(first, second))
    ensures VideoIdOf(EmbedWithTrailingSegment(first, second)) == Some(second)
  {
    var s := EmbedWithTrailingSegment(first, second);
    TrailingSegmentAccepted(first, second);
    TrailingSegmentMatch(first, second);
    TrailingSegmentShape(first, second);
    LeftmostIs(Attempts(s), 0, 0, |s|);
    ExtractedAt(s, 0, 30);
    assert s[30..30 + IdLength] == second;
  }

  // ---------------------------------------------------------------------------
  // Playback position and pending seek
  // ---------------------------------------------------------------------------

  /** The two pieces of state the page shares with its player. */
  datatype Sync = Sync(currentVideoTime: nat, seekToTime: Option<nat>)

  const InitialSync := Sync(0, None)

  /**
    * What changes that state: the sampler reporting a time, a comment asking
    * for a jump, and one run of the player's seek effect, which sees whether
    * the player handle exposes `seekTo` yet.
    */
  datatype SyncEvent = TimeUpdate(time: nat) | JumpTo(target: nat) | SeekAttempt(canSeek: bool)

  function Step(s: Sync, e: SyncEvent): Sync {
    match e
    case TimeUpdate(t) => s.(currentVideoTime := t)
    case JumpTo(t) => s.(seekToTime := Some(t))
    case SeekAttempt(canSeek) => if canSeek && s.seekToTime.Some? then s.(seekToTime := None) else s
  }

  /** The position the player is sought to during the step, if any. */
  function SeekedBy(s: Sync, e: SyncEvent): Option<nat> {
    if e.SeekAttempt? && e.canSeek then s.seekToTime else None
  }

  function Replay(s: Sync, evs: seq<SyncEvent>): Sync
    decreases |evs|
  {
    if evs == [] then s else Replay(Step(s, evs[0]), evs[1..])
  }

  /** Every position the player is sought to, in order. */
  function Seeks(s: Sync, evs: seq<SyncEvent>): seq<nat>
    decreases |evs|
  {
    if evs == [] then []
    else
      var now := match SeekedBy(s, evs[0]) case Some(t) => [t] case None => [];
      now + Seeks(Step(s, evs[0]), evs[1..])
  }

  // Reference definitions, read backwards from the most recent event.

  /** The value of the most recent sampler report, 0 before the first. */
  function LastReportedTime(evs: seq<SyncEvent>): nat {
    if evs == [] then 0
    else match evs[|evs| - 1]
      case TimeUpdate(t) => t
      case _ => LastReportedTime(evs[..|evs| - 1])
  }

  /** The most recent jump target, unless a successful seek has happened since. */
  function OutstandingJump(evs: seq<SyncEvent>): Option<nat> {
    if evs == [] then None
    else match evs[|evs| - 1]
      case JumpTo(t) => Some(t)
      case SeekAttempt(canSeek) => if canSeek then None else OutstandingJump(evs[..|evs| - 1])
      case TimeUpdate(_) => OutstandingJump(evs[..|evs| - 1])
  }

  /** The most recent jump target, whatever happened since. */
  function LastJump(evs: seq<SyncEvent>): Option<nat> {
    if evs == [] then None
    else match evs[|evs| - 1]
      case JumpTo(t) => Some(t)
      case _ => LastJump(evs[..|evs| - 1])
  }

  function CountJumps(evs: seq<SyncEvent>): nat
    decreases |evs|
  {
    if evs == [] then 0 else (if evs[0].JumpTo? then 1 else 0) + CountJumps(evs[1..])
  }

  function Pending(s: Sync): nat {
    if s.seekToTime.Some? then 1 else 0
  }

  lemma {:induction false} ReplaySnoc(s: Sync, evs: seq<SyncEvent>, e: SyncEvent)
    ensures Replay(s, evs + [e]) == Step(Replay(s, evs), e)
    decreases |evs|
  {
    if evs != [] {
      assert (evs + [e])[1..] == evs[1..] + [e];
      ReplaySnoc(Step(s, evs[0]), evs[1..], e);
    }
  }

  /**
    * After any history, `currentVideoTime` is the last time the player
    * reported and `seekToTime` the last jump no successful seek has consumed.
    */
  lemma {:induction false} ReplayFromInitial(evs: seq<SyncEvent>)
    ensures Replay(InitialSync, evs) == Sync(LastReportedTime(evs), OutstandingJump(evs))
    decreases |evs|
  {
    if evs != [] {
      var init := evs[..|evs| - 1];
      var e := evs[|evs| - 1];
      assert evs == init + [e];
      ReplaySnoc(InitialSync, init, e);
      ReplayFromInitial(init);
    }
  }

  /** A pending target is always the most recent jump: last write wins. */
  lemma {:induction false} OutstandingIsLastJump(evs: seq<SyncEvent>)
    ensures OutstandingJump(evs).Some? ==> OutstandingJump(evs) == LastJump(evs)
    decreases |evs|
  {
    if evs != [] {
      OutstandingIsLastJump(evs[..|evs| - 1]);
    }
  }

  /** Whenever the player is sought, it is sought to the most recently requested position. */
  lemma SeekIsLatestJump(evs: seq<SyncEvent>, e: SyncEvent)
    ensures SeekedBy(Replay(InitialSync, evs), e).Some? ==> SeekedBy(Replay(InitialSync, evs), e) == LastJump(evs)
  {
    ReplayFromInitial(evs);
    OutstandingIsLastJump(evs);
  }

  /** Each jump request leads to at most one seek: a seek consumes the pending target. */
  lemma {:induction false} SeeksBoundedByJumps(s: Sync, evs: seq<SyncEvent>)
    ensures |Seeks(s, evs)| + Pending(Replay(s, evs)) <= Pending(s) + CountJumps(evs)
    decreases |evs|
  {
    if evs != [] {
      SeeksBoundedByJumps(Step(s, evs[0]), evs[1..]);
    }
  }

  lemma AtMostOneSeekPerJump(evs: seq<SyncEvent>)
    ensures |Seeks(InitialSync, evs)| <= CountJumps(evs)
  {
    SeeksBoundedByJumps(InitialSync, evs);
  }

  /**
    * A jump requested before the player is ready stays pending through
    * attempts that cannot seek, is applied once by the first attempt that
    * can, and is not applied again.
    */
  lemma JumpBeforeReady()
    ensures Seeks(InitialSync, [JumpTo(225), SeekAttempt(false), SeekAttempt(true), SeekAttempt(true)]) == [225]
    ensures Replay(InitialSync, [JumpTo(225), SeekAttempt(false), SeekAttempt(true), SeekAttempt(true)]) == InitialSync
  {
    var evs := [JumpTo(225), SeekAttempt(false), SeekAttempt(true), SeekAttempt(true)];
    assert evs[1..] == [SeekAttempt(false), SeekAttempt(true), SeekAttempt(true)];
    assert evs[1..][1..] == [SeekAttempt(true), SeekAttempt(true)];
    assert evs[1..][1..][1..] == [SeekAttempt(true)];
  }

  // ---------------------------------------------------------------------------
  // The page
  // ---------------------------------------------------------------------------

  /** The collaboration panel's tabs. */
  datatype Tab = CommentsTab | ChatTab | AITab | WhiteboardTab

  class Page {
    var showPauseMenu: bool
    var activeTab: Tab
    /** The URL the player was given. */
    var youtubeUrl: string
    /** The text in the URL box. */
    var urlInput: string
    var currentVideoTime: nat
    var seekToTime: Option<nat>
    /** The embedded video player, rendered with `youtubeUrl`. */
    const player: Player

    ghost predicate Valid()
      reads this, player
    {
      player.Valid() && player.videoId == VideoIdOf(youtubeUrl)
    }

    function SyncState(): Sync
      reads this
    {
      Sync(currentVideoTime, seekToTime)
    }

    constructor ()
      ensures Valid() && fresh(player)
      ensures !showPauseMenu && activeTab == CommentsTab
      ensures youtubeUrl == "" && urlInput == ""
      ensures SyncState() == InitialSync
      ensures player.handle == None && !player.ticking
    {
      showPauseMenu, activeTab := false, CommentsTab;
      youtubeUrl, urlInput := "", "";
      currentVideoTime, seekToTime := 0, None;
      player := new Player("");
    }

    method HandleMenuToggle()
      requires Valid()
      modifies this
      ensures Valid()
      ensures showPauseMenu == !old(showPauseMenu)
      ensures activeTab == old(activeTab) && youtubeUrl == old(youtubeUrl) && urlInput == old(urlInput)
      ensures SyncState() == old(SyncState())
    {
      showPauseMenu := !showPauseMenu;
    }

    method ClosePauseMenu()
      requires Valid()
      modifies this
      ensures Valid()
      ensures !showPauseMenu
      ensures activeTab == old(activeTab) && youtubeUrl == old(youtubeUrl) && urlInput == old(urlInput)
      ensures SyncState() == old(SyncState())
    {
      showPauseMenu := false;
    }

    /** A quick action of the pause menu: open `tab` and close the menu. */
    method OpenFromMenu(tab: Tab)
      requires Valid()
      modifies this
      ensures Valid()
      ensures activeTab == tab && !showPauseMenu
      ensures youtubeUrl == old(youtubeUrl) && urlInput == old(urlInput)
      ensures SyncState() == old(SyncState())
    {
      activeTab := tab;
      showPauseMenu := false;
    }

    method HandleAskDoubt()
      requires Valid()
      modifies this
      ensures Valid()
      ensures activeTab == ChatTab && !showPauseMenu
      ensures youtubeUrl == old(youtubeUrl) && urlInput == old(urlInput)
      ensures SyncState() == old(SyncState())
    {
      OpenFromMenu(ChatTab);
    }

    method HandleAskAI()
      requires Valid()
      modifies this
      ensures Valid()
      ensures activeTab == AITab && !showPauseMenu
      ensures youtubeUrl == old(youtubeUrl) && urlInput == old(urlInput)
      ensures SyncState() == old(SyncState())
    {
      OpenFromMenu(AITab);
    }

    method HandleOpenBoard()
      requires Valid()
      modifies this
      ensures Valid()
      ensures activeTab == WhiteboardTab && !showPauseMenu
      ensures youtubeUrl == old(youtubeUrl) && urlInput == old(urlInput)
      ensures SyncState() == old(SyncState())
    {
      OpenFromMenu(WhiteboardTab);
    }

    /** The panel's own tab bar. */
    method SetActiveTab(tab: Tab)
      requires Valid()
      modifies this
      ensures Valid()
      ensures activeTab == tab
      ensures showPauseMenu == old(showPauseMenu) && youtubeUrl == old(youtubeUrl) && urlInput == old(urlInput)
      ensures SyncState() == old(SyncState())
    {
      activeTab := tab;
    }

    method SetUrlInput(text: string)
      requires Valid()
      modifies this
      ensures Valid()
      ensures urlInput == text
      ensures showPauseMenu == old(showPauseMenu) && activeTab == old(activeTab) && youtubeUrl == old(youtubeUrl)
      ensures SyncState() == old(SyncState())
    {
      urlInput := text;
    }

    /**
      * "Load Video": an accepted URL is handed to the player as typed
      * (untrimmed) and always gives it a video id; a rejected one changes
      * nothing and yields the schema's message.
      */
    method HandleLoadVideo() returns (failure: Option<string>)
      requires Valid()
      modifies this, player
      ensures Valid()
      ensures failure.None? <==> UrlAccepted(old(urlInput))
      ensures failure.Some? ==> failure.value == InvalidUrlMessage
      ensures failure.None? ==> youtubeUrl == old(urlInput) && player.videoId.Some?
      ensures failure.Some? ==> youtubeUrl == old(youtubeUrl) && player.videoId == old(player.videoId)
      ensures failure.Some? ==> player.handle == old(player.handle) && player.ticking == old(player.ticking)
      ensures failure.None? && player.videoId == old(player.videoId) ==>
        player.handle == old(player.handle) && player.ticking == old(player.ticking)
      ensures failure.None? && player.videoId != old(player.videoId) ==>
        !player.ticking &&
        player.handle == if old(player.handle).Some? then Some(old(player.handle).value.(destroyed := true)) else None
      ensures player.isPlaying == old(player.isPlaying) && player.isMuted == old(player.isMuted)
      ensures showPauseMenu == old(showPauseMenu) && activeTab == old(activeTab) && urlInput == old(urlInput)
      ensures SyncState() == old(SyncState())
    {
      if UrlAccepted(urlInput) {
        youtubeUrl := urlInput;
        player.ChangeUrl(youtubeUrl);
        AcceptedUrlHasVideoId(youtubeUrl);
        failure := None;
      } else {
        failure := Some(InvalidUrlMessage);
      }
    }

    /** One sampler firing; `onTimeUpdate` is `setCurrentVideoTime`, which is always present. */
    method Tick(clock: nat) returns (reported: Option<nat>)
      requires Valid()
      modifies this
      ensures Valid()
      ensures reported.Some? <==> player.ticking
      ensures reported.Some? ==> reported.value == clock
      ensures SyncState() == if reported.Some? then Step(old(SyncState()), TimeUpdate(clock)) else old(SyncState())
      ensures showPauseMenu == old(showPauseMenu) && activeTab == old(activeTab)
      ensures youtubeUrl == old(youtubeUrl) && urlInput == old(urlInput)
    {
      reported := player.SamplerTick(clock, true);
      if reported.Some? {
        currentVideoTime := reported.value;
      }
    }

    /** `onJumpToTime`: a comment asks for position `target`. */
    method RequestJump(target: nat)
      requires Valid()
      modifies this
      ensures Valid()
      ensures SyncState() == Step(old(SyncState()), JumpTo(target))
      ensures showPauseMenu == old(showPauseMenu) && activeTab == old(activeTab)
      ensures youtubeUrl == old(youtubeUrl) && urlInput == old(urlInput)
    {
      seekToTime := Some(target);
    }

    /** One run of the player's seek effect; `onSeekComplete` clears `seekToTime`. */
    method AttemptSeek() returns (seekedTo: Option<nat>)
      requires Valid()
      modifies this
      ensures Valid()
      ensures seekedTo == SeekedBy(old(SyncState()), SeekAttempt(player.CanSeek()))
      ensures SyncState() == Step(old(SyncState()), SeekAttempt(player.CanSeek()))
      ensures showPauseMenu == old(showPauseMenu) && activeTab == old(activeTab)
      ensures youtubeUrl == old(youtubeUrl) && urlInput == old(urlInput)
    {
      var completed;
      seekedTo, completed := player.ApplySeek(seekToTime, true);
      if completed {
        seekToTime := None;
      }
    }
  }
}
