/**
  * The timestamped comment store of the collaboration panel: comments carry
  * the video position they were written at, can be liked and unliked, and
  * offer a jump back to that position.
  */
module CommentsPanel {
  import opened Text

  datatype Comment = Comment(
    id: string,
    user: string,
    timestamp: string,
    videoTime: nat,
    videoTimeDisplay: string,
    content: string,
    likes: int)

  // ---------------------------------------------------------------------------
  // formatTime
  // ---------------------------------------------------------------------------

  /** A number rendered with at least two digits, as `n.toString().padStart(2, '0')`. */
  function TwoDigits(n: nat): (r: string)
    ensures 2 <= |r| && AllDigits(r)
    ensures n < 100 <==> |r| == 2
  {
    PadStart(NatToString(n), 2, '0')
  }

  lemma TwoDigitsValue(n: nat)
    ensures DecimalValue(TwoDigits(n)) == n
  {
    ZeroPaddedValue(n, 2);
  }

  /** `formatTime`: whole minutes, a colon, then the seconds within the minute. */
  function FormatTime(seconds: nat): (r: string)
    ensures |r| >= 5 && r[|r| - 3] == ':'
    ensures AllDigits(r[..|r| - 3]) && AllDigits(r[|r| - 2..])
    ensures |r| == |TwoDigits(seconds / 60)| + 3
  {
    var mins := TwoDigits(seconds / 60);
    var secs := TwoDigits(seconds % 60);
    var r := mins + ":" + secs;
    assert r[..|r| - 3] == mins && r[|r| - 2..] == secs;
    r
  }

  /** A minutes-and-seconds label. */
  predicate IsTimeLabel(r: string) {
    |r| >= 4 && r[|r| - 3] == ':' && AllDigits(r[..|r| - 3]) && AllDigits(r[|r| - 2..])
  }

  /** The number of seconds a label denotes. */
  function ParseTime(r: string): nat
    requires IsTimeLabel(r)
  {
    DecimalValue(r[..|r| - 3]) * 60 + DecimalValue(r[|r| - 2..])
  }

  /** Formatting loses nothing: the label reads back as the same number of seconds, with a seconds field below 60. */
  lemma FormatTimeInverse(seconds: nat)
    ensures IsTimeLabel(FormatTime(seconds))
    ensures ParseTime(FormatTime(seconds)) == seconds
    ensures DecimalValue(FormatTime(seconds)[|FormatTime(seconds)| - 2..]) < 60
  {
    var mins := TwoDigits(seconds / 60);
    var secs := TwoDigits(seconds % 60);
    var r := FormatTime(seconds);
    assert r == mins + ":" + secs;
    assert r[..|r| - 3] == mins && r[|r| - 2..] == secs;
    TwoDigitsValue(seconds / 60);
    TwoDigitsValue(seconds % 60);
  }

  /** Below 100 minutes the label is exactly "MM:SS". */
  lemma FormatTimeWidth(seconds: nat)
    ensures seconds < 6000 <==> |FormatTime(seconds)| == 5
  {
    assert seconds < 6000 <==> seconds / 60 < 100;
  }

  lemma FormatTimeInjective(a: nat, b: nat)
    ensures FormatTime(a) == FormatTime(b) <==> a == b
  {
    FormatTimeInverse(a);
    FormatTimeInverse(b);
  }

  /** Below 100 the rendering is the tens digit, then the units digit. */
  lemma TwoDigitsSmall(n: nat)
    requires n < 100
    ensures TwoDigits(n) == [DigitChar(n / 10), DigitChar(n % 10)]
  {
    if n < 10 {
      assert NatToString(n) == [DigitChar(n)];
      assert PadStart([DigitChar(n)], 2, '0') == PadStart(['0', DigitChar(n)], 2, '0');
    } else {
      assert NatToString(n / 10) == [DigitChar(n / 10)];
    }
  }

  lemma FormatTimeExamples()
    ensures FormatTime(225) == "03:45"
    ensures FormatTime(440) == "07:20"
  {
    TwoDigitsSmall(3);
    TwoDigitsSmall(45);
    TwoDigitsSmall(7);
    TwoDigitsSmall(20);
  }

  // ---------------------------------------------------------------------------
  // The comment list
  // ---------------------------------------------------------------------------

  function SeedComments(): seq<Comment> {
    [
      Comment("1", "Sarah Chen", "2 hours ago", 225, "03:45",
        "Great explanation of the concept! This really helped clarify the main points.", 12),
      Comment("2", "Alex Kumar", "1 hour ago", 440, "07:20",
        "Can someone explain the formula mentioned at this timestamp?", 5)
    ]
  }

  /** Each comment's "Jump to" label shows the position the jump goes to. */
  predicate DisplaysAgree(cs: seq<Comment>) {
    forall i | 0 <= i < |cs| :: cs[i].videoTimeDisplay == FormatTime(cs[i].videoTime)
  }

  lemma SeedDisplaysAgree()
    ensures DisplaysAgree(SeedComments())
  {
    FormatTimeExamples();
  }

  /** The comment a submit creates. */
  function NewComment(id: string, videoTime: nat, content: string): Comment {
    Comment(id, "You", "Just now", videoTime, FormatTime(videoTime), content, 0)
  }

  /** The `map` of `handleLike`: the comments with id `id` get `delta` more likes. */
  function AdjustLikes(cs: seq<Comment>, id: string, delta: int): (r: seq<Comment>)
    ensures |r| == |cs|
    ensures forall i | 0 <= i < |cs| :: r[i] == if cs[i].id == id then cs[i].(likes := cs[i].likes + delta) else cs[i]
  {
    if cs == [] then []
    else [if cs[0].id == id then cs[0].(likes := cs[0].likes + delta) else cs[0]] + AdjustLikes(cs[1..], id, delta)
  }

  /** `handleLike` on the comment list and the liked set together. */
  function ToggleLike(cs: seq<Comment>, liked: set<string>, id: string): (r: (seq<Comment>, set<string>))
    ensures id in r.1 <==> id !in liked
    ensures r.1 - {id} == liked - {id}
    ensures |r.0| == |cs|
    ensures forall i | 0 <= i < |cs| ::
      && r.0[i].(likes := 0) == cs[i].(likes := 0)
      && r.0[i].likes == cs[i].likes + (if cs[i].id != id then 0 else if id in liked then -1 else 1)
  {
    if id in liked then (AdjustLikes(cs, id, -1), liked - {id})
    else (AdjustLikes(cs, id, 1), liked + {id})
  }

  /** Liking twice restores both the comments and the liked set. */
  lemma ToggleLikeInvolutive(cs: seq<Comment>, liked: set<string>, id: string)
    ensures var once := ToggleLike(cs, liked, id); ToggleLike(once.0, once.1, id) == (cs, liked)
  {
    var once := ToggleLike(cs, liked, id);
    var twice := ToggleLike(once.0, once.1, id);
    assert twice.0 == cs;
    assert twice.1 == liked;
  }

  /**
    * Every comment's likes are its own count when the panel got it plus one
    * if the viewer likes it now: `base` holds the first, per position.
    */
  predicate LikesConsistent(cs: seq<Comment>, liked: set<string>, base: seq<int>) {
    |base| == |cs| &&
    forall i | 0 <= i < |cs| :: cs[i].likes == base[i] + (if cs[i].id in liked then 1 else 0)
  }

  lemma ToggleLikePreserves(cs: seq<Comment>, liked: set<string>, base: seq<int>, id: string)
    requires LikesConsistent(cs, liked, base)
    ensures var r := ToggleLike(cs, liked, id); LikesConsistent(r.0, r.1, base) && DisplaysAgree(r.0) == DisplaysAgree(cs)
  {
    var r := ToggleLike(cs, liked, id);
    forall i | 0 <= i < |cs| ensures r.0[i].videoTime == cs[i].videoTime && r.0[i].videoTimeDisplay == cs[i].videoTimeDisplay {
      assert r.0[i].(likes := 0).videoTime == cs[i].(likes := 0).videoTime;
      assert r.0[i].(likes := 0).videoTimeDisplay == cs[i].(likes := 0).videoTimeDisplay;
    }
  }

  class Panel {
    var comments: seq<Comment>
    var newComment: string
    var likedComments: set<string>
    /** Each comment's like count when it entered the list. */
    ghost var baseLikes: seq<int>

    ghost predicate Valid()
      reads this
    {
      LikesConsistent(comments, likedComments, baseLikes) && DisplaysAgree(comments)
    }

    constructor ()
      ensures Valid()
      ensures comments == SeedComments() && newComment == "" && likedComments == {}
    {
      comments := SeedComments();
      newComment := "";
      likedComments := {};
      baseLikes := [12, 5];
      SeedDisplaysAgree();
    }

    method SetNewComment(text: string)
      requires Valid()
      modifies this
      ensures Valid()
      ensures newComment == text
      ensures comments == old(comments) && likedComments == old(likedComments) && baseLikes == old(baseLikes)
    {
      newComment := text;
    }

    /**
      * `handleSubmit`: a draft that is not blank becomes a comment at the
      * front, stamped with the current position and keeping the draft as
      * typed; the draft is cleared. A blank draft changes nothing.
      * `freshId` stands for `Date.now()`, taken not to be liked already.
      */
    method HandleSubmit(currentVideoTime: nat, freshId: string) returns (added: bool)
      requires Valid() && freshId !in likedComments
      modifies this
      ensures Valid()
      ensures added <==> !IsBlank(old(newComment))
      ensures added ==> comments == [NewComment(freshId, currentVideoTime, old(newComment))] + old(comments)
      ensures added ==> newComment == ""
      ensures !added ==> comments == old(comments) && newComment == old(newComment)
      ensures likedComments == old(likedComments)
    {
      if !IsBlank(newComment) {
        comments := [NewComment(freshId, currentVideoTime, newComment)] + comments;
        baseLikes := [0] + baseLikes;
        newComment := "";
        added := true;
      } else {
        added := false;
      }
    }

    /** `handleLike`. */
    method HandleLike(commentId: string)
      requires Valid()
      modifies this
      ensures Valid()
      ensures (comments, likedComments) == ToggleLike(old(comments), old(likedComments), commentId)
      ensures newComment == old(newComment)
    {
      ToggleLikePreserves(comments, likedComments, baseLikes, commentId);
      var r := ToggleLike(comments, likedComments, commentId);
      comments, likedComments := r.0, r.1;
    }

    /** `handleJumpTo` from the comment at `index`: its stored position, which its label shows. */
    method HandleJumpTo(index: nat) returns (target: nat)
      requires Valid() && index < |comments|
      ensures FormatTime(target) == comments[index].videoTimeDisplay
      ensures target == comments[index].videoTime
    {
      target := comments[index].videoTime;
    }
  }
}
