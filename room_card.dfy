/**
  * A room's card on the dashboard: up to four sample avatars, a "+N more"
  * overflow label, and the link into the room.
  */
module RoomCard {
  import opened Options
  import opened Text

  const SampleInitials: seq<string> := ["JD", "SM", "AK", "RP"]
  const MaxAvatars: nat := 4

  /** Where `Array.prototype.slice` stops for end argument `end` on a list of length `len`. */
  function SliceEnd(len: nat, end: int): (r: nat)
    ensures r <= len
    ensures end >= 0 ==> r == if end < len then end else len
    ensures end < 0 ==> r + (-end) == len || (r == 0 && -end >= len)
  {
    if end < 0 then (if len + end > 0 then len + end else 0)
    else if end < len then end
    else len
  }

  function Min(a: int, b: int): int {
    if a <= b then a else b
  }

  /** `["JD", "SM", "AK", "RP"].slice(0, Math.min(4, activeMembers))`. */
  function SampleUsers(activeMembers: int): (r: seq<string>)
    ensures |r| <= MaxAvatars
    ensures r == SampleInitials[..|r|]
  {
    SampleInitials[..SliceEnd(|SampleInitials|, Min(MaxAvatars, activeMembers))]
  }

  /** Members not shown as an avatar. */
  function HiddenMembers(activeMembers: int): nat {
    if activeMembers > MaxAvatars then activeMembers - MaxAvatars else 0
  }

  /** The "+N more" label, shown only when there are more than four members. */
  function OverflowLabel(activeMembers: int): (caption: Option<string>)
    ensures caption.Some? <==> activeMembers > MaxAvatars
  {
    if activeMembers > MaxAvatars then Some("+" + NatToString(activeMembers - MaxAvatars) + " more") else None
  }

  /** For a real member count, the avatars are the first `min(4, n)` initials. */
  lemma SampleUsersPrefix(activeMembers: nat)
    ensures SampleUsers(activeMembers) == SampleInitials[..if activeMembers < MaxAvatars then activeMembers else MaxAvatars]
  {
  }

  /** Every member is accounted for exactly once: as an avatar or in the "+N more" count. */
  lemma AvatarsPlusOverflow(activeMembers: nat)
    ensures |SampleUsers(activeMembers)| + HiddenMembers(activeMembers) == activeMembers
  {
    SampleUsersPrefix(activeMembers);
  }

  /** The label's number reads back as the hidden-member count. */
  lemma OverflowLabelCount(activeMembers: int)
    requires activeMembers > MaxAvatars
    ensures var caption := OverflowLabel(activeMembers).value;
      var digits := caption[1..|caption| - 5];
      && caption[0] == '+' && caption[|caption| - 5..] == " more"
      && AllDigits(digits) && DecimalValue(digits) == HiddenMembers(activeMembers)
  {
    var digits := NatToString(activeMembers - MaxAvatars);
    var caption := "+" + digits + " more";
    assert caption[1..|caption| - 5] == digits;
    assert caption[|caption| - 5..] == " more";
    NatToStringValue(activeMembers - MaxAvatars);
  }

  /** A negative count is not clamped: `slice` counts a negative end from the back. */
  lemma NegativeCountShowsAvatars()
    ensures SampleUsers(-1) == ["JD", "SM", "AK"]
    ensures OverflowLabel(-1) == None
  {
    assert SliceEnd(4, -1) == 3;
  }

  /** The card's link target. */
  function RoomLink(id: string): (link: string)
    ensures |link| == 6 + |id| && link[..6] == "/room/" && link[6..] == id
  {
    "/room/" + id
  }

  /** Distinct rooms link to distinct routes. */
  lemma RoomLinkInjective(a: string, b: string)
    ensures RoomLink(a) == RoomLink(b) <==> a == b
  {
    if RoomLink(a) == RoomLink(b) {
      assert a == RoomLink(a)[6..];
    }
  }
}
