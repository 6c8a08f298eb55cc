/**
  * The "Create Study Room" dialog: a form with a room name and a subject,
  * both trimmed and length-checked before the room is handed to the
  * dashboard.
  */
module CreateRoomDialog {
  import opened Options
  import opened Text

  const TitleRequired := "Room name is required"
  const TitleTooLong := "Room name must be less than 100 characters"
  const SubjectRequired := "Subject is required"
  const SubjectTooLong := "Subject must be less than 50 characters"

  const MaxTitle: nat := 100
  const MaxSubject: nat := 50

  /** What the dialog hands to `onCreateRoom`. */
  datatype RoomDraft = RoomDraft(title: string, subject: string)

  /** `z.string().trim().min(1, required).max(max, tooLong)` on one field: the message it fails with, if any. */
  function FieldError(value: string, max: nat, required: string, tooLong: string): (r: Option<string>)
    requires required != tooLong
    ensures r.None? <==> 1 <= |Trim(value)| <= max
    ensures r == Some(required) <==> IsBlank(value)
    ensures r == Some(tooLong) <==> |Trim(value)| > max
  {
    var t := Trim(value);
    if |t| < 1 then Some(required)
    else if |t| > max then Some(tooLong)
    else None
  }

  function Messages(e: Option<string>): seq<string> {
    match e
    case Some(m) => [m]
    case None => []
  }

  /** `createRoomSchema`: the trimmed values, or every field's message in form order. */
  function ValidateRoom(title: string, subject: string): (r: Result<RoomDraft, seq<string>>)
    ensures r.Ok? <==> 1 <= |Trim(title)| <= MaxTitle && 1 <= |Trim(subject)| <= MaxSubject
    ensures r.Ok? ==> r.value == RoomDraft(Trim(title), Trim(subject))
    ensures r.Err? ==> 1 <= |r.error| <= 2
    ensures r.Err? ==> (TitleRequired in r.error <==> IsBlank(title))
    ensures r.Err? ==> (TitleTooLong in r.error <==> |Trim(title)| > MaxTitle)
    ensures r.Err? ==> (SubjectRequired in r.error <==> IsBlank(subject))
    ensures r.Err? ==> (SubjectTooLong in r.error <==> |Trim(subject)| > MaxSubject)
  {
    var titleError := FieldError(title, MaxTitle, TitleRequired, TitleTooLong);
    var subjectError := FieldError(subject, MaxSubject, SubjectRequired, SubjectTooLong);
    if titleError.None? && subjectError.None? then Ok(RoomDraft(Trim(title), Trim(subject)))
    else Err(Messages(titleError) + Messages(subjectError))
  }

  /** A room name of exactly 100 characters passes, although its message says "less than 100". */
  lemma LimitIsInclusive()
    ensures ValidateRoom(seq(MaxTitle, _ => 'a'), seq(MaxSubject, _ => 'b')).Ok?
    ensures ValidateRoom(seq(MaxTitle + 1, _ => 'a'), "b") == Err([TitleTooLong])
  {
    TrimUnpadded(seq(MaxTitle, _ => 'a'));
    TrimUnpadded(seq(MaxSubject, _ => 'b'));
    TrimUnpadded(seq(MaxTitle + 1, _ => 'a'));
    TrimUnpadded("b");
    assert FieldError(seq(MaxTitle + 1, _ => 'a'), MaxTitle, TitleRequired, TitleTooLong) == Some(TitleTooLong);
    assert FieldError("b", MaxSubject, SubjectRequired, SubjectTooLong) == None;
    assert [TitleTooLong] + [] == [TitleTooLong];
  }

  /** Surrounding blanks are not counted against the limit and are not kept. */
  lemma PaddingIsTrimmed(title: string, subject: string)
    requires 1 <= |title| <= MaxTitle && !IsWhitespace(title[0]) && !IsWhitespace(title[|title| - 1])
    requires 1 <= |subject| <= MaxSubject && !IsWhitespace(subject[0]) && !IsWhitespace(subject[|subject| - 1])
    ensures ValidateRoom("  " + title + " ", subject + "\t") == Ok(RoomDraft(title, subject))
  {
    TrimPadded("  ", title, " ");
    TrimPadded("", subject, "\t");
    assert "" + subject + "\t" == subject + "\t";
  }

  class Dialog {
    var open: bool
    /** The form's two fields. */
    var title: string
    var subject: string

    constructor ()
      ensures !open && title == "" && subject == ""
    {
      open, title, subject := false, "", "";
    }

    /** `onOpenChange`: the trigger button, the close button, a click outside. */
    method SetOpen(value: bool)
      modifies this
      ensures open == value && title == old(title) && subject == old(subject)
    {
      open := value;
    }

    method SetTitle(value: string)
      modifies this
      ensures title == value && open == old(open) && subject == old(subject)
    {
      title := value;
    }

    method SetSubject(value: string)
      modifies this
      ensures subject == value && open == old(open) && title == old(title)
    {
      subject := value;
    }

    /**
      * "Create Room": on valid input the trimmed room is returned for
      * `onCreateRoom`, the form is reset and the dialog closes; otherwise
      * the messages are returned and nothing changes.
      */
    method Submit() returns (r: Result<RoomDraft, seq<string>>)
      modifies this
      ensures r == ValidateRoom(old(title), old(subject))
      ensures r.Ok? ==> !open && title == "" && subject == ""
      ensures r.Err? ==> open == old(open) && title == old(title) && subject == old(subject)
    {
      r := ValidateRoom(title, subject);
      if r.Ok? {
        title, subject := "", "";
        open := false;
      }
    }

    /** "Cancel" closes the dialog without creating anything; the fields keep their text. */
    method Cancel()
      modifies this
      ensures !open && title == old(title) && subject == old(subject)
    {
      open := false;
    }
  }
}
