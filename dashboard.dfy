/**
  * The dashboard: the catalogue of study rooms, which starts with three
  * sample rooms and grows by one room each time the create-room dialog
  * succeeds.
  */
module Dashboard {
  import opened Options
  import opened Text
  import opened CreateRoomDialog
  import opened RoomCard

  /** The bundled thumbnail images. */
  datatype Thumbnail = MathThumb | PhysicsThumb | BiologyThumb

  datatype Room = Room(
    id: string,
    title: string,
    subject: string,
    thumbnail: Thumbnail,
    activeMembers: int,
    totalDuration: string)

  function InitialStudyRooms(): seq<Room> {
    [
      Room("1", "Advanced Calculus", "Mathematics", MathThumb, 12, "2h 30m"),
      Room("2", "Quantum Physics", "Physics", PhysicsThumb, 8, "1h 45m"),
      Room("3", "Cell Biology", "Biology", BiologyThumb, 15, "3h 10m")
    ]
  }

  /** The room at position `i` has id `String(i + 1)`. */
  predicate SequentialIds(rooms: seq<Room>) {
    forall i | 0 <= i < |rooms| :: rooms[i].id == NatToString(i + 1)
  }

  lemma InitialIdsSequential()
    ensures SequentialIds(InitialStudyRooms())
  {
    assert NatToString(1) == "1" && NatToString(2) == "2" && NatToString(3) == "3";
  }

  /** Sequential ids never repeat, so neither do the rooms' links. */
  lemma SequentialIdsDistinct(rooms: seq<Room>)
    requires SequentialIds(rooms)
    ensures forall i, j | 0 <= i < j < |rooms| :: rooms[i].id != rooms[j].id
    ensures forall i, j | 0 <= i < j < |rooms| :: RoomLink(rooms[i].id) != RoomLink(rooms[j].id)
  {
    forall i, j | 0 <= i < j < |rooms|
      ensures rooms[i].id != rooms[j].id && RoomLink(rooms[i].id) != RoomLink(rooms[j].id)
    {
      NatToStringInjective(i + 1, j + 1);
      RoomLinkInjective(rooms[i].id, rooms[j].id);
    }
  }

  /** The room `handleCreateRoom` builds when the catalogue holds `count` rooms. */
  function NewRoom(count: nat, draft: RoomDraft): Room {
    Room(NatToString(count + 1), draft.title, draft.subject, MathThumb, 0, "0h 0m")
  }

  /** Appending the next room keeps the ids sequential. */
  lemma AppendKeepsSequential(rooms: seq<Room>, draft: RoomDraft)
    requires SequentialIds(rooms)
    ensures SequentialIds(rooms + [NewRoom(|rooms|, draft)])
  {
  }

  class Page {
    var studyRooms: seq<Room>
    /** The create-room dialog in the page header. */
    const dialog: Dialog

    ghost predicate Valid()
      reads this
    {
      SequentialIds(studyRooms)
    }

    constructor ()
      ensures Valid() && fresh(dialog)
      ensures studyRooms == InitialStudyRooms()
      ensures !dialog.open && dialog.title == "" && dialog.subject == ""
    {
      studyRooms := InitialStudyRooms();
      dialog := new Dialog();
      InitialIdsSequential();
    }

    /** `handleCreateRoom`: one room appended, the earlier ones untouched. */
    method HandleCreateRoom(draft: RoomDraft)
      requires Valid()
      modifies this
      ensures Valid()
      ensures studyRooms == old(studyRooms) + [NewRoom(|old(studyRooms)|, draft)]
    {
      AppendKeepsSequential(studyRooms, draft);
      studyRooms := studyRooms + [NewRoom(|studyRooms|, draft)];
    }

    /** "Create Room" in the dialog, whose `onCreateRoom` is `handleCreateRoom`. */
    method SubmitDialog() returns (r: Result<RoomDraft, seq<string>>)
      requires Valid()
      modifies this, dialog
      ensures Valid()
      ensures r == ValidateRoom(old(dialog.title), old(dialog.subject))
      ensures r.Ok? ==> studyRooms == old(studyRooms) + [NewRoom(|old(studyRooms)|, r.value)]
      ensures r.Ok? ==> !dialog.open && dialog.title == "" && dialog.subject == ""
      ensures r.Err? ==> studyRooms == old(studyRooms)
      ensures r.Err? ==> dialog.open == old(dialog.open) && dialog.title == old(dialog.title) && dialog.subject == old(dialog.subject)
    {
      r := dialog.Submit();
      if r.Ok? {
        HandleCreateRoom(r.value);
      }
    }
  }
}
