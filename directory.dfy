/** The shared chat context as the Sidebar and the ChatPage drive it: the room list, the
    joined-room ids, the selected room, and the loading/error/creation flags. Each handler
    is split at its `await`: a start method runs when the user acts and an answer method
    when the request settles, so other actions can come in between. The answer is a
    parameter; `navigate('/login')` is recorded as a flag. */
module Directory {
  import opened Wrappers
  import opened Text
  import opened Entities
  import opened Http
  import opened Rooms

  const FetchRoomsFallback: string := "Failed to fetch rooms."
  const JoinFallback: string := "Failed to join room."
  const LeaveFallback: string := "Failed to leave room."
  const CreateFallback: string := "Failed to create room."
  const EmptyRoomName: string := "Room name cannot be empty."

  /** The body of the room-creation request. */
  datatype CreateRequest = CreateRequest(name: string, description: string)

  /** What a Join handler holds while its request is in flight: the room id and the room
      list of the render in which the button was clicked. */
  datatype JoinRequest = JoinRequest(roomId: RoomId, roomsAtClick: seq<Room>)

  /** What a Leave handler holds while its request is in flight: the room id and the
      selection of the render in which the button was clicked. */
  datatype LeaveRequest = LeaveRequest(roomId: RoomId, selectedAtClick: Option<Room>)

  /** Joined rooms for a profile: an undefined `_id` matches no member. */
  function JoinedFor(rooms: seq<Room>, uid: Option<UserId>): (ids: seq<RoomId>)
    ensures IsSubsequence(ids, RoomIds(rooms))
    ensures forall i :: 0 <= i < |rooms| && uid.Some? && HasMember(rooms[i], uid.value) ==> rooms[i].id in ids
    ensures forall x :: x in ids ==>
      uid.Some? && exists i :: 0 <= i < |rooms| && rooms[i].id == x && HasMember(rooms[i], uid.value)
  {
    if uid.Some? then JoinedRoomIds(rooms, uid.value) else []
  }

  /** Leaving a room removes it however many times it was joined. */
  lemma {:induction false} LeaveUndoesJoins(ids: seq<RoomId>, x: RoomId)
    ensures Without(ids + [x], x) == Without(ids, x)
  {
    if ids != [] {
      LeaveUndoesJoins(ids[1..], x);
      assert (ids + [x])[1..] == ids[1..] + [x];
    }
  }

  /** Joining a room not yet joined and then leaving it restores the joined list. */
  lemma {:induction false} LeaveAfterJoinRestores(ids: seq<RoomId>, x: RoomId)
    requires x !in ids
    ensures Without(ids + [x], x) == ids
  {
    LeaveUndoesJoins(ids, x);
    WithoutAbsent(ids, x);
  }

  lemma {:induction false} WithoutAbsent(ids: seq<RoomId>, x: RoomId)
    requires x !in ids
    ensures Without(ids, x) == ids
  {
    if ids != [] {
      WithoutAbsent(ids[1..], x);
      assert ids == [ids[0]] + ids[1..];
    }
  }

  /** The context's room state, plus the chat page's own `roomCreatedAlert` flag, which lives
      in the page component rather than in the context and is kept here beside the state the
      same handler updates. */
  class ChatContext {
    var rooms: seq<Room>
    var userRooms: seq<RoomId>
    var selectedRoom: Option<Room>
    var loading: bool
    var error: string
    var isCreating: bool
    var newRoom: string
    var newRoomDescription: string
    var roomCreatedAlert: bool
    var atLogin: bool

    constructor ()
      ensures rooms == [] && userRooms == [] && selectedRoom == None
      ensures !loading && error == "" && !isCreating && !roomCreatedAlert && !atLogin
      ensures newRoom == "" && newRoomDescription == ""
    {
      rooms, userRooms, selectedRoom := [], [], None;
      loading, error, isCreating := false, "", false;
      newRoom, newRoomDescription := "", "";
      roomCreatedAlert, atLogin := false, false;
    }

    /** The shared `catch` block of the room handlers. */
    method ReportFailure(e: HttpError, fallback: string)
      modifies this`error, this`atLogin
      ensures error == Classify(e, fallback).message
      ensures atLogin == (old(atLogin) || Classify(e, fallback).toLogin)
    {
      var report := Classify(e, fallback);
      error := report.message;
      if report.toLogin {
        atLogin := true;
      }
    }

    /** `fetchRooms`, up to its first request: the flags are set and the room list is asked for. */
    method StartFetchRooms()
      modifies this`loading, this`error
      ensures loading && error == ""
    {
      loading, error := true, "";
    }

    /** The room list arrives, or the first request fails. On success the list replaces
        `rooms` and is handed on to the profile request; on failure the handler ends. */
    method RoomsAnswered(outcome: HttpOutcome<seq<Room>>) returns (list: Option<seq<Room>>)
      modifies this`rooms, this`loading, this`error, this`atLogin
      ensures outcome.Ok? ==>
        list == Some(outcome.value) && rooms == outcome.value
        && loading == old(loading) && error == old(error) && atLogin == old(atLogin)
      ensures outcome.Failed? ==>
        list == None && rooms == old(rooms) && !loading
        && error == Classify(outcome.error, FetchRoomsFallback).message
        && atLogin == (old(atLogin) || Classify(outcome.error, FetchRoomsFallback).toLogin)
    {
      match outcome {
      case Failed(e) =>
        ReportFailure(e, FetchRoomsFallback);
        loading := false;
        list := None;
      case Ok(data) =>
        rooms := data;
        list := Some(data);
      }
    }

    /** The profile arrives for the room list `list` fetched just before. The joined ids are
        computed from that list, not from whatever `rooms` holds by now. */
    method ProfileAnswered(list: seq<Room>, outcome: HttpOutcome<User>)
      modifies this`userRooms, this`loading, this`error, this`atLogin
      ensures !loading
      ensures outcome.Ok? ==>
        userRooms == JoinedFor(list, outcome.value.id) && error == old(error) && atLogin == old(atLogin)
      ensures outcome.Failed? ==>
        userRooms == old(userRooms) && error == Classify(outcome.error, FetchRoomsFallback).message
        && atLogin == (old(atLogin) || Classify(outcome.error, FetchRoomsFallback).toLogin)
    {
      match outcome {
      case Failed(e) =>
        ReportFailure(e, FetchRoomsFallback);
      case Ok(profile) =>
        userRooms := JoinedFor(list, profile.id);
      }
      loading := false;
    }

    /** A click on Join: the flags are set and the handler keeps the room list of the
        render it was created in. */
    method StartJoin(roomId: RoomId) returns (pending: JoinRequest)
      modifies this`loading, this`error
      ensures loading && error == ""
      ensures pending == JoinRequest(roomId, rooms)
    {
      loading, error := true, "";
      pending := JoinRequest(roomId, rooms);
    }

    /** The join request's answer. On success the id is appended to the current joined ids
        (even if already present) and the room, when the list of the click's render has it,
        becomes the selection. */
    method JoinAnswered(pending: JoinRequest, outcome: HttpOutcome<()>)
      modifies this`userRooms, this`selectedRoom, this`loading, this`error, this`atLogin
      ensures !loading
      ensures outcome.Ok? ==>
        userRooms == old(userRooms) + [pending.roomId] && error == old(error) && atLogin == old(atLogin)
        && selectedRoom == (if FindRoom(pending.roomsAtClick, pending.roomId).Some?
                            then FindRoom(pending.roomsAtClick, pending.roomId) else old(selectedRoom))
      ensures outcome.Failed? ==>
        userRooms == old(userRooms) && selectedRoom == old(selectedRoom)
        && error == Classify(outcome.error, JoinFallback).message
        && atLogin == (old(atLogin) || Classify(outcome.error, JoinFallback).toLogin)
    {
      match outcome {
      case Failed(e) =>
        ReportFailure(e, JoinFallback);
      case Ok(_) =>
        userRooms := userRooms + [pending.roomId];
        var joined := FindRoom(pending.roomsAtClick, pending.roomId);
        if joined.Some? {
          selectedRoom := joined;
        }
      }
      loading := false;
    }

    /** A click on Leave: the flags are set and the handler keeps the selection of the render
        it was created in. */
    method StartLeave(roomId: RoomId) returns (pending: LeaveRequest)
      modifies this`loading, this`error
      ensures loading && error == ""
      ensures pending == LeaveRequest(roomId, selectedRoom)
    {
      loading, error := true, "";
      pending := LeaveRequest(roomId, selectedRoom);
    }

    /** The leave request's answer. On success every occurrence of the id is dropped from the
        current joined ids, and the selection is cleared when the click's render had that room
        selected, whatever is selected now. */
    method LeaveAnswered(pending: LeaveRequest, outcome: HttpOutcome<()>)
      modifies this`userRooms, this`selectedRoom, this`loading, this`error, this`atLogin
      ensures !loading
      ensures outcome.Ok? ==>
        userRooms == Without(old(userRooms), pending.roomId) && error == old(error) && atLogin == old(atLogin)
        && selectedRoom == (if pending.selectedAtClick.Some? && pending.selectedAtClick.value.id == pending.roomId
                            then None else old(selectedRoom))
      ensures outcome.Failed? ==>
        userRooms == old(userRooms) && selectedRoom == old(selectedRoom)
        && error == Classify(outcome.error, LeaveFallback).message
        && atLogin == (old(atLogin) || Classify(outcome.error, LeaveFallback).toLogin)
    {
      match outcome {
      case Failed(e) =>
        ReportFailure(e, LeaveFallback);
      case Ok(_) =>
        userRooms := Without(userRooms, pending.roomId);
        if pending.selectedAtClick.Some? && pending.selectedAtClick.value.id == pending.roomId {
          selectedRoom := None;
        }
      }
      loading := false;
    }

    /** A click on a listed room opens it only if the user has joined it. */
    method ClickRoom(room: Room)
      modifies this`selectedRoom
      ensures selectedRoom == (if room.id in userRooms then Some(room) else old(selectedRoom))
    {
      if room.id in userRooms {
        selectedRoom := Some(room);
      }
    }

    /** The create-room button toggles the creation form. */
    method ToggleCreating()
      modifies this`isCreating
      ensures isCreating == !old(isCreating)
    {
      isCreating := !isCreating;
    }

    /** Typing into the creation form. */
    method EditRoomDraft(name: string, description: string)
      modifies this`newRoom, this`newRoomDescription
      ensures newRoom == name && newRoomDescription == description
    {
      newRoom, newRoomDescription := name, description;
    }

    /** `handleCreateRoom`, up to its request. A blank name is refused before the request
        and before the `try`, so nothing but the error changes then. Otherwise the request
        carries the untrimmed drafts of the submitting render. */
    method StartCreate() returns (request: Option<CreateRequest>)
      modifies this`loading, this`error
      ensures IsBlank(newRoom) ==> request == None && error == EmptyRoomName && loading == old(loading)
      ensures !IsBlank(newRoom) ==>
        request == Some(CreateRequest(newRoom, newRoomDescription)) && loading && error == ""
    {
      if IsBlank(newRoom) {
        error := EmptyRoomName;
        return None;
      }
      loading, error := true, "";
      request := Some(CreateRequest(newRoom, newRoomDescription));
    }

    /** The creation request's answer. On success the created room and its id are appended to
        the current lists, the alert is raised and the drafts are cleared; either way the form
        closes and loading ends. */
    method CreateAnswered(outcome: HttpOutcome<Room>)
      modifies this`rooms, this`userRooms, this`isCreating, this`roomCreatedAlert
      modifies this`newRoom, this`newRoomDescription, this`loading, this`error, this`atLogin
      ensures !loading && !isCreating
      ensures outcome.Ok? ==>
        rooms == old(rooms) + [outcome.value] && userRooms == old(userRooms) + [outcome.value.id]
        && newRoom == "" && newRoomDescription == "" && roomCreatedAlert
        && error == old(error) && atLogin == old(atLogin)
      ensures outcome.Failed? ==>
        rooms == old(rooms) && userRooms == old(userRooms)
        && newRoom == old(newRoom) && newRoomDescription == old(newRoomDescription)
        && roomCreatedAlert == old(roomCreatedAlert)
        && error == Classify(outcome.error, CreateFallback).message
        && atLogin == (old(atLogin) || Classify(outcome.error, CreateFallback).toLogin)
    {
      match outcome {
      case Failed(e) =>
        ReportFailure(e, CreateFallback);
      case Ok(room) =>
        rooms := rooms + [room];
        userRooms := userRooms + [room.id];
        isCreating := false;
        roomCreatedAlert := true;
        newRoom, newRoomDescription := "", "";
      }
      isCreating := false;
      loading := false;
    }

    /** The 3-second timeout that hides the "room created" alert. */
    method CreatedAlertExpired()
      modifies this`roomCreatedAlert
      ensures !roomCreatedAlert
    {
      roomCreatedAlert := false;
    }
  }

  /** Room A is selected, the user leaves it and, while the request is in flight, opens the
      joined room B: the leave handler's answer clears the selection, so B is closed too. */
  method LeaveThenOpenOther() returns (a: Room, b: Room, selected: Option<Room>)
    ensures a.id != b.id && selected == None
  {
    a := Room("a", "A", "", []);
    b := Room("b", "B", "", []);
    var c := new ChatContext();
    c.rooms, c.userRooms, c.selectedRoom := [a, b], [a.id, b.id], Some(a);
    var pending := c.StartLeave(a.id);
    c.ClickRoom(b);
    assert c.selectedRoom == Some(b);
    c.LeaveAnswered(pending, Ok(()));
    selected := c.selectedRoom;
  }
}
