/** The "Create New Room" dialog (`CreateGroupModal`): a name and a
    description, both required, posted trimmed. */
module RoomForm {
  import opened Wrappers
  import opened Text
  import opened Requests

  const NameRequired := "Room name is required"
  const DescriptionRequired := "Description is required"
  const CreateFailed := "Failed to create room. Please try again."

  /** The checks at the top of `handleSubmit`: the name first, then the
      description, each refused when it trims to nothing. */
  function RoomError(name: string, description: string): Option<string>
  {
    if Trim(name) == "" then Some(NameRequired)
    else if Trim(description) == "" then Some(DescriptionRequired)
    else None
  }

  /** The description is only looked at once the name passes, and a form
      passes exactly when neither field is blank. */
  lemma RoomErrorCases(name: string, description: string)
    ensures RoomError(name, description) == Some(NameRequired) <==> IsBlank(name)
    ensures RoomError(name, description) == Some(DescriptionRequired) <==> !IsBlank(name) && IsBlank(description)
    ensures RoomError(name, description).None? <==> !IsBlank(name) && !IsBlank(description)
  {
    TrimEmptyIffBlank(name);
    TrimEmptyIffBlank(description);
  }

  /** The body of the create request. */
  datatype CreateRoom = CreateRoom(name: string, description: string)

  /** The request sent for a form that passes: each field is its input with
      the white space at both ends cut off, so neither is empty nor starts or
      ends with white space. */
  function RequestFor(name: string, description: string): (req: CreateRoom)
    requires RoomError(name, description).None?
    ensures exists i, j :: 0 <= i <= j <= |name| && req.name == name[i..j] && IsBlank(name[..i]) && IsBlank(name[j..])
    ensures exists i, j ::
      0 <= i <= j <= |description| && req.description == description[i..j]
      && IsBlank(description[..i]) && IsBlank(description[j..])
    ensures req.name != "" && !IsSpace(req.name[0]) && !IsSpace(req.name[|req.name| - 1])
    ensures req.description != "" && !IsSpace(req.description[0])
    ensures !IsSpace(req.description[|req.description| - 1])
    ensures Trim(req.name) == req.name && Trim(req.description) == req.description
  {
    TrimIdempotent(name);
    TrimIdempotent(description);
    TrimIsSlice(name);
    TrimIsSlice(description);
    CreateRoom(Trim(name), Trim(description))
  }

  /** What the server sent back for a created room. */
  datatype RoomData = RoomData(id: Option<string>, name: Option<string>, description: Option<string>)

  /** A call the dialog makes on its parent. */
  datatype Notice = GroupCreated(data: RoomData) | Closed

  /** The open dialog. `hasOnGroupCreated` says whether the parent passed an
      `onGroupCreated` callback; `requests` lists the posted bodies and
      `notices` the calls made on the parent, oldest first. */
  class RoomModal {
    var roomName: string
    var description: string
    var loading: bool
    var error: string
    const hasOnGroupCreated: bool
    var requests: seq<CreateRoom>
    var notices: seq<Notice>

    constructor (onGroupCreated: bool)
      ensures roomName == "" && description == "" && !loading && error == ""
      ensures hasOnGroupCreated == onGroupCreated && requests == [] && notices == []
    {
      roomName, description, loading, error := "", "", false, "";
      hasOnGroupCreated := onGroupCreated;
      requests, notices := [], [];
    }

    method OnNameInput(text: string)
      modifies this
      ensures roomName == text && description == old(description) && error == old(error)
      ensures requests == old(requests) && notices == old(notices) && loading == old(loading)
    {
      roomName := text;
    }

    method OnDescriptionInput(text: string)
      modifies this
      ensures description == text && roomName == old(roomName) && error == old(error)
      ensures requests == old(requests) && notices == old(notices) && loading == old(loading)
    {
      description := text;
    }

    /** `handleSubmit`: a failed check shows its message and posts nothing.
        Otherwise the trimmed fields are posted. On success both fields are
        emptied, `onGroupCreated` gets the response when the parent passed
        one, and `onClose` follows; on failure the fields stay and the
        server's message or the default text is shown. `loading` is down
        again on both paths. */
    method OnSubmit(outcome: Outcome<RoomData>)
      modifies this
      ensures RoomError(old(roomName), old(description)).Some? ==>
        && error == RoomError(old(roomName), old(description)).value
        && roomName == old(roomName) && description == old(description)
        && requests == old(requests) && notices == old(notices) && loading == old(loading)
      ensures RoomError(old(roomName), old(description)).None? ==>
        requests == old(requests) + [RequestFor(old(roomName), old(description))] && !loading
      ensures RoomError(old(roomName), old(description)).None? && outcome.Success? ==>
        && roomName == "" && description == "" && error == ""
        && notices == old(notices) + (if hasOnGroupCreated then [GroupCreated(outcome.body)] else []) + [Closed]
      ensures RoomError(old(roomName), old(description)).None? && outcome.Failure? ==>
        && roomName == old(roomName) && description == old(description) && notices == old(notices)
        && error == ErrorText(outcome.serverMessage, CreateFailed)
    {
      var check := RoomError(roomName, description);
      if check.Some? {
        error := check.value;
        return;
      }
      var req := RequestFor(roomName, description);
      error := "";
      loading := true;
      requests := requests + [req];
      if outcome.Success? {
        roomName := "";
        description := "";
        if hasOnGroupCreated {
          notices := notices + [GroupCreated(outcome.body)];
        }
        notices := notices + [Closed];
      } else {
        error := ErrorText(outcome.serverMessage, CreateFailed);
      }
      loading := false;
    }

    /** `handleClose`: both fields and the error are cleared, then `onClose`
        is called. */
    method OnClose()
      modifies this
      ensures roomName == "" && description == "" && error == ""
      ensures notices == old(notices) + [Closed] && requests == old(requests) && loading == old(loading)
    {
      roomName := "";
      description := "";
      error := "";
      notices := notices + [Closed];
    }
  }
}
