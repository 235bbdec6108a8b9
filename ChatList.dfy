/** The room list in the sidebar (`ChatList`): the rooms the server returns,
    reshaped into the chat records the list renders, and the selection. */
module ChatList {
  import opened Wrappers
  import opened Requests

  /** A room as the server returns it; any field may be missing. Members are
      given by id. */
  datatype Room = Room(
    id: Option<string>,
    name: Option<string>,
    isGroupChat: Option<bool>,
    members: Option<seq<string>>,
    description: Option<string>,
    photoUrl: Option<string>,
    updatedAt: Option<string>,
    createdAt: Option<string>)

  /** A chat record of the list. */
  datatype Chat = Chat(
    id: Option<string>,
    name: Option<string>,
    isGroup: Option<bool>,
    participantCount: nat,
    description: string,
    photoUrl: Option<string>,
    members: seq<string>,
    lastMessage: string,
    lastMessageTime: Option<string>,
    unreadCount: nat,
    createdAt: Option<string>)

  /** The callback of `rooms.map`: identity fields copied, `updatedAt` shown
      as the last-message time, the member count and list defaulted to 0 and
      `[]`, a missing or empty description to `''`, and no last message or
      unread count yet. */
  function ToChat(room: Room): (c: Chat)
    ensures c.id == room.id && c.name == room.name && c.isGroup == room.isGroupChat
    ensures c.photoUrl == room.photoUrl && c.createdAt == room.createdAt && c.lastMessageTime == room.updatedAt
    ensures c.participantCount == |room.members.GetOr([])| && c.members == room.members.GetOr([])
    ensures c.description == room.description.GetOr("")
    ensures c.lastMessage == "" && c.unreadCount == 0
  {
    Chat(room.id, room.name, room.isGroupChat,
         if room.members.Some? then |room.members.value| else 0,
         room.description.GetOr(""), room.photoUrl,
         room.members.GetOr([]), "", room.updatedAt, 0, room.createdAt)
  }

  /** `rooms.map(...)`: one chat per room, in the same order. */
  function ToChats(rooms: seq<Room>): (chats: seq<Chat>)
    ensures |chats| == |rooms|
    ensures forall i :: 0 <= i < |rooms| ==> chats[i] == ToChat(rooms[i])
  {
    if rooms == [] then [] else [ToChat(rooms[0])] + ToChats(rooms[1..])
  }

  /** Every chat of the list counts exactly the members it lists, whatever
      the server left out. */
  lemma ParticipantsMatchMembers(rooms: seq<Room>)
    ensures forall c :: c in ToChats(rooms) ==> c.participantCount == |c.members| && c.unreadCount == 0
  {
    var chats := ToChats(rooms);
    forall c | c in chats ensures c.participantCount == |c.members| && c.unreadCount == 0 {
      var i :| 0 <= i < |chats| && chats[i] == c;
      assert c == ToChat(rooms[i]);
    }
  }

  /** Mapping commutes with concatenation: the list order is the response
      order. */
  lemma {:induction false} ToChatsConcat(a: seq<Room>, b: seq<Room>)
    ensures ToChats(a + b) == ToChats(a) + ToChats(b)
  {
    if a == [] {
      assert a + b == b;
    } else {
      assert (a + b)[0] == a[0] && (a + b)[1..] == a[1..] + b;
      ToChatsConcat(a[1..], b);
    }
  }

  /** The list as `fetchChats` leaves it: the mapped `chats` of the response,
      `[]` when the response has none, and `[]` when the call fails. */
  function FetchedChats(outcome: Outcome<Option<seq<Room>>>): (chats: seq<Chat>)
    ensures outcome.Failure? ==> chats == []
    ensures outcome.Success? && outcome.body.None? ==> chats == []
    ensures outcome.Success? && outcome.body.Some? ==>
      |chats| == |outcome.body.value| && forall i :: 0 <= i < |chats| ==> chats[i] == ToChat(outcome.body.value[i])
  {
    if outcome.Success? then ToChats(outcome.body.GetOr([])) else []
  }

  /** The mounted list. `selectedChatId` is `None` for the initial `null`
      and otherwise the clicked chat's id, itself possibly undefined;
      `selections` lists the chats handed to `onChatSelect`, oldest first. */
  class ChatListPane {
    var chats: seq<Chat>
    var loading: bool
    var selectedChatId: Option<Option<string>>
    var selections: seq<Chat>

    /** First render: empty, loading, nothing selected. */
    constructor ()
      ensures chats == [] && loading && selectedChatId == None && selections == []
    {
      chats, loading, selectedChatId, selections := [], true, None, [];
    }

    /** `fetchChats`, run once by the mount effect. */
    method FetchChats(outcome: Outcome<Option<seq<Room>>>)
      modifies this
      ensures chats == FetchedChats(outcome) && !loading
      ensures selectedChatId == old(selectedChatId) && selections == old(selections)
    {
      loading := true;
      chats := FetchedChats(outcome);
      loading := false;
    }

    /** `handleChatClick`: the clicked chat's id becomes the selection and the
        chat goes to the parent. */
    method OnChatClick(chat: Chat)
      modifies this
      ensures selectedChatId == Some(chat.id) && selections == old(selections) + [chat]
      ensures chats == old(chats) && loading == old(loading)
    {
      selectedChatId := Some(chat.id);
      selections := selections + [chat];
    }
  }
}
