/** The older chat pane (`ChatWindow`) shown beside the room list: it takes
    the socket, the connection flag and the messages from the application
    store, joins the selected chat, and sends without waiting for an
    acknowledgement. */
module ChatWindow {
  import opened Wrappers
  import opened Text
  import opened Messages
  import opened Grouping

  /** The selected chat as the room list hands it over. */
  datatype ChatInfo = ChatInfo(id: string, isGroup: bool)

  /** `msg.createdAt || msg.timestamp`: the creation time, or the other
      timestamp field when it is missing. */
  function Stamp(m: Message): (t: Option<int>)
    ensures m.createdAt.Some? ==> t == m.createdAt
    ensures m.createdAt.None? ==> t == m.timestamp
  {
    if m.createdAt.Some? then m.createdAt else m.timestamp
  }

  /** The grouping key of this pane: the day label of `Stamp`. */
  function StampDay(cal: Calendar): Message -> DayLabel
  {
    (m: Message) => FormatDate(Stamp(m), cal)
  }

  /** `groupMessagesByDate`: the `forEach` loop that creates the array of a
      label the first time the label is met and pushes each message onto the
      array of its label. The result is the key order and the dictionary of
      the `groups` object: each message is in the group of its own label,
      each group keeps list order, every label is listed once. */
  method GroupMessagesByDate(msgs: seq<Message>, cal: Calendar) returns (order: seq<DayLabel>, groups: map<DayLabel, seq<Message>>)
    ensures Groups(order, groups) == GroupBy(msgs, StampDay(cal))
    ensures Distinct(order) && (forall k :: k in groups <==> k in order)
    ensures groups.Keys == KeySet(msgs, StampDay(cal))
    ensures forall k :: k in groups ==> groups[k] == Select(msgs, StampDay(cal), k)
    ensures Total(order, groups) == |msgs|
  {
    order, groups := [], map[];
    var i := 0;
    while i < |msgs|
      invariant 0 <= i <= |msgs|
      invariant Groups(order, groups) == GroupBy(msgs[..i], StampDay(cal))
    {
      var date := FormatDate(Stamp(msgs[i]), cal);
      GroupBySnoc(msgs, i, StampDay(cal));
      if date in groups {
        groups := groups[date := groups[date] + [msgs[i]]];
      } else {
        order := order + [date];
        groups := groups[date := [msgs[i]]];
      }
      i := i + 1;
    }
    assert msgs[..|msgs|] == msgs;
    GroupByBuckets(msgs, StampDay(cal));
    GroupByTotal(msgs, StampDay(cal));
  }

  /** `isOwnMessage`: the sender's `emailId`, or the flat `senderEmail`,
      equals the signed-in user's e-mail. With no signed-in e-mail, a message
      missing either field counts as own (`undefined === undefined`). */
  function IsOwnMessage(m: Message, currentUser: Option<string>): (own: bool)
    ensures own <==> (|| (m.sender.Some? && m.sender.value.emailId == currentUser)
                      || (m.sender.None? && currentUser.None?)
                      || m.senderEmail == currentUser)
  {
    SenderEmailId(m) == currentUser || m.senderEmail == currentUser
  }

  /** The mounted pane. `log` is what it emitted on the socket, oldest first;
      `messageListener` whether its `newMessage` listener is registered. */
  class Pane {
    var socketPresent: bool
    var chat: Option<ChatInfo>
    var isConnected: bool
    var input: string
    var sending: bool
    var log: seq<Emission>
    var messageListener: bool

    /** Between two handlers `sending` is always down again, and the
        listener is registered exactly while there are a socket and a chat. */
    ghost predicate Valid()
      reads this
    {
      !sending && messageListener == (socketPresent && chat.Some?)
    }

    /** Mount: the join effect runs for the initial socket and chat. */
    constructor (socket: bool, selected: Option<ChatInfo>, connected: bool)
      ensures Valid()
      ensures socketPresent == socket && chat == selected && isConnected == connected && input == ""
      ensures log == if socket && selected.Some? then [JoinChat(selected.value.id)] else []
    {
      socketPresent, chat, isConnected := socket, selected, connected;
      input, sending := "", false;
      log, messageListener := [], false;
      if socket && selected.Some? {
        log := [JoinChat(selected.value.id)];
        messageListener := true;
      }
    }

    /** The socket or the chat changed: the previous effect's cleanup only
        removes the `newMessage` listener (no `leaveChat`), then the chat is
        joined if there are a socket and a chat. The connection flag plays no
        part. */
    method OnDepsChanged(socket: bool, selected: Option<ChatInfo>)
      requires Valid()
      modifies this
      ensures Valid()
      ensures socketPresent == socket && chat == selected
      ensures isConnected == old(isConnected) && input == old(input)
      ensures log == old(log) + (if socket && selected.Some? then [JoinChat(selected.value.id)] else [])
    {
      messageListener := false;
      socketPresent, chat := socket, selected;
      if socketPresent && chat.Some? {
        log := log + [JoinChat(chat.value.id)];
        messageListener := true;
      }
    }

    /** Unmount: the cleanup removes the listener and emits nothing. */
    method OnUnmount()
      requires Valid()
      modifies this
      ensures !messageListener && log == old(log) && sending == old(sending)
      ensures input == old(input) && chat == old(chat) && socketPresent == old(socketPresent)
      ensures isConnected == old(isConnected)
    {
      messageListener := false;
    }

    /** The store's connection flag changed. */
    method OnConnectionChanged(connected: bool)
      requires Valid()
      modifies this
      ensures Valid() && isConnected == connected
      ensures log == old(log) && input == old(input) && chat == old(chat)
      ensures socketPresent == old(socketPresent) && messageListener == old(messageListener)
      ensures sending == old(sending)
    {
      isConnected := connected;
    }

    method OnEdit(text: string)
      requires Valid()
      modifies this
      ensures Valid() && input == text && log == old(log)
      ensures chat == old(chat) && socketPresent == old(socketPresent) && isConnected == old(isConnected)
      ensures messageListener == old(messageListener)
    {
      input := text;
    }

    /** `handleSendMessage`: nothing when the trimmed input is empty, the
        socket is missing or no chat is selected (the connection flag is not
        consulted); otherwise `sendMessage {chatId, content}` is emitted with
        no acknowledgement callback, the input is cleared, and `sending`,
        raised before the emit, is lowered again in `finally`. */
    method OnSubmit()
      requires Valid()
      modifies this
      ensures Valid() && !sending
      ensures Trim(old(input)) == [] || !socketPresent || chat.None? ==>
        log == old(log) && input == old(input)
      ensures Trim(old(input)) != [] && socketPresent && chat.Some? ==>
        log == old(log) + [SendMessage(chat.value.id, Trim(old(input)), false)] && input == ""
      ensures socketPresent == old(socketPresent) && chat == old(chat) && isConnected == old(isConnected)
    {
      var content := Trim(input);
      if content == [] || !socketPresent || chat.None? {
        return;
      }
      sending := true;
      log := log + [SendMessage(chat.value.id, content, false)];
      input := "";
      sending := false;
    }

    /** The send button is disabled when the input is blank, a send is under
        way, or the store says the socket is disconnected. */
    function SendDisabled(): (disabled: bool)
      reads this
      ensures disabled <==> IsBlank(input) || sending || !isConnected
    {
      TrimEmptyIffBlank(input);
      Trim(input) == [] || sending || !isConnected
    }
  }
}
