/** The full-page chat view (`Chat`): one room at a time, its message list
    fed by a history fetch and by `newMessage` events from the shared socket,
    `joinChat` on activation and on every reconnect, `leaveChat` at teardown,
    and a send whose `sending` flag only the acknowledgement clears.

    Every handler runs to completion before the next event, so the view is a
    state machine: `Step` gives the effect of one event on a `RoomState`, and
    the class `ChatRoom` performs the same updates in place. */
module Chat {
  import opened Wrappers
  import opened Text
  import opened Messages
  import opened Grouping

  /* ----------------------------- ingestion ----------------------------- */

  /** The ids present in a message list (a missing id is an id too: the
      handler compares `m._id === msg._id`, and `undefined === undefined`). */
  function Ids(msgs: seq<Message>): set<Option<string>>
  {
    set i | 0 <= i < |msgs| :: msgs[i].id
  }

  /** No two messages share an id. */
  predicate DistinctIds(msgs: seq<Message>)
  {
    forall i, j :: 0 <= i < j < |msgs| ==> msgs[i].id != msgs[j].id
  }

  /** The `newMessage` handler's update: a message whose id is already in the
      list leaves it as it is; any other message goes to the end. */
  function Ingest(msgs: seq<Message>, m: Message): (r: seq<Message>)
    ensures m.id in Ids(msgs) ==> r == msgs
    ensures m.id !in Ids(msgs) ==> r == msgs + [m]
    ensures Ids(r) == Ids(msgs) + {m.id}
    ensures DistinctIds(msgs) ==> DistinctIds(r)
  {
    if exists i :: 0 <= i < |msgs| && msgs[i].id == m.id then msgs
    else
      var r := msgs + [m];
      assert Ids(r) == Ids(msgs) + {m.id} by {
        forall x | x in Ids(r) ensures x in Ids(msgs) + {m.id} {
          var i :| 0 <= i < |r| && r[i].id == x;
          if i < |msgs| { assert r[i] == msgs[i]; } else { assert r[i] == m; }
        }
        forall x | x in Ids(msgs) ensures x in Ids(r) {
          var i :| 0 <= i < |msgs| && msgs[i].id == x;
          assert r[i] == msgs[i];
        }
        assert r[|msgs|].id == m.id;
      }
      r
  }

  /** The list after a run of `newMessage` events, oldest first. */
  function IngestAll(msgs: seq<Message>, arrivals: seq<Message>): seq<Message>
  {
    if arrivals == [] then msgs
    else Ingest(IngestAll(msgs, arrivals[..|arrivals| - 1]), arrivals[|arrivals| - 1])
  }

  /** The reference for a run of ingests: the arrivals whose id was seen
      neither in the starting list nor among the earlier arrivals, in the
      order they arrived. */
  function FirstArrivals(msgs: seq<Message>, arrivals: seq<Message>): seq<Message>
  {
    if arrivals == [] then []
    else
      var earlier, m := arrivals[..|arrivals| - 1], arrivals[|arrivals| - 1];
      FirstArrivals(msgs, earlier) + (if m.id in Ids(msgs) + Ids(earlier) then [] else [m])
  }

  /** Any run of ingests keeps what was there, appends exactly the first
      arrival of each new id in arrival order, ends up holding every id seen,
      and keeps the ids distinct if they were. */
  lemma {:induction false} IngestAllFirstSeen(msgs: seq<Message>, arrivals: seq<Message>)
    ensures IngestAll(msgs, arrivals) == msgs + FirstArrivals(msgs, arrivals)
    ensures Ids(IngestAll(msgs, arrivals)) == Ids(msgs) + Ids(arrivals)
    ensures DistinctIds(msgs) ==> DistinctIds(IngestAll(msgs, arrivals))
  {
    if arrivals != [] {
      var earlier, m := arrivals[..|arrivals| - 1], arrivals[|arrivals| - 1];
      IngestAllFirstSeen(msgs, earlier);
      IdsSnoc(arrivals);
    }
  }

  /** The ids of a list are those of all but its last message, and the last
      one's. */
  lemma IdsSnoc(xs: seq<Message>)
    requires xs != []
    ensures Ids(xs) == Ids(xs[..|xs| - 1]) + {xs[|xs| - 1].id}
  {
    var init := xs[..|xs| - 1];
    forall x | x in Ids(xs) ensures x in Ids(init) + {xs[|xs| - 1].id} {
      var i :| 0 <= i < |xs| && xs[i].id == x;
      if i < |init| { assert xs[i] == init[i]; }
    }
    forall x | x in Ids(init) ensures x in Ids(xs) {
      var i :| 0 <= i < |init| && init[i].id == x;
      assert xs[i] == init[i];
    }
  }

  /* ---------------------------- day grouping ---------------------------- */

  /** The grouping key of `Chat`: the day label of `createdAt`. */
  function DayOf(cal: Calendar): Message -> DayLabel
  {
    (m: Message) => FormatDate(m.createdAt, cal)
  }

  /** `groupMessagesByDate(msgs)`: the `reduce` that pushes each message into
      the array of its day label. */
  function GroupMessagesByDate(msgs: seq<Message>, cal: Calendar): Groups<DayLabel, Message>
  {
    GroupBy(msgs, DayOf(cal))
  }

  /** Every message lands in the group of its own `createdAt` label, each
      group keeps the messages of its label in list order, and no message is
      lost or repeated. */
  lemma GroupMessagesByDatePartition(msgs: seq<Message>, cal: Calendar)
    ensures WellFormed(GroupMessagesByDate(msgs, cal))
    ensures GroupMessagesByDate(msgs, cal).buckets.Keys == KeySet(msgs, DayOf(cal))
    ensures forall k :: k in GroupMessagesByDate(msgs, cal).buckets ==>
      GroupMessagesByDate(msgs, cal).buckets[k] == Select(msgs, DayOf(cal), k)
    ensures Total(GroupMessagesByDate(msgs, cal).order, GroupMessagesByDate(msgs, cal).buckets) == |msgs|
  {
    GroupByBuckets(msgs, DayOf(cal));
    GroupByTotal(msgs, DayOf(cal));
  }

  /** Messages from two different older days that share their month-and-day
      text, such as the same date a year apart, end up in one group. */
  lemma SameDateOneGroup(msgs: seq<Message>, cal: Calendar, i: nat, j: nat)
    requires i < |msgs| && j < |msgs|
    requires msgs[i].createdAt.Some? && msgs[j].createdAt.Some?
    requires msgs[i].createdAt.value != cal.today && msgs[i].createdAt.value != cal.today - 1
    requires msgs[j].createdAt.value != cal.today && msgs[j].createdAt.value != cal.today - 1
    requires cal.monthDay(msgs[i].createdAt.value) == cal.monthDay(msgs[j].createdAt.value)
    ensures var g := GroupMessagesByDate(msgs, cal).buckets;
      var k := MonthDay(cal.monthDay(msgs[i].createdAt.value));
      k in g && msgs[i] in g[k] && msgs[j] in g[k]
  {
    var k := MonthDay(cal.monthDay(msgs[i].createdAt.value));
    assert DayOf(cal)(msgs[i]) == k;
    assert DayOf(cal)(msgs[j]) == k;
    GroupMessagesByDatePartition(msgs, cal);
    assert k in KeySet(msgs, DayOf(cal));
    SelectMembers(msgs, DayOf(cal), k);
  }

  /** `isOwn`: the message's `sender?._id` equals the signed-in user's id
      (both missing counts as equal, as `undefined === undefined` does). */
  function IsOwn(m: Message, currentUserId: Option<string>): (own: bool)
    ensures own <==> (m.sender.Some? && m.sender.value.id == currentUserId) || (m.sender.None? && currentUserId.None?)
  {
    SenderId(m) == currentUserId
  }

  /* ---------------------------- the session ----------------------------- */

  /** The state of one mounted (or torn down) chat view.
      `connected` is the socket's connection flag, `log` every emission the
      view made, oldest first, `pendingAcks` the sends whose acknowledgement
      has not come back, `joinListener` the room of the registered
      reconnect-join `connect` listener, `messageListener` whether the
      `newMessage` listener is registered. */
  datatype RoomState = RoomState(
    chatId: string,
    mounted: bool,
    connected: bool,
    messages: seq<Message>,
    loading: bool,
    input: string,
    sending: bool,
    pendingAcks: nat,
    log: seq<Emission>,
    joinListener: Option<string>,
    messageListener: bool)

  /** One event delivered to the view: a transport transition, an inbound
      message, the outcome of the history fetch, a user action, an
      acknowledgement, a route change or the unmount. */
  datatype Event =
    | Connect
    | Disconnect
    | HistoryLoaded(history: Option<seq<Message>>)
    | HistoryFailed
    | Incoming(msg: Message)
    | Edit(text: string)
    | Submit
    | Ack
    | SwitchRoom(newChatId: string)
    | Teardown

  /** The listeners are registered exactly while the view is mounted on a
      non-empty room id, and the join listener is for that room. */
  ghost predicate Inv(s: RoomState)
  {
    && s.joinListener == (if s.mounted && s.chatId != "" then Some(s.chatId) else None)
    && s.messageListener == (s.mounted && s.chatId != "")
  }

  /** The effects keyed on `chatId` set up for room `id` (the fetch starts,
      the join is emitted if the socket is connected, the listeners are
      registered); nothing for an empty id. */
  function Activate(s: RoomState, id: string): RoomState
  {
    if id == "" then s.(chatId := id)
    else s.(chatId := id, loading := true,
            log := s.log + (if s.connected then [JoinChat(id)] else []),
            joinListener := Some(id), messageListener := true)
  }

  /** The cleanups of those effects: the list is emptied, `leaveChat` is
      emitted for the room being left (joined or not) and both listeners are
      removed; nothing for an empty id, whose effects registered no cleanup. */
  function Deactivate(s: RoomState): RoomState
  {
    if s.chatId == "" then s
    else s.(messages := [], log := s.log + [LeaveChat(s.chatId)],
            joinListener := None, messageListener := false)
  }

  /** The view right after its first render and effects. */
  function Mount(chatId: string, connected: bool): (s: RoomState)
    ensures Inv(s) && s.mounted && s.chatId == chatId && s.messages == []
    ensures s.log == if chatId != "" && connected then [JoinChat(chatId)] else []
  {
    Activate(RoomState(chatId, true, connected, [], true, "", false, 0, [], None, false), chatId)
  }

  /** `handleSendMessage` passes its guard: something other than white space
      is typed and the socket is connected. */
  predicate CanSend(s: RoomState)
  {
    s.mounted && Trim(s.input) != [] && s.connected
  }

  /** The effect of one event. */
  function Step(s: RoomState, e: Event): RoomState
  {
    match e
    case Connect =>
      s.(connected := true,
         log := s.log + (if s.joinListener.Some? then [JoinChat(s.joinListener.value)] else []))
    case Disconnect => s.(connected := false)
    case HistoryLoaded(h) => s.(messages := h.GetOr([]), loading := false)
    case HistoryFailed => s.(messages := [], loading := false)
    case Incoming(m) => if s.messageListener then s.(messages := Ingest(s.messages, m)) else s
    case Edit(text) => if s.mounted then s.(input := text) else s
    case Submit =>
      if CanSend(s) then
        s.(sending := true, pendingAcks := s.pendingAcks + 1, input := "",
           log := s.log + [SendMessage(s.chatId, Trim(s.input), true)])
      else s
    case Ack => if s.pendingAcks > 0 then s.(sending := false, pendingAcks := s.pendingAcks - 1) else s
    case SwitchRoom(id) => if s.mounted && id != s.chatId then Activate(Deactivate(s), id) else s
    case Teardown => if s.mounted then Deactivate(s).(mounted := false) else s
  }

  /** What one event emits on the socket. */
  function Emitted(s: RoomState, e: Event): seq<Emission>
  {
    match e
    case Connect => if s.joinListener.Some? then [JoinChat(s.joinListener.value)] else []
    case Submit => if CanSend(s) then [SendMessage(s.chatId, Trim(s.input), true)] else []
    case SwitchRoom(id) =>
      if s.mounted && id != s.chatId then
        (if s.chatId != "" then [LeaveChat(s.chatId)] else [])
        + (if id != "" && s.connected then [JoinChat(id)] else [])
      else []
    case Teardown => if s.mounted && s.chatId != "" then [LeaveChat(s.chatId)] else []
    case _ => []
  }

  /** The log is append-only: each event adds exactly what it emits at the
      end and rewrites nothing. */
  lemma StepEmits(s: RoomState, e: Event)
    ensures Step(s, e).log == s.log + Emitted(s, e)
  {
    match e
    case SwitchRoom(id) =>
      if s.mounted && id != s.chatId {
        var d := Deactivate(s);
        assert d.log == s.log + (if s.chatId != "" then [LeaveChat(s.chatId)] else []);
        assert d.connected == s.connected;
      }
    case _ =>
  }

  /** The state after a run of events, first event first. */
  function Run(s: RoomState, events: seq<Event>): RoomState
    decreases |events|
  {
    if events == [] then s else Run(Step(s, events[0]), events[1..])
  }

  /** Every event keeps the listener registrations in step with the mount
      state and the room id. */
  lemma StepKeepsInv(s: RoomState, e: Event)
    requires Inv(s)
    ensures Inv(Step(s, e))
  {
  }

  /** The emission log only grows, and so does any run of events. */
  lemma {:induction false} RunAppendsToLog(s: RoomState, events: seq<Event>)
    requires Inv(s)
    ensures Inv(Run(s, events))
    ensures |s.log| <= |Run(s, events).log| && Run(s, events).log[..|s.log|] == s.log
    decreases |events|
  {
    if events != [] {
      StepKeepsInv(s, events[0]);
      StepEmits(s, events[0]);
      var t := Step(s, events[0]);
      RunAppendsToLog(t, events[1..]);
      assert t.log[..|s.log|] == s.log;
    }
  }

  /** How often `e` occurs in a log. */
  function Count(log: seq<Emission>, e: Emission): nat
  {
    if log == [] then 0
    else Count(log[..|log| - 1], e) + (if log[|log| - 1] == e then 1 else 0)
  }

  lemma {:induction false} CountAppend(a: seq<Emission>, b: seq<Emission>, e: Emission)
    ensures Count(a + b, e) == Count(a, e) + Count(b, e)
  {
    if b != [] {
      CountAppend(a, b[..|b| - 1], e);
      assert (a + b)[..|a + b| - 1] == a + b[..|b| - 1];
    } else {
      assert a + b == a;
    }
  }

  /** How many `connect` events a run holds. */
  function Connects(events: seq<Event>): nat
  {
    if events == [] then 0 else (if events[0] == Connect then 1 else 0) + Connects(events[1..])
  }

  /** Events that leave the room: a route change or the unmount. */
  predicate Leaves(e: Event)
  {
    e.SwitchRoom? || e.Teardown?
  }

  /** On a mounted non-empty room, an event other than a route change or
      the unmount keeps the room and emits one join for it if it is a
      `connect`, and never a leave. */
  lemma StepStaysInRoom(s: RoomState, e: Event)
    requires Inv(s) && s.mounted && s.chatId != "" && !Leaves(e)
    ensures Inv(Step(s, e)) && Step(s, e).mounted && Step(s, e).chatId == s.chatId
    ensures Count(Emitted(s, e), JoinChat(s.chatId)) == (if e == Connect then 1 else 0)
    ensures Count(Emitted(s, e), LeaveChat(s.chatId)) == 0
  {
    var x := s.chatId;
    assert [JoinChat(x)][..0] == [];
    if e.Submit? && CanSend(s) {
      assert [SendMessage(x, Trim(s.input), true)][..0] == [];
    }
  }

  /** While the view stays on a non-empty room, each `connect` emits one more
      `joinChat` for that room and nothing emits `leaveChat`. */
  lemma {:induction false} JoinPerReconnect(s: RoomState, events: seq<Event>)
    requires Inv(s) && s.mounted && s.chatId != ""
    requires forall i :: 0 <= i < |events| ==> !Leaves(events[i])
    ensures Run(s, events).chatId == s.chatId && Run(s, events).mounted
    ensures Count(Run(s, events).log, JoinChat(s.chatId)) == Count(s.log, JoinChat(s.chatId)) + Connects(events)
    ensures Count(Run(s, events).log, LeaveChat(s.chatId)) == Count(s.log, LeaveChat(s.chatId))
    decreases |events|
  {
    if events != [] {
      var e, rest := events[0], events[1..];
      var t := Step(s, e);
      StepStaysInRoom(s, e);
      StepEmits(s, e);
      CountAppend(s.log, Emitted(s, e), JoinChat(s.chatId));
      CountAppend(s.log, Emitted(s, e), LeaveChat(s.chatId));
      assert forall i :: 0 <= i < |rest| ==> !Leaves(rest[i]) by {
        forall i | 0 <= i < |rest| ensures !Leaves(rest[i]) {
          assert rest[i] == events[i + 1];
        }
      }
      JoinPerReconnect(t, rest);
      assert Run(s, events) == Run(t, rest);
    }
  }

  /** A reconnect while the view is on a room re-emits exactly one join for
      it: `disconnect` then `connect` adds `joinChat {chatId}` and nothing
      else to the log. */
  lemma ReconnectRejoins(s: RoomState)
    requires Inv(s) && s.mounted && s.chatId != ""
    ensures Run(s, [Disconnect, Connect]).log == s.log + [JoinChat(s.chatId)]
    ensures Run(s, [Disconnect, Connect]).connected
  {
    var t := Step(s, Disconnect);
    assert [Disconnect, Connect][1..] == [Connect];
    assert Run(s, [Disconnect, Connect]) == Run(t, [Connect]);
    assert [Connect][1..] == [];
    assert Run(t, [Connect]) == Step(t, Connect);
  }

  /** Leaving a non-empty room emits exactly one `leaveChat` for it, whether
      or not a join was ever emitted, empties the list and unregisters the
      listeners; a new non-empty room is then joined only if the socket is
      connected. */
  lemma LeaveOnSwitch(s: RoomState, id: string)
    requires Inv(s) && s.mounted && s.chatId != "" && id != s.chatId
    ensures Step(s, SwitchRoom(id)).log ==
      s.log + [LeaveChat(s.chatId)] + (if id != "" && s.connected then [JoinChat(id)] else [])
    ensures Step(s, SwitchRoom(id)).messages == []
    ensures Step(s, SwitchRoom(id)).joinListener == (if id != "" then Some(id) else None)
  {
  }

  /** After the view is torn down no event emits anything: in particular a
      later `connect` joins nothing for the room that was left. */
  lemma {:induction false} SilentAfterTeardown(s: RoomState, events: seq<Event>)
    requires Inv(s) && !s.mounted
    ensures Run(s, events).log == s.log
    ensures !Run(s, events).mounted && Run(s, events).joinListener == None
    decreases |events|
  {
    if events != [] {
      StepKeepsInv(s, events[0]);
      SilentAfterTeardown(Step(s, events[0]), events[1..]);
    }
  }

  /** A run of a view on one room that ends in its unmount emits, for that
      room, one `joinChat` per `connect` (plus the one at mount, if any) and
      exactly one `leaveChat`. */
  lemma SessionEmissions(s: RoomState, events: seq<Event>)
    requires Inv(s) && s.mounted && s.chatId != ""
    requires forall i :: 0 <= i < |events| ==> !Leaves(events[i])
    ensures Count(Run(s, events + [Teardown]).log, JoinChat(s.chatId)) == Count(s.log, JoinChat(s.chatId)) + Connects(events)
    ensures Count(Run(s, events + [Teardown]).log, LeaveChat(s.chatId)) == Count(s.log, LeaveChat(s.chatId)) + 1
  {
    JoinPerReconnect(s, events);
    RunConcat(s, events, [Teardown]);
    var t := Run(s, events);
    RunAppendsToLog(s, events);
    assert [Teardown][1..] == [];
    CountAppend(t.log, [LeaveChat(s.chatId)], JoinChat(s.chatId));
    CountAppend(t.log, [LeaveChat(s.chatId)], LeaveChat(s.chatId));
    assert Count([LeaveChat(s.chatId)], LeaveChat(s.chatId)) == 1 by {
      assert [LeaveChat(s.chatId)][..0] == [];
    }
    assert Count([LeaveChat(s.chatId)], JoinChat(s.chatId)) == 0 by {
      assert [LeaveChat(s.chatId)][..0] == [];
    }
  }

  lemma {:induction false} RunConcat(s: RoomState, a: seq<Event>, b: seq<Event>)
    ensures Run(s, a + b) == Run(Run(s, a), b)
    decreases |a|
  {
    if a == [] {
      assert a + b == b;
    } else {
      assert (a + b)[1..] == a[1..] + b;
      RunConcat(Step(s, a[0]), a[1..], b);
    }
  }

  /** A submit that fails the guard changes nothing and emits nothing. One
      that passes emits `sendMessage {chatId, content: trimmed input}` with an
      acknowledgement callback, clears the input, raises `sending` and leaves
      the message list alone: the own message only arrives through
      `newMessage`. */
  lemma SubmitGuard(s: RoomState)
    ensures !CanSend(s) ==> Step(s, Submit) == s
    ensures CanSend(s) ==>
      && Step(s, Submit).log == s.log + [SendMessage(s.chatId, Trim(s.input), true)]
      && Step(s, Submit).input == ""
      && Step(s, Submit).sending
      && Step(s, Submit).messages == s.messages
  {
  }

  /** `sending` is cleared by the acknowledgement and by nothing else: no
      timeout, no route change, no reconnect. */
  lemma {:induction false} OnlyAckClearsSending(s: RoomState, events: seq<Event>)
    requires s.sending
    requires forall i :: 0 <= i < |events| ==> events[i] != Ack
    ensures Run(s, events).sending
    decreases |events|
  {
    if events != [] {
      OnlyAckClearsSending(Step(s, events[0]), events[1..]);
    }
  }

  /** A history response replaces the list wholesale (with `[]` when it has
      no `messages`, or when the fetch fails): whatever ran before it, every
      message ingested earlier is discarded. */
  lemma HistoryReplaces(s: RoomState, events: seq<Event>, h: Option<seq<Message>>)
    ensures Run(s, events + [HistoryLoaded(h)]).messages == h.GetOr([])
    ensures Run(s, events + [HistoryFailed]).messages == []
  {
    RunConcat(s, events, [HistoryLoaded(h)]);
    RunConcat(s, events, [HistoryFailed]);
    var t := Run(s, events);
    assert [HistoryLoaded(h)][1..] == [];
    assert Run(t, [HistoryLoaded(h)]) == Step(t, HistoryLoaded(h));
    assert [HistoryFailed][1..] == [];
    assert Run(t, [HistoryFailed]) == Step(t, HistoryFailed);
  }

  /** A run of `newMessage` events on an active room is `IngestAll`. */
  lemma {:induction false} IncomingRun(s: RoomState, arrivals: seq<Message>)
    requires s.messageListener
    ensures Run(s, seq(|arrivals|, i requires 0 <= i < |arrivals| => Incoming(arrivals[i]))).messages
      == IngestAll(s.messages, arrivals)
  {
    if arrivals != [] {
      var init, m := arrivals[..|arrivals| - 1], arrivals[|arrivals| - 1];
      var evs := seq(|arrivals|, i requires 0 <= i < |arrivals| => Incoming(arrivals[i]));
      var initEvs := seq(|init|, i requires 0 <= i < |init| => Incoming(init[i]));
      assert evs == initEvs + [Incoming(m)];
      RunConcat(s, initEvs, [Incoming(m)]);
      IncomingRunListens(s, initEvs);
      IncomingRun(s, init);
      assert [Incoming(m)][1..] == [];
    }
  }

  /** Inbound messages never unregister the `newMessage` listener. */
  lemma {:induction false} IncomingRunListens(s: RoomState, events: seq<Event>)
    requires s.messageListener
    requires forall i :: 0 <= i < |events| ==> events[i].Incoming?
    ensures Run(s, events).messageListener
    decreases |events|
  {
    if events != [] {
      IncomingRunListens(Step(s, events[0]), events[1..]);
    }
  }

  /* ------------------------------ the view ------------------------------ */

  /** The mounted `Chat` component, its state updated in place by its
      handlers. */
  class ChatRoom {
    var chatId: string
    var mounted: bool
    var connected: bool
    var messages: seq<Message>
    var loading: bool
    var input: string
    var sending: bool
    var pendingAcks: nat
    var log: seq<Emission>
    var joinListener: Option<string>
    var messageListener: bool

    ghost function State(): RoomState
      reads this
    {
      RoomState(chatId, mounted, connected, messages, loading, input, sending,
                pendingAcks, log, joinListener, messageListener)
    }

    ghost predicate Valid()
      reads this
    {
      Inv(State())
    }

    /** First render and effects: the socket's current `connected` flag is
        read, and a non-empty room is fetched, joined if connected, and
        listened to. */
    constructor (id: string, socketConnected: bool)
      ensures Valid() && State() == Mount(id, socketConnected)
    {
      chatId, mounted, connected := id, true, socketConnected;
      messages, loading, input, sending, pendingAcks := [], true, "", false, 0;
      log, joinListener, messageListener := [], None, false;
      if id != "" {
        if socketConnected {
          log := log + [JoinChat(id)];
        }
        joinListener := Some(id);
        messageListener := true;
      }
    }

    /** The `connect` listeners: the flag is set and, if the reconnect-join
        listener is registered, `joinChat` is emitted again. */
    method OnConnect()
      requires Valid()
      modifies this
      ensures Valid() && State() == Step(old(State()), Connect)
    {
      connected := true;
      if joinListener.Some? {
        log := log + [JoinChat(joinListener.value)];
      }
    }

    method OnDisconnect()
      requires Valid()
      modifies this
      ensures Valid() && State() == Step(old(State()), Disconnect)
    {
      connected := false;
    }

    /** The history fetch resolved: `setMessages(data.messages || [])`. It is
        never cancelled, so it also lands after a room switch or unmount. */
    method OnHistoryLoaded(history: Option<seq<Message>>)
      requires Valid()
      modifies this
      ensures Valid() && State() == Step(old(State()), HistoryLoaded(history))
    {
      messages := if history.Some? then history.value else [];
      loading := false;
    }

    method OnHistoryFailed()
      requires Valid()
      modifies this
      ensures Valid() && State() == Step(old(State()), HistoryFailed)
    {
      messages := [];
      loading := false;
    }

    /** The `newMessage` listener, if registered, appends a message whose id
        is not yet in the list. */
    method OnNewMessage(m: Message)
      requires Valid()
      modifies this
      ensures Valid() && State() == Step(old(State()), Incoming(m))
      ensures messageListener && m.id !in Ids(old(messages)) ==> messages == old(messages) + [m]
      ensures !(messageListener && m.id !in Ids(old(messages))) ==> messages == old(messages)
    {
      if messageListener {
        messages := Ingest(messages, m);
      }
    }

    method OnEdit(text: string)
      requires Valid() && mounted
      modifies this
      ensures Valid() && State() == Step(old(State()), Edit(text))
    {
      input := text;
    }

    /** `handleSendMessage`. */
    method OnSubmit()
      requires Valid() && mounted
      modifies this
      ensures Valid() && State() == Step(old(State()), Submit)
    {
      ghost var before := State();
      var content := Trim(input);
      if content == [] || !connected {
        assert !CanSend(before);
        return;
      }
      assert CanSend(before);
      sending := true;
      log := log + [SendMessage(chatId, content, true)];
      pendingAcks := pendingAcks + 1;
      input := "";
      assert State() == before.(sending := true, pendingAcks := before.pendingAcks + 1, input := "",
                                log := before.log + [SendMessage(before.chatId, content, true)]);
    }

    /** The acknowledgement callback of an emitted `sendMessage`; the
        transport calls it at most once per send. */
    method OnAck()
      requires Valid() && pendingAcks > 0
      modifies this
      ensures Valid() && State() == Step(old(State()), Ack)
    {
      sending := false;
      pendingAcks := pendingAcks - 1;
    }

    /** The route's `chatId` changed: the cleanups for the old room run, then
        the effects for the new one. */
    method OnSwitchRoom(id: string)
      requires Valid() && mounted
      modifies this
      ensures Valid() && State() == Step(old(State()), SwitchRoom(id))
    {
      if id == chatId {
        return;
      }
      LeaveRoom();
      chatId := id;
      if id != "" {
        loading := true;
        if connected {
          log := log + [JoinChat(id)];
        }
        joinListener := Some(id);
        messageListener := true;
      }
    }

    /** Unmount: the cleanups run and the view is gone. */
    method OnTeardown()
      requires Valid() && mounted
      modifies this
      ensures Valid() && State() == Step(old(State()), Teardown)
    {
      LeaveRoom();
      mounted := false;
    }

    /** The cleanups registered for a non-empty room. */
    method LeaveRoom()
      requires Valid() && mounted
      modifies this
      ensures State() == Deactivate(old(State()))
    {
      if chatId != "" {
        messages := [];
        log := log + [LeaveChat(chatId)];
        joinListener := None;
        messageListener := false;
      }
    }

    /** The send button is disabled while the input is blank or a send awaits
        its acknowledgement; the input itself while disconnected. */
    function SendDisabled(): (disabled: bool)
      reads this
      ensures disabled <==> IsBlank(input) || sending
    {
      TrimEmptyIffBlank(input);
      Trim(input) == [] || sending
    }
  }
}
