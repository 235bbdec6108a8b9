# anonyKIET-web chat client: a Dafny model

anonyKIET-web is the browser client of a campus chat service restricted to
KIET addresses. A user signs in with a one-time password sent to a
`@kiet.edu` address, fills in a profile (username, age, gender, about, a list
of skills), browses and creates rooms, discovers other users, and chats in
real time over a shared Socket.IO connection.

This project models the logic of that client:

- **The chat room session.** `Chat` is the full-page chat view. It keeps
  one active room and a `connected` flag. Its message list is filled by a
  history fetch and by `newMessage` events, which are deduplicated by id. It
  emits `joinChat` on activation and again on every reconnect, `leaveChat`
  at teardown or on a room change, and `sendMessage` with an
  acknowledgement that alone clears `sending`. Each handler runs to
  completion, so the view is a state machine (`Chat.Step`, `Chat.Run`) over
  a `Chat.RoomState`. The class `Chat.ChatRoom` performs the same updates in
  place, and each of its methods is proved to agree with `Step`.
- **The older chat pane.** `ChatWindow` is the pane shown beside the room
  list. It has its own send guard, a join that is never followed by a leave,
  day grouping by `createdAt || timestamp` written as a loop over a
  dictionary, and an e-mail based ownership test.
- **The socket handle.** `Socket` models the lazily created, process-wide
  socket handle.
- **The forms.**
  - `Profile` is the profile editor: the skills editor, validation and
    submit.
  - `Login` covers the KIET e-mail check, the OTP check and the two-step
    OTP flow.
  - `RoomForm` is the create-room dialog.
- **Small transforms.**
  - `ChatList` maps rooms to chat records.
  - `Suggestions` builds the skills preview with its "+N" badge and decides
    when the "Discover Users" dialog fetches.
  - `Navbar` models `classNames`.
- **Shared helpers.**
  - `Text`: JavaScript's `trim` and ASCII `toLowerCase`.
  - `Grouping`: a JavaScript object used as an insertion-ordered
    dictionary of arrays.
  - `Messages`: the message record, the socket emissions and the day labels.
  - `Requests`: the outcome of a REST call and the error text shown when
    one fails.
  - `Wrappers`: `Option`.

REST responses, socket events and the current day are inputs to the model.

- **REST calls.** A call's result is a `Requests.Outcome`: either
  `Success(body)` or `Failure(serverMessage)`.
- **Requests and parent callbacks.** These are recorded in sequence fields
  (`requests`, `saved`, `notices`, `selections`, `log`), oldest first, so a
  contract can say exactly what was sent.
- **Dates.** A timestamp is the calendar day it falls on, as an `int`. A
  `Messages.Calendar` supplies the current day and the month-and-day text of
  any day, with nothing assumed about that text, so the same date in two
  years gets the same label, as in the browser.

Where the code is weaker than one might expect, the model follows the code:

- `leaveChat` is emitted at teardown whether or not a join was ever emitted.
  So over a session with reconnects, joins and leaves are not equal in
  number. `Chat.SessionEmissions` gives the actual counts.
- Incoming messages are not filtered by room or by shape.
- `sending` has no timeout.
- A history response is never cancelled and replaces the list wholesale,
  even after a room switch.
- `ChatWindow` sends without checking the connection flag and never leaves a
  room.

## Model

| member | source | states |
|---|---|---|
| Text.Trim | src/components/Chat.jsx:178 | `trim()` leaves no white space at either end and never lengthens the string |
| Text.TrimIsSlice | src/components/Chat.jsx:184 | the trimmed text is a contiguous slice of the input whose surroundings are all white space |
| Text.TrimEmptyIffBlank | src/components/Chat.jsx:178 | `!s.trim()` holds exactly when the input is empty or only white space |
| Text.TrimIdempotent | src/components/CreateGroupModal.jsx:36-37 | trimming twice is trimming once |
| Text.ToLower | src/components/Login.jsx:34 | lower-casing keeps the length and maps each character, `A`-`Z` to `a`-`z` and all else unchanged |
| Text.ToLowerIdempotent | src/components/Login.jsx:34 | lower-casing twice is lower-casing once |
| Text.LowerKeepsSpace | src/components/Login.jsx:34 | lower-casing neither creates nor removes blankness |
| Grouping.GroupByBuckets | src/components/Chat.jsx:61-68 | the grouped object's keys are distinct and are exactly the keys that occur; each array holds exactly the elements with that key, in list order |
| Grouping.GroupByTotal | src/components/Chat.jsx:61-68 | the arrays together hold as many elements as the list: none lost, none repeated |
| Grouping.SelectMembers | src/components/Chat.jsx:62-66 | an element is in a key's array exactly when it is in the list and has that key |
| Grouping.SelectAbsent | src/components/Chat.jsx:62-66 | a key that no element has gets no elements |
| Messages.FormatDateFaithful | src/components/Chat.jsx:49-59 | "Today" exactly for the current day, "Yesterday" exactly for the day before, and the short month-and-day text for any other day |
| Messages.FormatDateMerges | src/components/Chat.jsx:58 | two older days with the same month-and-day text, such as one date in two years, get the same label |
| Chat.Ingest | src/components/Chat.jsx:153-157 | a message whose id is present leaves the list unchanged; any other is appended; the id set grows by the message's id; distinct ids stay distinct |
| Chat.IngestAllFirstSeen | src/components/Chat.jsx:153-157 | any run of ingests keeps the list as a prefix and appends exactly the first arrival of each new id, in arrival order; the ids stay distinct |
| Chat.GroupMessagesByDatePartition | src/components/Chat.jsx:61-68 | each message is in the group of its own `createdAt` label, each group keeps list order, and the groups hold exactly the messages |
| Chat.SameDateOneGroup | src/components/Chat.jsx:58-65 | messages from two older days with the same month-and-day text land in one group |
| Chat.IsOwn | src/components/Chat.jsx:225 | own exactly when `sender?._id` equals the signed-in user's id |
| Chat.Mount | src/components/Chat.jsx:132-140 | the first render of a non-empty room emits one `joinChat` if the socket is connected and nothing otherwise; an empty room id emits nothing |
| Chat.StepEmits | src/components/Chat.jsx:132-188 | each event appends to the emission log exactly what it emits and rewrites nothing |
| Chat.StepKeepsInv | src/components/Chat.jsx:132-165 | listeners are registered exactly while the view is mounted on a non-empty room, and the join listener is for that room |
| Chat.RunAppendsToLog | src/components/Chat.jsx:132-188 | over any run of events the emission log only grows |
| Chat.StepStaysInRoom | src/components/Chat.jsx:135-140 | while on a room, a `connect` emits exactly one join for it and no other event emits a join or a leave for it |
| Chat.JoinPerReconnect | src/components/Chat.jsx:133-140 | while on a room, joins for it grow by exactly the number of `connect` events and leaves do not grow |
| Chat.ReconnectRejoins | src/components/Chat.jsx:139-140 | a disconnect then reconnect adds exactly one `joinChat` for the room to the log |
| Chat.LeaveOnSwitch | src/components/Chat.jsx:142-145 | a room change emits exactly one `leaveChat` for the old room, whether joined or not, empties the list and moves the join listener to the new room |
| Chat.SilentAfterTeardown | src/components/Chat.jsx:142-145 | after teardown no event emits anything; a later `connect` joins nothing |
| Chat.SessionEmissions | src/components/Chat.jsx:132-146 | a session on one room that ends in teardown emits one join per `connect` (plus the one at mount) and exactly one leave |
| Chat.SubmitGuard | src/components/Chat.jsx:178-188 | a submit with blank input or no connection changes nothing; otherwise it emits `sendMessage` with the trimmed input and an ack, clears the input, raises `sending` and leaves the list alone |
| Chat.OnlyAckClearsSending | src/components/Chat.jsx:180-185 | once raised, `sending` stays raised through any run of events without an acknowledgement |
| Chat.HistoryReplaces | src/components/Chat.jsx:117-120 | after any run of events, a history response leaves exactly its messages, or `[]` when missing or failed: everything ingested before it is discarded |
| Chat.IncomingRun | src/components/Chat.jsx:153-160 | a run of `newMessage` events on an active room ingests the messages in order |
| Chat.IncomingRunListens | src/components/Chat.jsx:160-164 | incoming messages never unregister the `newMessage` listener |
| Chat.ChatRoom.constructor | src/components/Chat.jsx:28-32 | the mounted view is the state machine's mount state for the route's room and the socket's current flag |
| Chat.ChatRoom.OnConnect | src/components/Chat.jsx:72-76 | the connect listeners agree with `Step` on `connect`: the flag is set and the room rejoined |
| Chat.ChatRoom.OnDisconnect | src/components/Chat.jsx:74 | the flag is cleared and nothing else changes |
| Chat.ChatRoom.OnHistoryLoaded | src/components/Chat.jsx:117 | the list becomes the response's messages or `[]`, and loading ends |
| Chat.ChatRoom.OnHistoryFailed | src/components/Chat.jsx:120 | the list becomes `[]` and loading ends |
| Chat.ChatRoom.OnNewMessage | src/components/Chat.jsx:153-157 | with the listener registered, a message with a new id is appended and any other leaves the list unchanged |
| Chat.ChatRoom.OnEdit | src/components/Chat.jsx:263 | the input takes the typed text |
| Chat.ChatRoom.OnSubmit | src/components/Chat.jsx:175-189 | the send handler agrees with `Step` on a submit, whose guard and effect `Chat.SubmitGuard` states |
| Chat.ChatRoom.OnAck | src/components/Chat.jsx:185 | the acknowledgement lowers `sending` |
| Chat.ChatRoom.OnSwitchRoom | src/components/Chat.jsx:127-146 | the old room's cleanups, then the new room's effects, as `Step` on a room change |
| Chat.ChatRoom.OnTeardown | src/components/Chat.jsx:142-145 | the cleanups run and the view is unmounted |
| Chat.ChatRoom.LeaveRoom | src/components/Chat.jsx:127-145 | the list is emptied, `leaveChat` is emitted for a non-empty room and both listeners are removed |
| Chat.ChatRoom.SendDisabled | src/components/Chat.jsx:269 | the send button is disabled exactly when the input is blank or a send awaits its acknowledgement |
| ChatWindow.Stamp | src/components/ChatWindow.jsx:124 | the grouping time is `createdAt`, or `timestamp` when `createdAt` is missing |
| ChatWindow.GroupMessagesByDate | src/components/ChatWindow.jsx:121-131 | the loop builds keys that are distinct and are exactly the occurring labels, each array holds exactly the messages of its label in order, and no message is lost or repeated |
| ChatWindow.IsOwnMessage | src/components/ChatWindow.jsx:164 | own exactly when `sender.emailId` or `senderEmail` equals the signed-in e-mail |
| ChatWindow.Pane.constructor | src/components/ChatWindow.jsx:52-64 | with a socket and a chat, the mount emits one `joinChat` for the chat, otherwise nothing |
| ChatWindow.Pane.OnDepsChanged | src/components/ChatWindow.jsx:52-69 | a new socket or chat emits one more join when both are present, and the cleanup emits no leave |
| ChatWindow.Pane.OnUnmount | src/components/ChatWindow.jsx:67-69 | the cleanup removes the listener and emits nothing |
| ChatWindow.Pane.OnConnectionChanged | src/components/ChatWindow.jsx:16 | the store's flag is taken over and nothing is emitted |
| ChatWindow.Pane.OnEdit | src/components/ChatWindow.jsx:216 | the input takes the typed text |
| ChatWindow.Pane.OnSubmit | src/components/ChatWindow.jsx:77-98 | nothing is emitted when the trimmed input is empty, the socket is missing or no chat is selected; otherwise one `sendMessage` with the chat id and the trimmed input, without an ack, and the input is cleared; `sending` is down afterwards |
| ChatWindow.Pane.SendDisabled | src/components/ChatWindow.jsx:219-223 | the button is disabled exactly when the input is blank, a send is under way, or disconnected |
| Socket.Connection.constructor | src/utils/socket.js:9-13 | the connection is created with auto-connect, credentials and the websocket transport |
| Socket.SocketModule.constructor | src/utils/socket.js:5 | the module variable starts unset |
| Socket.SocketModule.GetSocket | src/utils/socket.js:7-16 | never returns an unset value; creates a connection only while unset; once set, returns the same object and does not reassign it; at most one is ever created |
| Socket.TwoCalls | src/utils/socket.js:7-16 | two calls in a row return the identical connection, which is the earlier one if there was one |
| Navbar.Kept | src/components/Navbar.jsx:26-28 | `filter(Boolean)` keeps only non-empty strings that were arguments, and none exactly when no argument is truthy |
| Navbar.KeptConcat | src/components/Navbar.jsx:26-28 | the filter keeps the arguments' order |
| Navbar.ClassNamesEmpty | src/components/Navbar.jsx:26-28 | the result is empty exactly when no argument is truthy |
| Navbar.JoinLength | src/components/Navbar.jsx:26-28 | the joined string is the names' lengths plus one separator between each pair, and starts with the first name |
| Navbar.SplitJoin | src/components/Navbar.jsx:26-28 | splitting the joined string at spaces gives back the space-free names in order |
| Navbar.JoinConcat | src/components/Navbar.jsx:26-28 | joining two non-empty parts is joining each with one space between, so a multi-class argument contributes exactly its own text |
| Navbar.ClassNamesTokens | src/components/Navbar.jsx:26-28 | for space-free class names the result reads back as exactly the truthy arguments in order: one space between neighbours, none at the ends |
| Requests.ErrorText | src/components/CreateGroupModal.jsx:52-55 | the server's message when it sent a non-empty one, otherwise the handler's text; never empty when that text is not |
| Profile.InitialForm | src/components/EditProfile.jsx:16-23 | each field is the user's value, or `''` (`[]` for skills) when missing; a zero age gives the empty field |
| Profile.InputChange | src/components/EditProfile.jsx:31-37 | the named field takes the value; all other fields keep theirs |
| Profile.AddSkill | src/components/EditProfile.jsx:39-48 | a trimmed, non-empty, new skill is appended and the input cleared; otherwise both are unchanged |
| Profile.AddBlankSkill | src/components/EditProfile.jsx:41 | white space alone is never added and stays in the input |
| Profile.AddSkillKeepsDistinct | src/components/EditProfile.jsx:41-45 | a list without duplicates has none after an add |
| Profile.AddSkillKeepsTrimmed | src/components/EditProfile.jsx:41-44 | a list of trimmed non-empty skills stays so after an add |
| Profile.RemoveSkill | src/components/EditProfile.jsx:50-55 | every copy of the skill is removed and every other skill is kept as often as before |
| Profile.RemoveSkillConcat | src/components/EditProfile.jsx:53 | the skills that stay keep their relative order |
| Profile.RemoveAbsentSkill | src/components/EditProfile.jsx:53 | removing an unlisted skill changes nothing |
| Profile.RemoveSkillKeepsDistinct | src/components/EditProfile.jsx:53 | removal keeps a list free of duplicates |
| Profile.Validate | src/components/EditProfile.jsx:62-73 | username, then age, then gender, each error exactly when the earlier checks pass and this one fails; none exactly when the username is not blank, the age is 1 to 150 and a gender is chosen |
| Profile.ToPayload | src/components/EditProfile.jsx:80-86 | the body copies the fields and sends the age truncated to an integer from 1 to 150 |
| Profile.Editor.constructor | src/components/EditProfile.jsx:16-29 | the form starts as the initial form, with nothing saved |
| Profile.Editor.OnInputChange | src/components/EditProfile.jsx:31-37 | the form becomes the changed form |
| Profile.Editor.OnSkillInput | src/components/EditProfile.jsx:289 | the skill input takes the typed text |
| Profile.Editor.OnAddSkill | src/components/EditProfile.jsx:39-48 | the skills and the skill input become the add's result; other fields are kept |
| Profile.Editor.OnRemoveSkill | src/components/EditProfile.jsx:50-55 | the skills lose the removed skill; other fields are kept |
| Profile.Editor.OnSubmit | src/components/EditProfile.jsx:57-119 | a failed check shows its message and sends nothing; otherwise the body is sent, success routes home, failure shows the server's or the default text, and loading ends |
| Login.NormalizeEmail | src/components/Login.jsx:34 | the normalised address is the trimmed address lower-cased character by character: no white space at either end and no upper-case letter |
| Login.NormalizeIdempotent | src/components/Login.jsx:34 | normalising twice is normalising once |
| Login.KietTestIff | src/components/Login.jsx:42 | the pattern accepts exactly a non-empty run of `[a-z0-9._%+-]` followed by `@kiet.edu` |
| Login.KietSingleAt | src/components/Login.jsx:42 | an accepted address holds exactly one `@`, just before the domain |
| Login.EmailErrorCases | src/components/Login.jsx:36-45 | the generic message exactly for an empty address or one without `@`, the KIET message exactly for other refused addresses, none exactly for accepted ones |
| Login.AcceptedEmail | src/components/Login.jsx:36-45 | an address that passes is a local part followed by `@kiet.edu` once normalised |
| Login.LoginPage.constructor | src/components/Login.jsx:15-19 | empty fields, address step, no error, nothing sent |
| Login.LoginPage.OnEmailInput | src/components/Login.jsx:135 | the address takes the typed text |
| Login.LoginPage.OnOtpInput | src/components/Login.jsx:195 | the OTP takes the typed text |
| Login.LoginPage.SendOtp | src/components/Login.jsx:30-60 | a refused address shows its message and sends nothing; otherwise the normalised address is sent; the OTP step is reached only on success, failure keeps the step and shows the error |
| Login.LoginPage.VerifyOtp | src/components/Login.jsx:62-90 | a blank OTP shows "Please enter the OTP" and sends nothing; otherwise the trimmed address (case kept) and OTP are sent, success routes to `/editProfile` for a new user and `/` otherwise, failure shows the error |
| Login.LoginPage.ResendOtp | src/components/Login.jsx:92-96 | the OTP is cleared, then the send step runs with the same outcomes |
| Login.LoginPage.ChangeEmail | src/components/Login.jsx:238-242 | back to the address step with OTP and error cleared |
| RoomForm.RoomErrorCases | src/components/CreateGroupModal.jsx:22-30 | the name error exactly for a blank name, the description error exactly for a blank description after a good name, none exactly when both are filled |
| RoomForm.RequestFor | src/components/CreateGroupModal.jsx:35-38 | each field of the request is its input with only white space cut from the ends: non-empty and with no white space at either end |
| RoomForm.RoomModal.constructor | src/components/CreateGroupModal.jsx:12-16 | empty fields and no error |
| RoomForm.RoomModal.OnNameInput | src/components/CreateGroupModal.jsx:108 | the name takes the typed text |
| RoomForm.RoomModal.OnDescriptionInput | src/components/CreateGroupModal.jsx:124 | the description takes the typed text |
| RoomForm.RoomModal.OnSubmit | src/components/CreateGroupModal.jsx:18-59 | a failed check shows its message and posts nothing; success clears both fields, calls `onGroupCreated` only if given, then `onClose`; failure keeps the fields and shows the error; loading ends on both paths |
| RoomForm.RoomModal.OnClose | src/components/CreateGroupModal.jsx:61-66 | name, description and error are cleared, then `onClose` is called |
| ChatList.ToChat | src/components/ChatList.jsx:27-39 | identity fields copied, `updatedAt` as last-message time, member count and list default to 0 and `[]`, description to `''`, no last message or unread count |
| ChatList.ToChats | src/components/ChatList.jsx:27 | one chat per room, in the same order |
| ChatList.ParticipantsMatchMembers | src/components/ChatList.jsx:31-34 | every chat's count is the length of its member list, and nothing is unread |
| ChatList.ToChatsConcat | src/components/ChatList.jsx:27 | the mapping keeps response order across concatenation |
| ChatList.FetchedChats | src/components/ChatList.jsx:20-48 | a failure or a response without `chats` gives `[]`; otherwise the chat records of the rooms, one per room in order |
| ChatList.ChatListPane.constructor | src/components/ChatList.jsx:12-14 | empty, loading, nothing selected |
| ChatList.ChatListPane.FetchChats | src/components/ChatList.jsx:20-48 | the list becomes the fetched chats and loading ends; the selection is kept |
| ChatList.ChatListPane.OnChatClick | src/components/ChatList.jsx:50-53 | the selection becomes the clicked chat's id and the chat goes to the parent |
| Suggestions.Preview | src/components/UserSuggestionsModal.jsx:143-157 | no row for missing or empty skills; otherwise at most three skills, the first ones in order, and a badge exactly when there are more than three |
| Suggestions.PreviewAccountsForAll | src/components/UserSuggestionsModal.jsx:145-156 | shown skills plus the badge number equal the total, and the badge counts exactly the hidden skills |
| Suggestions.HeaderFor | src/components/UserSuggestionsModal.jsx:74 | "Showing N suggestions" exactly when N > 0, with N the number of users |
| Suggestions.SuggestionsModal.constructor | src/components/UserSuggestionsModal.jsx:12-14 | closed, no users, no error |
| Suggestions.SuggestionsModal.FetchSuggestions | src/components/UserSuggestionsModal.jsx:16-29 | success shows the response's users or none; failure shows none and the error; loading ends |
| Suggestions.SuggestionsModal.OnOpenChanged | src/components/UserSuggestionsModal.jsx:32-36 | opening fetches only when there are no users; otherwise users, error and fetch count are kept |

## Left out

- REST calls (axios): the model takes each call's outcome as a parameter. Request headers, credentials and URLs are not modelled.
- The socket.io client (`io(...)`, src/utils/socket.js:9): reconnection policy, wire protocol and delivery are the library's. The model keeps a `connected` flag and an emission log. `Chat` takes the connection flag from its own `connect`/`disconnect` listeners and `socket.connected` as one flag.
- Locale and time-zone formatting (`toDateString`, `toLocaleDateString`, `toLocaleTimeString`): days are integers and the month-and-day text is an opaque code supplied by `Messages.Calendar`; the text itself and the time of day are not modelled.
- Async interleaving: each handler is one atomic event. A history response may arrive after a room switch or teardown, because the code never cancels the fetch.
- The chat-record lookup effect in src/components/Chat.jsx:87-104 only fills the header's `chat` record. It affects no list, flag or emission.
- `ChatWindow` message fetching and storage (src/components/ChatWindow.jsx:32-49, 61): the import of `setMessages` and `addMessage` is commented out (src/components/ChatWindow.jsx:5), so `dispatch(setMessages(...))` at lines 39 and 42 and `dispatch(addMessage(...))` at line 61 throw a `ReferenceError`. The history fetch therefore rejects after its `finally` has lowered `loading`, and every incoming message throws inside the socket listener; the pane never stores a message. The model leaves this list out and keeps only the pane's emissions and send state.
- Redux store, `userSlice`, `addUser` dispatch after saving a profile, toasts, `scrollIntoView`, `console` output and rendering. Navigation is kept only as the `route` field.
- Profile.ToPayload: FormData assembly, `JSON.stringify` of the skills and the profile picture upload are not modelled. The age is a real number, whereas the browser keeps it as the input's text; `parseInt` of a non-integer text such as `1e2` is not modelled. The age is truncated as `parseInt` does for the validated range.
- Text.ToLower: only ASCII letters are lower-cased; JavaScript's full Unicode case mapping is not modelled.
- Suggestions.HeaderFor: the header is a datatype carrying the count rather than rendered text.
- The redirect of an already signed-in user on the login page (src/components/Login.jsx:22-26) and `handleStartChat` in the suggestions dialog: both only navigate or call the parent.
- Login.LoginPage.SendOtp, VerifyOtp and ResendOtp: the buttons disabled while `loading` are not modelled; each handler is run as if the user could trigger it.
