# Jibber chat client — a verified model

Jibber is a React chat client that talks to its server over HTTP (room directory, profile,
message history) and a Socket.IO connection (live messages, presence, typing signals). This
project models in Dafny the session logic that sits inside its components and proves what
that logic guarantees.

- **The active-room view** (`ChatArea`) is the class `ChatArea.Session`. Its state is:
  - the message list, the online-user set and the typing-user set;
  - the draft;
  - the single "stop typing" timer;
  - the socket's listener table, as a map from event name to listener list;
  - a log of every event the view emits, each stamped with the millisecond clock;
  - the history requests in flight.

  Every React handler and effect of the view is a method:
  - mounting, a change of selected room or socket, unmounting;
  - a socket event arriving;
  - a history or profile response arriving;
  - send, a keystroke;
  - the clock advancing.

  Each method's contract gives the new state exactly. Its partners are pure functions:
  - the debouncer `AfterKeystroke`/`AfterDelay`;
  - the listener table's `SetUp`/`CleanUp`;
  - the listener call `Handle`;
  - the history mapping `MapHistory`.

  Lemmas about those functions prove:
  - a burst of keystrokes yields one `typing` per keystroke and exactly one `stopTyping`, a full delay after the last;
  - after any sequence of room switches each event has at most one listener;
  - unmounting removes every listener.
- **The room directory** is the class `Directory.ChatContext`. It is the shared context as the sidebar and the chat page drive it:
  - fetching rooms and the profile;
  - joining, leaving and clicking a room;
  - creating a room, with its blank-name check;
  - the shared HTTP-error classification (`Http.Classify`).

  Each handler is split at its `await` into a start method and an answer method. The start method runs at the click and keeps what the handler's closure read from that render: the room list for a join, the selection for a leave, the drafts for a create. The answer method runs when the request settles, and its outcome is a parameter. Other actions can come in between, so a late answer can act on stale values; `Directory.LeaveThenOpenOther` shows one case. The pure parts live in `Rooms`:
  - the joined-room computation;
  - the case-insensitive search filter;
  - lookup by id;
  - removal of an id.
- **Display helpers**:
  - `ChatMessage`: the 12-hour clock label and the sent/received decision;
  - `MemberList`:
    - initials;
    - the Typing > Online > Offline precedence;
    - the participant count;
    - the write-once colour cache, as the class `MemberList.MemberColors`. One object stands for one mounted member panel. The chat view mounts two panels (`Frontend/src/components/ChatArea/ChatArea.jsx:183` for small screens, `:197` for large ones), each with its own cache, and the small-screen panel is mounted afresh each time it opens, so its colours are drawn anew.
- **Support modules**:
  - `Text` holds the JavaScript string operations the code relies on: `trim`, `toLowerCase`/`toUpperCase`, `includes` and number-to-string.
  - `Entities` holds the records: rooms, members, the user profile and messages.

The model follows the code as written:
- A history response replaces the whole message list. Live messages that arrived before it are lost.
- A late history response for a room that is no longer selected is still applied. `ChatArea.StaleHistoryAfterSwitch` shows this.
- The `newMessage` listener does not check the room.
- The typing timer is never cleared on a room switch or on unmount. Its `stopTyping` goes to the room that was selected at the keystroke (`ChatArea.StopTypingAfterSwitch`).
- Nothing re-joins a room after a reconnect.

Two further places where the code differs from what one might expect:
- A blank room name is refused before `handleCreateRoom` enters its `try`/`finally`. So `loading` and `isCreating` keep their values in that case.
- `user` starts as `{}`, which is truthy, so the `socket && user && selectedRoom` guard tests only the socket and the room. The `typing`/`stopTyping` sender is `user._id`, which may be undefined.

## Model

| member | source | states |
|---|---|---|
| Text.TrimStartDropsWhitespace | Frontend/src/components/Sidebar/Sidebar.jsx:153 | the start-trimmed string is a suffix of the input, starts with a non-whitespace character (or is empty), and everything dropped is whitespace |
| Text.TrimEndDropsWhitespace | Frontend/src/components/Sidebar/Sidebar.jsx:153 | the end-trimmed string is a prefix of the input, ends with a non-whitespace character (or is empty), and everything dropped is whitespace |
| Text.TrimDropsOnlyEdges | Frontend/src/components/ChatArea/ChatArea.jsx:100 | `trim` (`Text.Trim`) returns a slice of its input that starts and ends with a non-whitespace character (or is empty), and what it leaves out on either side is all whitespace |
| Text.BlankIffAllWhitespace | Frontend/src/components/ChatPage/ChatPage.jsx:35 | the blank test `Text.IsBlank` (empty after `trim`) holds exactly when every character is whitespace |
| Text.ToLower | Frontend/src/components/Sidebar/Sidebar.jsx:157 | `toLowerCase` keeps the length, leaves no capital letter, moves each capital to its small letter and keeps every other character |
| Text.ToUpper | Frontend/src/components/MemberList/MemberList.jsx:22 | `toUpperCase` keeps the length, leaves no small letter, moves each small letter to its capital and keeps every other character |
| Text.UpperKeepsBlank | Frontend/src/components/Sidebar/Sidebar.jsx:153 | upper-casing a query does not change whether it is blank |
| Text.ContainsGivesPosition | Frontend/src/components/Sidebar/Sidebar.jsx:157 | when `includes` holds, some position of the haystack starts the needle |
| Text.PositionGivesContains | Frontend/src/components/Sidebar/Sidebar.jsx:157 | a needle starting at any position of the haystack makes `includes` hold |
| Text.ContainsAt | Frontend/src/components/Sidebar/Sidebar.jsx:157 | `includes` (`Text.Contains`) holds if and only if some position of the haystack starts the needle |
| Text.Decimal | Frontend/src/components/ChatMessages/ChatMessage.jsx:48 | a number converts to at least one character, every character is a decimal digit, and a number of ten or more has no leading zero |
| Text.DecimalRoundTrip | Frontend/src/components/ChatMessages/ChatMessage.jsx:48 | reading back the decimal text of a number gives the number |
| Http.Classify | Frontend/src/components/Sidebar/Sidebar.jsx:65-76 | redirect to login exactly on a 401 or 403 response; the server's message when there is one, otherwise the handler's fallback; the fixed texts for no response and for any other failure; never empty when the fallback is not |
| ChatMessage.MessageTime | Frontend/src/components/ChatMessages/ChatMessage.jsx:39-48 | the label has the shape `h:mm am` or `h:mm pm`; the hour is one or two digits, unpadded, in 1..12 and congruent to the hour mod 12 (0 shows as 12); the minutes are two digits with the right value; `pm` exactly when the hour is 12 or later |
| ChatMessage.TimeLabel | Frontend/src/components/ChatMessages/ChatMessage.jsx:39-53 | an unparseable timestamp yields "12:NaN am" (no exception is thrown, so "Invalid Time" never appears) |
| ChatMessage.MessageTimeRoundTrip | Frontend/src/components/ChatMessages/ChatMessage.jsx:42-48 | the hour and minute can be read back from the label |
| ChatMessage.MessageTimeInjective | Frontend/src/components/ChatMessages/ChatMessage.jsx:42-48 | distinct clock times give distinct labels |
| ChatMessage.RenderMessage | Frontend/src/components/ChatMessages/ChatMessage.jsx:77-103 | a message is shown as sent exactly when its sender equals the user's username; the sender label is shown exactly for received messages; the text is the message's |
| MemberList.Split | Frontend/src/components/MemberList/MemberList.jsx:19 | `split(" ")` yields at least one word |
| MemberList.SplitRoundTrip | Frontend/src/components/MemberList/MemberList.jsx:19 | joining the words with single spaces gives back the name, and no word contains a space |
| MemberList.FirstChars | Frontend/src/components/MemberList/MemberList.jsx:20-21 | at most one character per word (an empty word's `n[0]` joins as nothing) |
| MemberList.GetInitials | Frontend/src/components/MemberList/MemberList.jsx:17-22 | initials exist exactly when the name does, and are no longer than the word count |
| MemberList.FirstCharsAreWordStarts | Frontend/src/components/MemberList/MemberList.jsx:17-22 | the first characters of the words are exactly the characters that start a word in the name (first, or after a space) |
| MemberList.InitialsAreWordStarts | Frontend/src/components/MemberList/MemberList.jsx:17-22 | the initials are the upper-cased word-start characters of the name |
| MemberList.Status | Frontend/src/components/MemberList/MemberList.jsx:57-63 | Typing exactly when typing; Online exactly when online and not typing; Offline exactly when neither |
| MemberList.RowFor | Frontend/src/components/MemberList/MemberList.jsx:44-66 | the online dot exactly when online, whatever the typing state; the status text follows the same precedence; the initials and cached colour are the member's |
| MemberList.ParticipantCount | Frontend/src/components/MemberList/MemberList.jsx:30 | the member-list length, or 0 without a room |
| MemberList.RowsForAt | Frontend/src/components/MemberList/MemberList.jsx:34-70 | the rows `MemberList.RowsFor` draws: one row per member, in order, each built from that member and its cached colour |
| MemberList.RowsForFrame | Frontend/src/components/MemberList/MemberList.jsx:34-70 | the rows depend only on the cached colours of the room's members |
| MemberList.MemberColors.constructor | Frontend/src/components/MemberList/MemberList.jsx:15 | the cache starts empty |
| MemberList.MemberColors.ColourOf | Frontend/src/components/MemberList/MemberList.jsx:35-44 | a cached colour is returned unchanged; a new member gets a palette colour that is then stored, nothing else changes |
| MemberList.MemberColors.DrawRows | Frontend/src/components/MemberList/MemberList.jsx:34-70 | the rows are the members' rows with the colours now cached; every earlier colour is kept, and exactly the drawn members are added to the cache |
| MemberList.MemberColors.Render | Frontend/src/components/MemberList/MemberList.jsx:30-70 | the count is the participant count; the rows are the members' rows; every earlier colour is kept, and exactly the room's members are added to the cache |
| Rooms.RoomIds | Frontend/src/components/Sidebar/Sidebar.jsx:63 | the ids of the rooms, position by position |
| Rooms.MemberRooms | Frontend/src/components/Sidebar/Sidebar.jsx:61-62 | a subsequence of the rooms in which each room the user is a member of occurs as often as in the list, and no other room occurs |
| Rooms.JoinedRoomIds | Frontend/src/components/Sidebar/Sidebar.jsx:61-63 | a subsequence of the room ids (room-list order) that contains every room the user is a member of and nothing else |
| Rooms.JoinedAreMemberRoomIds | Frontend/src/components/Sidebar/Sidebar.jsx:61-63 | the joined ids are exactly the ids of the member rooms, one per occurrence |
| Rooms.MatchingRooms | Frontend/src/components/Sidebar/Sidebar.jsx:156-158 | a subsequence of the rooms holding every room whose lower-cased name includes the lower-cased query, and only those, each as often as in the list |
| Rooms.FilterRooms | Frontend/src/components/Sidebar/Sidebar.jsx:152-161 | a query blank after trim shows all rooms; any other query (untrimmed) shows the matching rooms |
| Rooms.FilterIsSubsequence | Frontend/src/components/Sidebar/Sidebar.jsx:152-161 | the search result is always a subsequence of the rooms |
| Rooms.FilterIgnoresQueryCase | Frontend/src/components/Sidebar/Sidebar.jsx:152-161 | under the ASCII case mapping, upper-casing the query does not change the search result |
| Rooms.MatchingIgnoresQueryCase | Frontend/src/components/Sidebar/Sidebar.jsx:156-158 | matching depends on the query only through its lower-cased form |
| Rooms.FindRoom | Frontend/src/components/Sidebar/Sidebar.jsx:98 | nothing exactly when no room has the id; otherwise the first room with it |
| Rooms.Without | Frontend/src/components/Sidebar/Sidebar.jsx:130 | the id is gone, the result is a subsequence, and every other id keeps its number of occurrences |
| Rooms.WithoutKeepsOthers | Frontend/src/components/Sidebar/Sidebar.jsx:130 | any other id is present after the removal exactly when it was before |
| Directory.LeaveUndoesJoins | Frontend/src/components/Sidebar/Sidebar.jsx:130 | leaving removes a room however many times it was appended by joins |
| Directory.LeaveAfterJoinRestores | Frontend/src/components/Sidebar/Sidebar.jsx:96-130 | joining a room not yet joined and then leaving it restores the joined list |
| Directory.WithoutAbsent | Frontend/src/components/Sidebar/Sidebar.jsx:130 | leaving a room not joined leaves the list as it was |
| Directory.JoinedFor | Frontend/src/components/Sidebar/Sidebar.jsx:59-64 | the joined ids for a profile: a subsequence of the room ids holding every room that lists the profile's id, and nothing else; nothing when the profile has no id |
| Directory.ChatContext.constructor | Frontend/src/contexts/chatContext.jsx:7-16 | no rooms, no joined rooms, no selection, no error, nothing loading or being created; the chat page's own created-room alert (`ChatPage.jsx:12`) starts hidden |
| Directory.ChatContext.ReportFailure | Frontend/src/components/Sidebar/Sidebar.jsx:65-76 | the error becomes the classified message; the login redirect is taken on 401/403 |
| Directory.ChatContext.StartFetchRooms | Frontend/src/components/Sidebar/Sidebar.jsx:42-51 | loading starts and the error is cleared |
| Directory.ChatContext.RoomsAnswered | Frontend/src/components/Sidebar/Sidebar.jsx:47-52 | a room list replaces the rooms at once and is handed on; a failure reports the classified error and ends loading |
| Directory.ChatContext.ProfileAnswered | Frontend/src/components/Sidebar/Sidebar.jsx:54-79 | a profile sets the joined ids from the room list of the same fetch; a failure reports the classified error and keeps them; loading ends in both cases |
| Directory.ChatContext.StartJoin | Frontend/src/components/Sidebar/Sidebar.jsx:86-89 | loading starts, the error is cleared, and the handler keeps the room list of the click's render |
| Directory.ChatContext.JoinAnswered | Frontend/src/components/Sidebar/Sidebar.jsx:96-116 | on success the id is appended to the current joined ids (no dedupe) and the first room with that id in the click-time list, if any, is selected; on failure the joined list and selection are unchanged and the error is classified; loading ends in every case |
| Directory.ChatContext.StartLeave | Frontend/src/components/Sidebar/Sidebar.jsx:119-122 | loading starts, the error is cleared, and the handler keeps the selection of the click's render |
| Directory.ChatContext.LeaveAnswered | Frontend/src/components/Sidebar/Sidebar.jsx:130-149 | on success every occurrence of the id leaves the current joined ids, and the selection is cleared when the click-time selection was that room, whatever is selected now; on failure nothing but the error changes; loading ends in every case |
| Directory.ChatContext.ClickRoom | Frontend/src/components/Sidebar/Sidebar.jsx:276 | a click selects the room exactly when its id is among the joined ids |
| Directory.ChatContext.ToggleCreating | Frontend/src/components/Sidebar/Sidebar.jsx:207 | the creation form flips open or closed |
| Directory.ChatContext.EditRoomDraft | Frontend/src/components/ChatPage/ChatPage.jsx:107-123 | the drafts take the typed name and description |
| Directory.ChatContext.StartCreate | Frontend/src/components/ChatPage/ChatPage.jsx:33-51 | a blank name sets "Room name cannot be empty." and sends no request; otherwise loading starts, the error is cleared and the request carries the untrimmed drafts |
| Directory.ChatContext.CreateAnswered | Frontend/src/components/ChatPage/ChatPage.jsx:53-76 | on success the room and its id are appended to the current lists, the drafts are emptied and the alert shown; on failure rooms, joined ids and drafts are unchanged and the error is classified; the form closes and loading ends in every case |
| Directory.ChatContext.CreatedAlertExpired | Frontend/src/components/ChatPage/ChatPage.jsx:57 | the alert is hidden |
| Directory.LeaveThenOpenOther | Frontend/src/components/Sidebar/Sidebar.jsx:119-134 | leaving room A and opening joined room B while the request is in flight ends with no room selected |
| ChatArea.BurstEmitsOnlyTyping | Frontend/src/components/ChatArea/ChatArea.jsx:115-129 | keystrokes less than the delay apart emit one `typing` each and nothing else, and leave exactly one timer, due a delay after the last keystroke |
| ChatArea.BurstThenIdle | Frontend/src/components/ChatArea/ChatArea.jsx:115-129 | N keystrokes then a quiet delay emit N `typing` events followed by exactly one `stopTyping`, 1000 ms after the last keystroke, and leave no timer |
| ChatArea.KeystrokeRearms | Frontend/src/components/ChatArea/ChatArea.jsx:118-124 | a keystroke replaces any pending timer by one due a full delay later, and the replaced one never fires |
| ChatArea.AfterKeystroke | Frontend/src/components/ChatArea/ChatArea.jsx:115-124 | a keystroke keeps the clock, arms one timer due a full delay later with the keystroke's stamp, keeps the log and adds one `typing` exactly when addressed |
| ChatArea.AfterDelay | Frontend/src/components/ChatArea/ChatArea.jsx:124-128 | the clock advances; a timer due within the span is gone afterwards and one not yet due stays with the log unchanged; at most one entry is added, exactly when a due timer carries a stamp, and it is that stamp's `stopTyping` at the due time |
| ChatArea.SubscriptionsTouchOneEvent | Frontend/src/components/ChatArea/ChatArea.jsx:56-93 | `on` appends one listener to its event, `off(e, h)` removes one copy of `h`, `off(e)` removes all, and no call touches another event |
| ChatArea.RemoveFirstDropsOne | Frontend/src/components/ChatArea/ChatArea.jsx:91 | `off(e, h)` removes exactly one copy of `h` and changes nothing when there is none |
| ChatArea.SetUpAppends | Frontend/src/components/ChatArea/ChatArea.jsx:51-88 | the set-up (`ChatArea.SetUp`) appends one listener of its run to each event the room and socket call for |
| ChatArea.CleanUpRemoves | Frontend/src/components/ChatArea/ChatArea.jsx:60-94 | the cleanup (`ChatArea.CleanUp`) empties `onlineUsers` when the room effect subscribed, and with a socket removes its own `newMessage` listener and every typing listener, whoever installed them |
| ChatArea.CleanUpDropsOwnHandler | Frontend/src/components/ChatArea/ChatArea.jsx:90-91 | the `newMessage` cleanup removes exactly one copy of its own run's handler |
| ChatArea.MountInstalls | Frontend/src/components/ChatArea/ChatArea.jsx:51-96 | on a clean socket the effects install exactly one listener for each event they subscribe, and none for the others |
| ChatArea.SwitchReinstalls | Frontend/src/components/ChatArea/ChatArea.jsx:51-96 | after the old run's cleanups and the new run's set-up, exactly the new run's listeners are registered |
| ChatArea.UnmountRemovesAll | Frontend/src/components/ChatArea/ChatArea.jsx:60-94 | the cleanups remove every listener the effects registered |
| ChatArea.ChangesReinstall | Frontend/src/components/ChatArea/ChatArea.jsx:51-96 | after any sequence of room or socket changes, exactly the latest run's listeners are registered |
| ChatArea.AtMostOneListenerAfterChanges | Frontend/src/components/ChatArea/ChatArea.jsx:75-94 | after any sequence of room or socket changes, every event has at most one listener |
| ChatArea.Handle | Frontend/src/components/ChatArea/ChatArea.jsx:56-87 | `newMessage` appends exactly one message at the tail and keeps the rest; `onlineUsers` and `userTyping` replace their set by exactly the received ids; `userStopTyping` removes only that id; each event leaves the other pieces alone |
| ChatArea.HandleEach | Frontend/src/components/ChatArea/ChatArea.jsx:68-87 | with no listener nothing changes; k `newMessage` listeners append k copies; for the other events any positive number of listeners acts like one |
| ChatArea.MapHistory | Frontend/src/components/ChatArea/ChatArea.jsx:39-43 | the batch maps, in order and one for one, to sender = user's username, text = message, timestamp = createdAt; it fails exactly when some record has no user |
| ChatArea.Session.constructor | Frontend/src/components/ChatArea/ChatArea.jsx:9-64 | empty messages, sets and draft, no timer; with a room and a socket, one `joinRoom` emitted and one history request started; listeners as the effects install them |
| ChatArea.Session.ChangeDeps | Frontend/src/components/ChatArea/ChatArea.jsx:51-96 | the listener table is the new run's set-up over the old run's cleanup; with a room and a socket, one `joinRoom` and one history request more; messages, sets, draft and timer are outside its frame |
| ChatArea.Session.Unmount | Frontend/src/components/ChatArea/ChatArea.jsx:60-94 | no listener of any event is left; the timer stays |
| ChatArea.Session.Receive | Frontend/src/components/ChatArea/ChatArea.jsx:56-87 | the view is the event applied once per registered listener; while mounted with a socket a new message is appended once; room-scoped events change nothing without a room |
| ChatArea.Session.HistoryLoaded | Frontend/src/components/ChatArea/ChatArea.jsx:35-49 | the request leaves the in-flight list; while mounted, a mappable batch replaces the messages whatever room is now selected, anything else sets "Failed to fetch messages." and keeps them |
| ChatArea.Session.ProfileLoaded | Frontend/src/components/ChatArea/ChatArea.jsx:19-29 | a 200 response sets the user; other responses change nothing; a failure sets "Failed to fetch user." |
| ChatArea.Session.Send | Frontend/src/components/ChatArea/ChatArea.jsx:98-107 | a blank draft or no room is refused with nothing emitted and the draft kept; no socket throws with the same effect; otherwise exactly one `sendMessage` {untrimmed text, username, room id} is emitted and the draft cleared |
| ChatArea.Session.TypeDraft | Frontend/src/components/ChatArea/ChatArea.jsx:109-129 | the draft takes the input; with a socket and a room one `typing` {user id, current room} is emitted, otherwise nothing; the only pending timer is due a delay later and carries the same stamp |
| ChatArea.Session.Tick | Frontend/src/components/ChatArea/ChatArea.jsx:124-128 | the clock advances; a timer falling due fires once, at its due time, with the stamp it captured |
| ChatArea.StaleHistoryAfterSwitch | Frontend/src/components/ChatArea/ChatArea.jsx:35-64 | after switching from one room to another, the first room's history response replaces the messages shown for the second |
| ChatArea.StopTypingAfterSwitch | Frontend/src/components/ChatArea/ChatArea.jsx:115-129 | a keystroke followed by a room switch still emits `stopTyping` for the first room, 1000 ms after the keystroke |

## Left out

- HTTP and Socket.IO I/O: every request is replaced by its outcome, given as a parameter. Connection set-up, authentication and reconnection (`Frontend/src/contexts/chatContext.jsx:18-30`) are not modelled. The socket is present or absent.
- Dates and time zones: `getMessageTime` takes the hour and minute directly. An unparseable timestamp is the absent clock time. `new Date()` on receipt is the model's millisecond clock.
- Randomness: the palette pick is a nondeterministic choice from the 15 colours. The sender-name colour of received messages (`getRandomColor`) is not modelled.
- Case mapping is ASCII only. JavaScript's full Unicode `toLowerCase`/`toUpperCase` is not modelled.
- Rooms.FilterIgnoresQueryCase: holds only for the ASCII case mapping above. With JavaScript's full mapping the search at Sidebar.jsx:156-158 can change when the query is upper-cased: the query "ß" finds a room named "Straße", but its upper case "SS" lower-cases to "ss" and finds nothing; the query "ı" finds "Kırmızı", but its upper case "I" lower-cases to "i" and finds nothing. `Rooms.MatchingIgnoresQueryCase`, whose requires asks that the query survive the round trip, holds under either mapping.
- MemberList.GetInitials: the bound of one initial per word rests on the ASCII `ToUpper` keeping the length. JavaScript upper-cases a word-initial "ß" to "SS" and "ﬀ" to "FF", so the source can draw more initials than the name has words.
- MemberList.FirstChars: strings here are sequences of Unicode scalar values, not of UTF-16 code units. `n[0]` at `Frontend/src/components/MemberList/MemberList.jsx:20` takes one code unit. For a word that starts with a character outside the Basic Multilingual Plane (an emoji, say), the source's initial is the first half of a surrogate pair, which is drawn as a replacement glyph. The model gives the whole character as the initial.
- Theme, `localStorage`, `document.body` and scrolling are not modelled; they do not affect chat state.
- The 3-second delay before the created-room alert hides is an explicit `CreatedAlertExpired` step, not a clock.
- Logout, routing and the login and register forms are not part of this model.
- Directory.ChatContext.RoomsAnswered and Directory.ChatContext.ProfileAnswered: the room response body is taken to be a list of rooms. Two other bodies are not modelled:
  - A missing (undefined or null) body is stored as the room list. The optional chain at `Frontend/src/components/Sidebar/Sidebar.jsx:61-63` then yields undefined, so `userRooms` becomes undefined and no error is reported.
  - A body that is an object but not an array makes `.filter` throw. The catch at `Frontend/src/components/Sidebar/Sidebar.jsx:65-76` then shows "An unexpected error occurred."
- Rooms.JoinedRoomIds: members always have an id. The `?.` guards for missing members or rooms are not modelled.
- Rooms.FilterRooms: the filtered list is a function of the rooms and the query, not a separately stored state that an effect refreshes.
- Message.sender is always a string here. The client can send `sender: undefined` when the profile has not loaded (`Frontend/src/components/ChatArea/ChatArea.jsx:103`), and such a message then compares equal to the still-undefined username (`Frontend/src/components/ChatMessages/ChatMessage.jsx:77`) and is drawn as sent; that case is not modelled.
- Directory.ChatContext: one `loading` flag serves every handler, as in the code, so the first of two overlapping requests to settle ends loading while the other is still in flight. The model keeps this, but the order in which answers arrive is left to the caller.
- Which room a live message belongs to is not modelled. The listener does not check it, and the server's routing of events to rooms is not part of this model.
