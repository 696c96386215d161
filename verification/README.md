# chatty: a Dafny model of the terminal chat client and its relay

chatty is a one-to-one terminal chat. Each user runs a Bubble Tea client that
logs in by name, connects over a websocket to a relay server, picks a friend
from the live list of connected users and exchanges chat lines with them. While
a user types, the peer's transcript shows an animated "typing…" placeholder.
The relay keeps the set of connected names in Redis. It announces every new
connection on the broadcast channel `all` and forwards chat and typing
envelopes to the recipient's own channel.

This project models both halves as pure functions over immutable data and
proves what each operation guarantees.

- `wrappers.dfy`: `Option` and `Result`.
- `wire.dfy`: the wire messages (`MessageWrapper`, `ChatMessage`,
  `TypingMessage`) and the JSON codec.
  - The codec is an abstract record of encode/decode functions. `Faithful`
    states that each decode inverts its encode.
  - Go's "a failed `json.Unmarshal` leaves the zero value" is modelled by
    falling back to the zero message.
- `store.dfy`: the Redis state the relay touches.
  - The set `active:channels` is modelled as a set of names.
  - Each pub/sub channel is modelled as the append-only log of what was
    published on it.
- `server.dfy`: the relay's `Chat` handler.
  - `Accept` covers admission: the empty-id check, the subscription, the
    snapshot publication and `SADD`.
  - `Route` covers the inbound routing of a frame to a channel.
  - `FriendsFor` covers the per-connection friends list.
  - A gateway state machine covers the reader, the writer loop (`Relay`) and
    the final `SREM`.
- `transcript.dfy`: the client's message list and its typing-slot table
  (`EventTracking`).
  - `Valid` is the invariant that every tracked peer owns exactly one
    placeholder line, at its recorded index, and that every placeholder line
    is owned.
  - The typing start, typing stop, spinner tick and append operations all
    preserve `Valid`.
- `client.dfy`: the client's `Update` function over its four windows (login,
  connecting, friend picker, chat). It also covers the typing-key blacklist,
  `InitColor`, `JsonTyping`, `SendText` and the decoding half of
  `RecvMessage`.
- `typing.dfy`: the typing heartbeat.
  - Each qualifying keystroke cancels the previous `TypingObserver` and
    starts a new one. The model does this by bumping a scope counter.
  - A pending observer whose timer fires sends "stopped typing" only if it
    was not cancelled.
  - A small runtime (session, pending observers, bytes written) shows that a
    burst of typing yields one "typing" per key and exactly one "stopped
    typing" once it settles.
- `scenarios.dfy`: end-to-end runs.
  - Two users join, and each receives the other as a friend.
  - A chat goes from alice's Enter to bob's transcript.
  - A dropped connection vanishes from later snapshots.

The clock (`TimeStamp`) and the spinner frame are inputs of `Update`. Go's map
iteration order in the spinner tick is an input of `Repaint`, and
`RepaintAnyOrder` shows that the order does not matter. The random draws of
`InitColor` are an input sequence.

### Behaviour worth knowing

- The code sends `isTyping: true` on every qualifying keystroke. Only the
  "stopped typing" message is debounced: it is sent once, 3 seconds after the
  last keystroke.
- Sending a chat does not cancel the live typing observer. Its timer can
  still send one more "stopped typing" after the two messages `SendText`
  writes.
- In the chat window only `CtrlC` reaches the quit branch. `Esc` is not on
  the typing blacklist, so there it counts as typing.
- The blacklist's third entry, `tea.KeyType(tea.MouseButtonWheelDown)`, is
  the key type of Ctrl+E. Mouse events never arrive as key messages, so in
  effect the entry keeps Ctrl+E from counting as typing. The model names that
  key `CtrlE`.
- `ConnMsg` moves to the friend picker from whatever window is current.
- The server publishes the snapshot before it `SADD`s the new id. The snapshot
  is `SMEMBERS ++ [id]`. When `SMEMBERS` fails, the snapshot is `[id]`.
- An envelope of an unknown type reaches the client's fall-through branch.
  That branch does not re-arm the receive, so the client stops listening.
- No snapshot is published when a user leaves. Departures only reach the other
  users through the next join.
- An inbound chat whose value does not decode is published on the channel
  named "".

## Model

| member | source | states |
|---|---|---|
| Transcript.EmptyValid | client/main.go:205-216 | the initial empty transcript with an empty tracking map satisfies the slot invariant |
| Transcript.ValidSlotsDistinct | client/main.go:728-756 | under the slot invariant, two different tracked peers never share a line index |
| Transcript.AppendReceived | client/main.go:710-719 | a received chat adds exactly one line at the end, with sender, text and colour; earlier lines and every typing slot are untouched, and the slot invariant is kept |
| Transcript.AppendSent | client/main.go:692-701 | the echo of one's own sent text adds exactly one line at the end, with one's theme; earlier lines and slots are untouched, and the invariant is kept |
| Transcript.TypingStarted | client/main.go:728-739 | a peer already typing changes nothing; otherwise one placeholder owned by that peer is appended, and the peer is tracked at the old length with its colour; other slots are unchanged, and the invariant is kept |
| Transcript.TypingStopped | client/main.go:741-756 | an untracked peer changes nothing; otherwise exactly that peer's placeholder line is deleted and the peer is untracked; every other slot index is decremented iff it lay at or after the deleted one, so it still points at the same line; the invariant is kept |
| Transcript.StopIsolated | client/main.go:741-756 | after any peer stops typing, every other typing peer's slot still shows that peer's own placeholder |
| Transcript.Tick | client/main.go:653-668 | a spinner tick repaints exactly the tracked placeholder lines with the new frame, stamp and the peer's colour; every other line, the length and the slot table are unchanged |
| Transcript.Repaint | client/main.go:662-666 | the map-iteration loop of the tick repaints each tracked slot in the given enumeration order and leaves the length unchanged |
| Transcript.RepaintAnyOrder | client/main.go:662-666 | whatever order Go's map iteration uses, the loop produces the same lines as the pointwise tick |
| Transcript.Run | client/main.go:653-764 | any sequence of received chats, own echoes, typing start/stop messages and ticks, each handled at its own clock stamp and spinner frame, keeps the slot invariant; ticks alone never change the length or the slot table |
| Transcript.SlotsStayValid | client/main.go:653-764 | from the empty transcript, any history of chats, echoes, typing messages and ticks, at any stamps and frames, ends with every tracked peer's index in range, showing that peer's placeholder, and no two peers sharing a line |
| Client.TypingKeys | client/main.go:541-549 | a key counts as typing iff it is not Enter, Ctrl+C or Ctrl+E (the key type the wheel-down constant converts to), the three distinct entries of the blacklist |
| Client.InitColor | client/main.go:115-132 | the theme colour is the first draw whose value plus one is outside {8, 15, 16}; it lies in 1..229, and every earlier draw was blacklisted |
| Client.Initial | client/main.go:134-219 | a fresh client starts in the login window with an empty transcript that satisfies the slot invariant |
| Client.EraseUndoesType | client/main.go:580 | Backspace right after typing one character gives back the field as it was, and Backspace on an empty field leaves it empty |
| Client.Selected | client/main.go:616 | the picker yields a friend iff the cursor is within the list, and that friend is on the list |
| Client.Update | client/main.go:551-788 | keeps the transcript invariant; a typing key in the chat window bumps the typing scope and starts exactly one observer for the current friend, theme and user, and nothing else starts one; windows move only along login→connecting on Enter, →picker on ConnMsg, picker→chat on Enter with a selection; the user name and friend change only on those Enters; the theme never changes |
| Client.LoginEnter | client/main.go:608-613 | Enter at login takes the typed name as the identity, moves to the connecting window and asks to connect as that name |
| Client.Connected | client/main.go:683-689 | a completed connection moves to the friend picker and starts listening |
| Client.PickEnter | client/main.go:614-640 | Enter in the picker with a selected friend opens the chat with that friend and a cleared draft; with no selection nothing changes |
| Client.ChatEnter | client/main.go:641-649 | Enter in the chat window sends a non-empty draft to the friend with the theme colour, leaves the session as it was and does not count as typing; an empty draft issues no command |
| Client.ReceivedChat | client/main.go:704-787 | a received chat appends exactly one line with its sender, text and colour and re-arms the receive; an envelope of unknown type changes nothing and does not re-arm it |
| Client.FriendsArrive | client/main.go:723-725 | a friends list from the relay replaces the picker's items and re-arms the receive, and changes nothing else |
| Client.EchoClears | client/main.go:692-701 | a completed send appends the draft to the transcript in the theme colour, clears the draft and issues no command |
| Client.UpdateApplies | client/main.go:692-764 | the client's update handles a received chat, a typing message, a spinner tick and the echo of the draft exactly as the transcript step for that event |
| Client.Replay | client/main.go:551-788 | any sequence of messages handed to the update, each at its own stamp and frame, keeps the transcript's slot invariant |
| Client.ReplayIsRun | client/main.go:653-764 | handing chats, typing messages and ticks to the update one by one, each at its own stamp and frame, leaves the transcript the transcript run computes, so the slot invariant proved for runs holds of the client's own history |
| Client.JsonTyping | client/main.go:485-504 | builds an envelope tagged "typing" whose value decodes to the given typing message |
| Client.JsonChat | client/main.go:341-361 | builds an envelope tagged "chat" whose value decodes to the given chat message |
| Client.Send | client/main.go:341-383 | a failed chat write writes nothing more and reports an error; otherwise the chat is written first, then "stopped typing" to the same friend, and the reply is MessageSentMsg even if that second write failed |
| Client.Incoming | client/main.go:395-457 | a normal close yields no message; an abnormal close or an undecodable envelope yields an error; a chat, typing or friends envelope yields its decoded payload, or that type's zero value (an empty list for friends) when the payload does not decode; any other type yields an empty receive |
| Client.IncomingRoundTrip | client/main.go:417-457 | with a faithful codec, whatever a chat, typing or friends envelope encodes is delivered back to the client unchanged |
| Typing.Begin | client/main.go:512-516 | an observer first writes "typing" for the friend, colour and user it was started with |
| Typing.Expire | client/main.go:519-534 | a fired observer writes at most one message, and writes one iff it was not cancelled by a later keystroke; that message says the user stopped typing |
| Typing.StartOk | client/main.go:134-219 | the start-up runtime has no pending observer and satisfies the runtime invariant |
| Typing.Launch | client/main.go:586-589 | running the commands an update returns only adds observers and written messages; commands without an observer start none |
| Typing.Dispatch | client/main.go:570-589 | keeps the runtime invariant (pending observers in increasing scope, none newer than the live one) and only appends to what was written; a typing key bumps the scope, writes "typing" and adds exactly one observer for the new scope; other messages change neither the scope nor the pending observers |
| Typing.Fire | client/main.go:519-534 | firing one pending timer removes exactly that observer and appends only what its expiry writes |
| Typing.SingleFlight | client/main.go:572-589 | under the runtime invariant every pending observer but the newest is cancelled, so at most one pending timer can ever write |
| Typing.Keystrokes | client/main.go:570-589 | any sequence of keystrokes keeps the runtime invariant |
| Typing.Burst | client/main.go:570-589 | n typing keys in the chat window keep the conversation, raise the scope by n, write exactly n identical "typing" messages and add n pending observers, the newest of them live |
| Typing.Settle | client/main.go:519-534 | firing every pending timer empties the pending list without touching the session, and only appends to what was written |
| Typing.SettleWritesAtMostOne | client/main.go:506-538 | once all pending timers fire, what is written is exactly the expiry of the newest observer: one "stopped typing" if it is live, nothing otherwise |
| Typing.BurstThenQuiet | client/main.go:506-589 | a non-empty burst followed by silence writes exactly n "typing" messages and then exactly one "stopped typing" for that friend |
| Typing.BurstLast | client/main.go:570-589 | after a non-empty burst the newest pending observer is live and belongs to the current friend, theme and user |
| Store.Publish | server/main.go:178-180 | publishing appends the payload to that channel's log alone; other channels and the active set are unchanged |
| Store.PresenceIdempotent | server/main.go:185-187 | adding an already-present id or removing an absent one leaves the active set unchanged |
| Store.FifoPerChannel | server/main.go:236-249 | two payloads published on one channel are appended to its log in publication order, after everything earlier |
| Server.AllActiveUsers | server/main.go:270-286 | a successful SMEMBERS reply is returned as is; a failed one is an error and no list |
| Server.Accept | server/main.go:94-187 | an empty id is refused and a failed subscribe abandons the handler, both without touching the store; otherwise the snapshot is the current members followed by the id (only the id when SMEMBERS failed), it is published on "all" and nowhere else, and the id joins the active set |
| Server.Route | server/main.go:221-250 | a frame is forwarded iff its type is chat or typing; it is forwarded byte-for-byte, to the channel named by the decoded recipient, or to the channel "" when the value does not decode |
| Server.RouteRoundTrip | server/main.go:228-250 | with a faithful codec, an encoded chat or typing envelope is published unchanged on its recipient's channel |
| Server.MalformedFrameIgnored | server/main.go:221-231 | a frame whose envelope does not decode changes neither the gateway, which keeps reading, nor the store |
| Server.Without | server/main.go:133-137 | removing one's own name leaves every other name with its multiplicity, in order, and no copy of one's name |
| Server.FriendsFor | server/main.go:129-137 | a snapshot delivered to a user lists exactly the other names it contains, in order; an undecodable snapshot lists nobody |
| Server.Step | server/main.go:124-266 | a gateway keeps its id and what it has written; a reading gateway republishes a chat or typing frame verbatim on its recipient's channel, and any other frame, or any frame after reading stopped, changes nothing; a successful delivery writes the payload and a successful presence update writes the friends frame, and nothing else writes; only a failed read stops reading; a relay that ends removes the id from the active set; only inbound frames publish |
| Server.Relay | server/main.go:255-266 | the writer loop writes queued payloads verbatim until the first failed write; when it ends, the id has left the active set |
| Server.JoinThenLeave | server/main.go:163-266 | a connection that is admitted and then fails a write leaves the active set as it was minus its id, with exactly its snapshot added to "all" |
| Server.AbnormalCloseLeaves | server/main.go:195-266 | an abnormal read error stops the reader; once the relay drains, it has ended, the id is no longer active and no channel's log changed |
| Scenarios.AliceThenBob | server/main.go:124-187 | alice then bob join an empty relay; the second snapshot is [alice, bob], each gateway hands its user the other as their only friend, and bob's picker then lists exactly alice |
| Scenarios.AliceSendsHi | client/main.go:641-647 | alice's Enter on "hi" sends the chat and "stopped typing", the relay forwards both unchanged to bob, bob's transcript gains "hi" from alice, and alice's gains her echo with the draft cleared |
| Scenarios.BobDropsOut | server/main.go:204-266 | after bob's read fails and his relay drains, he is inactive and the next snapshot does not name him |

## Left out

- Rendering: `View`, the lipgloss styles, the viewport, `FriendDelegate.Render` and the joined transcript text are not modelled. Transcript lines are kept as tagged fields (stamp, sender, text, colour), not as styled strings.
- Widgets: the textinput, textarea and list widgets are reduced to appending runes, Backspace and cursor movement. Their character limits, cursor editing, paging, filtering and their own key bindings (`j`/`k`, `q`) are left out because they belong to the library, not to this program.
- `WindowSizeMsg` only resizes widgets; the model treats it as leaving the session unchanged.
- Websocket I/O: dialling in `Connect`, the HTTP upgrade and the socket itself are not modelled. A connection outcome arrives as `ConnMsg` or `ErrorMsg`, a read as `Got`/`Closed` and a write as a success flag. The server continues with a nil connection after a failed upgrade; that path is not modelled.
- `FinalWords`: its close handshake and its one-second wait are outside the model; it is only the `Farewell` command.
- Redis failures other than `SMEMBERS` and the subscribe handshake: a failed `PUBLISH`, `SADD` or `SREM` is only logged by the code, and the model treats these calls as succeeding.
- Concurrency: the goroutines, the `SyncSend` mutex and the channel hand-off in `RecvMessage`/`ShortLiveRecv` are serialised into one event per step. The race between one connection's `SMEMBERS` and another's `SADD` is not modelled.
- Bubble Tea's key and mouse constants are not part of this model. That `MouseButtonWheelDown` converts to the Ctrl+E key type (both are 5) is taken from that library.
- Timers: the 3-second `TypingObserver` delay and the spinner interval are not modelled; a timer firing is the `Fire` event.
- JSON: the codec is abstract. A value that decodes partially into a Go struct is approximated by the zero value.
- `TimeStamp`, the spinner frames and `rand.IntN` are inputs, not computed.
- `InitLogger`, environment loading (`FailOnEnv`, `HOST`), `Redis`, `Health`, the HTTP mux and both `main` functions are start-up plumbing with no logic to verify.
- Client.InitColor: the model only covers runs in which some draw is acceptable. The Go loop redraws for ever, and a run of only blacklisted draws has no result to state.
- Typing.Launch: writes made by the runtime's commands are taken to succeed. Write failures are modelled separately by `Client.Send`.
- Transcript.TypingStopped: requires the slot invariant. The code would panic on an out-of-range index, and `Run` and `Client.Update` prove that the invariant always holds.
- Client.ReplayIsRun: covers histories without echoes. An echo shows the draft current when the send completes, which the previous echo cleared; `Client.UpdateApplies` and `Client.EchoClears` cover echoes one at a time.
