/** The terminal client's session (`Model` and its `Update`): the four
    windows (0 login, 1 connecting, 2 picking a friend, 3 chatting), the
    keystroke handling that restarts the typing heartbeat, the commands
    `Update` asks the runtime to run, and the pure halves of those commands
    (`SendText`, `JsonTyping`, the per-frame decode of `RecvMessage`). */
module Client {
  import opened Wrappers
  import opened Wire
  import opened Transcript

  /** `CurrWindow`: 0, 1, 2 and 3 in the Go client. */
  datatype Window = Login | Connecting | Picking | Chatting

  /** The key types `Update` tells apart. `CtrlE` is the key type the
      blacklist's `tea.KeyType(tea.MouseButtonWheelDown)` converts to: the
      wheel button's value 5 is the key type of Ctrl+E, and mouse events never
      arrive as key messages, so that entry in effect blacklists Ctrl+E.
      `OtherKey` stands for every key type not named here. */
  datatype Key =
    | Enter | CtrlC | Esc | Up | PgUp | Down | PgDown | Backspace | CtrlE
    | Runes(text: string)
    | OtherKey(code: int)

  /** `BlackListTypingKeys`: keys that never restart the heartbeat. The
      Go client lists the wheel entry (Ctrl+E) twice. */
  function BlackListTypingKeys(): seq<Key> {
    [Enter, CtrlC, CtrlE, CtrlE]
  }

  /** A key that, in window 3, counts as typing. */
  predicate TypingKey(k: Key) {
    k !in BlackListTypingKeys()
  }

  lemma TypingKeys(k: Key)
    ensures TypingKey(k) <==> !(k == Enter || k == CtrlC || k == CtrlE)
  {
  }

  /** Theme colours `InitColor` must not pick. */
  const ColorBlacklist: seq<int> := [8, 15, 16]

  /** `InitColor`: draws `rand.IntN(229) + 1` until the colour is not
      blacklisted. `draws` are the successive values `rand.IntN(229)`
      returns; `used` is the index of the draw that was kept. */
  method InitColor(draws: seq<int>) returns (color: int, used: nat)
    requires forall i :: 0 <= i < |draws| ==> 0 <= draws[i] < 229
    requires exists i :: 0 <= i < |draws| && draws[i] + 1 !in ColorBlacklist
    ensures 1 <= color <= 229 && color !in ColorBlacklist
    ensures used < |draws| && color == draws[used] + 1
    ensures forall i :: 0 <= i < used ==> draws[i] + 1 in ColorBlacklist
  {
    used := 0;
    color := draws[0] + 1;
    while color in ColorBlacklist
      invariant used < |draws| && color == draws[used] + 1
      invariant forall i :: 0 <= i < used ==> draws[i] + 1 in ColorBlacklist
      invariant exists j :: used <= j < |draws| && draws[j] + 1 !in ColorBlacklist
      decreases |draws| - used
    {
      used := used + 1;
      color := draws[used] + 1;
    }
  }

  /** The cancellation scope a heartbeat runs under, and what it announces. */
  datatype Heartbeat = Heartbeat(scope: nat, to: string, color: int, from: string)

  /** A decoded server message (`ChatMessage`, `TypingMessage`, `FriendList`). */
  datatype Inbound = ChatIn(m: ChatMessage) | TypingIn(t: TypingMessage) | FriendsIn(friends: seq<string>)

  /** The messages `Update` handles. `Recv(None)` is a received envelope
      whose type is none of the three known ones. */
  datatype Msg =
    | KeyMsg(key: Key)
    | TickMsg
    | ErrorMsg(text: string)
    | DoneMsg
    | ConnMsg
    | MessageSentMsg
    | Recv(message: Option<Inbound>)
    | WindowSizeMsg

  /** The commands `Update` returns for the runtime to run. */
  datatype Cmd =
    | Connect(who: string)                                          // dial the server as `who`
    | SendText(who: string, friend: string, text: string, color: int)
    | Observe(h: Heartbeat)                                         // `TypingObserver`
    | Farewell                                                      // `FinalWords`
    | Quit
    | Listen                                                        // `RecvMessage` and the first receive
    | RecvNext                                                      // re-arm the receive (`ShortLiveRecv`)

  datatype Session = Session(
    window: Window,
    input: string,             // the username field
    whoAmI: string,
    friend: string,
    draft: string,             // the message text area
    friends: seq<string>,      // the friend list's items
    cursor: nat,               // the friend list's selected index
    theme: int,
    scope: nat,                // generation of the live typing scope
    transcript: Transcript,
    exit: Option<string>)

  const Goodbye: string := "Goodbye!!!"

  /** `InitialModel` with the colour `InitColor` chose. */
  function Initial(theme: int): (s: Session)
    ensures Valid(s.transcript) && s.window == Login && s.transcript.lines == []
  {
    Session(Login, "", "", "", "", [], 0, theme, 0, Empty, None)
  }

  datatype Reaction = Reaction(next: Session, cmds: seq<Cmd>)

  /** A text widget handling a key: runes are inserted at the end, backspace
      drops the last character, other keys leave the text alone. */
  function Edit(text: string, k: Key): (r: string)
    ensures k.Runes? ==> r == text + k.text
    ensures k == Backspace ==> r <= text && |r| == (if text == [] then 0 else |text| - 1)
    ensures !k.Runes? && k != Backspace ==> r == text
  {
    match k
    case Runes(t) => text + t
    case Backspace => if text == [] then text else text[..|text| - 1]
    case _ => text
  }

  /** Backspace undoes the character just typed, and does nothing to an
      empty field. */
  lemma EraseUndoesType(text: string, c: char)
    ensures Edit(Edit(text, Runes([c])), Backspace) == text
    ensures Edit([], Backspace) == []
  {
  }

  /** The friend list moving its selection. */
  function Move(cursor: nat, size: nat, k: Key): nat {
    if k == Up && cursor > 0 then cursor - 1
    else if k == Down && cursor + 1 < size then cursor + 1
    else cursor
  }

  /** The end of `Update` for a key no branch consumed: the username field,
      the friend list and the text area each handle it. */
  function Widgets(s: Session, k: Key): Session {
    s.(input := Edit(s.input, k), draft := Edit(s.draft, k), cursor := Move(s.cursor, |s.friends|, k))
  }

  /** `List.SelectedItem()`: nothing when the selection is past the items. */
  function Selected(s: Session): (r: Option<string>)
    ensures r.Some? <==> s.cursor < |s.friends|
    ensures r.Some? ==> r.value in s.friends
  {
    if s.cursor < |s.friends| then Some(s.friends[s.cursor]) else None
  }

  /** The message restarts the typing heartbeat. */
  predicate Qualifies(s: Session, msg: Msg) {
    msg.KeyMsg? && s.window == Chatting && TypingKey(msg.key)
  }

  /** `Model.Update`. `stamp` is the wall clock and `frame` the ellipsis
      spinner's frame at the time the message is handled. */
  function Update(s: Session, msg: Msg, stamp: string, frame: string): (r: Reaction)
    requires Valid(s.transcript)
    ensures Valid(r.next.transcript)
    ensures Qualifies(s, msg) ==>
      r.next.scope == s.scope + 1 && r.cmds == [Observe(Heartbeat(r.next.scope, s.friend, s.theme, s.whoAmI))]
    ensures !Qualifies(s, msg) ==> r.next.scope == s.scope && forall c :: c in r.cmds ==> !c.Observe?
    ensures r.next.window != s.window ==>
      || (msg == KeyMsg(Enter) && s.window == Login && r.next.window == Connecting)
      || (msg == KeyMsg(Enter) && s.window == Picking && r.next.window == Chatting)
      || (msg == ConnMsg && r.next.window == Picking)
    ensures r.next.whoAmI != s.whoAmI ==> msg == KeyMsg(Enter) && s.window == Login
    ensures r.next.friend != s.friend ==> msg == KeyMsg(Enter) && s.window == Picking
    ensures r.next.theme == s.theme
  {
    match msg
    case KeyMsg(k) =>
      if s.window == Chatting && TypingKey(k) then
        var scope := s.scope + 1;
        Reaction(s.(draft := Edit(s.draft, k), scope := scope), [Observe(Heartbeat(scope, s.friend, s.theme, s.whoAmI))])
      else if k == CtrlC || k == Esc then
        Reaction(s.(exit := Some(Goodbye)), [Farewell])
      else if k == Enter && s.window == Login then
        Reaction(s.(whoAmI := s.input, window := Connecting), [Connect(s.input)])
      else if k == Enter && s.window == Picking then
        match Selected(s)
        case Some(f) => Reaction(s.(friend := f, window := Chatting, draft := ""), [])
        case None => Reaction(s, [])
      else if k == Enter && s.window == Chatting && s.draft != "" then
        Reaction(s, [SendText(s.whoAmI, s.friend, s.draft, s.theme)])
      else
        Reaction(Widgets(s, k), [])
    case TickMsg =>
      Reaction(s.(transcript := Tick(s.transcript, stamp, frame)), [])
    case ErrorMsg(e) =>
      Reaction(s.(exit := Some(e)), [Farewell])
    case DoneMsg =>
      Reaction(s, [Quit])
    case ConnMsg =>
      Reaction(s.(window := Picking), [Listen])
    case MessageSentMsg =>
      Reaction(s.(transcript := AppendSent(s.transcript, stamp, s.draft, s.theme), draft := ""), [])
    case Recv(None) =>
      Reaction(s, [])
    case Recv(Some(ChatIn(m))) =>
      Reaction(s.(transcript := AppendReceived(s.transcript, stamp, m)), [RecvNext])
    case Recv(Some(FriendsIn(fs))) =>
      Reaction(s.(friends := fs), [RecvNext])
    case Recv(Some(TypingIn(t))) =>
      var tr := if t.isTyping then TypingStarted(s.transcript, t.from, t.color, stamp, frame)
                else TypingStopped(s.transcript, t.from);
      Reaction(s.(transcript := tr), [RecvNext])
    case WindowSizeMsg =>
      Reaction(s, [])
  }

  /** Enter on the login window takes the typed name and starts connecting. */
  lemma LoginEnter(s: Session, stamp: string, frame: string)
    requires Valid(s.transcript) && s.window == Login
    ensures var r := Update(s, KeyMsg(Enter), stamp, frame);
      r.next.whoAmI == s.input && r.next.window == Connecting && r.cmds == [Connect(s.input)]
  {
  }

  /** An established connection shows the friend picker and starts receiving. */
  lemma Connected(s: Session, stamp: string, frame: string)
    requires Valid(s.transcript)
    ensures var r := Update(s, ConnMsg, stamp, frame);
      r.next.window == Picking && r.cmds == [Listen]
  {
  }

  /** Enter on the picker opens the conversation with the selected friend,
      or does nothing when no friend is selected. */
  lemma PickEnter(s: Session, stamp: string, frame: string)
    requires Valid(s.transcript) && s.window == Picking
    ensures var r := Update(s, KeyMsg(Enter), stamp, frame);
      if s.cursor < |s.friends| then
        r.next.friend == s.friends[s.cursor] && r.next.window == Chatting && r.next.draft == "" && r.cmds == []
      else r == Reaction(s, [])
  {
  }

  /** Enter in the conversation sends a non-empty draft and leaves it in
      place until the send completes; an empty draft sends nothing. */
  lemma ChatEnter(s: Session, stamp: string, frame: string)
    requires Valid(s.transcript) && s.window == Chatting
    ensures var r := Update(s, KeyMsg(Enter), stamp, frame);
      && r.next.scope == s.scope
      && (s.draft != "" ==> r.cmds == [SendText(s.whoAmI, s.friend, s.draft, s.theme)] && r.next == s)
      && (s.draft == "" ==> r.cmds == [])
  {
  }

  /** A received chat appends exactly one line and re-arms the receive;
      an envelope of unknown type changes nothing and does not re-arm it. */
  lemma ReceivedChat(s: Session, m: ChatMessage, stamp: string, frame: string)
    requires Valid(s.transcript)
    ensures var r := Update(s, Recv(Some(ChatIn(m))), stamp, frame);
      && r.next.transcript.lines == s.transcript.lines + [Line.Received(stamp, m.from, m.text, m.color)]
      && r.cmds == [RecvNext]
    ensures Update(s, Recv(None), stamp, frame) == Reaction(s, [])
  {
  }

  /** A friends list from the relay replaces the picker's items and re-arms
      the receive; nothing else changes. */
  lemma FriendsArrive(s: Session, fs: seq<string>, stamp: string, frame: string)
    requires Valid(s.transcript)
    ensures Update(s, Recv(Some(FriendsIn(fs))), stamp, frame) == Reaction(s.(friends := fs), [RecvNext])
  {
  }

  /** A completed send echoes the draft into the transcript in the theme
      colour and clears the draft. */
  lemma EchoClears(s: Session, stamp: string, frame: string)
    requires Valid(s.transcript)
    ensures var r := Update(s, MessageSentMsg, stamp, frame);
      && r.next.draft == ""
      && r.next.transcript.lines == s.transcript.lines + [Sent(stamp, s.draft, s.theme)]
      && r.cmds == []
  {
  }

  /** The message through which a transcript event reaches `Update`. */
  function Carrier(e: Event): Msg {
    match e
    case Chat(m) => Recv(Some(ChatIn(m)))
    case Echo(_, _) => MessageSentMsg
    case Typing(t) => Recv(Some(TypingIn(t)))
    case Anim => TickMsg
  }

  /** `Update` handles each transcript event exactly as `Apply` does; an
      echo is of the draft, in the theme colour. */
  lemma UpdateApplies(s: Session, e: Event, stamp: string, frame: string)
    requires Valid(s.transcript)
    requires e.Echo? ==> e.text == s.draft && e.theme == s.theme
    ensures Update(s, Carrier(e), stamp, frame).next.transcript == Apply(s.transcript, e, stamp, frame)
  {
  }

  /** A message with the clock stamp and spinner frame current when
      `Update` handles it. */
  datatype Stamped = Stamped(msg: Msg, stamp: string, frame: string)

  /** `Update` run over a sequence of messages, each at its own stamp and
      frame. */
  function Replay(s: Session, msgs: seq<Stamped>): (r: Session)
    requires Valid(s.transcript)
    ensures Valid(r.transcript)
    decreases |msgs|
  {
    if msgs == [] then s
    else
      var m := msgs[0];
      Replay(Update(s, m.msg, m.stamp, m.frame).next, msgs[1..])
  }

  /** The message carrying a transcript event, at the event's stamp and frame. */
  function Carried(a: Arrival): Stamped {
    Stamped(Carrier(a.event), a.stamp, a.frame)
  }

  /** Received chats, typing messages and ticks handed to `Update` one by one
      leave the transcript `Run` computes, so the slot invariant proved for
      `Run` holds of the client's own runs. */
  lemma {:induction false} ReplayIsRun(s: Session, arrivals: seq<Arrival>)
    requires Valid(s.transcript)
    requires forall i :: 0 <= i < |arrivals| ==> !arrivals[i].event.Echo?
    ensures Replay(s, seq(|arrivals|, i requires 0 <= i < |arrivals| => Carried(arrivals[i]))).transcript
              == Run(s.transcript, arrivals)
    decreases |arrivals|
  {
    var msgs := seq(|arrivals|, i requires 0 <= i < |arrivals| => Carried(arrivals[i]));
    if arrivals != [] {
      var a := arrivals[0];
      var s1 := Update(s, msgs[0].msg, a.stamp, a.frame).next;
      UpdateApplies(s, a.event, a.stamp, a.frame);
      ReplayIsRun(s1, arrivals[1..]);
      assert msgs[1..] == seq(|arrivals[1..]|, i requires 0 <= i < |arrivals[1..]| => Carried(arrivals[1..][i]));
    }
  }

  /** `JsonTyping`: the typing envelope; its value decodes to exactly the
      given status. */
  function JsonTyping(codec: Codec, isTyping: bool, to: string, color: int, from: string): (w: MessageWrapper)
    ensures w.typ == TypingType
    ensures Faithful(codec) ==> codec.decodeTyping(w.value) == Some(TypingMessage(isTyping, to, color, from))
  {
    MessageWrapper(TypingType, codec.encodeTyping(TypingMessage(isTyping, to, color, from)))
  }

  /** The chat envelope `SendText` builds. */
  function JsonChat(codec: Codec, m: ChatMessage): (w: MessageWrapper)
    ensures w.typ == ChatType
    ensures Faithful(codec) ==> codec.decodeChat(w.value) == Some(m)
  {
    MessageWrapper(ChatType, codec.encodeChat(m))
  }

  /** `SendText` run to completion: the envelopes that reach the socket and
      the message it hands back to `Update`. `chatOk` and `typingOk` say
      whether the two writes succeed. The chat goes first; the
      "stopped typing" envelope follows only a successful chat write, and
      its own failure is ignored. */
  function Send(codec: Codec, who: string, friend: string, text: string, color: int, chatOk: bool, typingOk: bool): (r: (seq<MessageWrapper>, Msg))
    ensures !chatOk ==> r.0 == [] && r.1.ErrorMsg?
    ensures chatOk ==> r.1 == MessageSentMsg && |r.0| == (if typingOk then 2 else 1)
    ensures chatOk ==>
              && r.0[0].typ == ChatType
              && (Faithful(codec) ==> codec.decodeChat(r.0[0].value) == Some(ChatMessage(friend, who, text, color)))
    ensures chatOk && typingOk ==>
              && r.0[1].typ == TypingType
              && (Faithful(codec) ==> codec.decodeTyping(r.0[1].value) == Some(TypingMessage(false, friend, color, who)))
  {
    if !chatOk then ([], ErrorMsg("write failed"))
    else
      var chat := JsonChat(codec, ChatMessage(friend, who, text, color));
      var stop := JsonTyping(codec, false, friend, color, who);
      ((if typingOk then [chat, stop] else [chat]), MessageSentMsg)
  }

  /** One result of reading the socket. */
  datatype Read = Got(raw: Raw) | Closed(normal: bool)

  /** What `RecvMessage` hands to `Update` for one read: nothing after a
      normal close, an error for any other failure or for a frame that is
      not an envelope, and otherwise the decoded message (a payload that
      does not decode gives the zero value of its type). */
  function Incoming(codec: Codec, read: Read): (r: Option<Msg>)
    ensures read == Closed(true) ==> r.None?
    ensures read == Closed(false) ==> r.Some? && r.value.ErrorMsg?
    ensures read.Got? && codec.decodeWrapper(read.raw).None? ==> r.Some? && r.value.ErrorMsg?
    ensures forall w :: read.Got? && codec.decodeWrapper(read.raw) == Some(w) ==>
              r.Some? && r.value.Recv? &&
              (r.value.message.Some? <==> w.typ in [ChatType, TypingType, FriendsType])
    ensures read.Got? && codec.decodeWrapper(read.raw).Some? ==>
      var w := codec.decodeWrapper(read.raw).value;
      && (w.typ == ChatType && codec.decodeChat(w.value).Some? ==>
            r == Some(Recv(Some(ChatIn(codec.decodeChat(w.value).value)))))
      && (w.typ == ChatType && codec.decodeChat(w.value).None? ==> r == Some(Recv(Some(ChatIn(NoChat)))))
      && (w.typ == TypingType && codec.decodeTyping(w.value).Some? ==>
            r == Some(Recv(Some(TypingIn(codec.decodeTyping(w.value).value)))))
      && (w.typ == TypingType && codec.decodeTyping(w.value).None? ==> r == Some(Recv(Some(TypingIn(NoTyping)))))
      && (w.typ == FriendsType && codec.decodeList(w.value).Some? ==>
            r == Some(Recv(Some(FriendsIn(codec.decodeList(w.value).value)))))
      && (w.typ == FriendsType && codec.decodeList(w.value).None? ==> r == Some(Recv(Some(FriendsIn([])))))
  {
    match read
    case Closed(normal) => if normal then None else Some(ErrorMsg("read failed"))
    case Got(raw) =>
      match codec.decodeWrapper(raw)
      case None => Some(ErrorMsg("malformed envelope"))
      case Some(w) =>
        if w.typ == ChatType then Some(Recv(Some(ChatIn(codec.decodeChat(w.value).GetOr(NoChat)))))
        else if w.typ == TypingType then Some(Recv(Some(TypingIn(codec.decodeTyping(w.value).GetOr(NoTyping)))))
        else if w.typ == FriendsType then Some(Recv(Some(FriendsIn(codec.decodeList(w.value).GetOr([])))))
        else Some(Recv(None))
  }

  /** Whatever a peer's client encodes arrives as the same message. */
  lemma IncomingRoundTrip(codec: Codec, m: ChatMessage, t: TypingMessage, fs: seq<string>)
    requires Faithful(codec)
    ensures Incoming(codec, Got(codec.encodeWrapper(JsonChat(codec, m)))) == Some(Recv(Some(ChatIn(m))))
    ensures Incoming(codec, Got(codec.encodeWrapper(JsonTyping(codec, t.isTyping, t.to, t.color, t.from))))
              == Some(Recv(Some(TypingIn(t))))
    ensures Incoming(codec, Got(codec.encodeWrapper(MessageWrapper(FriendsType, codec.encodeList(fs)))))
              == Some(Recv(Some(FriendsIn(fs))))
  {
    assert codec.decodeWrapper(codec.encodeWrapper(JsonChat(codec, m))) == Some(JsonChat(codec, m));
    var tw := JsonTyping(codec, t.isTyping, t.to, t.color, t.from);
    assert codec.decodeWrapper(codec.encodeWrapper(tw)) == Some(tw);
    var fw := MessageWrapper(FriendsType, codec.encodeList(fs));
    assert codec.decodeWrapper(codec.encodeWrapper(fw)) == Some(fw);
    assert codec.decodeList(codec.encodeList(fs)) == Some(fs);
  }
}
