/** The messages both halves exchange (`MessageWrapper`, `ChatMessage`,
    `TypingMessage` and the friends list), and the JSON codec reduced to an
    abstract pair of encode/decode functions per message shape. */
module Wire {
  import opened Wrappers

  /** A serialized frame or payload, as it travels on the socket or the store. */
  type Raw = string

  const ChatType: string := "chat"
  const TypingType: string := "typing"
  const FriendsType: string := "friends"

  datatype ChatMessage = ChatMessage(to: string, from: string, text: string, color: int)

  datatype TypingMessage = TypingMessage(isTyping: bool, to: string, color: int, from: string)

  /** The tagged envelope: a type tag and the still-encoded value. */
  datatype MessageWrapper = MessageWrapper(typ: string, value: Raw)

  /** Zero values: what a Go struct still holds when unmarshalling into it fails. */
  const NoWrapper := MessageWrapper("", "")
  const NoChat := ChatMessage("", "", "", 0)
  const NoTyping := TypingMessage(false, "", 0, "")

  /** The JSON library, seen only through its encode and decode functions;
      every decode may fail. */
  datatype Codec = Codec(
    encodeWrapper: MessageWrapper -> Raw,
    decodeWrapper: Raw -> Option<MessageWrapper>,
    encodeChat: ChatMessage -> Raw,
    decodeChat: Raw -> Option<ChatMessage>,
    encodeTyping: TypingMessage -> Raw,
    decodeTyping: Raw -> Option<TypingMessage>,
    encodeList: seq<string> -> Raw,
    decodeList: Raw -> Option<seq<string>>)

  /** Decoding gives back exactly what was encoded, for every shape. */
  ghost predicate Faithful(c: Codec) {
    && (forall w :: c.decodeWrapper(c.encodeWrapper(w)) == Some(w))
    && (forall m :: c.decodeChat(c.encodeChat(m)) == Some(m))
    && (forall m :: c.decodeTyping(c.encodeTyping(m)) == Some(m))
    && (forall xs :: c.decodeList(c.encodeList(xs)) == Some(xs))
  }

  /** `json.Unmarshal` into a fresh wrapper: the envelope, or the zero
      wrapper (empty type tag) when the frame is malformed. */
  function Unwrap(c: Codec, raw: Raw): MessageWrapper {
    c.decodeWrapper(raw).GetOr(NoWrapper)
  }
}
