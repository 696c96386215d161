/** The relay server's per-connection gateway (`WsServer.Chat` and
    `AllActiveUsers`): admission, the join snapshot, the per-recipient
    friends filter, routing of inbound frames, the outbound relay and the
    presence removal when the relay ends. */
module Server {
  import opened Wrappers
  import opened Wire
  import opened Store

  /** A payload to publish on a named channel. */
  datatype Publication = Publication(channel: string, payload: Raw)

  /** Outcome of the connection request. */
  datatype Admission =
    | BadRequest                        // empty path id: HTTP 400, no upgrade
    | Abandoned                         // the subscription to "all" failed
    | Admitted(snapshot: seq<string>)   // the snapshot published on "all"

  /** The store's answer to `SMEMBERS`, or its error. */
  function AllActiveUsers(s: Store, reply: Option<seq<string>>): (r: Result<seq<string>, string>)
    requires reply.Some? ==> Lists(reply.value, s.active)
    ensures r.Success? <==> reply.Some?
    ensures r.Success? ==> Lists(r.value, s.active) && r.value == reply.value
  {
    match reply
    case Some(xs) => Success(xs)
    case None => Failure("SMEMBERS failed")
  }

  /** The connection request for path id `id`: rejection before anything
      else for an empty id; otherwise the snapshot (current members, then
      `id`) is published on "all" and only afterwards `id` joins the set.
      `subscribed` says whether the subscription to "all" was confirmed;
      `members` is the store's reply to `SMEMBERS` (None: it failed). */
  function Accept(codec: Codec, s: Store, id: string, subscribed: bool, members: Option<seq<string>>): (r: (Admission, Store))
    requires members.Some? ==> Lists(members.value, s.active)
    ensures id == "" ==> r.0 == BadRequest && r.1 == s
    ensures id != "" && !subscribed ==> r.0 == Abandoned && r.1 == s
    ensures id != "" && subscribed ==>
      && r.0.Admitted?
      && |r.0.snapshot| > 0 && r.0.snapshot[|r.0.snapshot| - 1] == id
      && (members.Some? ==>
            && r.0.snapshot[..|r.0.snapshot| - 1] == members.value
            && Lists(r.0.snapshot[..|r.0.snapshot| - 1], s.active))
      && (members.None? ==> r.0.snapshot == [id])
      && Log(r.1, Everyone) == Log(s, Everyone) + [codec.encodeList(r.0.snapshot)]
      && (forall c :: c != Everyone ==> Log(r.1, c) == Log(s, c))
      && r.1.active == s.active + {id}
  {
    if id == "" then (BadRequest, s)
    else if !subscribed then (Abandoned, s)
    else
      var listed := match AllActiveUsers(s, members)
        case Success(xs) => xs
        case Failure(_) => [];
      var snapshot := listed + [id];
      (Admitted(snapshot), Join(Publish(s, Everyone, codec.encodeList(snapshot)), id))
  }

  /** Classification of one frame read from the client: a chat or typing
      envelope is republished, as the very bytes received, on the channel
      named by its `to`; anything else publishes nothing. A value that does
      not decode leaves `to` empty, as Go's zero value does. */
  function Route(codec: Codec, raw: Raw): (r: Option<Publication>)
    ensures r.Some? <==> Unwrap(codec, raw).typ == ChatType || Unwrap(codec, raw).typ == TypingType
    ensures r.Some? ==> r.value.payload == raw
    ensures forall w, m ::
              codec.decodeWrapper(raw) == Some(w) && w.typ == ChatType && codec.decodeChat(w.value) == Some(m) ==>
                r == Some(Publication(m.to, raw))
    ensures forall w, m ::
              codec.decodeWrapper(raw) == Some(w) && w.typ == TypingType && codec.decodeTyping(w.value) == Some(m) ==>
                r == Some(Publication(m.to, raw))
    ensures forall w ::
              codec.decodeWrapper(raw) == Some(w) && w.typ == ChatType && codec.decodeChat(w.value).None? ==>
                r == Some(Publication("", raw))
    ensures forall w ::
              codec.decodeWrapper(raw) == Some(w) && w.typ == TypingType && codec.decodeTyping(w.value).None? ==>
                r == Some(Publication("", raw))
  {
    var w := Unwrap(codec, raw);
    if w.typ == ChatType then Some(Publication(codec.decodeChat(w.value).GetOr(NoChat).to, raw))
    else if w.typ == TypingType then Some(Publication(codec.decodeTyping(w.value).GetOr(NoTyping).to, raw))
    else None
  }

  /** How many times `x` occurs in `xs`. */
  function Count(xs: seq<string>, x: string): nat {
    if xs == [] then 0 else (if xs[0] == x then 1 else 0) + Count(xs[1..], x)
  }

  /** `a` can be obtained from `b` by deleting elements. */
  ghost predicate Subsequence(a: seq<string>, b: seq<string>)
    decreases |b|
  {
    if a == [] then true
    else if b == [] then false
    else (a[0] == b[0] && Subsequence(a[1..], b[1..])) || Subsequence(a, b[1..])
  }

  /** `slices.DeleteFunc(xs, func(e) bool { return e == id })`: every
      occurrence of `id` removed, the rest kept in order. */
  function Without(xs: seq<string>, id: string): (r: seq<string>)
    ensures id !in r
    ensures forall x :: x != id ==> Count(r, x) == Count(xs, x)
    ensures Subsequence(r, xs)
  {
    if xs == [] then []
    else if xs[0] == id then Without(xs[1..], id)
    else [xs[0]] + Without(xs[1..], id)
  }

  /** The friends list the gateway of `id` derives from a presence payload:
      the decoded snapshot (empty when it does not decode) without `id`. */
  function FriendsFor(codec: Codec, id: string, payload: Raw): (r: seq<string>)
    ensures id !in r
    ensures forall xs :: codec.decodeList(payload) == Some(xs) ==> Subsequence(r, xs) && forall x :: x != id ==> Count(r, x) == Count(xs, x)
    ensures codec.decodeList(payload).None? ==> r == []
  {
    Without(codec.decodeList(payload).GetOr([]), id)
  }

  /** The `friends` envelope written to the client for a presence payload. */
  function FriendsFrame(codec: Codec, id: string, payload: Raw): Raw {
    codec.encodeWrapper(MessageWrapper(FriendsType, codec.encodeList(FriendsFor(codec, id, payload))))
  }

  /** One admitted connection: whether its inbound loop still reads, whether
      its subscriptions are still open, whether its outbound relay still
      runs, and the frames written to the client so far. */
  datatype Gateway = Gateway(id: string, reading: bool, subscribed: bool, relaying: bool, sent: seq<Raw>)

  function Opened(id: string): Gateway {
    Gateway(id, true, true, true, [])
  }

  datatype Event =
    | Frame(raw: Raw)                        // the inbound loop read a frame
    | ReadFailed(normal: bool)               // the read failed (normal close or not)
    | Deliver(payload: Raw, writeOk: bool)   // a payload arrived on the id channel
    | Drained                                // the id channel closed after the subscriptions were closed
    | Presence(payload: Raw, writeOk: bool)  // a payload arrived on "all"

  /** The end of the outbound relay: `id` leaves the presence set and
      nothing is published. */
  function Stop(g: Gateway, s: Store): (Gateway, Store) {
    (g.(relaying := false), Leave(s, g.id))
  }

  /** One event of an admitted connection. Events for a loop that has
      already ended change nothing. */
  function Step(codec: Codec, g: Gateway, s: Store, e: Event): (r: (Gateway, Store))
    ensures r.0.id == g.id && |r.0.sent| >= |g.sent| && r.0.sent[..|g.sent|] == g.sent
    ensures r.0.reading ==> g.reading
    ensures g.reading && !r.0.reading <==> g.reading && e.ReadFailed?
    ensures r.0.relaying ==> g.relaying
    ensures g.relaying && !r.0.relaying ==> g.id !in r.1.active && r.1.active == s.active - {g.id}
    ensures !(g.relaying && !r.0.relaying) ==> r.1.active == s.active
    ensures !e.Frame? ==> r.1.log == s.log
    ensures e.Frame? && g.reading && Route(codec, e.raw).Some? ==>
              r == (g, Publish(s, Route(codec, e.raw).value.channel, e.raw))
    ensures e.Frame? && (!g.reading || Route(codec, e.raw).None?) ==> r == (g, s)
    ensures e.Deliver? && g.relaying && e.writeOk ==> r.0.sent == g.sent + [e.payload] && r.0.relaying
    ensures e.Presence? && g.subscribed && e.writeOk ==> r.0.sent == g.sent + [FriendsFrame(codec, g.id, e.payload)]
    ensures r.0.sent != g.sent ==> (e.Deliver? && g.relaying && e.writeOk) || (e.Presence? && g.subscribed && e.writeOk)
  {
    match e
    case Frame(raw) =>
      if !g.reading then (g, s)
      else
        (g, match Route(codec, raw)
            case None => s
            case Some(p) => Publish(s, p.channel, p.payload))
    case ReadFailed(_) =>
      if !g.reading then (g, s) else (g.(reading := false, subscribed := false), s)
    case Deliver(payload, ok) =>
      if !g.relaying then (g, s)
      else if ok then (g.(sent := g.sent + [payload]), s)
      else Stop(g, s)
    case Drained =>
      if g.relaying && !g.subscribed then Stop(g, s) else (g, s)
    case Presence(payload, ok) =>
      if g.subscribed && ok then (g.(sent := g.sent + [FriendsFrame(codec, g.id, payload)]), s) else (g, s)
  }

  /** One payload on the id channel and whether writing it to the socket succeeded. */
  datatype Delivery = Delivery(payload: Raw, writeOk: bool)

  /** The outbound loop: each payload is written verbatim and in arrival
      order; the first failed write ends the relay and removes `id` from
      the presence set. `n` is how many payloads were written. */
  method Relay(codec: Codec, g: Gateway, s: Store, ds: seq<Delivery>) returns (r: Gateway, t: Store, n: nat)
    requires g.relaying
    ensures n <= |ds| && |r.sent| == |g.sent| + n && r.sent[..|g.sent|] == g.sent
    ensures forall i :: 0 <= i < n ==> ds[i].writeOk && r.sent[|g.sent| + i] == ds[i].payload
    ensures n < |ds| ==> !ds[n].writeOk && !r.relaying && t.active == s.active - {g.id}
    ensures n == |ds| ==> r.relaying && t == s
    ensures t.log == s.log
  {
    r, t, n := g, s, 0;
    while n < |ds| && ds[n].writeOk
      invariant n <= |ds| && t == s
      invariant r == g.(sent := r.sent) && |r.sent| == |g.sent| + n && r.sent[..|g.sent|] == g.sent
      invariant forall i :: 0 <= i < n ==> ds[i].writeOk && r.sent[|g.sent| + i] == ds[i].payload
    {
      var step := Step(codec, r, t, Deliver(ds[n].payload, true));
      r, t := step.0, step.1;
      n := n + 1;
    }
    if n < |ds| {
      var step := Step(codec, r, t, Deliver(ds[n].payload, false));
      r, t := step.0, step.1;
    }
  }

  /** A connection that is admitted and then loses its socket on a write
      leaves the presence set as it found it, minus `id`, with exactly one
      snapshot published on "all". */
  lemma {:induction false} JoinThenLeave(codec: Codec, s: Store, id: string, members: seq<string>, payload: Raw)
    requires id != "" && Lists(members, s.active)
    ensures var (a, s1) := Accept(codec, s, id, true, Some(members));
      var (g, s2) := Step(codec, Opened(id), s1, Deliver(payload, false));
      && a == Admitted(members + [id])
      && s2.active == s.active - {id}
      && Log(s2, Everyone) == Log(s, Everyone) + [codec.encodeList(members + [id])]
  {
  }

  /** An abnormal close still removes the user: the failed read closes the
      subscriptions, the drained channel ends the relay, and `id` is gone. */
  lemma {:induction false} AbnormalCloseLeaves(codec: Codec, s: Store, id: string)
    ensures var (g1, s1) := Step(codec, Opened(id), s, ReadFailed(false));
      var (g2, s2) := Step(codec, g1, s1, Drained);
      !g2.reading && !g2.relaying && id !in s2.active && s2.log == s.log
  {
  }

  /** A frame that does not decode is dropped and the inbound loop goes on
      reading. */
  lemma MalformedFrameIgnored(codec: Codec, g: Gateway, s: Store, raw: Raw)
    requires g.reading && codec.decodeWrapper(raw).None?
    ensures Step(codec, g, s, Frame(raw)) == (g, s)
  {
  }

  /** Whatever a client sends with the chat or typing envelope reaches the
      channel of its addressee unchanged. */
  lemma RouteRoundTrip(codec: Codec, m: ChatMessage, t: TypingMessage)
    requires Faithful(codec)
    ensures var raw := codec.encodeWrapper(MessageWrapper(ChatType, codec.encodeChat(m)));
      Route(codec, raw) == Some(Publication(m.to, raw))
    ensures var raw := codec.encodeWrapper(MessageWrapper(TypingType, codec.encodeTyping(t)));
      Route(codec, raw) == Some(Publication(t.to, raw))
  {
    var raw := codec.encodeWrapper(MessageWrapper(ChatType, codec.encodeChat(m)));
    assert codec.decodeWrapper(raw) == Some(MessageWrapper(ChatType, codec.encodeChat(m)));
    assert codec.decodeChat(codec.encodeChat(m)) == Some(m);
    var raw' := codec.encodeWrapper(MessageWrapper(TypingType, codec.encodeTyping(t)));
    assert codec.decodeWrapper(raw') == Some(MessageWrapper(TypingType, codec.encodeTyping(t)));
    assert codec.decodeTyping(codec.encodeTyping(t)) == Some(t);
  }
}
