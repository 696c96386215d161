/** The typing heartbeat (`TypingObserver`) as the client runtime runs it:
    every qualifying keystroke cancels the live scope and starts a heartbeat
    under a fresh one. A heartbeat announces "typing" at once; when its
    timer fires it announces "stopped typing" only if its scope is still the
    live one. A scope is a generation number: cancelling means moving the
    session to the next generation. */
module Typing {
  import opened Wrappers
  import opened Wire
  import opened Transcript
  import opened Client

  /** What a heartbeat writes as soon as it starts. */
  function Begin(codec: Codec, h: Heartbeat): (w: MessageWrapper)
    ensures w.typ == TypingType
    ensures Faithful(codec) ==> codec.decodeTyping(w.value) == Some(TypingMessage(true, h.to, h.color, h.from))
  {
    JsonTyping(codec, true, h.to, h.color, h.from)
  }

  /** What a heartbeat writes when its timer fires while `live` is the
      session's scope: the "stopped typing" envelope if it was not
      cancelled, nothing if it was. */
  function Expire(codec: Codec, h: Heartbeat, live: nat): (r: seq<MessageWrapper>)
    ensures |r| <= 1
    ensures r != [] <==> h.scope == live
    ensures r != [] ==>
              && r[0].typ == TypingType
              && (Faithful(codec) ==> codec.decodeTyping(r[0].value) == Some(TypingMessage(false, h.to, h.color, h.from)))
  {
    if h.scope == live then [JsonTyping(codec, false, h.to, h.color, h.from)] else []
  }

  /** The client process: the session, the heartbeats whose timers have not
      fired yet (oldest first), and every envelope written to the socket. */
  datatype Runtime = Runtime(session: Session, pending: seq<Heartbeat>, wire: seq<MessageWrapper>)

  function Start(theme: int): Runtime {
    Runtime(Initial(theme), [], [])
  }

  /** Pending heartbeats were started in increasing scope order and none is
      newer than the live scope. */
  ghost predicate Ok(c: Runtime) {
    && Valid(c.session.transcript)
    && (forall i :: 0 <= i < |c.pending| ==> c.pending[i].scope <= c.session.scope)
    && (forall i, j :: 0 <= i < j < |c.pending| ==> c.pending[i].scope < c.pending[j].scope)
  }

  lemma StartOk(theme: int)
    ensures Ok(Start(theme))
  {
  }

  /** Runs the commands `Update` returned, in order: a heartbeat writes its
      announcement and joins the pending ones; a send writes its envelopes
      (both writes succeeding); the other commands write nothing. */
  function Launch(codec: Codec, pending: seq<Heartbeat>, wire: seq<MessageWrapper>, cmds: seq<Cmd>): (r: (seq<Heartbeat>, seq<MessageWrapper>))
    ensures |r.0| >= |pending| && r.0[..|pending|] == pending
    ensures |r.1| >= |wire| && r.1[..|wire|] == wire
    ensures (forall c :: c in cmds ==> !c.Observe?) ==> r.0 == pending
    decreases |cmds|
  {
    if cmds == [] then (pending, wire)
    else
      match cmds[0]
      case Observe(h) =>
        assert cmds[0] in cmds;
        Launch(codec, pending + [h], wire + [Begin(codec, h)], cmds[1..])
      case SendText(who, friend, text, color) => Launch(codec, pending, wire + Send(codec, who, friend, text, color, true, true).0, cmds[1..])
      case _ => Launch(codec, pending, wire, cmds[1..])
  }

  /** Hands one message to `Update` and runs the commands it returns. */
  function Dispatch(codec: Codec, c: Runtime, msg: Msg, stamp: string, frame: string): (r: Runtime)
    requires Ok(c)
    ensures Ok(r)
    ensures |r.wire| >= |c.wire| && r.wire[..|c.wire|] == c.wire
    ensures Qualifies(c.session, msg) ==>
      var h := Heartbeat(r.session.scope, c.session.friend, c.session.theme, c.session.whoAmI);
      && r.session.scope == c.session.scope + 1
      && r.pending == c.pending + [h]
      && r.wire == c.wire + [Begin(codec, h)]
    ensures !Qualifies(c.session, msg) ==> r.session.scope == c.session.scope && r.pending == c.pending
  {
    var step := Update(c.session, msg, stamp, frame);
    var (pending, wire) := Launch(codec, c.pending, c.wire, step.cmds);
    var r := Runtime(step.next, pending, wire);
    if Qualifies(c.session, msg) then
      var h := Heartbeat(r.session.scope, c.session.friend, c.session.theme, c.session.whoAmI);
      assert Launch(codec, c.pending, c.wire, [Observe(h)]) == Launch(codec, c.pending + [h], c.wire + [Begin(codec, h)], []);
      r
    else r
  }

  /** The timer of the `i`-th pending heartbeat fires. */
  function Fire(codec: Codec, c: Runtime, i: nat): (r: Runtime)
    requires Ok(c) && i < |c.pending|
    ensures Ok(r)
    ensures r.session == c.session
    ensures r.pending == c.pending[..i] + c.pending[i + 1..]
    ensures r.wire == c.wire + Expire(codec, c.pending[i], c.session.scope)
  {
    Runtime(c.session, c.pending[..i] + c.pending[i + 1..], c.wire + Expire(codec, c.pending[i], c.session.scope))
  }

  /** Only the most recently started heartbeat can still be live: every
      earlier one was cancelled and will write nothing when it fires. */
  lemma SingleFlight(codec: Codec, c: Runtime)
    requires Ok(c)
    ensures forall i :: 0 <= i < |c.pending| - 1 ==> Expire(codec, c.pending[i], c.session.scope) == []
    ensures forall i, j ::
              (0 <= i < |c.pending| && 0 <= j < |c.pending| &&
               c.pending[i].scope == c.session.scope && c.pending[j].scope == c.session.scope) ==> i == j
  {
    forall i | 0 <= i < |c.pending| - 1
      ensures c.pending[i].scope != c.session.scope
    {
      assert c.pending[i].scope < c.pending[|c.pending| - 1].scope;
    }
  }

  /** Hands a run of keystrokes to the runtime. */
  function Keystrokes(codec: Codec, c: Runtime, keys: seq<Key>, stamp: string, frame: string): (r: Runtime)
    requires Ok(c)
    ensures Ok(r)
    decreases |keys|
  {
    if keys == [] then c else Keystrokes(codec, Dispatch(codec, c, KeyMsg(keys[0]), stamp, frame), keys[1..], stamp, frame)
  }

  /** `n` copies of `w`. */
  function Repeat(w: MessageWrapper, n: nat): (r: seq<MessageWrapper>)
    ensures |r| == n && forall i :: 0 <= i < n ==> r[i] == w
  {
    if n == 0 then [] else [w] + Repeat(w, n - 1)
  }

  /** A burst of typing keys in a conversation writes one "typing"
      announcement per key, leaves one heartbeat per key pending, and only
      the last of them live. */
  lemma {:induction false} Burst(codec: Codec, c: Runtime, keys: seq<Key>, stamp: string, frame: string)
    requires Ok(c) && c.session.window == Chatting
    requires forall i :: 0 <= i < |keys| ==> TypingKey(keys[i])
    ensures var r := Keystrokes(codec, c, keys, stamp, frame);
      && r.session.window == Chatting
      && r.session.friend == c.session.friend && r.session.whoAmI == c.session.whoAmI && r.session.theme == c.session.theme
      && r.session.scope == c.session.scope + |keys|
      && r.wire == c.wire + Repeat(JsonTyping(codec, true, c.session.friend, c.session.theme, c.session.whoAmI), |keys|)
      && |r.pending| == |c.pending| + |keys|
      && (keys != [] ==> r.pending[|r.pending| - 1].scope == r.session.scope)
    decreases |keys|
  {
    if keys != [] {
      var s := c.session;
      var c1 := Dispatch(codec, c, KeyMsg(keys[0]), stamp, frame);
      assert Qualifies(s, KeyMsg(keys[0]));
      var w := JsonTyping(codec, true, s.friend, s.theme, s.whoAmI);
      assert c1.wire == c.wire + [w];
      assert c1.session.window == Chatting;
      Burst(codec, c1, keys[1..], stamp, frame);
      var r := Keystrokes(codec, c, keys, stamp, frame);
      assert r == Keystrokes(codec, c1, keys[1..], stamp, frame);
      assert r.wire == c1.wire + Repeat(w, |keys| - 1);
      assert Repeat(w, |keys|) == [w] + Repeat(w, |keys| - 1);
      if |keys| == 1 {
        assert r == c1;
      }
    }
  }

  /** Fires every pending timer, oldest first. */
  function Settle(codec: Codec, c: Runtime): (r: Runtime)
    requires Ok(c)
    ensures Ok(r) && r.session == c.session && r.pending == []
    ensures |r.wire| >= |c.wire| && r.wire[..|c.wire|] == c.wire
    decreases |c.pending|
  {
    if c.pending == [] then c else Settle(codec, Fire(codec, c, 0))
  }

  /** Once every timer has fired, at most one "stopped typing" was written:
      the one of the latest heartbeat, if it was never cancelled. */
  lemma {:induction false} SettleWritesAtMostOne(codec: Codec, c: Runtime)
    requires Ok(c)
    ensures var r := Settle(codec, c);
      r.wire == c.wire + (if c.pending == [] then [] else Expire(codec, c.pending[|c.pending| - 1], c.session.scope))
    decreases |c.pending|
  {
    if c.pending != [] {
      var c1 := Fire(codec, c, 0);
      SingleFlight(codec, c);
      SettleWritesAtMostOne(codec, c1);
      if |c.pending| == 1 {
        assert c1.pending == [];
      } else {
        assert c1.pending[|c1.pending| - 1] == c.pending[|c.pending| - 1];
        assert Expire(codec, c.pending[0], c.session.scope) == [];
      }
    }
  }

  /** Keystrokes in a conversation followed by a quiet period: one "typing"
      per keystroke and exactly one "stopped typing", for the live scope. */
  lemma {:induction false} BurstThenQuiet(codec: Codec, c: Runtime, keys: seq<Key>, stamp: string, frame: string)
    requires Ok(c) && c.session.window == Chatting && keys != []
    requires forall i :: 0 <= i < |keys| ==> TypingKey(keys[i])
    ensures var s := c.session;
      Settle(codec, Keystrokes(codec, c, keys, stamp, frame)).wire ==
        c.wire + Repeat(JsonTyping(codec, true, s.friend, s.theme, s.whoAmI), |keys|)
               + [JsonTyping(codec, false, s.friend, s.theme, s.whoAmI)]
  {
    var s := c.session;
    var r := Keystrokes(codec, c, keys, stamp, frame);
    var w := JsonTyping(codec, true, s.friend, s.theme, s.whoAmI);
    assert r.wire == c.wire + Repeat(w, |keys|) by {
      Burst(codec, c, keys, stamp, frame);
    }
    BurstLast(codec, c, keys, stamp, frame);
    var last := r.pending[|r.pending| - 1];
    assert Expire(codec, last, r.session.scope) == [JsonTyping(codec, false, s.friend, s.theme, s.whoAmI)];
    SettleWritesAtMostOne(codec, r);
  }

  /** The heartbeat a burst leaves live announces the conversation it was
      typed in. */
  lemma {:induction false} BurstLast(codec: Codec, c: Runtime, keys: seq<Key>, stamp: string, frame: string)
    requires Ok(c) && c.session.window == Chatting && keys != []
    requires forall i :: 0 <= i < |keys| ==> TypingKey(keys[i])
    ensures var r := Keystrokes(codec, c, keys, stamp, frame);
      |r.pending| > 0 &&
      r.pending[|r.pending| - 1] == Heartbeat(r.session.scope, c.session.friend, c.session.theme, c.session.whoAmI)
    decreases |keys|
  {
    var s := c.session;
    var c1 := Dispatch(codec, c, KeyMsg(keys[0]), stamp, frame);
    assert Qualifies(s, KeyMsg(keys[0]));
    assert Keystrokes(codec, c, keys, stamp, frame) == Keystrokes(codec, c1, keys[1..], stamp, frame);
    if |keys| == 1 {
      assert Keystrokes(codec, c1, keys[1..], stamp, frame) == c1;
    } else {
      assert c1.session.window == Chatting;
      Burst(codec, c, [keys[0]], stamp, frame);
      BurstLast(codec, c1, keys[1..], stamp, frame);
    }
  }
}
