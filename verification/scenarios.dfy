/** End-to-end runs through both halves: client sessions, the wire codec and
    the relay's gateways over one shared store. */
module Scenarios {
  import opened Wrappers
  import opened Wire
  import opened Store
  import opened Server
  import opened Transcript
  import opened Client

  /** alice connects to an empty relay, then bob: the second snapshot is
      [alice, bob], bob's gateway hands bob the friends list [alice], and
      alice's hands alice [bob]; once bob's client receives that frame, his
      friend picker lists exactly alice. */
  lemma {:induction false} AliceThenBob(codec: Codec, b: Session, stamp: string, frame: string)
    requires Faithful(codec) && Valid(b.transcript)
    ensures var (a1, s1) := Accept(codec, Fresh, "alice", true, Some([]));
      var (a2, s2) := Accept(codec, s1, "bob", true, Some(["alice"]));
      var snapshot := codec.encodeList(["alice", "bob"]);
      && a2 == Admitted(["alice", "bob"])
      && Log(s2, Everyone) == [codec.encodeList(["alice"]), snapshot]
      && s2.active == {"alice", "bob"}
      && FriendsFor(codec, "bob", snapshot) == ["alice"]
      && FriendsFor(codec, "alice", snapshot) == ["bob"]
      && Incoming(codec, Got(FriendsFrame(codec, "bob", snapshot))) == Some(Recv(Some(FriendsIn(["alice"]))))
      && Update(b, Incoming(codec, Got(FriendsFrame(codec, "bob", snapshot))).value, stamp, frame).next.friends == ["alice"]
  {
    var s1 := Join(Publish(Fresh, Everyone, codec.encodeList(["alice"])), "alice");
    AdmitCompletely(codec, Fresh, "alice", []);
    assert s1.active == {"alice"};
    assert Lists(["alice"], s1.active);
    AdmitCompletely(codec, s1, "bob", ["alice"]);
    assert ["alice"] + ["bob"] == ["alice", "bob"];
    var snapshot := codec.encodeList(["alice", "bob"]);
    assert codec.decodeList(snapshot) == Some(["alice", "bob"]);
    assert Without(["alice", "bob"], "bob") == ["alice"] by {
      assert ["alice", "bob"][1..] == ["bob"];
    }
    assert Without(["alice", "bob"], "alice") == ["bob"] by {
      assert ["alice", "bob"][1..] == ["bob"];
      assert ["bob"][1..] == [];
    }
    IncomingRoundTrip(codec, NoChat, NoTyping, ["alice"]);
    FriendsArrive(b, ["alice"], stamp, frame);
  }

  /** An admitted connection whose `SMEMBERS` reply is `members`. */
  lemma AdmitCompletely(codec: Codec, s: Store, id: string, members: seq<string>)
    requires id != "" && Lists(members, s.active)
    ensures Accept(codec, s, id, true, Some(members)) ==
      (Admitted(members + [id]), Join(Publish(s, Everyone, codec.encodeList(members + [id])), id))
  {
  }

  /** A conversation where alice, talking to bob, presses Enter on "hi". */
  predicate Talking(a: Session) {
    a.window == Chatting && a.whoAmI == "alice" && a.friend == "bob" && a.draft == "hi"
  }

  /** alice sends "hi" to bob: her client asks for the send, which writes the
      chat and then "stopped typing"; the relay publishes both, unchanged, on
      bob's channel; bob's transcript gains one line from alice reading
      "hi"; once the send completes, alice's transcript gains her own echo
      and her draft is cleared. */
  lemma {:induction false} AliceSendsHi(codec: Codec, a: Session, b: Session, stamp: string, frame: string)
    requires Faithful(codec) && Talking(a) && Valid(a.transcript) && Valid(b.transcript)
    ensures Update(a, KeyMsg(Enter), stamp, frame).cmds == [SendText("alice", "bob", "hi", a.theme)]
    ensures var (frames, reply) := Send(codec, "alice", "bob", "hi", a.theme, true, true);
      && reply == MessageSentMsg
      && |frames| == 2
      && Route(codec, codec.encodeWrapper(frames[0])) == Some(Publication("bob", codec.encodeWrapper(frames[0])))
      && Route(codec, codec.encodeWrapper(frames[1])) == Some(Publication("bob", codec.encodeWrapper(frames[1])))
      && Incoming(codec, Got(codec.encodeWrapper(frames[0]))) == Some(Recv(Some(ChatIn(ChatMessage("bob", "alice", "hi", a.theme)))))
    ensures var m := Recv(Some(ChatIn(ChatMessage("bob", "alice", "hi", a.theme))));
      Update(b, m, stamp, frame).next.transcript.lines == b.transcript.lines + [Line.Received(stamp, "alice", "hi", a.theme)]
    ensures var r := Update(a, MessageSentMsg, stamp, frame).next;
      r.transcript.lines == a.transcript.lines + [Sent(stamp, "hi", a.theme)] && r.draft == ""
  {
    ChatEnter(a, stamp, frame);
    var chat := ChatMessage("bob", "alice", "hi", a.theme);
    var stop := TypingMessage(false, "bob", a.theme, "alice");
    var (frames, reply) := Send(codec, "alice", "bob", "hi", a.theme, true, true);
    assert frames[0] == JsonChat(codec, chat);
    assert frames[1] == JsonTyping(codec, false, "bob", a.theme, "alice");
    RouteRoundTrip(codec, chat, stop);
    IncomingRoundTrip(codec, chat, stop, []);
  }

  /** bob's socket fails mid-session: the failed read closes his
      subscriptions, his relay ends when the channel drains, and the
      snapshot published when carol joins next does not name him. */
  lemma {:induction false} BobDropsOut(codec: Codec, s: Store, members: seq<string>)
    requires "bob" in s.active
    ensures var (g1, s1) := Step(codec, Opened("bob"), s, ReadFailed(false));
      var (g2, s2) := Step(codec, g1, s1, Drained);
      && "bob" !in s2.active
      && (Lists(members, s2.active) ==>
            var (a, _) := Accept(codec, s2, "carol", true, Some(members));
            a.Admitted? && "bob" !in a.snapshot)
  {
  }
}
