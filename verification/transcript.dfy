/** The client's transcript reconciler: the ordered lines of the conversation
    (`Model.Messages`) and the side index from a typing peer to the slot that
    shows its placeholder (`Model.EventTracking`). Every edit of one is made
    together with the matching edit of the other. */
module Transcript {
  import opened Wrappers
  import opened Wire

  /** A rendered line, kept as the parts it is rendered from. */
  datatype Line =
    | Received(stamp: string, from: string, text: string, color: int)
    | Sent(stamp: string, text: string, color: int)
      /** A typing placeholder; `style` is None until the first animation
          tick restyles it with the peer's colour. */
    | Placeholder(stamp: string, from: string, frame: string, style: Option<int>)

  /** Where a peer's placeholder sits, and how to redraw it (`TypeInfo`). */
  datatype TypeInfo = TypeInfo(index: int, color: int, from: string)

  datatype Transcript = Transcript(lines: seq<Line>, tracking: map<string, TypeInfo>)

  const Empty := Transcript([], map[])

  predicate PlaceholderOf(l: Line, peer: string) {
    l.Placeholder? && l.from == peer
  }

  /** Every tracked slot is an index of the transcript and shows that
      peer's placeholder. */
  predicate Sound(t: Transcript) {
    forall p :: p in t.tracking ==>
      && t.tracking[p].from == p
      && 0 <= t.tracking[p].index < |t.lines|
      && PlaceholderOf(t.lines[t.tracking[p].index], p)
  }

  /** Every placeholder line is the tracked slot of its peer. */
  predicate Complete(t: Transcript) {
    forall i :: 0 <= i < |t.lines| && t.lines[i].Placeholder? ==>
      t.lines[i].from in t.tracking && t.tracking[t.lines[i].from].index == i
  }

  predicate Valid(t: Transcript) {
    Sound(t) && Complete(t)
  }

  /** Two different peers never share a slot. */
  predicate DistinctSlots(t: Transcript) {
    forall p, q :: p in t.tracking && q in t.tracking && p != q ==>
      t.tracking[p].index != t.tracking[q].index
  }

  lemma EmptyValid()
    ensures Valid(Empty)
  {
  }

  lemma ValidSlotsDistinct(t: Transcript)
    requires Valid(t)
    ensures DistinctSlots(t)
  {
    forall p, q | p in t.tracking && q in t.tracking && p != q
      ensures t.tracking[p].index != t.tracking[q].index
    {
      assert PlaceholderOf(t.lines[t.tracking[p].index], p);
      assert PlaceholderOf(t.lines[t.tracking[q].index], q);
    }
  }

  /** A chat line from a peer (the `ChatMessage` branch of `Update`). */
  function AppendReceived(t: Transcript, stamp: string, m: ChatMessage): (r: Transcript)
    ensures |r.lines| == |t.lines| + 1 && r.lines[..|t.lines|] == t.lines
    ensures r.lines[|t.lines|] == Received(stamp, m.from, m.text, m.color)
    ensures r.tracking == t.tracking
    ensures Valid(t) ==> Valid(r)
  {
    Transcript(t.lines + [Received(stamp, m.from, m.text, m.color)], t.tracking)
  }

  /** The local echo of a sent chat (the `MessageSentMsg` branch). */
  function AppendSent(t: Transcript, stamp: string, text: string, theme: int): (r: Transcript)
    ensures |r.lines| == |t.lines| + 1 && r.lines[..|t.lines|] == t.lines
    ensures r.lines[|t.lines|] == Sent(stamp, text, theme)
    ensures r.tracking == t.tracking
    ensures Valid(t) ==> Valid(r)
  {
    Transcript(t.lines + [Sent(stamp, text, theme)], t.tracking)
  }

  /** `isTyping == true` from `from`: a first placeholder is appended and its
      slot recorded; a peer already tracked changes nothing. */
  function TypingStarted(t: Transcript, from: string, color: int, stamp: string, frame: string): (r: Transcript)
    ensures from in t.tracking ==> r == t
    ensures from !in t.tracking ==>
      && |r.lines| == |t.lines| + 1
      && r.lines[..|t.lines|] == t.lines
      && PlaceholderOf(r.lines[|t.lines|], from)
      && r.tracking.Keys == t.tracking.Keys + {from}
      && r.tracking[from] == TypeInfo(|t.lines|, color, from)
      && (forall p :: p in t.tracking ==> r.tracking[p] == t.tracking[p])
    ensures Valid(t) ==> Valid(r)
  {
    if from in t.tracking then t
    else
      Transcript(
        t.lines + [Placeholder(stamp, from, frame, None)],
        t.tracking[from := TypeInfo(|t.lines|, color, from)])
  }

  /** A tracked entry after the line at `k` was deleted: slots at or after
      `k` move one place up. */
  function Shifted(info: TypeInfo, k: int): TypeInfo {
    if info.index >= k then info.(index := info.index - 1) else info
  }

  /** `isTyping == false` from `from`: its placeholder line is deleted, its
      entry dropped, and every other slot at or after the deleted one
      decremented; an untracked peer changes nothing. */
  function TypingStopped(t: Transcript, from: string): (r: Transcript)
    requires Valid(t)
    ensures from !in t.tracking ==> r == t
    ensures from in t.tracking ==>
      var k := t.tracking[from].index;
      && r.lines == t.lines[..k] + t.lines[k + 1..]
      && r.tracking.Keys == t.tracking.Keys - {from}
      && (forall p :: p in r.tracking ==>
            && r.tracking[p].from == t.tracking[p].from
            && r.tracking[p].color == t.tracking[p].color
            && r.tracking[p].index ==
                 (if t.tracking[p].index >= k then t.tracking[p].index - 1 else t.tracking[p].index))
    ensures forall p :: p in r.tracking ==>
      p in t.tracking && r.lines[r.tracking[p].index] == t.lines[t.tracking[p].index]
    ensures Valid(r)
  {
    if from !in t.tracking then t
    else
      var k := t.tracking[from].index;
      var r := Transcript(
        t.lines[..k] + t.lines[k + 1..],
        map p | p in t.tracking && p != from :: Shifted(t.tracking[p], k));
      StoppedKeepsOthers(t, from, r);
      r
  }

  lemma StoppedKeepsOthers(t: Transcript, from: string, r: Transcript)
    requires Valid(t) && from in t.tracking
    requires r.lines == t.lines[..t.tracking[from].index] + t.lines[t.tracking[from].index + 1..]
    requires r.tracking == map p | p in t.tracking && p != from :: Shifted(t.tracking[p], t.tracking[from].index)
    ensures forall p :: p in r.tracking ==>
      0 <= r.tracking[p].index < |r.lines| && r.lines[r.tracking[p].index] == t.lines[t.tracking[p].index]
    ensures Valid(r)
  {
    var k := t.tracking[from].index;
    ValidSlotsDistinct(t);
    forall p | p in r.tracking
      ensures 0 <= r.tracking[p].index < |r.lines|
      ensures r.lines[r.tracking[p].index] == t.lines[t.tracking[p].index]
    {
      assert t.tracking[p].index != k;
    }
    forall i | 0 <= i < |r.lines| && r.lines[i].Placeholder?
      ensures r.lines[i].from in r.tracking && r.tracking[r.lines[i].from].index == i
    {
      var j := if i < k then i else i + 1;
      assert r.lines[i] == t.lines[j];
      var p := t.lines[j].from;
      assert t.tracking[p].index == j;
      assert p != from;
    }
  }

  /** How a tracked placeholder is redrawn on a tick: current stamp and
      frame, styled with the peer's colour. */
  function Painted(info: TypeInfo, stamp: string, frame: string): Line {
    Placeholder(stamp, info.from, frame, Some(info.color))
  }

  /** The animation tick (`spinner.TickMsg`): every tracked slot is redrawn
      in place; nothing else moves. */
  function Tick(t: Transcript, stamp: string, frame: string): (r: Transcript)
    requires Valid(t)
    ensures |r.lines| == |t.lines| && r.tracking == t.tracking
    ensures forall p :: p in t.tracking ==>
      r.lines[t.tracking[p].index] == Painted(t.tracking[p], stamp, frame)
    ensures forall i :: 0 <= i < |t.lines| && !t.lines[i].Placeholder? ==> r.lines[i] == t.lines[i]
    ensures Valid(r)
  {
    Transcript(
      seq(|t.lines|, i requires 0 <= i < |t.lines| =>
        var l := t.lines[i];
        if l.Placeholder? && l.from in t.tracking then Painted(t.tracking[l.from], stamp, frame) else l),
      t.tracking)
  }

  /** `order` lists the tracked peers, each once: one possible iteration
      order of the Go map. */
  ghost predicate Enumerates(order: seq<string>, tracking: map<string, TypeInfo>) {
    && (forall p :: p in order <==> p in tracking)
    && (forall i, j :: 0 <= i < j < |order| ==> order[i] != order[j])
  }

  /** The tick loop as `Update` writes it: visit the tracked peers in
      `order`, overwriting each one's slot. */
  function Repaint(lines: seq<Line>, tracking: map<string, TypeInfo>, order: seq<string>, stamp: string, frame: string): (r: seq<Line>)
    requires forall p :: p in order ==> p in tracking && 0 <= tracking[p].index < |lines|
    requires forall p, q :: p in order && q in order && p != q ==> tracking[p].index != tracking[q].index
    ensures |r| == |lines|
    ensures forall p :: p in order ==> r[tracking[p].index] == Painted(tracking[p], stamp, frame)
    ensures forall i :: 0 <= i < |lines| && (forall p :: p in order ==> tracking[p].index != i) ==> r[i] == lines[i]
    decreases |order|
  {
    if order == [] then lines
    else
      var p := order[0];
      Repaint(lines[tracking[p].index := Painted(tracking[p], stamp, frame)], tracking, order[1..], stamp, frame)
  }

  /** Whatever order the map is iterated in, the loop produces the tick. */
  lemma RepaintAnyOrder(t: Transcript, order: seq<string>, stamp: string, frame: string)
    requires Valid(t) && Enumerates(order, t.tracking)
    ensures (ValidSlotsDistinct(t); Repaint(t.lines, t.tracking, order, stamp, frame) == Tick(t, stamp, frame).lines)
  {
    ValidSlotsDistinct(t);
    var r := Repaint(t.lines, t.tracking, order, stamp, frame);
    var u := Tick(t, stamp, frame).lines;
    forall i | 0 <= i < |t.lines|
      ensures r[i] == u[i]
    {
      var l := t.lines[i];
      if l.Placeholder? && l.from in t.tracking {
        assert l.from in order;
      } else {
        forall p | p in order
          ensures t.tracking[p].index != i
        {
          assert PlaceholderOf(t.lines[t.tracking[p].index], p);
        }
      }
    }
  }

  /** One reconciler input. */
  datatype Event =
    | Chat(m: ChatMessage)
    | Echo(text: string, theme: int)
    | Typing(t: TypingMessage)
    | Anim

  /** Applies one event; `stamp` is the wall clock and `frame` the
      ellipsis spinner's frame when it is handled. */
  function Apply(t: Transcript, e: Event, stamp: string, frame: string): (r: Transcript)
    requires Valid(t)
    ensures Valid(r)
  {
    match e
    case Chat(m) => AppendReceived(t, stamp, m)
    case Echo(text, theme) => AppendSent(t, stamp, text, theme)
    case Typing(m) =>
      if m.isTyping then TypingStarted(t, m.from, m.color, stamp, frame) else TypingStopped(t, m.from)
    case Anim => Tick(t, stamp, frame)
  }

  /** An event with the clock stamp and spinner frame current when it is
      handled. */
  datatype Arrival = Arrival(event: Event, stamp: string, frame: string)

  /** Applies events in arrival order, each at its own stamp and frame. */
  function Run(t: Transcript, arrivals: seq<Arrival>): (r: Transcript)
    requires Valid(t)
    ensures Valid(r)
    ensures (forall i :: 0 <= i < |arrivals| ==> arrivals[i].event.Anim?) ==>
              |r.lines| == |t.lines| && r.tracking == t.tracking
    decreases |arrivals|
  {
    if arrivals == [] then t
    else
      var a := arrivals[0];
      Run(Apply(t, a.event, a.stamp, a.frame), arrivals[1..])
  }

  /** Starting from the empty transcript, every tracked slot stays valid,
      distinct and on that peer's placeholder, whatever the event sequence
      and whenever each event is handled. */
  lemma {:induction false} SlotsStayValid(arrivals: seq<Arrival>)
    ensures var r := Run(Empty, arrivals); Valid(r) && DistinctSlots(r)
  {
    var r := Run(Empty, arrivals);
    ValidSlotsDistinct(r);
  }

  /** Stopping one peer's placeholder leaves every other peer's line where its
      slot says, and that peer's typing continues to be shown. */
  lemma {:induction false} StopIsolated(t: Transcript, from: string, other: string)
    requires Valid(t) && from in t.tracking && other in t.tracking && other != from
    ensures var r := TypingStopped(t, from);
      other in r.tracking && PlaceholderOf(r.lines[r.tracking[other].index], other)
  {
  }
}
