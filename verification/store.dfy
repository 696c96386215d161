/** The shared store the relay instances use (Redis): the presence set kept
    under `active:channels` and the publish side of its named channels, each
    seen as the append-only log of what was published on it. Whether a
    subscriber was attached when a payload was published is the subscriber's
    concern and is not recorded here. */
module Store {
  import opened Wire

  datatype Store = Store(active: set<string>, log: map<string, seq<Raw>>)

  /** The channel every gateway subscribes to for presence snapshots. */
  const Everyone: string := "all"

  const Fresh := Store({}, map[])

  /** Everything published on `ch` so far, oldest first. */
  function Log(s: Store, ch: string): seq<Raw> {
    if ch in s.log then s.log[ch] else []
  }

  /** `PUBLISH ch payload`: only `ch`'s log grows, by exactly the payload,
      at its end. */
  function Publish(s: Store, ch: string, payload: Raw): (r: Store)
    ensures Log(r, ch) == Log(s, ch) + [payload]
    ensures forall c :: c != ch ==> Log(r, c) == Log(s, c)
    ensures r.active == s.active
  {
    s.(log := s.log[ch := Log(s, ch) + [payload]])
  }

  /** `SADD active:channels id`. */
  function Join(s: Store, id: string): Store {
    s.(active := s.active + {id})
  }

  /** `SREM active:channels id`. */
  function Leave(s: Store, id: string): Store {
    s.(active := s.active - {id})
  }

  /** `xs` is one reply to `SMEMBERS`: every member exactly once, in some order. */
  ghost predicate Lists(xs: seq<string>, members: set<string>) {
    && (forall x :: x in xs <==> x in members)
    && (forall i, j :: 0 <= i < j < |xs| ==> xs[i] != xs[j])
  }

  /** Joining twice is joining once, leaving twice is leaving once, and
      leaving when absent changes nothing. */
  lemma PresenceIdempotent(s: Store, id: string)
    ensures Join(Join(s, id), id) == Join(s, id) && id in Join(s, id).active
    ensures Leave(Leave(s, id), id) == Leave(s, id) && id !in Leave(s, id).active
    ensures id !in s.active ==> Leave(s, id) == s
  {
  }

  /** Two publications on one channel are logged in publication order. */
  lemma {:induction false} FifoPerChannel(s: Store, ch: string, e1: Raw, e2: Raw)
    ensures Log(Publish(Publish(s, ch, e1), ch, e2), ch) == Log(s, ch) + [e1, e2]
  {
  }
}
