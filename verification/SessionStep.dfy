/** One session of the broadcast, handled sequentially: the effect of one processMessage call,
    including the calls it makes to itself through broadcast, as a straight-line function. */
module SessionStep {
  import opened Sets

  newtype byte = x: int | 0 <= x < 256
  type Data = seq<byte>
  type Pid = nat

  datatype Kind = Send | Echo | Ready

  /** The part of a message one session looks at: its type, payload and claimed node id. */
  datatype Msg = Msg(kind: Kind, data: Data, node: Pid)

  /** What a session is created with: the id of its node, and the thresholds of its chain. */
  datatype Params = Params(self: Pid, t: nat, q: nat)

  type Votes = map<Data, set<Pid>>

  function Get(votes: Votes, d: Data): set<Pid> {
    if d in votes then votes[d] else {}
  }

  function Insert(votes: Votes, d: Data, p: Pid): Votes {
    votes[d := Get(votes, d) + {p}]
  }

  lemma InsertGet(votes: Votes, d: Data, p: Pid)
    ensures Get(Insert(votes, d, p), d) == Get(votes, d) + {p}
    ensures forall e :: e != d ==> Get(Insert(votes, d, p), e) == Get(votes, e)
  {
  }

  /** The fields of a session object that change. */
  datatype Sess = Sess(echo: Votes, ready: Votes, readySent: bool, delivered: bool)

  const INITIAL := Sess(map[], map[], false, false)

  /** The effect of one handler call: the session afterwards, the broadcasts queued, in order,
      the payloads delivered, and the message object as the call leaves it. */
  datatype Effect = Effect(sess: Sess, posts: seq<Kind>, delivered: seq<Data>, last: Msg)

  /** A READY that finds the READY flag set: it can only count and deliver. */
  function CountReady(c: Params, s: Sess, m: Msg): Effect {
    if s.delivered then Effect(s, [], [], m)
    else
      var ready := Insert(s.ready, m.data, m.node);
      if |Get(ready, m.data)| > 2 * c.t
      then Effect(s.(ready := ready, delivered := true), [], [m.data], m)
      else Effect(s.(ready := ready), [], [], m)
  }

  /** The node's own READY for d: the flag is set, READY is queued, and the node counts its own vote. */
  function SendReady(c: Params, s: Sess, d: Data): Effect {
    var e := CountReady(c, s.(readySent := true), Msg(Ready, d, c.self));
    e.(posts := [Ready])
  }

  function OnEcho(c: Params, s: Sess, m: Msg): Effect {
    if s.readySent then Effect(s, [], [], m)
    else
      var s' := s.(echo := Insert(s.echo, m.data, m.node));
      if |Get(s'.echo, m.data)| >= c.q then SendReady(c, s', m.data) else Effect(s', [], [], m)
  }

  function OnReady(c: Params, s: Sess, m: Msg): Effect {
    if s.delivered then Effect(s, [], [], m)
    else
      var s' := s.(ready := Insert(s.ready, m.data, m.node));
      if !s.readySent && |Get(s'.ready, m.data)| > c.t then SendReady(c, s', m.data)
      else CountReady(c, s, m)
  }

  function Handle(c: Params, s: Sess, m: Msg): Effect {
    match m.kind
    case Send =>
      var e := OnEcho(c, s, Msg(Echo, m.data, c.self));
      e.(posts := [Echo] + e.posts)
    case Echo => OnEcho(c, s, m)
    case Ready => OnReady(c, s, m)
  }

  /** What a call queues and how it leaves the object: under its own payload always, and under the node's
      own id and the last kind queued as soon as anything was queued. */
  lemma LeftObject(c: Params, s: Sess, m: Msg)
    ensures var e := Handle(c, s, m);
      && e.last.data == m.data
      && (if e.posts == [] then e.last == m else e.last == Msg(e.posts[|e.posts| - 1], m.data, c.self))
  {
    hide Insert, Get;
  }

  /** Handle unrolled once, the way processMessage re-enters itself: a SEND is an ECHO of one's own, */
  lemma SendReenters(c: Params, s: Sess, m: Msg)
    requires m.kind == Send
    ensures var n := Handle(c, s, Msg(Echo, m.data, c.self));
      Handle(c, s, m) == Effect(n.sess, [Echo] + n.posts, n.delivered, n.last)
  {
  }

  /** an ECHO that completes a quorum sets the flag and is then a READY of one's own, */
  lemma EchoReenters(c: Params, s: Sess, m: Msg)
    requires m.kind == Echo && !s.readySent && |Get(Insert(s.echo, m.data, m.node), m.data)| >= c.q
    ensures var s1 := s.(echo := Insert(s.echo, m.data, m.node), readySent := true);
      var n := Handle(c, s1, Msg(Ready, m.data, c.self));
      n.posts == [] && Handle(c, s, m) == Effect(n.sess, [Ready], n.delivered, n.last)
  {
    hide Insert, Get;
  }

  lemma EchoCounts(c: Params, s: Sess, m: Msg)
    requires m.kind == Echo
    ensures s.readySent ==> Handle(c, s, m) == Effect(s, [], [], m)
    ensures var echo := Insert(s.echo, m.data, m.node);
      !s.readySent && |Get(echo, m.data)| < c.q ==> Handle(c, s, m) == Effect(s.(echo := echo), [], [], m)
  {
    hide Insert, Get;
  }

  /** and so is a READY that makes t + 1; when it makes 2t + 1 the nested call has delivered already. */
  lemma ReadyReenters(c: Params, s: Sess, m: Msg)
    requires m.kind == Ready && !s.delivered && !s.readySent && |Get(Insert(s.ready, m.data, m.node), m.data)| > c.t
    ensures var s1 := s.(ready := Insert(s.ready, m.data, m.node), readySent := true);
      var n := Handle(c, s1, Msg(Ready, m.data, c.self));
      && n.posts == [] && Handle(c, s, m) == Effect(n.sess, [Ready], n.delivered, n.last)
      && (|Get(s1.ready, m.data)| > 2 * c.t ==> n.sess.delivered)
  {
    var ready := Insert(s.ready, m.data, m.node);
    InsertGet(ready, m.data, c.self);
    SubsetCard(Get(ready, m.data), Get(Insert(ready, m.data, c.self), m.data));
  }
}
