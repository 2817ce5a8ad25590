/** What the broadcast guarantees in every reachable state, in both encoding modes unless said. */
module Guarantees {
  import opened Sets
  import opened Thresholds
  import opened SessionStep
  import opened Interleaving
  import opened ThreadInvariants
  import opened Network

  /** The client hypothesis: no correct node is handed SENDs of two payloads in this session. */
  ghost predicate OnePayload(s: System) {
    forall x, d, e :: x in s && TookSend(s[x], d) && TookSend(s[x], e) ==> d == e
  }

  /** All correct nodes that sent READY sent it for one payload. */
  ghost predicate SameReady(s: System) {
    forall x, y :: x in s && y in s && s[x].ready.Won? && s[y].ready.Won? ==> s[x].ready.data == s[y].ready.data
  }

  /** No two correct nodes deliver different payloads. */
  ghost predicate Agree(s: System) {
    forall x, y, d, e :: x in s && y in s && d in s[x].log && e in s[y].log ==> d == e
  }

  ghost predicate AllDelivered(s: System, d: Data) {
    forall x :: x in s ==> s[x].log == [d]
  }

  /** No count a handler carries is ahead of the set it counted. */
  ghost predicate CountsBehind(s: Node) {
    forall tid :: tid in s.threads ==> CountBehind(s.sess, s.threads[tid])
  }

  ghost predicate CountBehind(s: Sess, th: Thread) {
    && (th.pc.EchoTest? ==> th.pc.count <= |Get(s.echo, th.obj.data)|)
    && (th.pc.ReadyTest? || th.pc.ReadyCas? || th.pc.DeliverTest? ==> th.pc.count <= |Get(s.ready, th.obj.data)|)
    && forall i :: 0 <= i < |th.outer| ==> th.outer[i] <= |Get(s.ready, th.obj.data)|
  }

  /** In every run, however handlers interleave: one READY broadcast and one delivery at most, no delivery
      before the READY flag, and no captured count ahead of its set. */
  lemma InterleavingSafety(g: Config, s: System, x: Pid)
    requires g.Valid() && Reachable(g, s) && x in s
    ensures s[x].readyPosts <= 1 && |s[x].log| <= 1
    ensures s[x].sess.delivered ==> s[x].sess.readySent
    ensures CountsBehind(s[x])
  {
    AlwaysConsistent(g, s);
    AtMostOnce(g.At(x), g.mode, s[x]);
    CountsBehindBy(g.At(x), g.mode, s[x]);
  }

  lemma CountsBehindBy(c: Params, mode: Mode, s: Node)
    requires Inv(c, mode, s)
    ensures CountsBehind(s)
  {
    assert ThreadsOk(c, s);
    hide Inv, CountBehind, CountOk;
    forall tid | tid in s.threads
      ensures CountBehind(s.sess, s.threads[tid])
    {
      assert ThreadOk(c, s, tid);
      CountBehindBy(c, s.sess, s.threads[tid]);
    }
  }

  lemma CountBehindBy(c: Params, s: Sess, th: Thread)
    requires CountOk(c, s, th)
    ensures CountBehind(s, th)
  {
  }

  ghost predicate MayReady(g: Config, s: Node, d: Data) {
    |Get(s.sess.echo, d)| >= g.Q() || |Get(s.sess.ready, d)| > g.T()
  }

  ghost predicate MayDeliver(g: Config, s: Node, d: Data) {
    |Get(s.sess.ready, d)| > 2 * g.T()
  }

  /** Once the handlers of a node have returned its flags say exactly what its sets say, and each flag set
      has been acted on exactly once. */
  lemma NoLostTrigger(g: Config, s: System, x: Pid)
    requires g.Valid() && Reachable(g, s) && x in s && AllDone(s[x])
    ensures s[x].sess.readySent <==> exists d :: MayReady(g, s[x], d)
    ensures s[x].sess.delivered <==> exists d :: MayDeliver(g, s[x], d)
    ensures s[x].readyPosts == if s[x].sess.readySent then 1 else 0
    ensures |s[x].log| == if s[x].sess.delivered then 1 else 0
  {
    AlwaysConsistent(g, s);
    var n := s[x];
    assert Inv(g.At(x), g.mode, n);
    FlagCauses(g, n, x);
    forall d
      ensures MayReady(g, n, d) ==> n.sess.readySent
      ensures MayDeliver(g, n, d) ==> n.sess.delivered
    {
      DoneFlags(g.At(x), g.mode, n, d);
    }
  }

  lemma FlagCauses(g: Config, s: Node, x: Pid)
    requires Inv(g.At(x), g.mode, s) && AllDone(s)
    ensures s.sess.readySent ==> MayReady(g, s, s.ready.data)
    ensures s.sess.delivered ==> MayDeliver(g, s, s.commit.data)
    ensures s.readyPosts == if s.sess.readySent then 1 else 0
    ensures |s.log| == if s.sess.delivered then 1 else 0
  {
    DoneOnce(g.At(x), g.mode, s);
  }

  /** In every run, what a correct node sends is its own: an ECHO of a payload whose SEND it took in, or
      READY for the one payload its flag was won for; never anything else, whenever buffers are encoded. */
  lemma SentIsOwn(g: Config, s: System, x: Pid, m: Msg)
    requires g.Valid() && Reachable(g, s) && x in s && m in s[x].sent
    ensures m.node == x
    ensures match m.kind
      case Send => false
      case Echo => TookSend(s[x], m.data)
      case Ready => s[x].sess.readySent && s[x].ready.Won? && s[x].ready.data == m.data
  {
    AlwaysConsistent(g, s);
    BuffersAreOwn(g.At(x), g.mode, s[x], m);
  }

  /** A READY sent by a correct node goes back to an echo quorum at some correct node. */
  lemma Provenance(g: Config, s: System, x: Pid)
    requires g.Valid() && Reachable(g, s) && x in s && s[x].ready.Won?
    ensures exists y :: y in s && |Get(s[y].sess.echo, s[x].ready.data)| >= g.Q()
  {
    AlwaysConsistent(g, s);
    assert Backed(g, s, s[x].ready.data);
  }

  /** A delivered payload has more than 2t ready votes, one of them a correct node's. */
  lemma DeliveredVotes(g: Config, s: System, x: Pid, d: Data) returns (p: Pid)
    requires g.Valid() && Consistent(g, s) && x in s && d in s[x].log
    ensures s[x].commit.Won? && s[x].commit.data == d && |Get(s[x].sess.ready, d)| > 2 * g.T()
    ensures p in s && s[p].ready.Won? && s[p].ready.data == d
  {
    assert Inv(g.At(x), g.mode, s[x]);
    p := CorrectVoter(g, s, x, d);
  }

  /** The echo votes behind a payload come from correct nodes, up to the faulty ones. */
  lemma EchoBackers(g: Config, s: System, y: Pid, d: Data)
    requires g.Valid() && Consistent(g, s) && y in s
    ensures Get(s[y].sess.echo, d) <= g.parties
    ensures forall p :: p in Get(s[y].sess.echo, d) - g.faulty ==> p in s && TookSend(s[p], d)
  {
    forall p | p in Get(s[y].sess.echo, d)
      ensures p in g.parties && (p in s ==> TookSend(s[p], d))
    {
      EchoOrigin(g, s, y, d, p);
    }
  }

  lemma CorrectCount(g: Config)
    requires g.Valid()
    ensures |g.Correct()| == |g.parties| - |g.faulty|
  {
    assert g.parties == g.Correct() + g.faulty;
  }

  /** The correct nodes that have taken in a SEND of d. */
  ghost function Takers(s: System, d: Data): set<Pid> {
    set p | p in s && TookSend(s[p], d)
  }

  /** An echo quorum at a correct node means that most correct nodes took in the SEND. */
  lemma QuorumTookSend(g: Config, s: System, y: Pid, d: Data)
    requires g.Valid() && Consistent(g, s) && y in s && |Get(s[y].sess.echo, d)| >= g.Q()
    ensures 2 * |Takers(s, d)| > |g.Correct()|
  {
    var votes := Get(s[y].sess.echo, d);
    EchoBackers(g, s, y, d);
    Minus(votes, g.faulty);
    assert votes - g.faulty <= Takers(s, d);
    SubsetCard(votes - g.faulty, Takers(s, d));
    ThresholdsHold(|g.parties|);
    CorrectCount(g);
  }

  lemma MostTookSend(g: Config, s: System, x: Pid)
    requires g.Valid() && Consistent(g, s) && x in s && s[x].ready.Won?
    ensures 2 * |Takers(s, s[x].ready.data)| > |g.Correct()|
  {
    var d := s[x].ready.data;
    assert Backed(g, s, d);
    var y :| y in s && |Get(s[y].sess.echo, d)| >= g.Q();
    QuorumTookSend(g, s, y, d);
  }

  /** No creation: a delivered payload reached most of the correct nodes as a SEND. */
  lemma NoCreation(g: Config, s: System, x: Pid, d: Data)
    requires g.Valid() && Reachable(g, s) && x in s && d in s[x].log
    ensures 2 * |Takers(s, d)| > |g.Correct()|
  {
    AlwaysConsistent(g, s);
    var p := DeliveredVotes(g, s, x, d);
    MostTookSend(g, s, p);
  }

  /** Under the client hypothesis two echo quorums share a correct node, so READY is for one payload. */
  lemma OnePayloadSameReady(g: Config, s: System)
    requires g.Valid() && Consistent(g, s) && OnePayload(s)
    ensures SameReady(s)
  {
    forall x, y | x in s && y in s && s[x].ready.Won? && s[y].ready.Won?
      ensures s[x].ready.data == s[y].ready.data
    {
      var d, e := s[x].ready.data, s[y].ready.data;
      assert Backed(g, s, d) && Backed(g, s, e);
      var a :| a in s && |Get(s[a].sess.echo, d)| >= g.Q();
      var b :| b in s && |Get(s[b].sess.echo, e)| >= g.Q();
      EchoBackers(g, s, a, d);
      EchoBackers(g, s, b, e);
      ThresholdsHold(|g.parties|);
      QuorumsIntersect(Get(s[a].sess.echo, d), Get(s[b].sess.echo, e), g.parties, g.T(), g.Q());
      var p := Outside(Get(s[a].sess.echo, d) * Get(s[b].sess.echo, e), g.faulty);
      assert TookSend(s[p], d) && TookSend(s[p], e);
    }
  }

  lemma SameReadyAgree(g: Config, s: System)
    requires g.Valid() && Consistent(g, s) && SameReady(s)
    ensures Agree(s)
  {
    forall x, y, d, e | x in s && y in s && d in s[x].log && e in s[y].log
      ensures d == e
    {
      var p := DeliveredVotes(g, s, x, d);
      var q := DeliveredVotes(g, s, y, e);
    }
  }

  /** Agreement. */
  lemma Agreement(g: Config, s: System)
    requires g.Valid() && Reachable(g, s) && OnePayload(s)
    ensures Agree(s)
  {
    AlwaysConsistent(g, s);
    OnePayloadSameReady(g, s);
    SameReadyAgree(g, s);
  }

  /** The correct nodes behind a payload's ready votes at one node. */
  lemma ReadyBackers(g: Config, s: System, x: Pid, d: Data) returns (backers: set<Pid>)
    requires g.Valid() && Consistent(g, s) && x in s
    ensures backers <= g.Correct() && |backers| >= |Get(s[x].sess.ready, d)| - |g.faulty|
    ensures forall p :: p in backers ==> s[p].ready.Won? && s[p].ready.data == d
  {
    backers := Get(s[x].sess.ready, d) - g.faulty;
    Minus(Get(s[x].sess.ready, d), g.faulty);
    forall p | p in backers
      ensures p in s && s[p].ready.Won? && s[p].ready.data == d
    {
      ReadyOrigin(g, s, x, d, p);
    }
  }

  /** Agreement whatever the clients do, counting the one READY of each correct node. */
  lemma AgreementForAnyClient(g: Config, s: System)
    requires g.Valid() && Reachable(g, s)
    requires |g.parties| + |g.faulty| <= 4 * g.T() + 1
    ensures Agree(s)
  {
    AlwaysConsistent(g, s);
    forall x, y, d, e | x in s && y in s && d in s[x].log && e in s[y].log
      ensures d == e
    {
      if d != e {
        var p := DeliveredVotes(g, s, x, d);
        var q := DeliveredVotes(g, s, y, e);
        var a := ReadyBackers(g, s, x, d);
        var b := ReadyBackers(g, s, y, e);
        CorrectCount(g);
        assert a * b == {};
        Overlap(a, b, g.Correct());
      }
    }
  }

  /** In a quiescent state a READY of one correct node is counted by all, unless they delivered. */
  lemma ReadySpreads(g: Config, s: System, p: Pid, y: Pid)
    requires Consistent(g, s) && Quiescent(g, s) && p in s && y in s && s[p].ready.Won?
    ensures p in Get(s[y].sess.ready, s[p].ready.data) || s[y].sess.delivered
  {
    assert Inv(g.At(p), g.mode, s[p]) && Inv(g.At(y), g.mode, s[y]);
    IdleOnce(g.At(p), g.mode, s[p]);
    DoneVotes(g.At(y), g.mode, s[y], s[p].ready.data, p);
  }

  /** A node all of whose peers in a large enough set sent READY for d has set its flags. */
  lemma ReadySetSpreads(g: Config, s: System, senders: set<Pid>, d: Data, y: Pid)
    requires g.Valid() && Consistent(g, s) && Quiescent(g, s) && y in s
    requires senders <= g.Correct() && forall p :: p in senders ==> s[p].ready.Won? && s[p].ready.data == d
    ensures |senders| > g.T() ==> s[y].ready.Won?
    ensures |senders| > 2 * g.T() ==> s[y].sess.delivered
  {
    assert Inv(g.At(y), g.mode, s[y]);
    if !s[y].sess.delivered {
      forall p | p in senders
        ensures p in Get(s[y].sess.ready, d)
      {
        ReadySpreads(g, s, p, y);
      }
      SubsetCard(senders, Get(s[y].sess.ready, d));
      DoneFlags(g.At(y), g.mode, s[y], d);
    }
  }

  /** t + 1 correct READYs for d carry every correct node to delivering d. */
  lemma Amplify(g: Config, s: System, senders: set<Pid>, d: Data)
    requires g.Valid() && Consistent(g, s) && Quiescent(g, s) && SameReady(s)
    requires senders <= g.Correct() && |senders| > g.T()
    requires forall p :: p in senders ==> s[p].ready.Won? && s[p].ready.data == d
    ensures AllDelivered(s, d)
  {
    var p :| p in senders;
    forall y | y in s
      ensures s[y].ready.Won? && s[y].ready.data == d
    {
      ReadySetSpreads(g, s, senders, d, y);
    }
    CorrectCount(g);
    CorrectNodesSuffice(|g.parties|);
    forall y | y in s
      ensures s[y].log == [d]
    {
      ReadySetSpreads(g, s, g.Correct(), d, y);
      IdleOnce(g.At(y), g.mode, s[y]);
      var v := DeliveredVotes(g, s, y, s[y].log[0]);
    }
  }

  /** Totality: once the network is quiet, what one correct node delivered all have delivered. */
  lemma Totality(g: Config, s: System, x: Pid, d: Data)
    requires g.Valid() && Reachable(g, s) && OnePayload(s) && Quiescent(g, s)
    requires x in s && d in s[x].log
    ensures AllDelivered(s, d)
  {
    AlwaysConsistent(g, s);
    OnePayloadSameReady(g, s);
    var p := DeliveredVotes(g, s, x, d);
    var senders := ReadyBackers(g, s, x, d);
    Amplify(g, s, senders, d);
  }

  /** Every correct node took in a SEND of d, and of nothing else. */
  ghost predicate AllTook(s: System, d: Data) {
    forall x :: x in s ==> TookSend(s[x], d) && forall e :: TookSend(s[x], e) ==> e == d
  }

  lemma AllTookReady(g: Config, s: System, d: Data)
    requires g.Valid() && Consistent(g, s) && AllTook(s, d)
    ensures SameReady(s) && forall x :: x in s && s[x].ready.Won? ==> s[x].ready.data == d
  {
    OnePayloadSameReady(g, s);
    forall x | x in s && s[x].ready.Won?
      ensures s[x].ready.data == d
    {
      MostTookSend(g, s, x);
      var p :| p in Takers(s, s[x].ready.data);
    }
  }

  /** A node still without READY has counted the ECHO of every correct node that shows one. */
  lemma EchoSpreads(g: Config, s: System, d: Data, p: Pid, x: Pid)
    requires Consistent(g, s) && Quiescent(g, s) && AllTook(s, d)
    requires p in s && x in s && !s[x].ready.Won?
    requires g.mode == Copied || !s[p].ready.Won?
    ensures p in Get(s[x].sess.echo, d)
  {
    assert Inv(g.At(p), g.mode, s[p]) && Inv(g.At(x), g.mode, s[x]);
    IdleEcho(g.At(p), g.mode, s[p], d);
    DoneVotes(g.At(x), g.mode, s[x], d, p);
  }

  ghost function Readies(s: System): set<Pid> {
    set x | x in s && s[x].ready.Won?
  }

  /** If few nodes had sent READY, the ECHOs of the others, or of all when copied, would be a quorum. */
  lemma ManyReady(g: Config, s: System, d: Data)
    requires g.Valid() && Consistent(g, s) && Quiescent(g, s) && AllTook(s, d)
    requires g.mode == Copied || |g.Correct()| >= g.Q() + g.T()
    ensures |Readies(s)| > g.T()
  {
    CorrectCount(g);
    CorrectNodesSuffice(|g.parties|);
    var rest := g.Correct() - Readies(s);
    Minus(g.Correct(), Readies(s));
    if |Readies(s)| <= g.T() {
      var x :| x in rest;
      var shown := if g.mode == Copied then g.Correct() else rest;
      assert |shown| >= g.Q();
      forall p | p in shown
        ensures p in Get(s[x].sess.echo, d)
      {
        EchoSpreads(g, s, d, p, x);
      }
      SubsetCard(shown, Get(s[x].sess.echo, d));
      assert Inv(g.At(x), g.mode, s[x]);
      DoneFlags(g.At(x), g.mode, s[x], d);
    }
  }

  /** Validity, when encoding copies, or when so few nodes are faulty that up to t ECHOs replaced by
      READY do not matter. */
  lemma Validity(g: Config, s: System, d: Data)
    requires g.Valid() && Reachable(g, s) && Quiescent(g, s) && AllTook(s, d)
    requires g.mode == Copied || |g.Correct()| >= g.Q() + g.T()
    ensures AllDelivered(s, d)
  {
    AlwaysConsistent(g, s);
    AllTookReady(g, s, d);
    ManyReady(g, s, d);
    Amplify(g, s, Readies(s), d);
  }
}
