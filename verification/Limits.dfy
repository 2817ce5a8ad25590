/** Exactly when agreement holds whatever the clients do. */
module AgreementLimit {
  import opened Sets
  import opened Thresholds
  import opened SessionStep
  import opened Interleaving
  import opened ThreadInvariants
  import opened Network
  import opened Guarantees
  import opened Solo
  import opened Schedules

  const FIRST: Data := [0]
  const SECOND: Data := [1]

  /** No READY of another node has been taken in. */
  ghost predicate Unvoted(s: Node) {
    forall m :: m in s.handled ==> m.kind != Ready
  }

  /** A correct node that has echoed both payloads and seen nothing else. */
  ghost predicate EchoedBoth(s: Node, p: Pid) {
    var ss := s.sess;
    && Idle(s) && !ss.readySent && !ss.delivered && s.log == []
    && Get(ss.echo, FIRST) == {p} && Get(ss.echo, SECOND) == {p} && (forall e :: Get(ss.ready, e) == {})
    && Unvoted(s)
  }

  ghost predicate ShowsBoth(s: Node, p: Pid) {
    Msg(Echo, FIRST, p) in s.sent && Msg(Echo, SECOND, p) in s.sent
  }

  /** A correct node that has just sent READY for d. */
  ghost predicate SentReady(g: Config, s: Node, p: Pid, d: Data) {
    var ss := s.sess;
    && Idle(s) && ss.readySent && Msg(Ready, d, p) in s.sent
    && Get(ss.ready, d) == {p}
    && ss.delivered == (g.T() == 0) && s.log == (if g.T() == 0 then [d] else [])
    && Unvoted(s)
  }

  lemma EchoEffect(c: Params, s: Sess, d: Data)
    requires !s.readySent && Get(s.echo, d) == {} && c.q >= 2
    ensures var e := Handle(c, s, Msg(Send, d, 0));
      && e.posts == [Echo] && e.last == Msg(Echo, d, c.self) && e.delivered == []
      && e.sess == s.(echo := Insert(s.echo, d, c.self))
  {
  }

  lemma EchoOne(g: Config, s: System, p: Pid, d: Data) returns (s': System)
    requires Reachable(g, s) && p in s && Idle(s[p]) && g.Q() >= 2
    requires !s[p].sess.readySent && Get(s[p].sess.echo, d) == {}
    ensures Reachable(g, s') && s'.Keys == s.Keys && s' == s[p := s'[p]] && Idle(s'[p])
    ensures s'[p].sess == s[p].sess.(echo := Insert(s[p].sess.echo, d, p))
    ensures s'[p].sent == s[p].sent + {Msg(Echo, d, p)} && s'[p].log == s[p].log
    ensures s'[p].handled == s[p].handled + {Msg(Send, d, 0)}
  {
    EchoEffect(g.At(p), s[p].sess, d);
    s' := HandleNow(g, s, p, Msg(Send, d, 0));
    assert QueuedBy(g.At(p), [Echo], d) == [Msg(Echo, d, p)];
  }

  lemma BothOne(g: Config, s: System, p: Pid) returns (s': System)
    requires Reachable(g, s) && p in s && s[p] == FRESH && g.Q() >= 2
    ensures Reachable(g, s') && s'.Keys == s.Keys && s' == s[p := s'[p]] && EchoedBoth(s'[p], p) && ShowsBoth(s'[p], p)
  {
    var s1 := EchoOne(g, s, p, FIRST);
    s' := EchoOne(g, s1, p, SECOND);
  }

  lemma AllEcho(g: Config) returns (s: System)
    requires g.Valid() && g.Q() >= 2
    ensures Reachable(g, s) && s.Keys == g.Correct()
    ensures forall p :: p in s ==> EchoedBoth(s[p], p) && ShowsBoth(s[p], p)
  {
    s := Start(g);
    StartReachable(g);
    var rest := g.Correct();
    while rest != {}
      invariant Reachable(g, s) && s.Keys == g.Correct() && rest <= g.Correct()
      invariant forall p :: p in rest ==> s[p] == FRESH
      invariant forall p :: p in s && p !in rest ==> EchoedBoth(s[p], p) && ShowsBoth(s[p], p)
      decreases |rest|
    {
      var p: Pid :| p in rest;
      var next := BothOne(g, s, p);
      forall v | v in next && v !in rest - {p}
        ensures EchoedBoth(next[v], v) && ShowsBoth(next[v], v)
      {
        assert v != p ==> next[v] == s[v];
      }
      rest := rest - {p};
      s := next;
    }
  }

  lemma ReadyEffect(c: Params, s: Sess, d: Data, v: Pid)
    requires !s.readySent && !s.delivered && |Get(s.echo, d) + {v}| >= c.q && Get(s.ready, d) == {}
    ensures var e := Handle(c, s, Msg(Echo, d, v));
      && e.posts == [Ready] && e.last == Msg(Ready, d, c.self)
      && e.sess.readySent && Get(e.sess.ready, d) == {c.self}
      && e.sess.delivered == (c.t == 0) && e.delivered == if c.t == 0 then [d] else []
  {
    assert Get(Insert(s.ready, d, c.self), d) == {c.self};
  }

  /** The echo that completes a quorum makes a node send READY. */
  lemma ReadyLast(g: Config, s: System, p: Pid, d: Data, v: Pid) returns (s': System)
    requires Reachable(g, s) && p in s && Idle(s[p]) && Available(g, s, Msg(Echo, d, v))
    requires !s[p].sess.readySent && !s[p].sess.delivered && s[p].log == []
    requires |Get(s[p].sess.echo, d) + {v}| >= g.Q() && Get(s[p].sess.ready, d) == {} && Unvoted(s[p])
    ensures Reachable(g, s') && s'.Keys == s.Keys && s' == s[p := s'[p]] && s[p].sent <= s'[p].sent
    ensures SentReady(g, s'[p], p, d)
  {
    ReadyEffect(g.At(p), s[p].sess, d, v);
    s' := HandleNow(g, s, p, Msg(Echo, d, v));
    var posts: seq<Kind> := [Ready];
    assert QueuedBy(g.At(p), posts, d) == [Msg(Ready, d, p)];
    assert Msg(Ready, d, p) in Sends(g.At(p), g.mode, Handle(g.At(p), s[p].sess, Msg(Echo, d, v)), d);
  }

  /** One echo short of a quorum, and the node that can complete it. */
  lemma QuorumButOne(g: Config, p: Pid) returns (others: set<Pid>, v: Pid)
    requires g.Valid() && g.Q() >= 2 && p in g.Correct()
    ensures others <= g.Correct() && p !in others && v in g.Correct()
    ensures |{p} + others| == g.Q() - 1 && |{p} + others + {v}| == g.Q()
  {
    CorrectCount(g);
    CorrectNodesSuffice(|g.parties|);
    var more := Choose(g.Correct() - {p}, g.Q() - 1);
    v :| v in more;
    others := more - {v};
    assert {p} + others + {v} == {p} + more;
  }

  /** A node can be brought within one echo of a quorum. */
  lemma AlmostQuorum(g: Config, s: System, p: Pid, d: Data) returns (s': System, v: Pid)
    requires g.Valid() && g.Q() >= 2 && Reachable(g, s) && s.Keys == g.Correct() && p in s
    requires EchoedBoth(s[p], p) && (d == FIRST || d == SECOND)
    requires forall v :: v in s ==> Available(g, s, Msg(Echo, d, v))
    ensures Reachable(g, s') && s'.Keys == s.Keys && s' == s[p := s'[p]] && s'[p].sent == s[p].sent && Idle(s'[p])
    ensures !s'[p].sess.readySent && !s'[p].sess.delivered && s'[p].log == [] && Unvoted(s'[p])
    ensures v in s && |Get(s'[p].sess.echo, d) + {v}| >= g.Q() && Get(s'[p].sess.ready, d) == {}
  {
    hide Idle, Get, Reachable, Available;
    var others;
    others, v := QuorumButOne(g, p);
    s' := Feed(g, s, p, Echo, d, others);
    assert Get(s'[p].sess.echo, d) == {p} + others;
  }

  /** Enough echoes of either payload make a node send READY for it. */
  lemma ReadyOne(g: Config, s: System, p: Pid, d: Data) returns (s': System)
    requires g.Valid() && g.Q() >= 2 && Reachable(g, s) && s.Keys == g.Correct() && p in s
    requires EchoedBoth(s[p], p) && (d == FIRST || d == SECOND) && forall v :: v in s ==> ShowsBoth(s[v], v)
    ensures Reachable(g, s') && s'.Keys == s.Keys && s' == s[p := s'[p]] && s[p].sent <= s'[p].sent
    ensures SentReady(g, s'[p], p, d)
  {
    forall v | v in s
      ensures Available(g, s, Msg(Echo, d, v))
    {
    }
    var s1, v := AlmostQuorum(g, s, p, d);
    AvailableOn(g, s, p, s1, Msg(Echo, d, v));
    s' := ReadyLast(g, s1, p, d, v);
  }

  /** The READY that makes a count pass 2t makes a node deliver. */
  lemma DeliverLast(g: Config, s: System, x: Pid, d: Data, v: Pid) returns (s': System)
    requires Reachable(g, s) && x in s && Idle(s[x]) && Available(g, s, Msg(Ready, d, v))
    requires s[x].sess.readySent && !s[x].sess.delivered
    requires |Get(s[x].sess.ready, d) + {v}| > 2 * g.T()
    ensures Reachable(g, s') && s'.Keys == s.Keys && s' == s[x := s'[x]]
    ensures d in s'[x].log
  {
    s' := HandleNow(g, s, x, Msg(Ready, d, v));
    assert Handle(g.At(x), s[x].sess, Msg(Ready, d, v)).delivered == [d];
  }

  /** A node that sent READY can be brought within one READY of delivering. */
  lemma AlmostFull(g: Config, s: System, x: Pid, d: Data, backers: set<Pid>) returns (s': System, v: Pid)
    requires g.T() >= 1 && Reachable(g, s) && x in s && SentReady(g, s[x], x, d)
    requires x in backers && |backers| >= 2 * g.T() + 1
    requires forall p :: p in backers ==> Available(g, s, Msg(Ready, d, p))
    ensures Reachable(g, s') && s'.Keys == s.Keys && s' == s[x := s'[x]] && s'[x].sent == s[x].sent && Idle(s'[x])
    ensures s'[x].sess.readySent && !s'[x].sess.delivered
    ensures v in backers && |Get(s'[x].sess.ready, d) + {v}| > 2 * g.T()
  {
    var others := Choose(backers - {x}, 2 * g.T());
    v :| v in others;
    assert |{x} + (others - {v})| == 2 * g.T();
    s' := Feed(g, s, x, Ready, d, others - {v});
    assert |Get(s'[x].sess.ready, d) + {v}| == 2 * g.T() + 1;
  }

  /** A node that sent READY delivers when 2t + 1 nodes, faulty ones included, back the payload. */
  lemma DeliverOne(g: Config, s: System, x: Pid, d: Data, backers: set<Pid>) returns (s': System)
    requires g.Valid() && Reachable(g, s) && s.Keys == g.Correct() && x in backers
    requires backers <= g.Correct() && |backers| + |g.faulty| >= 2 * g.T() + 1
    requires SentReady(g, s[x], x, d) && forall p :: p in backers ==> Msg(Ready, d, p) in s[p].sent
    ensures Reachable(g, s') && s'.Keys == s.Keys && s' == s[x := s'[x]]
    ensures d in s'[x].log
  {
    if g.T() == 0 {
      s' := s;
      assert s == s[x := s[x]];
    } else {
      assert backers * g.faulty == {};
      var s1, v := AlmostFull(g, s, x, d, backers + g.faulty);
      AvailableOn(g, s, x, s1, Msg(Ready, d, v));
      s' := DeliverLast(g, s1, x, d, v);
    }
  }

  /** Each node of a group sends READY for d; the others do not move. */
  lemma {:induction false} ReadyGroup(g: Config, s: System, group: set<Pid>, d: Data) returns (s': System)
    requires g.Valid() && g.Q() >= 2 && Reachable(g, s) && s.Keys == g.Correct() && group <= g.Correct()
    requires (d == FIRST || d == SECOND) && forall v :: v in s ==> ShowsBoth(s[v], v)
    requires forall p :: p in group ==> EchoedBoth(s[p], p)
    ensures Reachable(g, s') && s'.Keys == s.Keys && forall v :: v in s ==> ShowsBoth(s'[v], v)
    ensures forall p :: p in group ==> SentReady(g, s'[p], p, d) && Msg(Ready, d, p) in s'[p].sent
    ensures forall p :: p in s && p !in group ==> s'[p] == s[p]
    decreases |group|
  {
    if group == {} {
      s' := s;
    } else {
      var p: Pid :| p in group;
      var next := ReadyOne(g, s, p, d);
      s' := ReadyGroup(g, next, group - {p}, d);
    }
  }

  /** Two disjoint groups of correct nodes, each large enough, with the faulty nodes, to deliver. */
  lemma TwoCamps(g: Config) returns (left: set<Pid>, right: set<Pid>)
    requires g.Valid() && |g.parties| + |g.faulty| >= 4 * g.T() + 2
    ensures left <= g.Correct() && right <= g.Correct() && left !! right && left != {} && right != {}
    ensures |left| + |g.faulty| >= 2 * g.T() + 1 && |right| + |g.faulty| >= 2 * g.T() + 1
    ensures g.Q() >= 2
  {
    CorrectCount(g);
    ThresholdsHold(|g.parties|);
    var size := 2 * g.T() + 1 - |g.faulty|;
    left := Choose(g.Correct(), size);
    Minus(g.Correct(), left);
    right := Choose(g.Correct() - left, size);
  }

  /** With too many nodes for the faults tolerated, clients can make correct nodes disagree: some
      correct nodes are led to READY for one payload, as many others for another. */
  lemma Disagreement(g: Config) returns (s: System)
    requires g.Valid() && |g.parties| + |g.faulty| >= 4 * g.T() + 2
    ensures Reachable(g, s) && !Agree(s)
  {
    hide EchoedBoth, ShowsBoth, SentReady, Idle;
    var left, right := TwoCamps(g);
    var x: Pid :| x in left;
    var y: Pid :| y in right;
    var s0 := AllEcho(g);
    var s1 := ReadyGroup(g, s0, left, FIRST);
    var s2 := ReadyGroup(g, s1, right, SECOND);
    var s3 := DeliverOne(g, s2, x, FIRST, left);
    s := DeliverOne(g, s3, y, SECOND, right);
    assert FIRST[0] != SECOND[0];
    assert x in s && y in s && FIRST in s[x].log && SECOND in s[y].log;
  }

  /** Agreement holds in every run, whatever the clients send, exactly when n + f <= 4t + 1. */
  lemma AgreementForAnyClientExactly(g: Config)
    requires g.Valid()
    ensures (forall s :: Reachable(g, s) ==> Agree(s)) <==> |g.parties| + |g.faulty| <= 4 * g.T() + 1
  {
    if |g.parties| + |g.faulty| <= 4 * g.T() + 1 {
      forall s | Reachable(g, s)
        ensures Agree(s)
      {
        AgreementForAnyClient(g, s);
      }
    } else {
      var s := Disagreement(g);
    }
  }
}

/** Exactly when validity survives encoding broadcasts after their objects may have changed. */
module ValidityLimit {
  import opened Sets
  import opened Thresholds
  import opened SessionStep
  import opened Interleaving
  import opened ThreadInvariants
  import opened Network
  import opened Guarantees
  import opened Schedules
  import opened AgreementLimit

  /** The node took in a SEND of FIRST and of nothing else, and has delivered nothing. */
  ghost predicate Waiting(s: Node) {
    Idle(s) && TookSend(s, FIRST) && (forall e :: TookSend(s, e) ==> e == FIRST) && s.log == [] && !s.sess.delivered
  }

  /** A node whose ECHO was sent as such. */
  ghost predicate Echoed(s: Node, p: Pid) {
    && Waiting(s) && !s.sess.readySent && s.sent == {Msg(Echo, FIRST, p)}
    && Get(s.sess.echo, FIRST) == {p} && Get(s.sess.ready, FIRST) == {}
  }

  /** A node whose ECHO was replaced by READY before it was encoded. */
  ghost predicate Replaced(s: Node, p: Pid) {
    && Waiting(s) && s.sess.readySent && s.sent == {Msg(Ready, FIRST, p)}
    && Get(s.sess.ready, FIRST) == {p}
  }

  /** A node that has seen all that the two groups sent. */
  ghost predicate Stuck(s: Node, p: Pid, echoers: set<Pid>, readies: set<Pid>) {
    && Waiting(s) && s.sent == {if p in echoers then Msg(Echo, FIRST, p) else Msg(Ready, FIRST, p)}
    && Ballots(Echo, FIRST, echoers - {p}) + Ballots(Ready, FIRST, readies - {p}) <= s.handled
  }

  lemma EchoedOne(g: Config, s: System, p: Pid) returns (s': System)
    requires Reachable(g, s) && p in s && s[p] == FRESH && g.Q() >= 2
    ensures Reachable(g, s') && s'.Keys == s.Keys && s' == s[p := s'[p]] && Echoed(s'[p], p)
  {
    s' := EchoOne(g, s, p, FIRST);
    assert Msg(Send, FIRST, 0) in s'[p].handled;
  }

  lemma {:induction false} EchoedGroup(g: Config, s: System, group: set<Pid>) returns (s': System)
    requires Reachable(g, s) && group <= s.Keys && g.Q() >= 2
    requires forall p :: p in group ==> s[p] == FRESH
    ensures Reachable(g, s') && s'.Keys == s.Keys
    ensures forall p :: p in group ==> Echoed(s'[p], p)
    ensures forall p :: p in s && p !in group ==> s'[p] == s[p]
    decreases |group|
  {
    if group == {} {
      s' := s;
    } else {
      var p: Pid :| p in group;
      var next := EchoedOne(g, s, p);
      s' := EchoedGroup(g, next, group - {p});
    }
  }

  /** A SEND whose own echo completes a quorum: ECHO and READY are queued on one object, which reads READY. */
  lemma ReplaceEffect(c: Params, s: Sess)
    requires !s.readySent && !s.delivered && |Get(s.echo, FIRST) + {c.self}| >= c.q && c.t >= 1
    requires Get(s.ready, FIRST) == {}
    ensures var e := Handle(c, s, Msg(Send, FIRST, 0));
      && e.posts == [Echo, Ready] && e.last == Msg(Ready, FIRST, c.self) && e.delivered == []
      && e.sess.readySent && !e.sess.delivered && Get(e.sess.ready, FIRST) == {c.self}
  {
    assert Get(Insert(s.ready, FIRST, c.self), FIRST) == {c.self};
  }

  /** A node that has counted the votes and done nothing else. */
  ghost predicate Primed(s: Node, votes: set<Pid>) {
    && Idle(s) && s.log == [] && s.sent == {} && s.handled == Ballots(Echo, FIRST, votes)
    && !s.sess.readySent && !s.sess.delivered && Get(s.sess.echo, FIRST) == votes && Get(s.sess.ready, FIRST) == {}
  }

  lemma PrimedOne(g: Config, s: System, p: Pid, votes: set<Pid>) returns (s': System)
    requires Reachable(g, s) && p in s && s[p] == FRESH && |votes| < g.Q()
    requires forall v :: v in votes ==> Available(g, s, Msg(Echo, FIRST, v))
    ensures Reachable(g, s') && s'.Keys == s.Keys && s' == s[p := s'[p]] && Primed(s'[p], votes)
  {
    assert {} + votes == votes;
    s' := Feed(g, s, p, Echo, FIRST, votes);
    assert {} + Ballots(Echo, FIRST, votes) == Ballots(Echo, FIRST, votes);
  }

  lemma ReplacedLast(g: Config, s: System, p: Pid, votes: set<Pid>) returns (s': System)
    requires g.mode == Deferred && g.T() >= 1 && Reachable(g, s) && p in s && Primed(s[p], votes)
    requires |votes| == g.Q() - 1 && p !in votes
    ensures Reachable(g, s') && s'.Keys == s.Keys && s' == s[p := s'[p]] && Replaced(s'[p], p)
  {
    assert |votes + {p}| == g.Q();
    ReplaceEffect(g.At(p), s[p].sess);
    s' := HandleNow(g, s, p, Msg(Send, FIRST, 0));
    assert Msg(Send, FIRST, 0) in s'[p].handled;
  }

  lemma ReplacedOne(g: Config, s: System, p: Pid, votes: set<Pid>) returns (s': System)
    requires g.mode == Deferred && g.T() >= 1 && Reachable(g, s) && p in s && s[p] == FRESH
    requires |votes| == g.Q() - 1 && p !in votes
    requires forall v :: v in votes ==> Available(g, s, Msg(Echo, FIRST, v))
    ensures Reachable(g, s') && s'.Keys == s.Keys && s' == s[p := s'[p]] && Replaced(s'[p], p)
  {
    var s1 := PrimedOne(g, s, p, votes);
    s' := ReplacedLast(g, s1, p, votes);
  }

  lemma {:induction false} ReplacedGroup(g: Config, s: System, group: set<Pid>, votes: set<Pid>) returns (s': System)
    requires g.mode == Deferred && g.T() >= 1 && Reachable(g, s) && group <= s.Keys
    requires |votes| == g.Q() - 1 && group !! votes
    requires forall v :: v in votes ==> Available(g, s, Msg(Echo, FIRST, v))
    requires forall p :: p in group ==> s[p] == FRESH
    ensures Reachable(g, s') && s'.Keys == s.Keys
    ensures forall p :: p in group ==> Replaced(s'[p], p)
    ensures forall p :: p in s && p !in group ==> s'[p] == s[p]
    decreases |group|
  {
    if group == {} {
      s' := s;
    } else {
      var p: Pid :| p in group;
      var next := ReplacedOne(g, s, p, votes);
      forall v | v in votes
        ensures Available(g, next, Msg(Echo, FIRST, v))
      {
      }
      s' := ReplacedGroup(g, next, group - {p}, votes);
    }
  }

  /** Votes do not add SENDs. */
  lemma WaitingOn(s: System, x: Pid, kind: Kind, voters: set<Pid>, s': System)
    requires x in s && Waiting(s[x]) && kind != Send && Fed(s, x, kind, FIRST, voters, s')
    ensures Waiting(s'[x])
  {
    var p :| Msg(Send, FIRST, p) in s[x].handled;
    assert Msg(Send, FIRST, p) in s'[x].handled;
    forall e | TookSend(s'[x], e)
      ensures TookSend(s[x], e)
    {
    }
  }

  /** Echoes too few for a quorum, or too late, change nothing that shows. */
  lemma StuckEchoes(g: Config, s: System, x: Pid, echoers: set<Pid>) returns (s': System)
    requires Reachable(g, s) && x in s && Waiting(s[x]) && |echoers| < g.Q()
    requires s[x].sess.readySent || (x in echoers && Get(s[x].sess.echo, FIRST) == {x})
    requires forall v :: v in echoers ==> Available(g, s, Msg(Echo, FIRST, v))
    ensures Reachable(g, s') && Fed(s, x, Echo, FIRST, echoers - {x}, s') && Waiting(s'[x])
  {
    assert x in echoers ==> {x} + (echoers - {x}) == echoers;
    s' := Feed(g, s, x, Echo, FIRST, echoers - {x});
    WaitingOn(s, x, Echo, echoers - {x}, s');
  }

  /** So do t READYs. */
  lemma StuckReadies(g: Config, s: System, x: Pid, readies: set<Pid>) returns (s': System)
    requires Reachable(g, s) && x in s && Waiting(s[x]) && |readies| <= g.T()
    requires Get(s[x].sess.ready, FIRST) == if x in readies then {x} else {}
    requires forall v :: v in readies ==> Available(g, s, Msg(Ready, FIRST, v))
    ensures Reachable(g, s') && Fed(s, x, Ready, FIRST, readies - {x}, s') && Waiting(s'[x])
  {
    assert Get(s[x].sess.ready, FIRST) + (readies - {x}) == readies;
    s' := Feed(g, s, x, Ready, FIRST, readies - {x});
    WaitingOn(s, x, Ready, readies - {x}, s');
  }

  lemma StuckBy(s: System, x: Pid, echoers: set<Pid>, readies: set<Pid>, s1: System, s': System)
    requires x in s && (if x in echoers then Echoed(s[x], x) else Replaced(s[x], x))
    requires Fed(s, x, Echo, FIRST, echoers - {x}, s1) && Fed(s1, x, Ready, FIRST, readies - {x}, s') && Waiting(s'[x])
    ensures s'.Keys == s.Keys && s' == s[x := s'[x]] && s'[x].sent == s[x].sent
    ensures Stuck(s'[x], x, echoers, readies)
  {
  }

  lemma StuckOne(g: Config, s: System, x: Pid, echoers: set<Pid>, readies: set<Pid>) returns (s': System)
    requires Reachable(g, s) && x in s && echoers + readies == s.Keys && echoers !! readies
    requires |echoers| < g.Q() && |readies| <= g.T()
    requires if x in echoers then Echoed(s[x], x) else Replaced(s[x], x)
    requires forall v :: v in echoers ==> Msg(Echo, FIRST, v) in s[v].sent
    requires forall v :: v in readies ==> Msg(Ready, FIRST, v) in s[v].sent
    ensures Reachable(g, s') && s'.Keys == s.Keys && s' == s[x := s'[x]] && s'[x].sent == s[x].sent
    ensures Stuck(s'[x], x, echoers, readies)
  {
    var s1 := StuckEchoes(g, s, x, echoers);
    assert Get(s1[x].sess.ready, FIRST) == if x in readies then {x} else {};
    forall v | v in readies
      ensures Available(g, s1, Msg(Ready, FIRST, v))
    {
      AvailableOn(g, s, x, s1, Msg(Ready, FIRST, v));
    }
    s' := StuckReadies(g, s1, x, readies);
    StuckBy(s, x, echoers, readies, s1, s');
  }

  lemma {:induction false} StuckGroup(g: Config, s: System, group: set<Pid>, echoers: set<Pid>, readies: set<Pid>)
    returns (s': System)
    requires Reachable(g, s) && group <= s.Keys && echoers + readies == s.Keys && echoers !! readies
    requires |echoers| < g.Q() && |readies| <= g.T()
    requires forall x :: x in group ==> if x in echoers then Echoed(s[x], x) else Replaced(s[x], x)
    requires forall v :: v in echoers ==> Msg(Echo, FIRST, v) in s[v].sent
    requires forall v :: v in readies ==> Msg(Ready, FIRST, v) in s[v].sent
    ensures Reachable(g, s') && s'.Keys == s.Keys
    ensures forall x :: x in group ==> Stuck(s'[x], x, echoers, readies)
    ensures forall x :: x in s && x !in group ==> s'[x] == s[x]
    decreases |group|
  {
    if group == {} {
      s' := s;
    } else {
      var x: Pid :| x in group;
      var next := StuckOne(g, s, x, echoers, readies);
      s' := StuckGroup(g, next, group - {x}, echoers, readies);
    }
  }

  lemma StuckQuiescent(g: Config, s: System, echoers: set<Pid>, readies: set<Pid>)
    requires echoers + readies == s.Keys && forall x :: x in s ==> Stuck(s[x], x, echoers, readies)
    ensures Quiescent(g, s) && AllTook(s, FIRST)
  {
    forall x, p, m | x in s && p in s && x != p && m in s[p].sent
      ensures m in s[x].handled
    {
      assert m in Ballots(Echo, FIRST, echoers - {x}) + Ballots(Ready, FIRST, readies - {x});
    }
  }

  /** A run in which every correct node is handed a SEND of one payload, everything sent arrives, and
      nobody delivers: t nodes echo last, and their ECHOs leave as READY. */
  lemma Starvation(g: Config) returns (s: System)
    requires g.Valid() && g.mode == Deferred && |g.Correct()| < g.Q() + g.T()
    ensures Reachable(g, s) && Quiescent(g, s) && AllTook(s, FIRST) && !AllDelivered(s, FIRST)
  {
    hide Quiescent, AllTook, Idle, TookSend, Get;
    CorrectCount(g);
    ThresholdsHold(|g.parties|);
    var readies := Choose(g.Correct(), g.T());
    var echoers := g.Correct() - readies;
    var votes := Choose(g.parties - readies, g.Q() - 1);
    StartReachable(g);
    var s1 := EchoedGroup(g, Start(g), echoers);
    forall v | v in votes
      ensures Available(g, s1, Msg(Echo, FIRST, v))
    {
      assert v !in g.faulty ==> v in echoers && Echoed(s1[v], v);
    }
    var s2 := ReplacedGroup(g, s1, readies, votes);
    forall x | x in s2
      ensures if x in echoers then Echoed(s2[x], x) else Replaced(s2[x], x)
    {
      assert x in readies || s2[x] == s1[x];
    }
    s := StuckGroup(g, s2, g.Correct(), echoers, readies);
    StuckQuiescent(g, s, echoers, readies);
    var x: Pid :| x in echoers;
    assert Stuck(s[x], x, echoers, readies);
  }

  /** With deferred encoding, validity holds in every run exactly when n - f >= q + t. */
  lemma ValidityDeferredExactly(g: Config)
    requires g.Valid() && g.mode == Deferred
    ensures (forall s, d :: Reachable(g, s) && Quiescent(g, s) && AllTook(s, d) ==> AllDelivered(s, d))
      <==> |g.Correct()| >= g.Q() + g.T()
  {
    if |g.Correct()| >= g.Q() + g.T() {
      forall s, d | Reachable(g, s) && Quiescent(g, s) && AllTook(s, d)
        ensures AllDelivered(s, d)
      {
        Validity(g, s, d);
      }
    } else {
      var s := Starvation(g);
    }
  }
}

/** Exactly when totality holds whatever the clients do. */
module TotalityLimit {
  import opened Sets
  import opened Thresholds
  import opened SessionStep
  import opened Interleaving
  import opened ThreadInvariants
  import opened Network
  import opened Guarantees
  import opened Progress
  import opened AgreementLimit

  /** Without faulty nodes, and few enough nodes to agree, a delivery spreads. */
  lemma TotalityWithoutFaults(g: Config, s: System, x: Pid, d: Data)
    requires g.Valid() && Reachable(g, s) && Quiescent(g, s) && x in s && d in s[x].log
    requires g.faulty == {} && |g.parties| <= 4 * g.T() + 1
    ensures AllDelivered(s, d)
  {
    hide Reachable, Quiescent, Consistent, Get;
    AlwaysConsistent(g, s);
    AgreementForAnyClient(g, s);
    var p := DeliveredVotes(g, s, x, d);
    var senders := ReadyBackers(g, s, x, d);
    forall y | y in s
      ensures s[y].log == [d]
    {
      DeliveryFollows(g, s, senders, d, y);
      assert s[y].log[0] in s[y].log;
    }
  }

  lemma DeliveryFollows(g: Config, s: System, senders: set<Pid>, d: Data, y: Pid)
    requires g.Valid() && Consistent(g, s) && Quiescent(g, s) && y in s
    requires senders <= g.Correct() && |senders| > 2 * g.T()
    requires forall p :: p in senders ==> s[p].ready.Won? && s[p].ready.data == d
    ensures |s[y].log| == 1
  {
    ReadySetSpreads(g, s, senders, d, y);
    assert Inv(g.At(y), g.mode, s[y]);
    IdleOnce(g.At(y), g.mode, s[y]);
  }

  /** The correct nodes split: too few READYs for FIRST to deliver it without the faulty ones. */
  lemma Split(g: Config) returns (left: set<Pid>, right: set<Pid>)
    requires g.Valid() && g.faulty != {}
    ensures left + right == g.Correct() && left !! right && left != {} && right != {}
    ensures |left| + |g.faulty| == 2 * g.T() + 1 && g.Q() >= 2 && g.T() >= 1
  {
    CorrectCount(g);
    ThresholdsHold(|g.parties|);
    assert |g.faulty| >= 1;
    left := Choose(g.Correct(), 2 * g.T() + 1 - |g.faulty|);
    Minus(g.Correct(), left);
    right := g.Correct() - left;
  }

  /** A node that took in no READY of a faulty node has too few votes to deliver FIRST. */
  lemma TooFew(g: Config, s: System, s': System, y: Pid, left: set<Pid>, right: set<Pid>)
    requires g.Valid() && Reachable(g, s') && AllLater(s, s') && s.Keys == g.Correct() && y in right
    requires left + right == g.Correct() && |left| <= 2 * g.T() && Unvoted(s[y])
    requires forall p :: p in right ==> Msg(Ready, SECOND, p) in s[p].sent
    ensures FIRST !in s'[y].log
  {
    hide Reachable, AllLater;
    AlwaysConsistent(g, s');
    LaterAt(s, s', y);
    assert FIRST[0] != SECOND[0];
    forall p | p in Get(s'[y].sess.ready, FIRST)
      ensures p in left
    {
      ReadyOrigin(g, s', y, FIRST, p);
      NotFaulty(g, s[y], s'[y], y, p);
      if p in right {
        LaterAt(s, s', p);
        BuffersAreOwn(g.At(p), g.mode, s'[p], Msg(Ready, SECOND, p));
      }
    }
    SubsetCard(Get(s'[y].sess.ready, FIRST), left);
    if FIRST in s'[y].log {
      var p := DeliveredVotes(g, s', y, FIRST);
    }
  }

  lemma LaterAt(s: System, s': System, y: Pid)
    requires AllLater(s, s') && y in s
    ensures y in s' && Later(s.Keys, s[y], s'[y])
  {
  }

  lemma NotFaulty(g: Config, r: Node, s: Node, y: Pid, p: Pid)
    requires Later(g.Correct(), r, s) && Unvoted(r) && y in g.Correct()
    requires Inv(g.At(y), g.mode, s) && p in Get(s.sess.ready, FIRST)
    ensures p in g.Correct()
  {
    assert Msg(Ready, FIRST, p) in s.handled || Own(g.At(y), s, Msg(Ready, FIRST, p));
  }

  /** All correct nodes echo two payloads; left goes for one of them, right for the other, and the faulty
      nodes complete the delivery of x alone. */
  lemma Camps(g: Config, left: set<Pid>, right: set<Pid>, x: Pid, y: Pid) returns (s: System)
    requires g.Valid() && left + right == g.Correct() && left !! right && x in left && y in right
    requires |left| + |g.faulty| == 2 * g.T() + 1 && g.Q() >= 2
    ensures Reachable(g, s) && s.Keys == g.Correct() && FIRST in s[x].log && Unvoted(s[y])
    ensures forall p :: p in right ==> Msg(Ready, SECOND, p) in s[p].sent
  {
    hide EchoedBoth, ShowsBoth, SentReady, Unvoted, Idle, Reachable;
    var s0 := AllEcho(g);
    var s1 := ReadyGroup(g, s0, left, FIRST);
    var s2 := ReadyGroup(g, s1, right, SECOND);
    SentUnvoted(g, s2, y, SECOND);
    s := DeliverOne(g, s2, x, FIRST, left);
  }

  /** With one faulty node or more, clients and that node can make one correct node deliver what the
      others never will, though everything sent between correct nodes arrives. */
  lemma Stranded(g: Config) returns (s: System, x: Pid)
    requires g.Valid() && g.faulty != {}
    ensures Reachable(g, s) && Quiescent(g, s) && x in s && FIRST in s[x].log && !AllDelivered(s, FIRST)
  {
    hide Unvoted, Reachable, Quiescent, AllLater;
    var left, right := Split(g);
    x :| x in left;
    var y: Pid :| y in right;
    var r := Camps(g, left, right, x, y);
    s := Settles(g, r);
    TooFew(g, r, s, y, left, right);
    LaterAt(r, s, x);
    LaterAt(r, s, y);
  }

  lemma SentUnvoted(g: Config, s: System, y: Pid, d: Data)
    requires y in s && SentReady(g, s[y], y, d)
    ensures Unvoted(s[y])
  {
  }

  /** Totality holds in every run, whatever the clients send, exactly when no node is faulty and n <= 4t + 1. */
  lemma TotalityForAnyClientExactly(g: Config)
    requires g.Valid()
    ensures
      (forall s: System, x, d ::
        Reachable(g, s) && Quiescent(g, s) && x in s && d in s[x].log ==> AllDelivered(s, d))
      <==> g.faulty == {} && |g.parties| <= 4 * g.T() + 1
  {
    hide Reachable, Quiescent, AllDelivered;
    if g.faulty != {} {
      var s, x := Stranded(g);
      assert FIRST in s[x].log;
    } else if |g.parties| > 4 * g.T() + 1 {
      var s, x, d := Torn(g);
      assert d in s[x].log;
    } else {
      forall s: System, x, d | Reachable(g, s) && Quiescent(g, s) && x in s && d in s[x].log
        ensures AllDelivered(s, d)
      {
        TotalityWithoutFaults(g, s, x, d);
      }
    }
  }

  /** A disagreement, once everything has arrived. */
  lemma Torn(g: Config) returns (s: System, x: Pid, d: Data)
    requires g.Valid() && |g.parties| + |g.faulty| >= 4 * g.T() + 2
    ensures Reachable(g, s) && Quiescent(g, s) && x in s && d in s[x].log && !AllDelivered(s, d)
  {
    hide Reachable, Quiescent;
    var r := Disagreement(g);
    s := Settles(g, r);
    var a, b, e, f :| a in r && b in r && e in r[a].log && f in r[b].log && e != f;
    LaterAt(r, s, a);
    LaterAt(r, s, b);
    x, d := a, e;
    assert f in s[b].log;
  }
}
