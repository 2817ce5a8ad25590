/** Building runs of the network in which a node handles one message at a time: such runs are runs of
    the interleaved system, so what they reach is reachable. */
module Schedules {
  import opened Sets
  import opened SessionStep
  import opened Interleaving
  import opened ThreadInvariants
  import opened Iteration
  import opened Solo
  import opened Network

  lemma StartReachable(g: Config)
    ensures Reachable(g, Start(g))
  {
    assert IsRun(g, [Start(g)]);
  }

  lemma Extend(g: Config, s: System, x: Pid, a: Action)
    requires Reachable(g, s) && CanAct(g, s, x, a)
    ensures Reachable(g, Act(g, s, x, a))
  {
    var run :| IsRun(g, run) && run[|run| - 1] == s;
    var longer := run + [Act(g, s, x, a)];
    forall i | 0 <= i < |longer| - 1
      ensures Next(g, longer[i], longer[i + 1])
    {
      if i < |run| - 1 {
        assert Next(g, run[i], run[i + 1]);
      }
    }
    assert IsRun(g, longer);
  }

  /** The node s has got where the lone thread tid, started in node r with nothing queued, has got. */
  ghost predicate Follows(mode: Mode, r: Node, s: Node, tid: Tid, a: Alone) {
    && s.sess == a.sess && s.threads == r.threads[tid := a.th]
    && |s.outbox| == (if mode == Deferred then |a.queued| else 0)
    && (forall i :: 0 <= i < |s.outbox| ==> s.outbox[i] == tid)
    && s.sent == (if mode == Copied then r.sent + (set m | m in a.queued) else r.sent)
    && s.handled == r.handled && s.log == r.log + a.delivered
  }

  lemma FollowsStep(c: Params, mode: Mode, r: Node, s: Node, tid: Tid, a: Alone)
    requires Follows(mode, r, s, tid, a)
    ensures Follows(mode, r, RunThread(c, mode, s, tid), tid, AloneStep(c, a))
  {
    var s', a' := RunThread(c, mode, s, tid), AloneStep(c, a);
    var st := ThreadStep(c, a.sess, a.th);
    assert s'.threads == r.threads[tid := a'.th];
    if st.act.Queue? {
      assert (set m | m in a'.queued) == (set m | m in a.queued) + {a.th.obj};
    } else {
      assert a'.queued == a.queued;
    }
    assert s'.log == r.log + a'.delivered;
  }

  lemma {:induction false} FollowsRun(g: Config, s: System, x: Pid, r: Node, tid: Tid, a: Alone, k: nat)
    returns (s': System)
    requires Reachable(g, s) && x in s && Follows(g.mode, r, s[x], tid, a)
    ensures Reachable(g, s') && s'.Keys == s.Keys && s' == s[x := s'[x]]
    ensures Follows(g.mode, r, s'[x], tid, Iterate(Stepper(g.At(x)), a, k))
    decreases k
  {
    if k == 0 {
      s' := s;
    } else {
      var next := Act(g, s, x, Run(tid));
      Extend(g, s, x, Run(tid));
      FollowsStep(g.At(x), g.mode, r, s[x], tid, a);
      s' := FollowsRun(g, next, x, r, tid, AloneStep(g.At(x), a), k - 1);
    }
  }

  /** Encoding everything a finished thread queued sends its object, as the thread left it. */
  lemma {:induction false} Flush(g: Config, s: System, x: Pid, tid: Tid) returns (s': System)
    requires Reachable(g, s) && x in s && tid in s[x].threads
    requires forall i :: 0 <= i < |s[x].outbox| ==> s[x].outbox[i] == tid
    ensures Reachable(g, s') && s'.Keys == s.Keys
    ensures s' == s[x := s[x].(outbox := [],
      sent := if s[x].outbox == [] then s[x].sent else s[x].sent + {s[x].threads[tid].obj})]
    decreases |s[x].outbox|
  {
    if s[x].outbox == [] {
      s' := s;
      assert s == s[x := s[x].(outbox := [], sent := s[x].sent)];
    } else {
      var next := Act(g, s, x, Encode(0));
      Extend(g, s, x, Encode(0));
      assert next[x].outbox == s[x].outbox[1..];
      s' := Flush(g, next, x, tid);
      assert next[x].sent + {s[x].threads[tid].obj} == next[x].sent;
    }
  }

  lemma FreshTid(threads: map<Tid, Thread>) returns (tid: Tid)
    ensures tid !in threads
  {
    tid := 0;
    var rest := threads.Keys;
    while rest != {}
      invariant forall t :: t in threads && t !in rest ==> t < tid
      decreases |rest|
    {
      var t: Tid :| t in rest;
      tid, rest := if t < tid then tid else t + 1, rest - {t};
    }
  }

  /** What a handler call run on its own, and then encoded, puts on the network. */
  function Sends(c: Params, mode: Mode, e: Effect, d: Data): set<Msg> {
    if mode == Copied then set m | m in QueuedBy(c, e.posts, d)
    else if e.posts == [] then {} else {e.last}
  }

  /** A node at rest takes in m, handles it alone and encodes what it queued. */
  ghost predicate Handled(g: Config, s: System, x: Pid, m: Msg, s': System)
    requires x in s
  {
    var e := Handle(g.At(x), s[x].sess, m);
    && s'.Keys == s.Keys && s' == s[x := s'[x]] && Idle(s'[x])
    && s'[x].sess == e.sess && s'[x].handled == s[x].handled + {m} && s'[x].log == s[x].log + e.delivered
    && s'[x].sent == s[x].sent + Sends(g.At(x), g.mode, e, m.data)
  }

  lemma HandleNow(g: Config, s: System, x: Pid, m: Msg) returns (s': System)
    requires Reachable(g, s) && x in s && Idle(s[x]) && Available(g, s, m)
    ensures Reachable(g, s') && Handled(g, s, x, m, s')
  {
    hide Handle, Inv;
    var c, e := g.At(x), Handle(g.At(x), s[x].sess, m);
    var tid := FreshTid(s[x].threads);
    var s1 := Act(g, s, x, Receive(tid, m));
    Extend(g, s, x, Receive(tid, m));
    var r := s1[x];
    var a := Alone(r.sess, Thread(m, Dispatch, []), [], []);
    RunsAsHandle(c, r.sess, m);
    var b := Alone(e.sess, Thread(e.last, Done, []), QueuedBy(c, e.posts, m.data), e.delivered);
    var k: nat :| Iterate(Stepper(c), a, k) == b;
    assert Follows(g.mode, r, r, tid, a);
    var s2 := FollowsRun(g, s1, x, r, tid, a, k);
    s' := Flush(g, s2, x, tid);
    assert s' == s[x := s'[x]];
  }

  function Ballots(kind: Kind, d: Data, voters: set<Pid>): set<Msg> {
    set p | p in voters :: Msg(kind, d, p)
  }

  /** The votes for d have been added, if they count at all, and no others. */
  ghost predicate Added(votes: Votes, counts: bool, d: Data, voters: set<Pid>, votes': Votes) {
    && Get(votes', d) == (if counts then Get(votes, d) + voters else Get(votes, d))
    && forall e :: e != d ==> Get(votes', e) == Get(votes, e)
  }

  /** The session after votes that raised no flag; votes under a set flag are not counted. */
  ghost predicate Tallied(s: Sess, kind: Kind, d: Data, voters: set<Pid>, s': Sess) {
    && s'.readySent == s.readySent && s'.delivered == s.delivered
    && Added(s.echo, kind == Echo && !s.readySent, d, voters, s'.echo)
    && Added(s.ready, kind == Ready && !s.delivered, d, voters, s'.ready)
  }

  /** The votes leave all counts below the thresholds that would raise a flag. */
  ghost predicate Quietly(c: Params, s: Sess, kind: Kind, d: Data, voters: set<Pid>) {
    match kind
    case Send => false
    case Echo => s.readySent || |Get(s.echo, d) + voters| < c.q
    case Ready =>
      s.delivered || (|Get(s.ready, d) + voters| <= 2 * c.t && (s.readySent || |Get(s.ready, d) + voters| <= c.t))
  }

  lemma QuietVote(c: Params, s: Sess, kind: Kind, d: Data, p: Pid)
    requires Quietly(c, s, kind, d, {p})
    ensures var e := Handle(c, s, Msg(kind, d, p));
      e.posts == [] && e.delivered == [] && Tallied(s, kind, d, {p}, e.sess)
  {
  }

  /** Only node x has moved, and it has only taken in votes. */
  ghost predicate Fed(s: System, x: Pid, kind: Kind, d: Data, voters: set<Pid>, s': System)
    requires x in s
  {
    && s'.Keys == s.Keys && s' == s[x := s'[x]] && Idle(s'[x])
    && Tallied(s[x].sess, kind, d, voters, s'[x].sess)
    && s'[x].sent == s[x].sent && s'[x].log == s[x].log
    && s'[x].handled == s[x].handled + Ballots(kind, d, voters)
  }

  lemma FeedOne(g: Config, s: System, x: Pid, kind: Kind, d: Data, p: Pid) returns (s': System)
    requires Reachable(g, s) && x in s && Idle(s[x]) && Available(g, s, Msg(kind, d, p))
    requires Quietly(g.At(x), s[x].sess, kind, d, {p})
    ensures Reachable(g, s') && Fed(s, x, kind, d, {p}, s')
  {
    QuietVote(g.At(x), s[x].sess, kind, d, p);
    s' := HandleNow(g, s, x, Msg(kind, d, p));
    assert Ballots(kind, d, {p}) == {Msg(kind, d, p)};
  }

  lemma QuietOn(c: Params, s: Sess, kind: Kind, d: Data, voters: set<Pid>, p: Pid, next: Sess)
    requires Quietly(c, s, kind, d, voters) && p in voters && Tallied(s, kind, d, {p}, next)
    ensures Quietly(c, next, kind, d, voters - {p})
  {
    Regroup(Get(s.echo, d), voters, p);
    Regroup(Get(s.ready, d), voters, p);
  }

  lemma TalliedOn(s: Sess, kind: Kind, d: Data, p: Pid, next: Sess, voters: set<Pid>, s': Sess)
    requires Tallied(s, kind, d, {p}, next) && Tallied(next, kind, d, voters - {p}, s') && p in voters
    ensures Tallied(s, kind, d, voters, s')
  {
    assert voters == {p} + (voters - {p});
  }

  lemma FedOn(s: System, x: Pid, kind: Kind, d: Data, voters: set<Pid>, p: Pid, next: System, s': System)
    requires x in s && p in voters
    requires Fed(s, x, kind, d, {p}, next) && Fed(next, x, kind, d, voters - {p}, s')
    ensures Fed(s, x, kind, d, voters, s')
  {
    TalliedOn(s[x].sess, kind, d, p, next[x].sess, voters, s'[x].sess);
    assert Ballots(kind, d, voters) == Ballots(kind, d, {p}) + Ballots(kind, d, voters - {p});
  }

  lemma AvailableOn(g: Config, s: System, x: Pid, s': System, m: Msg)
    requires x in s && s'.Keys == s.Keys && s' == s[x := s'[x]] && s[x].sent <= s'[x].sent && Available(g, s, m)
    ensures Available(g, s', m)
  {
  }

  /** A node may be handed available votes one by one. */
  lemma {:induction false} Feed(g: Config, s: System, x: Pid, kind: Kind, d: Data, voters: set<Pid>)
    returns (s': System)
    requires Reachable(g, s) && x in s && Idle(s[x])
    requires Quietly(g.At(x), s[x].sess, kind, d, voters)
    requires forall p :: p in voters ==> Available(g, s, Msg(kind, d, p))
    ensures Reachable(g, s') && Fed(s, x, kind, d, voters, s')
    decreases |voters|
  {
    if voters == {} {
      s' := s;
      assert s == s[x := s[x]];
    } else {
      var p :| p in voters;
      QuietFirst(g.At(x), s[x].sess, kind, d, voters, p);
      var next := FeedOne(g, s, x, kind, d, p);
      QuietOn(g.At(x), s[x].sess, kind, d, voters, p, next[x].sess);
      forall v | v in voters - {p}
        ensures Available(g, next, Msg(kind, d, v))
      {
        AvailableOn(g, s, x, next, Msg(kind, d, v));
      }
      s' := Feed(g, next, x, kind, d, voters - {p});
      FedOn(s, x, kind, d, voters, p, next, s');
    }
  }

  lemma QuietFirst(c: Params, s: Sess, kind: Kind, d: Data, voters: set<Pid>, p: Pid)
    requires Quietly(c, s, kind, d, voters) && p in voters
    ensures Quietly(c, s, kind, d, {p})
  {
    SubsetCard(Get(s.echo, d) + {p}, Get(s.echo, d) + voters);
    SubsetCard(Get(s.ready, d) + {p}, Get(s.ready, d) + voters);
  }
}
