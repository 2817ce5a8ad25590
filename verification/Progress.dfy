/** Handlers end under every interleaving, and the network comes to rest under every schedule: what is
    proved of quiescent states is proved of states that no run can avoid. */
module Progress {
  import opened Sets
  import opened SessionStep
  import opened Interleaving
  import opened ThreadInvariants
  import opened Network
  import opened Schedules
  import opened Guarantees

  /** The sum of f over the values of a map. */
  ghost function Sum<K, V>(f: V -> nat, m: map<K, V>): nat
    decreases |m|
  {
    if m == map[] then 0
    else
      var k: K :| k in m;
      f(m[k]) + Sum(f, m - {k})
  }

  lemma {:induction false} SumWithout<K, V>(f: V -> nat, m: map<K, V>, k: K)
    requires k in m
    ensures Sum(f, m) == f(m[k]) + Sum(f, m - {k})
    decreases |m|
  {
    var j: K :| j in m && Sum(f, m) == f(m[j]) + Sum(f, m - {j});
    if j != k {
      SumWithout(f, m - {j}, k);
      SumWithout(f, m - {k}, j);
      assert m - {j} - {k} == m - {k} - {j};
    }
  }

  /** One value more, or one replaced. */
  lemma SumWith<K, V>(f: V -> nat, m: map<K, V>, k: K, v: V)
    ensures Sum(f, m[k := v]) + (if k in m then f(m[k]) else 0) == Sum(f, m) + f(v)
  {
    hide Sum;
    SumWithout(f, m[k := v], k);
    if k in m {
      SumWithout(f, m, k);
      assert m[k := v] - {k} == m - {k};
    } else {
      assert m[k := v] - {k} == m;
    }
  }

  /** Steps ahead of a thread, besides those that follow from winning the READY flag. */
  function Ahead(th: Thread): nat {
    3 * |th.outer| +
    match th.pc
    case Dispatch => (match th.obj.kind case Send => 13 case Echo => 10 case Ready => 8)
    case Stamp(kind) => if kind == Echo then 12 else 10
    case Post(kind) => if kind == Echo then 11 else 9
    case EchoRead => 9
    case EchoInsert => 8
    case EchoTest(_) => 7
    case EchoCas => 6
    case ReadyRead => 7
    case ReadyInsert => 6
    case ReadyTest(_) => 5
    case ReadyCas(_) => 4
    case DeliverTest(_) => 3
    case DeliverCas => 2
    case Deliver => 1
    case Done => 0
  }

  function Reserve(s: Sess): nat {
    if s.readySent then 0 else 10
  }

  lemma StepAhead(c: Params, s: Sess, th: Thread)
    requires ShapeOk(c, th) && th.pc != Done
    ensures var st := ThreadStep(c, s, th); Ahead(st.th) + Reserve(st.sess) < Ahead(th) + Reserve(s)
  {
    hide Insert, Get;
  }

  /** Work left in a node, if no more messages come in. */
  ghost function Work(s: Node): nat {
    Sum(Ahead, s.threads) + Reserve(s.sess)
  }

  /** Every step of an unfinished handler uses up work, whatever the others do in between. */
  lemma StepWorks(c: Params, mode: Mode, s: Node, tid: Tid)
    requires Inv(c, mode, s) && tid in s.threads && s.threads[tid].pc != Done
    ensures Work(RunThread(c, mode, s, tid)) < Work(s)
  {
    assert ThreadsOk(c, s);
    hide ThreadStep, Ahead, Reserve, RunThread, Inv, ObjectOk, CountOk, WinnerOk, ShapeOk;
    assert ThreadOk(c, s, tid);
    RunShape(c, mode, s, tid);
    StepAhead(c, s.sess, s.threads[tid]);
    SumWith(Ahead, s.threads, tid, ThreadStep(c, s.sess, s.threads[tid]).th);
  }

  /** An action that is no idle step of a finished handler. */
  predicate Busy(s: Node, a: Action) {
    Enabled(s, a) && (a.Run? ==> s.threads[a.tid].pc != Done)
  }

  /** A handler step uses up work, an encoding none; a message taken in brings at most 13 steps of it. */
  lemma ActWorks(c: Params, mode: Mode, s: Node, a: Action)
    requires Inv(c, mode, s) && Busy(s, a)
    ensures var w := Work(Apply(c, mode, s, a));
      match a case Run(_) => w < Work(s) case Encode(_) => w == Work(s) case Receive(_, _) => w <= Work(s) + 13
  {
    hide Inv, RunThread;
    match a
    case Run(tid) => StepWorks(c, mode, s, tid);
    case Encode(_) =>
    case Receive(tid, m) => SumWith(Ahead, s.threads, tid, Thread(m, Dispatch, []));
  }

  /** A stretch of a node's actions, handler steps, encodings and intakes in any order. */
  ghost predicate IsStretch(c: Params, mode: Mode, run: seq<Node>, acts: seq<Action>) {
    && |run| == |acts| + 1
    && forall i :: 0 <= i < |acts| ==> Busy(run[i], acts[i]) && run[i + 1] == Apply(c, mode, run[i], acts[i])
  }

  function Steps(acts: seq<Action>): nat {
    if acts == [] then 0 else Steps(acts[..|acts| - 1]) + if acts[|acts| - 1].Run? then 1 else 0
  }

  function Intakes(acts: seq<Action>): nat {
    if acts == [] then 0 else Intakes(acts[..|acts| - 1]) + if acts[|acts| - 1].Receive? then 1 else 0
  }

  /** However handler steps, encodings and intakes interleave, the handlers of a node take no more steps
      than there was work at the start, and 13 for each message taken in. */
  lemma {:induction false} HandlersEnd(c: Params, mode: Mode, run: seq<Node>, acts: seq<Action>)
    requires IsStretch(c, mode, run, acts) && Inv(c, mode, run[0])
    ensures Inv(c, mode, run[|acts|])
    ensures Steps(acts) + Work(run[|acts|]) <= Work(run[0]) + 13 * Intakes(acts)
  {
    hide Inv, Work, Apply, Enabled;
    if acts != [] {
      var k := |acts| - 1;
      HandlersEnd(c, mode, run[..k + 1], acts[..k]);
      ActWorks(c, mode, run[k], acts[k]);
      InvKept(c, mode, run[k], acts[k]);
    }
  }

  /** A later state of one node: it has forgotten nothing, and took in nothing new but votes of correct nodes. */
  ghost predicate Later(correct: set<Pid>, s: Node, s': Node) {
    && s.log <= s'.log && s.sent <= s'.sent && s.handled <= s'.handled
    && forall m :: m in s'.handled && m !in s.handled ==> m.kind != Send && m.node in correct
  }

  ghost predicate AllLater(s: System, s': System) {
    s'.Keys == s.Keys && forall x :: x in s ==> Later(s.Keys, s[x], s'[x])
  }

  lemma LaterOn(correct: set<Pid>, r: Node, s: Node, s': Node)
    requires Later(correct, r, s) && Later(correct, s, s')
    ensures Later(correct, r, s')
  {
  }

  lemma RunLater(c: Params, mode: Mode, s: Node, tid: Tid, correct: set<Pid>)
    requires Inv(c, mode, s) && tid in s.threads
    ensures Later(correct, s, RunThread(c, mode, s, tid))
  {
    RunGrows(c, mode, s, tid);
    StepFlags(c, s.sess, s.threads[tid]);
    hide ThreadStep, Grows;
    RunShape(c, mode, s, tid);
  }

  /** One action of x, which leaves the others as they are. */
  lemma ActLater(g: Config, s: System, x: Pid, a: Action, r: System)
    requires CanAct(g, s, x, a) && AllLater(r, s) && Later(s.Keys, s[x], Act(g, s, x, a)[x])
    ensures AllLater(r, Act(g, s, x, a))
  {
    hide Apply, Later;
    var s' := Act(g, s, x, a);
    forall y | y in r
      ensures Later(r.Keys, r[y], s'[y])
    {
      if y == x {
        LaterOn(r.Keys, r[x], s[x], s'[x]);
      }
    }
  }

  /** The broadcasts a thread will still queue, besides a READY whose flag it has yet to win. */
  function Sending(th: Thread): nat {
    if th.pc.Stamp? || th.pc.Post? || (th.pc == Dispatch && th.obj.kind == Send) then 1 else 0
  }

  function Unwon(s: Sess): nat {
    if s.readySent then 0 else 1
  }

  lemma StepSending(c: Params, s: Sess, th: Thread)
    requires ShapeOk(c, th)
    ensures var st := ThreadStep(c, s, th);
      Sending(st.th) + Unwon(st.sess) + (if st.act.Queue? then 1 else 0) <= Sending(th) + Unwon(s)
  {
    hide Insert, Get;
  }

  /** The buffers a node will still send, if no more SENDs come in. */
  ghost function Owed(s: Node): nat {
    Sum(Sending, s.threads) + Unwon(s.sess) + |s.outbox|
  }

  /** A measure of what is left to do in a node, when a buffer to send counts for k. */
  ghost function NodeRank(k: nat, s: Node): nat {
    k * Owed(s) + Work(s)
  }

  /** Where a queued broadcast goes: to the outbox, or, encoded at once, to the network. */
  lemma RunQueues(c: Params, mode: Mode, s: Node, tid: Tid)
    requires tid in s.threads
    ensures var s', queues := RunThread(c, mode, s, tid), ThreadStep(c, s.sess, s.threads[tid]).act.Queue?;
      && |s'.outbox| == |s.outbox| + (if queues && mode == Deferred then 1 else 0)
      && s'.sent == if queues && mode == Copied then s.sent + {s.threads[tid].obj} else s.sent
  {
    hide ThreadStep;
  }

  lemma StepOwed(c: Params, mode: Mode, s: Node, tid: Tid)
    requires Inv(c, mode, s) && tid in s.threads
    ensures var s' := RunThread(c, mode, s, tid);
      && s'.sent <= s.sent + {s.threads[tid].obj} && s.sent <= s'.sent
      && Owed(s') + (if s'.sent == s.sent then 0 else 1) <= Owed(s)
  {
    assert ThreadsOk(c, s);
    hide ThreadStep, RunThread, Sending, Unwon, Inv, ObjectOk, CountOk, WinnerOk, ShapeOk;
    assert ThreadOk(c, s, tid);
    RunShape(c, mode, s, tid);
    RunQueues(c, mode, s, tid);
    StepSending(c, s.sess, s.threads[tid]);
    SumWith(Sending, s.threads, tid, ThreadStep(c, s.sess, s.threads[tid]).th);
  }

  lemma Times(k: nat, a: nat, b: nat, j: nat)
    requires a + j <= b
    ensures k * a + k * j <= k * b
  {
    assert k * (b - a - j) >= 0;
  }

  /** A handler step lowers the measure, by a buffer's worth if it sends. */
  lemma RunRank(c: Params, mode: Mode, s: Node, tid: Tid, k: nat)
    requires Inv(c, mode, s) && tid in s.threads && s.threads[tid].pc != Done
    ensures var s' := RunThread(c, mode, s, tid);
      NodeRank(k, s') + (if s'.sent == s.sent then 0 else k) < NodeRank(k, s)
  {
    hide Inv, RunThread, Owed, Work;
    var s' := RunThread(c, mode, s, tid);
    StepWorks(c, mode, s, tid);
    StepOwed(c, mode, s, tid);
    Times(k, Owed(s'), Owed(s), if s'.sent == s.sent then 0 else 1);
  }

  lemma EncodeRank(c: Params, mode: Mode, s: Node, i: nat, k: nat)
    requires Enabled(s, Encode(i))
    ensures var s' := Apply(c, mode, s, Encode(i));
      && NodeRank(k, s') + k == NodeRank(k, s) && s'.handled == s.handled
      && s.sent <= s'.sent <= s.sent + {s.threads[s.outbox[i]].obj}
  {
    hide Sum;
    var s' := Apply(c, mode, s, Encode(i));
    assert Owed(s') + 1 == Owed(s);
    assert k * Owed(s) == k * Owed(s') + k;
  }

  lemma ReceiveRank(c: Params, mode: Mode, s: Node, tid: Tid, m: Msg, k: nat)
    requires tid !in s.threads
    ensures var s' := Apply(c, mode, s, Receive(tid, m));
      && NodeRank(k, s') <= NodeRank(k, s) + (if m.kind == Send then k + 13 else 10)
      && s'.handled == s.handled + {m} && s'.sent == s.sent
  {
    hide Sum;
    var th := Thread(m, Dispatch, []);
    SumWith(Ahead, s.threads, tid, th);
    SumWith(Sending, s.threads, tid, th);
    var s' := Apply(c, mode, s, Receive(tid, m));
    assert Owed(s') == Owed(s) + Sending(th);
    assert k * Owed(s') == k * Owed(s) + k * Sending(th);
  }

  /** The messages between correct nodes still to be taken in. */
  ghost function Pending(s: System): set<(Pid, Msg)> {
    set x, p, m | x in s && p in s && x != p && m in s[p].sent && m !in s[x].handled :: (x, m)
  }

  /** Taking messages in leaves no more pending, and fewer if one of them was. */
  lemma PendingShrinks(s: System, x: Pid, m: Msg, s': System)
    requires x in s && s'.Keys == s.Keys && s' == s[x := s'[x]]
    requires s'[x].handled == s[x].handled + {m} && s'[x].sent == s[x].sent
    ensures |Pending(s')| + (if (x, m) in Pending(s) then 1 else 0) <= |Pending(s)|
  {
    forall y, v | (y, v) in Pending(s')
      ensures (y, v) in Pending(s) - {(x, m)}
    {
      var p :| p in s' && y != p && v in s'[p].sent;
      assert v in s[p].sent;
    }
    assert Pending(s') <= Pending(s) - {(x, m)};
    SubsetCard(Pending(s'), Pending(s) - {(x, m)});
  }

  ghost function Pairs(xs: set<Pid>, m: Msg): set<(Pid, Msg)> {
    set x | x in xs :: (x, m)
  }

  lemma {:induction false} PairsCard(xs: set<Pid>, m: Msg)
    ensures |Pairs(xs, m)| <= |xs|
  {
    if xs != {} {
      var x: Pid :| x in xs;
      PairsCard(xs - {x}, m);
      assert Pairs(xs, m) == Pairs(xs - {x}, m) + {(x, m)};
    }
  }

  /** A buffer sent is pending for each correct node at most. */
  lemma PendingGrows(s: System, x: Pid, m: Msg, s': System)
    requires x in s && s'.Keys == s.Keys && s' == s[x := s'[x]]
    requires s'[x].handled == s[x].handled && s'[x].sent <= s[x].sent + {m}
    ensures |Pending(s')| <= |Pending(s)| + |s.Keys|
    ensures s'[x].sent <= s[x].sent ==> |Pending(s')| <= |Pending(s)|
  {
    var more := if s'[x].sent <= s[x].sent then {} else Pairs(s.Keys, m);
    PairsCard(s.Keys, m);
    forall y, v | (y, v) in Pending(s')
      ensures (y, v) in Pending(s) + more
    {
      var p :| p in s' && y != p && v in s'[p].sent;
      assert v in s[p].sent || v == m;
    }
    assert Pending(s') <= Pending(s) + more;
    SubsetCard(Pending(s'), Pending(s) + more);
  }

  /** What a buffer to send counts for: an intake at each correct node, and itself. */
  function Buffer(g: Config): nat {
    11 * |g.Correct()| + 1
  }

  ghost function Ranker(k: nat): Node -> nat {
    s => NodeRank(k, s)
  }

  /** A bound on all that can still happen without further messages from clients and faulty nodes. */
  ghost function Rank(g: Config, s: System): nat {
    Sum(Ranker(Buffer(g)), s) + 11 * |Pending(s)|
  }

  /** An intake from outside: of a SEND, of a faulty node's vote, or of something taken in before. */
  ghost predicate Outside(s: System, x: Pid, a: Action) {
    a.Receive? && (x, a.msg) !in Pending(s)
  }

  /** What one intake from outside adds to the measure at most, its own step included. */
  function Extra(g: Config): nat {
    Buffer(g) + 14
  }

  /** Every action lowers the measure, except that an intake from outside raises it by a fixed amount. */
  lemma ActRank(g: Config, s: System, x: Pid, a: Action)
    requires g.Valid() && NodesOk(g, s) && CanAct(g, s, x, a) && Busy(s[x], a)
    ensures Rank(g, Act(g, s, x, a)) < Rank(g, s) + if Outside(s, x, a) then Extra(g) else 0
  {
    hide Inv, Apply, NodeRank, Pending;
    var s', k := Act(g, s, x, a), Buffer(g);
    SumWith(Ranker(k), s, x, s'[x]);
    assert Inv(g.At(x), g.mode, s[x]);
    match a
    case Run(tid) => RunDrops(g, s, x, tid);
    case Encode(i) =>
      EncodeRank(g.At(x), g.mode, s[x], i, k);
      PendingGrows(s, x, s[x].threads[s[x].outbox[i]].obj, s');
    case Receive(tid, m) =>
      ReceiveRank(g.At(x), g.mode, s[x], tid, m, k);
      PendingShrinks(s, x, m, s');
      PendingVote(g, s, x, m);
  }

  lemma RunDrops(g: Config, s: System, x: Pid, tid: Tid)
    requires g.Valid() && NodesOk(g, s) && CanAct(g, s, x, Run(tid)) && Busy(s[x], Run(tid))
    ensures var s' := Act(g, s, x, Run(tid));
      NodeRank(Buffer(g), s'[x]) + 11 * |Pending(s')| < NodeRank(Buffer(g), s[x]) + 11 * |Pending(s)|
  {
    hide Inv, RunThread, NodeRank, Pending;
    var s', k := Act(g, s, x, Run(tid)), Buffer(g);
    assert Inv(g.At(x), g.mode, s[x]);
    RunRank(g.At(x), g.mode, s[x], tid, k);
    StepOwed(g.At(x), g.mode, s[x], tid);
    RunShape(g.At(x), g.mode, s[x], tid);
    PendingGrows(s, x, s[x].threads[tid].obj, s');
  }

  lemma PendingVote(g: Config, s: System, x: Pid, m: Msg)
    requires g.Valid() && NodesOk(g, s)
    ensures (x, m) in Pending(s) ==> x in s && m.kind != Send && m.node in s && Available(g, s, m)
  {
    if (x, m) in Pending(s) {
      var p :| p in s && x != p && m in s[p].sent;
      BuffersAreOwn(g.At(p), g.mode, s[p], m);
    }
  }

  /** A schedule of the network, without idle steps of finished handlers. */
  ghost predicate IsSchedule(g: Config, run: seq<System>, acts: seq<(Pid, Action)>) {
    && |run| == |acts| + 1
    && forall i :: 0 <= i < |acts| ==>
      && CanAct(g, run[i], acts[i].0, acts[i].1) && Busy(run[i][acts[i].0], acts[i].1)
      && run[i + 1] == Act(g, run[i], acts[i].0, acts[i].1)
  }

  /** The number of intakes from outside in a schedule. */
  ghost function Outsiders(run: seq<System>, acts: seq<(Pid, Action)>): nat
    requires |run| == |acts| + 1
  {
    if acts == [] then 0
    else
      var k := |acts| - 1;
      Outsiders(run[..k + 1], acts[..k]) + if Outside(run[k], acts[k].0, acts[k].1) then 1 else 0
  }

  lemma StepEnds(g: Config, s: System, x: Pid, a: Action, outsiders: nat)
    requires g.Valid() && Reachable(g, s) && CanAct(g, s, x, a) && Busy(s[x], a)
    ensures var s', o := Act(g, s, x, a), if Outside(s, x, a) then 1 else 0;
      && Reachable(g, s')
      && Rank(g, s') + 1 + Extra(g) * outsiders <= Rank(g, s) + Extra(g) * (outsiders + o)
  {
    hide Reachable, Rank, Act, CanAct, Busy, Extra, Outside;
    AlwaysConsistent(g, s);
    ActRank(g, s, x, a);
    Extend(g, s, x, a);
    assert Extra(g) * (outsiders + 1) == Extra(g) * outsiders + Extra(g);
  }

  /** No schedule goes on for ever on finitely many messages from outside: its length is bounded by the
      measure of its first state and their number. */
  lemma {:induction false} SchedulesEnd(g: Config, run: seq<System>, acts: seq<(Pid, Action)>)
    requires g.Valid() && IsSchedule(g, run, acts) && Reachable(g, run[0])
    ensures Reachable(g, run[|acts|])
    ensures |acts| + Rank(g, run[|acts|]) <= Rank(g, run[0]) + Extra(g) * Outsiders(run, acts)
  {
    hide Reachable, Rank, Act, CanAct, Busy, Extra, Outside, Consistent;
    if acts != [] {
      var k := |acts| - 1;
      SchedulesEnd(g, run[..k + 1], acts[..k]);
      StepEnds(g, run[k], acts[k].0, acts[k].1, Outsiders(run[..k + 1], acts[..k]));
    }
  }

  /** A quiescent state is one in which nothing is left to do without a message from outside. */
  lemma QuiescentExactly(g: Config, s: System)
    requires g.Valid() && Reachable(g, s)
    ensures Quiescent(g, s) <==> forall x, a :: CanAct(g, s, x, a) && Busy(s[x], a) ==> Outside(s, x, a)
  {
    hide Reachable, Available, Enabled, Busy, Outside, Quiescent;
    AlwaysConsistent(g, s);
    if Quiescent(g, s) {
      forall x, a | CanAct(g, s, x, a) && Busy(s[x], a)
        ensures Outside(s, x, a)
      {
        QuietOutside(g, s, x, a);
      }
    } else {
      var x, a := Unfinished(g, s);
    }
  }

  lemma QuietOutside(g: Config, s: System, x: Pid, a: Action)
    requires Quiescent(g, s) && CanAct(g, s, x, a) && Busy(s[x], a)
    ensures Outside(s, x, a)
  {
    assert Idle(s[x]);
  }

  /** An action still to be taken. */
  lemma Unfinished(g: Config, s: System) returns (x: Pid, a: Action)
    requires g.Valid() && NodesOk(g, s) && !Quiescent(g, s)
    ensures CanAct(g, s, x, a) && Busy(s[x], a) && !Outside(s, x, a)
  {
    hide Inv, Pending, Available;
    if y :| y in s && !Idle(s[y]) {
      x := y;
      a := UnfinishedNode(g.At(y), g.mode, s[y]);
    } else {
      var y, p, m :| y in s && p in s && y != p && m in s[p].sent && m !in s[y].handled;
      var tid := FreshTid(s[y].threads);
      PendingBy(s, y, p, m);
      PendingVote(g, s, y, m);
      x, a := y, Receive(tid, m);
    }
  }

  lemma UnfinishedNode(c: Params, mode: Mode, s: Node) returns (a: Action)
    requires Inv(c, mode, s) && !Idle(s)
    ensures Busy(s, a) && !a.Receive?
  {
    if AllDone(s) {
      assert SentOk(c, mode, s);
      a := Encode(0);
    } else {
      var tid :| tid in s.threads && s.threads[tid].pc != Done;
      a := Run(tid);
    }
  }

  lemma PendingBy(s: System, x: Pid, p: Pid, m: Msg)
    requires x in s && p in s && x != p && m in s[p].sent && m !in s[x].handled
    ensures (x, m) in Pending(s)
  {
  }

  lemma InsideLater(g: Config, r: System, s: System, x: Pid, a: Action)
    requires g.Valid() && NodesOk(g, s) && CanAct(g, s, x, a) && !Outside(s, x, a) && AllLater(r, s)
    ensures AllLater(r, Act(g, s, x, a))
  {
    hide AllLater, Pending, Inv, RunThread;
    assert Inv(g.At(x), g.mode, s[x]);
    match a {
      case Run(tid) => RunLater(g.At(x), g.mode, s[x], tid, s.Keys);
      case Encode(_) =>
      case Receive(_, m) => PendingVote(g, s, x, m);
    }
    ActLater(g, s, x, a, r);
  }

  /** A schedule without messages from outside forgets nothing and hears nothing new. */
  lemma {:induction false} ScheduleLater(g: Config, run: seq<System>, acts: seq<(Pid, Action)>)
    requires g.Valid() && IsSchedule(g, run, acts) && Reachable(g, run[0]) && Outsiders(run, acts) == 0
    ensures AllLater(run[0], run[|acts|])
  {
    hide Reachable, Rank, Act, CanAct, Busy, Outside, Later;
    if acts == [] {
      LaterSelf(run[0]);
    } else {
      var k := |acts| - 1;
      ScheduleLater(g, run[..k + 1], acts[..k]);
      SchedulesEnd(g, run[..k + 1], acts[..k]);
      assert run[k + 1] == Act(g, run[k], acts[k].0, acts[k].1);
      AlwaysConsistent(g, run[k]);
      InsideLater(g, run[0], run[k], acts[k].0, acts[k].1);
    }
  }

  lemma LaterSelf(s: System)
    ensures AllLater(s, s)
  {
  }

  /** Left to itself the network must come to rest: every schedule without messages from outside has at
      most as many steps as the measure of its first state, and where it can go no further all is quiet. */
  lemma RestInevitable(g: Config, run: seq<System>, acts: seq<(Pid, Action)>)
    requires g.Valid() && IsSchedule(g, run, acts) && Reachable(g, run[0]) && Outsiders(run, acts) == 0
    ensures |acts| <= Rank(g, run[0]) && AllLater(run[0], run[|acts|])
    ensures (forall x, a :: CanAct(g, run[|acts|], x, a) && Busy(run[|acts|][x], a) ==> Outside(run[|acts|], x, a))
      <==> Quiescent(g, run[|acts|])
  {
    hide Reachable, Quiescent, CanAct, Busy, Outside, Rank, AllLater;
    SchedulesEnd(g, run, acts);
    ScheduleLater(g, run, acts);
    QuiescentExactly(g, run[|acts|]);
  }

  /** Every reachable state leads to a quiescent one in which nothing is forgotten, no further SEND has
      been taken in, and the faulty nodes have said nothing more. */
  lemma Settles(g: Config, s: System) returns (s': System)
    requires g.Valid() && Reachable(g, s)
    ensures Reachable(g, s') && Quiescent(g, s') && AllLater(s, s')
  {
    hide Reachable, Quiescent, Later;
    LaterSelf(s);
    s' := SettlesFrom(g, s, s);
  }

  lemma {:induction false} SettlesFrom(g: Config, s: System, r: System) returns (s': System)
    requires g.Valid() && Reachable(g, s) && AllLater(r, s)
    ensures Reachable(g, s') && Quiescent(g, s') && AllLater(r, s')
    decreases Rank(g, s)
  {
    hide Reachable, Quiescent, AllLater, Rank, CanAct, Busy, Outside, Act;
    if Quiescent(g, s) {
      s' := s;
    } else {
      AlwaysConsistent(g, s);
      var x, a := Unfinished(g, s);
      ActRank(g, s, x, a);
      InsideLater(g, r, s, x, a);
      Extend(g, s, x, a);
      s' := SettlesFrom(g, Act(g, s, x, a), r);
    }
  }

  lemma TakersStay(s: System, s': System, d: Data)
    requires AllLater(s, s') && AllTook(s, d)
    ensures AllTook(s', d)
  {
    forall x | x in s'
      ensures TookSend(s'[x], d) && forall e :: TookSend(s'[x], e) ==> e == d
    {
      assert Later(s.Keys, s[x], s'[x]);
      var p :| Msg(Send, d, p) in s[x].handled;
      assert Msg(Send, d, p) in s'[x].handled;
      forall e | TookSend(s'[x], e)
        ensures TookSend(s[x], e)
      {
      }
    }
  }

  /** Validity as a promise: once every correct node has taken in a SEND of d, and of nothing else, every
      schedule without messages from outside comes to rest, and then all have delivered d. */
  lemma ValidityInevitable(g: Config, run: seq<System>, acts: seq<(Pid, Action)>, d: Data)
    requires g.Valid() && IsSchedule(g, run, acts) && Reachable(g, run[0]) && Outsiders(run, acts) == 0
    requires AllTook(run[0], d) && (g.mode == Copied || |g.Correct()| >= g.Q() + g.T())
    ensures |acts| <= Rank(g, run[0])
    ensures Quiescent(g, run[|acts|]) ==> AllDelivered(run[|acts|], d)
  {
    assert |run| == |acts| + 1;
    hide Reachable, Quiescent, IsSchedule, Rank, AllLater, AllTook, AllDelivered;
    RestInevitable(g, run, acts);
    SchedulesEnd(g, run, acts);
    TakersStay(run[0], run[|acts|], d);
    if Quiescent(g, run[|acts|]) {
      Validity(g, run[|acts|], d);
    }
  }

  /** So the run can go on to a state where all have delivered d, without help from clients or faulty nodes. */
  lemma ValidityReached(g: Config, s: System, d: Data) returns (s': System)
    requires g.Valid() && Reachable(g, s) && AllTook(s, d)
    requires g.mode == Copied || |g.Correct()| >= g.Q() + g.T()
    ensures Reachable(g, s') && AllLater(s, s') && AllDelivered(s', d)
  {
    hide Reachable, Quiescent, AllLater, AllTook, AllDelivered;
    s' := Settles(g, s);
    TakersStay(s, s', d);
    Validity(g, s', d);
  }

  lemma OnePayloadStays(s: System, s': System)
    requires AllLater(s, s') && OnePayload(s)
    ensures OnePayload(s')
  {
    forall x, e | x in s' && TookSend(s'[x], e)
      ensures TookSend(s[x], e)
    {
      assert Later(s.Keys, s[x], s'[x]);
    }
  }

  /** Totality as a promise: what one correct node has delivered, every schedule without messages from
      outside brings to all, by the time it rests. */
  lemma TotalityInevitable(g: Config, run: seq<System>, acts: seq<(Pid, Action)>, x: Pid, d: Data)
    requires g.Valid() && IsSchedule(g, run, acts) && Reachable(g, run[0]) && Outsiders(run, acts) == 0
    requires OnePayload(run[0]) && x in run[0] && d in run[0][x].log
    ensures |acts| <= Rank(g, run[0])
    ensures Quiescent(g, run[|acts|]) ==> AllDelivered(run[|acts|], d)
  {
    assert |run| == |acts| + 1;
    hide Reachable, Quiescent, IsSchedule, Rank, OnePayload, AllDelivered;
    RestInevitable(g, run, acts);
    SchedulesEnd(g, run, acts);
    OnePayloadStays(run[0], run[|acts|]);
    assert Later(run[0].Keys, run[0][x], run[|acts|][x]);
    if Quiescent(g, run[|acts|]) {
      Totality(g, run[|acts|], x, d);
    }
  }

  /** So the run can go on to a state where what one correct node has delivered all have. */
  lemma TotalityReached(g: Config, s: System, x: Pid, d: Data) returns (s': System)
    requires g.Valid() && Reachable(g, s) && OnePayload(s) && x in s && d in s[x].log
    ensures Reachable(g, s') && AllLater(s, s') && AllDelivered(s', d)
  {
    hide Reachable, Quiescent, OnePayload, AllDelivered;
    s' := Settles(g, s);
    OnePayloadStays(s, s');
    assert Later(s.Keys, s[x], s'[x]);
    Totality(g, s', x, d);
  }
}
