/** Many-session nodes come to rest. Whatever is handed to the nodes of all chains, every schedule of lookups,
    handler steps, encodings and intakes ends when messages from outside do, and then every session is quiet. */
module ChainsProgress {
  import opened SessionStep
  import opened Interleaving
  import opened ThreadInvariants
  import opened Network
  import opened Guarantees
  import opened Progress
  import opened Schedules
  import opened Broadcaster
  import opened SessionsPool
  import opened Chains

  ghost predicate WorldReachable(u: Setup, w: World) {
    exists run :: IsWorldRun(u, run) && run[|run| - 1] == w
  }

  lemma WorldExtend(u: Setup, w: World, x: Pid, v: Move)
    requires WorldReachable(u, w) && CanMove(u, w, x, v)
    ensures WorldReachable(u, MoveOn(u, w, x, v))
  {
    hide CanMove, MoveOn;
    var run :| IsWorldRun(u, run) && run[|run| - 1] == w;
    var longer := run + [MoveOn(u, w, x, v)];
    forall i | 0 <= i < |longer| - 1
      ensures Advances(u, longer[i], longer[i + 1])
    {
      if i < |run| - 1 {
        assert Advances(u, run[i], run[i + 1]);
      }
    }
    assert IsWorldRun(u, longer);
  }

  /** Node x belongs to the chain of session id. */
  ghost predicate Belongs(u: Setup, x: Pid, id: Id) {
    u.Knows(id) && x in u.Of(id).parties
  }

  /** A node works only in sessions of its chains. */
  ghost predicate PlacedAt(u: Setup, x: Pid, m: Machine) {
    && (forall t :: t in m.handlers ==> Belongs(u, x, m.handlers[t].id))
    && (forall id :: QueueOf(m, id) != [] ==> Belongs(u, x, id))
    && (forall e :: e in m.sent ==> Belongs(u, x, e.0))
  }

  ghost predicate Placed(u: Setup, w: World) {
    forall x :: x in w ==> PlacedAt(u, x, w[x])
  }

  lemma InsideQueues(c: Params, m: Machine, tid: Tid, h: Handler, ref: nat)
    requires tid in m.handlers && ref < |m.objects|
    ensures var m' := StepInside(c, m, tid, h, ref);
      && m'.sent == m.sent && m'.handlers.Keys == m.handlers.Keys && tid in m'.handlers && m'.handlers[tid].id == h.id
      && (forall t :: t in m.handlers && t != tid ==> m'.handlers[t] == m.handlers[t])
      && forall id :: id != h.id ==> QueueOf(m', id) == QueueOf(m, id)
  {
    hide StepInside, ThreadStep;
    InsideShape(c, m, tid, h, ref);
  }

  lemma PlacedKept(u: Setup, w: World, x: Pid, v: Move)
    requires CanMove(u, w, x, v) && PlacedAt(u, x, w[x])
    ensures PlacedAt(u, x, MoveOn(u, w, x, v)[x])
  {
    hide StepInside, Belongs, Offered;
    if v.Go? {
      GoPlaced(u, x, w[x], v.tid);
    } else if v.Take? {
      TakesOwn(u, w, x, v);
    }
  }

  lemma GoPlaced(u: Setup, x: Pid, m: Machine, tid: Tid)
    requires Possible(m, Go(tid)) && PlacedAt(u, x, m)
    ensures PlacedAt(u, x, Moved(u.ParamsOf(x), m, Go(tid)))
  {
    hide StepInside, Belongs;
    var h := m.handlers[tid];
    assert Belongs(u, x, h.id);
    if h.at.Inside? {
      InsideQueues(u.ParamsOf(x)(h.id), m, tid, h, h.at.ref);
    }
  }

  lemma TakesOwn(u: Setup, w: World, x: Pid, v: Move)
    requires CanMove(u, w, x, v) && v.Take?
    ensures Belongs(u, x, v.id)
  {
  }

  lemma {:induction false} RunPlaced(u: Setup, run: seq<World>)
    requires IsWorldRun(u, run)
    ensures Placed(u, run[|run| - 1])
  {
    hide PlacedAt, CanMove, MoveOn;
    if |run| == 1 {
      EmptyPlaced(u);
    } else {
      var w := run[|run| - 2];
      RunPlaced(u, run[..|run| - 1]);
      assert Advances(u, w, run[|run| - 1]);
      var x, v :| CanMove(u, w, x, v) && run[|run| - 1] == MoveOn(u, w, x, v);
      MovesOne(u, w, x, v);
      PlacedKept(u, w, x, v);
    }
  }

  lemma MovesOne(u: Setup, w: World, x: Pid, v: Move)
    requires CanMove(u, w, x, v)
    ensures var w' := MoveOn(u, w, x, v); x in w && x in w' && w' == w[x := w'[x]]
  {
    hide Moved;
  }

  lemma EmptyPlaced(u: Setup)
    ensures forall x :: PlacedAt(u, x, EMPTY)
  {
  }

  lemma WorldOk(u: Setup, w: World)
    requires u.Valid() && WorldReachable(u, w)
    ensures AllPooled(u, w) && Placed(u, w)
  {
    hide PlacedAt, PoolOk, Advances;
    var run :| IsWorldRun(u, run) && run[|run| - 1] == w;
    WorldPooled(u, run);
    RunPlaced(u, run);
  }

  /** What the world shows of a session is a reachable state of its network. */
  lemma WorldShows(u: Setup, w: World, id: Id) returns (s: System)
    requires u.Valid() && WorldReachable(u, w) && u.Knows(id)
    ensures Projects(u, w, id, s) && Reachable(u.Of(id), s) && u.Of(id).Valid() && NodesOk(u.Of(id), s)
  {
    hide Projects, Reachable, Advances, NodesOk;
    var run :| IsWorldRun(u, run) && run[|run| - 1] == w;
    s := WorldReaches(u, run, id);
    AlwaysConsistent(u.Of(id), s);
  }

  ghost function Only(es: set<(Id, Msg)>, id: Id): set<Msg> {
    set e | e in es && e.0 == id :: e.1
  }

  /** What one machine shows of a session, without the winners and counters a machine does not keep. */
  ghost function Face(m: Machine, id: Id): Node {
    Node(SessOf(m, id), ThreadsOf(m, id), QueueOf(m, id), Only(m.sent, id), Only(m.taken, id),
      None, None, 0, LogOf(m.log, id))
  }

  ghost function WorldFace(u: Setup, w: World, id: Id): System
    requires u.Knows(id)
  {
    map x | x in u.Of(id).Correct() && x in w :: Face(w[x], id)
  }

  lemma {:induction false} SumSame<K, V>(f: V -> nat, m: map<K, V>, m': map<K, V>)
    requires m.Keys == m'.Keys && forall k :: k in m ==> f(m[k]) == f(m'[k])
    ensures Sum(f, m) == Sum(f, m')
    decreases |m|
  {
    if m == map[] {
      assert m' == map[];
    } else {
      var k: K :| k in m;
      SumWithout(f, m, k);
      SumWithout(f, m', k);
      SumSame(f, m - {k}, m' - {k});
    }
  }

  lemma FaceOf(m: Machine, id: Id, s: Node, k: nat)
    requires Shows(m, id, s)
    ensures var f := Face(m, id); f.sent == s.sent && f.handled == s.handled && NodeRank(k, f) == NodeRank(k, s)
  {
    hide SessOf, ThreadsOf, LogOf, Sum;
    assert Only(m.sent, id) == s.sent by {
      forall v
        ensures v in Only(m.sent, id) <==> v in s.sent
      {
        assert (id, v) in m.sent <==> v in s.sent;
      }
    }
    assert Only(m.taken, id) == s.handled by {
      forall v
        ensures v in Only(m.taken, id) <==> v in s.handled
      {
        assert (id, v) in m.taken <==> v in s.handled;
      }
    }
  }

  /** The measure of a session in the world is the measure of the network state it shows. */
  ghost function SessionRank(u: Setup, w: World, id: Id): nat
    requires u.Knows(id)
  {
    Rank(u.Of(id), WorldFace(u, w, id))
  }

  lemma RankShown(u: Setup, w: World, id: Id, s: System)
    requires u.Knows(id) && Projects(u, w, id, s)
    ensures SessionRank(u, w, id) == Rank(u.Of(id), s) && Pending(WorldFace(u, w, id)) == Pending(s)
  {
    hide Shows, Face, NodeRank, Sum;
    var f, k := WorldFace(u, w, id), Buffer(u.Of(id));
    forall x | x in s
      ensures x in f && f[x].sent == s[x].sent && f[x].handled == s[x].handled
      ensures NodeRank(k, f[x]) == NodeRank(k, s[x])
    {
      FaceOf(w[x], id, s[x], k);
    }
    assert f.Keys == s.Keys;
    SumSame(Ranker(k), f, s);
    SamePending(f, s);
  }

  lemma SamePending(s: System, s': System)
    requires s.Keys == s'.Keys && forall x :: x in s ==> s[x].sent == s'[x].sent && s[x].handled == s'[x].handled
    ensures Pending(s) == Pending(s')
  {
    forall x, m
      ensures (x, m) in Pending(s) <==> (x, m) in Pending(s')
    {
      if (x, m) in Pending(s) {
        var p :| p in s && x != p && m in s[p].sent;
        assert p in s' && m in s'[p].sent;
      }
      if (x, m) in Pending(s') {
        var p :| p in s' && x != p && m in s'[p].sent;
        assert p in s && m in s[p].sent;
      }
    }
  }

  /** A move that is no idle step of a finished handler. */
  ghost predicate Moving(m: Machine, v: Move) {
    && Possible(m, v)
    && (v.Go? ==> !(m.handlers[v.tid].at.Inside? && m.handlers[v.tid].th.pc == Done))
  }

  /** A message between correct nodes of the chain that is still to be taken in. */
  ghost predicate PendingIn(u: Setup, w: World, id: Id, x: Pid, m: Msg)
    requires u.Knows(id)
  {
    && x in u.Of(id).Correct() && x in w && (id, m) !in w[x].taken
    && exists p :: p in u.Of(id).Correct() && p in w && p != x && (id, m) in w[p].sent
  }

  /** An intake from outside: of a SEND, of a faulty node's vote, or of something taken in before. */
  ghost predicate OutsideMove(u: Setup, w: World, x: Pid, v: Move) {
    v.Take? && u.Knows(v.id) && !PendingIn(u, w, v.id, x, v.msg)
  }

  lemma PendingShown(u: Setup, w: World, id: Id, s: System, x: Pid, m: Msg)
    requires u.Knows(id) && Projects(u, w, id, s)
    ensures PendingIn(u, w, id, x, m) <==> (x, m) in Pending(s)
  {
    assert s.Keys == u.Of(id).Correct();
    forall y | y in s
      ensures y in w && ((id, m) in w[y].sent <==> m in s[y].sent) && ((id, m) in w[y].taken <==> m in s[y].handled)
    {
      assert Shows(w[y], id, s[y]);
    }
    if PendingIn(u, w, id, x, m) {
      var p :| p in u.Of(id).Correct() && p in w && p != x && (id, m) in w[p].sent;
      assert x in s && p in s && x != p && m in s[p].sent && m !in s[x].handled;
    }
    if (x, m) in Pending(s) {
      var p :| p in s && x != p && m in s[p].sent;
      assert (id, m) in w[p].sent;
    }
  }

  /** The move lets the session it is about take one action of its network, which lowers its measure. */
  lemma ShownRank(u: Setup, w: World, x: Pid, v: Move, id: Id)
    requires u.Valid() && WorldReachable(u, w) && u.Knows(id) && CanMove(u, w, x, v) && Moving(w[x], v)
    requires x in u.Of(id).Correct() && Subject(w[x], v) == id && Visible(w[x], v)
    ensures SessionRank(u, MoveOn(u, w, x, v), id) <
      SessionRank(u, w, id) + if OutsideMove(u, w, x, v) then Extra(u.Of(id)) else 0
  {
    hide WorldReachable, Rank, Reachable, SessionRank, Extra, NodesOk, PlacedAt, Moved, Shows, AllPooled;
    hide PendingIn, Pending, Act, CanAct;
    var g := u.Of(id);
    WorldOk(u, w);
    var s := WorldShows(u, w, id);
    RankShown(u, w, id, s);
    var a := Amounts(w[x], v);
    BusyShown(u, w, x, v, id, s);
    var s' := ShownProjects(u, w, x, v, id, s);
    ActRank(g, s, x, a);
    RankShown(u, MoveOn(u, w, x, v), id, s');
  }

  lemma BusyShown(u: Setup, w: World, x: Pid, v: Move, id: Id, s: System)
    requires u.Valid() && u.Knows(id) && CanMove(u, w, x, v) && Moving(w[x], v) && Projects(u, w, id, s)
    requires x in s && Subject(w[x], v) == id && Visible(w[x], v) && NodesOk(u.Of(id), s)
    ensures Busy(s[x], Amounts(w[x], v))
    ensures Outside(s, x, Amounts(w[x], v)) <==> OutsideMove(u, w, x, v)
  {
    hide Inv, Pending, PendingIn, Shows, Offered;
    assert Shows(w[x], id, s[x]) && Inv(u.Of(id).At(x), Deferred, s[x]);
    match v
    case Take(_, _, m) =>
      PendingShown(u, w, id, s, x, m);
      ThreadShown(w[x], id, s[x], v.tid);
    case Flush(_, i) =>
      QueueThreads(u.Of(id).At(x), w[x], id, s[x], i);
      QueueShown(w[x], id, s[x]);
    case Go(tid) => ThreadShown(w[x], id, s[x], tid);
  }

  lemma ThreadShown(m: Machine, id: Id, s: Node, t: Tid)
    requires Shows(m, id, s)
    ensures t in s.threads <==> t in m.handlers && m.handlers[t].id == id
    ensures t in s.threads ==> s.threads[t] == m.handlers[t].th
  {
    hide SessOf, LogOf;
    assert s.threads == ThreadsOf(m, id);
  }

  lemma QueueShown(m: Machine, id: Id, s: Node)
    requires Shows(m, id, s)
    ensures s.outbox == QueueOf(m, id)
  {
  }

  /** Every other session keeps its measure. */
  lemma HiddenRank(u: Setup, w: World, x: Pid, v: Move, id: Id)
    requires u.Valid() && WorldReachable(u, w) && u.Knows(id) && CanMove(u, w, x, v)
    requires x in u.Of(id).Correct() ==> Subject(w[x], v) != id || !Visible(w[x], v)
    ensures SessionRank(u, MoveOn(u, w, x, v), id) == SessionRank(u, w, id)
  {
    hide WorldReachable, Rank, Reachable, SessionRank, NodesOk, PlacedAt, Moved, Shows, Possible, Subject, Visible;
    WorldOk(u, w);
    var s := WorldShows(u, w, id);
    HiddenProjects(u, w, x, v, id, s);
    RankShown(u, w, id, s);
    RankShown(u, MoveOn(u, w, x, v), id, s);
  }

  /** Steps of the handlers of one machine outside their sessions. */
  ghost function PoolWork(m: Machine): nat {
    Sum(PoolRank, m.handlers)
  }

  lemma PoolMove(params: Id -> Params, m: Machine, v: Move)
    requires PoolOk(m) && Possible(m, v)
    ensures var m' := Moved(params, m, v);
      if Visible(m, v) then PoolWork(m') <= PoolWork(m) + 3 else PoolWork(m') < PoolWork(m)
  {
    hide StepInside, Sum, HandlerOk;
    match v
    case Take(tid, id, msg) => SumWith(PoolRank, m.handlers, tid, Handler(id, Thread(msg, Dispatch, []), Looking, []));
    case Flush(_, _) =>
    case Go(tid) =>
      var h := m.handlers[tid];
      if h.at.Inside? {
        InsideShape(params(h.id), m, tid, h, h.at.ref);
      } else {
        PoolSteps(params, m, tid);
      }
      SumWith(PoolRank, m.handlers, tid, Moved(params, m, v).handlers[tid]);
  }

  function Itself(n: nat): nat {
    n
  }

  ghost predicate Known(u: Setup, ids: set<Id>) {
    forall id :: id in ids ==> u.Knows(id)
  }

  ghost function Ranks(u: Setup, ids: set<Id>, w: World): map<Id, nat>
    requires Known(u, ids)
  {
    map id | id in ids :: SessionRank(u, w, id)
  }

  /** A bound on all that can still happen in the sessions ids without messages from outside. */
  ghost function WorldRank(u: Setup, ids: set<Id>, w: World): nat
    requires Known(u, ids)
  {
    4 * Sum(Itself, Ranks(u, ids, w)) + Sum(PoolWork, w)
  }

  /** All that has happened in the world has happened in the sessions ids. */
  ghost predicate Within(ids: set<Id>, w: World) {
    forall x :: x in w ==>
      && (forall t :: t in w[x].handlers ==> w[x].handlers[t].id in ids)
      && (forall e :: e in w[x].sent ==> e.0 in ids)
  }

  /** The sessions in which anything has been taken up or sent. */
  ghost function IdsOf(w: World): set<Id> {
    (set x, t | x in w && t in w[x].handlers :: w[x].handlers[t].id) + (set x, e | x in w && e in w[x].sent :: e.0)
  }

  /** The session a move is about is among ids, when intakes from outside are. */
  lemma SubjectWithin(u: Setup, ids: set<Id>, w: World, x: Pid, v: Move)
    requires u.Valid() && WorldReachable(u, w) && CanMove(u, w, x, v) && Within(ids, w)
    requires OutsideMove(u, w, x, v) ==> v.id in ids
    ensures Subject(w[x], v) in ids && Belongs(u, x, Subject(w[x], v)) && x in u.Of(Subject(w[x], v)).Correct()
  {
    WorldOk(u, w);
    assert PlacedAt(u, x, w[x]);
    assert x in u.nodes;
    match v
    case Take(_, id, m) =>
      if PendingIn(u, w, id, x, m) {
        var p :| p in u.Of(id).Correct() && p in w && p != x && (id, m) in w[p].sent;
      }
    case Go(_) =>
    case Flush(id, i) => FlushWithin(u, w, x, id, i);
  }

  lemma FlushWithin(u: Setup, w: World, x: Pid, id: Id, i: nat)
    requires u.Valid() && WorldReachable(u, w) && x in w && u.Knows(id) && x in u.Of(id).Correct()
    requires i < |QueueOf(w[x], id)|
    ensures var t := QueueOf(w[x], id)[i]; t in w[x].handlers && w[x].handlers[t].id == id
  {
    hide WorldReachable, Reachable;
    var s := WorldShows(u, w, id);
    assert Shows(w[x], id, s[x]) && Inv(u.Of(id).At(x), u.Of(id).mode, s[x]);
    QueueThreads(u.Of(id).At(x), w[x], id, s[x], i);
  }

  lemma WithinKept(u: Setup, ids: set<Id>, w: World, x: Pid, v: Move)
    requires CanMove(u, w, x, v) && Within(ids, w) && Subject(w[x], v) in ids
    ensures Within(ids, MoveOn(u, w, x, v))
  {
    hide StepInside;
    if v.Go? && w[x].handlers[v.tid].at.Inside? {
      var h := w[x].handlers[v.tid];
      InsideQueues(u.ParamsOf(x)(h.id), w[x], v.tid, h, h.at.ref);
    }
  }

  lemma SumAt<K>(ranks: map<K, nat>, ranks': map<K, nat>, k: K, more: nat)
    requires ranks.Keys == ranks'.Keys && k in ranks && ranks'[k] < ranks[k] + more
    requires forall j :: j in ranks && j != k ==> ranks'[j] == ranks[j]
    ensures Sum(Itself, ranks') < Sum(Itself, ranks) + more
  {
    hide Sum;
    SumWith(Itself, ranks, k, ranks'[k]);
    assert ranks[k := ranks'[k]] == ranks';
  }

  /** What a move weighs: nothing, or, from outside, what a message can set off. */
  ghost function Weight(u: Setup, w: World, x: Pid, v: Move): nat {
    if OutsideMove(u, w, x, v) then 4 * Extra(u.Of(v.id)) else 0
  }

  lemma RanksMove(u: Setup, ids: set<Id>, w: World, x: Pid, v: Move)
    requires u.Valid() && WorldReachable(u, w) && Known(u, ids) && CanMove(u, w, x, v) && Moving(w[x], v)
    requires Subject(w[x], v) in ids && x in u.Of(Subject(w[x], v)).Correct()
    ensures var r, r' := Sum(Itself, Ranks(u, ids, w)), Sum(Itself, Ranks(u, ids, MoveOn(u, w, x, v)));
      if Visible(w[x], v) then 4 * r' + 4 <= 4 * r + Weight(u, w, x, v) else r' == r
  {
    hide WorldReachable, SessionRank, Subject, Visible, Possible, Moved, Extra, PendingIn, Offered, Sum;
    var id, w' := Subject(w[x], v), MoveOn(u, w, x, v);
    forall j | j in ids && (j != id || !Visible(w[x], v))
      ensures SessionRank(u, w', j) == SessionRank(u, w, j)
    {
      HiddenRank(u, w, x, v, j);
    }
    if Visible(w[x], v) {
      ShownRank(u, w, x, v, id);
      var more := if OutsideMove(u, w, x, v) then Extra(u.Of(id)) else 0;
      assert OutsideMove(u, w, x, v) ==> v.id == id by {
        TakeSubject(w[x], v);
      }
      SumAt(Ranks(u, ids, w), Ranks(u, ids, w'), id, more);
    } else {
      assert Ranks(u, ids, w') == Ranks(u, ids, w);
    }
  }

  lemma TakeSubject(m: Machine, v: Move)
    requires Possible(m, v)
    ensures v.Take? ==> Subject(m, v) == v.id
  {
  }

  /** Every move lowers the measure of the world, except that an intake from outside raises it by a fixed amount. */
  lemma MoveRank(u: Setup, ids: set<Id>, w: World, x: Pid, v: Move)
    requires u.Valid() && WorldReachable(u, w) && Known(u, ids) && Within(ids, w)
    requires CanMove(u, w, x, v) && Moving(w[x], v) && (OutsideMove(u, w, x, v) ==> v.id in ids)
    ensures Within(ids, MoveOn(u, w, x, v))
    ensures WorldRank(u, ids, MoveOn(u, w, x, v)) < WorldRank(u, ids, w) + Weight(u, w, x, v)
  {
    WorldOk(u, w);
    assert PoolOk(w[x]);
    assert Possible(w[x], v);
    hide WorldReachable, Ranks, PendingIn, Offered, PoolWork, PoolOk, PlacedAt, Within;
    hide Subject, Visible, Possible, Moved;
    SubjectWithin(u, ids, w, x, v);
    WithinKept(u, ids, w, x, v);
    RanksMove(u, ids, w, x, v);
    PoolMove(u.ParamsOf(x), w[x], v);
    SumWith(PoolWork, w, x, Moved(u.ParamsOf(x), w[x], v));
  }

  /** A schedule of the world, without idle steps of finished handlers. */
  ghost predicate IsWorldSchedule(u: Setup, run: seq<World>, moves: seq<(Pid, Move)>) {
    && |run| == |moves| + 1
    && forall i :: 0 <= i < |moves| ==>
      && CanMove(u, run[i], moves[i].0, moves[i].1) && Moving(run[i][moves[i].0], moves[i].1)
      && run[i + 1] == MoveOn(u, run[i], moves[i].0, moves[i].1)
  }

  /** The sessions ids take up all that a schedule takes in from outside. */
  ghost predicate Covers(u: Setup, ids: set<Id>, run: seq<World>, moves: seq<(Pid, Move)>)
    requires |run| == |moves| + 1
  {
    && Known(u, ids) && Within(ids, run[0])
    && forall i :: 0 <= i < |moves| ==> OutsideMove(u, run[i], moves[i].0, moves[i].1) ==> moves[i].1.id in ids
  }

  ghost function Burden(u: Setup, run: seq<World>, moves: seq<(Pid, Move)>): nat
    requires |run| == |moves| + 1
  {
    if moves == [] then 0
    else
      var k := |moves| - 1;
      Burden(u, run[..k + 1], moves[..k]) + Weight(u, run[k], moves[k].0, moves[k].1)
  }

  /** No schedule of many-session nodes goes on for ever on finitely many messages from outside. */
  lemma {:induction false} WorldSchedulesEnd(u: Setup, ids: set<Id>, run: seq<World>, moves: seq<(Pid, Move)>)
    requires u.Valid() && IsWorldSchedule(u, run, moves) && WorldReachable(u, run[0]) && Covers(u, ids, run, moves)
    ensures WorldReachable(u, run[|moves|]) && Within(ids, run[|moves|])
    ensures |moves| + WorldRank(u, ids, run[|moves|]) <= WorldRank(u, ids, run[0]) + Burden(u, run, moves)
  {
    hide WorldReachable, WorldRank, Within, CanMove, Moving, MoveOn, OutsideMove, Weight;
    if moves != [] {
      var k := |moves| - 1;
      WorldSchedulesEnd(u, ids, run[..k + 1], moves[..k]);
      assert run[k + 1] == MoveOn(u, run[k], moves[k].0, moves[k].1);
      MoveRank(u, ids, run[k], moves[k].0, moves[k].1);
      WorldExtend(u, run[k], moves[k].0, moves[k].1);
    }
  }

  ghost predicate AllQuiet(u: Setup, w: World) {
    forall id :: u.Knows(id) ==> QuietIn(u, w, id)
  }

  /** A reachable world is quiet in every session exactly when every move left takes in a message from
      outside or a repeated one. */
  lemma QuietExactly(u: Setup, w: World)
    requires u.Valid() && WorldReachable(u, w)
    ensures AllQuiet(u, w) <==> forall x, v :: CanMove(u, w, x, v) && Moving(w[x], v) ==> OutsideMove(u, w, x, v)
  {
    hide WorldReachable, QuietIn, Possible, Moving, OutsideMove, Offered;
    if AllQuiet(u, w) {
      forall x, v | CanMove(u, w, x, v) && Moving(w[x], v)
        ensures OutsideMove(u, w, x, v)
      {
        QuietStops(u, w, x, v);
      }
    } else {
      var id :| u.Knows(id) && !QuietIn(u, w, id);
      var x, v := StillToDo(u, w, id);
    }
  }

  lemma QuietStops(u: Setup, w: World, x: Pid, v: Move)
    requires u.Valid() && WorldReachable(u, w) && AllQuiet(u, w) && CanMove(u, w, x, v) && Moving(w[x], v)
    ensures OutsideMove(u, w, x, v)
  {
    hide WorldReachable, PoolOk, QuietIn, Offered;
    WorldOk(u, w);
    assert PlacedAt(u, x, w[x]) && PoolOk(w[x]) && x in u.nodes;
    match v
    case Take(_, id, m) => QuietTakes(u, w, id, x, m);
    case Flush(id, _) => QuietQueue(u, w, id, x);
    case Go(tid) => QuietGoes(u, w, x, tid);
  }

  lemma QuietTakes(u: Setup, w: World, id: Id, x: Pid, m: Msg)
    requires u.Knows(id) && QuietIn(u, w, id)
    ensures !PendingIn(u, w, id, x, m)
  {
  }

  lemma QuietQueue(u: Setup, w: World, id: Id, x: Pid)
    requires u.Knows(id) && QuietIn(u, w, id) && x in u.Of(id).Correct() && x in w
    ensures QueueOf(w[x], id) == []
  {
  }

  lemma QuietGoes(u: Setup, w: World, x: Pid, tid: Tid)
    requires AllQuiet(u, w) && x in w && tid in w[x].handlers && PoolOk(w[x])
    requires var id := w[x].handlers[tid].id; u.Knows(id) && x in u.Of(id).Correct()
    ensures w[x].handlers[tid].at.Inside? && w[x].handlers[tid].th.pc == Done
  {
    assert QuietIn(u, w, w[x].handlers[tid].id);
    assert HandlerOk(w[x], w[x].handlers[tid]);
  }

  /** In a session that is not quiet something is still to be done. */
  lemma StillToDo(u: Setup, w: World, id: Id) returns (x: Pid, v: Move)
    requires u.Valid() && WorldReachable(u, w) && u.Knows(id) && !QuietIn(u, w, id)
    ensures CanMove(u, w, x, v) && Moving(w[x], v) && !OutsideMove(u, w, x, v)
  {
    hide WorldReachable, CanMove, Moving, OutsideMove;
    if y, t :| HandlerLeft(u, w, id, y, t) {
      x, v := y, Go(t);
      HandlerToDo(u, w, id, y, t);
    } else if y :| y in u.Of(id).Correct() && y in w && QueueOf(w[y], id) != [] {
      x, v := y, Flush(id, 0);
      QueueToDo(u, w, id, y);
    } else {
      NothingElse(u, w, id);
      var y, p, m :| MessageLeft(u, w, id, y, p, m);
      x := y;
      v := MessageToDo(u, w, id, y, p, m);
    }
  }

  ghost predicate HandlerLeft(u: Setup, w: World, id: Id, x: Pid, t: Tid)
    requires u.Knows(id)
  {
    && x in u.Of(id).Correct() && x in w && t in w[x].handlers && w[x].handlers[t].id == id
    && w[x].handlers[t].th.pc != Done
  }

  lemma NothingElse(u: Setup, w: World, id: Id)
    requires u.Knows(id) && !QuietIn(u, w, id)
    requires forall y, t :: !HandlerLeft(u, w, id, y, t)
    requires forall y :: y in u.Of(id).Correct() && y in w ==> QueueOf(w[y], id) == []
    ensures exists y, p, m :: MessageLeft(u, w, id, y, p, m)
  {
    forall x, t | x in u.Of(id).Correct() && x in w && t in w[x].handlers && w[x].handlers[t].id == id
      ensures w[x].handlers[t].th.pc == Done
    {
      assert !HandlerLeft(u, w, id, x, t);
    }
    var x, p, m :| x in u.Of(id).Correct() && p in u.Of(id).Correct() && x in w && p in w && x != p
      && (id, m) in w[p].sent && (id, m) !in w[x].taken;
    assert MessageLeft(u, w, id, x, p, m);
  }

  lemma HandlerToDo(u: Setup, w: World, id: Id, x: Pid, t: Tid)
    requires u.Valid() && WorldReachable(u, w) && u.Knows(id) && HandlerLeft(u, w, id, x, t)
    ensures CanMove(u, w, x, Go(t)) && Moving(w[x], Go(t)) && !OutsideMove(u, w, x, Go(t))
  {
    hide WorldReachable;
    WorldOk(u, w);
    HandlerGoes(w[x], t);
  }

  lemma QueueToDo(u: Setup, w: World, id: Id, x: Pid)
    requires u.Valid() && WorldReachable(u, w) && u.Knows(id)
    requires x in u.Of(id).Correct() && x in w && QueueOf(w[x], id) != []
    ensures CanMove(u, w, x, Flush(id, 0)) && Moving(w[x], Flush(id, 0)) && !OutsideMove(u, w, x, Flush(id, 0))
  {
    hide WorldReachable;
    FlushWithin(u, w, x, id, 0);
  }

  ghost predicate MessageLeft(u: Setup, w: World, id: Id, x: Pid, p: Pid, m: Msg)
    requires u.Knows(id)
  {
    && x in u.Of(id).Correct() && p in u.Of(id).Correct() && x in w && p in w && x != p
    && (id, m) in w[p].sent && (id, m) !in w[x].taken
  }

  lemma MessageToDo(u: Setup, w: World, id: Id, x: Pid, p: Pid, m: Msg) returns (v: Move)
    requires u.Valid() && WorldReachable(u, w) && u.Knows(id) && MessageLeft(u, w, id, x, p, m)
    ensures CanMove(u, w, x, v) && Moving(w[x], v) && !OutsideMove(u, w, x, v)
  {
    hide WorldReachable, Offered;
    assert PendingIn(u, w, id, x, m);
    PendingOffered(u, w, id, x, m);
    var t := FreshTid(map i | i in w[x].handlers :: w[x].handlers[i].th);
    v := Take(t, id, m);
  }

  lemma HandlerGoes(m: Machine, t: Tid)
    requires PoolOk(m) && t in m.handlers
    ensures Possible(m, Go(t))
  {
    assert HandlerOk(m, m.handlers[t]);
  }

  lemma PendingOffered(u: Setup, w: World, id: Id, x: Pid, m: Msg)
    requires u.Valid() && WorldReachable(u, w) && u.Knows(id) && PendingIn(u, w, id, x, m)
    ensures Offered(u, w, id, m) && m.kind != Send
  {
    hide WorldReachable, Reachable;
    var s := WorldShows(u, w, id);
    PendingShown(u, w, id, s, x, m);
    PendingVote(u.Of(id), s, x, m);
    if m.node in s {
      assert Shows(w[m.node], id, s[m.node]);
    }
  }

  ghost predicate NoneOutside(u: Setup, run: seq<World>, moves: seq<(Pid, Move)>)
    requires |run| == |moves| + 1
  {
    forall i :: 0 <= i < |moves| ==> !OutsideMove(u, run[i], moves[i].0, moves[i].1)
  }

  lemma {:induction false} NoBurden(u: Setup, run: seq<World>, moves: seq<(Pid, Move)>)
    requires |run| == |moves| + 1 && NoneOutside(u, run, moves)
    ensures Burden(u, run, moves) == 0
  {
    hide OutsideMove;
    if moves != [] {
      var k := |moves| - 1;
      NoBurden(u, run[..k + 1], moves[..k]);
    }
  }

  lemma IdsCover(u: Setup, w: World)
    requires u.Valid() && WorldReachable(u, w)
    ensures Known(u, IdsOf(w)) && Within(IdsOf(w), w)
  {
    WorldOk(u, w);
    forall id | id in IdsOf(w)
      ensures u.Knows(id)
    {
      if x, t :| x in w && t in w[x].handlers && w[x].handlers[t].id == id {
        assert PlacedAt(u, x, w[x]);
      } else {
        var x, e :| x in w && e in w[x].sent && e.0 == id;
        assert PlacedAt(u, x, w[x]);
      }
    }
  }

  /** Left to itself the world must come to rest: every schedule without messages from outside is bounded by
      a measure of its first state, and where it can go no further every session is quiet. */
  lemma WorldRestInevitable(u: Setup, run: seq<World>, moves: seq<(Pid, Move)>)
    requires u.Valid() && IsWorldSchedule(u, run, moves) && WorldReachable(u, run[0]) && NoneOutside(u, run, moves)
    ensures Known(u, IdsOf(run[0])) && |moves| <= WorldRank(u, IdsOf(run[0]), run[0])
    ensures WorldReachable(u, run[|moves|])
    ensures (forall x, v ::
        CanMove(u, run[|moves|], x, v) && Moving(run[|moves|][x], v) ==> OutsideMove(u, run[|moves|], x, v))
      <==> AllQuiet(u, run[|moves|])
  {
    hide WorldReachable, WorldRank, Within, Known, IdsOf, CanMove, Moving, MoveOn, OutsideMove, AllQuiet;
    IdsCover(u, run[0]);
    NoBurden(u, run, moves);
    WorldSchedulesEnd(u, IdsOf(run[0]), run, moves);
    QuietExactly(u, run[|moves|]);
  }

  /** A later machine in session id: the same SENDs taken in, and no delivery forgotten. */
  ghost predicate LaterIn(m: Machine, m': Machine, id: Id) {
    && (forall d, p :: (id, Msg(Send, d, p)) in m.taken <==> (id, Msg(Send, d, p)) in m'.taken)
    && forall d :: d in DeliveredIn(m, id) ==> d in DeliveredIn(m', id)
  }

  lemma MoveLaterIn(u: Setup, w: World, x: Pid, v: Move, id: Id)
    requires u.Valid() && WorldReachable(u, w) && CanMove(u, w, x, v) && !OutsideMove(u, w, x, v)
    ensures x in MoveOn(u, w, x, v) && LaterIn(w[x], MoveOn(u, w, x, v)[x], id)
  {
    hide WorldReachable, StepInside, PendingIn, Offered, LogOf;
    match v
    case Take(_, k, m) => PendingOffered(u, w, k, x, m);
    case Flush(_, _) =>
    case Go(tid) =>
      var h := w[x].handlers[tid];
      if h.at.Inside? {
        InsideShape(u.ParamsOf(x)(h.id), w[x], tid, h, h.at.ref);
        LogAppend(w[x].log, h.id, h.th.obj.data, id);
      }
  }

  lemma {:induction false} ScheduleLaterIn(u: Setup, run: seq<World>, moves: seq<(Pid, Move)>, id: Id)
    requires u.Valid() && IsWorldSchedule(u, run, moves) && WorldReachable(u, run[0]) && NoneOutside(u, run, moves)
    ensures run[|moves|].Keys == run[0].Keys && forall x :: x in run[0] ==> LaterIn(run[0][x], run[|moves|][x], id)
  {
    hide WorldReachable, CanMove, Moving, OutsideMove, MoveOn, LaterIn;
    if moves == [] {
      forall x | x in run[0] {
        LaterAgain(run[0][x], run[0][x], run[0][x], id);
      }
    } else {
      var k := |moves| - 1;
      ScheduleLaterIn(u, run[..k + 1], moves[..k], id);
      IdsCoverRun(u, run[..k + 1], moves[..k]);
      assert run[k + 1] == MoveOn(u, run[k], moves[k].0, moves[k].1);
      MovesOne(u, run[k], moves[k].0, moves[k].1);
      MoveLaterIn(u, run[k], moves[k].0, moves[k].1, id);
      forall x | x in run[0]
        ensures LaterIn(run[0][x], run[k + 1][x], id)
      {
        if x == moves[k].0 {
          LaterAgain(run[0][x], run[k][x], run[k + 1][x], id);
        }
      }
    }
  }

  lemma IdsCoverRun(u: Setup, run: seq<World>, moves: seq<(Pid, Move)>)
    requires u.Valid() && IsWorldSchedule(u, run, moves) && WorldReachable(u, run[0]) && NoneOutside(u, run, moves)
    ensures WorldReachable(u, run[|moves|])
  {
    hide WorldReachable, CanMove, Moving, OutsideMove, MoveOn, AllQuiet, WorldRank;
    WorldRestInevitable(u, run, moves);
  }

  lemma LaterAgain(m: Machine, m': Machine, m'': Machine, id: Id)
    ensures LaterIn(m, m, id)
    ensures LaterIn(m, m', id) && LaterIn(m', m'', id) ==> LaterIn(m, m'', id)
  {
    hide DeliveredIn;
  }

  /** Validity as a promise, per session: once every correct node of the chain has taken in a SEND of d in the
      session, and of nothing else, every schedule without messages from outside is bounded, and where it can go
      no further all have delivered d, whatever happens in other sessions. */
  lemma ValidityInevitablePerSession(u: Setup, run: seq<World>, moves: seq<(Pid, Move)>, id: Id, d: Data)
    requires u.Valid() && IsWorldSchedule(u, run, moves) && WorldReachable(u, run[0]) && NoneOutside(u, run, moves)
    requires u.Knows(id) && AllTookIn(u, run[0], id, d)
    requires var g := u.Of(id); |g.Correct()| >= g.Q() + g.T()
    ensures Known(u, IdsOf(run[0])) && |moves| <= WorldRank(u, IdsOf(run[0]), run[0])
    ensures AllQuiet(u, run[|moves|]) ==> AllDeliveredIn(u, run[|moves|], id, d)
  {
    assert |run| == |moves| + 1;
    hide WorldRank, Known, IdsOf, IsWorldSchedule, NoneOutside, AllDeliveredIn, QuietIn, Advances;
    WorldRestInevitable(u, run, moves);
    ScheduleLaterIn(u, run, moves, id);
    var w := run[|moves|];
    TookStays(u, run[0], w, id, d);
    if AllQuiet(u, w) {
      var before :| IsWorldRun(u, before) && before[|before| - 1] == w;
      ValidityPerSession(u, before, id, d);
    }
  }

  lemma TookStays(u: Setup, w: World, w': World, id: Id, d: Data)
    requires u.Knows(id) && w'.Keys == w.Keys && forall x :: x in w ==> LaterIn(w[x], w'[x], id)
    ensures AllTookIn(u, w, id, d) ==> AllTookIn(u, w', id, d)
    ensures OnePayloadIn(u, w, id) ==> OnePayloadIn(u, w', id)
  {
    forall x, e | x in w
      ensures Took(w[x], id, e) <==> Took(w'[x], id, e)
    {
      assert LaterIn(w[x], w'[x], id);
    }
  }

  /** Totality as a promise, per session. */
  lemma TotalityInevitablePerSession(
    u: Setup, run: seq<World>, moves: seq<(Pid, Move)>, id: Id, x: Pid, d: Data)
    requires u.Valid() && IsWorldSchedule(u, run, moves) && WorldReachable(u, run[0]) && NoneOutside(u, run, moves)
    requires u.Knows(id) && OnePayloadIn(u, run[0], id)
    requires x in u.Of(id).Correct() && x in run[0] && d in DeliveredIn(run[0][x], id)
    ensures Known(u, IdsOf(run[0])) && |moves| <= WorldRank(u, IdsOf(run[0]), run[0])
    ensures AllQuiet(u, run[|moves|]) ==> AllDeliveredIn(u, run[|moves|], id, d)
  {
    assert |run| == |moves| + 1;
    hide WorldRank, Known, IdsOf, IsWorldSchedule, NoneOutside, AllDeliveredIn, QuietIn, Advances, OnePayloadIn;
    WorldRestInevitable(u, run, moves);
    ScheduleLaterIn(u, run, moves, id);
    var w := run[|moves|];
    TookStays(u, run[0], w, id, d);
    assert LaterIn(run[0][x], w[x], id);
    if AllQuiet(u, w) {
      var before :| IsWorldRun(u, before) && before[|before| - 1] == w;
      TotalityPerSession(u, before, id, x, d);
    }
  }
}
