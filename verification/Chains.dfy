/** Many-session nodes on a network of several chains. Each session of a run, seen on its own, is a run of
    the single-session network, so the guarantees hold for every (chain, client, nonce). */
module Chains {
  import opened SessionStep
  import opened Interleaving
  import opened ThreadInvariants
  import opened Network
  import opened Guarantees
  import opened Schedules
  import opened Broadcaster
  import opened SessionsPool

  type World = map<Pid, Machine>

  /** The correct nodes, and the chains they know; a faulty node of a chain is one that is not among them. */
  datatype Setup = Setup(nodes: set<Pid>, chains: map<nat, Config>)
  {
    ghost predicate Valid() {
      forall c :: c in chains ==>
        chains[c].Valid() && chains[c].mode == Deferred && chains[c].Correct() == chains[c].parties * nodes
    }

    predicate Knows(id: Id) {
      id.chain in chains
    }

    function Of(id: Id): Config
      requires Knows(id)
    {
      chains[id.chain]
    }

    /** The parameters of node x in each session. */
    function ParamsOf(x: Pid): Id -> Params {
      (id: Id) => if Knows(id) then Of(id).At(x) else Params(x, 0, 1)
    }
  }

  /** The objects of a node decide by the thresholds of this network: a broadcaster that knows the chains of
      the setup has, in every session, the parameters of its node here. */
  lemma ObjectParameters(u: Setup, b: ReliableBroadcast, id: Id)
    requires u.Knows(id) && id.chain in b.chains && b.chains[id.chain] == u.Of(id).parties
    ensures b.Parameters(id) == u.Of(id).At(b.self) == u.ParamsOf(b.self)(id)
  {
  }

  ghost function Begin(u: Setup): World {
    map x | x in u.nodes :: EMPTY
  }

  /** A SEND may come from any client; a vote comes from a faulty node of the chain, or was sent in this
      session by a correct one. */
  ghost predicate Offered(u: Setup, w: World, id: Id, m: Msg)
    requires u.Knows(id)
  {
    || m.kind == Send || m.node in u.Of(id).faulty
    || (m.node in u.Of(id).Correct() && m.node in w && (id, m) in w[m.node].sent)
  }

  /** A node takes in messages of the chains it belongs to. */
  ghost predicate CanMove(u: Setup, w: World, x: Pid, v: Move) {
    && x in w && Possible(w[x], v)
    && (v.Take? ==> u.Knows(v.id) && x in u.Of(v.id).parties && Offered(u, w, v.id, v.msg))
  }

  ghost function MoveOn(u: Setup, w: World, x: Pid, v: Move): World
    requires CanMove(u, w, x, v)
  {
    w[x := Moved(u.ParamsOf(x), w[x], v)]
  }

  ghost predicate Advances(u: Setup, w: World, w': World) {
    exists x, v :: CanMove(u, w, x, v) && w' == MoveOn(u, w, x, v)
  }

  ghost predicate IsWorldRun(u: Setup, run: seq<World>) {
    run != [] && run[0] == Begin(u) && forall i :: 0 <= i < |run| - 1 ==> Advances(u, run[i], run[i + 1])
  }

  ghost predicate AllPooled(u: Setup, w: World) {
    w.Keys == u.nodes && forall x :: x in w ==> PoolOk(w[x])
  }

  lemma {:induction false} WorldPooled(u: Setup, run: seq<World>)
    requires IsWorldRun(u, run)
    ensures AllPooled(u, run[|run| - 1])
  {
    hide PoolOk, Moved, Possible;
    if |run| == 1 {
      EmptyPooled();
    } else {
      var w := run[|run| - 2];
      WorldPooled(u, run[..|run| - 1]);
      assert Advances(u, w, run[|run| - 1]);
      var x, v :| CanMove(u, w, x, v) && run[|run| - 1] == MoveOn(u, w, x, v);
      PoolKept(u.ParamsOf(x), w[x], v);
    }
  }

  lemma EmptyPooled()
    ensures PoolOk(EMPTY)
  {
  }

  /** What the world shows of session id is the state s of the single-session network. */
  ghost predicate Projects(u: Setup, w: World, id: Id, s: System)
    requires u.Knows(id)
  {
    s.Keys == u.Of(id).Correct() && forall x :: x in s ==> x in w && Shows(w[x], id, s[x])
  }

  ghost predicate StuttersOn(g: Config, s: System, s': System) {
    s' == s || Next(g, s, s')
  }

  lemma BeginProjects(u: Setup, id: Id)
    requires u.Valid() && u.Knows(id)
    ensures Projects(u, Begin(u), id, Start(u.Of(id)))
  {
    hide Shows;
    EmptyShows(id);
  }

  /** A move that session id does not show leaves its state as it was. */
  lemma HiddenProjects(u: Setup, w: World, x: Pid, v: Move, id: Id, s: System)
    requires u.Valid() && u.Knows(id) && AllPooled(u, w) && CanMove(u, w, x, v) && Projects(u, w, id, s)
    requires x in s ==> Subject(w[x], v) != id || !Visible(w[x], v)
    ensures Projects(u, MoveOn(u, w, x, v), id, s)
  {
    hide Shows, Moved, Possible, PoolOk, Subject, Visible;
    if x in s {
      Isolation(u.ParamsOf(x), w[x], v, id, s[x]);
    }
  }

  lemma OfferedAvailable(u: Setup, w: World, id: Id, s: System, m: Msg)
    requires u.Valid() && u.Knows(id) && Projects(u, w, id, s) && Offered(u, w, id, m)
    ensures Available(u.Of(id), s, m)
  {
    if m.node in s {
      assert Shows(w[m.node], id, s[m.node]);
    }
  }

  /** The conditions of a shown move, as the session's network sees them. */
  lemma ShownReady(u: Setup, w: World, x: Pid, v: Move, id: Id, s: System)
    requires u.Valid() && u.Knows(id) && CanMove(u, w, x, v) && Projects(u, w, id, s)
    requires x in s && Subject(w[x], v) == id && NodesOk(u.Of(id), s)
    ensures Shows(w[x], id, s[x])
    ensures v.Take? ==> Available(u.Of(id), s, v.msg)
    ensures v.Flush? ==> QueueOf(w[x], id)[v.index] in s[x].threads
  {
    hide Inv, Shows, Available, Offered;
    assert Shows(w[x], id, s[x]) && Inv(u.Of(id).At(x), Deferred, s[x]);
    if v.Flush? {
      QueueThreads(u.Of(id).At(x), w[x], id, s[x], v.index);
    } else if v.Take? {
      OfferedAvailable(u, w, id, s, v.msg);
    }
  }

  lemma QueueThreads(c: Params, m: Machine, id: Id, s: Node, i: nat)
    requires Shows(m, id, s) && Inv(c, Deferred, s) && i < |QueueOf(m, id)|
    ensures QueueOf(m, id)[i] in s.threads
  {
    assert SentOk(c, Deferred, s);
  }

  lemma ShownCan(g: Config, s: System, x: Pid, m: Machine, v: Move)
    requires Possible(m, v) && x in s && Enabled(s[x], Amounts(m, v)) && (v.Take? ==> Available(g, s, v.msg))
    ensures CanAct(g, s, x, Amounts(m, v))
  {
    hide Available, Enabled;
  }

  lemma SwapProjects(u: Setup, w: World, id: Id, s: System, x: Pid, m: Machine, n: Node)
    requires u.Knows(id) && Projects(u, w, id, s) && x in s && Shows(m, id, n)
    ensures Projects(u, w[x := m], id, s[x := n])
  {
    hide Shows;
  }

  /** A move that session id shows is an action of its network. */
  lemma ShownProjects(u: Setup, w: World, x: Pid, v: Move, id: Id, s: System) returns (s': System)
    requires u.Valid() && u.Knows(id) && AllPooled(u, w) && CanMove(u, w, x, v) && Projects(u, w, id, s)
    requires x in s && Subject(w[x], v) == id && Visible(w[x], v) && NodesOk(u.Of(id), s)
    ensures Projects(u, MoveOn(u, w, x, v), id, s') && Next(u.Of(id), s, s')
    ensures CanAct(u.Of(id), s, x, Amounts(w[x], v)) && s' == Act(u.Of(id), s, x, Amounts(w[x], v))
  {
    ShownReady(u, w, x, v, id, s);
    var g, a, m, n := u.Of(id), Amounts(w[x], v), w[x], s[x];
    assert u.ParamsOf(x)(id) == g.At(x) && g.mode == Deferred && PoolOk(m) && Possible(m, v);
    hide Shows, Moved, Possible, PoolOk, Subject, Visible, Amounts, Projects, AllPooled;
    hide Available, NodesOk, Apply, Enabled, CanAct;
    Refines(u.ParamsOf(x), m, v, id, n);
    ShownCan(g, s, x, m, v);
    s' := s[x := Apply(g.At(x), g.mode, n, a)];
    SwapProjects(u, w, id, s, x, Moved(u.ParamsOf(x), m, v), s'[x]);
    NextBy(g, s, x, a);
  }

  lemma NextBy(g: Config, s: System, x: Pid, a: Action)
    requires CanAct(g, s, x, a)
    ensures Next(g, s, Act(g, s, x, a))
  {
  }

  /** One move of the world is one action, or none, of each session's network. */
  lemma MoveProjects(u: Setup, w: World, x: Pid, v: Move, id: Id, s: System) returns (s': System)
    requires u.Valid() && u.Knows(id) && AllPooled(u, w) && CanMove(u, w, x, v) && Projects(u, w, id, s)
    requires NodesOk(u.Of(id), s)
    ensures Projects(u, MoveOn(u, w, x, v), id, s') && StuttersOn(u.Of(id), s, s')
  {
    hide Projects, AllPooled, NodesOk, Subject, Visible, Next, Moved;
    if x in s && Subject(w[x], v) == id && Visible(w[x], v) {
      s' := ShownProjects(u, w, x, v, id, s);
    } else {
      s' := s;
      HiddenProjects(u, w, x, v, id, s);
    }
  }

  ghost predicate IsStutteringRun(g: Config, run: seq<System>) {
    run != [] && run[0] == Start(g) && forall i :: 0 <= i < |run| - 1 ==> StuttersOn(g, run[i], run[i + 1])
  }

  lemma {:induction false} StutteringReaches(g: Config, run: seq<System>)
    requires IsStutteringRun(g, run)
    ensures Reachable(g, run[|run| - 1])
  {
    hide Reachable, Act, CanAct;
    if |run| == 1 {
      StartReachable(g);
    } else {
      var s, s' := run[|run| - 2], run[|run| - 1];
      StutteringReaches(g, run[..|run| - 1]);
      assert StuttersOn(g, s, s');
      if s' != s {
        var x, a :| CanAct(g, s, x, a) && s' == Act(g, s, x, a);
        Extend(g, s, x, a);
      }
    }
  }

  lemma AdvanceProjects(u: Setup, w: World, w': World, id: Id, s: System) returns (s': System)
    requires u.Valid() && u.Knows(id) && AllPooled(u, w) && Advances(u, w, w')
    requires Projects(u, w, id, s) && Reachable(u.Of(id), s)
    ensures Projects(u, w', id, s') && StuttersOn(u.Of(id), s, s')
  {
    hide Projects, StuttersOn, AllPooled, CanMove, MoveOn, Reachable;
    AlwaysConsistent(u.Of(id), s);
    var x, v :| CanMove(u, w, x, v) && w' == MoveOn(u, w, x, v);
    s' := MoveProjects(u, w, x, v, id, s);
  }

  /** Projection: what a run of many-session nodes shows of one session is, state for state, a run of the
      single-session network. */
  lemma {:induction false} RunProjects(u: Setup, run: seq<World>, id: Id) returns (systems: seq<System>)
    requires u.Valid() && u.Knows(id) && IsWorldRun(u, run)
    ensures |systems| == |run| && IsStutteringRun(u.Of(id), systems)
    ensures forall i :: 0 <= i < |run| ==> Projects(u, run[i], id, systems[i])
  {
    hide Projects, StuttersOn, AllPooled, Advances, Reachable;
    if |run| == 1 {
      BeginProjects(u, id);
      systems := [Start(u.Of(id))];
    } else {
      var prefix := run[..|run| - 1];
      var before := RunProjects(u, prefix, id);
      assert Projects(u, prefix[|prefix| - 1], id, before[|prefix| - 1]);
      WorldPooled(u, prefix);
      StutteringReaches(u.Of(id), before);
      var s' := AdvanceProjects(u, run[|run| - 2], run[|run| - 1], id, before[|before| - 1]);
      systems := before + [s'];
    }
  }

  /** So what the last state of a run shows of a session is reachable in that session's network. */
  lemma WorldReaches(u: Setup, run: seq<World>, id: Id) returns (s: System)
    requires u.Valid() && u.Knows(id) && IsWorldRun(u, run)
    ensures u.Of(id).Valid() && Reachable(u.Of(id), s) && Projects(u, run[|run| - 1], id, s)
  {
    hide IsStutteringRun, Reachable, Projects, IsWorldRun;
    assert run != [] by {
      WorldRunStarts(u, run);
    }
    var systems := RunProjects(u, run, id);
    s := systems[|run| - 1];
    StutteringReaches(u.Of(id), systems);
  }

  lemma WorldRunStarts(u: Setup, run: seq<World>)
    requires IsWorldRun(u, run)
    ensures run != []
  {
  }

  /** Node m has taken in a SEND of d in session id. */
  ghost predicate Took(m: Machine, id: Id, d: Data) {
    exists p :: (id, Msg(Send, d, p)) in m.taken
  }

  lemma TookShows(m: Machine, id: Id, s: Node, d: Data)
    requires Shows(m, id, s)
    ensures Took(m, id, d) <==> TookSend(s, d)
  {
    if Took(m, id, d) {
      var p :| (id, Msg(Send, d, p)) in m.taken;
      assert Msg(Send, d, p) in s.handled;
    }
    if TookSend(s, d) {
      var p :| Msg(Send, d, p) in s.handled;
      assert (id, Msg(Send, d, p)) in m.taken;
    }
  }

  function DeliveredIn(m: Machine, id: Id): seq<Data> {
    LogOf(m.log, id)
  }

  /** What of a session is visible at a node, as its network state has it. */
  lemma Seen(u: Setup, w: World, id: Id, s: System, x: Pid)
    requires u.Knows(id) && Projects(u, w, id, s) && x in u.Of(id).Correct()
    ensures x in w && x in s && DeliveredIn(w[x], id) == s[x].log
    ensures forall d :: Took(w[x], id, d) <==> TookSend(s[x], d)
  {
    hide Took, TookSend;
    assert Shows(w[x], id, s[x]);
    forall d {
      TookShows(w[x], id, s[x], d);
    }
  }

  /** The client hypothesis for one session: no correct node of the chain is handed SENDs of two payloads. */
  ghost predicate OnePayloadIn(u: Setup, w: World, id: Id)
    requires u.Knows(id)
  {
    forall x, d, e :: x in u.Of(id).Correct() && x in w && Took(w[x], id, d) && Took(w[x], id, e) ==> d == e
  }

  ghost predicate AgreeIn(u: Setup, w: World, id: Id)
    requires u.Knows(id)
  {
    forall x, y, d, e :: x in u.Of(id).Correct() && y in u.Of(id).Correct() && x in w && y in w ==>
      d in DeliveredIn(w[x], id) && e in DeliveredIn(w[y], id) ==> d == e
  }

  ghost predicate AllDeliveredIn(u: Setup, w: World, id: Id, d: Data)
    requires u.Knows(id)
  {
    forall x :: x in u.Of(id).Correct() ==> x in w && DeliveredIn(w[x], id) == [d]
  }

  lemma OnePayloadShows(u: Setup, w: World, id: Id, s: System)
    requires u.Knows(id) && Projects(u, w, id, s) && OnePayloadIn(u, w, id)
    ensures OnePayload(s)
  {
    hide Took, TookSend;
    assert s.Keys == u.Of(id).Correct();
    forall x | x in s
      ensures x in w && forall d :: Took(w[x], id, d) <==> TookSend(s[x], d)
    {
      Seen(u, w, id, s, x);
    }
  }

  lemma AgreeShows(u: Setup, w: World, id: Id, s: System)
    requires u.Knows(id) && Projects(u, w, id, s) && Agree(s)
    ensures AgreeIn(u, w, id)
  {
    hide DeliveredIn;
    forall x | x in u.Of(id).Correct()
      ensures x in w && x in s && DeliveredIn(w[x], id) == s[x].log
    {
      Seen(u, w, id, s, x);
    }
  }

  /** Agreement, per (chain, client, nonce), whatever else the nodes do in other sessions. */
  lemma AgreementPerSession(u: Setup, run: seq<World>, id: Id)
    requires u.Valid() && u.Knows(id) && IsWorldRun(u, run) && OnePayloadIn(u, run[|run| - 1], id)
    ensures AgreeIn(u, run[|run| - 1], id)
  {
    hide Projects, Reachable, OnePayloadIn, OnePayload, AgreeIn, Agree;
    var s := WorldReaches(u, run, id);
    OnePayloadShows(u, run[|run| - 1], id, s);
    Agreement(u.Of(id), s);
    AgreeShows(u, run[|run| - 1], id, s);
  }

  /** The same for any client, when n + f <= 4t + 1 on the chain of the session. */
  lemma AgreementPerSessionForAnyClient(u: Setup, run: seq<World>, id: Id)
    requires u.Valid() && u.Knows(id) && IsWorldRun(u, run)
    requires var g := u.Of(id); |g.parties| + |g.faulty| <= 4 * g.T() + 1
    ensures AgreeIn(u, run[|run| - 1], id)
  {
    hide Projects, Reachable, AgreeIn, Agree;
    var s := WorldReaches(u, run, id);
    AgreementForAnyClient(u.Of(id), s);
    AgreeShows(u, run[|run| - 1], id, s);
  }

  /** The correct nodes of the chain that have taken in a SEND of d in the session. */
  ghost function TakersIn(u: Setup, w: World, id: Id, d: Data): set<Pid>
    requires u.Knows(id)
  {
    set x | x in u.Of(id).Correct() && x in w && Took(w[x], id, d)
  }

  /** No creation, per session. */
  lemma NoCreationPerSession(u: Setup, run: seq<World>, id: Id, x: Pid, d: Data)
    requires u.Valid() && u.Knows(id) && IsWorldRun(u, run) && x in u.Of(id).Correct()
    requires x in run[|run| - 1] && d in DeliveredIn(run[|run| - 1][x], id)
    ensures 2 * |TakersIn(u, run[|run| - 1], id, d)| > |u.Of(id).Correct()|
  {
    hide Reachable, Projects, Took, TookSend, DeliveredIn;
    var w := run[|run| - 1];
    var s := WorldReaches(u, run, id);
    Seen(u, w, id, s, x);
    NoCreation(u.Of(id), s, x, d);
    forall y
      ensures y in TakersIn(u, w, id, d) <==> y in Takers(s, d)
    {
      TakerShows(u, w, id, s, y, d);
    }
    assert TakersIn(u, w, id, d) == Takers(s, d);
  }

  lemma TakerShows(u: Setup, w: World, id: Id, s: System, y: Pid, d: Data)
    requires u.Knows(id) && Projects(u, w, id, s)
    ensures y in TakersIn(u, w, id, d) <==> y in Takers(s, d)
  {
    hide Took, TookSend;
    assert s.Keys == u.Of(id).Correct();
    if y in s {
      Seen(u, w, id, s, y);
    }
  }

  /** A session is quiet: its handlers have returned, its buffers are encoded, and what correct nodes of the
      chain sent in it the others have taken in. Other sessions may be anywhere. */
  ghost predicate QuietIn(u: Setup, w: World, id: Id)
    requires u.Knows(id)
  {
    && (forall x, t :: x in u.Of(id).Correct() && x in w && t in w[x].handlers && w[x].handlers[t].id == id ==>
          w[x].handlers[t].th.pc == Done)
    && (forall x :: x in u.Of(id).Correct() && x in w ==> QueueOf(w[x], id) == [])
    && (forall x, p, m :: x in u.Of(id).Correct() && p in u.Of(id).Correct() && x in w && p in w && x != p ==>
          (id, m) in w[p].sent ==> (id, m) in w[x].taken)
  }

  lemma QuietShows(u: Setup, w: World, id: Id, s: System)
    requires u.Knows(id) && Projects(u, w, id, s) && QuietIn(u, w, id)
    ensures Quiescent(u.Of(id), s)
  {
    hide SessOf, LogOf;
    forall x | x in s
      ensures Idle(s[x])
    {
      assert Shows(w[x], id, s[x]);
      forall t | t in s[x].threads
        ensures s[x].threads[t].pc == Done
      {
        assert t in ThreadsOf(w[x], id);
      }
    }
    forall x, p, m | x in s && p in s && x != p && m in s[p].sent
      ensures m in s[x].handled
    {
      assert Shows(w[x], id, s[x]) && Shows(w[p], id, s[p]);
      assert (id, m) in w[p].sent;
    }
  }

  lemma DeliveredShows(u: Setup, w: World, id: Id, s: System, d: Data)
    requires u.Knows(id) && Projects(u, w, id, s) && AllDelivered(s, d)
    ensures AllDeliveredIn(u, w, id, d)
  {
    hide DeliveredIn;
    forall x | x in u.Of(id).Correct()
      ensures x in w && DeliveredIn(w[x], id) == [d]
    {
      Seen(u, w, id, s, x);
    }
  }

  /** Totality, per session. */
  lemma TotalityPerSession(u: Setup, run: seq<World>, id: Id, x: Pid, d: Data)
    requires u.Valid() && u.Knows(id) && IsWorldRun(u, run)
    requires OnePayloadIn(u, run[|run| - 1], id) && QuietIn(u, run[|run| - 1], id)
    requires x in u.Of(id).Correct() && x in run[|run| - 1] && d in DeliveredIn(run[|run| - 1][x], id)
    ensures AllDeliveredIn(u, run[|run| - 1], id, d)
  {
    hide Projects, OnePayloadIn, AllDeliveredIn, QuietIn, Took;
    hide Reachable, OnePayload, AllDelivered, Quiescent, TookSend;
    var w := run[|run| - 1];
    var s := WorldReaches(u, run, id);
    OnePayloadShows(u, w, id, s);
    QuietShows(u, w, id, s);
    Seen(u, w, id, s, x);
    Totality(u.Of(id), s, x, d);
    DeliveredShows(u, w, id, s, d);
  }

  /** Every correct node of the chain took in a SEND of d in the session, and of nothing else. */
  ghost predicate AllTookIn(u: Setup, w: World, id: Id, d: Data)
    requires u.Knows(id)
  {
    forall x :: x in u.Of(id).Correct() && x in w ==>
      Took(w[x], id, d) && forall e :: Took(w[x], id, e) ==> e == d
  }

  lemma AllTookShows(u: Setup, w: World, id: Id, s: System, d: Data)
    requires u.Knows(id) && Projects(u, w, id, s) && AllTookIn(u, w, id, d)
    ensures AllTook(s, d)
  {
    hide Took, TookSend;
    forall x | x in s
      ensures TookSend(s[x], d) && forall e :: TookSend(s[x], e) ==> e == d
    {
      Seen(u, w, id, s, x);
    }
  }

  /** Validity, per session, for the code's late encoding. */
  lemma ValidityPerSession(u: Setup, run: seq<World>, id: Id, d: Data)
    requires u.Valid() && u.Knows(id) && IsWorldRun(u, run)
    requires AllTookIn(u, run[|run| - 1], id, d) && QuietIn(u, run[|run| - 1], id)
    requires var g := u.Of(id); |g.Correct()| >= g.Q() + g.T()
    ensures AllDeliveredIn(u, run[|run| - 1], id, d)
  {
    hide Projects, Reachable, AllTookIn, AllTook, AllDeliveredIn, AllDelivered, QuietIn, Quiescent;
    var w := run[|run| - 1];
    var s := WorldReaches(u, run, id);
    AllTookShows(u, w, id, s, d);
    QuietShows(u, w, id, s);
    Validity(u.Of(id), s, d);
    DeliveredShows(u, w, id, s, d);
  }
}
