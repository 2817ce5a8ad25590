/** The nodes of one chain running one broadcast session over an asynchronous network. Correct nodes
    run the interleaved handlers of module Interleaving; faulty ones may send anything under their
    own ids; the network may delay, reorder and duplicate what was sent; clients may send anything. */
module Network {
  import opened Sets
  import opened Thresholds
  import opened SessionStep
  import opened Interleaving
  import opened ThreadInvariants

  datatype Config = Config(parties: set<Pid>, faulty: set<Pid>, mode: Mode)
  {
    ghost predicate Valid() {
      && 1 <= |parties| <= MAX_NODES
      && faulty <= parties && |faulty| <= T()
    }
    function Correct(): set<Pid> { parties - faulty }
    function T(): nat { GetT(|parties|) }
    function Q(): nat { GetEchoTarget(|parties|, T()) }
    function At(x: Pid): Params { Params(x, T(), Q()) }
  }

  type System = map<Pid, Node>

  ghost function Start(g: Config): System {
    map x | x in g.Correct() :: FRESH
  }

  /** A SEND may come from any client; a vote comes from a faulty node, or was sent by a correct one. */
  ghost predicate Available(g: Config, s: System, m: Msg) {
    m.kind == Send || m.node in g.faulty || (m.node in s && m in s[m.node].sent)
  }

  ghost predicate CanAct(g: Config, s: System, x: Pid, a: Action) {
    x in s && Enabled(s[x], a) && (a.Receive? ==> Available(g, s, a.msg))
  }

  ghost function Act(g: Config, s: System, x: Pid, a: Action): System
    requires CanAct(g, s, x, a)
  {
    s[x := Apply(g.At(x), g.mode, s[x], a)]
  }

  ghost predicate Next(g: Config, s: System, s': System) {
    exists x, a :: CanAct(g, s, x, a) && s' == Act(g, s, x, a)
  }

  ghost predicate IsRun(g: Config, run: seq<System>) {
    run != [] && run[0] == Start(g) && forall i :: 0 <= i < |run| - 1 ==> Next(g, run[i], run[i + 1])
  }

  ghost predicate Reachable(g: Config, s: System) {
    exists run :: IsRun(g, run) && run[|run| - 1] == s
  }

  /** Everything sent between correct nodes has been taken in, and all nodes are at rest. */
  ghost predicate Quiescent(g: Config, s: System) {
    && (forall x :: x in s ==> Idle(s[x]))
    && (forall x, p, m :: x in s && p in s && x != p && m in s[p].sent ==> m in s[x].handled)
  }

  ghost predicate NodesOk(g: Config, s: System) {
    s.Keys == g.Correct() && forall x :: x in s ==> Inv(g.At(x), g.mode, s[x])
  }

  /** Votes carrying a correct node's id were sent by that node. */
  ghost predicate Authentic(g: Config, s: System) {
    forall x, m :: x in s && m in s[x].handled ==> Available(g, s, m)
  }

  /** A correct node whose echo set for d has reached the target. */
  ghost predicate Backed(g: Config, s: System, d: Data) {
    exists y :: y in s && |Get(s[y].sess.echo, d)| >= g.Q()
  }

  ghost predicate ProvenanceOk(g: Config, s: System) {
    forall x :: x in s && s[x].ready.Won? ==> Backed(g, s, s[x].ready.data)
  }

  ghost predicate Consistent(g: Config, s: System) {
    NodesOk(g, s) && Authentic(g, s) && ProvenanceOk(g, s)
  }

  /** An echo vote under a correct node's id means that node took in the SEND. */
  lemma EchoOrigin(g: Config, s: System, x: Pid, d: Data, p: Pid)
    requires g.Valid() && NodesOk(g, s) && Authentic(g, s) && x in s && p in Get(s[x].sess.echo, d)
    ensures p in g.parties
    ensures p in s ==> TookSend(s[p], d)
  {
    if p != x || !Own(g.At(x), s[x], Msg(Echo, d, p)) {
      assert Available(g, s, Msg(Echo, d, p));
    }
  }

  /** A ready vote under a correct node's id means that node won its READY flag for the payload. */
  lemma ReadyOrigin(g: Config, s: System, x: Pid, d: Data, p: Pid)
    requires g.Valid() && NodesOk(g, s) && Authentic(g, s) && x in s && p in Get(s[x].sess.ready, d)
    ensures p in g.parties
    ensures p in s ==> s[p].ready.Won? && s[p].ready.data == d
  {
    if p != x || !Own(g.At(x), s[x], Msg(Ready, d, p)) {
      assert Available(g, s, Msg(Ready, d, p));
    }
  }

  /** More ready votes than faulty nodes include one of a correct node. */
  lemma CorrectVoter(g: Config, s: System, x: Pid, d: Data) returns (p: Pid)
    requires g.Valid() && NodesOk(g, s) && Authentic(g, s) && x in s && |Get(s[x].sess.ready, d)| > g.T()
    ensures p in s && p in Get(s[x].sess.ready, d) && s[p].ready.Won? && s[p].ready.data == d
  {
    p := Outside(Get(s[x].sess.ready, d), g.faulty);
    ReadyOrigin(g, s, x, d, p);
  }

  lemma ActGrows(g: Config, s: System, x: Pid, a: Action)
    requires NodesOk(g, s) && CanAct(g, s, x, a)
    ensures Grows(s[x], Act(g, s, x, a)[x])
  {
    if a.Run? {
      RunGrows(g.At(x), g.mode, s[x], a.tid);
    }
  }

  lemma AvailableKept(g: Config, s: System, x: Pid, a: Action, m: Msg)
    requires NodesOk(g, s) && CanAct(g, s, x, a) && Available(g, s, m)
    ensures Available(g, Act(g, s, x, a), m)
  {
    ActGrows(g, s, x, a);
  }

  lemma Intake(c: Params, mode: Mode, s: Node, a: Action)
    requires Enabled(s, a)
    ensures Apply(c, mode, s, a).handled == if a.Receive? then s.handled + {a.msg} else s.handled
  {
  }

  lemma AuthenticKept(g: Config, s: System, x: Pid, a: Action)
    requires NodesOk(g, s) && Authentic(g, s) && CanAct(g, s, x, a)
    ensures Authentic(g, Act(g, s, x, a))
  {
    hide Apply, Inv, Enabled;
    var s' := Act(g, s, x, a);
    Intake(g.At(x), g.mode, s[x], a);
    forall y, m | y in s' && m in s'[y].handled
      ensures Available(g, s', m)
    {
      assert Available(g, s, m);
      AvailableKept(g, s, x, a, m);
    }
  }

  lemma BackedKept(g: Config, s: System, x: Pid, a: Action, d: Data)
    requires NodesOk(g, s) && CanAct(g, s, x, a) && Backed(g, s, d)
    ensures Backed(g, Act(g, s, x, a), d)
  {
    hide Apply, Get, Inv;
    ActGrows(g, s, x, a);
    var s' := Act(g, s, x, a);
    var y :| y in s && |Get(s[y].sess.echo, d)| >= g.Q();
    SubsetCard(Get(s[y].sess.echo, d), Get(s'[y].sess.echo, d));
    assert y in s' && |Get(s'[y].sess.echo, d)| >= g.Q();
  }

  /** However long the chain of READYs, it starts at an echo quorum: a node that goes by t + 1 READYs
      goes by a correct node that won its flag earlier. */
  lemma ProvenanceKept(g: Config, s: System, x: Pid, a: Action)
    requires g.Valid() && Consistent(g, s) && CanAct(g, s, x, a)
    ensures ProvenanceOk(g, Act(g, s, x, a))
  {
    var s' := Act(g, s, x, a);
    ActGrows(g, s, x, a);
    forall y | y in s' && s'[y].ready.Won?
      ensures Backed(g, s', s'[y].ready.data)
    {
      var d := s'[y].ready.data;
      if s[y].ready.Won? {
        BackedKept(g, s, x, a, d);
      } else {
        ReadyCause(g.At(x), g.mode, s[x], a.tid);
        if |Get(s[x].sess.echo, d)| >= g.Q() {
          assert Backed(g, s, d);
        } else {
          var p := CorrectVoter(g, s, x, d);
        }
        BackedKept(g, s, x, a, d);
      }
    }
  }

  lemma StartConsistent(g: Config)
    requires g.Valid()
    ensures Consistent(g, Start(g))
  {
    ThresholdsHold(|g.parties|);
    forall x | x in Start(g)
      ensures Inv(g.At(x), g.mode, FRESH)
    {
      FreshOk(g.At(x), g.mode);
    }
  }

  lemma ActConsistent(g: Config, s: System, x: Pid, a: Action)
    requires g.Valid() && Consistent(g, s) && CanAct(g, s, x, a)
    ensures Consistent(g, Act(g, s, x, a))
  {
    InvKept(g.At(x), g.mode, s[x], a);
    AuthenticKept(g, s, x, a);
    ProvenanceKept(g, s, x, a);
  }

  lemma {:induction false} RunConsistent(g: Config, run: seq<System>)
    requires g.Valid() && IsRun(g, run)
    ensures Consistent(g, run[|run| - 1])
  {
    if |run| == 1 {
      StartConsistent(g);
    } else {
      var prefix := run[..|run| - 1];
      RunConsistent(g, prefix);
      var s := run[|run| - 2];
      assert Next(g, s, run[|run| - 1]);
      var x, a :| CanAct(g, s, x, a) && run[|run| - 1] == Act(g, s, x, a);
      ActConsistent(g, s, x, a);
    }
  }

  /** What every reachable state satisfies. */
  lemma AlwaysConsistent(g: Config, s: System)
    requires g.Valid() && Reachable(g, s)
    ensures Consistent(g, s)
  {
    var run :| IsRun(g, run) && run[|run| - 1] == s;
    RunConsistent(g, run);
  }
}
