/** The delivery checker on any trace whatever: names sent again, deliveries by nodes nobody listens to, and any
    number of nodes. Every send opens a round of its name, which the next send of that name closes. */
module Rounds {
  import opened Sets
  import opened Checker

  /** Message m has not been sent again since index i. */
  ghost predicate Current(trace: seq<Event>, c: Chain, m: string, i: nat) {
    forall k :: i < k < |trace| ==> trace[k] != Sent(c, m)
  }

  /** The nodes that delivered m after index i and before it was sent again. */
  ghost function SeenIn(trace: seq<Event>, c: Chain, m: string, i: nat): set<nat> {
    if |trace| <= i + 1 then {}
    else
      var prefix, e := trace[..|trace| - 1], trace[|trace| - 1];
      SeenIn(prefix, c, m, i) +
        if e.Delivered? && e.chain == c && e.message == m && Current(prefix, c, m, i) then {e.node} else {}
  }

  ghost function Rounds(trace: seq<Event>, c: Chain): set<nat> {
    set i: nat | i < |trace| && trace[i].Sent? && trace[i].chain == c
  }

  /** The round opened at i has been delivered by n nodes. */
  ghost predicate Complete(n: nat, trace: seq<Event>, c: Chain, i: nat) {
    n >= 1 && i < |trace| && |SeenIn(trace, c, trace[i].message, i)| >= n
  }

  ghost function Completed(n: nat, trace: seq<Event>, c: Chain): set<nat> {
    set i | i in Rounds(trace, c) && Complete(n, trace, c, i)
  }

  ghost predicate IsOpen(n: nat, trace: seq<Event>, c: Chain, i: nat) {
    i < |trace| && Current(trace, c, trace[i].message, i) && !Complete(n, trace, c, i)
  }

  /** The last rounds of their names, where incomplete. */
  ghost function Open(n: nat, trace: seq<Event>, c: Chain): set<nat> {
    set i | i in Rounds(trace, c) && IsOpen(n, trace, c, i)
  }

  /** The open rounds in which some node has delivered. */
  ghost function Touched(n: nat, trace: seq<Event>, c: Chain): set<nat> {
    set i | i in Open(n, trace, c) && SeenIn(trace, c, trace[i].message, i) != {}
  }

  /** All other rounds: nobody has delivered yet, or the name was sent again before all had. */
  ghost function Missed(n: nat, trace: seq<Event>, c: Chain): set<nat> {
    Rounds(trace, c) - Completed(n, trace, c) - Touched(n, trace, c)
  }

  /** The book tells the rounds. */
  ghost predicate Keeps(n: nat, trace: seq<Event>, c: Chain, b: Book) {
    && b.total == |Rounds(trace, c)| && b.good == |Completed(n, trace, c)|
    && (forall i :: i in Open(n, trace, c) ==>
        trace[i].message in b.pending && b.pending[trace[i].message] == SeenIn(trace, c, trace[i].message, i))
    && (forall m :: m in b.pending ==> exists i :: i in Open(n, trace, c) && trace[i].message == m)
  }

  lemma CurrentOf(trace: seq<Event>, e: Event, c: Chain, m: string, i: nat)
    requires i < |trace|
    ensures Current(trace + [e], c, m, i) <==> Current(trace, c, m, i) && e != Sent(c, m)
  {
    var longer := trace + [e];
    assert longer[|trace|] == e;
    assert forall k :: 0 <= k < |trace| ==> longer[k] == trace[k];
  }

  lemma SeenInOf(trace: seq<Event>, e: Event, c: Chain, m: string, i: nat)
    requires i < |trace|
    ensures SeenIn(trace + [e], c, m, i) == SeenIn(trace, c, m, i) +
      if e.Delivered? && e.chain == c && e.message == m && Current(trace, c, m, i) then {e.node} else {}
  {
    assert (trace + [e])[..|trace|] == trace;
  }

  lemma RoundsOf(trace: seq<Event>, e: Event, c: Chain)
    ensures Rounds(trace + [e], c) == Rounds(trace, c) + if e.Sent? && e.chain == c then {|trace|} else {}
    ensures |trace| !in Rounds(trace, c)
    ensures forall i :: i in Rounds(trace, c) ==> i < |trace| && (trace + [e])[i] == trace[i]
  {
  }

  /** An event of another chain, or a delivery of a name without open round, tells nothing new. */
  lemma QuietKeeps(n: nat, trace: seq<Event>, e: Event, c: Chain, b: Book)
    requires Keeps(n, trace, c, b)
    requires e.chain != c || (e.Delivered? && (e.message !in b.pending || e.node in b.pending[e.message]))
    ensures Keeps(n, trace + [e], c, b)
  {
    hide SeenIn, Current;
    var longer := trace + [e];
    RoundsOf(trace, e, c);
    forall i | i in Rounds(trace, c)
      ensures Complete(n, longer, c, i) <==> Complete(n, trace, c, i)
      ensures Current(longer, c, trace[i].message, i) <==> Current(trace, c, trace[i].message, i)
      ensures i in Open(n, trace, c) ==>
        SeenIn(longer, c, trace[i].message, i) == SeenIn(trace, c, trace[i].message, i)
    {
      var m := trace[i].message;
      CurrentOf(trace, e, c, m, i);
      SeenInOf(trace, e, c, m, i);
      SubsetCard(SeenIn(trace, c, m, i), SeenIn(longer, c, m, i));
    }
    assert Completed(n, longer, c) == Completed(n, trace, c);
    assert Open(n, longer, c) == Open(n, trace, c);
  }

  lemma SendRound(n: nat, trace: seq<Event>, c: Chain, m: string, i: nat)
    requires i in Rounds(trace, c)
    ensures var longer := trace + [Sent(c, m)];
      && longer[i] == trace[i] && SeenIn(longer, c, trace[i].message, i) == SeenIn(trace, c, trace[i].message, i)
      && (Complete(n, longer, c, i) <==> Complete(n, trace, c, i))
      && (IsOpen(n, longer, c, i) <==> IsOpen(n, trace, c, i) && trace[i].message != m)
  {
    hide SeenIn, Current;
    CurrentOf(trace, Sent(c, m), c, trace[i].message, i);
    SeenInOf(trace, Sent(c, m), c, trace[i].message, i);
  }

  lemma NewRound(n: nat, trace: seq<Event>, c: Chain, m: string)
    ensures var longer, k := trace + [Sent(c, m)], |trace|;
      && longer[k] == Sent(c, m) && SeenIn(longer, c, m, k) == {}
      && !Complete(n, longer, c, k) && IsOpen(n, longer, c, k)
  {
  }

  /** A send opens a round and closes the one before of its name. */
  lemma SendOpens(n: nat, trace: seq<Event>, c: Chain, m: string)
    ensures var longer, k := trace + [Sent(c, m)], |trace|;
      && Rounds(longer, c) == Rounds(trace, c) + {k} && k !in Rounds(trace, c)
      && Completed(n, longer, c) == Completed(n, trace, c)
      && Open(n, longer, c) == (set i | i in Open(n, trace, c) && trace[i].message != m) + {k}
  {
    hide SeenIn, Complete, IsOpen;
    var e := Sent(c, m);
    RoundsOf(trace, e, c);
    hide Rounds;
    NewRound(n, trace, c, m);
    forall i | i in Rounds(trace, c)
      ensures Complete(n, trace + [e], c, i) <==> Complete(n, trace, c, i)
      ensures IsOpen(n, trace + [e], c, i) <==> IsOpen(n, trace, c, i) && trace[i].message != m
    {
      SendRound(n, trace, c, m, i);
    }
  }

  lemma SendKeeps(n: nat, trace: seq<Event>, c: Chain, m: string, b: Book)
    requires Keeps(n, trace, c, b)
    ensures Keeps(n, trace + [Sent(c, m)], c, Step(n, b, Sent(c, m)))
  {
    hide SeenIn, Open, Completed, Rounds, Complete, IsOpen;
    SendOpens(n, trace, c, m);
    OpenRounds(n, trace + [Sent(c, m)], c);
    forall i | i in Open(n, trace + [Sent(c, m)], c)
      ensures var p, b' := (trace + [Sent(c, m)])[i].message, Step(n, b, Sent(c, m));
        p in b'.pending && b'.pending[p] == SeenIn(trace + [Sent(c, m)], c, p, i)
    {
      SendSeen(n, trace, c, m, b, i);
    }
    SendPending(n, trace, c, m, b);
  }

  lemma SendSeen(n: nat, trace: seq<Event>, c: Chain, m: string, b: Book, i: nat)
    requires Keeps(n, trace, c, b) && i in Open(n, trace + [Sent(c, m)], c)
    ensures i < |trace + [Sent(c, m)]|
    ensures var p, b' := (trace + [Sent(c, m)])[i].message, Step(n, b, Sent(c, m));
      p in b'.pending && b'.pending[p] == SeenIn(trace + [Sent(c, m)], c, p, i)
  {
    hide SeenIn, Open, Completed, Rounds, Complete, IsOpen;
    SendOpens(n, trace, c, m);
    NewRound(n, trace, c, m);
    OpenRounds(n, trace, c);
    if i != |trace| {
      SendRound(n, trace, c, m, i);
    }
  }

  lemma SendPending(n: nat, trace: seq<Event>, c: Chain, m: string, b: Book)
    requires forall p :: p in b.pending ==> exists i :: i in Open(n, trace, c) && trace[i].message == p
    ensures var longer := trace + [Sent(c, m)];
      forall p :: p in Step(n, b, Sent(c, m)).pending ==> exists i :: i in Open(n, longer, c) && longer[i].message == p
  {
    hide SeenIn, Open, Completed, Rounds, Complete, IsOpen;
    SendOpens(n, trace, c, m);
    OpenRounds(n, trace, c);
    var longer, k := trace + [Sent(c, m)], |trace|;
    forall p | p in Step(n, b, Sent(c, m)).pending
      ensures exists i :: i in Open(n, longer, c) && longer[i].message == p
    {
      if p == m {
        assert k in Open(n, longer, c) && longer[k].message == m;
      } else {
        var i :| i in Open(n, trace, c) && trace[i].message == p;
        assert i in Open(n, longer, c) && longer[i].message == p;
      }
    }
  }

  lemma OpenRounds(n: nat, trace: seq<Event>, c: Chain)
    ensures Open(n, trace, c) <= Rounds(trace, c)
    ensures forall i :: i in Rounds(trace, c) ==> i < |trace|
  {
  }

  /** A name has one open round. */
  lemma OneOpen(n: nat, trace: seq<Event>, c: Chain, i: nat, j: nat)
    requires i in Open(n, trace, c) && j in Open(n, trace, c) && trace[i].message == trace[j].message
    ensures i == j
  {
    assert trace[i] == Sent(c, trace[i].message) && trace[j] == Sent(c, trace[i].message);
  }

  lemma DeliveryRound(n: nat, trace: seq<Event>, c: Chain, node: nat, k: nat, i: nat)
    requires k in Open(n, trace, c) && i in Rounds(trace, c) && node !in SeenIn(trace, c, trace[k].message, k)
    ensures var longer := trace + [Delivered(c, node, trace[k].message)];
      if i == k then
        var nodes := SeenIn(trace, c, trace[k].message, k) + {node};
        && SeenIn(longer, c, trace[k].message, k) == nodes && (Complete(n, longer, c, k) <==> |nodes| == n)
        && (IsOpen(n, longer, c, k) <==> |nodes| != n)
      else
        && (Complete(n, longer, c, i) <==> Complete(n, trace, c, i))
        && (IsOpen(n, longer, c, i) <==> IsOpen(n, trace, c, i))
        && (IsOpen(n, trace, c, i) ==>
            SeenIn(longer, c, trace[i].message, i) == SeenIn(trace, c, trace[i].message, i))
  {
    hide SeenIn, Current;
    var e, p := Delivered(c, node, trace[k].message), trace[i].message;
    CurrentOf(trace, e, c, p, i);
    SeenInOf(trace, e, c, p, i);
    SubsetCard(SeenIn(trace, c, p, i), SeenIn(trace + [e], c, p, i));
    if IsOpen(n, trace, c, i) && p == trace[k].message {
      OneOpen(n, trace, c, i, k);
    }
  }

  lemma DeliveryMembers(n: nat, trace: seq<Event>, c: Chain, node: nat, k: nat, i: nat)
    requires k in Open(n, trace, c) && node !in SeenIn(trace, c, trace[k].message, k)
    ensures var longer := trace + [Delivered(c, node, trace[k].message)];
      var last := |SeenIn(trace, c, trace[k].message, k) + {node}| == n;
      && (i in Rounds(longer, c) <==> i in Rounds(trace, c))
      && (i in Completed(n, longer, c) <==> i in Completed(n, trace, c) || (last && i == k))
      && (i in Open(n, longer, c) <==> i in Open(n, trace, c) && !(last && i == k))
  {
    OpenIs(n, trace, c, k);
    NotCompleted(n, trace, c, k);
    RoundsOf(trace, Delivered(c, node, trace[k].message), c);
    hide SeenIn, Complete, IsOpen, Rounds;
    if i in Rounds(trace, c) {
      DeliveryRound(n, trace, c, node, k, i);
    }
  }

  /** A delivery in an open round adds its node, and completes the round with the n-th. */
  lemma DeliveryCounts(n: nat, trace: seq<Event>, c: Chain, node: nat, k: nat)
    requires k in Open(n, trace, c) && node !in SeenIn(trace, c, trace[k].message, k)
    ensures var longer := trace + [Delivered(c, node, trace[k].message)];
      var full := if |SeenIn(trace, c, trace[k].message, k) + {node}| == n then {k} else {};
      && Rounds(longer, c) == Rounds(trace, c) && Completed(n, longer, c) == Completed(n, trace, c) + full
      && Open(n, longer, c) == Open(n, trace, c) - full
  {
    OpenIs(n, trace, c, k);
    hide SeenIn, Completed, Open, Rounds, IsOpen;
    forall i {
      DeliveryMembers(n, trace, c, node, k, i);
    }
  }

  lemma CountedKeeps(n: nat, trace: seq<Event>, c: Chain, node: nat, m: string, b: Book)
    requires Keeps(n, trace, c, b) && m in b.pending && node !in b.pending[m]
    ensures Keeps(n, trace + [Delivered(c, node, m)], c, Step(n, b, Delivered(c, node, m)))
  {
    hide SeenIn, Open, Completed, Rounds, IsOpen, Complete;
    OpenRounds(n, trace, c);
    var longer := trace + [Delivered(c, node, m)];
    var b' := Step(n, b, Delivered(c, node, m));
    var k :| k in Open(n, trace, c) && trace[k].message == m;
    DeliveryCounts(n, trace, c, node, k);
    NotCompleted(n, trace, c, k);
    forall i | i in Open(n, longer, c)
      ensures longer[i].message in b'.pending
      ensures b'.pending[longer[i].message] == SeenIn(longer, c, longer[i].message, i)
    {
      assert longer[i] == trace[i];
      OpenIs(n, trace, c, i);
      DeliveryRound(n, trace, c, node, k, i);
      if trace[i].message == m {
        OneOpen(n, trace, c, i, k);
      }
    }
    forall p | p in b'.pending
      ensures exists i :: i in Open(n, longer, c) && longer[i].message == p
    {
      var i :| i in Open(n, trace, c) && trace[i].message == p;
      assert longer[i] == trace[i];
    }
  }

  lemma OpenIs(n: nat, trace: seq<Event>, c: Chain, i: nat)
    requires i in Open(n, trace, c)
    ensures IsOpen(n, trace, c, i) && i in Rounds(trace, c)
  {
  }

  lemma NotCompleted(n: nat, trace: seq<Event>, c: Chain, k: nat)
    requires k in Open(n, trace, c)
    ensures k !in Completed(n, trace, c)
  {
  }

  /** On any trace, and for any number of nodes, the index tells the rounds. */
  lemma {:induction false} ReplayKeeps(n: nat, trace: seq<Event>, c: Chain)
    ensures Keeps(n, trace, c, Replay(n, trace, c))
  {
    hide Keeps;
    if trace == [] {
      NoRounds(n, c);
    } else {
      var prefix, e := trace[..|trace| - 1], trace[|trace| - 1];
      ReplayKeeps(n, prefix, c);
      assert trace == prefix + [e];
      var b := Replay(n, prefix, c);
      if e.chain == c && e.Sent? {
        SendKeeps(n, prefix, c, e.message, b);
      } else if e.chain == c && e.message in b.pending && e.node !in b.pending[e.message] {
        CountedKeeps(n, prefix, c, e.node, e.message, b);
      } else {
        QuietKeeps(n, prefix, e, c, b);
      }
    }
  }

  lemma NoRounds(n: nat, c: Chain)
    ensures Keeps(n, [], c, BLANK)
  {
    assert Rounds([], c) == {};
    assert Completed(n, [], c) == {} && Open(n, [], c) == {};
  }

  ghost function NamesOf(trace: seq<Event>, rounds: set<nat>): set<string>
    requires forall i :: i in rounds ==> i < |trace|
  {
    set i | i in rounds :: trace[i].message
  }

  lemma {:induction false} NamesCard(trace: seq<Event>, rounds: set<nat>)
    requires forall i :: i in rounds ==> i < |trace|
    requires forall i, j :: i in rounds && j in rounds && trace[i].message == trace[j].message ==> i == j
    ensures |NamesOf(trace, rounds)| == |rounds|
  {
    if rounds != {} {
      var i: nat :| i in rounds;
      NamesCard(trace, rounds - {i});
      assert NamesOf(trace, rounds) == NamesOf(trace, rounds - {i}) + {trace[i].message};
    }
  }

  lemma PartialIsTouched(n: nat, trace: seq<Event>, c: Chain, b: Book)
    requires Keeps(n, trace, c, b)
    ensures |set m | m in b.pending && b.pending[m] != {}| == |Touched(n, trace, c)|
  {
    hide SeenIn, Completed;
    OpenRounds(n, trace, c);
    var touched := Touched(n, trace, c);
    forall i, j | i in touched && j in touched && trace[i].message == trace[j].message
      ensures i == j
    {
      OneOpen(n, trace, c, i, j);
    }
    NamesCard(trace, touched);
    hide Open;
    assert (set m | m in b.pending && b.pending[m] != {}) == NamesOf(trace, touched);
  }

  /** On any trace the report is the number of complete rounds, of open rounds some node has delivered in, and
      of all other rounds. */
  lemma ReportIsRounds(n: nat, trace: seq<Event>, c: Chain)
    ensures Report(Replay(n, trace, c)) ==
      (|Completed(n, trace, c)|, |Touched(n, trace, c)|, |Missed(n, trace, c)|)
  {
    ReplayKeeps(n, trace, c);
    PartialIsTouched(n, trace, c, Replay(n, trace, c));
    Shares(n, trace, c);
  }

  lemma Shares(n: nat, trace: seq<Event>, c: Chain)
    ensures |Completed(n, trace, c)| + |Touched(n, trace, c)| + |Missed(n, trace, c)| == |Rounds(trace, c)|
  {
    hide SeenIn, Current;
    var all, done, touched := Rounds(trace, c), Completed(n, trace, c), Touched(n, trace, c);
    assert done <= all && touched <= all && done !! touched;
    assert all == done + touched + Missed(n, trace, c);
  }

  /** A whole test: what the tester object reports after the calls of any trace is the number of its rounds of
      each kind; on a trace of fresh names and known nodes it is the plain recount. */
  method Test(tester: ConsistencyTester, trace: seq<Event>) returns (result: map<Chain, (int, int, int)>)
    requires tester.Valid() && forall i :: 0 <= i < |trace| ==> trace[i].chain in tester.chains
    modifies tester
    ensures tester.Valid() && result.Keys == tester.chains
    ensures forall c :: c in tester.chains ==>
      var n := tester.nodeCount;
      result[c] == (|Completed(n, trace, c)|, |Touched(n, trace, c)|, |Missed(n, trace, c)|)
    ensures tester.nodeCount >= 1 && Proper(tester.nodeCount, trace) ==>
      forall c :: c in tester.chains ==>
        var n := tester.nodeCount;
        result[c] == (|Everywhere(n, trace, c)|, |Somewhere(n, trace, c)|, |Nowhere(trace, c)|)
  {
    hide Proper, Step, Replay, Report, Everywhere, Somewhere, Nowhere, Completed, Touched, Missed;
    tester.OnTestStart();
    var n := tester.nodeCount;
    ReplayNothing(n);
    for i := 0 to |trace|
      invariant tester.Valid()
      invariant forall c :: c in tester.chains ==> tester.BookOf(c) == Replay(n, trace[..i], c)
    {
      assert trace[..i + 1] == trace[..i] + [trace[i]];
      forall c {
        ReplayOf(n, trace[..i], trace[i], c);
      }
      OnEvent(tester, trace[i]);
    }
    assert trace[..|trace|] == trace;
    result := tester.GetResult();
    forall c {
      ReportIsRounds(n, trace, c);
    }
    if n >= 1 && Proper(n, trace) {
      forall c {
        ReportIsRecount(n, trace, c);
      }
    }
  }
}
