/** What one session decides, told from the messages it was handed and nothing else. */
module LocalHistory {
  import opened Sets
  import opened SessionStep

  /** The session after handling the messages of a history, one after the other. */
  function HandleAll(c: Params, hist: seq<Msg>): Sess {
    if hist == [] then INITIAL
    else Handle(c, HandleAll(c, hist[..|hist| - 1]), hist[|hist| - 1]).sess
  }

  function Senders(hist: seq<Msg>, kind: Kind, d: Data): set<Pid> {
    set m | m in hist && m.kind == kind && m.data == d :: m.node
  }

  /** The distinct echoes of d in a history; a SEND makes the node echo itself. */
  function Echoes(c: Params, hist: seq<Msg>, d: Data): set<Pid> {
    Senders(hist, Echo, d) + if Senders(hist, Send, d) == {} then {} else {c.self}
  }

  /** Some payload has an echo quorum, or t + 1 readies. */
  ghost predicate CrossedFor(c: Params, hist: seq<Msg>, d: Data) {
    |Echoes(c, hist, d)| >= c.q || |Senders(hist, Ready, d)| > c.t
  }

  ghost predicate Crossed(c: Params, hist: seq<Msg>) {
    exists d :: CrossedFor(c, hist, d)
  }

  /** The length of the shortest prefix that crosses. */
  ghost function CrossedAt(c: Params, hist: seq<Msg>): (k: nat)
    requires 1 <= c.q && Crossed(c, hist)
    ensures 1 <= k <= |hist|
  {
    assert hist != [] by {
      var d :| CrossedFor(c, hist, d);
    }
    var prefix := hist[..|hist| - 1];
    if Crossed(c, prefix) then CrossedAt(c, prefix) else |hist|
  }

  /** The node's own ready vote: for the payload of the message that made the history cross. */
  ghost function OwnReady(c: Params, hist: seq<Msg>, d: Data): set<Pid>
    requires 1 <= c.q
  {
    if Crossed(c, hist) && hist[CrossedAt(c, hist) - 1].data == d then {c.self} else {}
  }

  ghost function Readies(c: Params, hist: seq<Msg>, d: Data): set<Pid>
    requires 1 <= c.q
  {
    Senders(hist, Ready, d) + OwnReady(c, hist, d)
  }

  ghost predicate Full(c: Params, hist: seq<Msg>)
    requires 1 <= c.q
  {
    exists d :: |Readies(c, hist, d)| > 2 * c.t
  }

  /** The length of the shortest full prefix. */
  ghost function FullAt(c: Params, hist: seq<Msg>): (k: nat)
    requires 1 <= c.q && Full(c, hist)
    ensures 1 <= k <= |hist|
  {
    assert hist != [] by {
      EmptyNotFull(c);
    }
    var prefix := hist[..|hist| - 1];
    if Full(c, prefix) then FullAt(c, prefix) else |hist|
  }

  lemma EmptyNotFull(c: Params)
    requires 1 <= c.q
    ensures !Full(c, [])
  {
    assert forall d :: Echoes(c, [], d) == {} && Senders([], Ready, d) == {};
    assert !Crossed(c, []);
    assert forall d :: Readies(c, [], d) == {};
  }

  /** The decisions and the sets behind them, from the history alone. */
  ghost predicate Tells(c: Params, hist: seq<Msg>, s: Sess)
    requires 1 <= c.q
  {
    && s.readySent == Crossed(c, hist)
    && s.delivered == Full(c, hist)
    && (!s.readySent ==> forall d :: Get(s.echo, d) == Echoes(c, hist, d))
    && (!s.delivered ==> forall d :: Get(s.ready, d) == Readies(c, hist, d))
  }

  lemma SendersOf(hist: seq<Msg>, m: Msg, kind: Kind, d: Data)
    ensures Senders(hist + [m], kind, d) ==
      if m.kind == kind && m.data == d then Senders(hist, kind, d) + {m.node} else Senders(hist, kind, d)
  {
  }

  lemma EchoesOf(c: Params, hist: seq<Msg>, m: Msg, d: Data)
    ensures Echoes(c, hist + [m], d) == Echoes(c, hist, d) +
      (if m.data == d && m.kind == Echo then {m.node} else if m.data == d && m.kind == Send then {c.self} else {})
  {
    SendersOf(hist, m, Echo, d);
    SendersOf(hist, m, Send, d);
    assert m.node in {m.node};
  }

  lemma CrossedOf(c: Params, hist: seq<Msg>, m: Msg)
    requires 1 <= c.q
    ensures Crossed(c, hist) ==> Crossed(c, hist + [m])
    ensures !Crossed(c, hist) ==> (Crossed(c, hist + [m]) <==> CrossedFor(c, hist + [m], m.data))
    ensures Crossed(c, hist + [m]) ==>
      CrossedAt(c, hist + [m]) == if Crossed(c, hist) then CrossedAt(c, hist) else |hist| + 1
  {
    hide Senders, Echoes;
    assert (hist + [m])[..|hist|] == hist;
    forall d
      ensures CrossedFor(c, hist, d) ==> CrossedFor(c, hist + [m], d)
      ensures d != m.data ==> (CrossedFor(c, hist + [m], d) <==> CrossedFor(c, hist, d))
    {
      EchoesOf(c, hist, m, d);
      SendersOf(hist, m, Ready, d);
      SubsetCard(Echoes(c, hist, d), Echoes(c, hist + [m], d));
      SubsetCard(Senders(hist, Ready, d), Senders(hist + [m], Ready, d));
    }
  }

  lemma ReadiesOf(c: Params, hist: seq<Msg>, m: Msg, d: Data)
    requires 1 <= c.q
    ensures Readies(c, hist + [m], d) == Readies(c, hist, d)
      + (if m.kind == Ready && m.data == d then {m.node} else {})
      + (if !Crossed(c, hist) && Crossed(c, hist + [m]) && m.data == d then {c.self} else {})
  {
    hide CrossedFor, Crossed, Senders;
    CrossedOf(c, hist, m);
    SendersOf(hist, m, Ready, d);
    if Crossed(c, hist) {
      assert (hist + [m])[CrossedAt(c, hist) - 1] == hist[CrossedAt(c, hist) - 1];
    }
  }

  lemma FullOf(c: Params, hist: seq<Msg>, m: Msg)
    requires 1 <= c.q
    ensures Full(c, hist) ==> Full(c, hist + [m])
    ensures !Full(c, hist) ==> (Full(c, hist + [m]) <==> |Readies(c, hist + [m], m.data)| > 2 * c.t)
  {
    forall d
      ensures |Readies(c, hist, d)| <= |Readies(c, hist + [m], d)|
      ensures d != m.data ==> Readies(c, hist + [m], d) == Readies(c, hist, d)
    {
      ReadiesOf(c, hist, m, d);
      SubsetCard(Readies(c, hist, d), Readies(c, hist + [m], d));
    }
  }

  /** A history that fills has crossed. */
  lemma FullCrossed(c: Params, hist: seq<Msg>)
    requires 1 <= c.q && Full(c, hist)
    ensures Crossed(c, hist)
  {
    if !Crossed(c, hist) {
      var d :| |Readies(c, hist, d)| > 2 * c.t;
      assert Readies(c, hist, d) == Senders(hist, Ready, d);
      assert CrossedFor(c, hist, d);
    }
  }

  /** Counting a READY when the history does not newly cross, or the node's own when it does. */
  lemma CountTells(c: Params, hist: seq<Msg>, m: Msg, s: Sess, vote: Msg, s': Sess)
    requires 1 <= c.q && vote.data == m.data && vote.kind == Ready
    requires s.delivered == Full(c, hist) && (!s.delivered ==> forall d :: Get(s.ready, d) == Readies(c, hist, d))
    requires s' == CountReady(c, s, vote).sess
    requires Readies(c, hist + [m], m.data) == Readies(c, hist, m.data) + {vote.node}
    ensures s'.delivered == Full(c, hist + [m])
    ensures !s'.delivered ==> forall d :: Get(s'.ready, d) == Readies(c, hist + [m], d)
  {
    InsertGet(s.ready, vote.data, vote.node);
    hide Insert, Get, Readies, Full;
    FullOf(c, hist, m);
    forall d
      ensures d != m.data ==> Readies(c, hist + [m], d) == Readies(c, hist, d)
    {
      ReadiesOf(c, hist, m, d);
    }
  }

  /** A message that is no READY and does not make the history cross leaves the ready votes alone. */
  lemma SameReadies(c: Params, hist: seq<Msg>, m: Msg)
    requires 1 <= c.q && m.kind != Ready && (Crossed(c, hist) || !Crossed(c, hist + [m]))
    ensures Full(c, hist + [m]) == Full(c, hist)
    ensures forall d :: Readies(c, hist + [m], d) == Readies(c, hist, d)
  {
    forall d
      ensures Readies(c, hist + [m], d) == Readies(c, hist, d)
    {
      ReadiesOf(c, hist, m, d);
    }
  }

  /** The vote an ECHO or SEND amounts to. */
  function EchoVote(c: Params, m: Msg): Msg {
    if m.kind == Send then Msg(Echo, m.data, c.self) else m
  }

  lemma EchoCrosses(c: Params, hist: seq<Msg>, m: Msg, s: Sess)
    requires 1 <= c.q && Tells(c, hist, s) && m.kind != Ready && !s.readySent
    ensures var echo := Insert(s.echo, m.data, EchoVote(c, m).node);
      && (forall d :: Get(echo, d) == Echoes(c, hist + [m], d))
      && (Crossed(c, hist + [m]) <==> |Get(echo, m.data)| >= c.q)
  {
    InsertGet(s.echo, m.data, EchoVote(c, m).node);
    forall d
      ensures Get(Insert(s.echo, m.data, EchoVote(c, m).node), d) == Echoes(c, hist + [m], d)
    {
      EchoesOf(c, hist, m, d);
    }
    CrossedOf(c, hist, m);
    SendersOf(hist, m, Ready, m.data);
    assert !CrossedFor(c, hist, m.data);
  }

  /** The echo vote that completes a quorum adds the node's own ready vote. */
  lemma EchoRaises(c: Params, hist: seq<Msg>, m: Msg, s: Sess)
    requires 1 <= c.q && Tells(c, hist, s) && m.kind != Ready && !s.readySent && Crossed(c, hist + [m])
    ensures Tells(c, hist + [m], SendReady(c, s.(echo := Insert(s.echo, m.data, EchoVote(c, m).node)), m.data).sess)
  {
    hide Echoes, Readies, Insert, Get;
    var s1 := s.(echo := Insert(s.echo, m.data, EchoVote(c, m).node));
    ReadiesOf(c, hist, m, m.data);
    CountTells(c, hist, m, s1.(readySent := true), Msg(Ready, m.data, c.self), SendReady(c, s1, m.data).sess);
  }

  lemma EchoTells(c: Params, hist: seq<Msg>, m: Msg, s: Sess)
    requires 1 <= c.q && Tells(c, hist, s) && m.kind != Ready
    ensures Tells(c, hist + [m], OnEcho(c, s, EchoVote(c, m)).sess)
  {
    if s.readySent {
      CrossedOf(c, hist, m);
      SameReadies(c, hist, m);
    } else {
      EchoCrosses(c, hist, m, s);
      if |Get(Insert(s.echo, m.data, EchoVote(c, m).node), m.data)| >= c.q {
        EchoRaises(c, hist, m, s);
      } else {
        SameReadies(c, hist, m);
      }
    }
  }

  lemma ReadyCrosses(c: Params, hist: seq<Msg>, m: Msg, s: Sess)
    requires 1 <= c.q && Tells(c, hist, s) && m.kind == Ready && !s.readySent
    ensures forall d :: Echoes(c, hist + [m], d) == Echoes(c, hist, d)
    ensures Crossed(c, hist + [m]) <==> |Get(s.ready, m.data) + {m.node}| > c.t
    ensures !s.delivered
  {
    hide Senders, Get, Full;
    if s.delivered {
      FullCrossed(c, hist);
    }
    forall d
      ensures Echoes(c, hist + [m], d) == Echoes(c, hist, d)
    {
      EchoesOf(c, hist, m, d);
    }
    CrossedOf(c, hist, m);
    SendersOf(hist, m, Ready, m.data);
    assert !CrossedFor(c, hist, m.data);
    assert OwnReady(c, hist, m.data) == {};
  }

  lemma ReadyTells(c: Params, hist: seq<Msg>, m: Msg, s: Sess)
    requires 1 <= c.q && Tells(c, hist, s) && m.kind == Ready
    ensures Tells(c, hist + [m], OnReady(c, s, m).sess)
  {
    hide Echoes, Readies, CrossedFor, Crossed, Full;
    var s' := OnReady(c, s, m).sess;
    ReadiesOf(c, hist, m, m.data);
    if s.delivered {
      FullOf(c, hist, m);
      FullCrossed(c, hist);
      CrossedOf(c, hist, m);
    } else if s.readySent {
      CrossedOf(c, hist, m);
      CountTells(c, hist, m, s, m, s');
    } else {
      ReadyCrosses(c, hist, m, s);
      if Crossed(c, hist + [m]) {
        RaisedTells(c, hist, m, s);
      } else {
        CountTells(c, hist, m, s, m, s');
      }
    }
  }

  /** The READY that makes the history cross adds its sender's vote and the node's own. */
  lemma RaisedTells(c: Params, hist: seq<Msg>, m: Msg, s: Sess)
    requires 1 <= c.q && Tells(c, hist, s) && m.kind == Ready && !s.readySent && !s.delivered
    requires Crossed(c, hist + [m]) && |Get(s.ready, m.data) + {m.node}| > c.t
    ensures Tells(c, hist + [m], OnReady(c, s, m).sess)
  {
    InsertGet(s.ready, m.data, m.node);
    InsertGet(Insert(s.ready, m.data, m.node), m.data, c.self);
    var s' := OnReady(c, s, m).sess;
    var ready := Insert(Insert(s.ready, m.data, m.node), m.data, c.self);
    forall d
      ensures Get(ready, d) == Readies(c, hist + [m], d)
    {
      ReadiesOf(c, hist, m, d);
    }
    FullOf(c, hist, m);
    assert s'.readySent && (s'.delivered <==> |Get(ready, m.data)| > 2 * c.t);
    assert !s'.delivered ==> s'.ready == ready;
  }

  /** Exact local state: after any history, the READY flag is set exactly when some payload has an echo
      quorum or t + 1 ready senders in the history, the delivery flag exactly when some payload has
      more than 2t readies, the node's own included, and unfrozen sets are the distinct senders. */
  lemma {:induction false} ExactState(c: Params, hist: seq<Msg>)
    requires 1 <= c.q
    ensures Tells(c, hist, HandleAll(c, hist))
  {
    if hist == [] {
      assert forall d :: Echoes(c, hist, d) == {} && Senders(hist, Ready, d) == {};
    } else {
      var prefix, m := hist[..|hist| - 1], hist[|hist| - 1];
      ExactState(c, prefix);
      assert hist == prefix + [m];
      if m.kind == Ready {
        ReadyTells(c, prefix, m, HandleAll(c, prefix));
      } else {
        EchoTells(c, prefix, m, HandleAll(c, prefix));
      }
    }
  }

  lemma ReadyKeepsEchoes(c: Params, s: Sess, m: Msg, d: Data)
    ensures CountReady(c, s, m).sess.echo == s.echo && SendReady(c, s, d).sess.echo == s.echo
  {
  }

  lemma EchoHandled(c: Params, s: Sess, m: Msg)
    ensures Handle(c, s, m).sess.echo ==
      if m.kind == Ready || s.readySent then s.echo else Insert(s.echo, m.data, EchoVote(c, m).node)
  {
    if m.kind == Ready {
      ReadyKeepsEchoes(c, s, m, m.data);
      ReadyKeepsEchoes(c, s.(ready := Insert(s.ready, m.data, m.node)), m, m.data);
    } else {
      ReadyKeepsEchoes(c, s.(echo := Insert(s.echo, m.data, EchoVote(c, m).node)), m, m.data);
    }
  }

  /** The message that makes a history cross is still counted. */
  lemma EchoCrossing(c: Params, hist: seq<Msg>, m: Msg, s: Sess, d: Data)
    requires 1 <= c.q && Tells(c, hist, s) && !s.readySent
    ensures Get(Handle(c, s, m).sess.echo, d) == Echoes(c, hist + [m], d)
  {
    EchoHandled(c, s, m);
    if m.kind == Ready {
      ReadyCrosses(c, hist, m, s);
    } else {
      EchoCrosses(c, hist, m, s);
    }
  }

  /** Once its flag is set a set stays as it is: the echo sets are those of the shortest crossing prefix. */
  lemma {:induction false} FrozenEchoes(c: Params, hist: seq<Msg>, d: Data)
    requires 1 <= c.q && Crossed(c, hist)
    ensures Get(HandleAll(c, hist).echo, d) == Echoes(c, hist[..CrossedAt(c, hist)], d)
  {
    hide Handle, Get, Echoes, CrossedFor, Crossed;
    assert CrossedAt(c, hist) <= |hist|;
    var prefix, m := hist[..|hist| - 1], hist[|hist| - 1];
    ExactState(c, prefix);
    assert hist == prefix + [m];
    if Crossed(c, prefix) {
      FrozenEchoes(c, prefix, d);
      EchoHandled(c, HandleAll(c, prefix), m);
      assert hist[..CrossedAt(c, hist)] == prefix[..CrossedAt(c, prefix)];
    } else {
      assert hist[..|hist|] == hist;
      EchoCrossing(c, prefix, m, HandleAll(c, prefix), d);
    }
  }

  /** A READY counted, or one's own, as long as nothing is delivered. */
  lemma CountedReadies(c: Params, s: Sess, m: Msg, d: Data)
    requires !s.delivered
    ensures Get(CountReady(c, s, m).sess.ready, d) == Get(s.ready, d) + if m.data == d then {m.node} else {}
  {
    InsertGet(s.ready, m.data, m.node);
  }

  /** What an ECHO or SEND adds to the ready sets of an undelivered session: the node's own vote, if it
      wins the flag. */
  lemma EchoAdds(c: Params, s: Sess, m: Msg, d: Data)
    requires !s.delivered && m.kind != Ready
    ensures var echo := Insert(s.echo, m.data, EchoVote(c, m).node);
      Get(Handle(c, s, m).sess.ready, d) == Get(s.ready, d) +
        if !s.readySent && |Get(echo, m.data)| >= c.q && m.data == d then {c.self} else {}
  {
    hide Get, Insert, CountReady;
    var echo := Insert(s.echo, m.data, EchoVote(c, m).node);
    CountedReadies(c, s.(echo := echo, readySent := true), Msg(Ready, m.data, c.self), d);
  }

  /** What a READY adds: its sender, and the node's own vote, if it wins the flag. */
  lemma ReadyAdds(c: Params, s: Sess, m: Msg, d: Data)
    requires !s.delivered && m.kind == Ready
    ensures Get(Handle(c, s, m).sess.ready, d) == Get(s.ready, d) + (if m.data == d then {m.node} else {}) +
      if !s.readySent && |Get(s.ready, m.data) + {m.node}| > c.t && m.data == d then {c.self} else {}
  {
    InsertGet(s.ready, m.data, m.node);
    var ready := Insert(s.ready, m.data, m.node);
    hide Get, Insert, CountReady;
    CountedReadies(c, s, m, d);
    CountedReadies(c, s.(ready := ready, readySent := true), Msg(Ready, m.data, c.self), d);
  }

  /** The message that makes a history full is still counted. */
  lemma ReadyFilling(c: Params, hist: seq<Msg>, m: Msg, s: Sess, d: Data)
    requires 1 <= c.q && Tells(c, hist, s) && !s.delivered
    ensures Get(Handle(c, s, m).sess.ready, d) == Readies(c, hist + [m], d)
  {
    hide Handle, Get, Insert, Readies, Echoes, CrossedFor;
    ReadiesOf(c, hist, m, d);
    CrossedOf(c, hist, m);
    if m.kind == Ready {
      ReadyAdds(c, s, m, d);
      if !s.readySent {
        ReadyCrosses(c, hist, m, s);
      }
    } else {
      EchoAdds(c, s, m, d);
      if !s.readySent {
        EchoCrosses(c, hist, m, s);
      }
    }
  }

  lemma DeliveredFrozen(c: Params, s: Sess, m: Msg)
    requires s.delivered && (m.kind == Ready || s.readySent)
    ensures Handle(c, s, m).sess.ready == s.ready
  {
  }

  /** Once the session has delivered, the ready sets are those of the shortest full prefix. */
  lemma {:induction false} FrozenReadies(c: Params, hist: seq<Msg>, d: Data)
    requires 1 <= c.q && Full(c, hist)
    ensures Get(HandleAll(c, hist).ready, d) == Readies(c, hist[..FullAt(c, hist)], d)
  {
    hide Handle, Get, Readies, CrossedFor, Crossed, Full;
    assert FullAt(c, hist) <= |hist|;
    var prefix, m := hist[..|hist| - 1], hist[|hist| - 1];
    ExactState(c, prefix);
    assert hist == prefix + [m];
    if Full(c, prefix) {
      FrozenReadies(c, prefix, d);
      FullCrossed(c, prefix);
      DeliveredFrozen(c, HandleAll(c, prefix), m);
      assert hist[..FullAt(c, hist)] == prefix[..FullAt(c, prefix)];
    } else {
      assert hist[..|hist|] == hist;
      ReadyFilling(c, prefix, m, HandleAll(c, prefix), d);
    }
  }

  lemma InsertAgain(votes: Votes, d: Data, p: Pid)
    requires p in Get(votes, d)
    ensures Insert(votes, d, p) == votes
  {
    assert Get(votes, d) + {p} == Get(votes, d);
  }

  /** A repeated message changes neither the session nor what is delivered; only a SEND is answered again. */
  lemma RepeatsIgnored(c: Params, hist: seq<Msg>, m: Msg)
    requires 1 <= c.q && m in hist
    ensures var e := Handle(c, HandleAll(c, hist), m);
      e.sess == HandleAll(c, hist) && e.delivered == [] && e.posts == if m.kind == Send then [Echo] else []
  {
    var s := HandleAll(c, hist);
    ExactState(c, hist);
    if m.kind == Ready {
      RepeatedReady(c, hist, m, s);
    } else {
      RepeatedEcho(c, hist, m, s);
    }
  }

  lemma RepeatedReady(c: Params, hist: seq<Msg>, m: Msg, s: Sess)
    requires 1 <= c.q && m in hist && m.kind == Ready && Tells(c, hist, s)
    ensures OnReady(c, s, m) == Effect(s, [], [], m)
  {
    if !s.delivered {
      assert m.node in Senders(hist, Ready, m.data);
      InsertAgain(s.ready, m.data, m.node);
      assert |Readies(c, hist, m.data)| <= 2 * c.t;
      if !s.readySent {
        assert !CrossedFor(c, hist, m.data);
        assert Readies(c, hist, m.data) == Senders(hist, Ready, m.data);
      }
    }
  }

  lemma RepeatedEcho(c: Params, hist: seq<Msg>, m: Msg, s: Sess)
    requires 1 <= c.q && m in hist && m.kind != Ready && Tells(c, hist, s)
    ensures OnEcho(c, s, EchoVote(c, m)) == Effect(s, [], [], EchoVote(c, m))
  {
    if !s.readySent {
      assert m.node in Senders(hist, m.kind, m.data);
      InsertAgain(s.echo, m.data, EchoVote(c, m).node);
      assert !CrossedFor(c, hist, m.data);
    }
  }
}
