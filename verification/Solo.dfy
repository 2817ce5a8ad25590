/** Repeating a step function. */
module Iteration {

  function Iterate<A>(f: A -> A, a: A, k: nat): A {
    if k == 0 then a else Iterate(f, f(a), k - 1)
  }

  ghost predicate Leads<A>(f: A -> A, a: A, b: A) {
    exists k :: Iterate(f, a, k) == b
  }

  lemma {:induction false} IterateOn<A>(f: A -> A, a: A, j: nat, k: nat)
    ensures Iterate(f, Iterate(f, a, j), k) == Iterate(f, a, j + k)
  {
    if j > 0 {
      IterateOn(f, f(a), j - 1, k);
    }
  }

  lemma LeadsOn<A>(f: A -> A, a: A, b: A, d: A)
    requires Leads(f, a, b) && Leads(f, b, d)
    ensures Leads(f, a, d)
  {
    var j: nat :| Iterate(f, a, j) == b;
    var k: nat :| Iterate(f, b, k) == d;
    IterateOn(f, a, j, k);
  }

  lemma LeadsOne<A>(f: A -> A, a: A)
    ensures Leads(f, a, a) && Leads(f, a, f(a))
  {
    assert Iterate(f, a, 0) == a;
    assert Iterate(f, a, 1) == f(a);
  }

  /** From a through the listed states, each the step of the one before. */
  lemma {:induction false} LeadsAlong<A>(f: A -> A, states: seq<A>)
    requires states != [] && forall i :: 0 <= i < |states| - 1 ==> states[i + 1] == f(states[i])
    ensures Leads(f, states[0], states[|states| - 1])
  {
    LeadsOne(f, states[0]);
    if |states| > 1 {
      LeadsAlong(f, states[1..]);
      LeadsOn(f, states[0], states[1], states[|states| - 1]);
    }
  }
}

/** A handler thread that runs without interruption has the effect of the sequential step: the
    interleaved session refines SessionStep.Handle when nothing interleaves. */
module Solo {
  import opened Sets
  import opened SessionStep
  import opened Interleaving
  import opened Iteration

  /** A session and its one running thread, with what the thread has done besides: the messages it
      queued, as they read then, and the payloads it delivered. */
  datatype Alone = Alone(sess: Sess, th: Thread, queued: seq<Msg>, delivered: seq<Data>)

  function AloneStep(c: Params, a: Alone): Alone {
    var st := ThreadStep(c, a.sess, a.th);
    Alone(st.sess, st.th,
      if st.act.Queue? then a.queued + [a.th.obj] else a.queued,
      if st.act.Delivered? then a.delivered + [a.th.obj.data] else a.delivered)
  }

  function Stepper(c: Params): Alone -> Alone {
    a => AloneStep(c, a)
  }

  /** The call returns with effect e on session and object. */
  function After(a: Alone, e: Effect, queued: seq<Msg>): Alone {
    Alone(e.sess, Return(a.th.(obj := e.last)), a.queued + queued, a.delivered + e.delivered)
  }

  function Tally(votes: Votes, m: Msg): nat {
    |Get(Insert(votes, m.data, m.node), m.data)|
  }

  /** The state after the locked insert and count of a vote. */
  function EchoTallied(a: Alone): Alone {
    var m := a.th.obj;
    var s := a.sess.(echo := Insert(a.sess.echo, m.data, m.node));
    a.(th := a.th.(pc := EchoTest(Tally(a.sess.echo, m))), sess := s)
  }

  function ReadyTallied(a: Alone): Alone {
    var m := a.th.obj;
    var s := a.sess.(ready := Insert(a.sess.ready, m.data, m.node));
    a.(th := a.th.(pc := ReadyTest(Tally(a.sess.ready, m))), sess := s)
  }

  lemma TalliesEcho(c: Params, a: Alone)
    requires a.th.pc == Dispatch && a.th.obj.kind == Echo
    ensures a.sess.readySent ==> Leads(Stepper(c), a, a.(th := Return(a.th)))
    ensures !a.sess.readySent ==> Leads(Stepper(c), a, EchoTallied(a))
  {
    var a1 := a.(th := a.th.(pc := EchoRead));
    var a2 := a.(th := if a.sess.readySent then Return(a.th) else a.th.(pc := EchoInsert));
    LeadsAlong(Stepper(c), [a, a1, a2]);
    if !a.sess.readySent {
      LeadsAlong(Stepper(c), [a2, EchoTallied(a)]);
      LeadsOn(Stepper(c), a, a2, EchoTallied(a));
    }
  }

  lemma TalliesReady(c: Params, a: Alone)
    requires a.th.pc == Dispatch && a.th.obj.kind == Ready
    ensures a.sess.delivered ==> Leads(Stepper(c), a, a.(th := Return(a.th)))
    ensures !a.sess.delivered ==> Leads(Stepper(c), a, ReadyTallied(a))
  {
    var a1 := a.(th := a.th.(pc := ReadyRead));
    var a2 := a.(th := if a.sess.delivered then Return(a.th) else a.th.(pc := ReadyInsert));
    LeadsAlong(Stepper(c), [a, a1, a2]);
    if !a.sess.delivered {
      LeadsAlong(Stepper(c), [a2, ReadyTallied(a)]);
      LeadsOn(Stepper(c), a, a2, ReadyTallied(a));
    }
  }

  /** From the delivery test to the return. */
  lemma TestsDelivery(c: Params, a: Alone)
    requires a.th.pc.DeliverTest?
    ensures Leads(Stepper(c), a,
      if !a.sess.delivered && a.th.pc.count > 2 * c.t
      then a.(sess := a.sess.(delivered := true), th := Return(a.th), delivered := a.delivered + [a.th.obj.data])
      else a.(th := Return(a.th)))
  {
    if !a.sess.delivered && a.th.pc.count > 2 * c.t {
      var a1 := a.(th := a.th.(pc := DeliverCas));
      var a2 := a.(th := a.th.(pc := Deliver), sess := a.sess.(delivered := true));
      LeadsAlong(Stepper(c), [a, a1, a2, a2.(th := Return(a.th), delivered := a.delivered + [a.th.obj.data])]);
    } else {
      LeadsAlong(Stepper(c), [a, a.(th := Return(a.th))]);
    }
  }

  /** A READY that cannot raise the READY flag, from the top of processMessage to its return. */
  lemma CountsReady(c: Params, a: Alone)
    requires a.th.pc == Dispatch && a.th.obj.kind == Ready
    requires a.sess.readySent || a.sess.delivered || Tally(a.sess.ready, a.th.obj) <= c.t
    ensures Leads(Stepper(c), a, After(a, CountReady(c, a.sess, a.th.obj), []))
  {
    TalliesReady(c, a);
    assert a.queued + [] == a.queued && a.delivered + [] == a.delivered;
    if !a.sess.delivered {
      var a1 := ReadyTallied(a);
      var a2 := a1.(th := a.th.(pc := DeliverTest(a1.th.pc.count)));
      LeadsAlong(Stepper(c), [a1, a2]);
      LeadsOn(Stepper(c), a, a1, a2);
      TestsDelivery(c, a2);
      LeadsOn(Stepper(c), a, a2, After(a, CountReady(c, a.sess, a.th.obj), []));
    }
  }

  /** From winning the READY flag: stamp, queue, count the node's own vote, return. */
  lemma SendsReady(c: Params, a: Alone)
    requires a.th.pc == Stamp(Ready) && a.sess.readySent
    ensures Leads(Stepper(c), a, After(a, SendReady(c, a.sess, a.th.obj.data), [Msg(Ready, a.th.obj.data, c.self)]))
  {
    var own := Msg(Ready, a.th.obj.data, c.self);
    var a1 := a.(th := a.th.(obj := own, pc := Post(Ready)));
    var a2 := a1.(th := a1.th.(pc := Dispatch), queued := a.queued + [own]);
    LeadsAlong(Stepper(c), [a, a1, a2]);
    CountsReady(c, a2);
    assert a2.queued + [] == a2.queued && a.sess.(readySent := true) == a.sess;
    LeadsOn(Stepper(c), a, a2, After(a, SendReady(c, a.sess, a.th.obj.data), [own]));
  }

  /** The messages a call queues, as they read when queued. */
  function QueuedBy(c: Params, posts: seq<Kind>, d: Data): seq<Msg> {
    seq(|posts|, i requires 0 <= i < |posts| => Msg(posts[i], d, c.self))
  }

  lemma HandlesEcho(c: Params, a: Alone)
    requires a.th.pc == Dispatch && a.th.obj.kind == Echo
    ensures var e := OnEcho(c, a.sess, a.th.obj);
      Leads(Stepper(c), a, After(a, e, QueuedBy(c, e.posts, a.th.obj.data)))
  {
    var m := a.th.obj;
    var e := OnEcho(c, a.sess, m);
    assert a.queued + [] == a.queued && a.delivered + [] == a.delivered;
    TalliesEcho(c, a);
    if !a.sess.readySent {
      var a1 := EchoTallied(a);
      if a1.th.pc.count >= c.q {
        RaisesReadyByEcho(c, a1);
        assert QueuedBy(c, e.posts, m.data) == [Msg(Ready, m.data, c.self)];
      } else {
        LeadsAlong(Stepper(c), [a1, After(a, e, [])]);
      }
      LeadsOn(Stepper(c), a, a1, After(a, e, QueuedBy(c, e.posts, m.data)));
    }
  }

  /** An echo count that reaches the target wins the READY flag. */
  lemma RaisesReadyByEcho(c: Params, a: Alone)
    requires a.th.pc.EchoTest? && a.th.pc.count >= c.q && !a.sess.readySent
    ensures Leads(Stepper(c), a, After(a, SendReady(c, a.sess, a.th.obj.data), [Msg(Ready, a.th.obj.data, c.self)]))
  {
    var a1 := a.(th := a.th.(pc := EchoCas));
    var a2 := a.(th := a.th.(pc := Stamp(Ready)), sess := a.sess.(readySent := true));
    LeadsAlong(Stepper(c), [a, a1, a2]);
    SendsReady(c, a2);
    LeadsOn(Stepper(c), a, a2, After(a, SendReady(c, a.sess, a.th.obj.data), [Msg(Ready, a.th.obj.data, c.self)]));
  }

  /** A READY that raises the READY flag: the count captured before broadcasting adds nothing when the
      suspended call resumes, because the node's own vote has been counted since. */
  lemma RaisesReadyByReady(c: Params, a: Alone)
    requires a.th.pc.ReadyTest? && a.th.outer == [] && !a.sess.delivered && !a.sess.readySent
    requires c.t < a.th.pc.count <= |Get(a.sess.ready, a.th.obj.data)|
    ensures Leads(Stepper(c), a, After(a, SendReady(c, a.sess, a.th.obj.data), [Msg(Ready, a.th.obj.data, c.self)]))
  {
    var k, own := a.th.pc.count, Msg(Ready, a.th.obj.data, c.self);
    var a1 := a.(th := a.th.(pc := ReadyCas(k)));
    var a2 := a.(th := a.th.(pc := Stamp(Ready), outer := [k]), sess := a.sess.(readySent := true));
    assert a.th.outer + [k] == [k];
    LeadsAlong(Stepper(c), [a, a1, a2]);
    SendsReady(c, a2);
    var e := SendReady(c, a.sess, own.data);
    var a3 := After(a2, e, [own]);
    SubsetCard(Get(a.sess.ready, own.data), Get(e.sess.ready, own.data));
    assert a3.th == Thread(own, DeliverTest(k), []);
    TestsDelivery(c, a3);
    LeadsOn(Stepper(c), a, a2, a3);
    LeadsOn(Stepper(c), a, a3, After(a, e, [own]));
  }

  lemma HandlesReady(c: Params, a: Alone)
    requires a.th.pc == Dispatch && a.th.obj.kind == Ready && a.th.outer == []
    ensures var e := OnReady(c, a.sess, a.th.obj);
      Leads(Stepper(c), a, After(a, e, QueuedBy(c, e.posts, a.th.obj.data)))
  {
    var m := a.th.obj;
    var e := OnReady(c, a.sess, m);
    if !a.sess.delivered && !a.sess.readySent && Tally(a.sess.ready, m) > c.t {
      TalliesReady(c, a);
      RaisesReadyByReady(c, ReadyTallied(a));
      assert QueuedBy(c, e.posts, m.data) == [Msg(Ready, m.data, c.self)];
      LeadsOn(Stepper(c), a, ReadyTallied(a), After(a, e, [Msg(Ready, m.data, c.self)]));
    } else {
      assert QueuedBy(c, e.posts, m.data) == [];
      CountsReady(c, a);
    }
  }

  lemma HandlesSend(c: Params, a: Alone)
    requires a.th.pc == Dispatch && a.th.obj.kind == Send
    ensures var own := Msg(Echo, a.th.obj.data, c.self);
      Leads(Stepper(c), a, a.(th := a.th.(obj := own), queued := a.queued + [own]))
  {
    var own := Msg(Echo, a.th.obj.data, c.self);
    var a1 := a.(th := a.th.(pc := Stamp(Echo)));
    var a2 := a.(th := a.th.(obj := own, pc := Post(Echo)));
    LeadsAlong(Stepper(c), [a, a1, a2, a.(th := a.th.(obj := own), queued := a.queued + [own])]);
  }

  /** A whole handler call, run alone, is Handle. */
  lemma RunsAsHandle(c: Params, s: Sess, m: Msg)
    ensures var e := Handle(c, s, m);
      Leads(Stepper(c), Alone(s, Thread(m, Dispatch, []), [], []),
        Alone(e.sess, Thread(e.last, Done, []), QueuedBy(c, e.posts, m.data), e.delivered))
  {
    hide OnEcho, OnReady;
    var a, e := Alone(s, Thread(m, Dispatch, []), [], []), Handle(c, s, m);
    assert [] + QueuedBy(c, e.posts, m.data) == QueuedBy(c, e.posts, m.data);
    assert [] + e.delivered == e.delivered;
    match m.kind
    case Send =>
      var own := Msg(Echo, m.data, c.self);
      var a1 := a.(th := Thread(own, Dispatch, []), queued := [own]);
      assert [] + [own] == [own];
      HandlesSend(c, a);
      HandlesEcho(c, a1);
      var f := OnEcho(c, s, own);
      assert [own] + QueuedBy(c, f.posts, m.data) == QueuedBy(c, e.posts, m.data);
      LeadsOn(Stepper(c), a, a1, After(a1, f, QueuedBy(c, f.posts, m.data)));
    case Echo => HandlesEcho(c, a);
    case Ready => HandlesReady(c, a);
  }
}
