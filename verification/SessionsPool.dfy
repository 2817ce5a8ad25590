/** One node with many sessions and many handler threads. Every call of processMessage, re-entrant ones
    included, looks its session up in the pool; the lookup, the allocation of a candidate and the
    locked insert-or-adopt are separate steps that interleave with everything else. */
module SessionsPool {
  import opened SessionStep
  import opened Interleaving
  import opened ThreadInvariants
  import opened Broadcaster

  /** Where a handler is: looking its session up, having missed, holding a candidate, or inside. */
  datatype Where = Looking | Missed | Holding(ref: nat) | Inside(ref: nat)

  /** refs are the session objects of the calls suspended in broadcast, as outer is for counts. */
  datatype Handler = Handler(id: Id, th: Thread, at: Where, refs: seq<nat>)

  datatype Object = Object(id: Id, sess: Sess)

  /** The pool, all session objects ever allocated, the handlers, the queued references by session,
      the messages sent and taken in, and the delivery log. */
  datatype Machine = Machine(
    table: map<Id, nat>, objects: seq<Object>, handlers: map<Tid, Handler>, queues: map<Id, seq<Tid>>,
    sent: set<(Id, Msg)>, taken: set<(Id, Msg)>, log: seq<(Id, Data)>)

  const EMPTY := Machine(map[], [], map[], map[], {}, {}, [])

  function QueueOf(m: Machine, id: Id): seq<Tid> {
    if id in m.queues then m.queues[id] else []
  }

  function Set(m: Machine, tid: Tid, h: Handler): Machine {
    m.(handlers := m.handlers[tid := h])
  }

  /** getSession: a shared-lock lookup. */
  function LookUp(m: Machine, tid: Tid, h: Handler): Machine {
    Set(m, tid, h.(at := if h.id in m.table then Inside(m.table[h.id]) else Missed))
  }

  /** The first half of addSession: a candidate is allocated outside the lock. */
  function Allocate(m: Machine, tid: Tid, h: Handler): Machine {
    Set(m, tid, h.(at := Holding(|m.objects|))).(objects := m.objects + [Object(h.id, INITIAL)])
  }

  /** The second half: under the lock the candidate is inserted, or dropped for the one found. */
  function Adopt(m: Machine, tid: Tid, h: Handler, ref: nat): Machine {
    if h.id in m.table then Set(m, tid, h.(at := Inside(m.table[h.id])))
    else Set(m, tid, h.(at := Inside(ref))).(table := m.table[h.id := ref])
  }

  /** A step inside a session: broadcast re-enters through the pool, returning leads back outside. */
  function StepInside(c: Params, m: Machine, tid: Tid, h: Handler, ref: nat): Machine
    requires ref < |m.objects|
  {
    var st := ThreadStep(c, m.objects[ref].sess, h.th);
    var h' :=
      if st.act.Queue? then h.(th := st.th, at := Looking)
      else if |st.th.outer| > |h.th.outer| then h.(th := st.th, refs := h.refs + [ref])
      else if |st.th.outer| < |h.th.outer| && h.refs != []
      then h.(th := st.th, at := Inside(h.refs[|h.refs| - 1]), refs := h.refs[..|h.refs| - 1])
      else h.(th := st.th);
    var m' := Set(m, tid, h').(objects := m.objects[ref := Object(m.objects[ref].id, st.sess)]);
    match st.act
    case Queue(_) => m'.(queues := m.queues[h.id := QueueOf(m, h.id) + [tid]])
    case Delivered => m'.(log := m.log + [(h.id, h.th.obj.data)])
    case _ => m'
  }

  datatype Move = Take(tid: Tid, id: Id, msg: Msg) | Go(tid: Tid) | Flush(id: Id, index: nat)

  ghost predicate Possible(m: Machine, v: Move) {
    match v
    case Take(tid, _, _) => tid !in m.handlers
    case Go(tid) =>
      tid in m.handlers && (m.handlers[tid].at.Inside? ==> m.handlers[tid].at.ref < |m.objects|)
    case Flush(id, i) => i < |QueueOf(m, id)| && QueueOf(m, id)[i] in m.handlers
  }

  function Moved(params: Id -> Params, m: Machine, v: Move): Machine
    requires Possible(m, v)
  {
    match v
    case Take(tid, id, msg) =>
      Set(m, tid, Handler(id, Thread(msg, Dispatch, []), Looking, [])).(taken := m.taken + {(id, msg)})
    case Go(tid) =>
      var h := m.handlers[tid];
      (match h.at
       case Looking => LookUp(m, tid, h)
       case Missed => Allocate(m, tid, h)
       case Holding(ref) => Adopt(m, tid, h, ref)
       case Inside(ref) => StepInside(params(h.id), m, tid, h, ref))
    case Flush(id, i) =>
      var q := QueueOf(m, id);
      m.(queues := m.queues[id := q[..i] + q[i + 1..]], sent := m.sent + {(id, m.handlers[q[i]].th.obj)})
  }

  ghost predicate Pooled(m: Machine, id: Id, ref: nat) {
    id in m.table && ref == m.table[id]
  }

  /** Handlers of one session are inside one object, the one in the pool. */
  ghost predicate HandlerOk(m: Machine, h: Handler) {
    && |h.refs| == |h.th.outer|
    && (forall i :: 0 <= i < |h.refs| ==> Pooled(m, h.id, h.refs[i]))
    && match h.at
       case Inside(ref) => Pooled(m, h.id, ref)
       case Holding(ref) =>
         && h.th.pc == Dispatch && ref < |m.objects| && m.objects[ref] == Object(h.id, INITIAL)
         && forall id :: id in m.table ==> m.table[id] != ref
       case _ => h.th.pc == Dispatch
  }

  /** No two handlers hold one candidate. */
  ghost predicate Apart(m: Machine) {
    forall s, t ::
      s in m.handlers && t in m.handlers && s != t && m.handlers[s].at.Holding? && m.handlers[t].at.Holding?
      ==> m.handlers[s].at.ref != m.handlers[t].at.ref
  }

  ghost predicate PoolOk(m: Machine) {
    && (forall id :: id in m.table ==> m.table[id] < |m.objects| && m.objects[m.table[id]].id == id)
    && (forall tid :: tid in m.handlers ==> HandlerOk(m, m.handlers[tid]))
    && Apart(m)
  }

  function SessOf(m: Machine, id: Id): Sess {
    if id in m.table && m.table[id] < |m.objects| then m.objects[m.table[id]].sess else INITIAL
  }

  function ThreadsOf(m: Machine, id: Id): map<Tid, Thread> {
    map t | t in m.handlers && m.handlers[t].id == id :: m.handlers[t].th
  }

  function LogOf(log: seq<(Id, Data)>, id: Id): seq<Data> {
    if log == [] then []
    else
      var (k, d) := log[|log| - 1];
      LogOf(log[..|log| - 1], id) + if k == id then [d] else []
  }

  /** The part of the machine that belongs to session id is the single-session node s. */
  ghost predicate Shows(m: Machine, id: Id, s: Node) {
    && s.sess == SessOf(m, id) && s.threads == ThreadsOf(m, id) && s.outbox == QueueOf(m, id)
    && s.log == LogOf(m.log, id)
    && (forall v :: (id, v) in m.sent <==> v in s.sent)
    && (forall v :: (id, v) in m.taken <==> v in s.handled)
  }

  /** How a thread step moves the suspended calls: winning by READY pushes one, returning pops one. */
  lemma OuterSteps(c: Params, s: Sess, th: Thread)
    ensures var st := ThreadStep(c, s, th);
      && |st.th.outer| <= |th.outer| + 1 && |th.outer| <= |st.th.outer| + 1
      && (st.act.Queue? ==> st.th.pc == Dispatch && st.th.outer == th.outer)
  {
    hide Insert, Get;
  }

  /** The pool and the objects of m' extend those of m, and leave the candidate of h alone. */
  ghost predicate Extends(m: Machine, m': Machine, h: Handler) {
    && (forall id :: id in m.table ==> id in m'.table && m'.table[id] == m.table[id])
    && |m.objects| <= |m'.objects|
    && (h.at.Holding? ==>
          && (h.at.ref < |m.objects| ==> m'.objects[h.at.ref] == m.objects[h.at.ref])
          && forall id :: id in m'.table && id !in m.table ==> m'.table[id] != h.at.ref)
  }

  lemma ExtendsOk(m: Machine, m': Machine, h: Handler)
    requires HandlerOk(m, h) && Extends(m, m', h)
    ensures HandlerOk(m', h)
  {
    match h.at
    case Holding(ref) =>
      forall id | id in m'.table
        ensures m'.table[id] != ref
      {
        assert id in m.table ==> m.table[id] != ref;
      }
    case _ =>
  }

  /** What a step inside a session touches: its object, its handler, and what that session queues or delivers. */
  lemma InsideShape(c: Params, m: Machine, tid: Tid, h: Handler, ref: nat)
    requires tid in m.handlers && ref < |m.objects|
    ensures var m', st := StepInside(c, m, tid, h, ref), ThreadStep(c, m.objects[ref].sess, h.th);
      && m'.table == m.table && m'.objects == m.objects[ref := Object(m.objects[ref].id, st.sess)]
      && tid in m'.handlers && m'.handlers == m.handlers[tid := m'.handlers[tid]]
      && m'.handlers[tid].id == h.id && m'.handlers[tid].th == st.th
      && m'.sent == m.sent && m'.taken == m.taken
      && m'.queues == (if st.act.Queue? then m.queues[h.id := QueueOf(m, h.id) + [tid]] else m.queues)
      && m'.log == if st.act.Delivered? then m.log + [(h.id, h.th.obj.data)] else m.log
  {
    hide ThreadStep;
  }

  /** A handler keeps its place when others move: the pool only grows, and candidates stay candidates. */
  lemma OthersKept(params: Id -> Params, m: Machine, tid: Tid, t: Tid)
    requires PoolOk(m) && Possible(m, Go(tid)) && t in m.handlers && t != tid
    ensures Moved(params, m, Go(tid)).handlers[t] == m.handlers[t]
    ensures HandlerOk(Moved(params, m, Go(tid)), m.handlers[t])
  {
    hide StepInside;
    var m', h := Moved(params, m, Go(tid)), m.handlers[t];
    var g := m.handlers[tid];
    assert HandlerOk(m, g) && HandlerOk(m, h);
    if g.at.Holding? && h.at.Holding? {
      assert g.at.ref != h.at.ref;
    }
    if g.at.Inside? {
      InsideShape(params(g.id), m, tid, g, g.at.ref);
    }
    assert Extends(m, m', h);
    ExtendsOk(m, m', h);
  }

  lemma OwnInsideKept(c: Params, m: Machine, tid: Tid, h: Handler, ref: nat)
    requires PoolOk(m) && tid in m.handlers && h == m.handlers[tid] && h.at == Inside(ref) && ref < |m.objects|
    ensures HandlerOk(StepInside(c, m, tid, h, ref), StepInside(c, m, tid, h, ref).handlers[tid])
  {
    hide ThreadStep;
    assert HandlerOk(m, h);
    OuterSteps(c, m.objects[ref].sess, h.th);
  }

  lemma OwnKept(params: Id -> Params, m: Machine, tid: Tid)
    requires PoolOk(m) && Possible(m, Go(tid))
    ensures HandlerOk(Moved(params, m, Go(tid)), Moved(params, m, Go(tid)).handlers[tid])
  {
    hide StepInside;
    var h := m.handlers[tid];
    assert HandlerOk(m, h);
    match h.at
    case Inside(ref) => OwnInsideKept(params(h.id), m, tid, h, ref);
    case Looking =>
    case Missed =>
    case Holding(ref) =>
  }

  lemma HandlersKept(params: Id -> Params, m: Machine, v: Move)
    requires PoolOk(m) && Possible(m, v)
    ensures var m' := Moved(params, m, v); forall t :: t in m'.handlers ==> HandlerOk(m', m'.handlers[t])
  {
    hide StepInside, HandlerOk;
    var m' := Moved(params, m, v);
    forall t | t in m'.handlers
      ensures HandlerOk(m', m'.handlers[t])
    {
      if v.Go? && t == v.tid {
        OwnKept(params, m, t);
      } else if v.Go? {
        GoHandlers(params, m, v.tid);
        OthersKept(params, m, v.tid, t);
      } else if t in m.handlers {
        ExtendsOk(m, m', m.handlers[t]);
      } else {
        NewcomerOk(m', m'.handlers[t]);
      }
    }
  }

  lemma NewcomerOk(m: Machine, h: Handler)
    requires h.at == Looking && h.refs == [] && h.th.outer == [] && h.th.pc == Dispatch
    ensures HandlerOk(m, h)
  {
  }

  lemma GoHandlers(params: Id -> Params, m: Machine, tid: Tid)
    requires Possible(m, Go(tid))
    ensures Moved(params, m, Go(tid)).handlers.Keys == m.handlers.Keys
  {
    hide ThreadStep;
  }

  lemma ObjectsKept(params: Id -> Params, m: Machine, v: Move)
    requires PoolOk(m) && Possible(m, v)
    ensures var m' := Moved(params, m, v);
      forall id :: id in m'.table ==> m'.table[id] < |m'.objects| && m'.objects[m'.table[id]].id == id
  {
    hide ThreadStep, StepInside;
    if v.Go? {
      var h := m.handlers[v.tid];
      assert HandlerOk(m, h);
      if h.at.Inside? {
        InsideShape(params(h.id), m, v.tid, h, h.at.ref);
      }
    }
  }

  /** A handler of m' that holds a candidate held it in m, or holds a new object. */
  lemma HoldingFrom(params: Id -> Params, m: Machine, v: Move, t: Tid)
    requires PoolOk(m) && Possible(m, v)
    requires var m' := Moved(params, m, v); t in m'.handlers && m'.handlers[t].at.Holding?
    ensures var h := Moved(params, m, v).handlers[t];
      if t in m.handlers && m.handlers[t].at == h.at then h.at.ref < |m.objects|
      else v == Go(t) && h.at.ref == |m.objects|
  {
    hide ThreadStep, StepInside;
    if t in m.handlers {
      assert HandlerOk(m, m.handlers[t]);
    }
    if v.Go? && v.tid in m.handlers && m.handlers[v.tid].at.Inside? {
      assert HandlerOk(m, m.handlers[v.tid]);
      InsideStays(params(m.handlers[v.tid].id), m, v.tid, m.handlers[v.tid], m.handlers[v.tid].at.ref);
    }
  }

  lemma InsideStays(c: Params, m: Machine, tid: Tid, h: Handler, ref: nat)
    requires tid in m.handlers && h == m.handlers[tid] && h.at == Inside(ref) && ref < |m.objects|
    ensures var m' := StepInside(c, m, tid, h, ref);
      tid in m'.handlers && m'.handlers == m.handlers[tid := m'.handlers[tid]] && !m'.handlers[tid].at.Holding?
  {
    hide ThreadStep;
  }

  lemma CandidatesKept(params: Id -> Params, m: Machine, v: Move)
    requires PoolOk(m) && Possible(m, v)
    ensures Apart(Moved(params, m, v))
  {
    hide Moved, HandlerOk, Possible;
    var m' := Moved(params, m, v);
    forall s, t |
      s in m'.handlers && t in m'.handlers && s != t && m'.handlers[s].at.Holding? && m'.handlers[t].at.Holding?
      ensures m'.handlers[s].at.ref != m'.handlers[t].at.ref
    {
      HoldingFrom(params, m, v, s);
      HoldingFrom(params, m, v, t);
    }
  }

  lemma PoolKept(params: Id -> Params, m: Machine, v: Move)
    requires PoolOk(m) && Possible(m, v)
    ensures PoolOk(Moved(params, m, v))
  {
    hide Moved, HandlerOk;
    HandlersKept(params, m, v);
    ObjectsKept(params, m, v);
    CandidatesKept(params, m, v);
  }

  lemma LogAppend(log: seq<(Id, Data)>, k: Id, d: Data, id: Id)
    ensures LogOf(log + [(k, d)], id) == LogOf(log, id) + if k == id then [d] else []
  {
    assert (log + [(k, d)])[..|log|] == log;
  }

  lemma ThreadsOfSet(m: Machine, m': Machine, tid: Tid, id: Id)
    requires tid in m'.handlers && m'.handlers == m.handlers[tid := m'.handlers[tid]]
    requires tid in m.handlers ==> m.handlers[tid].id == m'.handlers[tid].id
    ensures ThreadsOf(m', id) ==
      if m'.handlers[tid].id == id then ThreadsOf(m, id)[tid := m'.handlers[tid].th] else ThreadsOf(m, id)
  {
  }

  /** The single-session action a move amounts to, for the session it concerns. */
  ghost function Amounts(m: Machine, v: Move): (a: Action)
    requires Possible(m, v)
  {
    match v
    case Take(tid, _, msg) => Receive(tid, msg)
    case Go(tid) => Run(tid)
    case Flush(_, i) => Encode(i)
  }

  /** The session a move is about, and whether it is a step of that session or only of the pool. */
  function Subject(m: Machine, v: Move): Id
    requires Possible(m, v)
  {
    match v case Take(_, id, _) => id case Go(tid) => m.handlers[tid].id case Flush(id, _) => id
  }

  ghost predicate Visible(m: Machine, v: Move)
    requires Possible(m, v)
  {
    v.Go? ==> m.handlers[v.tid].at.Inside?
  }

  lemma TakeShows(params: Id -> Params, m: Machine, tid: Tid, k: Id, msg: Msg, id: Id, s: Node)
    requires Possible(m, Take(tid, k, msg)) && Shows(m, id, s)
    ensures var m' := Moved(params, m, Take(tid, k, msg));
      if k == id then Enabled(s, Receive(tid, msg)) && Shows(m', id, Apply(params(id), Deferred, s, Receive(tid, msg)))
      else Shows(m', id, s)
  {
    ThreadsOfSet(m, Moved(params, m, Take(tid, k, msg)), tid, id);
  }

  lemma FlushShows(params: Id -> Params, m: Machine, k: Id, i: nat, id: Id, s: Node)
    requires Possible(m, Flush(k, i)) && Shows(m, id, s)
    requires k == id ==> QueueOf(m, id)[i] in s.threads
    ensures var m' := Moved(params, m, Flush(k, i));
      if k == id then Enabled(s, Encode(i)) && Shows(m', id, Apply(params(id), Deferred, s, Encode(i)))
      else Shows(m', id, s)
  {
    var m' := Moved(params, m, Flush(k, i));
    assert ThreadsOf(m', id) == ThreadsOf(m, id);
  }

  lemma RelocatedThreads(m: Machine, tid: Tid, h: Handler, at: Where, id: Id)
    requires tid in m.handlers && h == m.handlers[tid]
    ensures ThreadsOf(Set(m, tid, h.(at := at)), id) == ThreadsOf(m, id)
  {
  }

  /** The pool and its candidates changed, but no session and no thread did. */
  ghost predicate SameSessions(m: Machine, m': Machine, id: Id) {
    && SessOf(m', id) == SessOf(m, id) && ThreadsOf(m', id) == ThreadsOf(m, id)
    && m'.queues == m.queues && m'.log == m.log && m'.sent == m.sent && m'.taken == m.taken
  }

  lemma AllocateSame(m: Machine, tid: Tid, h: Handler, id: Id)
    requires PoolOk(m) && tid in m.handlers && h == m.handlers[tid]
    ensures SameSessions(m, Allocate(m, tid, h), id)
  {
    RelocatedThreads(m, tid, h, Holding(|m.objects|), id);
  }

  lemma AdoptSame(m: Machine, tid: Tid, h: Handler, ref: nat, id: Id)
    requires PoolOk(m) && tid in m.handlers && h == m.handlers[tid] && h.at == Holding(ref)
    ensures SameSessions(m, Adopt(m, tid, h, ref), id)
  {
    assert HandlerOk(m, h);
    RelocatedThreads(m, tid, h, Adopt(m, tid, h, ref).handlers[tid].at, id);
  }

  lemma LookUpSame(m: Machine, tid: Tid, h: Handler, id: Id)
    requires tid in m.handlers && h == m.handlers[tid]
    ensures SameSessions(m, LookUp(m, tid, h), id)
  {
    RelocatedThreads(m, tid, h, LookUp(m, tid, h).handlers[tid].at, id);
  }

  /** Looking up, allocating and adopting move no session and no thread. */
  lemma PoolMoveShows(params: Id -> Params, m: Machine, tid: Tid, id: Id, s: Node)
    requires PoolOk(m) && Possible(m, Go(tid)) && !m.handlers[tid].at.Inside? && Shows(m, id, s)
    ensures Shows(Moved(params, m, Go(tid)), id, s)
  {
    hide LookUp, Allocate, Adopt, StepInside, ThreadsOf, LogOf, SessOf, PoolOk;
    var h := m.handlers[tid];
    match h.at
    case Looking => LookUpSame(m, tid, h, id);
    case Missed => AllocateSame(m, tid, h, id);
    case Holding(ref) => AdoptSame(m, tid, h, ref, id);
  }

  lemma InsideOther(c: Params, m: Machine, tid: Tid, h: Handler, ref: nat, id: Id, s: Node)
    requires PoolOk(m) && tid in m.handlers && h == m.handlers[tid] && h.at == Inside(ref) && ref < |m.objects|
    requires Shows(m, id, s) && h.id != id
    ensures Shows(StepInside(c, m, tid, h, ref), id, s)
  {
    hide StepInside, ThreadStep;
    var m' := StepInside(c, m, tid, h, ref);
    assert HandlerOk(m, h);
    InsideShape(c, m, tid, h, ref);
    LogAppend(m.log, h.id, h.th.obj.data, id);
    ThreadsOfSet(m, m', tid, id);
  }

  /** The step as the single-session node takes it, field by field. */
  lemma RunFields(c: Params, s: Node, tid: Tid)
    requires tid in s.threads
    ensures var st, s' := ThreadStep(c, s.sess, s.threads[tid]), RunThread(c, Deferred, s, tid);
      && s'.sess == st.sess && s'.threads == s.threads[tid := st.th] && s'.sent == s.sent && s'.handled == s.handled
      && s'.outbox == (if st.act.Queue? then s.outbox + [tid] else s.outbox)
      && s'.log == if st.act.Delivered? then s.log + [s.threads[tid].obj.data] else s.log
  {
    hide ThreadStep;
  }

  lemma InsideOwn(c: Params, m: Machine, tid: Tid, h: Handler, ref: nat, id: Id, s: Node)
    requires PoolOk(m) && tid in m.handlers && h == m.handlers[tid] && h.at == Inside(ref) && ref < |m.objects|
    requires Shows(m, id, s) && h.id == id
    ensures tid in s.threads && Shows(StepInside(c, m, tid, h, ref), id, RunThread(c, Deferred, s, tid))
  {
    hide StepInside, ThreadStep, RunThread, LogOf;
    var m' := StepInside(c, m, tid, h, ref);
    assert HandlerOk(m, h);
    InsideShape(c, m, tid, h, ref);
    LogAppend(m.log, h.id, h.th.obj.data, id);
    ThreadsOfSet(m, m', tid, id);
    RunFields(c, s, tid);
  }

  /** Isolation: a move about one session leaves what every other session shows as it was, and a pool
      move leaves what every session shows. */
  lemma Isolation(params: Id -> Params, m: Machine, v: Move, id: Id, s: Node)
    requires PoolOk(m) && Possible(m, v) && Shows(m, id, s)
    requires Subject(m, v) != id || !Visible(m, v)
    ensures Shows(Moved(params, m, v), id, s)
  {
    hide StepInside, Shows, HandlerOk, PoolOk;
    match v
    case Take(tid, k, msg) => TakeShows(params, m, tid, k, msg, id, s);
    case Flush(k, i) => FlushShows(params, m, k, i, id, s);
    case Go(tid) =>
      var h := m.handlers[tid];
      if h.at.Inside? {
        InsideOther(params(h.id), m, tid, h, h.at.ref, id, s);
      } else {
        PoolMoveShows(params, m, tid, id, s);
      }
  }

  /** A visible move is one action of the single-session node. */
  lemma Refines(params: Id -> Params, m: Machine, v: Move, id: Id, s: Node)
    requires PoolOk(m) && Possible(m, v) && Shows(m, id, s) && Subject(m, v) == id && Visible(m, v)
    requires v.Flush? ==> QueueOf(m, id)[v.index] in s.threads
    ensures Enabled(s, Amounts(m, v))
    ensures Shows(Moved(params, m, v), id, Apply(params(id), Deferred, s, Amounts(m, v)))
  {
    hide StepInside, Shows, HandlerOk, PoolOk, RunThread;
    match v
    case Take(tid, k, msg) => TakeShows(params, m, tid, k, msg, id, s);
    case Flush(k, i) => FlushShows(params, m, k, i, id, s);
    case Go(tid) => InsideOwn(params(id), m, tid, m.handlers[tid], m.handlers[tid].at.ref, id, s);
  }

  ghost predicate Moves(params: Id -> Params, m: Machine, m': Machine) {
    exists v :: Possible(m, v) && m' == Moved(params, m, v)
  }

  ghost predicate IsMachineRun(params: Id -> Params, run: seq<Machine>) {
    run != [] && run[0] == EMPTY && forall i :: 0 <= i < |run| - 1 ==> Moves(params, run[i], run[i + 1])
  }

  lemma {:induction false} PoolAlways(params: Id -> Params, run: seq<Machine>)
    requires IsMachineRun(params, run)
    ensures PoolOk(run[|run| - 1])
  {
    hide Moved;
    if |run| > 1 {
      var m := run[|run| - 2];
      PoolAlways(params, run[..|run| - 1]);
      assert Moves(params, m, run[|run| - 1]);
      var v :| Possible(m, v) && run[|run| - 1] == Moved(params, m, v);
      PoolKept(params, m, v);
    }
  }

  /** The single-session node takes one of its own actions, or none. */
  ghost predicate Stutters(c: Params, s: Node, s': Node) {
    s' == s || exists a :: Enabled(s, a) && s' == Apply(c, Deferred, s, a)
  }

  ghost predicate IsNodeRun(c: Params, run: seq<Node>) {
    run != [] && run[0] == FRESH && forall i :: 0 <= i < |run| - 1 ==> Stutters(c, run[i], run[i + 1])
  }

  lemma {:induction false} NodeAlways(c: Params, run: seq<Node>)
    requires IsNodeRun(c, run) && c.q >= 1
    ensures Inv(c, Deferred, run[|run| - 1])
  {
    hide Inv, Apply, Enabled;
    if |run| == 1 {
      FreshOk(c, Deferred);
    } else {
      var s, s' := run[|run| - 2], run[|run| - 1];
      NodeAlways(c, run[..|run| - 1]);
      assert Stutters(c, s, s');
      if s' != s {
        var a :| Enabled(s, a) && s' == Apply(c, Deferred, s, a);
        InvKept(c, Deferred, s, a);
      }
    }
  }

  lemma MoveSimulated(params: Id -> Params, m: Machine, v: Move, id: Id, s: Node) returns (s': Node)
    requires PoolOk(m) && Possible(m, v) && Shows(m, id, s) && Inv(params(id), Deferred, s)
    ensures Shows(Moved(params, m, v), id, s') && Stutters(params(id), s, s')
  {
    hide PoolOk, Moved, ThreadsOk, FlagsOk, VotesOk, TriggersOk, IntakeOk, OwnVotesOk, AnnouncedOk, Apply;
    if Subject(m, v) == id && Visible(m, v) {
      Refines(params, m, v, id, s);
      s' := Apply(params(id), Deferred, s, Amounts(m, v));
    } else {
      Isolation(params, m, v, id, s);
      s' := s;
    }
  }

  /** Refinement: what a run of the machine shows of one session is, state for state, a run of the
      single-session node. */
  lemma {:induction false} RunSimulated(params: Id -> Params, run: seq<Machine>, id: Id) returns (nodes: seq<Node>)
    requires IsMachineRun(params, run) && params(id).q >= 1
    ensures |nodes| == |run| && IsNodeRun(params(id), nodes)
    ensures forall i :: 0 <= i < |run| ==> Shows(run[i], id, nodes[i])
  {
    hide Inv, Moved, Shows, Stutters;
    if |run| == 1 {
      EmptyShows(id);
      nodes := [FRESH];
    } else {
      var prefix, m := run[..|run| - 1], run[|run| - 2];
      var before := RunSimulated(params, prefix, id);
      assert Moves(params, m, run[|run| - 1]);
      var v :| Possible(m, v) && run[|run| - 1] == Moved(params, m, v);
      PoolAlways(params, prefix);
      NodeAlways(params(id), before);
      assert Shows(prefix[|prefix| - 1], id, before[|prefix| - 1]);
      var s := MoveSimulated(params, m, v, id, before[|before| - 1]);
      nodes := before + [s];
    }
  }

  lemma EmptyShows(id: Id)
    ensures Shows(EMPTY, id, FRESH)
  {
    assert ThreadsOf(EMPTY, id) == map[];
  }

  /** At most one delivery per (chain, client, nonce) in every run, however lookups and handlers interleave. */
  lemma OneDelivery(params: Id -> Params, run: seq<Machine>, id: Id)
    requires IsMachineRun(params, run) && params(id).q >= 1
    ensures |LogOf(run[|run| - 1].log, id)| <= 1
  {
    hide IsNodeRun;
    var nodes := RunSimulated(params, run, id);
    assert Shows(run[|run| - 1], id, nodes[|run| - 1]);
    NodeAlways(params(id), nodes);
    AtMostOnce(params(id), Deferred, nodes[|run| - 1]);
  }

  /** How far a handler is from being inside its session. */
  function PoolRank(h: Handler): nat {
    match h.at case Looking => 3 case Missed => 2 case Holding(_) => 1 case Inside(_) => 0
  }

  /** Every step of a handler outside brings it closer to its session. */
  lemma PoolSteps(params: Id -> Params, m: Machine, tid: Tid)
    requires PoolOk(m) && tid in m.handlers && !m.handlers[tid].at.Inside?
    ensures Possible(m, Go(tid))
    ensures var m' := Moved(params, m, Go(tid));
      && tid in m'.handlers && m'.handlers == m.handlers[tid := m'.handlers[tid]]
      && m'.handlers[tid] == m.handlers[tid].(at := m'.handlers[tid].at)
      && PoolRank(m'.handlers[tid]) < PoolRank(m.handlers[tid])
  {
    hide StepInside;
  }

  /** Other moves leave a handler where it is. */
  lemma PoolWaits(params: Id -> Params, m: Machine, v: Move, tid: Tid)
    requires PoolOk(m) && Possible(m, v) && tid in m.handlers && v != Go(tid)
    ensures var m' := Moved(params, m, v); tid in m'.handlers && m'.handlers[tid] == m.handlers[tid]
  {
    hide StepInside;
    if v.Go? {
      OthersKept(params, m, v.tid, tid);
      GoHandlers(params, m, v.tid);
    }
  }

  ghost predicate IsMoveRun(params: Id -> Params, run: seq<Machine>, moves: seq<Move>) {
    && |run| == |moves| + 1
    && forall i :: 0 <= i < |moves| ==> Possible(run[i], moves[i]) && run[i + 1] == Moved(params, run[i], moves[i])
  }

  /** The number of steps of one handler among moves. */
  function Goes(moves: seq<Move>, tid: Tid): nat {
    if moves == [] then 0 else (if moves[0] == Go(tid) then 1 else 0) + Goes(moves[1..], tid)
  }

  lemma {:induction false} EntersBy(params: Id -> Params, run: seq<Machine>, moves: seq<Move>, tid: Tid)
    returns (j: nat)
    requires IsMoveRun(params, run, moves) && PoolOk(run[0]) && tid in run[0].handlers
    requires Goes(moves, tid) >= PoolRank(run[0].handlers[tid])
    ensures j <= |moves| && tid in run[j].handlers && run[j].handlers[tid].id == run[0].handlers[tid].id
    ensures run[j].handlers[tid].at.Inside? && PoolOk(run[j])
    decreases |moves|
  {
    hide PoolOk, Moved, Possible;
    var h := run[0].handlers[tid];
    if h.at.Inside? {
      j := 0;
    } else {
      assert moves != [];
      assert run[0 + 1] == Moved(params, run[0], moves[0]);
      PoolKept(params, run[0], moves[0]);
      if moves[0] == Go(tid) {
        PoolSteps(params, run[0], tid);
      } else {
        PoolWaits(params, run[0], moves[0], tid);
      }
      var k := EntersBy(params, run[1..], moves[1..], tid);
      j := k + 1;
    }
  }

  /** Three steps of its own bring any handler into the one session of its id, whatever others do between. */
  lemma Enters(params: Id -> Params, run: seq<Machine>, moves: seq<Move>, tid: Tid) returns (j: nat)
    requires IsMoveRun(params, run, moves) && PoolOk(run[0]) && tid in run[0].handlers && Goes(moves, tid) >= 3
    ensures j <= |moves| && tid in run[j].handlers
    ensures var id := run[0].handlers[tid].id;
      id in run[j].table && run[j].handlers[tid].id == id && run[j].handlers[tid].at == Inside(run[j].table[id])
  {
    hide Moved, Possible;
    j := EntersBy(params, run, moves, tid);
    assert HandlerOk(run[j], run[j].handlers[tid]);
  }

  /** A handler that has queued a broadcast re-enters through the pool, and will find there the very object it left. */
  lemma Reenters(params: Id -> Params, m: Machine, tid: Tid)
    requires PoolOk(m) && tid in m.handlers && m.handlers[tid].at.Inside? && m.handlers[tid].th.pc.Post?
    ensures Possible(m, Go(tid))
    ensures var m', id := Moved(params, m, Go(tid)), m.handlers[tid].id;
      && tid in m'.handlers && m'.handlers[tid].at == Looking && m'.handlers[tid].id == id
      && id in m'.table && Inside(m'.table[id]) == m.handlers[tid].at
  {
    assert HandlerOk(m, m.handlers[tid]);
  }

  /** No handler and no queued reference is ever stuck: each has a move, and outside a session the move leads
      closer to it. */
  lemma NothingBlocked(params: Id -> Params, run: seq<Machine>, id: Id)
    requires IsMachineRun(params, run) && params(id).q >= 1
    ensures forall tid :: tid in run[|run| - 1].handlers ==> Possible(run[|run| - 1], Go(tid))
    ensures forall tid :: tid in run[|run| - 1].handlers && !run[|run| - 1].handlers[tid].at.Inside? ==>
      var m' := Moved(params, run[|run| - 1], Go(tid));
      tid in m'.handlers && PoolRank(m'.handlers[tid]) < PoolRank(run[|run| - 1].handlers[tid])
    ensures forall i :: 0 <= i < |QueueOf(run[|run| - 1], id)| ==> Possible(run[|run| - 1], Flush(id, i))
  {
    hide IsMachineRun, Possible, Moved, PoolOk, PoolRank;
    assert run != [] by {
      MachineRunStarts(params, run);
    }
    PoolAlways(params, run);
    HandlersMove(params, run[|run| - 1]);
    QueueMoves(params, run, id);
  }

  lemma MachineRunStarts(params: Id -> Params, run: seq<Machine>)
    requires IsMachineRun(params, run)
    ensures run != []
  {
  }

  lemma HandlersMove(params: Id -> Params, m: Machine)
    requires PoolOk(m)
    ensures forall tid :: tid in m.handlers ==> Possible(m, Go(tid))
    ensures forall tid :: tid in m.handlers && !m.handlers[tid].at.Inside? ==>
      var m' := Moved(params, m, Go(tid));
      tid in m'.handlers && PoolRank(m'.handlers[tid]) < PoolRank(m.handlers[tid])
  {
    forall tid | tid in m.handlers
      ensures Possible(m, Go(tid))
    {
      assert HandlerOk(m, m.handlers[tid]);
    }
    hide PoolOk, Possible, Moved, PoolRank;
    forall tid | tid in m.handlers && !m.handlers[tid].at.Inside?
      ensures var m' := Moved(params, m, Go(tid));
        tid in m'.handlers && PoolRank(m'.handlers[tid]) < PoolRank(m.handlers[tid])
    {
      PoolSteps(params, m, tid);
    }
  }

  lemma QueueMoves(params: Id -> Params, run: seq<Machine>, id: Id)
    requires IsMachineRun(params, run) && params(id).q >= 1
    ensures forall i :: 0 <= i < |QueueOf(run[|run| - 1], id)| ==> Possible(run[|run| - 1], Flush(id, i))
  {
    hide IsNodeRun;
    var m := run[|run| - 1];
    var nodes := RunSimulated(params, run, id);
    assert Shows(m, id, nodes[|run| - 1]);
    NodeAlways(params(id), nodes);
  }

  /** All handlers of one id that are inside a session are inside the same object. */
  lemma SameObject(params: Id -> Params, run: seq<Machine>, a: Tid, b: Tid)
    requires IsMachineRun(params, run)
    requires var m := run[|run| - 1];
      && a in m.handlers && b in m.handlers && m.handlers[a].id == m.handlers[b].id
      && m.handlers[a].at.Inside? && m.handlers[b].at.Inside?
    ensures var m := run[|run| - 1]; m.handlers[a].at == m.handlers[b].at
  {
    var m := run[|run| - 1];
    PoolAlways(params, run);
    assert HandlerOk(m, m.handlers[a]) && HandlerOk(m, m.handlers[b]);
  }
}
