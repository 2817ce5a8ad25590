/** One session of one node under several handler threads. Reading a flag, the locked insert and
    count, a compare-exchange, stamping the message object and queueing a reference to it are
    separate steps, and steps of different threads interleave freely. */
module Interleaving {
  import opened SessionStep

  type Tid = nat

  /** Where a thread stands in processMessage. Pcs that follow a count carry the captured count. */
  datatype Pc =
    | Dispatch
    | EchoRead | EchoInsert | EchoTest(count: nat) | EchoCas
    | ReadyRead | ReadyInsert | ReadyTest(count: nat) | ReadyCas(count: nat)
    | DeliverTest(count: nat) | DeliverCas | Deliver
    | Stamp(kind: Kind) | Post(kind: Kind)
    | Done

  /** A handler thread owns one message object, whose type and node id broadcast overwrites.
      outer holds the counts captured by the calls suspended in broadcast. */
  datatype Thread = Thread(obj: Msg, pc: Pc, outer: seq<nat>)

  /** What a step does besides moving its thread and changing the session. */
  datatype Deed = Quiet | WinReady | WinDeliver | Queue(kind: Kind) | Delivered

  datatype Step = Step(sess: Sess, th: Thread, act: Deed)

  /** Returning from processMessage: into the call suspended in broadcast, or out of the handler. */
  function Return(th: Thread): Thread {
    if th.outer == [] then th.(pc := Done)
    else th.(pc := DeliverTest(th.outer[|th.outer| - 1]), outer := th.outer[..|th.outer| - 1])
  }

  /** One step of a thread on the shared session. */
  function ThreadStep(c: Params, s: Sess, th: Thread): Step {
    var m := th.obj;
    match th.pc
    case Dispatch =>
      Step(s, th.(pc := match m.kind case Send => Stamp(Echo) case Echo => EchoRead case Ready => ReadyRead), Quiet)
    case EchoRead =>
      Step(s, if s.readySent then Return(th) else th.(pc := EchoInsert), Quiet)
    case EchoInsert =>
      var echo := Insert(s.echo, m.data, m.node);
      Step(s.(echo := echo), th.(pc := EchoTest(|Get(echo, m.data)|)), Quiet)
    case EchoTest(count) =>
      Step(s, if count >= c.q then th.(pc := EchoCas) else Return(th), Quiet)
    case EchoCas =>
      if s.readySent then Step(s, Return(th), Quiet)
      else Step(s.(readySent := true), th.(pc := Stamp(Ready)), WinReady)
    case ReadyRead =>
      Step(s, if s.delivered then Return(th) else th.(pc := ReadyInsert), Quiet)
    case ReadyInsert =>
      var ready := Insert(s.ready, m.data, m.node);
      Step(s.(ready := ready), th.(pc := ReadyTest(|Get(ready, m.data)|)), Quiet)
    case ReadyTest(count) =>
      Step(s, th.(pc := if !s.readySent && count > c.t then ReadyCas(count) else DeliverTest(count)), Quiet)
    case ReadyCas(count) =>
      if s.readySent then Step(s, th.(pc := DeliverTest(count)), Quiet)
      else Step(s.(readySent := true), th.(pc := Stamp(Ready), outer := th.outer + [count]), WinReady)
    case DeliverTest(count) =>
      Step(s, if !s.delivered && count > 2 * c.t then th.(pc := DeliverCas) else Return(th), Quiet)
    case DeliverCas =>
      if s.delivered then Step(s, Return(th), Quiet)
      else Step(s.(delivered := true), th.(pc := Deliver), WinDeliver)
    case Deliver => Step(s, Return(th), Delivered)
    case Stamp(kind) => Step(s, th.(obj := Msg(kind, m.data, c.self), pc := Post(kind)), Quiet)
    case Post(kind) => Step(s, th.(pc := Dispatch), Queue(kind))
    case Done => Step(s, th, Quiet)
  }

  /** When a queued broadcast is turned into bytes: Deferred is the code, which queues a reference
      and encodes later; Copied is the variant that encodes at the call. */
  datatype Mode = Copied | Deferred

  datatype Winner = None | Won(tid: Tid, data: Data)

  /** The shared session, the threads, the queued references and the buffers sent. The last five
      fields only record history: the messages taken in, which thread won each flag and for what,
      how often READY was queued, and the payloads delivered. */
  datatype Node = Node(
    sess: Sess, threads: map<Tid, Thread>, outbox: seq<Tid>, sent: set<Msg>,
    handled: set<Msg>, ready: Winner, commit: Winner, readyPosts: nat, log: seq<Data>)

  const FRESH := Node(INITIAL, map[], [], {}, {}, None, None, 0, [])

  function RunThread(c: Params, mode: Mode, s: Node, tid: Tid): Node
    requires tid in s.threads
  {
    var th := s.threads[tid];
    var st := ThreadStep(c, s.sess, th);
    var s' := s.(sess := st.sess, threads := s.threads[tid := st.th]);
    match st.act
    case Quiet => s'
    case WinReady => s'.(ready := Won(tid, th.obj.data))
    case WinDeliver => s'.(commit := Won(tid, th.obj.data))
    case Delivered => s'.(log := s.log + [th.obj.data])
    case Queue(k) =>
      var s'' := if k == Ready then s'.(readyPosts := s.readyPosts + 1) else s';
      if mode == Copied then s''.(sent := s.sent + {th.obj}) else s''.(outbox := s.outbox + [tid])
  }

  datatype Action = Receive(tid: Tid, msg: Msg) | Run(tid: Tid) | Encode(index: nat)

  predicate Enabled(s: Node, a: Action) {
    match a
    case Receive(tid, _) => tid !in s.threads
    case Run(tid) => tid in s.threads
    case Encode(i) => i < |s.outbox| && s.outbox[i] in s.threads
  }

  function Apply(c: Params, mode: Mode, s: Node, a: Action): Node
    requires Enabled(s, a)
  {
    match a
    case Receive(tid, msg) =>
      s.(threads := s.threads[tid := Thread(msg, Dispatch, [])], handled := s.handled + {msg})
    case Run(tid) => RunThread(c, mode, s, tid)
    case Encode(i) =>
      s.(outbox := s.outbox[..i] + s.outbox[i + 1..], sent := s.sent + {s.threads[s.outbox[i]].obj})
  }

  /** The node has taken in a SEND of payload d. */
  ghost predicate TookSend(s: Node, d: Data) {
    exists p :: Msg(Send, d, p) in s.handled
  }
}
