/** What every step of the interleaved session keeps, and what follows once all threads are done. */
module ThreadInvariants {
  import opened SessionStep
  import opened Interleaving
  import opened Sets

  /** Where the node's own messages come from: an ECHO needs a SEND taken in, READY needs the flag. */
  ghost predicate Own(c: Params, s: Node, m: Msg) {
    && m.node == c.self
    && (m.kind == Echo ==> TookSend(s, m.data))
    && (m.kind == Ready ==> s.ready.Won? && s.ready.data == m.data)
    && m.kind != Send
  }

  /** A thread's object is as received until broadcast stamps it with the node's own id. */
  ghost predicate ObjectOk(c: Params, s: Node, th: Thread) {
    (th.obj in s.handled && !th.pc.Post?) || Own(c, s, th.obj)
  }

  /** The type in the object fits the branch the thread is in. */
  ghost predicate ShapeOk(c: Params, th: Thread) {
    && (th.outer != [] ==> th.obj.kind == Ready)
    && match th.pc
       case Dispatch => true
       case Done => th.outer == []
       case EchoRead | EchoInsert | EchoTest(_) | EchoCas => th.obj.kind == Echo
       case Stamp(k) => (k == Echo && th.obj.kind == Send) || (k == Ready && th.obj.kind != Send)
       case Post(k) => th.obj.kind == k && k != Send && th.obj.node == c.self
       case _ => th.obj.kind == Ready
  }

  /** Captured counts never exceed the current sets, and counts that passed a test still pass it. */
  ghost predicate CountOk(c: Params, s: Sess, th: Thread) {
    var e, r := |Get(s.echo, th.obj.data)|, |Get(s.ready, th.obj.data)|;
    && (match th.pc
        case EchoTest(k) => k <= e
        case EchoCas => c.q <= e
        case ReadyTest(k) => k <= r
        case ReadyCas(k) => c.t < k <= r
        case DeliverTest(k) => k <= r && (k > c.t ==> s.readySent)
        case DeliverCas | Deliver => r > 2 * c.t && s.readySent
        case _ => true)
    && (th.outer != [] ==> s.readySent)
    && (forall i :: 0 <= i < |th.outer| ==> th.outer[i] <= r)
  }

  /** Each flag has one winner, and only the winner queues READY or delivers. */
  ghost predicate WinnerOk(s: Node, tid: Tid)
    requires tid in s.threads
  {
    var th := s.threads[tid];
    && (th.pc in {Stamp(Ready), Post(Ready)} ==> s.ready == Won(tid, th.obj.data))
    && (th.pc == Deliver ==> s.commit == Won(tid, th.obj.data))
  }

  ghost predicate ThreadOk(c: Params, s: Node, tid: Tid)
    requires tid in s.threads
  {
    var th := s.threads[tid];
    ObjectOk(c, s, th) && ShapeOk(c, th) && CountOk(c, s.sess, th) && WinnerOk(s, tid)
  }

  ghost predicate ThreadsOk(c: Params, s: Node) {
    forall tid :: tid in s.threads ==> ThreadOk(c, s, tid)
  }

  /** The READY flag: its winner, and the threshold its payload had reached. */
  ghost predicate ReadyFlagOk(c: Params, s: Node) {
    && s.sess.readySent == s.ready.Won?
    && (s.ready.Won? ==>
        && s.ready.tid in s.threads && s.threads[s.ready.tid].obj.data == s.ready.data
        && (|Get(s.sess.echo, s.ready.data)| >= c.q || |Get(s.sess.ready, s.ready.data)| > c.t))
  }

  /** The delivery flag, which is never set before the READY flag. */
  ghost predicate CommitFlagOk(c: Params, s: Node) {
    && s.sess.delivered == s.commit.Won?
    && (s.commit.Won? ==>
        s.sess.readySent && s.commit.tid in s.threads && |Get(s.sess.ready, s.commit.data)| > 2 * c.t)
  }

  ghost predicate PostingReady(s: Node) {
    s.ready.Won? && s.ready.tid in s.threads && s.threads[s.ready.tid].pc in {Stamp(Ready), Post(Ready)}
  }

  ghost predicate Delivering(s: Node) {
    s.commit.Won? && s.commit.tid in s.threads && s.threads[s.commit.tid].pc == Deliver
  }

  /** READY is queued once, after its flag is won. */
  ghost predicate ReadyOnceOk(s: Node) {
    s.readyPosts == if s.ready.Won? && !PostingReady(s) then 1 else 0
  }

  /** The payload is delivered once, after the delivery flag is won for it. */
  ghost predicate DeliverOnceOk(s: Node) {
    s.log == if s.commit.Won? && !Delivering(s) then [s.commit.data] else []
  }

  ghost predicate FlagsOk(c: Params, s: Node) {
    ReadyFlagOk(c, s) && CommitFlagOk(c, s) && ReadyOnceOk(s) && DeliverOnceOk(s)
  }

  /** Every vote counted was taken in, or is the node's own. */
  ghost predicate VotesOk(c: Params, s: Node) {
    && (forall d, p :: p in Get(s.sess.echo, d) ==> Msg(Echo, d, p) in s.handled || Own(c, s, Msg(Echo, d, p)))
    && (forall d, p :: p in Get(s.sess.ready, d) ==> Msg(Ready, d, p) in s.handled || Own(c, s, Msg(Ready, d, p)))
  }

  /** Everything sent, and everything queued, is the node's own. */
  ghost predicate SentOk(c: Params, mode: Mode, s: Node) {
    && (forall m :: m in s.sent ==> Own(c, s, m))
    && (forall i :: 0 <= i < |s.outbox| ==> s.outbox[i] in s.threads && Own(c, s, s.threads[s.outbox[i]].obj))
    && (mode == Copied ==> s.outbox == [])
  }

  /** A thread that will still act on an echo set of payload d that has reached the target. */
  ghost predicate EchoTrigger(c: Params, th: Thread, d: Data) {
    th.obj.data == d && (th.pc == EchoCas || (th.pc.EchoTest? && th.pc.count >= c.q))
  }

  ghost predicate ReadyTrigger(c: Params, th: Thread, d: Data) {
    th.obj.data == d && (th.pc.ReadyTest? || th.pc.ReadyCas?) && th.pc.count > c.t
  }

  ghost predicate DeliverTrigger(c: Params, th: Thread, d: Data) {
    th.obj.data == d &&
    (|| ((th.pc.ReadyTest? || th.pc.ReadyCas? || th.pc.DeliverTest?) && th.pc.count > 2 * c.t)
     || th.pc == DeliverCas
     || exists i :: 0 <= i < |th.outer| && th.outer[i] > 2 * c.t)
  }

  /** No trigger is lost: a set past its threshold has its flag set, or a thread about to try. */
  ghost predicate TriggersOk(c: Params, s: Node) {
    && (forall d :: |Get(s.sess.echo, d)| >= c.q && !s.sess.readySent ==>
          exists tid :: tid in s.threads && EchoTrigger(c, s.threads[tid], d))
    && (forall d :: |Get(s.sess.ready, d)| > c.t && !s.sess.readySent ==>
          exists tid :: tid in s.threads && ReadyTrigger(c, s.threads[tid], d))
    && (forall d :: |Get(s.sess.ready, d)| > 2 * c.t && !s.sess.delivered ==>
          exists tid :: tid in s.threads && DeliverTrigger(c, s.threads[tid], d))
  }

  /** A thread that has still to count the vote m. */
  ghost predicate Counting(th: Thread, m: Msg) {
    th.obj == m && match th.pc
      case Dispatch => m.kind != Send
      case EchoRead | EchoInsert => m.kind == Echo
      case ReadyRead | ReadyInsert => m.kind == Ready
      case _ => false
  }

  /** A thread that has still to queue an ECHO or READY for d. */
  ghost predicate Announcing(th: Thread, k: Kind, d: Data) {
    th.obj.data == d &&
    (th.pc == Stamp(k) || th.pc == Post(k) || (k == Echo && th.pc == Dispatch && th.obj.kind == Send))
  }

  ghost predicate EchoCounted(s: Node, m: Msg) {
    || m.node in Get(s.sess.echo, m.data) || s.sess.readySent
    || exists tid :: tid in s.threads && Counting(s.threads[tid], m)
  }

  ghost predicate ReadyCounted(s: Node, m: Msg) {
    || m.node in Get(s.sess.ready, m.data) || s.sess.delivered
    || exists tid :: tid in s.threads && Counting(s.threads[tid], m)
  }

  /** No vote is lost: what was taken in is counted, ignored for a set flag, or still in a thread. */
  ghost predicate IntakeOk(s: Node) {
    && (forall m :: m in s.handled && m.kind == Echo ==> EchoCounted(s, m))
    && (forall m :: m in s.handled && m.kind == Ready ==> ReadyCounted(s, m))
  }

  ghost predicate AnnouncePending(s: Node, k: Kind, d: Data) {
    exists tid :: tid in s.threads && Announcing(s.threads[tid], k, d)
  }

  /** The node counts its own votes too. */
  ghost predicate OwnVotesOk(c: Params, s: Node) {
    && (forall d :: TookSend(s, d) ==> EchoCounted(s, Msg(Echo, d, c.self)) || AnnouncePending(s, Echo, d))
    && (s.ready.Won? ==> ReadyCounted(s, Msg(Ready, s.ready.data, c.self)) || AnnouncePending(s, Ready, s.ready.data))
  }

  ghost predicate Queued(s: Node, d: Data) {
    exists i :: 0 <= i < |s.outbox| && s.outbox[i] in s.threads && s.threads[s.outbox[i]].obj.data == d
  }

  /** Nothing announced is lost, except that in Deferred mode READY may have replaced an ECHO. */
  ghost predicate EchoAnnounced(c: Params, mode: Mode, s: Node, d: Data) {
    || Msg(Echo, d, c.self) in s.sent || AnnouncePending(s, Echo, d)
    || (mode == Deferred && (Msg(Ready, d, c.self) in s.sent || Queued(s, d)))
  }

  ghost predicate ReadyAnnounced(c: Params, s: Node)
    requires s.ready.Won?
  {
    || Msg(Ready, s.ready.data, c.self) in s.sent || AnnouncePending(s, Ready, s.ready.data)
    || (s.ready.tid in s.outbox && s.ready.tid in s.threads
        && s.threads[s.ready.tid].obj == Msg(Ready, s.ready.data, c.self))
  }

  ghost predicate AnnouncedOk(c: Params, mode: Mode, s: Node) {
    && (forall d :: TookSend(s, d) ==> EchoAnnounced(c, mode, s, d))
    && (s.ready.Won? ==> ReadyAnnounced(c, s))
  }

  ghost predicate Inv(c: Params, mode: Mode, s: Node) {
    && ThreadsOk(c, s) && FlagsOk(c, s) && VotesOk(c, s) && SentOk(c, mode, s)
    && TriggersOk(c, s) && IntakeOk(s) && OwnVotesOk(c, s) && AnnouncedOk(c, mode, s)
  }

  /** What one step never takes back. */
  ghost predicate Grows(s: Node, s': Node) {
    && s.handled <= s'.handled && s.sent <= s'.sent
    && (forall d :: Get(s.sess.echo, d) <= Get(s'.sess.echo, d))
    && (forall d :: Get(s.sess.ready, d) <= Get(s'.sess.ready, d))
    && (s.sess.readySent ==> s'.sess.readySent) && (s.sess.delivered ==> s'.sess.delivered)
    && (s.ready.Won? ==> s'.ready == s.ready) && (s.commit.Won? ==> s'.commit == s.commit)
  }

  lemma StepSets(c: Params, s: Sess, th: Thread, d: Data)
    ensures var s' := ThreadStep(c, s, th).sess;
      Get(s.echo, d) <= Get(s'.echo, d) && Get(s.ready, d) <= Get(s'.ready, d)
  {
    hide Insert, Get;
    match th.pc {
      case EchoInsert => InsertGet(s.echo, th.obj.data, th.obj.node);
      case ReadyInsert => InsertGet(s.ready, th.obj.data, th.obj.node);
      case _ =>
    }
  }

  lemma StepFlags(c: Params, s: Sess, th: Thread)
    ensures var st := ThreadStep(c, s, th);
      && st.sess.readySent == (s.readySent || st.act == WinReady)
      && st.sess.delivered == (s.delivered || st.act == WinDeliver)
      && (st.act == WinReady ==> !s.readySent) && (st.act == WinDeliver ==> !s.delivered)
      && st.th.obj.data == th.obj.data
      && (!th.pc.Stamp? ==> st.th.obj == th.obj)
  {
    hide Insert, Get;
  }

  /** The session only grows, its flags rise with their winners, and only stamping changes an object. */
  lemma StepGrows(c: Params, s: Sess, th: Thread)
    ensures var st := ThreadStep(c, s, th);
      && (forall d :: Get(s.echo, d) <= Get(st.sess.echo, d))
      && (forall d :: Get(s.ready, d) <= Get(st.sess.ready, d))
      && st.sess.readySent == (s.readySent || st.act == WinReady)
      && st.sess.delivered == (s.delivered || st.act == WinDeliver)
      && (st.act == WinReady ==> !s.readySent) && (st.act == WinDeliver ==> !s.delivered)
      && st.th.obj.data == th.obj.data
      && (!th.pc.Stamp? ==> st.th.obj == th.obj)
  {
    hide ThreadStep;
    StepFlags(c, s, th);
    forall d
      ensures Get(s.echo, d) <= Get(ThreadStep(c, s, th).sess.echo, d)
      ensures Get(s.ready, d) <= Get(ThreadStep(c, s, th).sess.ready, d)
    {
      StepSets(c, s, th, d);
    }
  }

  /** Which pcs surround winning a flag, queueing and delivering. */
  lemma StepPcs(c: Params, s: Sess, th: Thread)
    ensures var st := ThreadStep(c, s, th);
      && (st.th.pc == Stamp(Ready) <==> st.act == WinReady)
      && (st.th.pc == Post(Ready) <==> th.pc == Stamp(Ready))
      && (st.act == Queue(Ready) <==> th.pc == Post(Ready))
      && (st.th.pc == Deliver <==> st.act == WinDeliver)
      && (st.act == Delivered <==> th.pc == Deliver)
      && (st.act.Queue? ==> th.pc.Post? && st.act.kind == th.pc.kind)
      && (st.act == WinReady ==> th.pc == EchoCas || th.pc.ReadyCas?)
      && (st.act == WinDeliver ==> th.pc == DeliverCas)
      && (th.pc.Stamp? ==> st.th.pc.Post?)
      && (st.act == WinReady || st.act == WinDeliver ==> st.sess.echo == s.echo && st.sess.ready == s.ready)
  {
    hide Insert, Get;
  }

  lemma RunShape(c: Params, mode: Mode, s: Node, tid: Tid)
    requires tid in s.threads
    ensures var s', st := RunThread(c, mode, s, tid), ThreadStep(c, s.sess, s.threads[tid]);
      s'.sess == st.sess && s'.threads == s.threads[tid := st.th] && s'.handled == s.handled
  {
    hide ThreadStep;
  }

  lemma RunGrows(c: Params, mode: Mode, s: Node, tid: Tid)
    requires FlagsOk(c, s) && tid in s.threads
    ensures Grows(s, RunThread(c, mode, s, tid))
  {
    hide ThreadStep, Get;
    StepGrows(c, s.sess, s.threads[tid]);
  }

  lemma OwnGrows(c: Params, s: Node, s': Node, m: Msg)
    requires Grows(s, s') && Own(c, s, m)
    ensures Own(c, s', m)
  {
  }

  lemma ThreadFrame(c: Params, s: Node, s': Node, th: Thread)
    requires Grows(s, s') && ObjectOk(c, s, th) && CountOk(c, s.sess, th)
    ensures ObjectOk(c, s', th) && CountOk(c, s'.sess, th)
  {
    SubsetCard(Get(s.sess.echo, th.obj.data), Get(s'.sess.echo, th.obj.data));
    SubsetCard(Get(s.sess.ready, th.obj.data), Get(s'.sess.ready, th.obj.data));
  }

  lemma OwnShapeKept(c: Params, s: Sess, th: Thread)
    requires ShapeOk(c, th)
    ensures ShapeOk(c, ThreadStep(c, s, th).th)
  {
    hide Insert, Get;
  }

  lemma ReturnCount(c: Params, s: Sess, th: Thread)
    requires th.outer != [] ==> s.readySent
    requires forall i :: 0 <= i < |th.outer| ==> th.outer[i] <= |Get(s.ready, th.obj.data)|
    ensures CountOk(c, s, Return(th))
  {
  }

  /** Counting a READY raises the sizes captured counts are compared with. */
  lemma ReadyInsertCount(c: Params, s: Sess, th: Thread)
    requires CountOk(c, s, th) && th.pc == ReadyInsert
    ensures var st := ThreadStep(c, s, th); CountOk(c, st.sess, st.th)
  {
    hide Insert, Get;
    InsertGet(s.ready, th.obj.data, th.obj.node);
    SubsetCard(Get(s.ready, th.obj.data), Get(Insert(s.ready, th.obj.data, th.obj.node), th.obj.data));
  }

  lemma ReadyCasCount(c: Params, s: Sess, th: Thread)
    requires CountOk(c, s, th) && th.pc.ReadyCas?
    ensures var st := ThreadStep(c, s, th); CountOk(c, st.sess, st.th)
  {
    hide Insert, Get;
  }

  lemma OwnCountKept(c: Params, s: Sess, th: Thread)
    requires CountOk(c, s, th)
    ensures var st := ThreadStep(c, s, th); CountOk(c, st.sess, st.th)
  {
    hide Insert, Get;
    if th.pc == ReadyInsert {
      ReadyInsertCount(c, s, th);
    } else if th.pc.ReadyCas? {
      ReadyCasCount(c, s, th);
    } else {
      ReturnCount(c, s, th);
    }
  }

  lemma OwnObjectKept(c: Params, mode: Mode, s: Node, tid: Tid)
    requires FlagsOk(c, s) && tid in s.threads
    requires ObjectOk(c, s, s.threads[tid]) && ShapeOk(c, s.threads[tid]) && WinnerOk(s, tid)
    ensures var s' := RunThread(c, mode, s, tid); ObjectOk(c, s', s'.threads[tid])
  {
    var th, s' := s.threads[tid], RunThread(c, mode, s, tid);
    if th.pc.Stamp? && th.pc.kind == Echo {
      assert Msg(Send, th.obj.data, th.obj.node) in s'.handled;
    }
  }

  lemma OwnWinnerKept(c: Params, mode: Mode, s: Node, tid: Tid, t: Tid)
    requires FlagsOk(c, s) && tid in s.threads && t in s.threads
    requires WinnerOk(s, tid) && WinnerOk(s, t) && ShapeOk(c, s.threads[tid])
    ensures WinnerOk(RunThread(c, mode, s, tid), t)
  {
    hide ThreadStep, Get;
    StepGrows(c, s.sess, s.threads[tid]);
    StepPcs(c, s.sess, s.threads[tid]);
  }

  lemma ThreadKept(c: Params, mode: Mode, s: Node, tid: Tid, t: Tid)
    requires FlagsOk(c, s) && tid in s.threads && t in s.threads
    requires ThreadOk(c, s, tid) && ThreadOk(c, s, t)
    ensures ThreadOk(c, RunThread(c, mode, s, tid), t)
  {
    hide ThreadStep;
    var s' := RunThread(c, mode, s, tid);
    OwnWinnerKept(c, mode, s, tid, t);
    if t != tid {
      RunGrows(c, mode, s, tid);
      ThreadFrame(c, s, s', s.threads[t]);
    } else {
      OwnShapeKept(c, s.sess, s.threads[tid]);
      OwnObjectKept(c, mode, s, tid);
      OwnCountKept(c, s.sess, s.threads[tid]);
    }
  }

  lemma ThreadsKept(c: Params, mode: Mode, s: Node, tid: Tid)
    requires ThreadsOk(c, s) && FlagsOk(c, s) && tid in s.threads
    ensures ThreadsOk(c, RunThread(c, mode, s, tid))
  {
    hide RunThread, ThreadOk, FlagsOk;
    RunShape(c, mode, s, tid);
    forall t | t in s.threads
      ensures ThreadOk(c, RunThread(c, mode, s, tid), t)
    {
      ThreadKept(c, mode, s, tid, t);
    }
  }

  lemma ReadyFlagKept(c: Params, mode: Mode, s: Node, tid: Tid)
    requires ThreadsOk(c, s) && ReadyFlagOk(c, s) && tid in s.threads
    ensures ReadyFlagOk(c, RunThread(c, mode, s, tid))
  {
    hide ThreadStep, Get;
    var s' := RunThread(c, mode, s, tid);
    StepGrows(c, s.sess, s.threads[tid]);
    StepPcs(c, s.sess, s.threads[tid]);
    assert ThreadOk(c, s, tid);
    if s.ready.Won? {
      SubsetCard(Get(s.sess.echo, s.ready.data), Get(s'.sess.echo, s.ready.data));
      SubsetCard(Get(s.sess.ready, s.ready.data), Get(s'.sess.ready, s.ready.data));
    }
  }

  lemma CommitFlagKept(c: Params, mode: Mode, s: Node, tid: Tid)
    requires ThreadsOk(c, s) && CommitFlagOk(c, s) && tid in s.threads
    ensures CommitFlagOk(c, RunThread(c, mode, s, tid))
  {
    hide ThreadStep, Get;
    var s' := RunThread(c, mode, s, tid);
    StepGrows(c, s.sess, s.threads[tid]);
    StepPcs(c, s.sess, s.threads[tid]);
    assert ThreadOk(c, s, tid);
    if s.commit.Won? {
      SubsetCard(Get(s.sess.ready, s.commit.data), Get(s'.sess.ready, s.commit.data));
    }
  }

  lemma ReadyOnceKept(c: Params, mode: Mode, s: Node, tid: Tid)
    requires ThreadsOk(c, s) && FlagsOk(c, s) && tid in s.threads
    ensures ReadyOnceOk(RunThread(c, mode, s, tid))
  {
    hide ThreadStep, Get, Own, ObjectOk, CountOk, ShapeOk, CommitFlagOk, DeliverOnceOk;
    StepPcs(c, s.sess, s.threads[tid]);
    StepGrows(c, s.sess, s.threads[tid]);
    assert ThreadOk(c, s, tid);
  }

  lemma DeliverOnceKept(c: Params, mode: Mode, s: Node, tid: Tid)
    requires ThreadsOk(c, s) && FlagsOk(c, s) && tid in s.threads
    ensures DeliverOnceOk(RunThread(c, mode, s, tid))
  {
    hide ThreadStep, Get, Own, ObjectOk, CountOk, ShapeOk, ReadyFlagOk, ReadyOnceOk;
    StepPcs(c, s.sess, s.threads[tid]);
    StepGrows(c, s.sess, s.threads[tid]);
    assert ThreadOk(c, s, tid);
  }

  lemma FlagsKept(c: Params, mode: Mode, s: Node, tid: Tid)
    requires ThreadsOk(c, s) && FlagsOk(c, s) && tid in s.threads
    ensures FlagsOk(c, RunThread(c, mode, s, tid))
  {
    ReadyFlagKept(c, mode, s, tid);
    CommitFlagKept(c, mode, s, tid);
    ReadyOnceKept(c, mode, s, tid);
    DeliverOnceKept(c, mode, s, tid);
  }

  /** A step only adds the vote held in its thread's object. */
  lemma VotesFrom(c: Params, s: Sess, th: Thread, d: Data, p: Pid)
    requires ShapeOk(c, th)
    ensures var s' := ThreadStep(c, s, th).sess;
      && (p in Get(s'.echo, d) ==> p in Get(s.echo, d) || th.obj == Msg(Echo, d, p))
      && (p in Get(s'.ready, d) ==> p in Get(s.ready, d) || th.obj == Msg(Ready, d, p))
  {
    hide Insert, Get;
    match th.pc {
      case EchoInsert => InsertGet(s.echo, th.obj.data, th.obj.node);
      case ReadyInsert => InsertGet(s.ready, th.obj.data, th.obj.node);
      case _ =>
    }
  }

  lemma VotesKept(c: Params, mode: Mode, s: Node, tid: Tid)
    requires ThreadsOk(c, s) && FlagsOk(c, s) && VotesOk(c, s) && tid in s.threads
    ensures VotesOk(c, RunThread(c, mode, s, tid))
  {
    hide ThreadStep, Get, Insert;
    var s' := RunThread(c, mode, s, tid);
    RunGrows(c, mode, s, tid);
    assert ThreadOk(c, s, tid);
    forall d, p
      ensures p in Get(s'.sess.echo, d) ==> Msg(Echo, d, p) in s'.handled || Own(c, s', Msg(Echo, d, p))
      ensures p in Get(s'.sess.ready, d) ==> Msg(Ready, d, p) in s'.handled || Own(c, s', Msg(Ready, d, p))
    {
      VotesFrom(c, s.sess, s.threads[tid], d, p);
    }
  }

  /** Stamping a queued object keeps it the node's own. */
  lemma QueuedKept(c: Params, mode: Mode, s: Node, tid: Tid, t: Tid)
    requires ThreadsOk(c, s) && FlagsOk(c, s) && tid in s.threads && t in s.threads && Own(c, s, s.threads[t].obj)
    ensures var s' := RunThread(c, mode, s, tid); Own(c, s', s'.threads[t].obj)
  {
    hide ThreadStep, Get;
    var s' := RunThread(c, mode, s, tid);
    StepGrows(c, s.sess, s.threads[tid]);
    if t == tid && s.threads[tid].pc.Stamp? {
      StepPcs(c, s.sess, s.threads[tid]);
      ThreadKept(c, mode, s, tid, tid);
      assert ThreadOk(c, s, tid);
    } else {
      RunGrows(c, mode, s, tid);
      OwnGrows(c, s, s', s.threads[t].obj);
    }
  }

  lemma SentKept(c: Params, mode: Mode, s: Node, tid: Tid)
    requires ThreadsOk(c, s) && FlagsOk(c, s) && SentOk(c, mode, s) && tid in s.threads
    ensures SentOk(c, mode, RunThread(c, mode, s, tid))
  {
    hide ThreadStep, Get;
    var s' := RunThread(c, mode, s, tid);
    RunGrows(c, mode, s, tid);
    StepPcs(c, s.sess, s.threads[tid]);
    assert ThreadOk(c, s, tid);
    forall i | 0 <= i < |s'.outbox|
      ensures s'.outbox[i] in s'.threads && Own(c, s', s'.threads[s'.outbox[i]].obj)
    {
      QueuedKept(c, mode, s, tid, s'.outbox[i]);
    }
  }

  lemma EchoTriggerStays(c: Params, s: Sess, th: Thread, d: Data)
    requires EchoTrigger(c, th, d) && !ThreadStep(c, s, th).sess.readySent
    ensures EchoTrigger(c, ThreadStep(c, s, th).th, d)
  {
    hide Insert, Get;
  }

  lemma EchoTriggerStarts(c: Params, s: Sess, th: Thread, d: Data)
    requires |Get(s.echo, d)| < c.q <= |Get(ThreadStep(c, s, th).sess.echo, d)|
    ensures EchoTrigger(c, ThreadStep(c, s, th).th, d)
  {
  }

  lemma EchoTriggerKept(c: Params, mode: Mode, s: Node, tid: Tid, d: Data)
    requires TriggersOk(c, s) && tid in s.threads
    requires var s' := RunThread(c, mode, s, tid).sess; |Get(s'.echo, d)| >= c.q && !s'.readySent
    ensures var s' := RunThread(c, mode, s, tid); exists w :: w in s'.threads && EchoTrigger(c, s'.threads[w], d)
  {
    hide ThreadStep, RunThread;
    RunShape(c, mode, s, tid);
    var s' := RunThread(c, mode, s, tid);
    var w := tid;
    if |Get(s.sess.echo, d)| >= c.q {
      assert !s.sess.readySent by { StepGrows(c, s.sess, s.threads[tid]); }
      w :| w in s.threads && EchoTrigger(c, s.threads[w], d);
      if w == tid {
        EchoTriggerStays(c, s.sess, s.threads[w], d);
      }
    } else {
      EchoTriggerStarts(c, s.sess, s.threads[tid], d);
    }
    assert w in s'.threads && EchoTrigger(c, s'.threads[w], d);
  }

  lemma ReadyTriggerStays(c: Params, s: Sess, th: Thread, d: Data)
    requires ReadyTrigger(c, th, d) && !ThreadStep(c, s, th).sess.readySent
    ensures ReadyTrigger(c, ThreadStep(c, s, th).th, d)
  {
    hide Insert, Get;
  }

  lemma ReadyTriggerStarts(c: Params, s: Sess, th: Thread, d: Data)
    requires |Get(s.ready, d)| <= c.t < |Get(ThreadStep(c, s, th).sess.ready, d)|
    ensures ReadyTrigger(c, ThreadStep(c, s, th).th, d)
  {
  }

  lemma ReadyTriggerKept(c: Params, mode: Mode, s: Node, tid: Tid, d: Data)
    requires TriggersOk(c, s) && tid in s.threads
    requires var s' := RunThread(c, mode, s, tid).sess; |Get(s'.ready, d)| > c.t && !s'.readySent
    ensures var s' := RunThread(c, mode, s, tid); exists w :: w in s'.threads && ReadyTrigger(c, s'.threads[w], d)
  {
    hide ThreadStep, RunThread;
    RunShape(c, mode, s, tid);
    var s' := RunThread(c, mode, s, tid);
    var w := tid;
    if |Get(s.sess.ready, d)| > c.t {
      assert !s.sess.readySent by { StepGrows(c, s.sess, s.threads[tid]); }
      w :| w in s.threads && ReadyTrigger(c, s.threads[w], d);
      if w == tid {
        ReadyTriggerStays(c, s.sess, s.threads[w], d);
      }
    } else {
      ReadyTriggerStarts(c, s.sess, s.threads[tid], d);
    }
    assert w in s'.threads && ReadyTrigger(c, s'.threads[w], d);
  }

  /** A thread bound to try the delivery flag stays bound to, until it wins it. */
  lemma DeliverTriggerStays(c: Params, s: Sess, th: Thread, d: Data)
    requires DeliverTrigger(c, th, d) && !ThreadStep(c, s, th).sess.delivered
    ensures DeliverTrigger(c, ThreadStep(c, s, th).th, d)
  {
    hide Insert, Get;
    var th' := ThreadStep(c, s, th).th;
    if i :| 0 <= i < |th.outer| && th.outer[i] > 2 * c.t {
      assert i < |th'.outer| ==> th'.outer[i] == th.outer[i];
    } else if th.pc.ReadyCas? && !s.readySent {
      assert th'.outer[|th.outer|] == th.pc.count;
    }
  }

  /** The thread whose vote makes a READY set pass the delivery threshold is bound to try. */
  lemma DeliverTriggerStarts(c: Params, s: Sess, th: Thread, d: Data)
    requires |Get(s.ready, d)| <= 2 * c.t < |Get(ThreadStep(c, s, th).sess.ready, d)|
    ensures DeliverTrigger(c, ThreadStep(c, s, th).th, d)
  {
  }

  lemma DeliverTriggerKept(c: Params, mode: Mode, s: Node, tid: Tid, d: Data)
    requires TriggersOk(c, s) && tid in s.threads
    requires var s' := RunThread(c, mode, s, tid).sess; |Get(s'.ready, d)| > 2 * c.t && !s'.delivered
    ensures var s' := RunThread(c, mode, s, tid); exists w :: w in s'.threads && DeliverTrigger(c, s'.threads[w], d)
  {
    hide ThreadStep, RunThread;
    RunShape(c, mode, s, tid);
    var s' := RunThread(c, mode, s, tid);
    var w := tid;
    if |Get(s.sess.ready, d)| > 2 * c.t {
      assert !s.sess.delivered by { StepGrows(c, s.sess, s.threads[tid]); }
      w :| w in s.threads && DeliverTrigger(c, s.threads[w], d);
      if w == tid {
        DeliverTriggerStays(c, s.sess, s.threads[w], d);
      }
    } else {
      DeliverTriggerStarts(c, s.sess, s.threads[tid], d);
    }
    assert w in s'.threads && DeliverTrigger(c, s'.threads[w], d);
  }

  lemma TriggersKept(c: Params, mode: Mode, s: Node, tid: Tid)
    requires TriggersOk(c, s) && tid in s.threads
    ensures TriggersOk(c, RunThread(c, mode, s, tid))
  {
    var s' := RunThread(c, mode, s, tid);
    forall d | |Get(s'.sess.echo, d)| >= c.q && !s'.sess.readySent
      ensures exists w :: w in s'.threads && EchoTrigger(c, s'.threads[w], d)
    {
      EchoTriggerKept(c, mode, s, tid, d);
    }
    forall d | |Get(s'.sess.ready, d)| > c.t && !s'.sess.readySent
      ensures exists w :: w in s'.threads && ReadyTrigger(c, s'.threads[w], d)
    {
      ReadyTriggerKept(c, mode, s, tid, d);
    }
    forall d | |Get(s'.sess.ready, d)| > 2 * c.t && !s'.sess.delivered
      ensures exists w :: w in s'.threads && DeliverTrigger(c, s'.threads[w], d)
    {
      DeliverTriggerKept(c, mode, s, tid, d);
    }
  }

  /** A thread holding a vote counts it, or finds its flag set, or still holds it. */
  lemma CountingStays(c: Params, s: Sess, th: Thread, m: Msg)
    requires Counting(th, m)
    ensures var st := ThreadStep(c, s, th);
      || Counting(st.th, m)
      || (m.kind == Echo && (m.node in Get(st.sess.echo, m.data) || s.readySent))
      || (m.kind == Ready && (m.node in Get(st.sess.ready, m.data) || s.delivered))
  {
  }

  lemma EchoCountedKept(c: Params, mode: Mode, s: Node, tid: Tid, m: Msg)
    requires FlagsOk(c, s) && tid in s.threads && m.kind == Echo && EchoCounted(s, m)
    ensures EchoCounted(RunThread(c, mode, s, tid), m)
  {
    hide ThreadStep, RunThread, Get;
    RunShape(c, mode, s, tid);
    var s' := RunThread(c, mode, s, tid);
    RunGrows(c, mode, s, tid);
    if m.node !in Get(s.sess.echo, m.data) && !s.sess.readySent {
      var w :| w in s.threads && Counting(s.threads[w], m);
      CountingStays(c, s.sess, s.threads[w], m);
      assert w in s'.threads && (w != tid ==> Counting(s'.threads[w], m));
    }
  }

  lemma ReadyCountedKept(c: Params, mode: Mode, s: Node, tid: Tid, m: Msg)
    requires FlagsOk(c, s) && tid in s.threads && m.kind == Ready && ReadyCounted(s, m)
    ensures ReadyCounted(RunThread(c, mode, s, tid), m)
  {
    hide ThreadStep, RunThread, Get;
    RunShape(c, mode, s, tid);
    var s' := RunThread(c, mode, s, tid);
    RunGrows(c, mode, s, tid);
    if m.node !in Get(s.sess.ready, m.data) && !s.sess.delivered {
      var w :| w in s.threads && Counting(s.threads[w], m);
      CountingStays(c, s.sess, s.threads[w], m);
      assert w in s'.threads && (w != tid ==> Counting(s'.threads[w], m));
    }
  }

  lemma IntakeKept(c: Params, mode: Mode, s: Node, tid: Tid)
    requires FlagsOk(c, s) && IntakeOk(s) && tid in s.threads
    ensures IntakeOk(RunThread(c, mode, s, tid))
  {
    var s' := RunThread(c, mode, s, tid);
    forall m | m in s'.handled && m.kind == Echo
      ensures EchoCounted(s', m)
    {
      EchoCountedKept(c, mode, s, tid, m);
    }
    forall m | m in s'.handled && m.kind == Ready
      ensures ReadyCounted(s', m)
    {
      ReadyCountedKept(c, mode, s, tid, m);
    }
  }

  /** A thread bound to announce k for d keeps going until it has queued its object, stamped k. */
  lemma AnnouncingStays(c: Params, s: Sess, th: Thread, k: Kind, d: Data)
    requires Announcing(th, k, d) && ShapeOk(c, th) && k != Send
    ensures var st := ThreadStep(c, s, th);
      || Announcing(st.th, k, d)
      || (st.act == Queue(k) && th.obj == Msg(k, d, c.self) && Counting(st.th, Msg(k, d, c.self)))
  {
    hide Insert, Get;
  }

  lemma OwnEchoKept(c: Params, mode: Mode, s: Node, tid: Tid, d: Data)
    requires ThreadsOk(c, s) && FlagsOk(c, s) && tid in s.threads
    requires EchoCounted(s, Msg(Echo, d, c.self)) || AnnouncePending(s, Echo, d)
    ensures var s' := RunThread(c, mode, s, tid);
      EchoCounted(s', Msg(Echo, d, c.self)) || AnnouncePending(s', Echo, d)
  {
    hide ThreadStep, RunThread, Get;
    RunShape(c, mode, s, tid);
    var s' := RunThread(c, mode, s, tid);
    if EchoCounted(s, Msg(Echo, d, c.self)) {
      EchoCountedKept(c, mode, s, tid, Msg(Echo, d, c.self));
    } else {
      var w :| w in s.threads && Announcing(s.threads[w], Echo, d);
      assert ThreadOk(c, s, w);
      AnnouncingStays(c, s.sess, s.threads[w], Echo, d);
      assert w in s'.threads && (w != tid ==> Announcing(s'.threads[w], Echo, d));
    }
  }

  lemma OwnReadyKept(c: Params, mode: Mode, s: Node, tid: Tid, d: Data)
    requires ThreadsOk(c, s) && FlagsOk(c, s) && tid in s.threads
    requires ReadyCounted(s, Msg(Ready, d, c.self)) || AnnouncePending(s, Ready, d)
    ensures var s' := RunThread(c, mode, s, tid);
      ReadyCounted(s', Msg(Ready, d, c.self)) || AnnouncePending(s', Ready, d)
  {
    hide ThreadStep, RunThread, Get;
    RunShape(c, mode, s, tid);
    var s' := RunThread(c, mode, s, tid);
    if ReadyCounted(s, Msg(Ready, d, c.self)) {
      ReadyCountedKept(c, mode, s, tid, Msg(Ready, d, c.self));
    } else {
      var w :| w in s.threads && Announcing(s.threads[w], Ready, d);
      assert ThreadOk(c, s, w);
      AnnouncingStays(c, s.sess, s.threads[w], Ready, d);
      assert w in s'.threads && (w != tid ==> Announcing(s'.threads[w], Ready, d));
    }
  }

  /** Winning the READY flag starts announcing it. */
  lemma ReadyStarts(c: Params, mode: Mode, s: Node, tid: Tid)
    requires ReadyFlagOk(c, s) && tid in s.threads
    requires !s.ready.Won? && RunThread(c, mode, s, tid).ready.Won?
    ensures var s' := RunThread(c, mode, s, tid); AnnouncePending(s', Ready, s'.ready.data)
  {
    hide Insert, Get;
    var s' := RunThread(c, mode, s, tid);
    assert Announcing(s'.threads[tid], Ready, s'.ready.data);
  }

  lemma OwnVotesKept(c: Params, mode: Mode, s: Node, tid: Tid)
    requires ThreadsOk(c, s) && FlagsOk(c, s) && OwnVotesOk(c, s) && tid in s.threads
    ensures OwnVotesOk(c, RunThread(c, mode, s, tid))
  {
    var s' := RunThread(c, mode, s, tid);
    forall d | TookSend(s', d)
      ensures EchoCounted(s', Msg(Echo, d, c.self)) || AnnouncePending(s', Echo, d)
    {
      assert TookSend(s, d);
      OwnEchoKept(c, mode, s, tid, d);
    }
    if s.ready.Won? {
      RunGrows(c, mode, s, tid);
      OwnReadyKept(c, mode, s, tid, s.ready.data);
    } else if s'.ready.Won? {
      ReadyStarts(c, mode, s, tid);
    }
  }

  /** Queueing hands the object to the network, at once or by reference. */
  lemma QueueEffect(c: Params, mode: Mode, s: Node, tid: Tid)
    requires tid in s.threads
    ensures var s', act := RunThread(c, mode, s, tid), ThreadStep(c, s.sess, s.threads[tid]).act;
      if !act.Queue? then s'.sent == s.sent && s'.outbox == s.outbox
      else
        && s'.threads[tid].obj == s.threads[tid].obj
        && (mode == Copied ==> s'.sent == s.sent + {s.threads[tid].obj} && s'.outbox == s.outbox)
        && (mode == Deferred ==> s'.sent == s.sent && s'.outbox == s.outbox + [tid])
  {
    hide ThreadStep, Get;
    StepGrows(c, s.sess, s.threads[tid]);
    StepPcs(c, s.sess, s.threads[tid]);
  }

  /** A pending announcement stays pending, or its object has just been queued, stamped. */
  lemma AnnounceStep(c: Params, mode: Mode, s: Node, tid: Tid, k: Kind, d: Data)
    requires ThreadsOk(c, s) && tid in s.threads && k != Send && AnnouncePending(s, k, d)
    ensures AnnouncePending(RunThread(c, mode, s, tid), k, d)
      || (ThreadStep(c, s.sess, s.threads[tid]).act == Queue(k) && s.threads[tid].obj == Msg(k, d, c.self))
  {
    hide ThreadStep, RunThread, Get;
    RunShape(c, mode, s, tid);
    var s' := RunThread(c, mode, s, tid);
    var w :| w in s.threads && Announcing(s.threads[w], k, d);
    assert ThreadOk(c, s, w);
    AnnouncingStays(c, s.sess, s.threads[w], k, d);
    assert w in s'.threads && (w != tid ==> Announcing(s'.threads[w], k, d));
  }

  lemma QueuedStays(c: Params, mode: Mode, s: Node, tid: Tid, d: Data)
    requires tid in s.threads && Queued(s, d)
    ensures Queued(RunThread(c, mode, s, tid), d)
  {
    hide ThreadStep;
    var s' := RunThread(c, mode, s, tid);
    QueueEffect(c, mode, s, tid);
    StepGrows(c, s.sess, s.threads[tid]);
    var i :| 0 <= i < |s.outbox| && s.outbox[i] in s.threads && s.threads[s.outbox[i]].obj.data == d;
    assert s'.outbox[i] == s.outbox[i];
  }

  lemma EchoAnnouncedKept(c: Params, mode: Mode, s: Node, tid: Tid, d: Data)
    requires ThreadsOk(c, s) && tid in s.threads && EchoAnnounced(c, mode, s, d)
    ensures EchoAnnounced(c, mode, RunThread(c, mode, s, tid), d)
  {
    hide ThreadStep, Get;
    var s' := RunThread(c, mode, s, tid);
    QueueEffect(c, mode, s, tid);
    if AnnouncePending(s, Echo, d) {
      AnnounceStep(c, mode, s, tid, Echo, d);
      if mode == Deferred && !AnnouncePending(s', Echo, d) {
        assert s'.outbox[|s.outbox|] == tid;
        assert Queued(s', d);
      }
    } else if mode == Deferred && Queued(s, d) {
      QueuedStays(c, mode, s, tid, d);
    }
  }

  lemma ReadyAnnouncedKept(c: Params, mode: Mode, s: Node, tid: Tid)
    requires ThreadsOk(c, s) && ReadyFlagOk(c, s) && tid in s.threads && s.ready.Won? && ReadyAnnounced(c, s)
    ensures var s' := RunThread(c, mode, s, tid); s'.ready == s.ready && ReadyAnnounced(c, s')
  {
    hide ThreadStep, Get, Own, ObjectOk, CountOk, AnnouncePending;
    var s', d := RunThread(c, mode, s, tid), s.ready.data;
    StepGrows(c, s.sess, s.threads[tid]);
    assert s'.ready == s.ready;
    QueueEffect(c, mode, s, tid);
    assert ThreadOk(c, s, tid);
    if AnnouncePending(s, Ready, d) {
      AnnounceStep(c, mode, s, tid, Ready, d);
      if mode == Deferred && !AnnouncePending(s', Ready, d) {
        StepPcs(c, s.sess, s.threads[tid]);
        assert s'.outbox[|s.outbox|] == tid;
      }
    } else if s.threads[tid].obj == Msg(Ready, d, c.self) {
      StampedStays(c, s, tid);
    }
  }

  /** An object stamped READY is never stamped otherwise. */
  lemma StampedStays(c: Params, s: Node, tid: Tid)
    requires tid in s.threads && ThreadOk(c, s, tid)
    requires s.ready.Won? && s.threads[tid].obj == Msg(Ready, s.ready.data, c.self)
    ensures ThreadStep(c, s.sess, s.threads[tid]).th.obj == s.threads[tid].obj
  {
    hide Insert, Get;
  }

  lemma AnnouncedKept(c: Params, mode: Mode, s: Node, tid: Tid)
    requires ThreadsOk(c, s) && FlagsOk(c, s) && AnnouncedOk(c, mode, s) && tid in s.threads
    ensures AnnouncedOk(c, mode, RunThread(c, mode, s, tid))
  {
    var s' := RunThread(c, mode, s, tid);
    forall d | TookSend(s', d)
      ensures EchoAnnounced(c, mode, s', d)
    {
      assert TookSend(s, d);
      EchoAnnouncedKept(c, mode, s, tid, d);
    }
    if s.ready.Won? {
      ReadyAnnouncedKept(c, mode, s, tid);
    } else if s'.ready.Won? {
      ReadyStarts(c, mode, s, tid);
    }
  }

  lemma RunKept(c: Params, mode: Mode, s: Node, tid: Tid)
    requires Inv(c, mode, s) && tid in s.threads
    ensures Inv(c, mode, RunThread(c, mode, s, tid))
  {
    ThreadsKept(c, mode, s, tid);
    FlagsKept(c, mode, s, tid);
    VotesKept(c, mode, s, tid);
    SentKept(c, mode, s, tid);
    TriggersKept(c, mode, s, tid);
    IntakeKept(c, mode, s, tid);
    OwnVotesKept(c, mode, s, tid);
    AnnouncedKept(c, mode, s, tid);
  }

  /** A new handler thread: nothing but the intake changes. */
  ghost predicate Joins(s: Node, s': Node, tid: Tid, m: Msg) {
    && tid !in s.threads
    && s' == s.(threads := s.threads[tid := Thread(m, Dispatch, [])], handled := s.handled + {m})
  }

  lemma ReceiveThreads(c: Params, s: Node, s': Node, tid: Tid, m: Msg)
    requires ThreadsOk(c, s) && Joins(s, s', tid, m)
    ensures ThreadsOk(c, s')
  {
    hide Get;
    forall t | t in s'.threads
      ensures ThreadOk(c, s', t)
    {
      if t != tid {
        assert ThreadOk(c, s, t);
        assert Grows(s, s');
        ThreadFrame(c, s, s', s.threads[t]);
      }
    }
  }

  lemma ReceiveSafe(c: Params, mode: Mode, s: Node, s': Node, tid: Tid, m: Msg)
    requires FlagsOk(c, s) && VotesOk(c, s) && SentOk(c, mode, s) && Joins(s, s', tid, m)
    ensures FlagsOk(c, s') && VotesOk(c, s') && SentOk(c, mode, s')
  {
    hide Get;
    forall v | Own(c, s, v)
      ensures Own(c, s', v)
    {
    }
  }

  lemma ReceivePending(c: Params, s: Node, s': Node, tid: Tid, m: Msg)
    requires Joins(s, s', tid, m)
    ensures forall k, d :: AnnouncePending(s, k, d) ==> AnnouncePending(s', k, d)
    ensures forall v :: EchoCounted(s, v) ==> EchoCounted(s', v)
    ensures forall v :: ReadyCounted(s, v) ==> ReadyCounted(s', v)
    ensures m.kind == Echo ==> EchoCounted(s', m)
    ensures m.kind == Ready ==> ReadyCounted(s', m)
    ensures m.kind == Send ==> AnnouncePending(s', Echo, m.data)
  {
    forall t | t in s.threads
      ensures t in s'.threads && s'.threads[t] == s.threads[t]
    {
    }
    assert m.kind != Send ==> Counting(s'.threads[tid], m);
    assert m.kind == Send ==> Announcing(s'.threads[tid], Echo, m.data);
  }

  lemma ReceiveTriggers(c: Params, s: Node, s': Node, tid: Tid, m: Msg)
    requires TriggersOk(c, s) && Joins(s, s', tid, m)
    ensures TriggersOk(c, s')
  {
    forall t | t in s.threads
      ensures t in s'.threads && s'.threads[t] == s.threads[t]
    {
    }
  }

  lemma ReceiveKept(c: Params, mode: Mode, s: Node, s': Node, tid: Tid, m: Msg)
    requires Inv(c, mode, s) && Joins(s, s', tid, m)
    ensures Inv(c, mode, s')
  {
    ReceiveThreads(c, s, s', tid, m);
    ReceiveSafe(c, mode, s, s', tid, m);
    ReceiveTriggers(c, s, s', tid, m);
    ReceivePending(c, s, s', tid, m);
    forall d | TookSend(s', d)
      ensures EchoCounted(s', Msg(Echo, d, c.self)) || AnnouncePending(s', Echo, d)
      ensures EchoAnnounced(c, mode, s', d)
    {
      if TookSend(s, d) {
        if mode == Deferred && Queued(s, d) {
          assert Queued(s', d);
        }
      }
    }
  }

  /** A reference leaves the queue and its object, as it now reads, is sent. */
  ghost predicate Encodes(s: Node, s': Node, i: nat) {
    && i < |s.outbox| && s.outbox[i] in s.threads
    && s' == s.(outbox := s.outbox[..i] + s.outbox[i + 1..], sent := s.sent + {s.threads[s.outbox[i]].obj})
  }

  lemma EncodeSafe(c: Params, mode: Mode, s: Node, s': Node, i: nat)
    requires ThreadsOk(c, s) && FlagsOk(c, s) && VotesOk(c, s) && SentOk(c, mode, s) && Encodes(s, s', i)
    ensures ThreadsOk(c, s') && FlagsOk(c, s') && VotesOk(c, s') && SentOk(c, mode, s')
  {
    forall t | t in s'.threads
      ensures ThreadOk(c, s', t)
    {
      assert ThreadOk(c, s, t);
    }
    forall j | 0 <= j < |s'.outbox|
      ensures s'.outbox[j] == s.outbox[if j < i then j else j + 1]
    {
    }
  }

  lemma EncodePending(c: Params, s: Node, s': Node, i: nat)
    requires TriggersOk(c, s) && IntakeOk(s) && OwnVotesOk(c, s) && Encodes(s, s', i)
    ensures TriggersOk(c, s') && IntakeOk(s') && OwnVotesOk(c, s')
  {
    assert forall d :: TookSend(s', d) ==> TookSend(s, d);
    assert forall k, d :: AnnouncePending(s, k, d) ==> AnnouncePending(s', k, d);
    assert forall v :: EchoCounted(s, v) ==> EchoCounted(s', v);
    assert forall v :: ReadyCounted(s, v) ==> ReadyCounted(s', v);
  }

  lemma EncodeAnnounced(c: Params, mode: Mode, s: Node, s': Node, i: nat)
    requires SentOk(c, mode, s) && AnnouncedOk(c, mode, s) && Encodes(s, s', i)
    ensures AnnouncedOk(c, mode, s')
  {
    forall d | TookSend(s', d)
      ensures EchoAnnounced(c, mode, s', d)
    {
      assert TookSend(s, d);
      if Queued(s, d) {
        var j :| 0 <= j < |s.outbox| && s.outbox[j] in s.threads && s.threads[s.outbox[j]].obj.data == d;
        if j != i {
          assert s'.outbox[if j < i then j else j - 1] == s.outbox[j];
        }
      }
    }
    if s.ready.Won? && s.ready.tid in s.outbox {
      var j :| 0 <= j < |s.outbox| && s.outbox[j] == s.ready.tid;
      if j != i {
        assert s'.outbox[if j < i then j else j - 1] == s.outbox[j];
      }
    }
  }

  lemma EncodeKept(c: Params, mode: Mode, s: Node, s': Node, i: nat)
    requires Inv(c, mode, s) && Encodes(s, s', i)
    ensures Inv(c, mode, s')
  {
    EncodeSafe(c, mode, s, s', i);
    EncodePending(c, s, s', i);
    EncodeAnnounced(c, mode, s, s', i);
  }

  lemma FreshOk(c: Params, mode: Mode)
    requires 1 <= c.q
    ensures Inv(c, mode, FRESH)
  {
  }

  /** Every action keeps the invariant. */
  lemma InvKept(c: Params, mode: Mode, s: Node, a: Action)
    requires Inv(c, mode, s) && Enabled(s, a)
    ensures Inv(c, mode, Apply(c, mode, s, a))
  {
    match a
    case Receive(tid, m) => ReceiveKept(c, mode, s, Apply(c, mode, s, a), tid, m);
    case Run(tid) => RunKept(c, mode, s, tid);
    case Encode(i) => EncodeKept(c, mode, s, Apply(c, mode, s, a), i);
  }

  /** All handlers have returned. */
  ghost predicate AllDone(s: Node) {
    forall tid :: tid in s.threads ==> s.threads[tid].pc == Done
  }

  /** All handlers have returned and all queued broadcasts have been encoded. */
  ghost predicate Idle(s: Node) {
    AllDone(s) && s.outbox == []
  }

  /** No lost trigger: once all handlers have returned, a set past its threshold has its flag set. */
  lemma DoneFlags(c: Params, mode: Mode, s: Node, d: Data)
    requires Inv(c, mode, s) && AllDone(s)
    ensures |Get(s.sess.echo, d)| >= c.q || |Get(s.sess.ready, d)| > c.t ==> s.sess.readySent
    ensures |Get(s.sess.ready, d)| > 2 * c.t ==> s.sess.delivered
  {
    forall tid | tid in s.threads
      ensures s.threads[tid].outer == []
    {
      assert ThreadOk(c, s, tid);
    }
  }

  /** Once all handlers have returned, every flag won has been acted on once. */
  lemma DoneOnce(c: Params, mode: Mode, s: Node)
    requires Inv(c, mode, s) && AllDone(s)
    ensures s.readyPosts == if s.sess.readySent then 1 else 0
    ensures s.log == if s.sess.delivered then [s.commit.data] else []
    ensures s.sess.readySent ==> c.self in Get(s.sess.ready, s.ready.data) || s.sess.delivered
  {
  }

  /** At rest, every flag won has also been told: no READY is lost on its way to the network. */
  lemma IdleOnce(c: Params, mode: Mode, s: Node)
    requires Inv(c, mode, s) && Idle(s)
    ensures s.sess.readySent ==> s.readyPosts == 1 && Msg(Ready, s.ready.data, c.self) in s.sent
    ensures s.sess.readySent ==> c.self in Get(s.sess.ready, s.ready.data) || s.sess.delivered
    ensures s.sess.delivered ==> s.log == [s.commit.data]
  {
  }

  /** Once all handlers have returned, every vote taken in is counted or was overtaken by its flag. */
  lemma DoneVotes(c: Params, mode: Mode, s: Node, d: Data, p: Pid)
    requires Inv(c, mode, s) && AllDone(s)
    ensures Msg(Echo, d, p) in s.handled || (p == c.self && TookSend(s, d)) ==>
      p in Get(s.sess.echo, d) || s.sess.readySent
    ensures Msg(Ready, d, p) in s.handled ==> p in Get(s.sess.ready, d) || s.sess.delivered
  {
  }

  /** At rest, every SEND taken in has been answered, though Deferred encoding may show READY instead. */
  lemma IdleEcho(c: Params, mode: Mode, s: Node, d: Data)
    requires Inv(c, mode, s) && Idle(s) && TookSend(s, d)
    ensures Msg(Echo, d, c.self) in s.sent || (mode == Deferred && Msg(Ready, d, c.self) in s.sent)
  {
  }

  /** In every state: at most one READY broadcast and one delivery, the latter only after the former's flag. */
  lemma AtMostOnce(c: Params, mode: Mode, s: Node)
    requires Inv(c, mode, s)
    ensures s.readyPosts <= 1 && |s.log| <= 1 && (s.sess.delivered ==> s.sess.readySent)
  {
  }

  /** Every buffer sent is an ECHO or READY under the node's own id, for a payload of its own: one whose
      SEND it took in, or the one its READY flag was won for. */
  lemma BuffersAreOwn(c: Params, mode: Mode, s: Node, m: Msg)
    requires Inv(c, mode, s) && m in s.sent
    ensures m.node == c.self
    ensures match m.kind
      case Send => false
      case Echo => TookSend(s, m.data)
      case Ready => s.sess.readySent && s.ready.data == m.data
  {
  }

  lemma StampRises(c: Params, s: Sess, th: Thread)
    requires ShapeOk(c, th)
    ensures var o := ThreadStep(c, s, th).th.obj;
      o.data == th.obj.data && (o.kind == th.obj.kind || th.obj.kind == Send || o.kind == Ready)
  {
    hide Insert, Get;
  }

  /** A shared object keeps its payload under every action of every thread, and its type only rises. */
  lemma ObjectsOnlyRise(c: Params, mode: Mode, s: Node, a: Action, t: Tid)
    requires Inv(c, mode, s) && Enabled(s, a) && t in s.threads
    ensures var s' := Apply(c, mode, s, a);
      && t in s'.threads && s'.threads[t].obj.data == s.threads[t].obj.data
      && var k, k' := s.threads[t].obj.kind, s'.threads[t].obj.kind; k' == k || k == Send || k' == Ready
  {
    assert ThreadOk(c, s, t);
    hide ThreadStep, Inv, RunThread;
    if a.Run? {
      StampRises(c, s.sess, s.threads[t]);
      RunShape(c, mode, s, a.tid);
    }
  }

  /** When the READY flag is won, the threshold had been reached before, without the node's own READY. */
  lemma ReadyCause(c: Params, mode: Mode, s: Node, tid: Tid)
    requires Inv(c, mode, s) && tid in s.threads
    requires !s.ready.Won? && RunThread(c, mode, s, tid).ready.Won?
    ensures var d := RunThread(c, mode, s, tid).ready.data;
      |Get(s.sess.echo, d)| >= c.q || |Get(s.sess.ready, d)| > c.t
  {
    assert ThreadOk(c, s, tid);
  }
}
