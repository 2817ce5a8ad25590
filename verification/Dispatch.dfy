/** From received bytes to handler calls, and from queued broadcasts to sent bytes. */
module Dispatch {
  import opened SessionStep
  import opened Thresholds
  import opened Wire
  import opened RoundTrips
  import opened Codec
  import B = Broadcaster

  /** The messages inside an object, however deep. */
  function Leaves(w: Wire): multiset<Wire> {
    match w
    case Null => multiset{}
    case Leaf(_, _, _, _, _, _) => multiset{w}
    case Packet(members) => LeavesAll(members)
  }

  function LeavesAll(ws: seq<Wire>): multiset<Wire> {
    if ws == [] then multiset{} else Leaves(ws[0]) + LeavesAll(ws[1..])
  }

  /** The number of objects inside, packets included. */
  function Weight(w: Wire): nat {
    match w
    case Packet(members) => 1 + WeightAll(members)
    case _ => 1
  }

  function WeightAll(ws: seq<Wire>): nat {
    if ws == [] then 0 else Weight(ws[0]) + WeightAll(ws[1..])
  }

  lemma {:induction false} Concat(a: seq<Wire>, b: seq<Wire>)
    ensures LeavesAll(a + b) == LeavesAll(a) + LeavesAll(b)
    ensures WeightAll(a + b) == WeightAll(a) + WeightAll(b)
  {
    if a == [] {
      assert a + b == b;
    } else {
      Concat(a[1..], b);
      assert (a + b)[1..] == a[1..] + b;
    }
  }

  /** What the messages inside are: a message is inside itself, a null pointer holds none, a packet of one
      object holds what that object holds, and a packet what any two halves of it hold together. */
  lemma LeavesLaws(a: seq<Wire>, b: seq<Wire>, w: Wire)
    ensures Leaves(Packet(a + b)) == Leaves(Packet(a)) + Leaves(Packet(b))
    ensures Leaves(Packet([w])) == Leaves(w)
    ensures w.Leaf? ==> Leaves(w) == multiset{w}
    ensures w.Null? ==> Leaves(w) == multiset{}
  {
    Concat(a, b);
    assert [w][1..] == [];
    assert LeavesAll([w]) == Leaves(w) + LeavesAll([]);
  }

  lemma Without(ws: seq<Wire>, i: nat)
    requires i < |ws|
    ensures LeavesAll(ws) == Leaves(ws[i]) + LeavesAll(ws[..i] + ws[i + 1..])
    ensures WeightAll(ws) == Weight(ws[i]) + WeightAll(ws[..i] + ws[i + 1..])
  {
    assert ws == ws[..i] + ([ws[i]] + ws[i + 1..]);
    Concat(ws[..i], [ws[i]] + ws[i + 1..]);
    Concat(ws[..i], ws[i + 1..]);
    assert ([ws[i]] + ws[i + 1..])[1..] == ws[i + 1..];
  }

  /** No job is a null pointer, nor leads to one. */
  predicate Sound(ws: seq<Wire>) {
    forall i :: 0 <= i < |ws| ==> NoNull(ws[i])
  }

  /** The job queue of the node: objects waiting to be unpacked, and messages handed to the broadcaster. */
  class PacketManager {
    var jobs: seq<Wire>
    var handed: seq<Wire>

    constructor ()
      ensures jobs == [] && handed == []
    {
      jobs, handed := [], [];
    }

    /** asyncProcess of an object posts it as a job. */
    method Post(w: Wire)
      modifies this`jobs
      ensures jobs == old(jobs) + [w]
    {
      jobs := jobs + [w];
    }

    /** asyncProcess of the bytes received at the start of the socket's buffer: what does not parse is
        dropped, what parses is posted, null members and all. Nothing is promised of an Overrun. */
    method Receive(s: seq<byte>, length: nat) returns (r: Result)
      requires length <= |s|
      modifies this`jobs
      ensures r == ParseAt(s, 0, length)
      ensures Parse(s[..length]).Parsed? ==> r == Parse(s[..length])
      ensures r.Parsed? ==> jobs == if r.w != Null then old(jobs) + [r.w] else old(jobs)
    {
      r := ParseRange(s, 0, length);
      assert s[0..length] == s[..length];
      if r.Parsed? && r.w != Null {
        Post(r.w);
      }
    }

    method PostAll(members: seq<Wire>)
      modifies this`jobs
      ensures jobs == old(jobs) + members
    {
      for k := 0 to |members|
        invariant jobs == old(jobs) + members[..k]
      {
        Post(members[k]);
        assert members[..k + 1] == members[..k] + [members[k]];
      }
      assert members[..|members|] == members;
    }

    /** One job, whichever the scheduler picks: a message is handed on, a packet posts its members. A null
        pointer, which the original dereferences here, stops the queue. */
    method RunJob(i: nat) returns (ok: bool)
      requires i < |jobs|
      modifies this
      ensures ok <==> old(jobs[i]) != Null
      ensures !ok ==> unchanged(this)
      ensures ok ==>
        var w, rest := old(jobs[i]), old(jobs[..i] + jobs[i + 1..]);
        && jobs == (if w.Packet? then rest + w.members else rest)
        && handed == if w.Leaf? then old(handed) + [w] else old(handed)
      ensures ok ==> WeightAll(jobs) < WeightAll(old(jobs)) && (Sound(jobs) <==> Sound(old(jobs)))
      ensures multiset(handed) + LeavesAll(jobs) == multiset(old(handed)) + LeavesAll(old(jobs))
    {
      hide LeavesAll, WeightAll, NoNull, Sound;
      var w := jobs[i];
      if w == Null {
        return false;
      }
      Without(jobs, i);
      SoundWithout(jobs, i);
      jobs := jobs[..i] + jobs[i + 1..];
      if w.Leaf? {
        handed := handed + [w];
      } else {
        Concat(jobs, w.members);
        SoundConcat(jobs, w.members);
        PostAll(w.members);
      }
      ok := true;
    }

    /** In whatever order jobs run, the queue drains exactly when no null pointer is in it, at any depth,
        and then it has handed on exactly the messages inside it; no message is lost or added on the way. */
    method Drain() returns (ok: bool)
      modifies this
      ensures ok <==> Sound(old(jobs))
      ensures ok ==> jobs == [] && multiset(handed) == multiset(old(handed)) + LeavesAll(old(jobs))
      ensures multiset(handed) + LeavesAll(jobs) == multiset(old(handed)) + LeavesAll(old(jobs))
    {
      hide NoNull;
      ok := true;
      while jobs != [] && ok
        invariant Sound(jobs) <==> Sound(old(jobs))
        invariant !ok ==> !Sound(jobs)
        invariant multiset(handed) + LeavesAll(jobs) == multiset(old(handed)) + LeavesAll(old(jobs))
        decreases ok, WeightAll(jobs)
      {
        var i: nat :| i < |jobs|;
        NullUnsound(jobs, i);
        ok := RunJob(i);
      }
    }
  }

  lemma SoundWithout(ws: seq<Wire>, i: nat)
    requires i < |ws| && ws[i] != Null
    ensures var rest := ws[..i] + ws[i + 1..];
      Sound(ws) <==> Sound(rest) && (ws[i].Packet? ==> Sound(ws[i].members))
  {
    var rest := ws[..i] + ws[i + 1..];
    assert NoNull(ws[i]) <==> (ws[i].Packet? ==> Sound(ws[i].members));
    hide NoNull;
    if Sound(rest) && NoNull(ws[i]) {
      forall j | 0 <= j < |ws|
        ensures NoNull(ws[j])
      {
        assert j < i ==> ws[j] == rest[j];
        assert j > i ==> ws[j] == rest[j - 1];
      }
    }
    if Sound(ws) {
      forall j | 0 <= j < |rest|
        ensures NoNull(rest[j])
      {
        assert rest[j] == ws[if j < i then j else j + 1];
      }
    }
  }

  lemma SoundConcat(a: seq<Wire>, b: seq<Wire>)
    ensures Sound(a + b) <==> Sound(a) && Sound(b)
  {
    hide NoNull;
    assert forall j :: 0 <= j < |a| ==> (a + b)[j] == a[j];
    assert forall j :: 0 <= j < |b| ==> (a + b)[|a| + j] == b[j];
  }

  lemma NullUnsound(ws: seq<Wire>, i: nat)
    requires i < |ws|
    ensures ws[i] == Null ==> !Sound(ws)
  {
    assert ws[i] == Null ==> !NoNull(ws[i]);
  }

  /** A message object as the wire sees it at this moment. */
  function AsWire(m: B.Message): Wire
    requires m.chain < WORD && m.client < WORD && m.nonce < WORD && m.node < WORD
    reads m
  {
    Leaf(m.kind, m.chain as word, m.client as word, m.nonce as word, m.node as word, m.data)
  }

  /** The job asyncBroadcast posts: it runs later than the broadcast, encodes what the queued object reads
      by then, and sends the buffer to every node of the chain but its own. */
  method EncodeQueued(b: B.ReliableBroadcast, raw: bool)
    returns (r: B.Outcome, buffer: array<byte>, receivers: set<Pid>)
    requires b.Valid() && b.outbox != []
    requires var m := b.outbox[0]; m.chain < WORD && m.client < WORD && m.nonce < WORD && m.node < WORD
    modifies b`outbox
    ensures b.Valid() && b.outbox == old(b.outbox)[1..]
    ensures fresh(buffer) && buffer[..] == Bytes(Form(AsWire(old(b.outbox)[0]), raw))
    ensures var chain := old(b.outbox)[0].chain;
      if chain in b.chains then r == B.Handled && receivers == b.chains[chain] - {b.self}
      else r == B.UnknownChain && receivers == {}
  {
    var m := b.outbox[0];
    b.outbox := b.outbox[1..];
    buffer := EncodeNew(Form(AsWire(m), raw));
    receivers := {};
    if m.chain !in b.chains {
      return B.UnknownChain, buffer, receivers;
    }
    var rest := b.chains[m.chain];
    while rest != {}
      invariant rest <= b.chains[m.chain] && receivers == b.chains[m.chain] - rest - {b.self}
      decreases |rest|
    {
      var id: Pid :| id in rest;
      if b.self != id {
        receivers := receivers + {id};
      }
      rest := rest - {id};
    }
    r := B.Handled;
  }

  /** What a received message becomes: an object of its fields, handled in the session they name. Whatever
      that queues goes out in the same session, under the node's own id. */
  method HandOver(b: B.ReliableBroadcast, w: Wire) returns (r: B.Outcome)
    requires b.Valid() && w.Leaf?
    modifies b, var id := B.Id(w.chain as nat, w.client as nat, w.nonce as nat);
      if id in b.sessions then {b.sessions[id]} else {}
    ensures b.Valid()
    ensures var id := B.Id(w.chain as nat, w.client as nat, w.nonce as nat);
      if r == B.UnknownChain then id.chain !in b.chains && unchanged(b)
      else
        && id.chain in b.chains
        && var e := Handle(b.Parameters(id), old(b.StateOf(id)), Msg(w.kind, w.data, w.node as nat));
          && b.StateOf(id) == e.sess && b.log == old(b.log) + B.Tagged(id, e.delivered)
          && |b.outbox| == |old(b.outbox)| + |e.posts| && b.outbox[..|old(b.outbox)|] == old(b.outbox)
          && forall i :: |old(b.outbox)| <= i < |b.outbox| ==>
            && fresh(b.outbox[i]) && Queues(b.outbox[i], w, e.last.kind, b.self)
            && e.last == Msg(e.last.kind, w.data, b.self)
  {
    hide Handle;
    var m := new B.Message(w.kind, w.chain as nat, w.client as nat, w.nonce as nat, w.node as nat, w.data);
    ghost var id, s, msg := m.SessionId(), b.StateOf(m.SessionId()), m.AsMsg();
    r := b.ProcessMessage(m);
    if r == B.Handled {
      LeftObject(b.Parameters(id), s, msg);
      RepeatLength(m, |Handle(b.Parameters(id), s, msg).posts|);
    }
  }

  /** The queued object is the message w with the given kind and node id, in all other fields as it came. */
  ghost predicate Queues(q: B.Message, w: Wire, kind: Kind, self: Pid)
    requires w.Leaf?
    reads q
  {
    && q.chain == w.chain as nat && q.client == w.client as nat && q.nonce == w.nonce as nat
    && q.data == w.data && q.kind == kind && q.node == self
    && (self < WORD ==> AsWire(q) == Leaf(kind, w.chain, w.client, w.nonce, self as word, w.data))
  }

  lemma {:induction false} RepeatLength(m: B.Message, k: nat)
    ensures |B.Repeat(m, k)| == k && forall i :: 0 <= i < k ==> B.Repeat(m, k)[i] == m
  {
    if k > 0 {
      RepeatLength(m, k - 1);
    }
  }

  /** A message leaves raw or as the only member of a packet, as a coin decides. */
  function Form(m: Wire, raw: bool): Wire {
    if raw then m else Packet([m])
  }

  /** Receivers get the same message from both forms exactly when its size fits a length entry. */
  lemma FormsAlike(m: Wire)
    requires m.Leaf?
    ensures Parse(Bytes(Form(m, true))) == Parsed(m)
    ensures (exists w :: Parse(Bytes(Form(m, false))) == Parsed(w) && Leaves(w) == multiset{m}) <==> Size(m) < LENGTHS
  {
    LeafRoundTrip(m);
    var p := Packet([m]);
    if Size(m) < LENGTHS {
      assert Fits(p);
      RoundTrip(p);
      OneLeaf(m);
    } else if w :| Parse(Bytes(p)) == Parsed(w) && Leaves(w) == multiset{m} {
      CutPacket(m, w);
    }
  }

  /** A packet whose length entry was cut yields no message of the original's size. */
  lemma CutPacket(m: Wire, w: Wire)
    requires m.Leaf? && Size(m) >= LENGTHS && Parse(Bytes(Packet([m]))) == Parsed(w)
    ensures Leaves(w) != multiset{m}
  {
    PacketParts([m]);
    var cut := Size(m) % LENGTHS;
    assert CutSizes([m]) == [cut];
    assert BytesAll([m]) == Bytes(m) by {
      assert [m][1..] == [];
      assert Bytes(m) + [] == Bytes(m);
    }
    SizeIsLength(m);
    var first := Parse(Bytes(m)[..cut]);
    assert [cut][1..] == [];
    assert ParseAll(Bytes(m)[cut..], []) == ParsedAll([]);
    if first.Parsed? {
      assert w == Packet([first.w] + []);
      assert [first.w] + [] == [first.w];
      assert LeavesAll([first.w]) == Leaves(first.w) by {
        assert [first.w][1..] == [];
      }
      CutLeaf(Bytes(m)[..cut], m);
    }
  }

  lemma CutLeaf(s: seq<byte>, m: Wire)
    requires m.Leaf? && |s| < Size(m) && (s != [] ==> s[0] <= 2)
    ensures Parse(s).Parsed? ==> Leaves(Parse(s).w) != multiset{m}
  {
    if |s| >= HEADER {
      LeafBytes(s);
      SizeIsLength(m);
      assert m in multiset{m};
      assert Parse(s).w != m;
      assert m !in multiset{Parse(s).w};
    } else {
      assert m in multiset{m};
    }
  }

  /** A buffer that holds message m, in either form, is received and unpacked by one peer. */
  method Arrive(peer: PacketManager, buffer: array<byte>, ghost m: Wire, ghost raw: bool)
    requires m.Leaf? && (raw || Size(m) < LENGTHS) && buffer[..] == Bytes(Form(m, raw)) && Sound(peer.jobs)
    modifies peer
    ensures peer.jobs == []
    ensures multiset(peer.handed) == multiset(old(peer.handed)) + LeavesAll(old(peer.jobs)) + multiset{m}
  {
    hide Parse, Bytes, Leaves, Form, NoNull, Sound, Size;
    FormLeaves(m, raw);
    var s := buffer[..];
    assert s[..|s|] == s;
    var r := peer.Receive(s, |s|);
    Concat(old(peer.jobs), [Form(m, raw)]);
    OneJob(old(peer.jobs), Form(m, raw));
    var ok := peer.Drain();
  }

  lemma OneJob(ws: seq<Wire>, w: Wire)
    requires Sound(ws) && NoNull(w)
    ensures Sound(ws + [w]) && LeavesAll([w]) == Leaves(w)
  {
    SoundConcat(ws, [w]);
    assert [w][1..] == [];
  }

  /** From one queue to all others: the oldest queued broadcast of one node, encoded, sent in either form,
      received and unpacked, is handed on once at every other node of the chain, and at no other, with every
      field as it read when encoded. */
  method Relay(b: B.ReliableBroadcast, raw: bool, peers: map<Pid, PacketManager>)
    requires b.Valid() && b.outbox != [] && b.outbox[0].chain in b.chains
    requires b.chains[b.outbox[0].chain] - {b.self} <= peers.Keys
    requires forall x, y :: x in peers && y in peers && x != y ==> peers[x] != peers[y]
    requires forall x :: x in peers ==> Sound(peers[x].jobs)
    requires var m := b.outbox[0]; m.chain < WORD && m.client < WORD && m.nonce < WORD && m.node < WORD
    requires raw || Size(AsWire(b.outbox[0])) < LENGTHS
    modifies b`outbox, peers.Values
    ensures b.Valid() && b.outbox == old(b.outbox)[1..]
    ensures forall x :: x in old(b.chains[b.outbox[0].chain]) - {b.self} ==>
      peers[x].jobs == [] && multiset(peers[x].handed) ==
        multiset(old(peers[x].handed)) + LeavesAll(old(peers[x].jobs)) + multiset{old(AsWire(b.outbox[0]))}
    ensures forall x :: x in peers && x !in old(b.chains[b.outbox[0].chain]) - {b.self} ==> unchanged(peers[x])
  {
    hide Size, Sound, LeavesAll;
    ghost var m := AsWire(b.outbox[0]);
    var r, buffer, rest := EncodeQueued(b, raw);
    ghost var all := rest;
    while rest != {}
      invariant rest <= all && buffer[..] == Bytes(Form(m, raw))
      invariant b.Valid() && b.outbox == old(b.outbox)[1..]
      invariant forall x :: x in all && x !in rest ==>
        peers[x].jobs == [] && multiset(peers[x].handed) ==
          multiset(old(peers[x].handed)) + LeavesAll(old(peers[x].jobs)) + multiset{m}
      invariant forall x :: x in peers && (x in rest || x !in all) ==> unchanged(peers[x])
      decreases |rest|
    {
      var x: Pid :| x in rest;
      Arrive(peers[x], buffer, m, raw);
      rest := rest - {x};
    }
  }

  /** From one node's queue into another's session: the oldest queued broadcast, relayed to an idle peer and
      handed over there, is handled in the session that its own chain, client and nonce name, with its
      payload, its type and its node id. */
  method Pass(b: B.ReliableBroadcast, raw: bool, peer: PacketManager, other: B.ReliableBroadcast)
    returns (r: B.Outcome)
    requires b.Valid() && b.outbox != [] && other.Valid() && other != b
    requires peer.jobs == [] && peer.handed == []
    requires var m := b.outbox[0]; m.chain < WORD && m.client < WORD && m.nonce < WORD && m.node < WORD
    requires raw || Size(AsWire(b.outbox[0])) < LENGTHS
    modifies b`outbox, peer, other, var q := b.outbox[0]; var id := B.Id(q.chain, q.client, q.nonce);
      if id in other.sessions then {other.sessions[id]} else {}
    ensures other.Valid()
    ensures var q := old(b.outbox[0]); var id := B.Id(q.chain, q.client, q.nonce);
      if r == B.UnknownChain then q.chain !in other.chains && unchanged(other)
      else
        && q.chain in other.chains
        && var e := Handle(other.Parameters(id), old(other.StateOf(id)), Msg(old(q.kind), q.data, old(q.node)));
          && other.StateOf(id) == e.sess && other.log == old(other.log) + B.Tagged(id, e.delivered)
          && |other.outbox| == |old(other.outbox)| + |e.posts|
  {
    hide Handle, Parse, Bytes, Form, Size, Leaves, LeavesAll, B.ReliableBroadcast.Valid;
    ghost var q := b.outbox[0];
    ghost var m := AsWire(q);
    var sent, buffer, _ := EncodeQueued(b, raw);
    Arrive(peer, buffer, m, raw);
    OnlyOne(peer.handed, m);
    r := HandOver(other, peer.handed[0]);
  }

  lemma OnlyOne(handed: seq<Wire>, m: Wire)
    requires multiset(handed) == multiset{} + LeavesAll([]) + multiset{m}
    ensures handed == [m]
  {
    assert multiset(handed) == multiset{m};
    assert |handed| == |multiset(handed)| == 1;
    assert handed[0] in multiset(handed);
  }

  lemma OneLeaf(m: Wire)
    requires m.Leaf?
    ensures Leaves(Packet([m])) == multiset{m}
  {
    assert [m][1..] == [];
    assert LeavesAll([m]) == Leaves(m) + LeavesAll([]);
  }

  lemma FormLeaves(m: Wire, raw: bool)
    requires m.Leaf? && (raw || Size(m) < LENGTHS)
    ensures Parse(Bytes(Form(m, raw))) == Parsed(Form(m, raw)) && NoNull(Form(m, raw))
    ensures Leaves(Form(m, raw)) == multiset{m}
  {
    LeafRoundTrip(m);
    if !raw {
      RoundTrip(Packet([m]));
      OneLeaf(m);
    }
  }
}
