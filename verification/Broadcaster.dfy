/** The objects of one node as its handlers leave them: sessions and messages are mutated in place,
    processMessage and broadcast call each other, and the outbox holds references to messages. */
module Broadcaster {
  import opened SessionStep
  import opened Thresholds

  datatype Id = Id(chain: nat, client: nat, nonce: nat)

  /** How a top-level call ends: a session of a chain without configuration cannot be created. */
  datatype Outcome = Handled | UnknownChain

  class Message {
    const chain: nat
    const client: nat
    const nonce: nat
    const data: Data
    var kind: Kind
    var node: Pid

    constructor (kind: Kind, chain: nat, client: nat, nonce: nat, node: Pid, data: Data)
      ensures this.chain == chain && this.client == client && this.nonce == nonce && this.data == data
      ensures AsMsg() == Msg(kind, data, node)
    {
      this.kind, this.chain, this.client, this.nonce, this.node, this.data := kind, chain, client, nonce, node, data;
    }

    function AsMsg(): Msg
      reads this
    {
      Msg(kind, data, node)
    }

    /** The key of the session a message belongs to. */
    function SessionId(): Id {
      Id(chain, client, nonce)
    }

    method SetNodeId(id: Pid)
      modifies this`node
      ensures node == id
    {
      node := id;
    }

    method SetMessageType(messageType: Kind)
      modifies this`kind
      ensures kind == messageType
    {
      kind := messageType;
    }
  }

  /** The last call decreases: first the READY flag still unset, then the message type. */
  function FlagRank(readySent: bool): nat {
    if readySent then 0 else 1
  }

  function KindRank(kind: Kind): nat {
    match kind case Send => 2 case Echo => 1 case Ready => 0
  }

  function Repeat(m: Message, k: nat): seq<Message> {
    if k == 0 then [] else [m] + Repeat(m, k - 1)
  }

  function Tagged(id: Id, payloads: seq<Data>): seq<(Id, Data)> {
    seq(|payloads|, i requires 0 <= i < |payloads| => (id, payloads[i]))
  }

  lemma FewPosts(m: Message, id: Id)
    ensures Repeat(m, 0) == [] && Repeat(m, 1) == [m] && Tagged(id, []) == []
  {
    assert Repeat(m, 1) == [m] + Repeat(m, 0);
  }

  class Session {
    const id: Id
    const t: nat
    const echoTarget: nat
    const owner: ReliableBroadcast
    var echo: Votes
    var ready: Votes
    var readySent: bool
    var delivered: bool

    constructor (owner: ReliableBroadcast, id: Id)
      requires id.chain in owner.chains
      ensures this.owner == owner && this.id == id && State() == INITIAL
      ensures var n := |owner.chains[id.chain]|; t == GetT(n) && echoTarget == GetEchoTarget(n, t)
    {
      this.owner, this.id := owner, id;
      var n := owner.NodesCount(id.chain);
      t := GetT(n);
      echoTarget := GetEchoTarget(n, GetT(n));
      echo, ready, readySent, delivered := map[], map[], false, false;
    }

    function State(): Sess
      reads this
    {
      Sess(echo, ready, readySent, delivered)
    }

    function Parameters(): Params {
      Params(owner.self, t, echoTarget)
    }

    /** A call has had effect e: on the session, on the message object, and on the node's queue and log. */
    ghost predicate Did(e: Effect, message: Message, outbox: seq<Message>, log: seq<(Id, Data)>)
      reads this, owner, message
    {
      && State() == e.sess && message.AsMsg() == e.last
      && owner.outbox == outbox + Repeat(message, |e.posts|)
      && owner.log == log + Tagged(id, e.delivered)
    }

    /** One handler call, with the calls it makes to itself through broadcast, is SessionStep.Handle. */
    method ProcessMessage(message: Message)
      requires owner.Valid() && message.SessionId() == id
      requires id in owner.sessions && owner.sessions[id] == this
      modifies this, owner, message
      ensures owner.Valid() && owner.sessions == old(owner.sessions)
      ensures Did(Handle(Parameters(), old(State()), old(message.AsMsg())), message, old(owner.outbox), old(owner.log))
      decreases FlagRank(readySent), KindRank(message.kind), 1
    {
      if message.kind == Send {
        ProcessSend(message);
      } else if message.kind == Echo {
        ProcessEcho(message);
      } else {
        ProcessReady(message);
      }
    }

    method ProcessSend(message: Message)
      requires owner.Valid() && message.SessionId() == id && message.kind == Send
      requires id in owner.sessions && owner.sessions[id] == this
      modifies this, owner, message
      ensures owner.Valid() && owner.sessions == old(owner.sessions)
      ensures Did(Handle(Parameters(), old(State()), old(message.AsMsg())), message, old(owner.outbox), old(owner.log))
      decreases FlagRank(readySent), KindRank(message.kind), 0
    {
      hide Handle, GetT, GetEchoTarget;
      SendReenters(Parameters(), State(), message.AsMsg());
      owner.Broadcast(Echo, message);
    }

    method ProcessEcho(message: Message)
      requires owner.Valid() && message.SessionId() == id && message.kind == Echo
      requires id in owner.sessions && owner.sessions[id] == this
      modifies this, owner, message
      ensures owner.Valid() && owner.sessions == old(owner.sessions)
      ensures Did(Handle(Parameters(), old(State()), old(message.AsMsg())), message, old(owner.outbox), old(owner.log))
      decreases FlagRank(readySent), KindRank(message.kind), 0
    {
      EchoCounts(Parameters(), State(), message.AsMsg());
      FewPosts(message, id);
      hide Handle, Insert, Get, GetT, GetEchoTarget, Repeat, Tagged;
      if !readySent {
        echo := Insert(echo, message.data, message.node);
        var count := |Get(echo, message.data)|;
        if count >= echoTarget {
          if !readySent {
            EchoReenters(Parameters(), old(State()), message.AsMsg());
            readySent := true;
            owner.Broadcast(Ready, message);
          }
        }
      }
    }

    method ProcessReady(message: Message)
      requires owner.Valid() && message.SessionId() == id && message.kind == Ready
      requires id in owner.sessions && owner.sessions[id] == this
      modifies this, owner, message
      ensures owner.Valid() && owner.sessions == old(owner.sessions)
      ensures Did(Handle(Parameters(), old(State()), old(message.AsMsg())), message, old(owner.outbox), old(owner.log))
      decreases FlagRank(readySent), KindRank(message.kind), 0
    {
      hide GetT, GetEchoTarget;
      if !delivered {
        ready := Insert(ready, message.data, message.node);
        var count := |Get(ready, message.data)|;
        if !readySent && count > t {
          if !readySent {
            ReadyReenters(Parameters(), old(State()), message.AsMsg());
            readySent := true;
            owner.Broadcast(Ready, message);
          }
        }
        if !delivered && count > 2 * t {
          if !delivered {
            delivered := true;
            owner.Deliver(message);
          }
        }
      }
    }
  }

  class ReliableBroadcast {
    const self: Pid
    const chains: map<nat, set<Pid>>
    var sessions: map<Id, Session>
    var outbox: seq<Message>
    var log: seq<(Id, Data)>

    constructor (self: Pid, chains: map<nat, set<Pid>>)
      ensures Valid() && this.self == self && this.chains == chains
      ensures sessions == map[] && outbox == [] && log == []
    {
      this.self, this.chains := self, chains;
      sessions, outbox, log := map[], [], [];
    }

    function NodesCount(chain: nat): nat
      requires chain in chains
    {
      |chains[chain]|
    }

    /** The pool maps an id to the one session of that id. */
    ghost predicate Valid()
      reads this
    {
      forall id :: id in sessions ==>
        && sessions[id].id == id && sessions[id].owner == this && id.chain in chains
        && sessions[id].t == GetT(|chains[id.chain]|)
        && sessions[id].echoTarget == GetEchoTarget(|chains[id.chain]|, sessions[id].t)
    }

    function Parameters(id: Id): Params
      requires id.chain in chains
    {
      var t := GetT(|chains[id.chain]|);
      Params(self, t, GetEchoTarget(|chains[id.chain]|, t))
    }

    /** What a session decides by: the largest number of faults below a third of the nodes of its chain, this
        node included, and the least quorum of which any two share more than that many. */
    lemma ThresholdsOfChain(id: Id)
      requires id.chain in chains && 1 <= |chains[id.chain]| <= MAX_NODES
      ensures Parameters(id).self == self
      ensures forall k: nat :: 3 * k < |chains[id.chain]| <==> k <= Parameters(id).t
      ensures forall k: nat :: 2 * k - |chains[id.chain]| > Parameters(id).t <==> k >= Parameters(id).q
    {
      var n := |chains[id.chain]|;
      forall k: nat
        ensures 3 * k < n <==> k <= Parameters(id).t
        ensures 2 * k - n > Parameters(id).t <==> k >= Parameters(id).q
      {
        TIsLargest(n, k);
        EchoTargetIsLeast(n, k);
      }
    }

    /** Every session object decides by them. */
    lemma SessionThresholds(id: Id)
      requires Valid() && id in sessions
      ensures id.chain in chains && sessions[id].Parameters() == Parameters(id)
    {
    }

    /** What the node knows of the session id, created or not. */
    function StateOf(id: Id): Sess
      reads this, if id in sessions then {sessions[id]} else {}
    {
      if id in sessions then sessions[id].State() else INITIAL
    }

    /** broadcast: stamp the object, queue a reference to it, and process it as one's own. */
    method Broadcast(messageType: Kind, message: Message)
      requires Valid() && message.SessionId() in sessions && messageType != Send
      modifies this, message, sessions[message.SessionId()]
      ensures Valid() && sessions == old(sessions)
      ensures var id := message.SessionId();
        var e := Handle(sessions[id].Parameters(), old(sessions[id].State()), Msg(messageType, message.data, self));
        && sessions[id].State() == e.sess && message.AsMsg() == e.last
        && outbox == old(outbox) + [message] + Repeat(message, |e.posts|)
        && log == old(log) + Tagged(id, e.delivered)
      decreases FlagRank(sessions[message.SessionId()].readySent), KindRank(messageType), 3
    {
      hide Handle, GetT, GetEchoTarget;
      message.SetNodeId(self);
      message.SetMessageType(messageType);
      outbox := outbox + [message];
      var r := ProcessMessage(message);
    }

    /** A message is handled in its own session, found or created, and nowhere else. */
    method ProcessMessage(message: Message) returns (r: Outcome)
      requires Valid()
      modifies this, message, if message.SessionId() in sessions then {sessions[message.SessionId()]} else {}
      ensures Valid()
      ensures r == UnknownChain <==> message.SessionId() !in old(sessions) && message.chain !in chains
      ensures r == UnknownChain ==> unchanged(this) && unchanged(message)
      ensures r == Handled ==>
        var id := message.SessionId();
        && id.chain in chains && sessions.Keys == old(sessions).Keys + {id}
        && (forall k :: k in old(sessions) ==> sessions[k] == old(sessions)[k])
        && var e := Handle(Parameters(id), old(StateOf(id)), old(message.AsMsg()));
          && StateOf(id) == e.sess && message.AsMsg() == e.last
          && outbox == old(outbox) + Repeat(message, |e.posts|)
          && log == old(log) + Tagged(id, e.delivered)
      decreases FlagRank(StateOf(message.SessionId()).readySent), KindRank(message.kind), 2
    {
      hide Handle, GetT, GetEchoTarget;
      var session := GetOrCreateSession(message.SessionId());
      if session == null {
        return UnknownChain;
      }
      session.ProcessMessage(message);
      return Handled;
    }

    method GetSession(id: Id) returns (session: Session?)
      ensures session == if id in sessions then sessions[id] else null
    {
      session := null;
      if id in sessions {
        session := sessions[id];
      }
    }

    method AddSession(id: Id) returns (session: Session?)
      requires Valid()
      modifies this`sessions
      ensures Valid()
      ensures id.chain !in chains ==> session == null && sessions == old(sessions)
      ensures id.chain in chains && id in old(sessions) ==> session == old(sessions)[id] && sessions == old(sessions)
      ensures id.chain in chains && id !in old(sessions) ==>
        session != null && fresh(session) && session.State() == INITIAL && sessions == old(sessions)[id := session]
    {
      if id.chain !in chains {
        return null;
      }
      session := new Session(this, id);
      if id !in sessions {
        sessions := sessions[session.id := session];
      } else {
        session := sessions[id];
      }
    }

    /** The session of an id, created only if the pool has none. */
    method GetOrCreateSession(id: Id) returns (session: Session?)
      requires Valid()
      modifies this`sessions
      ensures Valid()
      ensures session == null <==> id !in old(sessions) && id.chain !in chains
      ensures session == null ==> sessions == old(sessions)
      ensures id in old(sessions) ==> session == old(sessions)[id] && sessions == old(sessions)
      ensures id !in old(sessions) && session != null ==>
        fresh(session) && session.State() == INITIAL && sessions == old(sessions)[id := session]
    {
      session := GetSession(id);
      if session == null {
        session := AddSession(id);
      }
    }

    method Deliver(message: Message)
      modifies this`log
      ensures log == old(log) + [(message.SessionId(), message.data)]
    {
      log := log + [(message.SessionId(), message.data)];
    }
  }
}
