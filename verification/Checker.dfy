/** The client's delivery checker: an index of deliveries kept up to date event by event, and the plain
    recount of the trace it must agree with. */
module Checker {
  import opened Sets

  type Chain = nat

  datatype Event = Sent(chain: Chain, message: string) | Delivered(chain: Chain, node: nat, message: string)

  /** What the checker keeps for one chain: the nodes seen so far for each message still incomplete, the
      number of sends, and the number of messages all nodes delivered. */
  datatype Book = Book(pending: map<string, set<nat>>, total: nat, good: nat)

  const BLANK := Book(map[], 0, 0)

  function Step(n: nat, b: Book, e: Event): Book {
    match e
    case Sent(_, message) => b.(total := b.total + 1, pending := b.pending[message := {}])
    case Delivered(_, node, message) =>
      if message !in b.pending || node in b.pending[message] then b
      else
        var nodes := b.pending[message] + {node};
        if |nodes| == n then b.(pending := b.pending - {message}, good := b.good + 1)
        else b.(pending := b.pending[message := nodes])
  }

  /** The book of a chain after a trace. */
  function Replay(n: nat, trace: seq<Event>, chain: Chain): Book {
    if trace == [] then BLANK
    else
      var b, e := Replay(n, trace[..|trace| - 1], chain), trace[|trace| - 1];
      if e.chain == chain then Step(n, b, e) else b
  }

  /** Reported numbers: messages delivered by all nodes, by some but not all, and by none. */
  function Report(b: Book): (int, int, int) {
    var partial := |set m | m in b.pending && b.pending[m] != {}|;
    (b.good, partial, b.total - (b.good + partial))
  }

  class ConsistencyTester {
    const chains: set<Chain>
    const nodeCount: nat
    var messages: map<Chain, map<string, set<nat>>>
    var totalMessagesCount: map<Chain, nat>
    var good: map<Chain, nat>

    ghost predicate Valid()
      reads this
    {
      messages.Keys == chains && totalMessagesCount.Keys == chains && good.Keys == chains
    }

    function BookOf(chain: Chain): Book
      requires chain in messages && chain in totalMessagesCount && chain in good
      reads this
    {
      Book(messages[chain], totalMessagesCount[chain], good[chain])
    }

    constructor (chains: set<Chain>, nodeCount: nat)
      ensures Valid() && this.chains == chains && this.nodeCount == nodeCount
      ensures forall c :: c in chains ==> BookOf(c) == BLANK
    {
      this.chains, this.nodeCount := chains, nodeCount;
      messages := map c | c in chains :: map[];
      totalMessagesCount := map c | c in chains :: 0;
      good := map c | c in chains :: 0;
    }

    method OnTestStart()
      modifies this
      ensures Valid() && forall c :: c in chains ==> BookOf(c) == BLANK
    {
      messages := map c | c in chains :: map[];
      totalMessagesCount := map c | c in chains :: 0;
      good := map c | c in chains :: 0;
    }

    method OnSend(chain: Chain, message: string)
      requires Valid() && chain in chains
      modifies this
      ensures Valid() && BookOf(chain) == Step(nodeCount, old(BookOf(chain)), Sent(chain, message))
      ensures forall c :: c in chains && c != chain ==> BookOf(c) == old(BookOf(c))
    {
      totalMessagesCount := totalMessagesCount[chain := totalMessagesCount[chain] + 1];
      messages := messages[chain := messages[chain][message := {}]];
    }

    method OnDelivery(chain: Chain, node: nat, message: string)
      requires Valid() && chain in chains
      modifies this
      ensures Valid() && BookOf(chain) == Step(nodeCount, old(BookOf(chain)), Delivered(chain, node, message))
      ensures forall c :: c in chains && c != chain ==> BookOf(c) == old(BookOf(c))
    {
      if message in messages[chain] && node !in messages[chain][message] {
        var nodes := messages[chain][message] + {node};
        messages := messages[chain := messages[chain][message := nodes]];
        var count := |messages[chain][message]|;
        if count == nodeCount {
          messages := messages[chain := messages[chain] - {message}];
          good := good[chain := good[chain] + 1];
          assert messages[chain] == old(messages[chain]) - {message};
        }
      }
    }

    method GetResult() returns (result: map<Chain, (int, int, int)>)
      requires Valid()
      ensures result.Keys == chains && forall c :: c in chains ==> result[c] == Report(BookOf(c))
    {
      result := map[];
      var rest := chains;
      while rest != {}
        invariant rest <= chains && result.Keys == chains - rest
        invariant forall c :: c in result ==> result[c] == Report(BookOf(c))
        decreases |rest|
      {
        var c :| c in rest;
        var partial := CountPartial(messages[c]);
        var lost := totalMessagesCount[c] as int - (good[c] + partial) as int;
        result := result[c := (good[c] as int, partial as int, lost)];
        rest := rest - {c};
      }
    }
  }

  /** sum(1 for count in values if len(count) > 0) */
  method CountPartial(pending: map<string, set<nat>>) returns (partial: nat)
    ensures partial == |set m | m in pending && pending[m] != {}|
  {
    partial := 0;
    var rest := pending.Keys;
    ghost var counted: set<string> := {};
    while rest != {}
      invariant rest <= pending.Keys && partial == |counted|
      invariant counted == set m | m in pending && m !in rest && pending[m] != {}
      decreases |rest|
    {
      var m :| m in rest;
      if |pending[m]| > 0 {
        partial := partial + 1;
        counted := counted + {m};
      }
      rest := rest - {m};
    }
    assert counted == set m | m in pending && pending[m] != {};
  }

  /** The recount. */
  function SentTo(trace: seq<Event>, chain: Chain): set<string> {
    set e | e in trace && e.Sent? && e.chain == chain :: e.message
  }

  /** The nodes that delivered a message after it was sent. */
  function Seen(trace: seq<Event>, chain: Chain, message: string): set<nat> {
    if trace == [] then {}
    else
      var prefix, e := trace[..|trace| - 1], trace[|trace| - 1];
      Seen(prefix, chain, message) +
        if e.Delivered? && e.chain == chain && e.message == message && message in SentTo(prefix, chain)
        then {e.node} else {}
  }

  function Everywhere(n: nat, trace: seq<Event>, chain: Chain): set<string> {
    set m | m in SentTo(trace, chain) && |Seen(trace, chain, m)| == n
  }

  function Somewhere(n: nat, trace: seq<Event>, chain: Chain): set<string> {
    set m | m in SentTo(trace, chain) && 0 < |Seen(trace, chain, m)| < n
  }

  function Nowhere(trace: seq<Event>, chain: Chain): set<string> {
    set m | m in SentTo(trace, chain) && |Seen(trace, chain, m)| == 0
  }

  /** Names are sent once per chain, and delivering nodes are among the n listened to. */
  ghost predicate Proper(n: nat, trace: seq<Event>) {
    forall i :: 0 <= i < |trace| ==>
      match trace[i]
      case Sent(c, m) => m !in SentTo(trace[..i], c)
      case Delivered(_, node, _) => node < n
  }

  /** The book tells the recount. */
  ghost predicate Tells(n: nat, trace: seq<Event>, chain: Chain, b: Book) {
    && b.total == |SentTo(trace, chain)| && b.good == |Everywhere(n, trace, chain)|
    && b.pending.Keys == SentTo(trace, chain) - Everywhere(n, trace, chain)
    && forall m :: m in b.pending ==> b.pending[m] == Seen(trace, chain, m)
  }

  lemma SentToOf(trace: seq<Event>, e: Event, chain: Chain)
    ensures SentTo(trace + [e], chain) ==
      if e.Sent? && e.chain == chain then SentTo(trace, chain) + {e.message} else SentTo(trace, chain)
  {
  }

  lemma SeenOf(trace: seq<Event>, e: Event, chain: Chain, message: string)
    ensures Seen(trace + [e], chain, message) ==
      if e.Delivered? && e.chain == chain && e.message == message && message in SentTo(trace, chain)
      then Seen(trace, chain, message) + {e.node} else Seen(trace, chain, message)
  {
    assert (trace + [e])[..|trace|] == trace;
  }

  lemma {:induction false} UnsentUnseen(trace: seq<Event>, chain: Chain, message: string)
    requires message !in SentTo(trace, chain)
    ensures Seen(trace, chain, message) == {}
  {
    if trace != [] {
      var prefix, e := trace[..|trace| - 1], trace[|trace| - 1];
      assert trace == prefix + [e];
      SentToOf(prefix, e, chain);
      UnsentUnseen(prefix, chain, message);
    }
  }

  function Below(n: nat): (s: set<nat>)
    ensures |s| == n && forall i: nat :: i in s <==> i < n
  {
    if n == 0 then {} else Below(n - 1) + {n - 1}
  }

  lemma {:induction false} SeenBelow(n: nat, trace: seq<Event>, chain: Chain, message: string)
    requires Proper(n, trace)
    ensures Seen(trace, chain, message) <= Below(n)
    ensures |Seen(trace, chain, message)| <= n
    ensures |Seen(trace, chain, message)| == n ==> Seen(trace, chain, message) == Below(n)
  {
    if trace != [] {
      ProperPrefix(n, trace);
      SeenBelow(n, trace[..|trace| - 1], chain, message);
    }
    SubsetCard(Seen(trace, chain, message), Below(n));
    if |Seen(trace, chain, message)| == n {
      EqualCard(Seen(trace, chain, message), Below(n));
    }
  }

  lemma ProperPrefix(n: nat, trace: seq<Event>)
    requires Proper(n, trace) && trace != []
    ensures Proper(n, trace[..|trace| - 1])
    ensures match trace[|trace| - 1]
      case Sent(c, m) => m !in SentTo(trace[..|trace| - 1], c)
      case Delivered(_, node, _) => node < n
  {
    var prefix := trace[..|trace| - 1];
    forall i | 0 <= i < |prefix|
      ensures prefix[..i] == trace[..i] && prefix[i] == trace[i]
    {
    }
  }

  /** The completed messages after one more event, when only those in more are newly complete. */
  lemma EverywhereBy(n: nat, trace: seq<Event>, e: Event, chain: Chain, more: set<string>)
    requires SentTo(trace, chain) <= SentTo(trace + [e], chain)
    requires forall m :: m in SentTo(trace + [e], chain) ==>
      (|Seen(trace + [e], chain, m)| == n <==> m in Everywhere(n, trace, chain) + more)
    requires more <= SentTo(trace, chain)
    ensures Everywhere(n, trace + [e], chain) == Everywhere(n, trace, chain) + more
  {
    hide Seen, SentTo;
  }

  /** What sending a new name changes: it is sent, and seen nowhere. */
  lemma SendOf(n: nat, trace: seq<Event>, chain: Chain, message: string)
    requires n >= 1 && message !in SentTo(trace, chain)
    ensures var longer := trace + [Sent(chain, message)];
      && SentTo(longer, chain) == SentTo(trace, chain) + {message}
      && Seen(trace, chain, message) == {} && (forall m :: Seen(longer, chain, m) == Seen(trace, chain, m))
      && message !in Everywhere(n, trace, chain) && Everywhere(n, longer, chain) == Everywhere(n, trace, chain)
  {
    hide Seen, SentTo;
    var e := Sent(chain, message);
    SentToOf(trace, e, chain);
    forall m
      ensures Seen(trace + [e], chain, m) == Seen(trace, chain, m)
    {
      SeenOf(trace, e, chain, m);
    }
    UnsentUnseen(trace, chain, message);
    EverywhereBy(n, trace, e, chain, {});
  }

  lemma SendTells(n: nat, trace: seq<Event>, chain: Chain, message: string, b: Book)
    requires n >= 1 && Tells(n, trace, chain, b) && message !in SentTo(trace, chain)
    ensures Tells(n, trace + [Sent(chain, message)], chain, Step(n, b, Sent(chain, message)))
  {
    hide Seen, SentTo, Everywhere;
    SendOf(n, trace, chain, message);
  }

  /** What one more delivery on the chain changes: one set of nodes, and that only for a sent name. */
  lemma DeliveryOf(trace: seq<Event>, chain: Chain, node: nat, message: string)
    ensures SentTo(trace + [Delivered(chain, node, message)], chain) == SentTo(trace, chain)
    ensures forall m :: m != message ==>
      Seen(trace + [Delivered(chain, node, message)], chain, m) == Seen(trace, chain, m)
    ensures Seen(trace + [Delivered(chain, node, message)], chain, message) ==
      if message in SentTo(trace, chain) then Seen(trace, chain, message) + {node} else Seen(trace, chain, message)
  {
    var e := Delivered(chain, node, message);
    SentToOf(trace, e, chain);
    forall m {
      SeenOf(trace, e, chain, m);
    }
  }

  /** A delivery of an unknown or complete name, or a repeated one, changes nothing. */
  lemma IgnoredTells(n: nat, trace: seq<Event>, chain: Chain, node: nat, message: string, b: Book)
    requires n >= 1 && Proper(n, trace) && node < n && Tells(n, trace, chain, b)
    requires message !in b.pending || node in b.pending[message]
    ensures Tells(n, trace + [Delivered(chain, node, message)], chain, b)
  {
    hide Proper, Seen, SentTo;
    DeliveryOf(trace, chain, node, message);
    SeenBelow(n, trace, chain, message);
    assert message in SentTo(trace, chain) ==> node in Seen(trace, chain, message);
    assert Seen(trace + [Delivered(chain, node, message)], chain, message) == Seen(trace, chain, message);
    assert Everywhere(n, trace + [Delivered(chain, node, message)], chain) == Everywhere(n, trace, chain);
  }

  /** What a counted delivery changes: the message gains a node, and may be complete with it. */
  lemma CountedOf(n: nat, trace: seq<Event>, chain: Chain, node: nat, message: string)
    requires n >= 1 && message in SentTo(trace, chain) - Everywhere(n, trace, chain)
    ensures var longer, nodes := trace + [Delivered(chain, node, message)], Seen(trace, chain, message) + {node};
      && SentTo(longer, chain) == SentTo(trace, chain) && Seen(longer, chain, message) == nodes
      && (forall m :: m != message ==> Seen(longer, chain, m) == Seen(trace, chain, m))
      && Everywhere(n, longer, chain) == Everywhere(n, trace, chain) + if |nodes| == n then {message} else {}
  {
    hide Seen, SentTo;
    DeliveryOf(trace, chain, node, message);
    var nodes := Seen(trace, chain, message) + {node};
    EverywhereBy(n, trace, Delivered(chain, node, message), chain, if |nodes| == n then {message} else {});
  }

  lemma CountedTells(n: nat, trace: seq<Event>, chain: Chain, node: nat, message: string, b: Book)
    requires n >= 1 && node < n && Tells(n, trace, chain, b)
    requires message in b.pending && node !in b.pending[message]
    ensures Tells(n, trace + [Delivered(chain, node, message)], chain, Step(n, b, Delivered(chain, node, message)))
  {
    hide Seen, SentTo, Everywhere;
    CountedOf(n, trace, chain, node, message);
  }

  lemma DeliveryTells(n: nat, trace: seq<Event>, chain: Chain, node: nat, message: string, b: Book)
    requires n >= 1 && Proper(n, trace) && node < n && Tells(n, trace, chain, b)
    ensures Tells(n, trace + [Delivered(chain, node, message)], chain, Step(n, b, Delivered(chain, node, message)))
  {
    hide Proper, Seen, SentTo, Tells;
    if message !in b.pending || node in b.pending[message] {
      IgnoredTells(n, trace, chain, node, message, b);
    } else {
      CountedTells(n, trace, chain, node, message, b);
    }
  }

  lemma OtherTells(n: nat, trace: seq<Event>, e: Event, chain: Chain, b: Book)
    requires Tells(n, trace, chain, b) && e.chain != chain
    ensures Tells(n, trace + [e], chain, b)
  {
    SentToOf(trace, e, chain);
    forall m
      ensures Seen(trace + [e], chain, m) == Seen(trace, chain, m)
    {
      SeenOf(trace, e, chain, m);
    }
    assert Everywhere(n, trace + [e], chain) == Everywhere(n, trace, chain);
  }

  lemma {:induction false} ReplayTells(n: nat, trace: seq<Event>, chain: Chain)
    requires n >= 1 && Proper(n, trace)
    ensures Tells(n, trace, chain, Replay(n, trace, chain))
  {
    if trace != [] {
      var prefix, e := trace[..|trace| - 1], trace[|trace| - 1];
      ProperPrefix(n, trace);
      ReplayTells(n, prefix, chain);
      assert trace == prefix + [e];
      var b := Replay(n, prefix, chain);
      if e.chain != chain {
        OtherTells(n, prefix, e, chain, b);
      } else {
        match e
        case Sent(_, m) => SendTells(n, prefix, chain, m, b);
        case Delivered(_, node, m) => DeliveryTells(n, prefix, chain, node, m, b);
      }
    } else {
      assert Everywhere(n, trace, chain) == {};
    }
  }

  /** Every sent message falls in exactly one of the three classes. */
  lemma Classes(n: nat, trace: seq<Event>, chain: Chain)
    requires n >= 1 && Proper(n, trace)
    ensures |Everywhere(n, trace, chain)| + |Somewhere(n, trace, chain)| + |Nowhere(trace, chain)|
      == |SentTo(trace, chain)|
  {
    hide Proper, Seen, SentTo;
    var all, some, none := Everywhere(n, trace, chain), Somewhere(n, trace, chain), Nowhere(trace, chain);
    forall m | m in SentTo(trace, chain)
      ensures |Seen(trace, chain, m)| <= n
    {
      SeenBelow(n, trace, chain, m);
    }
    assert SentTo(trace, chain) == all + some + none;
    assert all !! some && (all + some) !! none;
  }

  /** The messages the index counts as partly delivered. */
  lemma PartialIsSomewhere(n: nat, trace: seq<Event>, chain: Chain, b: Book)
    requires n >= 1 && Proper(n, trace) && Tells(n, trace, chain, b)
    ensures (set m | m in b.pending && b.pending[m] != {}) == Somewhere(n, trace, chain)
  {
    hide Proper, Seen, SentTo;
    forall m | m in SentTo(trace, chain)
      ensures |Seen(trace, chain, m)| <= n
    {
      SeenBelow(n, trace, chain, m);
    }
    forall m
      ensures m in b.pending && b.pending[m] != {} <==> m in Somewhere(n, trace, chain)
    {
    }
  }

  /** The report of the incremental index is the recount, and accounts for every message sent. */
  lemma ReportIsRecount(n: nat, trace: seq<Event>, chain: Chain)
    requires n >= 1 && Proper(n, trace)
    ensures Report(Replay(n, trace, chain)) ==
      (|Everywhere(n, trace, chain)|, |Somewhere(n, trace, chain)|, |Nowhere(trace, chain)|)
    ensures |Everywhere(n, trace, chain)| + |Somewhere(n, trace, chain)| + |Nowhere(trace, chain)|
      == |SentTo(trace, chain)|
  {
    hide Proper, Seen, SentTo, Everywhere, Somewhere, Nowhere, Replay;
    ReplayTells(n, trace, chain);
    Classes(n, trace, chain);
    PartialIsSomewhere(n, trace, chain, Replay(n, trace, chain));
  }

  lemma ReplayOf(n: nat, trace: seq<Event>, e: Event, chain: Chain)
    ensures Replay(n, trace + [e], chain) ==
      if e.chain == chain then Step(n, Replay(n, trace, chain), e) else Replay(n, trace, chain)
  {
    assert (trace + [e])[..|trace|] == trace;
  }

  method OnEvent(tester: ConsistencyTester, e: Event)
    requires tester.Valid() && e.chain in tester.chains
    modifies tester
    ensures tester.Valid()
    ensures tester.BookOf(e.chain) == Step(tester.nodeCount, old(tester.BookOf(e.chain)), e)
    ensures forall c :: c in tester.chains && c != e.chain ==> tester.BookOf(c) == old(tester.BookOf(c))
  {
    match e
    case Sent(chain, message) => tester.OnSend(chain, message);
    case Delivered(chain, node, message) => tester.OnDelivery(chain, node, message);
  }

  lemma ReplayNothing(n: nat)
    ensures forall c :: Replay(n, [], c) == BLANK
  {
  }
}
