/** The wire format byte by byte: where every field of an encoding stands, and which buffers a node takes
    for what. */
module Layout {
  import opened SessionStep
  import opened Thresholds
  import opened Wire
  import opened RoundTrips

  /** The eight bytes of s from position at are those of v, lowest first. */
  ghost predicate Holds(s: seq<byte>, at: nat, v: word) {
    at + 8 <= |s| && forall j :: 0 <= j < 8 ==> Power(j) > 0 && s[at + j] as nat == v as nat / Power(j) % 256
  }

  lemma WordHeld(s: seq<byte>, at: nat, v: word)
    requires at + 8 <= |s| && s[at..at + 8] == Le(v as nat, 8)
    ensures Holds(s, at, v)
  {
    forall j | 0 <= j < 8
      ensures Power(j) > 0 && s[at + j] as nat == v as nat / Power(j) % 256
    {
      LeDigit(v as nat, 8, j);
      assert s[at + j] == s[at..at + 8][j];
    }
  }

  /** A message: its type at 0, then chain, client, nonce and node id, eight bytes each, then the payload. */
  lemma MessageLayout(w: Wire)
    requires w.Leaf?
    ensures var s := Bytes(w);
      && |s| == 33 + |w.data|
      && s[0] == (match w.kind case Send => 0 case Echo => 1 case Ready => 2)
      && Holds(s, 1, w.chain) && Holds(s, 9, w.client) && Holds(s, 17, w.nonce) && Holds(s, 25, w.node)
      && s[33..] == w.data
  {
    var s := Bytes(w);
    var c, l, n, i := Le(w.chain as nat, 8), Le(w.client as nat, 8), Le(w.nonce as nat, 8), Le(w.node as nat, 8);
    assert s == [KindByte(w.kind)] + c + l + n + i + w.data;
    assert s[1..9] == c && s[9..17] == l && s[17..25] == n && s[25..33] == i && s[33..] == w.data;
    hide Bytes, Le, Holds;
    WordHeld(s, 1, w.chain);
    WordHeld(s, 9, w.client);
    WordHeld(s, 17, w.nonce);
    WordHeld(s, 25, w.node);
  }

  /** Two bytes, low one first. */
  function Pair(s: seq<byte>, at: nat): nat
    requires at + 2 <= |s|
  {
    s[at] as nat + 256 * s[at + 1] as nat
  }

  lemma PairOf(s: seq<byte>, at: nat)
    requires at + 2 <= |s|
    ensures UnLe(s[at..at + 2]) == Pair(s, at)
  {
    var t := s[at..at + 2];
    assert t[1..] == [s[at + 1]] && t[1..][1..] == [];
    assert UnLe(t[1..]) == s[at + 1] as nat;
  }

  lemma PairHeld(s: seq<byte>, at: nat, v: nat)
    requires at + 2 <= |s| && s[at..at + 2] == Le(v, 2)
    ensures Pair(s, at) == v % 65536
  {
    PairOf(s, at);
    LeTruncates(v);
  }

  /** The first i lengths added up. */
  function Offset(lengths: seq<nat>, i: nat): nat
    requires i <= |lengths|
  {
    if i == 0 then 0 else Offset(lengths, i - 1) + lengths[i - 1]
  }

  lemma {:induction false} OffsetRest(lengths: seq<nat>, i: nat)
    requires 1 <= i <= |lengths|
    ensures Offset(lengths, i) == lengths[0] + Offset(lengths[1..], i - 1)
  {
    if i > 1 {
      OffsetRest(lengths, i - 1);
    }
  }

  function Sizes(members: seq<Wire>): seq<nat> {
    seq(|members|, i requires 0 <= i < |members| => |Bytes(members[i])|)
  }

  lemma {:induction false} MemberBytes(members: seq<Wire>, i: nat)
    requires i < |members|
    ensures var at := Offset(Sizes(members), i);
      && at + |Bytes(members[i])| <= |BytesAll(members)|
      && BytesAll(members)[at..at + |Bytes(members[i])|] == Bytes(members[i])
  {
    hide Bytes;
    if i > 0 {
      var rest := members[1..];
      MemberBytes(rest, i - 1);
      assert Sizes(members)[1..] == Sizes(rest);
      OffsetRest(Sizes(members), i);
      var at, size := Offset(Sizes(rest), i - 1), |Bytes(members[i])|;
      var head := |Bytes(members[0])|;
      assert BytesAll(members)[head..] == BytesAll(rest);
      assert BytesAll(members)[head + at..head + at + size] == BytesAll(rest)[at..at + size];
    }
  }

  lemma {:induction false} TableEntry(members: seq<Wire>, i: nat)
    requires i < |members|
    ensures |Table(members)| == 2 * |members| && Table(members)[2 * i..2 * i + 2] == Le(Size(members[i]), 2)
  {
    TableLength(members);
    if i > 0 {
      TableEntry(members[1..], i - 1);
      assert Table(members)[2..] == Table(members[1..]);
      assert Table(members)[2 * i..2 * i + 2] == Table(members[1..])[2 * (i - 1)..2 * (i - 1) + 2];
    }
  }

  /** A packet: 3, the number of members, the size of each, and the members, one after the other. Number and
      sizes are two bytes each, low one first, and cut to them. */
  lemma PacketLayout(members: seq<Wire>)
    ensures var s, k := Bytes(Packet(members)), |members|;
      && |s| == 3 + 2 * k + |BytesAll(members)| && s[0] == 3 && Pair(s, 1) == k % 65536
      && (forall i :: 0 <= i < k ==> Pair(s, 3 + 2 * i) == |Bytes(members[i])| % 65536)
      && forall i :: 0 <= i < k ==>
        var at := 3 + 2 * k + Offset(Sizes(members), i);
        at + |Bytes(members[i])| <= |s| && s[at..at + |Bytes(members[i])|] == Bytes(members[i])
  {
    var s, k := Bytes(Packet(members)), |members|;
    PacketSlices(members);
    hide Bytes, Le, Table, BytesAll, Size, Pair;
    PairHeld(s, 1, k);
    forall i | 0 <= i < k
      ensures Pair(s, 3 + 2 * i) == |Bytes(members[i])| % 65536
    {
      EntryHeld(members, i, s);
    }
    forall i | 0 <= i < k
      ensures var at := 3 + 2 * k + Offset(Sizes(members), i);
        at + |Bytes(members[i])| <= |s| && s[at..at + |Bytes(members[i])|] == Bytes(members[i])
    {
      MemberHeld(members, i, s);
    }
  }

  lemma MemberHeld(members: seq<Wire>, i: nat, s: seq<byte>)
    requires i < |members| && 3 + 2 * |members| <= |s| && s[3 + 2 * |members|..] == BytesAll(members)
    ensures var at := 3 + 2 * |members| + Offset(Sizes(members), i);
      at + |Bytes(members[i])| <= |s| && s[at..at + |Bytes(members[i])|] == Bytes(members[i])
  {
    hide Bytes, BytesAll;
    MemberBytes(members, i);
    var at := Offset(Sizes(members), i);
    RangeOfRange(s, 3 + 2 * |members|, |s|, at, at + |Bytes(members[i])|);
  }

  lemma EntryHeld(members: seq<Wire>, i: nat, s: seq<byte>)
    requires i < |members| && 3 + 2 * |members| <= |s| && s[3..3 + 2 * |members|] == Table(members)
    ensures Pair(s, 3 + 2 * i) == |Bytes(members[i])| % 65536
  {
    hide Bytes, Le, Table, Size;
    TableEntry(members, i);
    RangeOfRange(s, 3, 3 + 2 * |members|, 2 * i, 2 * i + 2);
    SizeIsLength(members[i]);
    PairHeld(s, 3 + 2 * i, Size(members[i]));
  }

  /** What a node rejects by the range alone: an empty one, a type byte above 3, a message without a whole
      header, a packet without a whole length table. */
  lemma Rejections(s: seq<byte>, begin: nat, end: nat)
    requires begin <= end <= |s|
    requires
      || begin == end || s[begin] > 3 || (s[begin] <= 2 && end - begin < 33)
      || (s[begin] == 3 && (end - begin < 3 || end - begin < 3 + 2 * Pair(s, begin + 1)))
    ensures ParseAt(s, begin, end) == Parsed(Null)
  {
    hide Word, ParseAllAt;
    if begin + 3 <= end {
      PairOf(s, begin + 1);
    }
  }

  /** Where a node finds a message, byte by byte: all ranges that start with a message type and hold a header. */
  lemma MessageAt(s: seq<byte>, begin: nat, end: nat)
    requires begin + 33 <= end <= |s| && s[begin] <= 2
    ensures var r := ParseAt(s, begin, end);
      && r.Parsed? && r.w.Leaf?
      && s[begin] == (match r.w.kind case Send => 0 case Echo => 1 case Ready => 2)
      && Holds(s, begin + 1, r.w.chain) && Holds(s, begin + 9, r.w.client)
      && Holds(s, begin + 17, r.w.nonce) && Holds(s, begin + 25, r.w.node)
      && r.w.data == s[begin + 33..end]
  {
    hide Word, Holds, Le;
    var w := ParseAt(s, begin, end).w;
    WordAt(s, begin + 1, w.chain);
    WordAt(s, begin + 9, w.client);
    WordAt(s, begin + 17, w.nonce);
    WordAt(s, begin + 25, w.node);
  }

  lemma WordAt(s: seq<byte>, at: nat, v: word)
    requires at + 8 <= |s| && v == Word(s[at..at + 8])
    ensures Holds(s, at, v)
  {
    WordBytes(s[at..at + 8]);
    WordHeld(s, at, v);
  }

  /** The members after the first stand where they stand after it. */
  lemma Shifted(lengths: seq<nat>, begin: nat)
    requires lengths != []
    ensures Offset(lengths, 0) == 0
    ensures forall j :: 1 <= j < |lengths| ==>
      && begin + Offset(lengths, j) == begin + lengths[0] + Offset(lengths[1..], j - 1)
      && lengths[j] == lengths[1..][j - 1]
  {
    forall j | 1 <= j < |lengths|
      ensures Offset(lengths, j) == lengths[0] + Offset(lengths[1..], j - 1)
    {
      OffsetRest(lengths, j);
    }
  }

  ghost predicate StandsAt(s: seq<byte>, at: nat, end: nat, length: nat, w: Wire) {
    at < end <= |s| && at + length <= |s| && ParseAt(s, at, at + length) == Parsed(w)
  }

  /** The members ms stand one after the other from begin, each starting before end and inside the buffer. */
  ghost predicate Stand(s: seq<byte>, begin: nat, end: nat, lengths: seq<nat>, ms: seq<Wire>) {
    && |ms| == |lengths|
    && forall i :: 0 <= i < |ms| ==> StandsAt(s, begin + Offset(lengths, i), end, lengths[i], ms[i])
  }

  lemma StandRest(s: seq<byte>, begin: nat, end: nat, lengths: seq<nat>, ms: seq<Wire>)
    requires lengths != [] && ms != [] && StandsAt(s, begin, end, lengths[0], ms[0])
    ensures Stand(s, begin, end, lengths, ms) <==> Stand(s, begin + lengths[0], end, lengths[1..], ms[1..])
  {
    hide StandsAt, Offset;
    Shifted(lengths, begin);
    var next, rest, others := begin + lengths[0], lengths[1..], ms[1..];
    if Stand(s, begin, end, lengths, ms) {
      forall i | 0 <= i < |others|
        ensures StandsAt(s, next + Offset(rest, i), end, rest[i], others[i])
      {
        assert StandsAt(s, begin + Offset(lengths, i + 1), end, lengths[i + 1], ms[i + 1]);
      }
    }
    if Stand(s, next, end, rest, others) {
      forall i | 0 <= i < |ms|
        ensures StandsAt(s, begin + Offset(lengths, i), end, lengths[i], ms[i])
      {
        if i > 0 {
          assert StandsAt(s, next + Offset(rest, i - 1), end, rest[i - 1], others[i - 1]);
        }
      }
    }
  }

  lemma {:induction false} MembersAt(s: seq<byte>, begin: nat, end: nat, lengths: seq<nat>, ms: seq<Wire>)
    requires begin <= |s| && end <= |s|
    ensures ParseAllAt(s, begin, end, lengths) == ParsedAll(ms) <==> Stand(s, begin, end, lengths, ms)
    decreases |lengths|
  {
    hide ParseAt;
    if lengths == [] {
      assert ms == [] <==> |ms| == 0;
    } else if ms != [] && StandsAt(s, begin, end, lengths[0], ms[0]) {
      MembersAt(s, begin + lengths[0], end, lengths[1..], ms[1..]);
      StandRest(s, begin, end, lengths, ms);
      assert ms == [ms[0]] + ms[1..];
    } else {
      assert Offset(lengths, 0) == 0;
    }
  }

  ghost predicate IsRead(s: seq<byte>, at: nat, end: nat, length: nat) {
    at < end <= |s| && at + length <= |s| && ParseAt(s, at, at + length).Parsed?
  }

  ghost predicate Escapes(s: seq<byte>, at: nat, end: nat, length: nat) {
    at < end <= |s| && (at + length > |s| || ParseAt(s, at, at + length) == Overrun)
  }

  /** The first i members are read, and the next leaves the buffer, or holds a member that does. */
  ghost predicate LeavesBuffer(s: seq<byte>, begin: nat, end: nat, lengths: seq<nat>, i: nat) {
    && i < |lengths|
    && (forall j :: 0 <= j < i ==> IsRead(s, begin + Offset(lengths, j), end, lengths[j]))
    && Escapes(s, begin + Offset(lengths, i), end, lengths[i])
  }

  ghost predicate SomeLeaves(s: seq<byte>, begin: nat, end: nat, lengths: seq<nat>) {
    exists i: nat :: LeavesBuffer(s, begin, end, lengths, i)
  }

  lemma LeavesLater(s: seq<byte>, begin: nat, end: nat, lengths: seq<nat>, i: nat)
    requires lengths != [] && IsRead(s, begin, end, lengths[0])
    requires LeavesBuffer(s, begin + lengths[0], end, lengths[1..], i)
    ensures LeavesBuffer(s, begin, end, lengths, i + 1)
  {
    hide IsRead, Escapes, Offset;
    Shifted(lengths, begin);
    var next, rest := begin + lengths[0], lengths[1..];
    forall j | 0 <= j < i + 1
      ensures IsRead(s, begin + Offset(lengths, j), end, lengths[j])
    {
      if j > 0 {
        assert IsRead(s, next + Offset(rest, j - 1), end, rest[j - 1]);
      }
    }
  }

  lemma LeavesEarlier(s: seq<byte>, begin: nat, end: nat, lengths: seq<nat>, i: nat)
    requires LeavesBuffer(s, begin, end, lengths, i) && i >= 1
    ensures LeavesBuffer(s, begin + lengths[0], end, lengths[1..], i - 1)
  {
    hide IsRead, Escapes, Offset;
    Shifted(lengths, begin);
    var next, rest := begin + lengths[0], lengths[1..];
    forall j | 0 <= j < i - 1
      ensures IsRead(s, next + Offset(rest, j), end, rest[j])
    {
      assert IsRead(s, begin + Offset(lengths, j + 1), end, lengths[j + 1]);
    }
  }

  /** One member of the loop: it escapes, or is read and the rest decides. */
  lemma FirstMember(s: seq<byte>, begin: nat, end: nat, lengths: seq<nat>)
    requires begin < end <= |s| && lengths != []
    ensures Escapes(s, begin, end, lengths[0]) <==> !IsRead(s, begin, end, lengths[0])
    ensures Escapes(s, begin, end, lengths[0]) ==> ParseAllAt(s, begin, end, lengths) == OverrunAll
    ensures IsRead(s, begin, end, lengths[0]) ==>
      begin + lengths[0] <= |s|
      && (ParseAllAt(s, begin, end, lengths) == OverrunAll <==>
          ParseAllAt(s, begin + lengths[0], end, lengths[1..]) == OverrunAll)
  {
    hide ParseAt;
  }

  lemma {:induction false} MembersLeave(s: seq<byte>, begin: nat, end: nat, lengths: seq<nat>)
    requires begin <= |s| && end <= |s|
    ensures ParseAllAt(s, begin, end, lengths) == OverrunAll <==> SomeLeaves(s, begin, end, lengths)
    decreases |lengths|
  {
    if lengths == [] || begin >= end {
      NoneLeave(s, begin, end, lengths);
    } else {
      hide IsRead, Escapes, ParseAllAt;
      FirstMember(s, begin, end, lengths);
      if Escapes(s, begin, end, lengths[0]) {
        assert LeavesBuffer(s, begin, end, lengths, 0);
      } else {
        MembersLeave(s, begin + lengths[0], end, lengths[1..]);
        SomeLeave(s, begin, end, lengths);
      }
    }
  }

  lemma SomeLeave(s: seq<byte>, begin: nat, end: nat, lengths: seq<nat>)
    requires lengths != [] && IsRead(s, begin, end, lengths[0]) && !Escapes(s, begin, end, lengths[0])
    ensures SomeLeaves(s, begin, end, lengths) <==> SomeLeaves(s, begin + lengths[0], end, lengths[1..])
  {
    hide IsRead, Escapes, LeavesBuffer;
    var next, rest := begin + lengths[0], lengths[1..];
    if i: nat :| LeavesBuffer(s, begin, end, lengths, i) {
      assert i >= 1 by {
        NotFirst(s, begin, end, lengths, i);
      }
      LeavesEarlier(s, begin, end, lengths, i);
    }
    if i: nat :| LeavesBuffer(s, next, end, rest, i) {
      LeavesLater(s, begin, end, lengths, i);
    }
  }

  lemma NotFirst(s: seq<byte>, begin: nat, end: nat, lengths: seq<nat>, i: nat)
    requires lengths != [] && !Escapes(s, begin, end, lengths[0]) && LeavesBuffer(s, begin, end, lengths, i)
    ensures i >= 1
  {
    hide Escapes;
  }

  lemma NoneLeave(s: seq<byte>, begin: nat, end: nat, lengths: seq<nat>)
    requires lengths == [] || begin >= end
    ensures !SomeLeaves(s, begin, end, lengths)
  {
    forall i: nat
      ensures !LeavesBuffer(s, begin, end, lengths, i)
    {
      if i < |lengths| && begin >= end {
        assert !IsRead(s, begin + Offset(lengths, 0), end, lengths[0]);
        assert !Escapes(s, begin + Offset(lengths, 0), end, lengths[0]);
      }
    }
  }

  /** The lengths a packet at begin declares for its members. */
  function Declared(s: seq<byte>, begin: nat, count: nat): seq<nat>
    requires begin + 3 + 2 * count <= |s|
  {
    seq(count, i requires 0 <= i < count => Pair(s, begin + 3 + 2 * i))
  }

  lemma {:induction false} LengthsAre(t: seq<byte>)
    requires |t| % 2 == 0
    ensures |Lengths(t)| == |t| / 2 && forall i :: 0 <= i < |t| / 2 ==> Lengths(t)[i] == Pair(t, 2 * i)
  {
    if t != [] {
      LengthsAre(t[2..]);
      PairOf(t, 0);
      forall i | 1 <= i < |t| / 2
        ensures Lengths(t)[i] == Pair(t, 2 * i)
      {
        assert Lengths(t)[i] == Lengths(t[2..])[i - 1] == Pair(t[2..], 2 * (i - 1));
      }
    }
  }

  lemma DeclaredLengths(s: seq<byte>, begin: nat, count: nat)
    requires begin + 3 + 2 * count <= |s|
    ensures Lengths(s[begin + 3..begin + 3 + 2 * count]) == Declared(s, begin, count)
  {
    var t := s[begin + 3..begin + 3 + 2 * count];
    LengthsAre(t);
    forall i | 0 <= i < count
      ensures Lengths(t)[i] == Declared(s, begin, count)[i]
    {
    }
  }

  /** Where a node finds a packet: exactly where 3 is followed by a count, that many lengths, and members
      that stand, one after the other, as the lengths say. What follows the last member is ignored. */
  lemma PacketAt(s: seq<byte>, begin: nat, end: nat, ms: seq<Wire>)
    requires begin < end <= |s|
    ensures ParseAt(s, begin, end) == Parsed(Packet(ms)) <==>
      && s[begin] == 3 && begin + 3 <= end
      && var count := Pair(s, begin + 1);
        && begin + 3 + 2 * count <= end
        && Stand(s, begin + 3 + 2 * count, end, Declared(s, begin, count), ms)
  {
    hide Word, Stand, ParseAllAt, Lengths;
    if s[begin] == 3 && begin + 3 <= end {
      PairOf(s, begin + 1);
      var count := Pair(s, begin + 1);
      if begin + 3 + 2 * count <= end {
        DeclaredLengths(s, begin, count);
        MembersAt(s, begin + 3 + 2 * count, end, Declared(s, begin, count), ms);
      }
    }
  }

  /** When reading leaves the buffer: exactly in a packet with a whole length table one of whose members, all
      before it being read, leaves the buffer or holds one that does. */
  lemma OverrunAt(s: seq<byte>, begin: nat, end: nat)
    requires begin <= end <= |s|
    ensures ParseAt(s, begin, end) == Overrun <==>
      && begin + 3 <= end && s[begin] == 3
      && var count := Pair(s, begin + 1);
        && begin + 3 + 2 * count <= end
        && SomeLeaves(s, begin + 3 + 2 * count, end, Declared(s, begin, count))
  {
    hide Word, SomeLeaves, ParseAllAt, Lengths;
    if begin + 3 <= end && s[begin] == 3 {
      PairOf(s, begin + 1);
      var count := Pair(s, begin + 1);
      if begin + 3 + 2 * count <= end {
        DeclaredLengths(s, begin, count);
        MembersLeave(s, begin + 3 + 2 * count, end, Declared(s, begin, count));
      }
    }
  }
}
