/** Parsing undoes encoding, and exactly when it does. */
module RoundTrips {
  import opened SessionStep
  import opened Thresholds
  import opened Wire

  /** The objects the 16-bit count and lengths can describe, to any depth. */
  predicate Fits(w: Wire) {
    match w
    case Null => false
    case Leaf(_, _, _, _, _, _) => true
    case Packet(members) =>
      |members| < LENGTHS && forall i :: 0 <= i < |members| ==> Size(members[i]) < LENGTHS && Fits(members[i])
  }

  lemma LeafRoundTrip(w: Wire)
    requires w.Leaf?
    ensures Parse(Bytes(w)) == Parsed(w)
  {
    var b := Bytes(w);
    var c, l, n, i := Le(w.chain as nat, 8), Le(w.client as nat, 8), Le(w.nonce as nat, 8), Le(w.node as nat, 8);
    assert b == [KindByte(w.kind)] + c + l + n + i + w.data;
    assert b[1..9] == c && b[9..17] == l && b[17..25] == n && b[25..33] == i && b[33..] == w.data;
    Powers();
    LeRoundTrip(w.chain as nat, 8);
    LeRoundTrip(w.client as nat, 8);
    LeRoundTrip(w.nonce as nat, 8);
    LeRoundTrip(w.node as nat, 8);
  }

  lemma WordBytes(s: seq<byte>)
    requires |s| == 8
    ensures Le(Word(s) as nat, 8) == s
  {
    UnLeRoundTrip(s);
  }

  lemma HeaderParts(s: seq<byte>)
    requires |s| >= HEADER
    ensures s == [s[0]] + s[1..9] + s[9..17] + s[17..25] + s[25..33] + s[33..]
  {
  }

  /** Encoding a parsed message gives the buffer back, byte for byte. */
  lemma LeafBytes(s: seq<byte>)
    requires |s| >= HEADER && s[0] <= 2
    ensures Parse(s).Parsed? && Parse(s).w.Leaf? && Bytes(Parse(s).w) == s
  {
    hide Le, Word;
    WordBytes(s[1..9]);
    WordBytes(s[9..17]);
    WordBytes(s[17..25]);
    WordBytes(s[25..33]);
    HeaderParts(s);
    assert KindByte(Parse(s).w.kind) == s[0];
  }

  /** The member sizes as the length table holds them. */
  function CutSizes(members: seq<Wire>): seq<nat> {
    seq(|members|, i requires 0 <= i < |members| => Size(members[i]) % LENGTHS)
  }

  /** The length table, read back, holds the sizes cut to 16 bits. */
  lemma {:induction false} TableRoundTrip(members: seq<Wire>)
    ensures Lengths(Table(members)) == CutSizes(members)
  {
    if members != [] {
      var t := Table(members);
      TableRoundTrip(members[1..]);
      assert t[..2] == Le(Size(members[0]), 2) && t[2..] == Table(members[1..]);
      LeTruncates(Size(members[0]));
    }
  }

  lemma PacketSlices(members: seq<Wire>)
    ensures var b, k := Bytes(Packet(members)), |members|;
      && |b| == 3 + 2 * k + |BytesAll(members)| && b[0] == PACKET
      && b[1..3] == Le(k, 2) && b[3..3 + 2 * k] == Table(members) && b[3 + 2 * k..] == BytesAll(members)
  {
    hide Le, Table, BytesAll;
    TableLength(members);
  }

  function Assemble(r: Results): Result {
    match r case ParsedAll(ms) => Parsed(Packet(ms)) case Rejected => Parsed(Null) case OverrunAll => Overrun
  }

  lemma ParsePacket(s: seq<byte>, count: nat)
    requires |s| >= 3 + 2 * count && s[0] == PACKET && UnLe(s[1..3]) == count
    ensures Parse(s) == Assemble(ParseAll(s[3 + 2 * count..], Lengths(s[3..3 + 2 * count])))
  {
    hide UnLe, Lengths, ParseAll, Word;
  }

  lemma PacketParts(members: seq<Wire>)
    requires |members| < LENGTHS
    ensures Parse(Bytes(Packet(members))) == Assemble(ParseAll(BytesAll(members), CutSizes(members)))
  {
    hide Parse, ParseAll, Bytes, Le, UnLe, Lengths, Table, BytesAll;
    PacketSlices(members);
    LeTruncates(|members|);
    TableRoundTrip(members);
    ParsePacket(Bytes(Packet(members)), |members|);
  }

  lemma {:induction false} RoundTrip(w: Wire)
    requires Fits(w)
    ensures Parse(Bytes(w)) == Parsed(w)
    decreases w, 1
  {
    match w
    case Leaf(_, _, _, _, _, _) => LeafRoundTrip(w);
    case Packet(members) =>
      PacketParts(members);
      RoundTripAll(members);
  }

  lemma {:induction false} RoundTripAll(members: seq<Wire>)
    requires forall i :: 0 <= i < |members| ==> Size(members[i]) < LENGTHS && Fits(members[i])
    ensures ParseAll(BytesAll(members), CutSizes(members)) == ParsedAll(members)
    decreases members, 0
  {
    if members != [] {
      var b, w, rest := BytesAll(members), members[0], members[1..];
      var lengths := CutSizes(members);
      SizeIsLength(w);
      assert lengths[0] == Size(w);
      assert b[..Size(w)] == Bytes(w) && b[Size(w)..] == BytesAll(rest);
      RoundTrip(w);
      RoundTripAll(rest);
      assert lengths[1..] == CutSizes(rest);
      SizePositive(w);
      assert members == [w] + rest;
    }
  }

  lemma SizePositive(w: Wire)
    requires w != Null
    ensures Size(w) > 0
  {
  }

  /** Whatever the parser accepts without null members fits, and is no longer than the buffer. */
  lemma {:induction false} ParsedFits(s: seq<byte>)
    requires Parse(s).Parsed? && NoNull(Parse(s).w)
    ensures Fits(Parse(s).w) && Size(Parse(s).w) <= |s|
    decreases |s|, 1
  {
    if s[0] == PACKET {
      var count := UnLe(s[1..3]);
      UnLeBound(s[1..3]);
      Powers();
      var body, table := s[3 + 2 * count..], s[3..3 + 2 * count];
      LengthsBound(table);
      ParsedAllFits(body, Lengths(table));
    }
  }

  lemma {:induction false} LengthsBound(table: seq<byte>)
    ensures |Lengths(table)| == |table| / 2
    ensures forall i :: 0 <= i < |Lengths(table)| ==> Lengths(table)[i] < LENGTHS
  {
    if |table| >= 2 {
      UnLeBound(table[..2]);
      Powers();
      LengthsBound(table[2..]);
    }
  }

  lemma {:induction false} ParsedAllFits(s: seq<byte>, lengths: seq<nat>)
    requires ParseAll(s, lengths).ParsedAll?
    requires forall i :: 0 <= i < |lengths| ==> lengths[i] < LENGTHS
    requires forall i :: 0 <= i < |ParseAll(s, lengths).members| ==> NoNull(ParseAll(s, lengths).members[i])
    ensures var ms := ParseAll(s, lengths).members;
      && |ms| == |lengths| && SizeAll(ms) <= |s|
      && forall i :: 0 <= i < |ms| ==> Size(ms[i]) < LENGTHS && Fits(ms[i])
    decreases |s|, 2, lengths
  {
    if lengths != [] {
      var ms := ParseAll(s, lengths).members;
      assert NoNull(ms[0]);
      ParsedFits(s[..lengths[0]]);
      var rest := ParseAll(s[lengths[0]..], lengths[1..]).members;
      assert ms == [ms[0]] + rest;
      forall i | 0 <= i < |rest|
        ensures NoNull(rest[i])
      {
        assert rest[i] == ms[i + 1];
      }
      ParsedAllFits(s[lengths[0]..], lengths[1..]);
    }
  }

  /** Encoding and parsing an object without null members returns it exactly when it fits. */
  lemma RoundTripExactly(w: Wire)
    requires NoNull(w)
    ensures Parse(Bytes(w)) == Parsed(w) <==> Fits(w)
  {
    if Fits(w) {
      RoundTrip(w);
    } else if Parse(Bytes(w)) == Parsed(w) {
      ParsedFits(Bytes(w));
    }
  }

  /** The Python client's encoder, on unbounded integers: it raises, here None, on what 8 bytes cannot hold. */
  datatype Option<T> = None | Some(value: T)

  function ClientBytes(chain: int, client: int, nonce: int, kind: Kind, data: Data): Option<seq<byte>> {
    if 0 <= chain < WORD && 0 <= client < WORD && 0 <= nonce < WORD
    then Some([KindByte(kind)] + Le(chain, 8) + Le(client, 8) + Le(nonce, 8) + Le(0, 8) + data)
    else None
  }

  /** What the client sends, the node reads with the same fields and node id 0. */
  lemma ClientSpeaksTheFormat(chain: int, client: int, nonce: int, kind: Kind, data: Data)
    ensures var b := ClientBytes(chain, client, nonce, kind, data);
      b.Some? ==> Parse(b.value) == Parsed(Leaf(kind, chain as word, client as word, nonce as word, 0, data))
  {
    if ClientBytes(chain, client, nonce, kind, data).Some? {
      LeafRoundTrip(Leaf(kind, chain as word, client as word, nonce as word, 0, data));
    }
  }
}
