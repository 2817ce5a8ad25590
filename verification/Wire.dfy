/** The wire format: messages with a fixed header, and packets of messages with a table of 16-bit
    lengths, nested to any depth. Integers are little-endian. */
module Wire {
  import opened SessionStep
  import opened Thresholds

  newtype word = x: int | 0 <= x < WORD

  /** A parsed object. Null stands for the null pointer the parser leaves for a rejected member. */
  datatype Wire =
    | Null
    | Leaf(kind: Kind, chain: word, client: word, nonce: word, node: word, data: Data)
    | Packet(members: seq<Wire>)

  const HEADER := 33
  const LENGTHS := 0x1_0000

  function KindByte(kind: Kind): byte {
    match kind case Send => 0 case Echo => 1 case Ready => 2
  }

  const PACKET: byte := 3

  /** The low k bytes of v, lowest first: an integer written to k bytes is truncated to them. */
  function Le(v: nat, k: nat): (s: seq<byte>)
    ensures |s| == k
  {
    if k == 0 then [] else [(v % 256) as byte] + Le(v / 256, k - 1)
  }

  function UnLe(s: seq<byte>): nat {
    if s == [] then 0 else s[0] as nat + 256 * UnLe(s[1..])
  }

  function Power(k: nat): nat {
    if k == 0 then 1 else 256 * Power(k - 1)
  }

  lemma {:induction false} LeRoundTrip(v: nat, k: nat)
    requires v < Power(k)
    ensures UnLe(Le(v, k)) == v
  {
    if k > 0 {
      LeRoundTrip(v / 256, k - 1);
      assert Le(v, k)[1..] == Le(v / 256, k - 1);
    }
  }

  lemma Times(a: nat, b: nat, d: nat)
    requires a <= b
    ensures d * a <= d * b
  {
    assert d * (b - a) >= 0;
  }

  lemma Quotient(v: nat, d: nat, q: nat)
    requires d > 0 && d * q <= v < d * q + d
    ensures v / d == q
  {
    var r := v / d;
    assert d * r <= v < d * r + d;
    assert d * (r + 1) == d * r + d && d * (q + 1) == d * q + d;
    if r < q {
      Times(r + 1, q, d);
    } else if r > q {
      Times(q + 1, r, d);
    }
  }

  lemma DivideTwice(v: nat, p: nat)
    requires p > 0
    ensures v / (256 * p) == v / 256 / p
  {
    var u := v / 256;
    var q := u / p;
    var x := p * q;
    assert x <= u < x + p;
    assert 256 * p * q == 256 * x;
    Quotient(v, 256 * p, q);
  }

  lemma {:induction false} PowerPositive(k: nat)
    ensures Power(k) > 0
  {
    if k > 0 {
      PowerPositive(k - 1);
    }
  }

  /** The bytes of an integer are its base-256 digits, lowest first. */
  lemma {:induction false} LeDigit(v: nat, k: nat, i: nat)
    requires i < k
    ensures Power(i) > 0 && Le(v, k)[i] as nat == v / Power(i) % 256
  {
    PowerPositive(i);
    if i > 0 {
      LeDigit(v / 256, k - 1, i - 1);
      DivideTwice(v, Power(i - 1));
    }
  }

  /** Two bytes hold a number modulo 65536. */
  lemma LeTruncates(v: nat)
    ensures UnLe(Le(v, 2)) == v % LENGTHS
  {
    var r := v % LENGTHS;
    assert v == LENGTHS * (v / LENGTHS) + r;
    assert v % 256 == r % 256 && v / 256 % 256 == r / 256;
    assert Le(v, 2)[1..] == Le(v / 256, 1);
    assert Le(v / 256, 1)[1..] == [];
    assert UnLe(Le(v / 256, 1)) == v / 256 % 256;
  }

  lemma {:induction false} UnLeRoundTrip(s: seq<byte>)
    ensures Le(UnLe(s), |s|) == s
  {
    if s != [] {
      UnLeRoundTrip(s[1..]);
      var v := UnLe(s);
      assert v % 256 == s[0] as nat && v / 256 == UnLe(s[1..]);
      assert s == [s[0]] + s[1..];
    }
  }

  lemma {:induction false} UnLeBound(s: seq<byte>)
    ensures UnLe(s) < Power(|s|)
  {
    if s != [] {
      UnLeBound(s[1..]);
    }
  }

  lemma Powers()
    ensures Power(2) == LENGTHS && Power(8) == WORD
  {
    assert Power(4) == 0x1_0000_0000;
  }

  /** getEncodedSize. */
  function Size(w: Wire): nat {
    match w
    case Null => 0
    case Leaf(_, _, _, _, _, data) => HEADER + |data|
    case Packet(members) => 1 + 2 * (|members| + 1) + SizeAll(members)
  }

  function SizeAll(members: seq<Wire>): nat {
    if members == [] then 0 else Size(members[0]) + SizeAll(members[1..])
  }

  predicate NoNull(w: Wire) {
    match w
    case Null => false
    case Leaf(_, _, _, _, _, _) => true
    case Packet(members) => forall i :: 0 <= i < |members| ==> NoNull(members[i])
  }

  function Table(members: seq<Wire>): seq<byte> {
    if members == [] then [] else Le(Size(members[0]), 2) + Table(members[1..])
  }

  function BytesAll(members: seq<Wire>): seq<byte> {
    if members == [] then [] else Bytes(members[0]) + BytesAll(members[1..])
  }

  /** The encoding of an object; counts and lengths are cut to 16 bits. */
  function Bytes(w: Wire): seq<byte> {
    match w
    case Null => []
    case Leaf(kind, chain, client, nonce, node, data) =>
      [KindByte(kind)] + Le(chain as nat, 8) + Le(client as nat, 8) + Le(nonce as nat, 8) + Le(node as nat, 8) + data
    case Packet(members) =>
      [PACKET] + Le(|members|, 2) + Table(members) + BytesAll(members)
  }

  lemma {:induction false} SizeIsLength(w: Wire)
    ensures |Bytes(w)| == Size(w)
    decreases w, 1
  {
    match w
    case Packet(members) =>
      SizesAreLengths(members);
      TableLength(members);
    case _ =>
  }

  lemma {:induction false} SizesAreLengths(members: seq<Wire>)
    ensures |BytesAll(members)| == SizeAll(members)
    decreases members, 0
  {
    if members != [] {
      SizeIsLength(members[0]);
      SizesAreLengths(members[1..]);
    }
  }

  lemma {:induction false} TableLength(members: seq<Wire>)
    ensures |Table(members)| == 2 * |members|
  {
    if members != [] {
      TableLength(members[1..]);
    }
  }

  /** Overrun: a member's declared length runs past what there is to read. */
  datatype Result = Parsed(w: Wire) | Overrun

  datatype Results = ParsedAll(members: seq<Wire>) | Rejected | OverrunAll

  function Lengths(table: seq<byte>): seq<nat> {
    if |table| < 2 then [] else [UnLe(table[..2])] + Lengths(table[2..])
  }

  function Word(s: seq<byte>): word
    requires |s| == 8
  {
    UnLeBound(s);
    Powers();
    UnLe(s) as word
  }

  /** The parser: type byte, then a message, a packet, or rejection. */
  function Parse(s: seq<byte>): Result
    decreases |s|, 1
  {
    if |s| < 1 then Parsed(Null)
    else if s[0] <= 2 then
      Parsed(if |s| < HEADER then Null
        else Leaf(if s[0] == 0 then Send else if s[0] == 1 then Echo else Ready,
                  Word(s[1..9]), Word(s[9..17]), Word(s[17..25]), Word(s[25..33]), s[33..]))
    else if s[0] == PACKET then
      if |s| < 3 then Parsed(Null)
      else
        var count := UnLe(s[1..3]);
        if |s| < 3 + 2 * count then Parsed(Null)
        else
          match ParseAll(s[3 + 2 * count..], Lengths(s[3..3 + 2 * count]))
          case ParsedAll(members) => Parsed(Packet(members))
          case Rejected => Parsed(Null)
          case OverrunAll => Overrun
    else Parsed(Null)
  }

  function ParseAll(s: seq<byte>, lengths: seq<nat>): Results
    decreases |s|, 2, lengths
  {
    if lengths == [] then ParsedAll([])
    else if s == [] then Rejected
    else if lengths[0] > |s| then OverrunAll
    else
      match Parse(s[..lengths[0]])
      case Overrun => OverrunAll
      case Parsed(w) =>
        match ParseAll(s[lengths[0]..], lengths[1..])
        case ParsedAll(rest) => ParsedAll([w] + rest)
        case r => r
  }

  /** The parser on the range [begin, end) of a buffer, as the code runs it: a member's declared length is
      held against neither the range nor the buffer, so a member may reach past its packet. Overrun is left
      for lengths that leave the buffer itself, where the behaviour of the original is not defined. */
  function ParseAt(s: seq<byte>, begin: nat, end: nat): Result
    requires begin <= end <= |s|
    decreases |s| - begin, 1
  {
    if end - begin < 1 then Parsed(Null)
    else if s[begin] <= 2 then
      Parsed(if begin + HEADER > end then Null
        else Leaf(if s[begin] == 0 then Send else if s[begin] == 1 then Echo else Ready,
                  Word(s[begin + 1..begin + 9]), Word(s[begin + 9..begin + 17]),
                  Word(s[begin + 17..begin + 25]), Word(s[begin + 25..begin + 33]), s[begin + 33..end]))
    else if s[begin] == PACKET then
      if begin + 3 > end then Parsed(Null)
      else
        var count := UnLe(s[begin + 1..begin + 3]);
        if begin + 3 + 2 * count > end then Parsed(Null)
        else
          match ParseAllAt(s, begin + 3 + 2 * count, end, Lengths(s[begin + 3..begin + 3 + 2 * count]))
          case ParsedAll(members) => Parsed(Packet(members))
          case Rejected => Parsed(Null)
          case OverrunAll => Overrun
    else Parsed(Null)
  }

  function ParseAllAt(s: seq<byte>, begin: nat, end: nat, lengths: seq<nat>): Results
    requires begin <= |s| && end <= |s|
    decreases |s| - begin, 2, lengths
  {
    if lengths == [] then ParsedAll([])
    else if begin >= end then Rejected
    else if begin + lengths[0] > |s| then OverrunAll
    else
      match ParseAt(s, begin, begin + lengths[0])
      case Overrun => OverrunAll
      case Parsed(w) =>
        match ParseAllAt(s, begin + lengths[0], end, lengths[1..])
        case ParsedAll(rest) => ParsedAll([w] + rest)
        case r => r
  }

  lemma RangeOfRange(s: seq<byte>, begin: nat, end: nat, i: nat, j: nat)
    requires begin <= end <= |s| && i <= j <= end - begin
    ensures s[begin..end][i..j] == s[begin + i..begin + j]
  {
    var r, t := s[begin..end][i..j], s[begin + i..begin + j];
    forall k | 0 <= k < j - i
      ensures r[k] == t[k]
    {
      assert r[k] == s[begin..end][i + k] == s[begin + i + k];
    }
  }

  lemma LeafAt(s: seq<byte>, begin: nat, end: nat)
    requires begin < end <= |s| && s[begin] <= 2
    ensures ParseAt(s, begin, end) == Parse(s[begin..end])
  {
    hide Word;
    if begin + HEADER <= end {
      RangeOfRange(s, begin, end, 1, 9);
      RangeOfRange(s, begin, end, 9, 17);
      RangeOfRange(s, begin, end, 17, 25);
      RangeOfRange(s, begin, end, 25, 33);
      RangeOfRange(s, begin, end, 33, end - begin);
    }
  }

  /** When every declared length stays inside its packet, nothing outside the range is read. */
  lemma {:induction false} ParseInside(s: seq<byte>, begin: nat, end: nat)
    requires begin <= end <= |s| && Parse(s[begin..end]).Parsed?
    ensures ParseAt(s, begin, end) == Parse(s[begin..end])
    decreases |s| - begin, 1
  {
    hide Word, UnLe, Lengths;
    if begin < end && s[begin] <= 2 {
      LeafAt(s, begin, end);
    } else if begin + 3 <= end && s[begin] == PACKET {
      RangeOfRange(s, begin, end, 1, 3);
      var count := UnLe(s[begin + 1..begin + 3]);
      if begin + 3 + 2 * count <= end {
        RangeOfRange(s, begin, end, 3, 3 + 2 * count);
        RangeOfRange(s, begin, end, 3 + 2 * count, end - begin);
        MembersInside(s, begin + 3 + 2 * count, end, Lengths(s[begin + 3..begin + 3 + 2 * count]));
      }
    }
  }

  lemma {:induction false} MembersInside(s: seq<byte>, begin: nat, end: nat, lengths: seq<nat>)
    requires begin <= end <= |s| && ParseAll(s[begin..end], lengths) != OverrunAll
    ensures ParseAllAt(s, begin, end, lengths) == ParseAll(s[begin..end], lengths)
    decreases |s| - begin, 2, lengths
  {
    hide Parse, ParseAt;
    if lengths != [] && begin < end {
      var next := begin + lengths[0];
      RangeOfRange(s, begin, end, 0, lengths[0]);
      RangeOfRange(s, begin, end, lengths[0], end - begin);
      ParseInside(s, begin, next);
      MembersInside(s, next, end, lengths[1..]);
    }
  }
}
