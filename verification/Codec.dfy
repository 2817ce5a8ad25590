/** The codec as the code runs it: cursors moving through a buffer, in loops. */
module Codec {
  import opened SessionStep
  import opened Wire

  /** base with s written over it from position at. */
  function Overlay(base: seq<byte>, at: nat, s: seq<byte>): seq<byte>
    requires at + |s| <= |base|
  {
    base[..at] + s + base[at + |s|..]
  }

  lemma OverlayOn(base: seq<byte>, at: nat, s: seq<byte>, t: seq<byte>)
    requires at + |s| + |t| <= |base|
    ensures Overlay(Overlay(base, at, s), at + |s|, t) == Overlay(base, at, s + t)
  {
  }

  method Put(buf: array<byte>, at: nat, b: byte)
    requires at < buf.Length
    modifies buf
    ensures buf[..] == Overlay(old(buf[..]), at, [b])
  {
    buf[at] := b;
  }

  method Copy(data: Data, buf: array<byte>, at: nat)
    requires at + |data| <= buf.Length
    modifies buf
    ensures buf[..] == Overlay(old(buf[..]), at, data)
  {
    forall k | 0 <= k < |data| {
      buf[at + k] := data[k];
    }
    assert buf[..] == old(buf[..])[..at] + data + old(buf[..])[at + |data|..];
  }

  lemma OverlayNothing(base: seq<byte>, at: nat)
    requires at <= |base|
    ensures Overlay(base, at, []) == base
  {
  }

  /** write<T>: the bytes of an integer are copied at the cursor, which advances past them. */
  method Write(buf: array<byte>, begin: nat, v: nat, k: nat) returns (next: nat)
    requires begin + k <= buf.Length
    modifies buf
    ensures next == begin + k
    ensures buf[..] == Overlay(old(buf[..]), begin, Le(v, k))
  {
    hide Overlay;
    var rest := v;
    ghost var done: seq<byte> := [];
    next := begin;
    OverlayNothing(buf[..], begin);
    for i := 0 to k
      invariant next == begin + i && |done| == i
      invariant Le(v, k) == done + Le(rest, k - i)
      invariant buf[..] == Overlay(old(buf[..]), begin, done)
    {
      var low := (rest % 256) as byte;
      OverlayOn(old(buf[..]), begin, done, [low]);
      Put(buf, next, low);
      assert done + Le(rest, k - i) == done + [low] + Le(rest / 256, k - i - 1);
      done := done + [low];
      rest, next := rest / 256, next + 1;
    }
    assert done + [] == done;
  }

  /** parse<T>: the bytes at the offset are copied into an integer, and the offset advances. */
  method Read(s: seq<byte>, offset: nat, k: nat) returns (v: nat, next: nat)
    requires offset + k <= |s|
    ensures v == UnLe(s[offset..offset + k]) && next == offset + k
  {
    v, next := 0, offset + k;
    for i := k downto 0
      invariant v == UnLe(s[offset + i..offset + k])
    {
      assert s[offset + i..offset + k] == [s[offset + i]] + s[offset + i + 1..offset + k];
      v := s[offset + i] as nat + 256 * v;
    }
  }

  /** getEncodedSize. */
  method GetEncodedSize(w: Wire) returns (size: nat)
    requires NoNull(w)
    ensures size == Size(w) == |Bytes(w)|
  {
    SizeIsLength(w);
    match w
    case Leaf(_, _, _, _, _, data) => size := HEADER + |data|;
    case Packet(members) =>
      size := 2 * (|members| + 1);
      for i := 0 to |members|
        invariant size + SizeAll(members[i..]) == 2 * (|members| + 1) + SizeAll(members)
      {
        assert members[i..][1..] == members[i + 1..];
        var part := GetEncodedSize(members[i]);
        size := size + part;
      }
      size := 1 + size;
  }

  lemma {:induction false} TableLast(members: seq<Wire>, i: nat)
    requires i < |members|
    ensures Table(members[..i + 1]) == Table(members[..i]) + Le(Size(members[i]), 2)
  {
    if i > 0 {
      TableLast(members[1..], i - 1);
      assert members[..i + 1][1..] == members[1..][..i];
      assert members[..i][1..] == members[1..][..i - 1];
    }
  }

  lemma {:induction false} BytesLast(members: seq<Wire>, i: nat)
    requires i < |members|
    ensures BytesAll(members[..i + 1]) == BytesAll(members[..i]) + Bytes(members[i])
  {
    if i > 0 {
      BytesLast(members[1..], i - 1);
      assert members[..i + 1][1..] == members[1..][..i];
      assert members[..i][1..] == members[1..][..i - 1];
    }
  }

  /** The leading part of an encoding is no longer than the whole. */
  lemma {:induction false} PrefixSize(members: seq<Wire>, i: nat)
    requires i <= |members|
    ensures |BytesAll(members[..i])| + SizeAll(members[i..]) == SizeAll(members)
  {
    if i > 0 {
      PrefixSize(members[1..], i - 1);
      assert members[..i][1..] == members[1..][..i - 1];
      SizeIsLength(members[0]);
    }
  }

  function TypeByte(w: Wire): byte
    requires w != Null
  {
    match w case Leaf(kind, _, _, _, _, _) => KindByte(kind) case Packet(_) => PACKET
  }

  lemma TypeByteFirst(w: Wire)
    requires w != Null
    ensures Size(w) == |Bytes(w)| && Size(w) >= 1 && [TypeByte(w)] + Bytes(w)[1..] == Bytes(w)
  {
    SizeIsLength(w);
    hide Le, Table, BytesAll;
    assert Bytes(w)[0] == TypeByte(w);
  }

  /** encode(begin, end): nothing is written when the range is too small. */
  method Encode(w: Wire, buf: array<byte>, begin: nat, end: nat) returns (ok: bool)
    requires NoNull(w) && begin <= end <= buf.Length
    modifies buf
    ensures ok <==> begin + Size(w) <= end
    ensures ok ==> |Bytes(w)| == Size(w) && buf[..] == Overlay(old(buf[..]), begin, Bytes(w))
    ensures !ok ==> buf[..] == old(buf[..])
    decreases w, 1
  {
    hide Overlay, Bytes, Size;
    TypeByteFirst(w);
    var size := GetEncodedSize(w);
    if begin + size > end {
      return false;
    }
    ghost var base, child := buf[..], Bytes(w)[1..];
    Put(buf, begin, TypeByte(w));
    if w.Leaf? {
      EncodeMessage(w, buf, begin + 1);
    } else {
      EncodePacket(w, buf, begin + 1);
    }
    OverlayOn(base, begin, [TypeByte(w)], child);
    ok := true;
  }

  /** The four integers of the header, one after the other. */
  method WriteHeader(w: Wire, buf: array<byte>, begin: nat) returns (next: nat)
    requires w.Leaf? && begin + 32 <= buf.Length
    modifies buf
    ensures next == begin + 32
    ensures buf[..] == Overlay(old(buf[..]), begin,
      Le(w.chain as nat, 8) + Le(w.client as nat, 8) + Le(w.nonce as nat, 8) + Le(w.node as nat, 8))
  {
    hide Overlay, Le;
    ghost var base := buf[..];
    ghost var c, l, n, i := Le(w.chain as nat, 8), Le(w.client as nat, 8), Le(w.nonce as nat, 8), Le(w.node as nat, 8);
    next := Write(buf, begin, w.chain as nat, 8);
    next := Write(buf, next, w.client as nat, 8);
    OverlayOn(base, begin, c, l);
    next := Write(buf, next, w.nonce as nat, 8);
    OverlayOn(base, begin, c + l, n);
    next := Write(buf, next, w.node as nat, 8);
    OverlayOn(base, begin, c + l + n, i);
  }

  /** Message::encodeChild. */
  method EncodeMessage(w: Wire, buf: array<byte>, begin: nat)
    requires w.Leaf? && begin + Size(w) - 1 <= buf.Length
    modifies buf
    ensures |Bytes(w)| == Size(w) && buf[..] == Overlay(old(buf[..]), begin, Bytes(w)[1..])
    decreases w, 0
  {
    hide Overlay, Le;
    ghost var base := buf[..];
    ghost var header := Le(w.chain as nat, 8) + Le(w.client as nat, 8) + Le(w.nonce as nat, 8) + Le(w.node as nat, 8);
    var next := WriteHeader(w, buf, begin);
    Copy(w.data, buf, next);
    OverlayOn(base, begin, header, w.data);
    assert Bytes(w)[1..] == header + w.data;
  }

  /** PacketMessage::encodeChild: the count, the table of lengths, the members. */
  method EncodePacket(w: Wire, buf: array<byte>, begin: nat)
    requires w.Packet? && NoNull(w) && begin + Size(w) - 1 <= buf.Length
    modifies buf
    ensures |Bytes(w)| == Size(w) && buf[..] == Overlay(old(buf[..]), begin, Bytes(w)[1..])
    decreases w, 0
  {
    hide Overlay, Le, Table, BytesAll;
    var members := w.members;
    ghost var base := buf[..];
    SizeIsLength(w);
    TableLength(members);
    SizesAreLengths(members);
    ghost var head := Le(|members|, 2);
    var next := Write(buf, begin, |members|, 2);
    next := EncodeTable(members, buf, next);
    OverlayOn(base, begin, head, Table(members));
    EncodeMembers(members, buf, next);
    OverlayOn(base, begin, head + Table(members), BytesAll(members));
    assert Bytes(w)[1..] == head + Table(members) + BytesAll(members);
  }

  method EncodeTable(members: seq<Wire>, buf: array<byte>, begin: nat) returns (next: nat)
    requires (forall i :: 0 <= i < |members| ==> NoNull(members[i])) && begin + 2 * |members| <= buf.Length
    modifies buf
    ensures |Table(members)| == 2 * |members| && next == begin + 2 * |members|
    ensures buf[..] == Overlay(old(buf[..]), begin, Table(members))
    decreases members, 0
  {
    TableLength(members);
    next := begin;
    for i := 0 to |members|
      invariant next == begin + 2 * i && |Table(members[..i])| == 2 * i
      invariant buf[..] == Overlay(old(buf[..]), begin, Table(members[..i]))
    {
      TableLast(members, i);
      OverlayOn(old(buf[..]), begin, Table(members[..i]), Le(Size(members[i]), 2));
      var length := GetEncodedSize(members[i]);
      next := Write(buf, next, length, 2);
    }
    assert members[..|members|] == members;
  }

  method EncodeMembers(members: seq<Wire>, buf: array<byte>, begin: nat)
    requires (forall i :: 0 <= i < |members| ==> NoNull(members[i])) && begin + SizeAll(members) <= buf.Length
    modifies buf
    ensures |BytesAll(members)| == SizeAll(members) && buf[..] == Overlay(old(buf[..]), begin, BytesAll(members))
    decreases members, 0
  {
    SizesAreLengths(members);
    var next := begin;
    PrefixSize(members, 0);
    for i := 0 to |members|
      invariant next == begin + |BytesAll(members[..i])| && next + SizeAll(members[i..]) == begin + SizeAll(members)
      invariant buf[..] == Overlay(old(buf[..]), begin, BytesAll(members[..i]))
    {
      PrefixSize(members, i + 1);
      BytesLast(members, i);
      SizeIsLength(members[i]);
      OverlayOn(old(buf[..]), begin, BytesAll(members[..i]), Bytes(members[i]));
      var length := GetEncodedSize(members[i]);
      var ok := Encode(members[i], buf, next, next + length);
      next := next + length;
    }
    assert members[..|members|] == members;
  }

  /** encode(): a buffer of exactly the encoded size, filled with the encoding. */
  method EncodeNew(w: Wire) returns (buf: array<byte>)
    requires NoNull(w)
    ensures fresh(buf) && buf.Length == Size(w) && buf[..] == Bytes(w)
  {
    hide Bytes, Size;
    SizeIsLength(w);
    var size := GetEncodedSize(w);
    buf := new byte[size];
    var ok := Encode(w, buf, 0, size);
  }

  /** What the members parsed so far make of the result of the rest. */
  function Resume(done: seq<Wire>, r: Results): Results {
    match r case ParsedAll(ms) => ParsedAll(done + ms) case other => other
  }

  lemma LengthsLast(table: seq<byte>, i: nat)
    requires 2 * (i + 1) <= |table|
    ensures Lengths(table[..2 * (i + 1)]) == Lengths(table[..2 * i]) + [UnLe(table[2 * i..2 * (i + 1)])]
  {
    if i > 0 {
      LengthsLast(table[2..], i - 1);
      assert table[..2 * (i + 1)][2..] == table[2..][..2 * i];
      assert table[..2 * i][2..] == table[2..][..2 * (i - 1)];
      assert table[..2 * (i + 1)][..2] == table[..2 * i][..2];
      assert table[2..][2 * (i - 1)..2 * i] == table[2 * i..2 * (i + 1)];
    } else {
      assert table[..2][..2] == table[..2];
      assert table[..2][2..] == [];
    }
  }

  /** AbstractMessage::parse on the range [begin, end) of a buffer. */
  method ParseRange(s: seq<byte>, begin: nat, end: nat) returns (r: Result)
    requires begin <= end <= |s|
    ensures r == ParseAt(s, begin, end)
    ensures Parse(s[begin..end]).Parsed? ==> r == Parse(s[begin..end])
    decreases |s| - begin, 1
  {
    if Parse(s[begin..end]).Parsed? {
      ParseInside(s, begin, end);
    }
    hide Parse;
    if end - begin < 1 {
      return Parsed(Null);
    }
    var buffer := s[begin];
    if buffer <= 2 {
      r := ParseMessage(s, begin, end);
    } else if buffer == PACKET {
      r := ParsePacketRange(s, begin, end);
    } else {
      r := Parsed(Null);
    }
  }

  method ReadWord(s: seq<byte>, offset: nat) returns (v: word, next: nat)
    requires offset + 8 <= |s|
    ensures v == Word(s[offset..offset + 8]) && next == offset + 8
  {
    UnLeBound(s[offset..offset + 8]);
    Powers();
    var u: nat;
    u, next := Read(s, offset, 8);
    v := u as word;
  }

  method ParseMessage(s: seq<byte>, begin: nat, end: nat) returns (r: Result)
    requires begin < end <= |s| && s[begin] <= 2
    ensures r == ParseAt(s, begin, end)
    decreases |s| - begin, 0
  {
    hide Word;
    if begin + HEADER > end {
      return Parsed(Null);
    }
    var chain, client, nonce, node;
    var offset := begin + 1;
    chain, offset := ReadWord(s, offset);
    client, offset := ReadWord(s, offset);
    nonce, offset := ReadWord(s, offset);
    node, offset := ReadWord(s, offset);
    var kind := if s[begin] == 0 then Send else if s[begin] == 1 then Echo else Ready;
    r := Parsed(Leaf(kind, chain, client, nonce, node, s[offset..end]));
  }

  /** The packet constructor: the count, the length table, then the members, each parsed in its range. */
  method ParsePacketRange(s: seq<byte>, begin: nat, end: nat) returns (r: Result)
    requires begin < end <= |s| && s[begin] == PACKET
    ensures r == ParseAt(s, begin, end)
    decreases |s| - begin, 0
  {
    hide ParseAllAt, UnLe;
    if begin + 3 > end {
      return Parsed(Null);
    }
    var count, offset := Read(s, begin + 1, 2);
    if begin + 3 + 2 * count > end {
      return Parsed(Null);
    }
    var lengths := ReadTable(s, offset, count);
    var members := ParseMembers(s, offset + 2 * count, end, lengths);
    r := match members
      case ParsedAll(ms) => Parsed(Packet(ms))
      case Rejected => Parsed(Null)
      case OverrunAll => Overrun;
  }

  method ReadTable(s: seq<byte>, begin: nat, count: nat) returns (lengths: seq<nat>)
    requires begin + 2 * count <= |s|
    ensures lengths == Lengths(s[begin..begin + 2 * count])
  {
    ghost var table := s[begin..begin + 2 * count];
    lengths := [];
    var offset := begin;
    for i := 0 to count
      invariant offset == begin + 2 * i
      invariant lengths == Lengths(table[..2 * i])
    {
      LengthsLast(table, i);
      RangeOfRange(s, begin, begin + 2 * count, 2 * i, 2 * (i + 1));
      var length;
      length, offset := Read(s, offset, 2);
      lengths := lengths + [length];
    }
    assert table[..2 * count] == table;
  }

  method ParseMembers(s: seq<byte>, start: nat, end: nat, lengths: seq<nat>) returns (r: Results)
    requires start <= end <= |s|
    ensures r == ParseAllAt(s, start, end, lengths)
    decreases |s| - start, 2
  {
    hide ParseAt;
    var begin, members := start, [];
    for i := 0 to |lengths|
      invariant start <= begin <= |s|
      invariant ParseAllAt(s, start, end, lengths) == Resume(members, ParseAllAt(s, begin, end, lengths[i..]))
    {
      if begin >= end {
        return Rejected;
      }
      var length := lengths[i];
      if begin + length > |s| {
        return OverrunAll;
      }
      var member := ParseRange(s, begin, begin + length);
      if member == Overrun {
        return OverrunAll;
      }
      assert lengths[i..][1..] == lengths[i + 1..];
      ghost var rest := ParseAllAt(s, begin + length, end, lengths[i + 1..]);
      assert rest.ParsedAll? ==> members + ([member.w] + rest.members) == members + [member.w] + rest.members;
      members, begin := members + [member.w], begin + length;
    }
    assert members + [] == members;
    r := ParsedAll(members);
  }
}
