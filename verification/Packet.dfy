/** Bytes and big-endian 32-bit numbers. */
module Bytes {
  newtype byte = x: int | 0 <= x < 256

  const TWO32: nat := 0x1_0000_0000

  /** The `k` low bytes of `n`, most significant first; higher bytes are truncated away. */
  function BigEndian(n: nat, k: nat): (b: seq<byte>)
    ensures |b| == k
    decreases k
  {
    if k == 0 then [] else BigEndian(n / 256, k - 1) + [(n % 256) as byte]
  }

  function FromBigEndian(b: seq<byte>): nat {
    if b == [] then 0 else 256 * FromBigEndian(b[..|b| - 1]) + b[|b| - 1] as int
  }

  function Pow256(k: nat): (p: nat)
    ensures p > 0
  {
    if k == 0 then 1 else 256 * Pow256(k - 1)
  }

  lemma {:induction false} FromBigEndianBound(b: seq<byte>)
    ensures FromBigEndian(b) < Pow256(|b|)
  {
    if b != [] { FromBigEndianBound(b[..|b| - 1]); }
  }

  /** Reading back what was written gives the number, when it fits. */
  lemma {:induction false} BigEndianFits(n: nat, k: nat)
    requires n < Pow256(k)
    ensures FromBigEndian(BigEndian(n, k)) == n
    decreases k
  {
    if k > 0 {
      BigEndianFits(n / 256, k - 1);
      var b := BigEndian(n, k);
      assert b[..|b| - 1] == BigEndian(n / 256, k - 1);
    }
  }

  /** Writing back what was read gives the bytes. */
  lemma {:induction false} FromBigEndianFits(b: seq<byte>)
    ensures BigEndian(FromBigEndian(b), |b|) == b
  {
    if b != [] {
      FromBigEndianFits(b[..|b| - 1]);
      assert FromBigEndian(b) / 256 == FromBigEndian(b[..|b| - 1]);
    }
  }

  /** A 32-bit field: four bytes. */
  lemma Uint32Field(n: nat)
    ensures n < TWO32 ==> FromBigEndian(BigEndian(n, 4)) == n
    ensures FromBigEndian(BigEndian(n, 4)) < TWO32
  {
    assert Pow256(4) == TWO32 by { assert Pow256(2) == 0x1_0000; }
    FromBigEndianBound(BigEndian(n, 4));
    if n < TWO32 { BigEndianFits(n, 4); }
  }
}

/** The 12-byte packet header and its codes (protocol/packet.go). */
module Packet {
  import opened Text
  import opened Bytes

  const HEADER_SIZE: nat := 12

  /** An address as the codec sees it: its IPv4 form, or nothing. */
  datatype IP = V4(a: byte, b: byte, c: byte, d: byte) | NotV4

  /** The wire part of a packet; the routing key is local to the controller. */
  datatype Packet = Packet(ver: byte, proto: byte, appProto: byte, sourceTTL: byte, ttl: byte,
                           srcIP: IP, dstIP: IP, payload: seq<byte>)

  const V3: byte := 3
  const UNKNOWN: byte := 255

  function VersionFrom(v: byte): byte {
    if v == 2 || v == 3 then v else UNKNOWN
  }

  function ProtocolFrom(v: byte): byte {
    if 1 <= v <= 5 then v else UNKNOWN
  }

  function AppProtocolFrom(v: byte): byte {
    if 1 <= v <= 6 || 9 <= v <= 13 || 15 <= v <= 35 then v else UNKNOWN
  }

  function IPBytes(ip: IP): (b: seq<byte>)
    ensures |b| == 4
  {
    match ip
    case V4(a, b, c, d) => [a, b, c, d]
    case NotV4 => [0, 0, 0, 0]
  }

  function Nibbles(hi: byte, lo: byte): byte {
    ((hi as int % 16) * 16 + lo as int % 16) as byte
  }

  function Encode(p: Packet): (data: seq<byte>)
    ensures |data| == HEADER_SIZE + |p.payload|
  {
    Header(p) + p.payload
  }

  function Header(p: Packet): (h: seq<byte>)
    ensures |h| == HEADER_SIZE
  {
    var s, d := IPBytes(p.srcIP), IPBytes(p.dstIP);
    [V3, p.proto, p.appProto, Nibbles(p.sourceTTL, p.ttl), s[0], s[1], s[2], s[3], d[0], d[1], d[2], d[3]]
  }

  /** The header of `data` read back, or nothing when it is too short. */
  function Decode(data: seq<byte>): Option<Packet> {
    if |data| < HEADER_SIZE then None
    else Some(FromHeader(data[..HEADER_SIZE], data[HEADER_SIZE..]))
  }

  function FromHeader(h: seq<byte>, payload: seq<byte>): Packet
    requires |h| == HEADER_SIZE
  {
    Packet(VersionFrom((h[0] as int % 16) as byte), ProtocolFrom(h[1]), AppProtocolFrom(h[2]),
           (h[3] as int / 16) as byte, (h[3] as int % 16) as byte,
           V4(h[4], h[5], h[6], h[7]), V4(h[8], h[9], h[10], h[11]), payload)
  }

  /** What a packet must be to survive the wire: version 3, codes the receiver knows, four-bit
      hop counts and IPv4 addresses. */
  predicate Faithful(p: Packet) {
    && p.ver == V3
    && (1 <= p.proto <= 5 || p.proto == UNKNOWN)
    && (1 <= p.appProto <= 6 || 9 <= p.appProto <= 13 || 15 <= p.appProto <= 35 || p.appProto == UNKNOWN)
    && p.sourceTTL < 16 && p.ttl < 16
    && p.srcIP.V4? && p.dstIP.V4?
  }

  /** A packet comes back unchanged exactly when it is `Faithful`. */
  lemma PacketRoundTrip(p: Packet)
    ensures Decode(Encode(p)) == Some(p) <==> Faithful(p)
  {
    var data := Encode(p);
    assert data[..HEADER_SIZE] == Header(p) && data[HEADER_SIZE..] == p.payload;
    HeaderRoundTrip(p);
  }

  lemma HeaderRoundTrip(p: Packet)
    ensures FromHeader(Header(p), p.payload) == p <==> Faithful(p)
  {
    NibblesSplit(p.sourceTTL, p.ttl);
  }

  lemma NibblesSplit(hi: byte, lo: byte)
    ensures Nibbles(hi, lo) as int / 16 == hi as int % 16
    ensures Nibbles(hi, lo) as int % 16 == lo as int % 16
  {
  }

  lemma TailSurvives(data: seq<byte>)
    requires |data| >= HEADER_SIZE
    ensures Encode(Decode(data).value)[4..] == data[4..]
  {
  }

  /** Bytes survive decoding and re-encoding exactly when they carry version 3 and known codes. */
  lemma BytesRoundTrip(data: seq<byte>)
    requires |data| >= HEADER_SIZE
    ensures Encode(Decode(data).value) == data <==>
            data[0] == V3 && ProtocolFrom(data[1]) == data[1] && AppProtocolFrom(data[2]) == data[2]
  {
    var p := Decode(data).value;
    var e := Encode(p);
    NibblesSplit(p.sourceTTL, p.ttl);
    assert Nibbles(p.sourceTTL, p.ttl) == data[3];
    assert e[0] == V3 && e[1] == p.proto && e[2] == p.appProto && e[3] == data[3];
    TailSurvives(data);
    assert e == e[..4] + e[4..] && data == data[..4] + data[4..];
    if data[0] == V3 && ProtocolFrom(data[1]) == data[1] && AppProtocolFrom(data[2]) == data[2] {
      assert e[..4] == data[..4];
    }
  }

  /** Fills a fresh buffer field by field. */
  method Marshal(p: Packet) returns (buf: array<byte>)
    ensures fresh(buf) && buf[..] == Encode(p)
  {
    buf := new byte[HEADER_SIZE + |p.payload|](i => 0);
    buf[0] := V3;
    buf[1] := p.proto;
    buf[2] := p.appProto;
    buf[3] := Nibbles(p.sourceTTL, p.ttl);
    Copy(buf, 4, IPBytes(p.srcIP));
    Copy(buf, 8, IPBytes(p.dstIP));
    Copy(buf, HEADER_SIZE, p.payload);
    assert buf[..] == Header(p) + p.payload;
  }

  method Copy(buf: array<byte>, at: nat, src: seq<byte>)
    requires at + |src| <= buf.Length
    modifies buf
    ensures forall k :: 0 <= k < buf.Length ==>
              buf[k] == if at <= k < at + |src| then src[k - at] else old(buf[k])
  {
    var i := 0;
    while i < |src|
      invariant 0 <= i <= |src|
      invariant forall k :: 0 <= k < buf.Length ==>
                  buf[k] == if at <= k < at + i then src[k - at] else old(buf[k])
    {
      buf[at + i] := src[i];
      i := i + 1;
    }
  }

  /** Parses a received buffer, copying the payload out. */
  method Unmarshal(data: array<byte>) returns (r: Option<Packet>)
    ensures r == Decode(data[..])
  {
    if data.Length < HEADER_SIZE {
      return None;
    }
    var payload := new byte[data.Length - HEADER_SIZE](i => 0);
    Copy(payload, 0, data[HEADER_SIZE..]);
    assert payload[..] == data[HEADER_SIZE..] == data[..][HEADER_SIZE..];
    return Some(Packet(VersionFrom((data[0] as int % 16) as byte), ProtocolFrom(data[1]), AppProtocolFrom(data[2]),
                       (data[3] as int / 16) as byte, (data[3] as int % 16) as byte,
                       V4(data[4], data[5], data[6], data[7]), V4(data[8], data[9], data[10], data[11]),
                       payload[..]));
  }
}
