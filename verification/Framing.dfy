/** Length-prefixed frames on a control stream (handlers/quic.go): the writer, the receive loop
    with its growing buffer, and their meaning on the whole byte stream. */
module Framing {
  import opened Text
  import opened Bytes
  import Packet

  const MAX_FRAME: nat := 0x10_0000

  /** What the writer sends: a 32-bit length, truncated as in the source, then the payload. */
  function Frame(payload: seq<byte>): seq<byte> {
    BigEndian(|payload|, 4) + payload
  }

  function Frames(payloads: seq<seq<byte>>): seq<byte> {
    if payloads == [] then [] else Frame(payloads[0]) + Frames(payloads[1..])
  }

  predicate Sendable(payload: seq<byte>) {
    1 <= |payload| <= MAX_FRAME
  }

  /** The bytes still waiting for more input: no complete frame and no bad length at the front. */
  predicate Incomplete(b: seq<byte>) {
    |b| < 4 || (1 <= FromBigEndian(b[..4]) <= MAX_FRAME && |b| < 4 + FromBigEndian(b[..4]))
  }

  predicate BadLength(b: seq<byte>) {
    |b| >= 4 && !(1 <= FromBigEndian(b[..4]) <= MAX_FRAME)
  }

  datatype Parsed = Parsed(frames: seq<seq<byte>>, rest: seq<byte>, bad: bool)

  /** The frames of a whole byte stream, what is left over, and whether a bad length ended it. */
  function Parse(b: seq<byte>): (r: Parsed)
    ensures r.bad <==> BadLength(r.rest)
    ensures !r.bad <==> Incomplete(r.rest)
    decreases |b|
  {
    if Incomplete(b) then Parsed([], b, false)
    else if BadLength(b) then Parsed([], b, true)
    else
      var n := FromBigEndian(b[..4]);
      var r := Parse(b[4 + n..]);
      r.(frames := [b[4..4 + n]] + r.frames)
  }

  // ------------------------------------------------------------ the whole stream

  /** How a header, a payload and what follows lie in the buffer. */
  lemma Slices(h: seq<byte>, p: seq<byte>, tail: seq<byte>)
    requires |h| == 4
    ensures var b := (h + p) + tail;
      b[..4] == h && b[4..4 + |p|] == p && b[4 + |p|..] == tail && b[4..] == p + tail
  {
  }

  lemma ParseOne(p: seq<byte>, tail: seq<byte>)
    requires Sendable(p)
    ensures Parse(Frame(p) + tail) == Parse(tail).(frames := [p] + Parse(tail).frames)
  {
    Uint32Field(|p|);
    Slices(BigEndian(|p|, 4), p, tail);
  }

  lemma FramesCons(ps: seq<seq<byte>>, tail: seq<byte>)
    requires ps != []
    ensures Frames(ps) + tail == Frame(ps[0]) + (Frames(ps[1..]) + tail)
  {
    var a, b := Frame(ps[0]), Frames(ps[1..]);
    assert (a + b) + tail == a + (b + tail);
  }

  lemma ConsAppend<T>(a: seq<T>, b: seq<T>)
    requires a != []
    ensures [a[0]] + (a[1..] + b) == a + b
  {
  }

  /** Frames written one after the other parse back to the payloads, whatever follows them. */
  lemma {:induction false} ParseFrames(ps: seq<seq<byte>>, tail: seq<byte>)
    requires forall i :: 0 <= i < |ps| ==> Sendable(ps[i])
    ensures Parse(Frames(ps) + tail) == Parse(tail).(frames := ps + Parse(tail).frames)
  {
    if ps == [] {
      assert Frames(ps) + tail == tail;
      assert ps + Parse(tail).frames == Parse(tail).frames;
    } else {
      FramesCons(ps, tail);
      ParseOne(ps[0], Frames(ps[1..]) + tail);
      ParseFrames(ps[1..], tail);
      ConsAppend(ps, Parse(tail).frames);
    }
  }

  lemma FrameBack(b: seq<byte>, n: nat)
    requires |b| >= 4 && n == FromBigEndian(b[..4]) && |b| >= 4 + n
    ensures Frame(b[4..4 + n]) + b[4 + n..] == b
  {
    FromBigEndianFits(b[..4]);
    assert b[..4] + b[4..4 + n] + b[4 + n..] == b;
  }

  /** Conversely, whatever was delivered is exactly what the bytes before the remainder frame. */
  lemma {:induction false} ParseSound(b: seq<byte>)
    ensures b == Frames(Parse(b).frames) + Parse(b).rest
    ensures forall i :: 0 <= i < |Parse(b).frames| ==> Sendable(Parse(b).frames[i])
    decreases |b|
  {
    if Incomplete(b) || BadLength(b) {
      assert b == Frames([]) + b;
    } else {
      var n := FromBigEndian(b[..4]);
      var p, tail := b[4..4 + n], b[4 + n..];
      ParseSound(tail);
      FrameBack(b, n);
      var fs := Parse(tail).frames;
      assert ([p] + fs)[1..] == fs;
      assert Frame(p) + (Frames(fs) + Parse(tail).rest) == (Frame(p) + Frames(fs)) + Parse(tail).rest;
    }
  }

  /** A payload is the next one delivered exactly when its size is between 1 and 2^20. */
  lemma DeliveredIffSendable(p: seq<byte>, tail: seq<byte>)
    ensures (|Parse(Frame(p) + tail).frames| > 0 && Parse(Frame(p) + tail).frames[0] == p) <==> Sendable(p)
  {
    if Sendable(p) {
      ParseOne(p, tail);
    } else {
      Uint32Field(|p|);
      Slices(BigEndian(|p|, 4), p, tail);
    }
  }

  /** A bad length ends the stream right after the frames before it. */
  lemma BadLengthStops(ps: seq<seq<byte>>, n: nat, tail: seq<byte>)
    requires forall i :: 0 <= i < |ps| ==> Sendable(ps[i])
    requires n < TWO32 && !(1 <= n <= MAX_FRAME)
    ensures Parse(Frames(ps) + (BigEndian(n, 4) + tail)).frames == ps
    ensures Parse(Frames(ps) + (BigEndian(n, 4) + tail)).bad
  {
    var b := BigEndian(n, 4) + tail;
    assert b[..4] == BigEndian(n, 4);
    Uint32Field(n);
    ParseFrames(ps, b);
    assert ps + [] == ps;
  }

  // ----------------------------------------------------------- the receive loop

  function Flatten(chunks: seq<seq<byte>>): seq<byte> {
    if chunks == [] then [] else chunks[0] + Flatten(chunks[1..])
  }

  lemma {:induction false} FlattenSnoc(chunks: seq<seq<byte>>, last: seq<byte>)
    ensures Flatten(chunks + [last]) == Flatten(chunks) + last
  {
    if chunks == [] {
      assert chunks + [last] == [last];
      assert Flatten([last]) == last + Flatten([]);
    } else {
      assert (chunks + [last])[1..] == chunks[1..] + [last];
      FlattenSnoc(chunks[1..], last);
    }
  }

  lemma {:induction false} FlattenAppend(a: seq<seq<byte>>, b: seq<seq<byte>>)
    ensures Flatten(a + b) == Flatten(a) + Flatten(b)
  {
    if a == [] {
      assert a + b == b;
    } else {
      assert (a + b)[1..] == a[1..] + b;
      FlattenAppend(a[1..], b);
    }
  }

  /** More bytes extend the frames already found, and a bad length is final. */
  ghost predicate Extends(a: seq<byte>, b: seq<byte>) {
    && (Parse(a).bad ==> Parse(a + b).frames == Parse(a).frames && Parse(a + b).bad)
    && (!Parse(a).bad ==>
          Parse(a + b) == Parse(Parse(a).rest + b).(frames := Parse(a).frames + Parse(Parse(a).rest + b).frames))
  }

  lemma ExtendsCons(p: seq<byte>, tail: seq<byte>, b: seq<byte>)
    requires Sendable(p) && Extends(tail, b)
    ensures Extends(Frame(p) + tail, b)
  {
    hide Parse, Frame, Incomplete, BadLength, FromBigEndian;
    ParseOne(p, tail);
    ParseOne(p, tail + b);
    assert (Frame(p) + tail) + b == Frame(p) + (tail + b);
    var more := Parse(Parse(tail).rest + b).frames;
    assert [p] + (Parse(tail).frames + more) == ([p] + Parse(tail).frames) + more;
  }

  lemma ExtendsEmpty(a: seq<byte>, b: seq<byte>)
    requires Incomplete(a)
    ensures Extends(a, b)
  {
    assert [] + Parse(a + b).frames == Parse(a + b).frames;
  }

  /** Parsing is incremental. */
  lemma {:induction false} ParseAppend(a: seq<byte>, b: seq<byte>)
    ensures Extends(a, b)
    decreases |a|
  {
    if Incomplete(a) {
      ExtendsEmpty(a, b);
    } else if BadLength(a) {
      assert (a + b)[..4] == a[..4];
    } else {
      hide Extends;
      var n := FromBigEndian(a[..4]);
      FrameBack(a, n);
      ParseAppend(a[4 + n..], b);
      ExtendsCons(a[4..4 + n], a[4 + n..], b);
    }
  }

  /** The inner loop: takes complete frames off the front of the buffer. */
  method Drain(buf: seq<byte>) returns (frames: seq<seq<byte>>, frameBuf: seq<byte>, bad: bool)
    ensures Parse(buf) == Parsed(frames, frameBuf, bad)
  {
    frames, frameBuf, bad := [], buf, false;
    while true
      invariant Parse(buf).rest == Parse(frameBuf).rest && Parse(buf).bad == Parse(frameBuf).bad
      invariant Parse(buf).frames == frames + Parse(frameBuf).frames
      decreases |frameBuf|
    {
      if |frameBuf| < 4 {
        return;
      }
      var frameLen := FromBigEndian(frameBuf[..4]);
      if frameLen <= 0 || frameLen > MAX_FRAME {
        bad := true;
        return;
      }
      if |frameBuf| < 4 + frameLen {
        return;
      }
      var packetRaw := frameBuf[4..4 + frameLen];
      ghost var more := Parse(frameBuf[4 + frameLen..]).frames;
      assert frames + ([packetRaw] + more) == (frames + [packetRaw]) + more;
      frameBuf := frameBuf[4 + frameLen..];
      frames := frames + [packetRaw];
    }
  }

  /** The receive loop of one control session on the reads the transport hands it, in order.
      Its outcome depends only on the bytes, never on where the reads were cut. */
  method Receive(chunks: seq<seq<byte>>) returns (delivered: seq<seq<byte>>, frameBuf: seq<byte>, bad: bool)
    ensures delivered == Parse(Flatten(chunks)).frames
    ensures bad == Parse(Flatten(chunks)).bad
    ensures !bad ==> frameBuf == Parse(Flatten(chunks)).rest
  {
    delivered, frameBuf, bad := [], [], false;
    var i := 0;
    assert chunks[..0] == [];
    while i < |chunks|
      invariant 0 <= i <= |chunks|
      invariant Parse(Flatten(chunks[..i])) == Parsed(delivered, frameBuf, false)
    {
      FlattenSnoc(chunks[..i], chunks[i]);
      assert chunks[..i + 1] == chunks[..i] + [chunks[i]];
      ParseAppend(Flatten(chunks[..i]), chunks[i]);
      var frames;
      frames, frameBuf, bad := Drain(frameBuf + chunks[i]);
      delivered := delivered + frames;
      i := i + 1;
      if bad {
        FlattenAppend(chunks[..i], chunks[i..]);
        assert chunks == chunks[..i] + chunks[i..];
        ParseAppend(Flatten(chunks[..i]), Flatten(chunks[i..]));
        return;
      }
    }
    assert chunks[..i] == chunks;
  }

  // --------------------------------------------------- packets over the stream

  /** Packets sent as frames and received through any cutting of the bytes arrive unchanged, in
      order, with nothing left in the buffer. */
  lemma PacketsArrive(packets: seq<Packet.Packet>, chunks: seq<seq<byte>>)
    requires forall i :: 0 <= i < |packets| ==>
      Packet.Faithful(packets[i]) && |packets[i].payload| <= MAX_FRAME - Packet.HEADER_SIZE
    requires Flatten(chunks) == Frames(seq(|packets|, i requires 0 <= i < |packets| => Packet.Encode(packets[i])))
    ensures var r := Parse(Flatten(chunks));
      && !r.bad && r.rest == [] && |r.frames| == |packets|
      && forall i :: 0 <= i < |packets| ==> Packet.Decode(r.frames[i]) == Some(packets[i])
  {
    var ps := seq(|packets|, i requires 0 <= i < |packets| => Packet.Encode(packets[i]));
    ParseFrames(ps, []);
    assert Frames(ps) + [] == Frames(ps) && ps + Parse([]).frames == ps;
    forall i | 0 <= i < |packets| ensures Packet.Decode(ps[i]) == Some(packets[i]) {
      Packet.PacketRoundTrip(packets[i]);
    }
  }
}
