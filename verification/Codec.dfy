/** Length-prefixed framing of messages, and the incremental decoder that takes them out of a buffer again. */
module Codec {
  import opened Bytes
  import opened Buffers

  type Message = seq<Byte>

  const HEADER_LEN: nat := 4
  const MAX_LEN: nat := 65536
  const TWO_31: int := 0x8000_0000
  const TWO_32: int := 0x1_0000_0000

  /** The conversion of a size to a signed 32-bit integer. */
  function ToInt32(n: int): (r: int)
    ensures -TWO_31 <= r < TWO_31 && (r - n) % TWO_32 == 0
    ensures 0 <= n < TWO_31 ==> r == n
  {
    var u := n % TWO_32;
    if u < TWO_31 then u else u - TWO_32
  }

  /** The four bytes of a 32-bit integer in network order. */
  function Header(v: int): (h: seq<Byte>)
    requires -TWO_31 <= v < TWO_31
    ensures |h| == HEADER_LEN
  {
    var u := v % TWO_32;
    var high, low := u / 0x1_0000, u % 0x1_0000;
    [high / 0x100, high % 0x100, low / 0x100, low % 0x100]
  }

  function BigEndian(a: int, b: int, c: int, d: int): int {
    (a * 0x100 + b) * 0x1_0000 + (c * 0x100 + d)
  }

  function HeaderValue(h: seq<Byte>): (v: int)
    requires |h| == HEADER_LEN
    ensures -TWO_31 <= v < TWO_31
  {
    ToInt32(BigEndian(h[0], h[1], h[2], h[3]))
  }

  lemma BytesOfBigEndian(a: int, b: int, c: int, d: int)
    requires 0 <= a < 0x100 && 0 <= b < 0x100 && 0 <= c < 0x100 && 0 <= d < 0x100
    ensures var u := BigEndian(a, b, c, d);
            && 0 <= u < TWO_32
            && u / 0x1_0000 == a * 0x100 + b && u % 0x1_0000 == c * 0x100 + d
            && (a * 0x100 + b) / 0x100 == a && (a * 0x100 + b) % 0x100 == b
            && (c * 0x100 + d) / 0x100 == c && (c * 0x100 + d) % 0x100 == d
  {
  }

  lemma Int32OfItself(v: int)
    requires -TWO_31 <= v < TWO_31
    ensures ToInt32(v % TWO_32) == v && 0 <= v % TWO_32 < TWO_32
  {
  }

  lemma UnsignedOfInt32(u: int)
    requires 0 <= u < TWO_32
    ensures ToInt32(u) % TWO_32 == u
  {
  }

  lemma HeaderRoundTrip(v: int)
    requires -TWO_31 <= v < TWO_31
    ensures HeaderValue(Header(v)) == v
  {
    Int32OfItself(v);
  }

  lemma HeaderOfValue(h: seq<Byte>)
    requires |h| == HEADER_LEN
    ensures Header(HeaderValue(h)) == h
  {
    BytesOfBigEndian(h[0], h[1], h[2], h[3]);
    UnsignedOfInt32(BigEndian(h[0], h[1], h[2], h[3]));
  }

  /** The number that four bytes spell, the most significant first. */
  function Spelled(h: seq<Byte>): (n: int)
    requires |h| >= 4
    ensures 0 <= n < 0x1_0000_0000
    ensures n < 0x8000_0000 <==> h[0] < 0x80
  {
    (h[0] as int) * 0x100_0000 + (h[1] as int) * 0x1_0000 + (h[2] as int) * 0x100 + (h[3] as int)
  }

  /** A length goes out with its most significant byte first. */
  lemma HeaderSpells(v: int)
    requires 0 <= v < 0x8000_0000
    ensures Spelled(Header(v)) == v && Header(v)[0] < 0x80
  {
  }

  /** And is read that way, as a signed number of 32 bits. */
  lemma HeaderValueSpells(h: seq<Byte>)
    requires |h| == 4
    ensures HeaderValue(h) == if h[0] < 0x80 then Spelled(h) else Spelled(h) - 0x1_0000_0000
  {
    BytesOfBigEndian(h[0], h[1], h[2], h[3]);
  }

  /** What `send` puts on the connection for one message. */
  function Frame(m: Message): (f: seq<Byte>)
    ensures |f| == HEADER_LEN + |m|
  {
    Header(ToInt32(|m|)) + m
  }

  function Frames(ms: seq<Message>): seq<Byte> {
    if ms == [] then [] else Frame(ms[0]) + Frames(ms[1..])
  }

  predicate Sendable(ms: seq<Message>) {
    forall i :: 0 <= i < |ms| ==> |ms[i]| <= MAX_LEN
  }

  /** What stands first in a byte stream. */
  datatype Head = Incomplete | BadLength | Complete(message: Message, tail: seq<Byte>)

  function DecodeHead(s: seq<Byte>): (h: Head)
    ensures h.Complete? ==> |h.tail| < |s|
  {
    if |s| < HEADER_LEN then Incomplete
    else
      var len := HeaderValue(s[..HEADER_LEN]);
      if len > MAX_LEN || len < 0 then BadLength
      else if |s| >= len + HEADER_LEN then Complete(s[HEADER_LEN..HEADER_LEN + len], s[HEADER_LEN + len..])
      else Incomplete
  }

  /** What the decoder makes of a byte stream: messages delivered, bytes left over, and whether it met a bad length. */
  datatype Parsed = Parsed(messages: seq<Message>, rest: seq<Byte>, bad: bool)

  function Parse(s: seq<Byte>): Parsed
    decreases |s|
  {
    match DecodeHead(s)
    case Incomplete => Parsed([], s, false)
    case BadLength => Parsed([], s, true)
    case Complete(m, tail) => After([m], Parse(tail))
  }

  /** The same outcome, with `earlier` messages delivered before. */
  function After(earlier: seq<Message>, p: Parsed): Parsed {
    p.(messages := earlier + p.messages)
  }

  /** One chunk after another arrives behind what is left in the input buffer. */
  function Receive(rest: seq<Byte>, chunks: seq<seq<Byte>>): (seq<Message>, seq<Byte>)
    decreases |chunks|
  {
    if chunks == [] then ([], rest)
    else
      var p := Parse(rest + chunks[0]);
      var (messages, left) := Receive(p.rest, chunks[1..]);
      (p.messages + messages, left)
  }

  method Send(message: Message) returns (bytes: seq<Byte>)
    ensures bytes == Frame(message) && |bytes| == 4 + |message| && bytes[4..] == message
    ensures |message| < 0x8000_0000 ==> Spelled(bytes[..4]) == |message|
  {
    if |message| < 0x8000_0000 {
      HeaderSpells(|message|);
    }
    hide Header, Spelled;
    var buf := new Buffer();
    buf.Append(message);
    var len := ToInt32(|message|);
    buf.Prepend(Header(len));
    bytes := buf.Peek(buf.ReadableBytes());
  }

  /** Takes every complete message out of the buffer; on a length out of range it gives up and asks for a shutdown. */
  method OnMessage(buf: Buffer) returns (delivered: seq<Message>, shutdown: bool)
    requires buf.Valid()
    modifies buf
    ensures buf.Valid() && buf.storage == old(buf.storage) && buf.peak == old(buf.peak)
    ensures Parse(old(buf.Contents())) == Parsed(delivered, buf.Contents(), shutdown)
  {
    hide HeaderValue, After, Buffer.Contents;
    delivered, shutdown := [], false;
    ghost var whole := Parse(buf.Contents());
    AfterNothing(whole);
    while buf.ReadableBytes() >= HEADER_LEN
      invariant buf.Valid() && buf.storage == old(buf.storage) && buf.peak == old(buf.peak)
      invariant whole == After(delivered, Parse(buf.Contents()))
      invariant !shutdown
      decreases |buf.Contents()|
    {
      ghost var before := buf.Contents();
      var len := HeaderValue(buf.Peek(HEADER_LEN));
      if len > MAX_LEN || len < 0 {
        shutdown := true;
        break;
      } else if buf.ReadableBytes() >= len + HEADER_LEN {
        buf.Retrieve(HEADER_LEN);
        var message := buf.Peek(len);
        buf.Retrieve(len);
        assert DecodeHead(before) == Complete(message, buf.Contents()) by {
          assert message == before[HEADER_LEN..HEADER_LEN + len];
          assert buf.Contents() == before[HEADER_LEN + len..];
        }
        AfterTwice(delivered, [message], Parse(buf.Contents()));
        delivered := delivered + [message];
      } else {
        break;
      }
    }
    AfterLast(delivered, Parse(buf.Contents()));
  }

  lemma AfterNothing(p: Parsed)
    ensures After([], p) == p
  {
  }

  lemma AfterLast(earlier: seq<Message>, p: Parsed)
    requires p.messages == []
    ensures After(earlier, p) == Parsed(earlier, p.rest, p.bad)
  {
  }

  lemma AfterTwice(first: seq<Message>, second: seq<Message>, p: Parsed)
    ensures After(first, After(second, p)) == After(first + second, p)
  {
    assert first + (second + p.messages) == first + second + p.messages;
  }

  // The first frame of a byte stream

  lemma HeadOfConcat(a: seq<Byte>, b: seq<Byte>)
    ensures var h := DecodeHead(a);
            && (h.Complete? ==> DecodeHead(a + b) == Complete(h.message, h.tail + b))
            && (h.BadLength? ==> DecodeHead(a + b) == BadLength)
  {
    hide HeaderValue;
    if HEADER_LEN <= |a| {
      assert (a + b)[..HEADER_LEN] == a[..HEADER_LEN];
      var len := HeaderValue(a[..HEADER_LEN]);
      if 0 <= len <= MAX_LEN && HEADER_LEN + len <= |a| {
        assert (a + b)[HEADER_LEN..HEADER_LEN + len] == a[HEADER_LEN..HEADER_LEN + len];
        assert (a + b)[HEADER_LEN + len..] == a[HEADER_LEN + len..] + b;
      }
    }
  }

  /** What the decoder makes of the front of a stream, by the number its first four bytes spell. */
  lemma HeadExactly(s: seq<Byte>)
    ensures |s| < 4 ==> DecodeHead(s) == Incomplete
    ensures |s| >= 4 && Spelled(s) > 65536 ==> DecodeHead(s) == BadLength
    ensures |s| >= 4 && Spelled(s) <= 65536 ==>
              DecodeHead(s) == if |s| < 4 + Spelled(s) then Incomplete
                               else Complete(s[4..4 + Spelled(s)], s[4 + Spelled(s)..])
  {
    if |s| >= 4 {
      HeaderValueSpells(s[..4]);
      assert Spelled(s[..4]) == Spelled(s) >= 0;
      hide HeaderValue;
    }
  }

  /** A message the decoder takes is framed in the stream as `send` would have framed it. */
  lemma HeadIsFrame(s: seq<Byte>)
    requires DecodeHead(s).Complete?
    ensures var h := DecodeHead(s);
            |h.message| <= MAX_LEN && s == Frame(h.message) + h.tail
  {
    HeaderOfValue(s[..HEADER_LEN]);
    hide HeaderValue, Header;
    var len := HeaderValue(s[..HEADER_LEN]);
    assert s == s[..HEADER_LEN] + (s[HEADER_LEN..HEADER_LEN + len] + s[HEADER_LEN + len..]);
  }

  lemma HeadOfFrame(m: Message, s: seq<Byte>)
    requires |m| <= MAX_LEN
    ensures DecodeHead(Frame(m) + s) == Complete(m, s)
  {
    HeaderRoundTrip(|m|);
    hide HeaderValue, Header;
    var whole := Frame(m) + s;
    assert whole[..HEADER_LEN] == Header(|m|);
    assert whole[HEADER_LEN..HEADER_LEN + |m|] == m;
    assert whole[HEADER_LEN + |m|..] == s;
  }

  lemma HeadOfPartialFrame(m: Message, s: seq<Byte>)
    requires |m| <= MAX_LEN && s < Frame(m)
    ensures DecodeHead(s) == Incomplete
  {
    HeaderRoundTrip(|m|);
    hide HeaderValue, Header;
    if HEADER_LEN <= |s| {
      assert s[..HEADER_LEN] == Frame(m)[..HEADER_LEN] == Header(|m|);
    }
  }

  // What the decoder does to a byte stream

  /** Decoding in two steps, the second behind the remainder of the first, is decoding the whole, for any bytes. */
  lemma {:induction false} ParseConcat(a: seq<Byte>, b: seq<Byte>)
    ensures Parse(a + b) == After(Parse(a).messages, Parse(Parse(a).rest + b))
    decreases |a|
  {
    HeadOfConcat(a, b);
    hide DecodeHead, After;
    match DecodeHead(a)
    case Complete(m, tail) =>
      ParseConcat(tail, b);
      AfterTwice([m], Parse(tail).messages, Parse(Parse(tail).rest + b));
      AfterMessages([m], Parse(tail));
    case _ =>
      AfterNothing(Parse(a + b));
  }

  lemma AfterMessages(earlier: seq<Message>, p: Parsed)
    ensures After(earlier, p) == Parsed(earlier + p.messages, p.rest, p.bad)
  {
  }

  /** The remainder holds no further message, so decoding it again changes nothing. */
  lemma {:induction false} ParseRest(s: seq<Byte>)
    ensures Parse(Parse(s).rest) == Parsed([], Parse(s).rest, Parse(s).bad)
    decreases |s|
  {
    hide DecodeHead;
    match DecodeHead(s)
    case Complete(m, tail) => ParseRest(tail);
    case _ =>
  }

  /** How the stream is cut into chunks changes neither the messages delivered nor the bytes left over. */
  lemma {:induction false} ChunkingIsIrrelevant(rest: seq<Byte>, chunks: seq<seq<Byte>>)
    requires Parse(rest).messages == [] && Parse(rest).rest == rest
    ensures var whole := Parse(rest + Flatten(chunks));
            Receive(rest, chunks) == (whole.messages, whole.rest)
    decreases |chunks|
  {
    hide Parse;
    if chunks == [] {
      assert rest + Flatten(chunks) == rest;
    } else {
      var p := Parse(rest + chunks[0]);
      ParseRest(rest + chunks[0]);
      ChunkingIsIrrelevant(p.rest, chunks[1..]);
      ParseConcat(rest + chunks[0], Flatten(chunks[1..]));
      assert rest + chunks[0] + Flatten(chunks[1..]) == rest + Flatten(chunks);
    }
  }

  /** Nothing is invented or dropped: the stream is the frames of the messages delivered, then the remainder. */
  lemma {:induction false} ParseAccountsForEveryByte(s: seq<Byte>)
    ensures var p := Parse(s);
            Sendable(p.messages) && s == Frames(p.messages) + p.rest
    decreases |s|
  {
    if DecodeHead(s).Complete? {
      HeadIsFrame(s);
    }
    hide DecodeHead, Frame;
    match DecodeHead(s)
    case Complete(m, tail) =>
      ParseAccountsForEveryByte(tail);
      var later := Parse(tail).messages;
      assert ([m] + later)[1..] == later;
      assert Frame(m) + (Frames(later) + Parse(tail).rest) == Frames([m] + later) + Parse(tail).rest;
    case _ =>
  }

  /**
   * From any prefix of the frames of `ms` the decoder gets a prefix of `ms`, it never meets a bad length, and it
   * never holds back a message whose frame is complete.
   */
  lemma {:induction false} ParsePrefixOfFrames(ms: seq<Message>, s: seq<Byte>)
    requires Sendable(ms) && s <= Frames(ms)
    ensures var p := Parse(s);
            && !p.bad
            && p.messages <= ms
            && (p.messages < ms ==> |p.rest| < |Frame(ms[|p.messages|])|)
            && (p.messages == ms ==> p.rest == [])
    decreases |ms|
  {
    if ms == [] {
      assert s == [];
    } else {
      var m := ms[0];
      if |s| < |Frame(m)| {
        assert s == Frames(ms)[..|s|] == Frame(m)[..|s|];
        HeadOfPartialFrame(m, s);
      } else {
        var tail := s[|Frame(m)|..];
        PrefixBehind(Frame(m), Frames(ms[1..]), s);
        HeadOfFrame(m, tail);
        hide DecodeHead, Frame;
        ParsePrefixOfFrames(ms[1..], tail);
        assert ms == [m] + ms[1..];
        assert Parse(s).messages == [m] + Parse(tail).messages;
      }
    }
  }

  lemma PrefixBehind(a: seq<Byte>, b: seq<Byte>, s: seq<Byte>)
    requires s <= a + b && |a| <= |s|
    ensures s == a + s[|a|..] && s[|a|..] <= b
  {
    assert s == (a + b)[..|s|];
    assert s[|a|..] == b[..|s| - |a|];
  }

  /** A message survives the round trip exactly when its size is within the limit the decoder enforces. */
  lemma RoundTripIffWithinLimit(m: Message)
    ensures Parse(Frame(m)) == Parsed([m], [], false) <==> |m| <= 65536
  {
    assert Frame(m) + [] == Frame(m);
    if |m| <= MAX_LEN {
      HeadOfFrame(m, []);
    } else if DecodeHead(Frame(m)).Complete? {
      HeadIsFrame(Frame(m));
    }
  }

  lemma {:induction false} FramesConcat(a: seq<Message>, b: seq<Message>)
    ensures Frames(a + b) == Frames(a) + Frames(b)
    decreases |a|
  {
    hide Frame;
    if a == [] {
      assert a + b == b;
    } else {
      FramesConcat(a[1..], b);
      assert (a + b)[1..] == a[1..] + b;
    }
  }
}
