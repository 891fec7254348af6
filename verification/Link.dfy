/** Two connections joined by a wire: what the codec of one side sends, the codec of the other delivers. */
module Link {
  import opened Codec
  import C = Connection
  import E = ConnectionEffects

  /**
   * `taken` counts the bytes of the client's wire that the server has read; `sent` lists the messages the client
   * sent.
   */
  datatype Link = Link(client: C.Conn, server: C.Conn, taken: nat, sent: seq<Message>)

  /** `AtClient` covers everything but sending: the client sends through its codec only. */
  datatype Event =
    | CodecSend(message: Message, result: int)
    | QueuedCodecSend(message: Message, result: int)
    | AtClient(e: C.Event)
    | AtServer(e: C.Event)

  const INITIAL := Link(C.INITIAL, C.INITIAL, 0, [])

  /** The server reads what the client's kernel took and the server has not read yet, in chunks of any size. */
  predicate Enabled(s: Link, e: Event) {
    match e
    case CodecSend(m, result) => |m| <= MAX_LEN && C.Enabled(s.client, C.Send(Frame(m), result))
    case QueuedCodecSend(m, result) => |m| <= MAX_LEN && C.Enabled(s.client, C.RunQueuedSend(Frame(m), result))
    case AtClient(e) => !e.Send? && !e.RunQueuedSend? && C.Enabled(s.client, e)
    case AtServer(e) =>
      C.Enabled(s.server, e) && s.taken <= |s.client.wire| && (e.Readable? ==> e.incoming == s.client.wire[s.taken..])
  }

  function Next(s: Link, e: Event): Link
    requires Enabled(s, e)
  {
    match e
    case CodecSend(m, result) =>
      s.(client := C.Next(s.client, C.Send(Frame(m), result)),
         sent := if s.client.state == C.Connected then s.sent + [m] else s.sent)
    case QueuedCodecSend(m, result) =>
      s.(client := C.Next(s.client, C.RunQueuedSend(Frame(m), result)), sent := s.sent + [m])
    case AtClient(e) => s.(client := C.Next(s.client, e))
    case AtServer(e) =>
      s.(server := C.Next(s.server, e), taken := if e.Readable? && e.result > 0 then s.taken + e.result else s.taken)
  }

  predicate Legal(s: Link, es: seq<Event>)
    decreases |es|, 0
  {
    es == [] || (Legal(s, es[..|es| - 1]) && Enabled(Run(s, es[..|es| - 1]), es[|es| - 1]))
  }

  function Run(s: Link, es: seq<Event>): Link
    requires Legal(s, es)
    decreases |es|, 1
  {
    if es == [] then s else Next(Run(s, es[..|es| - 1]), es[|es| - 1])
  }

  /** The client's stream is the frames of what it sent, and the server has decoded exactly the part it has read. */
  predicate InStep(s: Link) {
    && C.Conserved(s.client)
    && Sendable(s.sent)
    && s.client.accepted == Frames(s.sent)
    && s.taken <= |s.client.wire|
    && Parse(s.client.wire[..s.taken]) == Parsed(s.server.delivered, s.server.input, false)
  }

  lemma FramesPush(ms: seq<Message>, m: Message)
    ensures Frames(ms + [m]) == Frames(ms) + Frame(m)
  {
    hide Frame;
    FramesConcat(ms, [m]);
    assert Frames([m]) == Frame(m) + Frames([]);
  }

  /** A step of the client keeps what the server has read: the wire only grows. */
  lemma ClientStep(c: C.Conn, e: C.Event)
    requires C.Enabled(c, e)
    ensures c.wire <= C.Next(c, e).wire
    ensures C.Next(c, e).accepted
              == c.accepted + (if (e.Send? && c.state == C.Connected) || e.RunQueuedSend? then e.message else [])
  {
    E.StepAccepts(c, e);
    WireGrows(c, e);
    hide C.Next, C.Enabled;
  }

  lemma WireGrows(c: C.Conn, e: C.Event)
    requires C.Enabled(c, e)
    ensures c.wire <= C.Next(c, e).wire
  {
    hide Parse;
  }

  lemma StepStaysInStep(s: Link, e: Event)
    requires InStep(s) && Enabled(s, e)
    ensures InStep(Next(s, e))
  {
    match e
    case CodecSend(m, result) => ClientStaysInStep(s, e, C.Send(Frame(m), result));
    case QueuedCodecSend(m, result) => ClientStaysInStep(s, e, C.RunQueuedSend(Frame(m), result));
    case AtClient(e') => ClientStaysInStep(s, e, e');
    case AtServer(at) => ServerStaysInStep(s, at);
  }

  lemma ServerStaysInStep(s: Link, at: C.Event)
    requires InStep(s) && Enabled(s, AtServer(at))
    ensures InStep(Next(s, AtServer(at)))
  {
    hide Parse, C.Conserved, Frames, C.Next, Sendable;
    if at.Readable? && at.result > 0 {
      ServerReads(s, at.result);
    }
    ServerStep(s.server, at);
  }

  /** Only a read touches the input side of a connection. */
  lemma ServerStep(c: C.Conn, e: C.Event)
    requires C.Enabled(c, e)
    ensures var next := C.Next(c, e);
            if e.Readable? && e.result > 0 then
              var p := Parse(c.input + e.incoming[..e.result]);
              next.input == p.rest && next.delivered == c.delivered + p.messages
            else next.input == c.input && next.delivered == c.delivered
  {
    hide Parse;
  }

  lemma ClientStaysInStep(s: Link, e: Event, at: C.Event)
    requires InStep(s) && Enabled(s, e) && !e.AtServer?
    requires at == match e
                   case CodecSend(m, result) => C.Send(Frame(m), result)
                   case QueuedCodecSend(m, result) => C.RunQueuedSend(Frame(m), result)
                   case AtClient(e) => e
    ensures InStep(Next(s, e))
  {
    hide Parse, Frame, C.Conserved;
    C.StepConserves(s.client, at);
    ClientStep(s.client, at);
    if e.CodecSend? || e.QueuedCodecSend? {
      FramesPush(s.sent, e.message);
    }
    var after := Next(s, e);
    hide C.Next;
    assert after.client.wire[..s.taken] == s.client.wire[..s.taken];
  }

  lemma ServerReads(s: Link, n: nat)
    requires InStep(s) && s.taken + n <= |s.client.wire| && n > 0
    ensures var p := Parse(s.server.input + s.client.wire[s.taken..][..n]);
            Parse(s.client.wire[..s.taken + n]) == Parsed(s.server.delivered + p.messages, p.rest, false) && !p.bad
  {
    hide Parse, Frames, C.Conserved;
    var wire := s.client.wire;
    var chunk := wire[s.taken..][..n];
    ParseConcat(wire[..s.taken], chunk);
    assert wire[..s.taken] + chunk == wire[..s.taken + n];
    StreamIsGood(s, s.taken + n);
  }

  /** Whatever part of the stream the server takes, it is a prefix of the frames of the messages sent. */
  lemma StreamIsGood(s: Link, n: nat)
    requires InStep(s) && n <= |s.client.wire|
    ensures s.client.wire[..n] <= Frames(s.sent) && !Parse(s.client.wire[..n]).bad
  {
    hide Parse, Frames;
    assert s.client.wire[..n] == s.client.accepted[..n];
    ParsePrefixOfFrames(s.sent, s.client.wire[..n]);
  }

  lemma {:induction false} AlwaysInStep(es: seq<Event>)
    requires Legal(INITIAL, es)
    ensures InStep(Run(INITIAL, es))
  {
    if es == [] {
      assert INITIAL.client.wire[..0] == [];
    } else {
      AlwaysInStep(es[..|es| - 1]);
      hide InStep;
      StepStaysInStep(Run(INITIAL, es[..|es| - 1]), es[|es| - 1]);
    }
  }

  /**
   * End to end, for any messages within the limit, any results of the writes and any chunks read, whatever else happens
   * at either end: the messages delivered are a prefix of those sent, no complete one is held back, and once the
   * client's buffer is empty and the server has read the whole wire they are all delivered and nothing is left over.
   */
  lemma EndToEnd(es: seq<Event>)
    requires Legal(INITIAL, es)
    ensures var s := Run(INITIAL, es);
            && s.server.delivered <= s.sent == SentBy(es)
            && (s.server.delivered < s.sent ==> |s.server.input| < |Frame(s.sent[|s.server.delivered|])|)
            && (s.client.output == [] && s.taken == |s.client.wire| ==>
                  s.server.delivered == s.sent && s.server.input == [])
  {
    EventsDecide(es);
    AlwaysInStep(es);
    var s := Run(INITIAL, es);
    StreamIsGood(s, s.taken);
    ParsePrefixOfFrames(s.sent, s.client.wire[..s.taken]);
    if s.client.output == [] && s.taken == |s.client.wire| {
      assert s.client.wire[..s.taken] == Frames(s.sent);
      WholeStream(s.sent);
    }
  }

  /** The messages the client was asked to send while it was connected, or that were queued for it. */
  function SentBy(es: seq<Event>): seq<Message>
    requires Legal(INITIAL, es)
  {
    if es == [] then []
    else
      var before := es[..|es| - 1];
      SentBy(before) + match es[|es| - 1]
                       case CodecSend(m, _) => if Run(INITIAL, before).client.state == C.Connected then [m] else []
                       case QueuedCodecSend(m, _) => [m]
                       case _ => []
  }

  /** How many bytes the server read. */
  function ReadIn(es: seq<Event>): nat {
    if es == [] then 0
    else
      ReadIn(es[..|es| - 1]) + match es[|es| - 1]
                               case AtServer(e) => if e.Readable? && e.result > 0 then e.result else 0
                               case _ => 0
  }

  lemma {:induction false} EventsDecide(es: seq<Event>)
    requires Legal(INITIAL, es)
    ensures Run(INITIAL, es).sent == SentBy(es) && Run(INITIAL, es).taken == ReadIn(es)
  {
    if es != [] {
      EventsDecide(es[..|es| - 1]);
      StepDecides(Run(INITIAL, es[..|es| - 1]), es[|es| - 1]);
      hide Next;
    }
  }

  lemma StepDecides(s: Link, e: Event)
    requires Enabled(s, e)
    ensures Next(s, e).sent == s.sent + match e
                                        case CodecSend(m, _) => if s.client.state == C.Connected then [m] else []
                                        case QueuedCodecSend(m, _) => [m]
                                        case _ => []
    ensures Next(s, e).taken == s.taken + match e
                                          case AtServer(at) => if at.Readable? && at.result > 0 then at.result else 0
                                          case _ => 0
  {
    hide C.Next;
    assert s.sent + [] == s.sent;
  }

  /** Every message of at most 65536 bytes can be sent at any time, with any result of the write. */
  lemma AnyMessageCanBeSent(s: Link, m: Message, result: int)
    requires |m| <= 65536 && result <= 4 + |m|
    ensures Enabled(s, CodecSend(m, result)) && Enabled(s, QueuedCodecSend(m, result))
  {
  }

  /** And any part of what is on the wire can be read, unless it is nothing, which means the end of the stream. */
  lemma AnyChunkCanBeRead(s: Link, n: nat)
    requires 0 < n && s.taken + n <= |s.client.wire|
    ensures Enabled(s, AtServer(C.Readable(s.client.wire[s.taken..], n)))
  {
  }

  /** The client sends and shuts down on its own loop thread. */
  predicate ClientOnLoop(es: seq<Event>) {
    forall i :: 0 <= i < |es| ==> !es[i].QueuedCodecSend? && (es[i].AtClient? ==> C.OnLoopThread([es[i].e]))
  }

  lemma {:induction false} ClientShutsOnceDrained(es: seq<Event>)
    requires Legal(INITIAL, es) && ClientOnLoop(es) && !Run(INITIAL, es).client.detached
    ensures C.ShutOnceDrained(Run(INITIAL, es).client)
  {
    if es != [] {
      var before, e := es[..|es| - 1], es[|es| - 1];
      var s := Run(INITIAL, before);
      AlwaysInStep(before);
      assert e == es[|es| - 1] && (e.AtClient? ==> C.OnLoopThread([e.e]));
      if e.AtServer? {
        ClientShutsOnceDrained(before);
      } else {
        var at := if e.CodecSend? then C.Send(Frame(e.message), e.result) else e.e;
        C.DetachedForGood(s.client, at);
        ClientShutsOnceDrained(before);
        hide Frame, InStep;
        assert Next(s, e).client == C.Next(s.client, at);
        C.StepShutsOnceDrained(s.client, at);
      }
    }
  }

  /**
   * The server can be told the end of the stream once the client has shut its write side and the wire is read to its
   * end. By then every message the client ever sent has been delivered, and no byte is left over.
   */
  lemma EndOfStreamMeansAll(es: seq<Event>)
    requires Legal(INITIAL, es) && ClientOnLoop(es) && !Run(INITIAL, es).client.detached
    requires Run(INITIAL, es).client.fins != [] && Run(INITIAL, es).taken == |Run(INITIAL, es).client.wire|
    ensures Run(INITIAL, es).server.delivered == Run(INITIAL, es).sent && Run(INITIAL, es).server.input == []
  {
    ClientShutsOnceDrained(es);
    EndToEnd(es);
  }

  lemma {:induction false} WholeStream(ms: seq<Message>)
    requires Sendable(ms)
    ensures Parse(Frames(ms)) == Parsed(ms, [], false)
  {
    if ms != [] {
      WholeStream(ms[1..]);
      HeadOfFrame(ms[0], Frames(ms[1..]));
      hide DecodeHead, Frame;
      assert ms == [ms[0]] + ms[1..];
    }
  }
}
