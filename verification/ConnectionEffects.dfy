/** What the events of a connection decide: what was accepted, read, written and shut. */
module ConnectionEffects {
  import opened Bytes
  import opened Codec
  import opened Connection
  import P = Poller

  // What goes out

  /** The messages accepted: those sent while the connection was open, and those another thread had queued. */
  function AcceptedBy(es: seq<Event>): seq<Byte>
    requires Legal(INITIAL, es)
  {
    if es == [] then []
    else
      var before := es[..|es| - 1];
      AcceptedBy(before) + match es[|es| - 1]
                           case Send(message, _) => if StillOpen(before) then message else []
                           case RunQueuedSend(message, _) => message
                           case _ => []
  }

  lemma StepAccepts(c: Conn, e: Event)
    requires Enabled(c, e)
    ensures Next(c, e).accepted == c.accepted + match e
                                                case Send(message, _) => if c.state == Connected then message else []
                                                case RunQueuedSend(message, _) => message
                                                case _ => []
  {
    hide Parse;
    assert c.accepted + [] == c.accepted;
  }

  lemma {:induction false} AcceptedIsSent(es: seq<Event>)
    requires Legal(INITIAL, es)
    ensures Run(INITIAL, es).accepted == AcceptedBy(es)
  {
    if es != [] {
      var before := es[..|es| - 1];
      AcceptedIsSent(before);
      ClosesExactlyIfStillOpen(before, []);
      StepAccepts(Run(INITIAL, before), es[|es| - 1]);
      hide Next;
    }
  }

  /** A send writes at once what the kernel takes, if nothing waits; everything else waits, behind what does. */
  lemma SendEffect(c: Conn, message: seq<Byte>, result: int)
    requires result <= |message|
    ensures var t := Next(c, RunQueuedSend(message, result));
            var n := if P.Out !in c.events && c.output == [] && result > 0 then result else 0;
            && t.wire == c.wire + message[..n] && t.output == c.output + message[n..]
            && t.events == (if n < |message| then c.events + {P.Out} else c.events)
            && (t.state, t.fins, t.input, t.delivered) == (c.state, c.fins, c.input, c.delivered)
    ensures c.state == Connected ==> Next(c, Send(message, result)) == Next(c, RunQueuedSend(message, result))
    ensures c.state != Connected ==> Next(c, Send(message, result)) == c
  {
    assert IsWriting(c) <==> P.Out in c.events by {
      assert P.Out in c.events ==> P.Out in c.events * P.WRITE;
    }
    assert message[|message|..] == [] && c.output + [] == c.output;
    assert P.Out in c.events ==> c.events + {P.Out} == c.events;
  }

  /** A writable descriptor moves what the kernel takes from the front of the buffer to the wire. */
  lemma WritableEffect(c: Conn, result: int)
    requires result <= |c.output|
    ensures var t := Next(c, Writable(result));
            if P.Out in c.events && result > 0 then
              && t.wire == c.wire + c.output[..result] && t.output == c.output[result..]
              && t.events == (if result == |c.output| then c.events - {P.Out} else c.events)
            else t == c
  {
    assert IsWriting(c) <==> P.Out in c.events by {
      assert P.Out in c.events ==> P.Out in c.events * P.WRITE;
    }
  }

  // What comes in

  /** The bytes read. */
  function ReadBy(es: seq<Event>): seq<Byte>
    requires Legal(INITIAL, es)
  {
    if es == [] then []
    else
      ReadBy(es[..|es| - 1]) + match es[|es| - 1]
                               case Readable(incoming, result) => if result > 0 then incoming[..result] else []
                               case _ => []
  }

  lemma StepReads(c: Conn, e: Event)
    requires Enabled(c, e)
    ensures var t := Next(c, e);
            if e.Readable? && e.result > 0 then
              var p := Parse(c.input + e.incoming[..e.result]);
              t.delivered == c.delivered + p.messages && t.input == p.rest
            else t.delivered == c.delivered && t.input == c.input
  {
    hide Parse;
  }

  /** A read takes what there is, at any time; the end of the stream closes the connection. */
  lemma ReadEffect(c: Conn, incoming: seq<Byte>, result: int)
    requires result <= |incoming| && (result == 0 ==> c.state == Connected)
    ensures var t := Next(c, Readable(incoming, result));
            if result > 0 then
              && (t.delivered, t.input) == (c.delivered + Parse(c.input + incoming[..result]).messages,
                                            Parse(c.input + incoming[..result]).rest)
              && t.state == (if Parse(c.input + incoming[..result]).bad && c.state == Connected then Disconnected
                             else c.state)
            else if result == 0 then t == Next(c, HangUp)
            else t == c
  {
    hide Parse;
  }

  /** At any time, decoding all that was read gives the messages delivered and the bytes that are left over. */
  lemma {:induction false} DeliveredIsRead(es: seq<Event>)
    requires Legal(INITIAL, es)
    ensures (Parse(ReadBy(es)).messages, Parse(ReadBy(es)).rest)
            == (Run(INITIAL, es).delivered, Run(INITIAL, es).input)
  {
    if es != [] {
      var before, e := es[..|es| - 1], es[|es| - 1];
      DeliveredIsRead(before);
      StepReads(Run(INITIAL, before), e);
      hide Parse, Next;
      assert ReadBy(before) + [] == ReadBy(before);
      if e.Readable? && e.result > 0 {
        ParseConcat(ReadBy(before), e.incoming[..e.result]);
      }
    }
  }

  // The end

  /** The connection was closed or destroyed. */
  predicate EndedBy(es: seq<Event>) {
    es != [] && (Closes(es[|es| - 1]) || es[|es| - 1].Destroy? || EndedBy(es[..|es| - 1]))
  }

  lemma {:induction false} DetachedIffEnded(es: seq<Event>)
    requires Legal(INITIAL, es)
    ensures Run(INITIAL, es).detached <==> EndedBy(es)
  {
    if es != [] {
      DetachedIffEnded(es[..|es| - 1]);
      StepDetaches(Run(INITIAL, es[..|es| - 1]), es[|es| - 1]);
      hide Next;
    }
  }

  lemma StepDetaches(c: Conn, e: Event)
    requires Enabled(c, e)
    ensures Next(c, e).detached <==> c.detached || Closes(e) || e.Destroy?
  {
    hide Parse;
  }

  // Shutting the write side

  /** The write side is shut by a shutdown, a bad length, or the last byte after a shutdown, if nothing waits then. */
  predicate ShutsNow(c: Conn, e: Event) {
    match e
    case Shutdown => c.state == Connected && c.output == []
    case Readable(incoming, result) =>
      c.state == Connected && c.output == [] && 0 < result <= |incoming| && Parse(c.input + incoming[..result]).bad
    case RunQueuedShutdown => c.output == []
    case Writable(result) => c.state == Disconnected && 0 < result == |c.output|
    case _ => false
  }

  lemma StepShuts(c: Conn, e: Event)
    requires Conserved(c) && !c.detached && Enabled(c, e)
    ensures Next(c, e).fins == c.fins + if ShutsNow(c, e) then [Next(c, e).accepted] else []
  {
    hide Parse;
    StepConserves(c, e);
    assert c.wire + [] == c.wire && c.fins + [] == c.fins;
    if e.Writable? && ShutsNow(c, e) {
      assert c.output[..e.result] == c.output && c.output[e.result..] == [];
      assert (c.events - P.WRITE) * P.WRITE == {};
    }
  }

  /** What had been accepted at each moment at which the write side was shut. */
  function ShutsBy(es: seq<Event>): seq<seq<Byte>>
    requires Legal(INITIAL, es)
  {
    if es == [] then []
    else
      ShutsBy(es[..|es| - 1]) + if ShutsNow(Run(INITIAL, es[..|es| - 1]), es[|es| - 1]) then [AcceptedBy(es)] else []
  }

  /**
   * Over every run up to the first close, shutdowns of other threads included, the write side is shut at these moments
   * and no others, always with everything accepted so far on the wire.
   */
  lemma {:induction false} ShutsOnlyThen(es: seq<Event>)
    requires Legal(INITIAL, es) && !Run(INITIAL, es).detached
    ensures Run(INITIAL, es).fins == ShutsBy(es)
  {
    if es != [] {
      var before, e := es[..|es| - 1], es[|es| - 1];
      DetachedForGood(Run(INITIAL, before), e);
      ShutsOnlyThen(before);
      OutboundConservation(before);
      StepShuts(Run(INITIAL, before), e);
      AcceptedIsSent(es);
      hide Next, ShutsNow;
    }
  }

  /** An established connection watches for reading; a closed one watches for nothing. */
  lemma WatchingEffect(c: Conn)
    ensures c.state == Connecting ==>
              Next(c, Establish).events == c.events + {P.In, P.Pri} && Next(c, Establish).state == Connected
    ensures c.state == Connected ==>
              Next(c, HangUp) == c.(events := {}, registered := !c.registered, detached := true)
    ensures c.state == Connected && !c.registered ==>
              Next(c, Destroy) == c.(events := {}, state := Disconnected, detached := true)
  {
  }
}
