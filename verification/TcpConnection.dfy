/** The connection object: its channel, its two buffers, and the handlers that update them. */
module TcpConnection {
  import opened Bytes
  import opened Buffers
  import Codec
  import C = Connection
  import E = ConnectionEffects
  import P = Poller

  class TcpConnection {
    const poller: P.EPoller
    const channel: P.Channel
    const inputBuffer: Buffer
    const outputBuffer: Buffer
    var state: C.State
    /** What the peer can see, and the history the properties speak of. */
    ghost var wire: seq<Byte>
    ghost var fins: seq<seq<Byte>>
    ghost var accepted: seq<Byte>
    ghost var delivered: seq<Codec.Message>
    ghost var detached: bool
    ghost var history: seq<C.Event>

    ghost function Repr(): set<object>
      reads this, inputBuffer, outputBuffer
    {
      {this, channel, inputBuffer, outputBuffer, inputBuffer.storage, outputBuffer.storage}
    }

    /** The channel is one of the poller's, and the buffers are apart. */
    ghost predicate Wired()
      reads this, inputBuffer, outputBuffer, poller, poller.Objects()
    {
      && channel.ListedIn(poller)
      && inputBuffer != outputBuffer && inputBuffer.storage != outputBuffer.storage
      && inputBuffer.Valid() && outputBuffer.Valid()
    }

    ghost function View(): C.Conn
      requires Wired()
      reads this, Repr(), inputBuffer, outputBuffer, poller, poller.Objects()
    {
      C.Conn(state, channel.events, channel.index == P.ADDED, inputBuffer.Contents(), outputBuffer.Contents(),
             wire, fins, accepted, delivered, detached)
    }

    /** The state is the one its history leads to. */
    ghost predicate Valid()
      reads this, Repr(), inputBuffer, outputBuffer, poller, poller.Objects()
    {
      Wired() && C.Legal(C.INITIAL, history) && View() == C.Run(C.INITIAL, history)
    }

    constructor (poller: P.EPoller, channel: P.Channel)
      requires channel.ListedIn(poller) && channel.events == {} && channel.index == P.NEW
      ensures Valid() && View() == C.INITIAL && this.poller == poller && this.channel == channel
      ensures fresh(Repr() - {channel})
    {
      this.poller, this.channel := poller, channel;
      inputBuffer := new Buffer();
      outputBuffer := new Buffer();
      state := C.Connecting;
      wire, fins, accepted, delivered, detached, history := [], [], [], [], false, [];
    }

    ghost method Record(before: C.Conn, e: C.Event)
      requires Wired() && C.Legal(C.INITIAL, history) && before == C.Run(C.INITIAL, history)
      requires C.Enabled(before, e) && View() == C.Next(before, e)
      modifies this`history
      ensures Valid() && View() == old(View()) && history == old(history) + [e] && Repr() == old(Repr())
    {
      hide C.Next, C.Enabled, Buffer.Valid, Buffer.Contents;
      assert (history + [e])[..|history|] == history;
      history := history + [e];
    }

    /** What holds of every run holds of the object. */
    lemma Sound()
      requires Valid()
      ensures C.Conserved(View())
      ensures C.OnLoopThread(history) && !detached ==> C.ShutOnceDrained(View())
      ensures C.Enabled(View(), C.Destroy) <==> C.StillOpen(history) && !C.LeavesRegistered(history)
      ensures accepted == E.AcceptedBy(history) && delivered == Codec.Parse(E.ReadBy(history)).messages
      ensures !detached ==> fins == E.ShutsBy(history)
    {
      E.AcceptedIsSent(history);
      E.DeliveredIsRead(history);
      if !detached {
        E.ShutsOnlyThen(history);
      }
      C.OutboundConservation(history);
      if C.OnLoopThread(history) && !detached {
        C.WriteSideShutExactlyWhenDrained(history);
      }
      C.DestroysExactlyIf(history);
    }

    // The events

    method ConnectEstablished()
      requires Valid() && C.Enabled(View(), C.Establish)
      modifies Repr(), poller`interest
      ensures Valid() && View() == C.Next(old(View()), C.Establish) && history == old(history) + [C.Establish]
      ensures fresh(Repr() - old(Repr()))
    {
      hide C.Legal, C.Run;
      ghost var before := View();
      state := C.Connected;
      channel.EnableReading(poller);
      Record(before, C.Establish);
    }

    /**
     * On another thread the message is queued for the loop, which sends it as `SendInLoop` later; `result` is unused
     * then.
     */
    method Send(message: seq<Byte>, inLoop: bool, result: int) returns (queued: bool)
      requires Valid() && (inLoop ==> C.Enabled(View(), C.Send(message, result)))
      modifies Repr(), poller`interest
      ensures Valid() && queued == (state == C.Connected && !inLoop) && state == old(state)
      ensures View() == if inLoop then C.Next(old(View()), C.Send(message, result)) else old(View())
      ensures history == if inLoop then old(history) + [C.Send(message, result)] else old(history)
      ensures fresh(Repr() - old(Repr()))
    {
      hide C.Legal, C.Run, C.AfterSend, TcpConnection.Wired;
      ghost var before := View();
      queued := false;
      if state == C.Connected {
        if inLoop {
          WriteOrKeep(message, result);
        } else {
          queued := true;
        }
      }
      if inLoop {
        Record(before, C.Send(message, result));
      }
    }

    /** A message queued by another thread. */
    method SendInLoop(message: seq<Byte>, result: int)
      requires Valid() && C.Enabled(View(), C.RunQueuedSend(message, result))
      modifies Repr(), poller`interest
      ensures Valid() && View() == C.Next(old(View()), C.RunQueuedSend(message, result))
      ensures history == old(history) + [C.RunQueuedSend(message, result)] && fresh(Repr() - old(Repr()))
    {
      hide C.Legal, C.Run, C.AfterSend, TcpConnection.Wired;
      ghost var before := View();
      WriteOrKeep(message, result);
      Record(before, C.RunQueuedSend(message, result));
    }

    /** Reads, and hands what was read to the codec; the messages it delivers are the result. */
    method HandleRead(incoming: seq<Byte>, result: int) returns (messages: seq<Codec.Message>)
      requires Valid() && C.Enabled(View(), C.Readable(incoming, result))
      requires result <= inputBuffer.WritableBytes() + EXTRA_SIZE
      modifies Repr(), poller`interest
      ensures Valid() && View() == C.Next(old(View()), C.Readable(incoming, result))
      ensures history == old(history) + [C.Readable(incoming, result)] && delivered == old(delivered) + messages
      ensures fresh(Repr() - old(Repr()))
    {
      hide C.Legal, C.Run, C.AfterRead, Codec.Parse, Buffer.Contents, Buffer.Valid;
      ghost var before := View();
      messages := ReadAndDecode(incoming, result);
      Record(before, C.Readable(incoming, result));
    }

    method HandleWrite(result: int)
      requires Valid() && C.Enabled(View(), C.Writable(result))
      modifies Repr(), poller`interest
      ensures Valid() && View() == C.Next(old(View()), C.Writable(result))
      ensures history == old(history) + [C.Writable(result)] && fresh(Repr() - old(Repr()))
    {
      hide C.Legal, C.Run, C.AfterWrite, Buffer.Contents, Buffer.Valid;
      ghost var before := View();
      DrainOutput(result);
      Record(before, C.Writable(result));
    }

    /** The descriptor reports a hang-up. */
    method HandleClose()
      requires Valid() && C.Enabled(View(), C.HangUp)
      modifies Repr(), poller`interest
      ensures Valid() && View() == C.Next(old(View()), C.HangUp) && history == old(history) + [C.HangUp]
      ensures fresh(Repr() - old(Repr()))
      ensures poller.View() == P.Next(old(poller.View()), P.DisableAll(channel.fd))
    {
      hide C.Legal, C.Run, C.AfterClose, P.Next, Buffer.Contents, Buffer.Valid;
      ghost var before := View();
      CloseChannel();
      Record(before, C.HangUp);
    }

    /** The state changes at once on any thread; on another one the rest is queued for the loop. */
    method Shutdown(inLoop: bool) returns (queued: bool)
      requires Valid()
      modifies this
      ensures Valid() && queued == (old(state) == C.Connected && !inLoop)
      ensures var e := if inLoop then C.Shutdown else C.ShutdownElsewhere;
              View() == C.Next(old(View()), e) && history == old(history) + [e]
    {
      hide C.Legal, C.Run, C.AfterShutdown, Buffer.Contents, Buffer.Valid;
      ghost var before := View();
      queued := Disconnect(inLoop);
      Record(before, if inLoop then C.Shutdown else C.ShutdownElsewhere);
    }

    /** A shutdown queued by another thread. */
    method ShutdownInLoop()
      requires Valid()
      modifies this
      ensures Valid() && View() == C.Next(old(View()), C.RunQueuedShutdown)
      ensures history == old(history) + [C.RunQueuedShutdown]
    {
      hide C.Legal, C.Run, C.AfterShutdownInLoop, Buffer.Contents, Buffer.Valid;
      ghost var before := View();
      ShutWriteSide();
      Record(before, C.RunQueuedShutdown);
    }

    /** Every assert on the way holds, and the poller ends as it was, without the channel. */
    method ConnectDestroyed()
      requires Valid() && C.Enabled(View(), C.Destroy)
      modifies Repr(), poller`interest
      ensures Valid() && View() == C.Next(old(View()), C.Destroy) && history == old(history) + [C.Destroy]
      ensures fresh(Repr() - old(Repr()))
      ensures poller.View() == old(poller.View()) && channel.fd !in poller.interest
    {
      hide C.Legal, C.Run, P.Next, Buffer.Contents, Buffer.Valid;
      ghost var before, registry := View(), poller.View();
      NotInterested();
      P.DisableThenRemove(registry, channel.fd);
      state, detached := C.Disconnected, true;
      assert poller.View().channels == registry.channels;
      DisableAndRemove();
      Record(before, C.Destroy);
    }

    lemma NewOrAdded()
      requires Wired()
      ensures channel.index == P.NEW || channel.index == P.ADDED
    {
      assert channel.fd in poller.View().channels;
    }

    lemma NotInterested()
      requires Wired() && channel.index != P.ADDED
      ensures channel.fd !in poller.interest && channel.events == {}
    {
      assert channel.fd in poller.View().channels;
    }

    // What the events are made of

    /** Sends at once if nothing waits; what the kernel does not take waits. */
    method WriteOrKeep(message: seq<Byte>, result: int)
      requires Wired() && result <= |message|
      modifies Repr(), poller`interest
      ensures Wired() && View() == C.AfterSend(old(View()), message, result)
      ensures history == old(history) && state == old(state) && fresh(Repr() - old(Repr()))
    {
      hide P.Next, P.Channel.ListedIn, Buffer.Contents, Buffer.Valid, TcpConnection.View, C.IsWriting;
      var nwrote := TryWrite(message, result);
      if nwrote < |message| {
        AwaitWritable(message[nwrote..]);
      }
    }

    /** Writes directly if nothing is waiting; an error counts as nothing written. */
    method TryWrite(message: seq<Byte>, result: int) returns (nwrote: nat)
      requires Wired() && result <= |message|
      modifies this`wire, this`accepted
      ensures Wired() && nwrote <= |message|
      ensures nwrote == if !C.IsWriting(old(View())) && old(View()).output == [] && result >= 0 then result else 0
      ensures View() == old(View()).(wire := old(View()).wire + message[..nwrote],
                                     accepted := old(View()).accepted + message)
    {
      hide P.Next, Buffer.Contents, Buffer.Valid;
      nwrote := 0;
      if !channel.IsWriting() && outputBuffer.ReadableBytes() == 0 {
        if result >= 0 {
          nwrote := result;
        }
        wire := wire + message[..nwrote];
      }
      accepted := accepted + message;
    }

    /** What the kernel did not take waits in the output buffer, with write interest on. */
    method AwaitWritable(rest: seq<Byte>)
      requires Wired()
      modifies Repr() - {this}, poller`interest
      ensures Wired() && unchanged(this) && View() == C.AfterAwait(old(View()), rest)
      ensures fresh(Repr() - old(Repr()))
    {
      hide P.Next, Buffer.Contents, Buffer.Valid;
      outputBuffer.Append(rest);
      if !channel.IsWriting() {
        channel.EnableWriting(poller);
      }
    }

    method ReadAndDecode(incoming: seq<Byte>, result: int) returns (messages: seq<Codec.Message>)
      requires Wired() && C.Enabled(View(), C.Readable(incoming, result))
      requires result <= inputBuffer.WritableBytes() + EXTRA_SIZE
      modifies Repr(), poller`interest
      ensures Wired() && View() == C.AfterRead(old(View()), incoming, result) && history == old(history)
      ensures delivered == old(delivered) + messages && fresh(Repr() - old(Repr()))
    {
      hide P.Next, P.Channel.ListedIn, Codec.Parse, Buffer.Contents, Buffer.Valid;
      messages := [];
      FillInput(incoming, result);
      if result > 0 {
        var shutdown;
        messages, shutdown := DecodeInput();
        if shutdown {
          var _ := Disconnect(true);
        }
      } else if result == 0 {
        CloseChannel();
      }
    }

    method FillInput(incoming: seq<Byte>, result: int)
      requires Wired() && result <= |incoming| && result <= inputBuffer.WritableBytes() + EXTRA_SIZE
      modifies inputBuffer, inputBuffer.storage
      ensures Wired() && fresh(Repr() - old(Repr()))
      ensures View() == old(View()).(input := old(View()).input + if result < 0 then [] else incoming[..result])
    {
      hide P.Next, Buffer.Contents, Buffer.Valid;
      inputBuffer.ReadFd(incoming, result);
    }

    method DecodeInput() returns (messages: seq<Codec.Message>, shutdown: bool)
      requires Wired()
      modifies inputBuffer, this`delivered
      ensures Wired() && Repr() == old(Repr()) && delivered == old(delivered) + messages
      ensures var p := Codec.Parse(old(View()).input);
              && View() == old(View()).(input := p.rest, delivered := old(delivered) + p.messages)
              && messages == p.messages && shutdown == p.bad
    {
      hide P.Next, Codec.Parse, Buffer.Contents, Buffer.Valid;
      messages, shutdown := Codec.OnMessage(inputBuffer);
      delivered := delivered + messages;
    }

    method DrainOutput(result: int)
      requires Wired() && C.Enabled(View(), C.Writable(result))
      modifies Repr(), poller`interest
      ensures Wired() && View() == C.AfterWrite(old(View()), result) && history == old(history)
      ensures fresh(Repr() - old(Repr()))
    {
      hide P.Next, Buffer.Contents, Buffer.Valid;
      NewOrAdded();
      if channel.IsWriting() {
        if result > 0 {
          wire := wire + outputBuffer.Peek(result);
          outputBuffer.Retrieve(result);
          if outputBuffer.ReadableBytes() == 0 {
            channel.DisableWriting(poller);
            if state == C.Disconnected {
              ShutWriteSide();
            }
          }
        }
      }
    }

    /** Every event of the channel is disabled, in the poller too. */
    method CloseChannel()
      requires Wired()
      modifies this`detached, channel, poller`interest
      ensures Wired() && View() == C.AfterClose(old(View())) && Repr() == old(Repr())
      ensures poller.View() == P.Next(old(poller.View()), P.DisableAll(channel.fd))
    {
      hide P.Next, Buffer.Contents, Buffer.Valid;
      NewOrAdded();
      channel.DisableAllEvents(poller);
      detached := true;
    }

    method Disconnect(inLoop: bool) returns (queued: bool)
      requires Wired()
      modifies this`state, this`fins
      ensures Wired() && queued == (old(state) == C.Connected && !inLoop) && Repr() == old(Repr())
      ensures View() == C.Next(old(View()), if inLoop then C.Shutdown else C.ShutdownElsewhere)
    {
      hide P.Next, Buffer.Contents, Buffer.Valid;
      queued := false;
      if state == C.Connected {
        state := C.Disconnected;
        if inLoop {
          ShutWriteSide();
        } else {
          queued := true;
        }
      }
    }

    method ShutWriteSide()
      requires Wired()
      modifies this`fins
      ensures Wired() && View() == C.AfterShutdownInLoop(old(View())) && Repr() == old(Repr())
    {
      hide P.Next, Buffer.Contents, Buffer.Valid;
      if !channel.IsWriting() {
        fins := fins + [wire];
      }
    }

    /** Disables every event of the channel and removes it from the poller. */
    method DisableAndRemove()
      requires Wired() && P.Enabled(P.Next(poller.View(), P.DisableAll(channel.fd)), P.Remove(channel.fd))
      modifies poller`interest, channel
      ensures Wired() && channel.events == {} && channel.index == P.NEW
      ensures poller.View() == P.Next(P.Next(old(poller.View()), P.DisableAll(channel.fd)), P.Remove(channel.fd))
    {
      hide P.Next, Buffer.Valid;
      channel.DisableAllEvents(poller);
      assert poller.View().channels[channel.fd] == P.Registered(channel.events, channel.index);
      poller.RemoveChannel(channel);
    }
  }
}
