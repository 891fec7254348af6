/** The connector object: its channel in the poller, and the handlers that make, watch, close and hand over sockets. */
module Connectors {
  import opened Bytes
  import opened ConnectorSpec
  import opened ConnectorProofs
  import opened ConnectorEffects
  import P = Poller

  /** A channel with events is registered for writing; one without any is unregistered, and only waits for its reset. */
  ghost predicate InPoller(channel: P.Channel?, poller: P.EPoller)
    reads channel, poller, poller.Objects()
  {
    && poller.Valid()
    && (channel != null ==>
          if channel.events == {} then channel.index == P.NEW
          else channel.events == P.WRITE && channel.ListedIn(poller))
  }

  /** A new channel, registered for writing. */
  method OpenWatched(poller: P.EPoller, fd: int) returns (c: P.Channel)
    requires InPoller(null, poller) && fd !in poller.channels
    modifies poller
    ensures InPoller(c, poller) && c.fd == fd && c.events == P.WRITE && fresh(c)
    ensures poller.interest == old(poller.interest)[fd := P.WRITE]
  {
    hide P.Next;
    OpenAndWatch(poller.View(), fd);
    c := poller.NewChannel(fd);
    c.EnableWriting(poller);
    assert {} + P.WRITE == P.WRITE;
  }

  class Connector {
    const poller: P.EPoller
    var connect: bool
    var state: ConnectState
    var channel: P.Channel?
    var retryDelayMs: nat
    // What the loop and the timer queue hold for the connector
    var functors: seq<Functor>
    var timers: set<nat>
    var due: set<nat>
    var cancels: set<nat>
    var created: nat
    /** The descriptors made, closed, and handed to the callback. */
    var made: seq<int>
    var closed: seq<int>
    var handed: seq<int>
    ghost var delays: seq<nat>
    ghost var gaveUp: bool
    ghost var history: seq<Event>

    ghost predicate Attached()
      reads this, channel, poller, poller.Objects()
    {
      InPoller(channel, poller)
    }

    ghost function View(): State
      reads this, channel
    {
      State(state, connect, if channel == null then None else Some(channel.fd), channel != null && channel.events != {},
            retryDelayMs, functors, timers, due, cancels, created, made, closed, handed, delays, gaveUp, false)
    }

    /** The state is the one its history leads to. */
    ghost predicate Valid()
      reads this, channel, poller, poller.Objects()
    {
      Attached() && Legal(INITIAL, history) && View() == Run(INITIAL, history)
    }

    /** What may happen next, in the order the connector relies on. */
    ghost predicate Accepts(e: Event)
      reads this, channel, poller, poller.Objects()
    {
      Valid() && Enabled(View(), e) && Orderly(View(), e)
    }

    constructor (poller: P.EPoller)
      requires poller.Valid()
      ensures Valid() && View() == INITIAL && this.poller == poller
    {
      this.poller := poller;
      connect, state, channel, retryDelayMs := false, Disconnected, null, INIT_RETRY_DELAY_MS;
      functors, timers, due, cancels, created := [], {}, {}, {}, 0;
      made, closed, handed, delays, gaveUp, history := [], [], [], [], false, [];
    }

    ghost method Record(before: State, e: Event)
      requires Attached() && Legal(INITIAL, history) && before == Run(INITIAL, history)
      requires Enabled(before, e) && Orderly(before, e) && View() == Next(before, e)
      modifies this`history
      ensures Valid() && history == old(history) + [e] && View() == old(View())
    {
      hide Next, Orderly, Enabled, Legal, Run;
      RunPush(INITIAL, history, e);
      history := history + [e];
    }

    /**
     * In every state the object reaches, no assertion has failed, and sockets, pauses and progress are accounted for.
     */
    lemma Accounted()
      requires Valid()
      ensures Inv(View())
    {
      AlwaysInv(history);
    }

    // Sockets and their channel

    /** Closes a descriptor; none is closed while the kernel still watches it for this loop. */
    method Close(fd: int)
      requires fd !in poller.interest
      modifies this`closed
      ensures closed == old(closed) + [fd]
    {
      closed := closed + [fd];
    }

    /** The socket gets a channel: the interest list grows by exactly its descriptor, watched for writing. */
    method StartConnecting(fd: int)
      requires Attached() && channel == null && fd !in poller.channels
      modifies this`state, this`channel, poller
      ensures Attached() && View() == AfterConnecting(old(View()), fd)
      ensures poller.interest == old(poller.interest)[fd := P.WRITE] && channel != null && fresh(channel)
    {
      hide P.Next, InPoller;
      assert forall o: object :: o in poller.Objects() ==> o != this;
      state := Connecting;
      var c := OpenWatched(poller, fd);
      assert forall o: object :: o in poller.Objects() ==> o != this;
      channel := c;
    }

    /** The channel is silenced: exactly its descriptor leaves the interest list, and it makes no call again. */
    method RemoveAndResetChannel() returns (fd: int)
      requires Attached() && channel != null && channel.events != {}
      modifies this`functors, channel, poller
      ensures Attached() && View() == AfterRemove(old(View())) && channel.fd == fd
      ensures poller.interest == old(poller.interest) - {fd} && channel.index == P.NEW
    {
      hide P.Next;
      Silence(poller.View(), channel.fd);
      channel.DisableAllEvents(poller);
      fd := channel.fd;
      poller.ForgetChannel(channel);
      functors := functors + [QueuedReset];
    }

    /**
     * The socket is closed, unwatched; while a connection is wanted, one more timer waits for the pause that was
     * next.
     */
    method Retry(fd: int)
      requires Attached() && fd !in poller.interest
      modifies this`closed, this`state, this`timers, this`created, this`retryDelayMs, this`delays
      ensures Attached() && View() == AfterRetry(old(View()), fd)
    {
      hide InPoller, P.Next;
      assert forall o: object :: o in poller.Objects() ==> o != this;
      Close(fd);
      state := Disconnected;
      if connect {
        RunAfterDelay();
      }
    }

    method RunAfterDelay()
      modifies this`timers, this`created, this`retryDelayMs, this`delays
      ensures timers == old(timers) + {old(created)} && created == old(created) + 1
      ensures delays == old(delays) + [old(retryDelayMs)]
      ensures retryDelayMs == Min(old(retryDelayMs) * 2, MAX_RETRY_DELAY_MS)
    {
      timers, created, delays := timers + {created}, created + 1, delays + [retryDelayMs];
      retryDelayMs := Min(retryDelayMs * 2, MAX_RETRY_DELAY_MS);
    }

    /** The outcome of the attempt decides whether its descriptor is watched, or closed without ever having been. */
    method Connect(a: Attempt)
      requires Attached() && connect && a.fd !in poller.channels
      requires OutcomeOf(a.errno) == Proceeding ==> channel == null
      modifies this, poller
      ensures Attached() && View() == AfterConnect(old(View()), a) && history == old(history)
      ensures poller.interest == if OutcomeOf(a.errno) == Proceeding then old(poller.interest)[a.fd := P.WRITE]
                                 else old(poller.interest)
    {
      hide AfterRetry, AfterConnecting, Attempted, InPoller;
      Note(a);
      Conclude(a);
    }

    /** What `connect` reported decides. */
    method Conclude(a: Attempt)
      requires Attached() && connect && a.fd !in poller.channels
      requires OutcomeOf(a.errno) == Proceeding ==> channel == null
      modifies this, poller
      ensures Attached() && history == old(history)
      ensures View() == match OutcomeOf(a.errno)
                        case Proceeding => AfterConnecting(old(View()), a.fd)
                        case Retryable => AfterRetry(old(View()), a.fd)
                        case Fatal => old(View()).(closed := old(closed) + [a.fd])
      ensures poller.interest == if OutcomeOf(a.errno) == Proceeding then old(poller.interest)[a.fd := P.WRITE]
                                 else old(poller.interest)
    {
      hide AfterRetry, AfterConnecting, InPoller, OutcomeOf;
      Unwatched(poller, channel, a.fd);
      match OutcomeOf(a.errno)
      case Proceeding => StartConnecting(a.fd);
      case Retryable => Retry(a.fd);
      case Fatal => Discard(a.fd);
    }

    method Discard(fd: int)
      requires Attached() && fd !in poller.interest
      modifies this`closed
      ensures Attached() && View() == old(View()).(closed := old(closed) + [fd])
    {
      hide InPoller, P.Next;
      assert forall o: object :: o in poller.Objects() ==> o != this;
      Close(fd);
    }

    method Note(a: Attempt)
      requires Attached()
      modifies this`made, this`gaveUp
      ensures Attached() && View() == Attempted(old(View()), a) && (connect, channel) == old((connect, channel))
    {
      hide InPoller, P.Next;
      assert forall o: object :: o in poller.Objects() ==> o != this;
      made := made + [a.fd];
      gaveUp := OutcomeOf(a.errno) == Fatal;
    }

    /** Attempts a connection if one is wanted. */
    method StartInLoop(a: Attempt)
      requires Attached() && state == Disconnected && (connect ==> a.fd !in poller.channels)
      requires connect && OutcomeOf(a.errno) == Proceeding ==> channel == null
      modifies this, poller
      ensures Attached() && View() == AfterStartInLoop(old(View()), a) && history == old(history)
      ensures poller.interest ==
              if old(connect) && OutcomeOf(a.errno) == Proceeding then old(poller.interest)[a.fd := P.WRITE]
              else old(poller.interest)
    {
      hide AfterConnect, InPoller;
      if connect {
        Connect(a);
      }
    }

    /** The socket leaves the interest list before it is handed over, closed, or closed to be tried again. */
    method HandleWrite(answer: Answer)
      requires Attached() && (state == Connecting ==> channel != null && channel.events != {})
      modifies this, channel, poller
      ensures Attached() && View() == AfterHandleWrite(old(View()), answer) && history == old(history)
      ensures channel == old(channel)
      ensures poller.interest == if old(state) == Connecting then old(poller.interest) - {old(channel).fd}
                                 else old(poller.interest)
    {
      hide InPoller, AfterRetry, P.Next;
      if state == Connecting {
        var fd := RemoveAndResetChannel();
        if answer.error {
          Retry(fd);
        } else if answer.selfConnect {
          Retry(fd);
        } else {
          Settle(fd);
        }
      }
    }

    /** The attempt has succeeded: the socket goes to the callback, or is closed if nobody wants it any more. */
    method Settle(fd: int)
      requires Attached() && fd !in poller.interest
      modifies this`state, this`handed, this`closed
      ensures Attached()
      ensures View() == if connect then old(View()).(state := Connected, handed := old(handed) + [fd])
                        else old(View()).(state := Connected, closed := old(closed) + [fd])
    {
      hide InPoller, P.Next;
      assert forall o: object :: o in poller.Objects() ==> o != this;
      state := Connected;
      if connect {
        handed := handed + [fd];
      } else {
        Close(fd);
      }
    }

    method HandleError()
      requires Attached() && state == Connecting && channel != null && channel.events != {}
      modifies this, channel, poller
      ensures Attached() && View() == AfterHandleError(old(View())) && history == old(history)
      ensures channel == old(channel) && poller.interest == old(poller.interest) - {channel.fd}
    {
      hide InPoller, AfterRetry, P.Next;
      var fd := RemoveAndResetChannel();
      Retry(fd);
    }

    /** The channel goes away; it has long left the poller, so nothing can call it any more. */
    method ResetChannel()
      requires Attached() && (channel != null ==> channel.events == {} && channel.index == P.NEW)
      modifies this`channel
      ensures Attached() && View() == old(View()).(channel := None, watching := false)
    {
      channel := null;
    }

    // What the caller, the loop and the timer queue do

    /** Starts at once, or through the queue of the loop. */
    method Start(inLoop: bool, a: Attempt)
      requires Accepts(Event.Start(inLoop, a)) && (inLoop ==> a.fd !in poller.channels)
      modifies this, channel, poller
      ensures Valid() && history == old(history) + [Event.Start(inLoop, a)]
      ensures View() == Next(old(View()), Event.Start(inLoop, a))
      ensures if inLoop then AttemptMade(old(View()).(connect := true), View(), a)
              else View() == old(View()).(connect := true, functors := old(functors) + [QueuedStart], gaveUp := false)
      ensures poller.interest ==
              if inLoop && a.errno in {NoError, EInProgress, EIntr, EIsConn} then old(poller.interest)[a.fd := P.WRITE]
              else old(poller.interest)
    {
      hide Legal, Run, AfterStartInLoop, AttemptMade, InPoller, Settled, Doubling, OutcomeOf;
      ghost var before := View();
      assert forall o: object :: o in poller.Objects() ==> o != this;
      Accounted();
      if inLoop {
        StartEffect(before, a);
      }
      UnderWay(a.errno);
      connect := true;
      if inLoop {
        StartInLoop(a);
      } else {
        functors, gaveUp := functors + [QueuedStart], false;
      }
      Record(before, Event.Start(inLoop, a));
    }

    /** Starts anew with the shortest pause. */
    method Restart(a: Attempt)
      requires Accepts(Event.Restart(a)) && a.fd !in poller.channels
      modifies this, channel, poller
      ensures Valid() && history == old(history) + [Event.Restart(a)] && View() == Next(old(View()), Event.Restart(a))
    {
      hide Legal, Run, AfterStartInLoop, InPoller, Settled, Doubling, OutcomeOf;
      ghost var before := View();
      assert forall o: object :: o in poller.Objects() ==> o != this;
      Accounted();
      Renew();
      StartInLoop(a);
      Record(before, Event.Restart(a));
    }

    method Renew()
      requires Attached()
      modifies this`state, this`retryDelayMs, this`delays, this`connect
      ensures Attached() && connect && state == Disconnected
      ensures View() == old(View()).(state := Disconnected, retryDelayMs := INIT_RETRY_DELAY_MS, delays := [],
                                     connect := true)
    {
      hide InPoller, P.Next;
      assert forall o: object :: o in poller.Objects() ==> o != this;
      state := Disconnected;
      retryDelayMs, delays := INIT_RETRY_DELAY_MS, [];
      connect := true;
    }

    /** `cancel` of the timer remembered: in the timer queue now, or queued for it. */
    method CancelRemembered(inLoop: bool)
      requires Attached()
      modifies this`timers, this`cancels
      ensures Attached()
      ensures View() == var s := old(View());
                        if inLoop then s.(timers := s.timers - Remembered(s))
                        else s.(cancels := s.cancels + Remembered(s))
    {
      hide InPoller, P.Next;
      assert forall o: object :: o in poller.Objects() ==> o != this;
      if created > 0 {
        if inLoop {
          timers := timers - {created - 1};
        } else {
          cancels := cancels + {created - 1};
        }
      }
    }

    /** Nothing is wanted any more; the timer remembered is cancelled at once, or when the loop comes to it. */
    method Stop(inLoop: bool)
      requires Accepts(Event.Stop(inLoop))
      modifies this, channel, poller
      ensures Valid() && history == old(history) + [Event.Stop(inLoop)]
      ensures View() == Next(old(View()), Event.Stop(inLoop))
    {
      hide Legal, Run, AfterStartInLoop, InPoller, Settled, Doubling, OutcomeOf;
      ghost var before := View();
      assert forall o: object :: o in poller.Objects() ==> o != this;
      connect := false;
      CancelRemembered(inLoop);
      Record(before, Event.Stop(inLoop));
    }

    /** The loop runs the first functor queued: the reset of the channel, or a start. */
    method RunFunctor(a: Attempt)
      requires Accepts(Event.RunFunctor(a)) && (functors[0] == QueuedStart && connect ==> a.fd !in poller.channels)
      modifies this, channel, poller
      ensures Valid() && history == old(history) + [Event.RunFunctor(a)]
      ensures View() == Next(old(View()), Event.RunFunctor(a))
    {
      hide Legal, Run, AfterStartInLoop, InPoller, Settled, Doubling, OutcomeOf;
      ghost var before := View();
      assert forall o: object :: o in poller.Objects() ==> o != this;
      Accounted();
      QueueMoves(functors);
      Silenced(channel, poller);
      var functor := functors[0];
      functors := functors[1..];
      match functor {
        case QueuedReset => ResetChannel();
        case QueuedStart => StartInLoop(a);
      }
      Record(before, Event.RunFunctor(a));
    }

    /** The loop cancels a timer for another thread. */
    method RunCancel(id: nat)
      requires Accepts(Event.RunCancel(id))
      modifies this, channel, poller
      ensures Valid() && history == old(history) + [Event.RunCancel(id)]
      ensures View() == Next(old(View()), Event.RunCancel(id))
    {
      hide Legal, Run, AfterStartInLoop, InPoller, Settled, Doubling, OutcomeOf;
      ghost var before := View();
      assert forall o: object :: o in poller.Objects() ==> o != this;
      Accounted();
      timers, cancels := timers - {id}, cancels - {id};
      Record(before, Event.RunCancel(id));
    }

    /** The timer queue takes expired timers out to call them. */
    method BeginBatch(ids: set<nat>)
      requires Accepts(BatchBegins(ids))
      modifies this, channel, poller
      ensures Valid() && history == old(history) + [BatchBegins(ids)] && View() == Next(old(View()), BatchBegins(ids))
    {
      hide Legal, Run, AfterStartInLoop, InPoller, Settled, Doubling, OutcomeOf;
      ghost var before := View();
      assert forall o: object :: o in poller.Objects() ==> o != this;
      Accounted();
      timers, due := timers - ids, ids;
      Record(before, BatchBegins(ids));
    }

    /** A retry timer of the batch is called. */
    method FireTimer(id: nat, a: Attempt)
      requires Accepts(TimerFires(id, a)) && (connect ==> a.fd !in poller.channels)
      modifies this, channel, poller
      ensures Valid() && history == old(history) + [TimerFires(id, a)] && View() == Next(old(View()), TimerFires(id, a))
    {
      hide Legal, Run, AfterStartInLoop, InPoller, Settled, Doubling, OutcomeOf;
      ghost var before := View();
      assert forall o: object :: o in poller.Objects() ==> o != this;
      Accounted();
      due := due - {id};
      StartInLoop(a);
      Record(before, TimerFires(id, a));
    }

    /** The loop reports an event of the channel; the callbacks that are set run in the order of the channel. */
    method HandleEvent(revents: P.Mask, answer: Answer)
      requires Accepts(ChannelEvent(revents, answer))
      modifies this, channel, poller
      ensures Valid() && history == old(history) + [ChannelEvent(revents, answer)]
      ensures View() == Next(old(View()), ChannelEvent(revents, answer))
    {
      hide Legal, Run, AfterHandleError, AfterHandleWrite, InPoller, Settled, Doubling, OutcomeOf;
      ghost var before := View();
      assert forall o: object :: o in poller.Objects() ==> o != this;
      Accounted();
      OneEventOneRemoval(before, revents, answer);
      if P.Err in revents || P.Nval in revents {
        ErrorKeeps(before);
        HandleError();
        NothingLeft(View(), answer);
      }
      if P.Out in revents {
        HandleWrite(answer);
      }
      Record(before, ChannelEvent(revents, answer));
    }
  }

  lemma Silenced(channel: P.Channel?, poller: P.EPoller)
    requires InPoller(channel, poller)
    ensures channel != null && channel.events == {} ==> channel.index == P.NEW
  {
  }

  lemma NothingLeft(s: State, answer: Answer)
    requires s.state != Connecting
    ensures AfterHandleWrite(s, answer) == s
  {
  }

  lemma Unwatched(poller: P.EPoller, channel: P.Channel?, fd: int)
    requires InPoller(channel, poller) && fd !in poller.channels
    ensures fd !in poller.interest
  {
    assert fd !in poller.View().channels;
  }

  lemma OpenAndWatch(s: P.Registry, fd: int)
    requires P.Mirror(s) && fd !in s.channels
    ensures P.Next(P.Next(s, P.Open(fd)), P.Enable(fd, P.WRITE)).interest == s.interest[fd := P.WRITE]
  {
    assert {} + P.WRITE == P.WRITE;
  }

  lemma Silence(s: P.Registry, fd: int)
    requires P.Mirror(s) && fd in s.channels && s.channels[fd].events != {}
    ensures P.Next(s, P.DisableAll(fd)).interest == s.interest - {fd}
    ensures P.Next(s, P.DisableAll(fd)).channels[fd] == P.Registered({}, P.NEW)
  {
  }
}
