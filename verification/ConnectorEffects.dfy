/** What each event does to the connector, answer by answer. */
module ConnectorEffects {
  import opened Bytes
  import opened ConnectorSpec
  import opened ConnectorProofs
  import P = Poller

  /**
   * One attempt, from one state to another: while the connect is under way its descriptor is watched by a channel; if
   * it can be tried again the descriptor is closed and one timer more waits for the pause that was next, which doubles
   * up to half a minute; after any other error the descriptor is closed, and that is all.
   */
  predicate AttemptMade(s: State, t: State, a: Attempt) {
    && t.made == s.made + [a.fd] && t.handed == s.handed && t.connect == s.connect
    && (t.functors, t.due, t.cancels) == (s.functors, s.due, s.cancels)
    && (t.gaveUp <==> a.errno !in {NoError, EInProgress, EIntr, EIsConn} &&
                      a.errno !in {EAgain, EAddrInUse, EAddrNotAvail, EConnRefused, ENetUnreach})
    && if a.errno in {NoError, EInProgress, EIntr, EIsConn} then
         && t.state == Connecting && t.channel == Some(a.fd) && t.watching && t.closed == s.closed
         && (t.timers, t.created, t.delays, t.retryDelayMs) == (s.timers, s.created, s.delays, s.retryDelayMs)
       else
         && t.state == Disconnected && (t.channel, t.watching) == (s.channel, s.watching)
         && t.closed == s.closed + [a.fd]
         && if a.errno in {EAgain, EAddrInUse, EAddrNotAvail, EConnRefused, ENetUnreach} then
              && t.timers == s.timers + {s.created} && t.created == s.created + 1
              && t.delays == s.delays + [s.retryDelayMs]
              && t.retryDelayMs == if s.retryDelayMs * 2 < 30000 then s.retryDelayMs * 2 else 30000
            else
              (t.timers, t.created, t.delays, t.retryDelayMs) == (s.timers, s.created, s.delays, s.retryDelayMs)
  }

  /** The errors under which the connect is under way. */
  lemma UnderWay(errno: Errno)
    ensures OutcomeOf(errno) == Proceeding <==> errno in {NoError, EInProgress, EIntr, EIsConn}
    ensures OutcomeOf(errno) == Retryable <==> errno in {EAgain, EAddrInUse, EAddrNotAvail, EConnRefused, ENetUnreach}
  {
  }

  /** Each attempt that is made does that: of a start, a restart, a queued start and a retry timer. */
  lemma StartEffect(s: State, a: Attempt)
    requires s.state == Disconnected
    ensures AttemptMade(s.(connect := true), Next(s, Start(true, a)), a)
  {
  }

  lemma RestartEffect(s: State, a: Attempt)
    ensures AttemptMade(s.(state := Disconnected, connect := true, retryDelayMs := 500, delays := []),
                        Next(s, Restart(a)), a)
  {
  }

  lemma TimerEffect(s: State, id: nat, a: Attempt)
    requires Inv(s) && id in s.due
    ensures var called := s.(due := s.due - {id});
            if s.connect then AttemptMade(called, Next(s, TimerFires(id, a)), a)
            else Next(s, TimerFires(id, a)) == called
  {
    hide Settled, Doubling;
  }

  /** The queue of the loop is served in its order: a reset lets the channel go, a start attempts if it is wanted. */
  lemma FunctorEffect(s: State, a: Attempt)
    requires Inv(s) && s.due == {} && s.functors != []
    ensures var t, rest := Next(s, RunFunctor(a)), s.(functors := s.functors[1..]);
            if s.functors[0] == QueuedReset then t == rest.(channel := None)
            else if s.connect then AttemptMade(rest, t, a)
            else t == rest
  {
    hide Settled, Doubling;
  }

  /** A start from another thread is wanted at once and made later. */
  lemma QueuedStartEffect(s: State, a: Attempt)
    ensures Next(s, Start(false, a)) ==
            s.(connect := true, functors := s.functors + [QueuedStart], gaveUp := false)
  {
  }

  /** After a stop no connection is wanted; the last timer made is taken out, or will be. */
  lemma StopEffect(s: State, inLoop: bool)
    ensures var last := if s.created == 0 then {} else {s.created - 1};
            Next(s, Stop(inLoop)) ==
            if inLoop then s.(connect := false, timers := s.timers - last)
            else s.(connect := false, cancels := s.cancels + last)
  {
  }

  /** A batch takes waiting timers out to call them; a cancellation for another thread takes its timer out. */
  lemma TimersEffect(s: State, ids: set<nat>, id: nat)
    requires s.due == {} && ids <= s.timers && id in s.cancels
    ensures Next(s, BatchBegins(ids)) == s.(timers := s.timers - ids, due := ids)
    ensures Next(s, RunCancel(id)) == s.(timers := s.timers - {id}, cancels := s.cancels - {id})
  {
  }

  /** The channel is silenced and its reset queued; the descriptor is no longer held. */
  predicate Released(s: State, t: State) {
    && t.functors == [QueuedReset] && !t.watching && t.channel == s.channel && t.made == s.made
    && (t.connect, t.due, t.cancels, t.gaveUp) == (s.connect, s.due, s.cancels, s.gaveUp)
  }

  /**
   * The asserts fail whatever the state: a start that does not come disconnected, a connect under way that finds a
   * channel, and an error that is reported to a connector at rest or without a channel.
   */
  lemma FaultsAreNoticed(s: State, a: Attempt, answer: Answer)
    ensures Next(s, Start(true, a)).faulty <==>
            s.faulty || s.state != Disconnected
            || (a.errno in {NoError, EInProgress, EIntr, EIsConn} && s.channel.Some?)
    ensures s.due == {} && s.watching ==>
              (Next(s, ChannelEvent({P.Err}, answer)).faulty <==> s.faulty || s.state != Connecting || s.channel.None?)
  {
    StartFaults(s, a);
    hide AfterStartInLoop, AfterHandleError, P.Dispatch, AfterCalls;
    CallsOf({P.Err});
    if s.channel.Some? {
      CallsInTurn(s, answer);
    } else {
      NoChannelFaults(s, answer);
    }
    ErrorFaults(s);
  }

  lemma StartFaults(s: State, a: Attempt)
    ensures AfterStartInLoop(s.(connect := true), a).faulty <==>
            s.faulty || s.state != Disconnected
            || (a.errno in {NoError, EInProgress, EIntr, EIsConn} && s.channel.Some?)
  {
    UnderWay(a.errno);
    hide OutcomeOf;
  }

  lemma NoChannelFaults(s: State, answer: Answer)
    requires s.channel.None?
    ensures AfterCalls(s, [P.ErrorCallback], answer) == AfterHandleError(s)
  {
    assert [P.ErrorCallback][..0] == [];
    assert AfterCalls(s, [P.ErrorCallback][..0], answer) == s;
  }

  lemma ErrorFaults(s: State)
    ensures AfterHandleError(s).faulty <==> s.faulty || s.state != Connecting || s.channel.None?
  {
  }

  /** The descriptor is closed, and one timer more waits exactly if a connection is wanted. */
  predicate TriedAgain(s: State, t: State, fd: int) {
    && t.state == Disconnected && t.closed == s.closed + [fd] && t.handed == s.handed
    && if s.connect then
         && t.timers == s.timers + {s.created} && t.created == s.created + 1
         && t.delays == s.delays + [s.retryDelayMs]
         && t.retryDelayMs == if s.retryDelayMs * 2 < 30000 then s.retryDelayMs * 2 else 30000
       else (t.timers, t.created, t.delays, t.retryDelayMs) == (s.timers, s.created, s.delays, s.retryDelayMs)
  }

  /**
   * What an event of the channel comes to: after an error the descriptor is closed and tried again; if it is writable,
   * that happens too if the socket has an error or is connected to itself, and else it goes to the callback, and is not
   * closed, if a connection is still wanted, and is closed if not.
   */
  lemma ChannelEffect(s: State, revents: P.Mask, answer: Answer)
    requires Inv(s) && s.due == {} && s.watching
    ensures s.channel.Some?
    ensures var t, fd := Next(s, ChannelEvent(revents, answer)), s.channel.value;
            if P.Err in revents || P.Nval in revents then Released(s, t) && TriedAgain(s, t, fd)
            else if P.Out in revents then
              && Released(s, t)
              && if answer.error || answer.selfConnect then TriedAgain(s, t, fd)
                 else
                   && t.state == Connected
                   && (t.timers, t.created, t.delays, t.retryDelayMs)
                      == (s.timers, s.created, s.delays, s.retryDelayMs)
                   && (if s.connect then t.handed == s.handed + [fd] && t.closed == s.closed
                       else t.handed == s.handed && t.closed == s.closed + [fd])
            else t == s
  {
    hide AfterCalls, AfterHandleError, AfterHandleWrite, P.Dispatch, Inv, Next, Released, TriedAgain;
    OneEventOneRemoval(s, revents, answer);
    Watched(s, ChannelEvent(revents, answer));
    ErrorEffect(s);
    WriteEffect(s, answer);
  }

  lemma Watched(s: State, e: Event)
    requires Inv(s) && e.ChannelEvent? && Enabled(s, e)
    ensures s.state == Connecting && s.channel.Some? && s.functors == []
  {
    hide Settled, Doubling;
  }

  lemma ErrorEffect(s: State)
    requires s.state == Connecting && s.channel.Some? && s.functors == []
    ensures Released(s, AfterHandleError(s)) && TriedAgain(s, AfterHandleError(s), s.channel.value)
  {
    assert [] + [QueuedReset] == [QueuedReset];
  }

  lemma WriteEffect(s: State, answer: Answer)
    requires s.state == Connecting && s.channel.Some? && s.functors == []
    ensures var t, fd := AfterHandleWrite(s, answer), s.channel.value;
            && Released(s, t)
            && if answer.error || answer.selfConnect then TriedAgain(s, t, fd)
               else
                 && t.state == Connected
                 && (t.timers, t.created, t.delays, t.retryDelayMs) == (s.timers, s.created, s.delays, s.retryDelayMs)
                 && (if s.connect then t.handed == s.handed + [fd] && t.closed == s.closed
                     else t.handed == s.handed && t.closed == s.closed + [fd])
  {
    assert [] + [QueuedReset] == [QueuedReset];
  }
}
