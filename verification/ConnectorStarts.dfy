/** Which starts of the connector are safe: after any other, some orderly run fails an assertion. */
module ConnectorStarts {
  import opened Bytes
  import opened ConnectorSpec
  import opened ConnectorProofs
  import P = Poller

  const REACHED := Attempt(0, NoError)

  lemma Stay(s: State) returns (es: seq<Event>)
    ensures es == [] && Legal(s, es) && Run(s, es) == s
  {
    es := [];
  }

  lemma Go(s: State, es: seq<Event>, e: Event) returns (longer: seq<Event>)
    requires Legal(s, es) && Enabled(Run(s, es), e) && Orderly(Run(s, es), e)
    ensures Legal(s, longer) && Run(s, longer) == Next(Run(s, es), e) && longer == es + [e]
  {
    longer := es + [e];
    RunPush(s, es, e);
  }

  predicate Fails(s: State, es: seq<Event>) {
    Legal(s, es) && Run(s, es).faulty
  }

  /** A start that is still to come finds the connector at work and fails its assertion. */
  lemma LaterStartFails(s: State, es: seq<Event>) returns (longer: seq<Event>)
    requires Legal(s, es)
    requires var t := Run(s, es);
             && t.state != Disconnected
             && (t.due != {} || (t.functors != [] && t.functors[0] == QueuedStart)
                 || (t.timers != {} && QueuedReset !in t.functors))
    ensures Fails(s, longer)
  {
    hide Legal, Run;
    var t := Run(s, es);
    if t.due != {} {
      var id :| id in t.due;
      longer := Go(s, es, TimerFires(id, REACHED));
    } else if t.functors != [] && t.functors[0] == QueuedStart {
      longer := Go(s, es, RunFunctor(REACHED));
    } else {
      var id :| id in t.timers;
      longer := Go(s, es, BatchBegins({id}));
      longer := Go(s, longer, TimerFires(id, REACHED));
    }
  }

  /** The loop runs the queued reset, if there is one. */
  lemma RunReset(s: State) returns (es: seq<Event>)
    requires s.due == {}
    ensures Legal(s, es)
    ensures Run(s, es) == if s.functors != [] && s.functors[0] == QueuedReset
                          then s.(functors := s.functors[1..], channel := None)
                          else s
  {
    es := Stay(s);
    hide Legal, Run;
    if s.functors != [] && s.functors[0] == QueuedReset {
      es := Go(s, es, RunFunctor(REACHED));
    }
  }

  /** Disconnected, with the old channel gone and a connection wanted, and more than one start to come. */
  predicate TwoToCome(t: State) {
    && t.state == Disconnected && t.connect && t.channel.None? && QueuedReset !in t.functors
    && t.functors in {[], [QueuedStart], [QueuedStart, QueuedStart]}
    && t.timers !! t.due && |t.timers| + |t.due| + |t.functors| >= 2
  }

  /** One of the starts gets through, and another one fails. */
  lemma FirstOfTwoConnects(s: State, es: seq<Event>) returns (longer: seq<Event>)
    requires Legal(s, es) && TwoToCome(Run(s, es))
    ensures Fails(s, longer)
  {
    var t := Run(s, es);
    if t.due != {} {
      longer := TimerOfBatchConnects(s, es);
    } else if t.functors != [] {
      longer := QueuedStartConnects(s, es);
    } else {
      longer := FirstOfBatchConnects(s, es);
    }
  }

  lemma TimerOfBatchConnects(s: State, es: seq<Event>) returns (longer: seq<Event>)
    requires Legal(s, es) && TwoToCome(Run(s, es)) && Run(s, es).due != {}
    ensures Fails(s, longer)
  {
    hide Legal, Run;
    var id :| id in Run(s, es).due;
    longer := Go(s, es, TimerFires(id, REACHED));
    longer := LaterStartFails(s, longer);
  }

  lemma QueuedStartConnects(s: State, es: seq<Event>) returns (longer: seq<Event>)
    requires Legal(s, es) && TwoToCome(Run(s, es)) && Run(s, es).due == {} && Run(s, es).functors != []
    ensures Fails(s, longer)
  {
    hide Legal, Run;
    longer := Go(s, es, RunFunctor(REACHED));
    longer := LaterStartFails(s, longer);
  }

  lemma FirstOfBatchConnects(s: State, es: seq<Event>) returns (longer: seq<Event>)
    requires Legal(s, es) && TwoToCome(Run(s, es)) && Run(s, es).due == {} && Run(s, es).functors == []
    ensures Fails(s, longer)
  {
    hide Legal, Run;
    var all := Run(s, es).timers;
    var id :| id in all;
    longer := Go(s, es, BatchBegins(all));
    longer := Go(s, longer, TimerFires(id, REACHED));
    assert all == {id} + (all - {id}) && |all - {id}| > 0;
    longer := LaterStartFails(s, longer);
  }

  /** An error is reported to a connector that a restart has declared disconnected while its channel goes on. */
  lemma ErrorOnOldChannelFails(s: State) returns (es: seq<Event>)
    requires s.state != Connecting && s.watching && s.channel.Some? && s.due == {}
    ensures Fails(s, es)
  {
    es := Stay(s);
    hide Legal, Run;
    var answer := Answer(true, false);
    CallsOf({P.Err});
    CallsInTurn(s, answer);
    es := Go(s, es, ChannelEvent({P.Err}, answer));
  }

  lemma QueueWithStart(functors: seq<Functor>)
    requires InOrder(functors)
    ensures var longer := functors + [QueuedStart];
            && (longer[0] == QueuedReset <==> QueuedReset in functors)
            && (longer[0] == QueuedStart <==> QueuedReset !in functors)
            && (longer[0] == QueuedReset ==> longer[1..] in {[QueuedStart], [QueuedStart, QueuedStart]})
            && (longer[0] == QueuedStart ==> longer in {[QueuedStart], [QueuedStart, QueuedStart]})
            && (QueuedStart in functors ==>
                  [QueuedStart, QueuedStart] == if QueuedReset in functors then longer[1..] else longer)
  {
    assert [QueuedReset] + [QueuedStart] == [QueuedReset, QueuedStart];
    assert [QueuedReset, QueuedStart][1..] == [QueuedStart];
    assert [QueuedReset, QueuedStart] + [QueuedStart] == [QueuedReset, QueuedStart, QueuedStart];
    assert [QueuedReset, QueuedStart, QueuedStart][1..] == [QueuedStart, QueuedStart];
    assert [QueuedStart] + [QueuedStart] == [QueuedStart, QueuedStart] && [] + [QueuedStart] == [QueuedStart];
  }

  lemma UnsafeStartFails(s: State, e: Event) returns (es: seq<Event>)
    requires Inv(s) && (e.Start? || e.Restart?) && !SafeStart(s, e)
    ensures Fails(Next(s, e), es)
  {
    hide Settled, Doubling, InOrder;
    var t := Next(s, e);
    if t.faulty {
      es := Stay(t);
    } else if e.Start? && !e.inLoop {
      es := UnsafeQueuedStartFails(s, e);
    } else if s.state == Connecting {
      es := ErrorOnOldChannelFails(t);
    } else if t.state == Connecting {
      es := Stay(t);
      es := LaterStartFails(t, es);
    } else {
      es := UnsafeRetryFails(s, e);
    }
  }

  lemma UnsafeQueuedStartFails(s: State, e: Event) returns (es: seq<Event>)
    requires Inv(s) && e.Start? && !e.inLoop && !SafeStart(s, e)
    ensures Fails(Next(s, e), es)
  {
    hide Settled, Doubling, Legal, Run;
    var t := Next(s, e);
    QueueWithStart(s.functors);
    if t.due == {} {
      es := RunReset(t);
      if s.state == Disconnected {
        es := FirstOfTwoConnects(t, es);
      } else {
        es := LaterStartFails(t, es);
      }
    } else {
      es := Stay(t);
      es := FirstOfTwoConnects(t, es);
    }
  }

  lemma UnsafeRetryFails(s: State, e: Event) returns (es: seq<Event>)
    requires Inv(s) && ((e.Start? && e.inLoop && s.state == Disconnected) || (e.Restart? && s.state != Connecting))
    requires OutcomeOf(e.a.errno) == Retryable && !NoOtherStart(s)
    ensures Fails(Next(s, e), es)
  {
    hide Settled, Doubling, Legal, Run;
    var t := Next(s, e);
    if t.due == {} {
      es := RunReset(t);
    } else {
      es := Stay(t);
    }
    es := FirstOfTwoConnects(t, es);
  }

  lemma SoundIsNotFaulty(s: State)
    requires Inv(s)
    ensures !s.faulty
  {
  }

  /**
   * From any state the connector can be in, a start is followed by a failing assertion in some run that is orderly from
   * there on, at the start itself or later, if and only if it is not safe.
   */
  lemma SafeStartIff(s: State, e: Event)
    requires Inv(s) && (e.Start? || e.Restart?)
    ensures SafeStart(s, e) <==> forall es :: !Fails(Next(s, e), es)
  {
    hide Inv, SafeStart, Next;
    if SafeStart(s, e) {
      StartEventsKeep(s, e);
      forall es | Legal(Next(s, e), es)
        ensures !Fails(Next(s, e), es)
      {
        RunKeepsInv(Next(s, e), es);
        SoundIsNotFaulty(Run(Next(s, e), es));
      }
    } else {
      var es := UnsafeStartFails(s, e);
    }
  }

  /**
   * Whatever the kernel will answer, a start is safe exactly if the connector is disconnected, with nothing left to
   * come.
   */
  predicate Idle(s: State) {
    s.state == Disconnected && NoOtherStart(s) && s.channel.None?
  }

  lemma IdleIsSafeForEveryAnswer(s: State)
    ensures Idle(s) <==> forall a :: SafeStart(s, Start(true, a))
  {
    if !Idle(s) {
      assert OutcomeOf(NoError) == Proceeding && !SafeStart(s, Start(true, REACHED));
    }
  }

  /**
   * Stopping on the loop's thread leaves a retry timer to come exactly if the timer is in the batch being called, where
   * cancelling comes too late; so a start may follow at once exactly if it is not, and nothing else is left either.
   */
  lemma StopThenStartIff(s: State, a: Attempt)
    requires Inv(s)
    ensures Pending(Next(s, Stop(true))) == s.due
    ensures SafeStart(Next(s, Stop(true)), Start(true, a)) <==>
            && s.state == Disconnected
            && (OutcomeOf(a.errno) == Fatal || (s.due == {} && QueuedStart !in s.functors))
            && (OutcomeOf(a.errno) == Proceeding ==> s.channel.None?)
  {
    hide Settled, Doubling, OutcomeOf;
  }

  /**
   * A run that comes to it: a refused attempt, its timer in a batch, and a stop and a start by a callback before it.
   */
  lemma StopInBatchThenStartFails()
    ensures var es := [Start(true, Attempt(3, EConnRefused)), BatchBegins({0}), Stop(true)];
            && Legal(INITIAL, es) && Run(INITIAL, es).state == Disconnected && Run(INITIAL, es).due == {0}
            && var t := Next(Run(INITIAL, es), Start(true, Attempt(4, NoError)));
               !t.faulty && Enabled(t, TimerFires(0, REACHED)) && Next(t, TimerFires(0, REACHED)).faulty
  {
    var es := Stay(INITIAL);
    hide Legal, Run;
    es := Go(INITIAL, es, Start(true, Attempt(3, EConnRefused)));
    es := Go(INITIAL, es, BatchBegins({0}));
    es := Go(INITIAL, es, Stop(true));
    assert es == [Start(true, Attempt(3, EConnRefused)), BatchBegins({0}), Stop(true)];
  }

  /** A retry timer may fire at any moment but one: before the queued reset, when another attempt goes ahead. */
  lemma TimerFaultsIff(s: State, id: nat, a: Attempt)
    requires Inv(s) && Enabled(s, BatchBegins({id}))
    ensures Next(Next(s, BatchBegins({id})), TimerFires(id, a)).faulty <==>
            s.connect && OutcomeOf(a.errno) == Proceeding && QueuedReset in s.functors
  {
    hide Settled, Doubling, OutcomeOf;
  }

  /** The moment can come: a retry timer is pending together with the reset after every error. */
  lemma TimerAndResetPending()
    ensures var es := [Start(true, Attempt(3, NoError)), ChannelEvent({P.Err}, Answer(true, false))];
            Legal(INITIAL, es) && Run(INITIAL, es).timers == {0} && Run(INITIAL, es).functors == [QueuedReset]
  {
    var es := Stay(INITIAL);
    hide Legal, Run, Settled, Doubling, P.Dispatch;
    var start, error := Start(true, Attempt(3, NoError)), ChannelEvent({P.Err}, Answer(true, false));
    es := Go(INITIAL, es, start);
    AlwaysInv(es);
    OneEventOneRemoval(Next(INITIAL, start), {P.Err}, error.answer);
    es := Go(INITIAL, es, error);
    assert es == [start, error];
  }
}
