/** The queue of functors that other threads hand to a loop, and the wake-up protocol around its poll. */
module EventLoop {
  // The protocol as values

  /**
   * Where a functor was queued: by another thread, or on the loop's own thread in a callback, a functor, or neither.
   */
  datatype Origin = OtherThread | EventCallback | FunctorPhase | OutsideLoop
  datatype Functor = Functor(id: nat, origin: Origin)

  /** The loop is outside its loop, blocked in the poll, running event callbacks, or running functors. */
  datatype Stage = Stopped | Polling | Dispatching | Running

  datatype State = State(
    stage: Stage,
    pending: seq<Functor>,
    quit: bool,
    calling: bool,
    eventfd: nat,
    // The swapped batch and the functor of it that is next; whether the wake-up channel is active and still unread
    batch: seq<Functor>,
    next: nat,
    unread: bool,
    // Other threads between their push, or their quit, and their wake-up
    inFlight: set<nat>,
    quitters: nat,
    // History: everything pushed, and everything started
    pushed: seq<Functor>,
    started: seq<Functor>)

  datatype Event =
    | PushElsewhere
    | WakeElsewhere(id: nat)
    | QuitElsewhere
    | WakeAfterQuit
    | Start
    | PollReturns(reported: bool)
    | ReadWakeup
    | QueueOnLoop
    | QuitOnLoop
    | Swap
    | RunNext
    | Finish

  const INITIAL := State(Stopped, [], false, false, 0, [], 0, false, {}, 0, [], [])

  /**
   * The poll may report the wake-up channel while its counter is not zero, or return without doing so, interrupted or
   * with enough other descriptors; every reported channel is handled. The loop's own thread can queue and quit whenever
   * it is not blocked in the poll, so also while it is outside the loop.
   */
  predicate Enabled(s: State, e: Event) {
    match e
    case WakeElsewhere(id) => id in s.inFlight
    case WakeAfterQuit => s.quitters > 0
    case Start => s.stage == Stopped
    case PollReturns(reported) => s.stage == Polling && (reported ==> s.eventfd > 0)
    case ReadWakeup => s.stage == Dispatching && s.unread
    case QueueOnLoop => s.stage != Polling
    case QuitOnLoop => s.stage != Polling
    case Swap => s.stage == Dispatching && !s.unread
    case RunNext => s.stage == Running && s.next < |s.batch|
    case Finish => s.stage == Running && s.next >= |s.batch|
    case _ => true
  }

  /** The origin of what the loop's own thread queues at a stage. */
  function OriginAt(stage: Stage): Origin {
    match stage
    case Dispatching => EventCallback
    case Running => FunctorPhase
    case _ => OutsideLoop
  }

  function Pushed(s: State, origin: Origin): State {
    var f := Functor(|s.pushed|, origin);
    s.(pending := s.pending + [f], pushed := s.pushed + [f])
  }

  function Woken(s: State): State {
    s.(eventfd := s.eventfd + 1)
  }

  function Next(s: State, e: Event): State
    requires Enabled(s, e)
  {
    match e
    case PushElsewhere => Pushed(s, OtherThread).(inFlight := s.inFlight + {|s.pushed|})
    case WakeElsewhere(id) => Woken(s).(inFlight := s.inFlight - {id})
    case QuitElsewhere => s.(quit := true, quitters := s.quitters + 1)
    case WakeAfterQuit => Woken(s).(quitters := s.quitters - 1)
    case Start => s.(stage := Polling, quit := false)
    case PollReturns(reported) => s.(stage := Dispatching, unread := reported)
    case ReadWakeup => s.(eventfd := 0, unread := false)
    case QueueOnLoop =>
      var queued := Pushed(s, OriginAt(s.stage));
      if s.calling then Woken(queued) else queued
    case QuitOnLoop => s.(quit := true)
    case Swap => s.(stage := Running, batch := s.pending, next := 0, pending := [])
    case RunNext => s.(next := s.next + 1, started := s.started + [s.batch[s.next]])
    case Finish => s.(calling := false, stage := if s.quit then Stopped else Polling, batch := [], next := 0)
  }

  predicate Legal(s: State, es: seq<Event>)
    decreases |es|, 0
  {
    es == [] || (Legal(s, es[..|es| - 1]) && Enabled(Run(s, es[..|es| - 1]), es[|es| - 1]))
  }

  function Run(s: State, es: seq<Event>): State
    requires Legal(s, es)
    decreases |es|, 1
  {
    if es == [] then s else Next(Run(s, es[..|es| - 1]), es[|es| - 1])
  }

  lemma RunPush(s: State, es: seq<Event>, e: Event)
    requires Legal(s, es) && Enabled(Run(s, es), e)
    ensures Legal(s, es + [e]) && Run(s, es + [e]) == Next(Run(s, es), e)
  {
    assert (es + [e])[..|es|] == es;
  }

  // Order

  /** What was started, the rest of the batch, and what is pending are together what was pushed, in that order. */
  predicate InOrder(s: State) {
    && s.next <= |s.batch| && (s.stage != Running ==> s.batch == [])
    && s.started + s.batch[s.next..] + s.pending == s.pushed
    && (forall i :: 0 <= i < |s.pushed| ==> s.pushed[i].id == i)
  }

  lemma StepKeepsOrder(s: State, e: Event)
    requires InOrder(s) && Enabled(s, e)
    ensures InOrder(Next(s, e))
  {
    var rest := s.batch[s.next..];
    match e
    case PushElsewhere => PushedInOrder(s, OtherThread);
    case QueueOnLoop => PushedInOrder(s, OriginAt(s.stage));
    case Swap =>
      assert rest == [] && s.pending[0..] == s.pending;
      assert s.started + s.pending + [] == s.started + [] + s.pending;
    case RunNext =>
      assert rest == [s.batch[s.next]] + s.batch[s.next + 1..];
      assert s.started + [s.batch[s.next]] + s.batch[s.next + 1..] == s.started + rest;
    case _ =>
  }

  lemma PushedInOrder(s: State, origin: Origin)
    requires InOrder(s)
    ensures InOrder(Pushed(s, origin))
  {
    var rest, f := s.batch[s.next..], Functor(|s.pushed|, origin);
    assert s.started + rest + (s.pending + [f]) == s.started + rest + s.pending + [f];
  }

  /** Over every interleaving, functors start in the order they were pushed in, each at most once and none left out. */
  lemma {:induction false} FunctorsRunInOrder(es: seq<Event>)
    requires Legal(INITIAL, es)
    ensures InOrder(Run(INITIAL, es))
    ensures Run(INITIAL, es).started <= Run(INITIAL, es).pushed
    ensures forall i, j :: 0 <= i < j < |Run(INITIAL, es).started| ==>
              Run(INITIAL, es).started[i].id < Run(INITIAL, es).started[j].id
  {
    if es != [] {
      FunctorsRunInOrder(es[..|es| - 1]);
      StepKeepsOrder(Run(INITIAL, es[..|es| - 1]), es[|es| - 1]);
    }
    var s := Run(INITIAL, es);
    assert forall i :: 0 <= i < |s.started| ==> s.started[i] == s.pushed[i];
  }

  // Wake-ups

  /**
   * Outside the event callbacks, a functor pending from another thread has left the counter positive or its thread is
   * about to raise it, and no functor pending comes from an event callback; the same holds of the quit flag while
   * polling.
   */
  predicate NothingLost(s: State) {
    && (s.stage != Dispatching ==>
          && (forall f :: f in s.pending && f.origin == OtherThread ==> s.eventfd > 0 || f.id in s.inFlight)
          && (forall f :: f in s.pending ==> f.origin != EventCallback))
    && (s.stage == Polling && s.quit ==> s.eventfd > 0 || s.quitters > 0)
    && (s.stage != Dispatching ==> !s.unread)
    && !s.calling
  }

  lemma StepLosesNothing(s: State, e: Event)
    requires NothingLost(s) && Enabled(s, e)
    ensures NothingLost(Next(s, e))
  {
  }

  /** Over every interleaving of the queuing threads with the loop. */
  lemma {:induction false} NoLostWakeup(es: seq<Event>)
    requires Legal(INITIAL, es)
    ensures NothingLost(Run(INITIAL, es))
  {
    if es != [] {
      NoLostWakeup(es[..|es| - 1]);
      StepLosesNothing(Run(INITIAL, es[..|es| - 1]), es[|es| - 1]);
    }
  }

  /** A wake-up has been made and not read, or is on its way. */
  predicate Signalled(s: State) {
    s.eventfd > 0 || s.inFlight != {} || s.quitters > 0
  }

  /** The loop is blocked with work pending, and no wake-up has been made or is on its way. */
  predicate Unnoticed(s: State) {
    s.stage == Polling && s.pending != [] && !Signalled(s)
  }

  /** The loop's own thread has queued something since it last took out what was pending. */
  predicate SelfQueued(es: seq<Event>) {
    es != [] && !es[|es| - 1].Swap? && (es[|es| - 1].QueueOnLoop? || SelfQueued(es[..|es| - 1]))
  }

  lemma {:induction false} SelfQueuedIsPending(es: seq<Event>)
    requires Legal(INITIAL, es)
    ensures SelfQueued(es) <==> exists f :: f in Run(INITIAL, es).pending && f.origin != OtherThread
  {
    if es != [] {
      var s, e := Run(INITIAL, es[..|es| - 1]), es[|es| - 1];
      SelfQueuedIsPending(es[..|es| - 1]);
      var after := Next(s, e).pending;
      assert e.PushElsewhere? || e.QueueOnLoop? || e.Swap? || after == s.pending;
      if e.QueueOnLoop? {
        assert after[|s.pending|].origin == OriginAt(s.stage);
        assert after[|s.pending|] in after;
      } else if e.PushElsewhere? {
        assert forall f :: f in after <==> f in s.pending || f == after[|s.pending|];
      }
    }
  }

  /**
   * In a loop that polls with no wake-up in sight, work is pending exactly if the loop's own thread has queued some
   * since it last took out what was pending, before the loop or in a functor. The flag that would make such queuing
   * wake the loop is never set.
   */
  lemma UnnoticedIff(es: seq<Event>)
    requires Legal(INITIAL, es) && Run(INITIAL, es).stage == Polling && !Signalled(Run(INITIAL, es))
    ensures Run(INITIAL, es).pending != [] <==> SelfQueued(es)
    ensures forall f :: f in Run(INITIAL, es).pending ==> f.origin == FunctorPhase || f.origin == OutsideLoop
  {
    NoLostWakeup(es);
    SelfQueuedIsPending(es);
    var s := Run(INITIAL, es);
    if s.pending != [] {
      assert s.pending[0] in s.pending;
    }
  }

  /** Both ways of it happen: a functor queued before the loop starts, and one queued by the last functor of a batch. */
  lemma QueuedBeforeLoopGoesUnnoticed()
    ensures Legal(INITIAL, [QueueOnLoop, Start]) && Unnoticed(Run(INITIAL, [QueueOnLoop, Start]))
  {
    var es := Extend([], QueueOnLoop);
    es := Extend(es, Start);
    assert es == [QueueOnLoop, Start];
  }

  lemma FunctorQueuedLastGoesUnnoticed(es: seq<Event>)
    requires Legal(INITIAL, es)
    requires var s := Run(INITIAL, es);
             s.stage == Running && s.next >= |s.batch| && !s.quit && !Signalled(s)
    ensures Legal(INITIAL, es + [QueueOnLoop, Finish]) && Unnoticed(Run(INITIAL, es + [QueueOnLoop, Finish]))
  {
    NoLostWakeup(es);
    RunPush(INITIAL, es, QueueOnLoop);
    RunPush(INITIAL, es + [QueueOnLoop], Finish);
    assert es + [QueueOnLoop] + [Finish] == es + [QueueOnLoop, Finish];
  }

  lemma SuchARunExists() returns (es: seq<Event>)
    ensures Legal(INITIAL, es)
    ensures var s := Run(INITIAL, es);
            s.stage == Running && s.next >= |s.batch| && !s.quit && !Signalled(s) && s.started != []
  {
    hide Legal, Run;
    NothingHappened();
    es := [];
    es := Extend(es, Start);
    es := Extend(es, PushElsewhere);
    es := Extend(es, WakeElsewhere(0));
    es := Extend(es, PollReturns(true));
    es := Extend(es, ReadWakeup);
    es := Extend(es, Swap);
    es := Extend(es, RunNext);
  }

  lemma NothingHappened()
    ensures Legal(INITIAL, []) && Run(INITIAL, []) == INITIAL
  {
  }

  lemma Extend(es: seq<Event>, e: Event) returns (longer: seq<Event>)
    requires Legal(INITIAL, es) && Enabled(Run(INITIAL, es), e)
    ensures Legal(INITIAL, longer) && Run(INITIAL, longer) == Next(Run(INITIAL, es), e) && longer == es + [e]
  {
    longer := es + [e];
    RunPush(INITIAL, es, e);
  }

  // Quitting

  /** The loop was told to quit, on any thread, since it was last started. */
  predicate QuitSinceStart(es: seq<Event>) {
    && es != [] && !es[|es| - 1].Start?
    && (es[|es| - 1].QuitElsewhere? || es[|es| - 1].QuitOnLoop? || QuitSinceStart(es[..|es| - 1]))
  }

  /** A quit is forgotten exactly if the loop is started after it; one that is not wakes the loop, or is about to. */
  lemma {:induction false} QuitKeptIff(es: seq<Event>)
    requires Legal(INITIAL, es)
    ensures Run(INITIAL, es).quit <==> QuitSinceStart(es)
    ensures Run(INITIAL, es).stage == Polling && QuitSinceStart(es) ==> Signalled(Run(INITIAL, es))
  {
    NoLostWakeup(es);
    hide Next, Enabled;
    if es != [] {
      QuitKeptIff(es[..|es| - 1]);
      StepOnQuit(Run(INITIAL, es[..|es| - 1]), es[|es| - 1]);
    }
  }

  lemma StepOnQuit(s: State, e: Event)
    requires Enabled(s, e)
    ensures Next(s, e).quit <==> e.QuitElsewhere? || e.QuitOnLoop? || (s.quit && !e.Start?)
  {
  }

  /** A quit from another thread just before the start is forgotten, and its wake-up is spent on an empty turn. */
  lemma QuitBeforeStartIsLost()
    ensures var es := [QuitElsewhere, WakeAfterQuit, Start, PollReturns(true), ReadWakeup, Swap, Finish];
            && Legal(INITIAL, es) && Run(INITIAL, es).stage == Polling
            && !Run(INITIAL, es).quit && !Signalled(Run(INITIAL, es))
  {
    hide Legal, Run;
    NothingHappened();
    var es := Extend([], QuitElsewhere);
    es := Extend(es, WakeAfterQuit);
    es := Extend(es, Start);
    assert es == [QuitElsewhere, WakeAfterQuit, Start];
    es := EmptyTurn(es);
    assert es == [QuitElsewhere, WakeAfterQuit, Start, PollReturns(true), ReadWakeup, Swap, Finish];
  }

  /** A turn that finds only its wake-up spends it. */
  lemma EmptyTurn(es: seq<Event>) returns (longer: seq<Event>)
    requires Legal(INITIAL, es)
    requires var s := Run(INITIAL, es);
             s.stage == Polling && s.pending == [] && !s.quit && s.eventfd > 0 && s.inFlight == {} && s.quitters == 0
    ensures longer == es + [PollReturns(true), ReadWakeup, Swap, Finish] && Legal(INITIAL, longer)
    ensures Run(INITIAL, longer).stage == Polling && !Run(INITIAL, longer).quit && !Signalled(Run(INITIAL, longer))
  {
    hide Legal, Run;
    longer := Extend(es, PollReturns(true));
    longer := Extend(longer, ReadWakeup);
    longer := Extend(longer, Swap);
    longer := Extend(longer, Finish);
    assert longer == es + [PollReturns(true), ReadWakeup, Swap, Finish];
  }

  // What the events of a run decide

  /** What can happen at a stage: threads act at any time, and the loop goes on from each stage. */
  lemma WhatCanHappen(s: State)
    ensures Enabled(s, PushElsewhere) && Enabled(s, QuitElsewhere)
    ensures forall id :: id in s.inFlight ==> Enabled(s, WakeElsewhere(id))
    ensures s.quitters > 0 ==> Enabled(s, WakeAfterQuit)
    ensures s.stage == Stopped ==> Enabled(s, Start)
    ensures s.stage == Polling ==> Enabled(s, PollReturns(false)) && (s.eventfd > 0 ==> Enabled(s, PollReturns(true)))
    ensures s.stage != Polling ==> Enabled(s, QueueOnLoop) && Enabled(s, QuitOnLoop)
    ensures s.stage == Dispatching ==> if s.unread then Enabled(s, ReadWakeup) else Enabled(s, Swap)
    ensures s.stage == Running ==> if s.next < |s.batch| then Enabled(s, RunNext) else Enabled(s, Finish)
  {
  }

  /** Where the loop is. */
  function StageAfter(es: seq<Event>): Stage {
    if es == [] then Stopped
    else
      match es[|es| - 1]
      case Start => Polling
      case PollReturns(_) => Dispatching
      case Swap => Running
      case Finish => if QuitSinceStart(es[..|es| - 1]) then Stopped else Polling
      case _ => StageAfter(es[..|es| - 1])
  }

  /** The functors queued, one for each event that queues one, numbered in their order. */
  function QueuedBy(es: seq<Event>): seq<Functor> {
    if es == [] then []
    else
      var before := QueuedBy(es[..|es| - 1]);
      match es[|es| - 1]
      case PushElsewhere => before + [Functor(|before|, OtherThread)]
      case QueueOnLoop =>
        var origin := match StageAfter(es[..|es| - 1])
                      case Dispatching => EventCallback
                      case Running => FunctorPhase
                      case _ => OutsideLoop;
        before + [Functor(|before|, origin)]
      case _ => before
  }

  /** How many of them the last swap had taken out. */
  function TakenOutBy(es: seq<Event>): nat {
    if es == [] then 0 else if es[|es| - 1].Swap? then |QueuedBy(es[..|es| - 1])| else TakenOutBy(es[..|es| - 1])
  }

  /** How many were started. */
  function StartsIn(es: seq<Event>): nat {
    if es == [] then 0 else StartsIn(es[..|es| - 1]) + if es[|es| - 1].RunNext? then 1 else 0
  }

  /** The wake-ups since the counter was last read. */
  function WakesIn(es: seq<Event>): nat {
    if es == [] || es[|es| - 1].ReadWakeup? then 0
    else WakesIn(es[..|es| - 1]) + if es[|es| - 1].WakeElsewhere? || es[|es| - 1].WakeAfterQuit? then 1 else 0
  }

  /** The functors whose threads have still to make their wake-up. */
  function AwaitedBy(es: seq<Event>): set<nat> {
    if es == [] then {}
    else
      match es[|es| - 1]
      case PushElsewhere => AwaitedBy(es[..|es| - 1]) + {|QueuedBy(es[..|es| - 1])|}
      case WakeElsewhere(id) => AwaitedBy(es[..|es| - 1]) - {id}
      case _ => AwaitedBy(es[..|es| - 1])
  }

  /** The quits whose threads have still to make theirs. */
  function QuitsAwaitedBy(es: seq<Event>): int {
    if es == [] then 0
    else
      QuitsAwaitedBy(es[..|es| - 1])
      + if es[|es| - 1].QuitElsewhere? then 1 else if es[|es| - 1].WakeAfterQuit? then -1 else 0
  }

  /** The last poll reported the counter, and it was not read. */
  predicate ReportedBy(es: seq<Event>) {
    && es != [] && !es[|es| - 1].ReadWakeup?
    && if es[|es| - 1].PollReturns? then es[|es| - 1].reported else ReportedBy(es[..|es| - 1])
  }

  /** What the loop has to remember of a run: where it is, what waits, what was started, and the counter. */
  predicate Remembers(s: State, es: seq<Event>) {
    && s.stage == StageAfter(es) && s.eventfd == WakesIn(es)
    && s.inFlight == AwaitedBy(es) && s.quitters == QuitsAwaitedBy(es) && (s.unread <==> ReportedBy(es))
    && s.pushed == QueuedBy(es)
    && TakenOutBy(es) <= |QueuedBy(es)| && s.pending == QueuedBy(es)[TakenOutBy(es)..]
    && StartsIn(es) <= |QueuedBy(es)| && s.started == QueuedBy(es)[..StartsIn(es)]
  }

  lemma StepRemembers(s: State, before: seq<Event>, e: Event)
    requires Remembers(s, before) && Enabled(s, e) && InOrder(s) && !s.calling && (s.quit <==> QuitSinceStart(before))
    ensures Remembers(Next(s, e), before + [e])
  {
    var es := before + [e];
    assert es[..|es| - 1] == before && es[|es| - 1] == e;
    var queued, longer := QueuedBy(before), QueuedBy(es);
    assert queued <= longer;
    if e.RunNext? {
      StartsNext(s, queued);
    }
  }

  /** The functor to be started next is the first in the order of queuing that has not been started. */
  lemma StartsNext(s: State, queued: seq<Functor>)
    requires InOrder(s) && Enabled(s, RunNext) && s.pushed == queued
    ensures |s.started| < |queued| && s.started + [s.batch[s.next]] == queued[..|s.started| + 1]
  {
    var rest := s.batch[s.next..];
    assert rest == [rest[0]] + rest[1..];
    assert queued == s.started + (rest + s.pending);
  }

  /**
   * In every run each event that queues a functor puts exactly one behind the others, a swap takes out all that wait,
   * starting one starts the first not started, and nothing else touches them.
   */
  lemma {:induction false} RunRemembers(es: seq<Event>)
    requires Legal(INITIAL, es)
    ensures Remembers(Run(INITIAL, es), es)
  {
    if es != [] {
      var before, e := es[..|es| - 1], es[|es| - 1];
      RunRemembers(before);
      FunctorsRunInOrder(before);
      NoLostWakeup(before);
      QuitKeptIff(before);
      hide Next, Enabled, Remembers, InOrder;
      StepRemembers(Run(INITIAL, before), before, e);
      assert before + [e] == es;
    }
  }

  // The loop object

  /** What happens during one turn of the loop: while it polls, between its event callbacks, and in each functor. */
  datatype Turn = Turn(polling: seq<Event>, reported: bool, dispatching: seq<Event>, functors: seq<seq<Event>>)

  /** What other threads, event callbacks and functors do while the loop goes through its steps. */
  predicate ByTheWay(e: Event) {
    match e
    case Start | PollReturns(_) | Swap | RunNext | Finish => false
    case _ => true
  }

  /** Those of the events that are possible when their turn comes, and the state they lead to. */
  function Admit(s: State, es: seq<Event>): (seq<Event>, State) {
    if es == [] then ([], s)
    else
      var (admitted, t) := Admit(s, es[..|es| - 1]);
      var e := es[|es| - 1];
      if ByTheWay(e) && Enabled(t, e) then (admitted + [e], Next(t, e)) else (admitted, t)
  }

  function Admitted(s: State, es: seq<Event>): seq<Event> {
    Admit(s, es).0
  }

  function After(s: State, es: seq<Event>): State {
    Admit(s, es).1
  }

  lemma AdmittedPush(s: State, es: seq<Event>, e: Event)
    ensures Admitted(s, es + [e]) == Admitted(s, es) + Admitted(After(s, es), [e])
    ensures After(s, es + [e]) == After(After(s, es), [e])
  {
    hide Next, Enabled;
    AdmittedOne(After(s, es), e);
    assert (es + [e])[..|es|] == es;
    assert Admit(s, es) == (Admitted(s, es), After(s, es));
  }

  lemma AdmittedOne(s: State, e: Event)
    ensures Admitted(s, [e]) == (if ByTheWay(e) && Enabled(s, e) then [e] else [])
    ensures After(s, [e]) == if ByTheWay(e) && Enabled(s, e) then Next(s, e) else s
  {
    hide Next, Enabled;
    assert [e][..0] == [] && Admit(s, []) == ([], s);
  }

  /** None of them moves the loop itself, or starts a functor. */
  lemma {:induction false} TheLoopStays(s: State, es: seq<Event>)
    ensures var t := After(s, es);
            && (t.stage, t.batch, t.next, t.started) == (s.stage, s.batch, s.next, s.started)
            && (t.unread ==> s.unread) && s.pending <= t.pending && Polls(Admitted(s, es)) == 0
  {
    if es != [] {
      hide Next, Enabled, Polls;
      var before, e := es[..|es| - 1], es[|es| - 1];
      TheLoopStays(s, before);
      PollsPush(Admitted(s, before), e);
      if ByTheWay(e) && Enabled(After(s, before), e) {
        OneStepStays(After(s, before), e);
      }
    } else {
      assert Polls([]) == 0;
    }
  }

  lemma OneStepStays(s: State, e: Event)
    requires ByTheWay(e) && Enabled(s, e)
    ensures var t := Next(s, e);
            && (t.stage, t.batch, t.next, t.started) == (s.stage, s.batch, s.next, s.started)
            && (t.unread ==> s.unread) && s.pending <= t.pending
  {
  }

  /** How often the poll returned, which is how many turns there were. */
  function Polls(es: seq<Event>): nat {
    if es == [] then 0 else Polls(es[..|es| - 1]) + if es[|es| - 1].PollReturns? then 1 else 0
  }

  lemma PollsPush(es: seq<Event>, e: Event)
    ensures Polls(es + [e]) == Polls(es) + if e.PollReturns? then 1 else 0
  {
    assert (es + [e])[..|es|] == es;
  }

  lemma {:induction false} PollsConcat(es: seq<Event>, more: seq<Event>)
    ensures Polls(es + more) == Polls(es) + Polls(more)
  {
    if more == [] {
      assert es + more == es;
    } else {
      var init, e := more[..|more| - 1], more[|more| - 1];
      PollsConcat(es, init);
      PollsPush(es + init, e);
      assert es + init + [e] == es + more;
    }
  }

  class EventLoop {
    var pendingFunctors: seq<Functor>
    var quit: bool
    var looping: bool
    var callingPendingFunctors: bool
    /** The counter of the event descriptor, kept by the kernel. */
    var eventfd: nat
    // The loop's position, the other threads, and what was pushed and started
    var stage: Stage
    var batch: seq<Functor>
    var next: nat
    var unread: bool
    var inFlight: set<nat>
    var quitters: nat
    var pushed: seq<Functor>
    var started: seq<Functor>
    ghost var history: seq<Event>

    function View(): State
      reads this
    {
      State(stage, pendingFunctors, quit, callingPendingFunctors, eventfd, batch, next, unread, inFlight, quitters,
            pushed, started)
    }

    /** The state is the one its history leads to. */
    ghost predicate Valid()
      reads this
    {
      && Legal(INITIAL, history) && View() == Run(INITIAL, history)
      && (looping <==> stage != Stopped)
    }

    constructor ()
      ensures Valid() && View() == INITIAL && history == []
    {
      pendingFunctors, quit, looping, callingPendingFunctors, eventfd := [], false, false, false, 0;
      stage, batch, next, unread, inFlight, quitters, pushed, started := Stopped, [], 0, false, {}, 0, [], [];
      history := [];
    }

    /** What holds of every run holds of the object: order is kept and no wake-up is lost. */
    lemma Sound()
      requires Valid()
      ensures InOrder(View()) && started <= pushed && NothingLost(View()) && Remembers(View(), history)
    {
      RunRemembers(history);
      FunctorsRunInOrder(history);
      NoLostWakeup(history);
    }

    ghost method Record(before: State, e: Event)
      requires Legal(INITIAL, history) && before == Run(INITIAL, history) && Enabled(before, e)
      requires View() == Next(before, e) && (looping <==> stage != Stopped)
      modifies this`history
      ensures Valid() && history == old(history) + [e] && View() == old(View())
    {
      RunPush(INITIAL, history, e);
      history := history + [e];
    }

    /** The part of queuing that happens under the lock. */
    method Push(origin: Origin)
      modifies this`pendingFunctors, this`pushed
      ensures View() == Pushed(old(View()), origin)
    {
      var cb := Functor(|pushed|, origin);
      pendingFunctors := pendingFunctors + [cb];
      pushed := pushed + [cb];
    }

    method Wakeup()
      modifies this`eventfd
      ensures View() == Woken(old(View()))
    {
      eventfd := eventfd + 1;
    }

    method HandleRead()
      requires Valid() && Enabled(View(), ReadWakeup)
      modifies this
      ensures Valid() && history == old(history) + [ReadWakeup] && View() == Next(old(View()), ReadWakeup)
      ensures (stage, batch, next, unread) == old((stage, batch, next, false))
      ensures (started, pendingFunctors) == old((started, pendingFunctors))
    {
      ghost var before := View();
      eventfd, unread := 0, false;
      Record(before, ReadWakeup);
    }

    /** Queuing on the loop thread, at any point outside the poll: the flag alone decides about a wake-up. */
    method QueueInLoop()
      requires Valid() && Enabled(View(), QueueOnLoop)
      modifies this
      ensures Valid() && history == old(history) + [QueueOnLoop] && View() == Next(old(View()), QueueOnLoop)
      ensures (stage, batch, next, unread) == old((stage, batch, next, unread))
      ensures pendingFunctors == old(pendingFunctors)
                                 + [Functor(|old(pushed)|, if stage == Dispatching then EventCallback
                                                           else if stage == Running then FunctorPhase
                                                           else OutsideLoop)]
    {
      ghost var before := View();
      Push(OriginAt(stage));
      if callingPendingFunctors {
        Wakeup();
      }
      Record(before, QueueOnLoop);
    }

    /** Queuing on another thread is a push, and later a wake-up. */
    method PushFromElsewhere()
      requires Valid() && Enabled(View(), PushElsewhere)
      modifies this
      ensures Valid() && history == old(history) + [PushElsewhere] && View() == Next(old(View()), PushElsewhere)
      ensures (stage, batch, next, unread) == old((stage, batch, next, unread))
      ensures pendingFunctors == old(pendingFunctors) + [Functor(|old(pushed)|, OtherThread)]
      ensures eventfd == old(eventfd) && |old(pushed)| in inFlight
    {
      hide Legal, Run;
      ghost var before := View();
      inFlight := inFlight + {|pushed|};
      Push(OtherThread);
      Record(before, PushElsewhere);
    }

    method WakeFromElsewhere(id: nat)
      requires Valid() && Enabled(View(), WakeElsewhere(id))
      modifies this
      ensures Valid() && history == old(history) + [WakeElsewhere(id)] && View() == Next(old(View()), WakeElsewhere(id))
      ensures (stage, batch, next, unread) == old((stage, batch, next, unread))
      ensures eventfd == old(eventfd) + 1
    {
      hide Legal, Run;
      ghost var before := View();
      inFlight := inFlight - {id};
      Wakeup();
      Record(before, WakeElsewhere(id));
    }

    /** Quitting on another thread sets the flag, and wakes the loop later. */
    method QuitFromElsewhere()
      requires Valid() && Enabled(View(), QuitElsewhere)
      modifies this
      ensures Valid() && history == old(history) + [QuitElsewhere] && View() == Next(old(View()), QuitElsewhere)
      ensures (stage, batch, next, unread) == old((stage, batch, next, unread))
    {
      hide Legal, Run;
      ghost var before := View();
      quit, quitters := true, quitters + 1;
      Record(before, QuitElsewhere);
    }

    method WakeAfterQuitting()
      requires Valid() && Enabled(View(), WakeAfterQuit)
      modifies this
      ensures Valid() && history == old(history) + [WakeAfterQuit] && View() == Next(old(View()), WakeAfterQuit)
      ensures (stage, batch, next, unread) == old((stage, batch, next, unread))
    {
      hide Legal, Run;
      ghost var before := View();
      quitters := quitters - 1;
      Wakeup();
      Record(before, WakeAfterQuit);
    }

    method QuitInLoop()
      requires Valid() && Enabled(View(), QuitOnLoop)
      modifies this
      ensures Valid() && history == old(history) + [QuitOnLoop] && View() == Next(old(View()), QuitOnLoop)
      ensures (stage, batch, next, unread) == old((stage, batch, next, unread))
    {
      hide Legal, Run;
      ghost var before := View();
      quit := true;
      Record(before, QuitOnLoop);
    }

    /** One step of another thread, or a queuing or quitting step of the loop thread; impossible ones are skipped. */
    method Interfere(e: Event)
      requires Valid()
      modifies this
      ensures Valid() && history == old(history) + Admitted(old(View()), [e])
      ensures View() == After(old(View()), [e])
    {
      hide Legal, Run, Next;
      AdmittedOne(View(), e);
      if ByTheWay(e) && Enabled(View(), e) {
        Take(e);
      }
    }

    method Take(e: Event)
      requires Valid() && ByTheWay(e) && Enabled(View(), e)
      modifies this
      ensures Valid() && history == old(history) + [e] && View() == Next(old(View()), e)
    {
      hide Legal, Run, Next;
      match e
      case PushElsewhere => PushFromElsewhere();
      case WakeElsewhere(id) => WakeFromElsewhere(id);
      case QuitElsewhere => QuitFromElsewhere();
      case WakeAfterQuit => WakeAfterQuitting();
      case ReadWakeup => HandleRead();
      case QueueOnLoop => QueueInLoop();
      case QuitOnLoop => QuitInLoop();
    }

    method InterfereAll(es: seq<Event>)
      requires Valid()
      modifies this
      ensures Valid() && history == old(history) + Admitted(old(View()), es)
      ensures View() == After(old(View()), es)
    {
      hide Legal, Run, Next, EventLoop.Valid, EventLoop.View, Enabled;
      ghost var before := View();
      for i := 0 to |es|
        invariant Valid() && history == old(history) + Admitted(before, es[..i]) && View() == After(before, es[..i])
      {
        assert es[..i + 1] == es[..i] + [es[i]];
        AdmittedPush(before, es[..i], es[i]);
        Interfere(es[i]);
      }
      assert es[..|es|] == es;
    }

    method SwapPending()
      requires Valid() && Enabled(View(), Swap)
      modifies this
      ensures Valid() && history == old(history) + [Swap] && View() == Next(old(View()), Swap)
      ensures stage == Running && batch == old(pendingFunctors) && next == 0 && started == old(started)
    {
      hide Legal, Run;
      ghost var before := View();
      batch, next, pendingFunctors := pendingFunctors, 0, [];
      stage := Running;
      Record(before, Swap);
    }

    method StartFunctor(f: Functor)
      requires Valid() && Enabled(View(), RunNext) && f == batch[next]
      modifies this
      ensures Valid() && history == old(history) + [RunNext] && View() == Next(old(View()), RunNext)
      ensures (stage, batch, next, started) == old((stage, batch, next + 1, started + [f]))
    {
      hide Legal, Run;
      ghost var before := View();
      started, next := started + [f], next + 1;
      Record(before, RunNext);
    }

    method FinishFunctors()
      requires Valid() && Enabled(View(), Finish)
      modifies this
      ensures Valid() && history == old(history) + [Finish] && View() == Next(old(View()), Finish)
      ensures stage == (if quit then Stopped else Polling) && batch == [] && started == old(started)
    {
      hide Legal, Run;
      ghost var before := View();
      callingPendingFunctors := false;
      stage, looping := if quit then Stopped else Polling, !quit;
      batch, next := [], 0;
      Record(before, Finish);
    }

    /** Swaps the pending functors out and runs them one after the other, whatever happens in between. */
    method DoPendingFunctors(during: seq<seq<Event>>)
      requires Valid() && Enabled(View(), Swap)
      modifies this
      ensures Valid() && old(history) + [Swap] <= history && stage == (if quit then Stopped else Polling)
      ensures started == old(started) + old(pendingFunctors) && batch == [] && Polls(history) == old(Polls(history))
    {
      hide Legal, Run, Next, Polls, Admitted, After;
      var functions := pendingFunctors;
      SwapPending();
      PollsPush(old(history), Swap);
      var i := 0;
      while i < |functions|
        invariant Valid() && stage == Running && batch == functions && i == next <= |functions|
        invariant old(history) + [Swap] <= history && Polls(history) == old(Polls(history))
        invariant started == old(started) + functions[..i]
      {
        RunFunctor(functions[i], if i < |during| then during[i] else []);
        i := i + 1;
      }
      ghost var before := history;
      FinishFunctors();
      PollsPush(before, Finish);
    }

    /** One functor of the batch, and what it and the other threads do meanwhile. */
    method RunFunctor(f: Functor, during: seq<Event>)
      requires Valid() && Enabled(View(), RunNext) && f == batch[next]
      modifies this
      ensures Valid() && old(history) + [RunNext] <= history && Polls(history) == old(Polls(history))
      ensures (stage, batch, next, started) == old((stage, batch, next + 1, started + [f]))
    {
      hide Legal, Run, Next, Polls, Admitted, After;
      StartFunctor(f);
      PollsPush(old(history), RunNext);
      MeanwhileInterfere(during);
    }

    /** Interference leaves the loop where it is. */
    method MeanwhileInterfere(es: seq<Event>)
      requires Valid()
      modifies this
      ensures Valid() && history == old(history) + Admitted(old(View()), es) && View() == After(old(View()), es)
      ensures (stage, batch, next, started) == old((stage, batch, next, started))
      ensures (unread ==> old(unread)) && old(pendingFunctors) <= pendingFunctors
      ensures Polls(history) == old(Polls(history))
    {
      hide Legal, Run, Next, Polls, Admitted, After;
      TheLoopStays(View(), es);
      PollsConcat(history, Admitted(View(), es));
      InterfereAll(es);
    }

    method StartLooping()
      requires Valid() && Enabled(View(), Start)
      modifies this
      ensures Valid() && history == old(history) + [Start] && View() == Next(old(View()), Start)
      ensures stage == Polling && !quit && (started, pendingFunctors) == old((started, pendingFunctors))
    {
      hide Legal, Run;
      ghost var before := View();
      looping, quit, stage := true, false, Polling;
      Record(before, Start);
    }

    method ReturnFromPoll(reported: bool)
      requires Valid() && Enabled(View(), PollReturns(reported))
      modifies this
      ensures Valid() && history == old(history) + [PollReturns(reported)]
      ensures View() == Next(old(View()), PollReturns(reported))
      ensures stage == Dispatching && (started, pendingFunctors) == old((started, pendingFunctors))
    {
      hide Legal, Run;
      ghost var before := View();
      stage, unread := Dispatching, reported;
      Record(before, PollReturns(reported));
    }

    /** One turn: whatever was pending when it began has been started when it ends. */
    method TakeTurn(turn: Turn)
      requires Valid() && stage == Polling
      modifies this
      ensures Valid() && old(history) <= history && Polls(history) == old(Polls(history)) + 1
      ensures stage == (if quit then Stopped else Polling) && old(started + pendingFunctors) <= started
    {
      hide Legal, Run, Next, Polls, Admitted, After;
      MeanwhileInterfere(turn.polling);
      var reported := turn.reported && eventfd > 0;
      PollsPush(history, PollReturns(reported));
      ReturnFromPoll(reported);
      MeanwhileInterfere(turn.dispatching);
      if unread {
        PollsPush(history, ReadWakeup);
        HandleRead();
      }
      DoPendingFunctors(turn.functors);
    }

    /** The loop, for as many turns as given or until it is told to quit; `done` counts the turns. */
    method Loop(turns: seq<Turn>) returns (done: nat)
      requires Valid() && stage == Stopped
      modifies this
      ensures Valid() && old(history) + [Start] <= history && Polls(history) == old(Polls(history)) + done
      ensures done <= |turns| && (done < |turns| ==> quit) && stage == if quit then Stopped else Polling
      ensures done > 0 ==> old(started + pendingFunctors) <= started
    {
      hide Legal, Run, Next, Polls;
      PollsPush(history, Start);
      StartLooping();
      done := 0;
      while !quit && done < |turns|
        invariant Valid() && old(history) + [Start] <= history && done <= |turns|
        invariant stage == if quit then Stopped else Polling
        invariant Polls(history) == old(Polls(history)) + done
        invariant done == 0 ==> (started, pendingFunctors) == old((started, pendingFunctors))
        invariant done > 0 ==> old(started + pendingFunctors) <= started
      {
        TakeTurn(turns[done]);
        done := done + 1;
      }
    }
  }
}
