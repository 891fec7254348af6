/** What becomes of a timer: the effect of each step on what is stored, and that no timer is forgotten. */
module TimerFates {
  import opened Bytes
  import opened TimerSpec
  import opened TimerProofs
  import opened TimerCalls
  import TimerCancel

  // The effect of each step

  /** A new timer has the time and the interval asked for, and the next number; it waits to be added. */
  lemma NewEffect(s: State, addr: Addr, when: nat, interval: real)
    requires Inv(s) && addr !in s.heap && when < 0x1_0000_0000_0000_0000
    requires -0x8000_0000_0000_0000 <= Micros(interval) < 0x8000_0000_0000_0000
    ensures Next(s, New(addr, when, interval)) ==
            s.(heap := s.heap[addr := Timer(when, interval, s.created)], queued := s.queued + {addr},
               created := s.created + 1)
  {
  }

  /** Adding puts the timer into both indexes and takes nothing out; the earliest one sets the descriptor. */
  lemma AddEffect(s: State, addr: Addr)
    requires Inv(s) && Bounds(s) && s.stage != Resetting && addr in s.queued
    ensures addr in s.heap
    ensures var t, timer := Next(s, AddInLoop(addr)), s.heap[addr];
            var entry := Entry(timer.expiration, addr);
            && t.heap == s.heap && t.queued == s.queued - {addr} && addr !in t.queued
            && (forall e :: e in t.timers <==> e in s.timers || e == entry)
            && t.active == s.active + {(addr, timer.sequence)}
            && (t.descriptor == if forall e :: e in s.timers ==> timer.expiration < e.when
                                then Armed(s.clock, s.clock + HowMuchTime(timer.expiration, s.clock))
                                else s.descriptor)
            && (t.stage, t.batch, t.next, t.canceling, t.log) == (s.stage, s.batch, s.next, s.canceling, s.log)
  {
    hide Inv, Bounds, Insert, Sorted, HowMuchTime;
    QueuedInHeap(s, addr);
    InsertSorted(s.timers, Entry(s.heap[addr].expiration, addr));
    EarliestIff(s.timers, s.heap[addr].expiration);
  }

  lemma QueuedInHeap(s: State, addr: Addr)
    requires Inv(s) && Enabled(s, AddInLoop(addr))
    ensures addr in s.heap && Sorted(s.timers)
  {
    AddOwners(s.heap, s.active, s.queued, Pending(s), s.now, s.created, addr);
    SortedIndexes(s.heap, s.timers, s.active);
  }

  lemma EarliestIff(ts: seq<Entry>, when: nat)
    requires Sorted(ts)
    ensures (ts == [] || when < ts[0].when) <==> forall e :: e in ts ==> when < e.when
  {
    FirstIsEarliest(ts);
    hide Sorted;
    assert ts != [] ==> ts[0] in ts;
  }

  /** Cancelling takes a timer out of both indexes and deletes it; in a batch it leaves a mark; else nothing happens. */
  lemma CancelEffect(s: State, id: Id)
    requires Inv(s) && s.stage != Resetting
    ensures var t := Next(s, Cancel(id));
            if id in s.active then
              && t.heap == s.heap - {id.0} && t.active == s.active - {id}
              && (forall e :: e in t.timers <==> e in s.timers && e.addr != id.0)
              && t.canceling == s.canceling
            else t == s.(canceling := if s.stage == Calling then s.canceling + {id} else s.canceling)
  {
    if id in s.active {
      CancelTakesOut(s, id);
    }
    hide Inv;
  }

  lemma CancelTakesOut(s: State, id: Id)
    requires Inv(s) && Enabled(s, Cancel(id)) && id in s.active
    ensures var t := Next(s, Cancel(id));
            && t.heap == s.heap - {id.0} && t.active == s.active - {id} && t.canceling == s.canceling
            && (forall e :: e in t.timers <==> e in s.timers && e.addr != id.0)
  {
    IndexedInHeap(s.heap, s.timers, s.active);
    SortedIndexes(s.heap, s.timers, s.active);
    EraseSorted(s.timers, Entry(s.heap[id.0].expiration, id.0));
    hide Indexes, Owners, Erase, Sorted;
  }

  /** The callback of the next timer of the batch runs once, for the time the batch was taken for. */
  lemma CallEffect(s: State)
    requires Inv(s) && s.stage == Calling && s.next < |s.batch|
    ensures s.batch[s.next].addr in s.heap
    ensures var timer := s.heap[s.batch[s.next].addr];
            Next(s, CallNext) ==
            s.(next := s.next + 1,
               log := s.log + [Call(timer.sequence, timer.interval, timer.expiration, s.now, s.batches)])
  {
    HeldInHeap(s);
    assert s.batch[s.next] in Pending(s);
    hide Indexes, Owners, Sorted;
  }

  /**
   * The timer that was called and is next in the reset: if it repeats and was not cancelled, it goes on under the same
   * number for an interval more, in both indexes; if not, it is deleted, and the indexes stay as they are.
   */
  lemma ResetEffectOnTimer(s: State)
    requires Inv(s) && Bounds(s) && s.stage == Resetting && s.next < |s.batch|
    ensures s.batch[s.next].addr in s.heap
    ensures var t, addr := Next(s, ResetNext), s.batch[s.next].addr;
            var timer := s.heap[addr];
            if timer.interval > 0.0 && (addr, timer.sequence) !in s.canceling then
              var later := Timer(s.now + Micros(timer.interval), timer.interval, timer.sequence);
              && t.heap == s.heap[addr := later]
              && (forall e :: e in t.timers <==> e in s.timers || e == Entry(later.expiration, addr))
              && t.active == s.active + {(addr, timer.sequence)}
            else
              t.heap == s.heap - {addr} && t.timers == s.timers && t.active == s.active
    ensures var t := Next(s, ResetNext);
            (t.stage, t.batch, t.next, t.canceling, t.log, t.queued, t.created)
            == (s.stage, s.batch, s.next + 1, s.canceling, s.log, s.queued, s.created)
  {
    hide Inv, Bounds, Insert, Sorted, AddTime, Micros;
    ResetFacts(s);
    var addr := s.batch[s.next].addr;
    if s.heap[addr].interval > 0.0 {
      IntervalFits(s.heap[addr], s.now);
      InsertSorted(s.timers, Entry(AddTime(s.now, s.heap[addr].interval), addr));
    }
  }

  lemma ResetFacts(s: State)
    requires Inv(s) && Bounds(s) && Enabled(s, ResetNext)
    ensures s.batch[s.next].addr in s.heap && InRange(s.heap[s.batch[s.next].addr])
    ensures Sorted(s.timers) && s.now < TWO_63
  {
    HeldInHeap(s);
    SortedIndexes(s.heap, s.timers, s.active);
    assert s.batch[s.next] in Pending(s);
  }

  lemma IntervalFits(t: Timer, now: nat)
    requires InRange(t) && t.interval > 0.0 && now < TWO_63
    ensures Micros(t.interval) >= 0 && AddTime(now, t.interval) == now + Micros(t.interval)
  {
    assert t.interval * 1000000.0 >= 0.0;
  }

  /** After the reset the descriptor is set for the earliest timer, if there is one. */
  lemma RearmEffect(s: State)
    requires Inv(s) && s.stage == Resetting && s.next >= |s.batch|
    ensures Next(s, Rearm) ==
            s.(stage := Idle,
               descriptor := if s.timers == [] || s.timers[0].when == 0 then s.descriptor
                             else Armed(s.clock, s.clock + HowMuchTime(s.timers[0].when, s.clock)))
  {
    IndexedInHeap(s.heap, s.timers, s.active);
    hide Indexes, Owners, Sorted, HowMuchTime;
    assert s.timers != [] ==> s.timers[0] in s.timers;
  }

  /** A batch is taken for the time of the clock, with no marks. */
  lemma BeginEffect(s: State)
    requires Inv(s) && s.stage == Idle
    ensures var t := Next(s, Begin);
            && t.batch + t.timers == s.timers
            && (forall e :: e in s.timers ==> (e in t.batch <==> e.when < s.clock))
            && (forall id :: id in t.active <==> id in s.active && At(s, id.0).expiration >= s.clock)
            && t.heap == s.heap && t.canceling == {} && t.stage == Calling && t.next == 0 && t.now == s.clock
            && t.batches == s.batches + 1 && t.log == s.log
            && t.descriptor == (if s.descriptor.Fired? then Disarmed else s.descriptor)
  {
    hide Inv, Indexes, Owners, Sorted, LowerBound, IdsOf, Dangling;
    SortedOfInv(s);
    ExpiredExactly(s);
    BeginKeeps(s);
    SortedOfInv(Next(s, Begin));
    StillActive(s, Next(s, Begin));
  }

  lemma SortedOfInv(s: State)
    requires Inv(s)
    ensures Sorted(s.timers) && Indexes(s.heap, s.timers, s.active) && !s.faulty
  {
    SortedIndexes(s.heap, s.timers, s.active);
    hide Indexes, Owners;
  }

  /** Of the timers of an index, those that stay in one stay in the other. */
  lemma StillActive(s: State, t: State)
    requires Indexes(s.heap, s.timers, s.active) && Indexes(t.heap, t.timers, t.active) && t.heap == s.heap
    requires forall e :: e in t.timers ==> e in s.timers
    requires forall e :: e in s.timers ==> (e in t.timers <==> s.clock <= e.when)
    ensures forall id: Id :: id in t.active <==> id in s.active && At(s, id.0).expiration >= s.clock
  {
    ActiveHasEntry(s);
    ActiveHasEntry(t);
    hide Indexes;
    forall id: Id
      ensures id in t.active <==> id in s.active && At(s, id.0).expiration >= s.clock
    {
      if id in s.active {
        var e := Entry(s.heap[id.0].expiration, id.0);
        assert e in s.timers;
      }
    }
  }

  /** An id is active exactly if its timer is in the heap under its number and in the other index. */
  lemma ActiveHasEntry(s: State)
    requires Indexes(s.heap, s.timers, s.active)
    ensures forall id: Id :: id in s.active <==>
              id.0 in s.heap && s.heap[id.0].sequence == id.1 && Entry(s.heap[id.0].expiration, id.0) in s.timers
  {
  }

  /** Time passes, and the descriptor fires when its deadline has come. */
  lemma TickEffect(s: State, time: nat)
    requires s.clock <= time < 0x8000_0000_0000_0000
    ensures Next(s, Tick(time)) ==
            s.(clock := time,
               descriptor := if s.descriptor.Armed? && s.descriptor.deadline <= time then Fired else s.descriptor)
  {
  }

  /** A pointer to a timer that is not there is a fault wherever it is followed, whatever the state. */
  lemma FaultsAreNoticed(s: State, id: Id)
    ensures s.stage != Resetting && id.0 in s.queued ==>
              (Next(s, AddInLoop(id.0)).faulty <==> s.faulty || id.0 !in s.heap)
    ensures s.stage != Resetting ==> (Next(s, Cancel(id)).faulty <==> s.faulty || (id in s.active && id.0 !in s.heap))
    ensures s.stage == Calling && s.next < |s.batch| ==>
              (Next(s, CallNext).faulty <==> s.faulty || s.batch[s.next].addr !in s.heap)
    ensures s.stage == Resetting && s.next < |s.batch| ==>
              (Next(s, ResetNext).faulty <==> s.faulty || s.batch[s.next].addr !in s.heap)
    ensures s.stage == Resetting && s.next >= |s.batch| && s.timers != [] ==>
              (Next(s, Rearm).faulty <==> s.faulty || s.timers[0].addr !in s.heap)
    ensures s.stage == Idle ==>
              (Next(s, Begin).faulty <==> s.faulty || exists e :: e in Next(s, Begin).batch && e.addr !in s.heap)
  {
    hide Insert, Erase, LowerBound, IdsOf, HowMuchTime, AddTime;
  }

  // No timer is forgotten

  /** The timer of this number is stored, with its interval, and its time unless it repeats. */
  predicate Stored(s: State, number: nat, when: nat, interval: real) {
    exists a :: a in s.heap && s.heap[a].sequence == number && s.heap[a].interval == interval
                && (interval <= 0.0 ==> s.heap[a].expiration == when)
  }

  predicate WasCalled(s: State, number: nat) {
    exists i :: 0 <= i < |s.log| && s.log[i].sequence == number
  }

  /** The timers of the batch whose callbacks have had their turn were called. */
  predicate BatchCalled(s: State) {
    match s.stage
    case Idle => true
    case Calling => forall i :: 0 <= i < s.next <= |s.batch| ==> WasCalled(s, At(s, s.batch[i].addr).sequence)
    case Resetting => forall i :: s.next <= i < |s.batch| ==> WasCalled(s, At(s, s.batch[i].addr).sequence)
  }

  /** If it waits in the batch, it is not marked as cancelled. */
  predicate Unmarked(s: State, number: nat) {
    forall e :: e in Pending(s) && At(s, e.addr).sequence == number ==> IdAt(s, e.addr) !in s.canceling
  }

  /** It is stored, or it was made for one call and has had it. */
  predicate Remembered(s: State, number: nat, when: nat, interval: real) {
    && Unmarked(s, number) && BatchCalled(s)
    && (Stored(s, number, when, interval) || (interval <= 0.0 && WasCalled(s, number)))
  }

  /** The heap as a step leaves it. */
  lemma HeapAfter(s: State, e: Event)
    requires Inv(s) && Bounds(s) && Enabled(s, e)
    ensures match e
            case New(addr, when, interval) => Next(s, e).heap == s.heap[addr := Timer(when, interval, s.created)]
            case Cancel(id) => Next(s, e).heap == if id in s.active then s.heap - {id.0} else s.heap
            case ResetNext => true
            case _ => Next(s, e).heap == s.heap
  {
    hide Inv, Bounds, Next, Micros, HowMuchTime, Sorted;
    match e
    case New(addr, when, interval) => NewEffect(s, addr, when, interval);
    case AddInLoop(addr) => AddEffect(s, addr);
    case Cancel(id) => CancelEffect(s, id);
    case Begin => BeginEffect(s);
    case CallNext => CallEffect(s);
    case EndCalls => EndCallsEffect(s);
    case ResetNext =>
    case Rearm => RearmEffect(s);
    case Tick(time) => TickEffect(s, time);
  }

  lemma EndCallsEffect(s: State)
    requires s.stage == Calling && s.next >= |s.batch|
    ensures Next(s, EndCalls) == s.(stage := Resetting, next := 0)
  {
  }

  /** The batch, the marks and the log as a step leaves them. */
  lemma BatchAfter(s: State, e: Event)
    requires Inv(s) && Bounds(s) && Enabled(s, e)
    ensures var t := Next(s, e);
            match e
            case Begin => t.stage == Calling && t.next == 0 && t.canceling == {} && t.log == s.log
            case CallNext => (t.stage, t.batch, t.next, t.canceling) == (s.stage, s.batch, s.next + 1, s.canceling)
            case EndCalls => (t.stage, t.batch, t.next, t.canceling, t.log)
                             == (Resetting, s.batch, 0, s.canceling, s.log)
            case ResetNext => (t.stage, t.batch, t.next, t.canceling, t.log)
                              == (s.stage, s.batch, s.next + 1, s.canceling, s.log)
            case Rearm => t.stage == Idle && t.canceling == s.canceling && t.log == s.log
            case Cancel(id) => (t.stage, t.batch, t.next, t.log) == (s.stage, s.batch, s.next, s.log)
                               && t.canceling <= s.canceling + {id}
            case _ => (t.stage, t.batch, t.next, t.canceling, t.log) == (s.stage, s.batch, s.next, s.canceling, s.log)
  {
    hide Inv, Bounds, Micros, HowMuchTime, Sorted, Insert, Erase, LowerBound, IdsOf, Dangling, AddTime;
  }

  lemma WasCalledGrows(s: State, t: State)
    requires s.log <= t.log
    ensures forall n :: WasCalled(s, n) ==> WasCalled(t, n)
  {
    forall n | WasCalled(s, n)
      ensures WasCalled(t, n)
    {
      var i :| 0 <= i < |s.log| && s.log[i].sequence == n;
      assert t.log[i] == s.log[i];
    }
  }

  /** The timers of the batch that are still to be handled keep their place in the heap through every other step. */
  lemma BatchUntouched(s: State, e: Event, i: nat)
    requires Inv(s) && Bounds(s) && Enabled(s, e) && !e.Begin? && s.stage != Idle && i < |s.batch|
    requires s.batch[i] in Pending(s) && (e.ResetNext? ==> i > s.next)
    ensures At(Next(s, e), s.batch[i].addr).sequence == At(s, s.batch[i].addr).sequence
  {
    hide Next, Bounds;
    HeapAfter(s, e);
    HeldInHeap(s);
    var a := s.batch[i].addr;
    if e.Cancel? && e.id in s.active {
      IndexedInHeap(s.heap, s.timers, s.active);
      PendingAbsent(s);
    } else if e.ResetNext? {
      ResetEffectOnTimer(s);
      NextIsAnother(s, i);
    }
    hide Indexes, Owners, Sorted;
  }

  lemma NextIsAnother(s: State, i: nat)
    requires Inv(s) && Enabled(s, ResetNext) && s.next < i < |s.batch|
    ensures s.batch[i].addr != s.batch[s.next].addr
  {
    hide Indexes, Sorted;
    assert Pending(s)[0] == s.batch[s.next] && Pending(s)[i - s.next] == s.batch[i];
  }

  lemma StillPending(s: State, i: nat)
    requires s.next <= |s.batch| && i < |s.batch| && (s.stage == Calling || (s.stage == Resetting && s.next <= i))
    ensures s.batch[i] in Pending(s)
  {
    if s.stage == Resetting {
      assert Pending(s)[i - s.next] == s.batch[i];
    }
  }

  lemma BatchCalledStays(s: State, e: Event)
    requires Inv(s) && Bounds(s) && Enabled(s, e) && BatchCalled(s) && s.next <= |s.batch|
    ensures BatchCalled(Next(s, e))
  {
    hide Inv, Bounds, Next, WasCalled;
    var t := Next(s, e);
    BatchAfter(s, e);
    if e.CallNext? {
      CallEffect(s);
    }
    if e.CallNext? || e.EndCalls? || (s.stage != Idle && !e.Begin? && !e.Rearm?) {
      assert s.log <= t.log;
      WasCalledGrows(s, t);
      forall i | 0 <= i < |s.batch| && (if t.stage == Calling then i < t.next else t.next <= i)
        ensures WasCalled(t, At(t, t.batch[i].addr).sequence)
      {
        StillPending(s, i);
        BatchUntouched(s, e, i);
        if e.CallNext? && i == s.next {
          LastWasCalled(s, t);
        }
      }
    }
  }

  lemma LastWasCalled(s: State, t: State)
    requires Inv(s) && Enabled(s, CallNext) && t == Next(s, CallNext)
    ensures WasCalled(t, At(s, s.batch[s.next].addr).sequence)
  {
    CallEffect(s);
    hide Inv, Next;
    assert t.log[|s.log|].sequence == At(s, s.batch[s.next].addr).sequence;
  }

  lemma UnmarkedStays(s: State, e: Event, number: nat)
    requires Inv(s) && Bounds(s) && Enabled(s, e) && Unmarked(s, number) && (e.Cancel? ==> e.id.1 != number)
    ensures Unmarked(Next(s, e), number)
  {
    hide Inv, Bounds, Next, Pending;
    BatchAfter(s, e);
    if !e.Begin? {
      TimerCancel.PendingIdsStay(s, e);
    }
  }

  lemma StoredStays(s: State, e: Event, number: nat, when: nat, interval: real)
    requires Inv(s) && Bounds(s) && Enabled(s, e) && Stored(s, number, when, interval) && BatchCalled(s)
    requires Unmarked(s, number) && (e.Cancel? ==> e.id.1 != number)
    ensures Stored(Next(s, e), number, when, interval) || (interval <= 0.0 && WasCalled(Next(s, e), number))
  {
    hide Bounds, Next, WasCalled;
    var t := Next(s, e);
    var a :| a in s.heap && s.heap[a].sequence == number && s.heap[a].interval == interval
             && (interval <= 0.0 ==> s.heap[a].expiration == when);
    HeapAfter(s, e);
    BatchAfter(s, e);
    if e.ResetNext? {
      ResetEffectOnTimer(s);
      if a == s.batch[s.next].addr {
        assert Pending(s)[0] == s.batch[s.next];
        if interval > 0.0 {
          assert t.heap[a].sequence == number;
        } else {
          assert WasCalled(s, At(s, a).sequence);
          WasCalledGrows(s, t);
        }
      }
    } else if e.Cancel? && e.id in s.active {
      IndexedInHeap(s.heap, s.timers, s.active);
    }
    hide Inv;
    assert a in t.heap && t.heap[a].sequence == number ==> Stored(t, number, when, interval) by {
      if a in t.heap && t.heap[a].sequence == number {
        assert t.heap[a].interval == interval;
      }
    }
  }

  lemma StepRemembers(s: State, e: Event, number: nat, when: nat, interval: real)
    requires Inv(s) && Bounds(s) && Enabled(s, e) && Remembered(s, number, when, interval)
    requires e.Cancel? ==> e.id.1 != number
    ensures Remembered(Next(s, e), number, when, interval)
  {
    hide Bounds, Next, WasCalled, Stored, BatchCalled;
    BatchCalledStays(s, e);
    UnmarkedStays(s, e, number);
    if Stored(s, number, when, interval) {
      StoredStays(s, e, number, when, interval);
    } else {
      LogGrows(s, e);
      WasCalledGrows(s, Next(s, e));
    }
  }

  lemma LogGrows(s: State, e: Event)
    requires Inv(s) && Bounds(s) && Enabled(s, e)
    ensures s.log <= Next(s, e).log
  {
    BatchAfter(s, e);
    if e.CallNext? {
      CallEffect(s);
    }
    hide Inv, Bounds, Next;
  }

  lemma {:induction false} RunRemembers(s: State, es: seq<Event>, number: nat, when: nat, interval: real)
    requires CallInv(s) && Legal(s, es) && Remembered(s, number, when, interval)
    requires forall i :: 0 <= i < |es| && es[i].Cancel? ==> es[i].id.1 != number
    ensures CallInv(Run(s, es)) && Remembered(Run(s, es), number, when, interval)
  {
    hide Inv, Bounds, GoodLog, BatchInOrder, PastCalls, Next, Enabled, Remembered;
    if es != [] {
      var before, e := es[..|es| - 1], es[|es| - 1];
      RunRemembers(s, before, number, when, interval);
      StepKeepsCalls(Run(s, before), e);
      StepRemembers(Run(s, before), e, number, when, interval);
    }
  }

  /** Over every run, the batch taken so far was called. */
  lemma {:induction false} AlwaysBatchCalled(clock: nat, es: seq<Event>)
    requires 0 < clock < TWO_63 && Legal(Initial(clock), es)
    ensures BatchCalled(Run(Initial(clock), es))
  {
    if es != [] {
      var before := es[..|es| - 1];
      AlwaysBatchCalled(clock, before);
      AlwaysCallInv(clock, before);
      hide Bounds, BatchCalled, Next, Enabled;
      BatchCalledStays(Run(Initial(clock), before), es[|es| - 1]);
    }
  }

  /**
   * A timer that nobody cancels is never forgotten: in every later state it is stored, with its interval, in exactly
   * one of the queue of additions, the indexes and the batch; only a timer for one call, once it has had it, may go.
   */
  lemma NoTimerIsForgotten(clock: nat, before: seq<Event>, addr: Addr, when: nat, interval: real, rest: seq<Event>)
    requires 0 < clock < TWO_63 && Legal(Initial(clock), before)
    requires Enabled(Run(Initial(clock), before), New(addr, when, interval))
    requires Legal(Next(Run(Initial(clock), before), New(addr, when, interval)), rest)
    requires forall i :: 0 <= i < |rest| && rest[i].Cancel? ==>
               rest[i].id.1 != Run(Initial(clock), before).created
    ensures var number := Run(Initial(clock), before).created;
            var s := Run(Next(Run(Initial(clock), before), New(addr, when, interval)), rest);
            && (interval > 0.0 || !WasCalled(s, number) ==> Stored(s, number, when, interval))
            && (forall a :: a in s.heap && s.heap[a].sequence == number ==>
                  a in s.queued || (a, number) in s.active || Entry(s.heap[a].expiration, a) in Pending(s))
  {
    var s0, e := Run(Initial(clock), before), New(addr, when, interval);
    var number, s1 := s0.created, Next(s0, e);
    AlwaysCallInv(clock, before);
    AlwaysBatchCalled(clock, before);
    NewIsRemembered(s0, addr, when, interval);
    StepKeepsCalls(s0, e);
    RunRemembers(s1, rest, number, when, interval);
    OwnedSomewhere(Run(s1, rest));
    hide Inv, Bounds, Next, Enabled, WasCalled, Stored, BatchCalled, Legal, Run;
  }

  lemma OwnedSomewhere(s: State)
    requires Inv(s)
    ensures forall a :: a in s.heap ==>
              a in s.queued || (a, s.heap[a].sequence) in s.active || Entry(s.heap[a].expiration, a) in Pending(s)
  {
    hide Indexes, Sorted;
  }

  lemma NewIsRemembered(s: State, addr: Addr, when: nat, interval: real)
    requires CallInv(s) && BatchCalled(s) && Enabled(s, New(addr, when, interval))
    ensures Remembered(Next(s, New(addr, when, interval)), s.created, when, interval)
  {
    var e := New(addr, when, interval);
    var t := Next(s, e);
    NewEffect(s, addr, when, interval);
    BatchCalledStays(s, e);
    TimerCancel.PendingIdsStay(s, e);
    HeldInHeap(s);
    NumbersBelow(s);
    hide Inv, Bounds, GoodLog, BatchInOrder, PastCalls, Next, Pending, BatchCalled;
    assert addr in t.heap && t.heap[addr].sequence == s.created;
  }

  lemma NumbersBelow(s: State)
    requires Inv(s)
    ensures forall a :: a in s.heap ==> s.heap[a].sequence < s.created
  {
    hide Indexes, Sorted;
  }
}
