/**
 * The timer queue object. Everything it ever did is a run of the state machine, so what holds of all runs holds of
 * it.
 */
module TimerQueue {
  import opened Bytes
  import opened TimerSpec
  import P = TimerProofs
  import TimerCalls
  import TimerArming
  import TimerFates

  /** What a callback may do: add a timer, cancel one, or let time pass. */
  datatype Action = AddTimer(when: nat, interval: real) | CancelTimer(id: Id) | Pass(time: nat)

  predicate Possible(a: Action) {
    match a
    case AddTimer(when, interval) => when < TWO_64 && -TWO_63 <= Micros(interval) < TWO_63
    case CancelTimer(_) => true
    case Pass(time) => time < TWO_63
  }

  /** The events are what the actions of a callback amount to, in their order; time that lies behind does not pass. */
  ghost predicate Performs(script: seq<Action>, es: seq<Event>) {
    if script == [] then es == []
    else
      var before := script[..|script| - 1];
      exists n: nat :: n <= |es| && Done(script[|script| - 1], es[n..]) && Performs(before, es[..n])
  }

  /** The events of one action. */
  ghost predicate Done(a: Action, es: seq<Event>) {
    match a
    case AddTimer(when, interval) => exists addr :: es == [New(addr, when, interval), AddInLoop(addr)]
    case CancelTimer(id) => es == [Cancel(id)]
    case Pass(time) => es == [Tick(time)] || es == []
  }

  /** Each call of the batch, followed by what its callback did. */
  function CallEvents(traces: seq<seq<Event>>): seq<Event> {
    if traces == [] then [] else CallEvents(traces[..|traces| - 1]) + [CallNext] + traces[|traces| - 1]
  }

  function ResetEvents(n: nat): seq<Event> {
    if n == 0 then [] else ResetEvents(n - 1) + [ResetNext]
  }

  /** A batch from its beginning to its end: every timer called once, then every timer re-inserted or deleted. */
  function BatchEvents(traces: seq<seq<Event>>): seq<Event> {
    [Begin] + CallEvents(traces) + [EndCalls] + ResetEvents(|traces|) + [Rearm]
  }

  /** The timer is allocated and in neither index. */
  predicate Absent(heap: Heap, timers: seq<Entry>, active: set<Id>, addr: Addr) {
    && addr in heap && Sorted(timers)
    && (forall e :: e in timers ==> e.addr != addr) && (addr, heap[addr].sequence) !in active
  }

  class TimerQueue {
    var heap: Heap
    var timers: seq<Entry>
    var activeTimers: set<Id>
    var cancelingTimers: set<Id>
    var callingExpiredTimers: bool
    var queued: set<Addr>
    var created: nat
    // The clock and the timer descriptor
    var clock: nat
    var timerfd: Descriptor
    // The handler's locals and the history, for the specification
    ghost var stage: Stage
    ghost var batch: seq<Entry>
    ghost var now: nat
    ghost var next: nat
    ghost var log: seq<Call>
    ghost var batches: nat
    ghost var faulty: bool
    ghost const start: nat
    ghost var history: seq<Event>

    ghost function View(): State
      reads this
    {
      State(heap, timers, activeTimers, cancelingTimers, stage, batch, now, next, queued, created, clock, timerfd,
            log, batches, faulty)
    }

    /** The state is the one its history leads to. */
    ghost predicate Valid()
      reads this
    {
      && 0 < start < TWO_63
      && Legal(Initial(start), history) && View() == Run(Initial(start), history)
      && (callingExpiredTimers <==> stage == Calling)
    }

    constructor (clock: nat)
      requires 0 < clock < TWO_63
      ensures Valid() && View() == Initial(clock) && start == clock && history == []
    {
      heap, timers, activeTimers, cancelingTimers, callingExpiredTimers := map[], [], {}, {}, false;
      queued, created, this.clock, timerfd := {}, 0, clock, Disarmed;
      stage, batch, now, next, log, batches, faulty := Idle, [], 0, 0, [], 0, false;
      start, history := clock, [];
    }

    ghost method Record(before: State, e: Event)
      requires 0 < start < TWO_63 && Legal(Initial(start), history) && before == Run(Initial(start), history)
      requires Enabled(before, e) && View() == Next(before, e) && (callingExpiredTimers <==> stage == Calling)
      modifies this`history
      ensures Valid() && history == old(history) + [e] && View() == old(View())
    {
      RunPush(Initial(start), history, e);
      history := history + [e];
    }

    /** In every state the object reaches, the indexes agree, no pointer dangles and the times are in range. */
    lemma Sound()
      requires Valid()
      ensures P.Inv(View()) && TimerCalls.Bounds(View())
    {
      TimerCalls.AlwaysCallInv(start, history);
    }

    lemma AgreeingSizes()
      requires Valid()
      ensures |timers| == |activeTimers|
    {
      Sound();
    }

    /** The object's calls are due, spaced and ordered, and whenever its handler is not running it is armed in time. */
    lemma SoundCalls()
      requires Valid()
      ensures TimerCalls.GoodLog(log) && (stage == Idle ==> TimerArming.Covered(View()))
    {
      TimerCalls.AlwaysCallInv(start, history);
      TimerArming.AlwaysArmedInTime(start, history);
    }

    /** Allocates a timer at a free address. */
    method NewTimer(when: nat, interval: real, addr: Addr) returns (id: Id)
      requires Valid() && Enabled(View(), New(addr, when, interval))
      modifies this
      ensures Valid() && history == old(history) + [New(addr, when, interval)]
      ensures View() == Next(old(View()), New(addr, when, interval))
      ensures addr in heap && id == (addr, heap[addr].sequence) && addr in queued && clock == old(clock)
      ensures (stage, batch, now, next) == old((stage, batch, now, next))
    {
      hide Legal, Run;
      ghost var before := View();
      heap := heap[addr := Timer(when, interval, created)];
      id := (addr, created);
      queued := queued + {addr};
      created := created + 1;
      Record(before, New(addr, when, interval));
    }

    method AddTimerInLoop(addr: Addr)
      requires Valid() && Enabled(View(), AddInLoop(addr))
      modifies this
      ensures Valid() && history == old(history) + [AddInLoop(addr)]
      ensures View() == Next(old(View()), AddInLoop(addr))
      ensures clock == old(clock)
      ensures (stage, batch, now, next) == old((stage, batch, now, next))
    {
      hide Legal, Run;
      ghost var before := View();
      AllocatedIfQueued(addr);
      queued := queued - {addr};
      var earliestChanged := InsertTimer(addr);
      if earliestChanged {
        ResetTimerfd(heap[addr].expiration);
      }
      Record(before, AddInLoop(addr));
    }

    lemma AllocatedIfQueued(addr: Addr)
      requires Valid() && addr in queued
      ensures Absent(heap, timers, activeTimers, addr) && |timers| == |activeTimers|
    {
      Sound();
    }

    method CancelInLoop(id: Id)
      requires Valid() && Enabled(View(), Cancel(id))
      modifies this
      ensures Valid() && history == old(history) + [Cancel(id)]
      ensures View() == Next(old(View()), Cancel(id))
      ensures clock == old(clock) && |timers| == |activeTimers|
      ensures (stage, batch, now, next) == old((stage, batch, now, next))
    {
      hide Erase, Legal, Run;
      ghost var before := View();
      if id in activeTimers {
        ActiveAllocated(id);
        timers := Erase(timers, Entry(heap[id.0].expiration, id.0));
        heap := heap - {id.0};
        activeTimers := activeTimers - {id};
      } else if callingExpiredTimers {
        cancelingTimers := cancelingTimers + {id};
      }
      Record(before, Cancel(id));
      AgreeingSizes();
    }

    lemma ActiveAllocated(id: Id)
      requires Valid() && id in activeTimers
      ensures id.0 in heap
    {
      Sound();
    }

    /**
     * Inserts an allocated timer into both indexes, which stay sorted and grow by one. If it has become the earliest it
     * stands first; if not, it stands first only beside one of the same time.
     */
    method InsertTimer(addr: Addr) returns (earliestChanged: bool)
      requires Absent(heap, timers, activeTimers, addr)
      modifies this`timers, this`activeTimers
      ensures View() == Inserted(old(View()), addr)
      ensures Sorted(timers) && |timers| == |old(timers)| + 1 && |activeTimers| == |old(activeTimers)| + 1
      ensures earliestChanged == (old(timers) == [] || heap[addr].expiration < old(timers)[0].when)
      ensures earliestChanged ==> timers[0] == Entry(heap[addr].expiration, addr)
      ensures !earliestChanged ==> timers[0].when == old(timers)[0].when <= heap[addr].expiration
    {
      InsertSorted(timers, Entry(heap[addr].expiration, addr));
      var when := heap[addr].expiration;
      earliestChanged := timers == [] || when < timers[0].when;
      timers := Insert(timers, Entry(when, addr));
      activeTimers := activeTimers + {(addr, heap[addr].sequence)};
    }

    method ResetTimerfd(expiration: nat)
      modifies this`timerfd
      ensures View() == ArmedFor(old(View()), expiration)
    {
      timerfd := Armed(clock, clock + HowMuchTime(expiration, clock));
    }

    method PassTime(time: nat)
      requires Valid() && Enabled(View(), Tick(time))
      modifies this
      ensures Valid() && history == old(history) + [Tick(time)] && clock == time
      ensures View() == Next(old(View()), Tick(time))
      ensures (stage, batch, now, next) == old((stage, batch, now, next))
    {
      hide Legal, Run;
      ghost var before := View();
      clock := time;
      if timerfd.Armed? && timerfd.deadline <= time {
        timerfd := Fired;
      }
      Record(before, Tick(time));
    }

    /** The position of the first timer not before the sentry, found from the front. */
    method CountExpired() returns (k: nat)
      ensures k == LowerBound(timers, clock)
    {
      k := 0;
      while k < |timers| && timers[k].when < clock
        invariant k <= |timers| && LowerBound(timers, clock) == k + LowerBound(timers[k..], clock)
      {
        assert timers[k..][1..] == timers[k + 1..];
        k := k + 1;
      }
      assert LowerBound(timers[k..], clock) == 0;
    }

    /** Takes expired timers out of the index by pointer. */
    method EraseActive(expired: seq<Entry>, ghost s: State)
      requires s.heap == heap && forall e :: e in expired ==> e.addr in heap
      modifies this`activeTimers
      ensures activeTimers == old(activeTimers) - IdsOf(s, expired)
    {
      var i := 0;
      while i < |expired|
        invariant i <= |expired| && activeTimers == old(activeTimers) - IdsOf(s, expired[..i])
      {
        var e := expired[i];
        assert e in expired && expired[..i + 1] == expired[..i] + [e];
        activeTimers := activeTimers - {(e.addr, heap[e.addr].sequence)};
        assert IdsOf(s, expired[..i + 1]) == IdsOf(s, expired[..i]) + {(e.addr, heap[e.addr].sequence)};
        i := i + 1;
      }
      assert expired[..i] == expired;
    }

    /** Takes the expired timers out of both indexes. */
    method GetExpired() returns (expired: seq<Entry>)
      requires forall e :: e in timers ==> e.addr in heap
      modifies this`timers, this`activeTimers
      ensures var after := AfterBegin(old(View()));
              expired == after.batch && timers == after.timers && activeTimers == after.active
      ensures !Dangling(old(View()), expired)
    {
      hide LowerBound, IdsOf;
      var k := CountExpired();
      expired := timers[..k];
      assert forall e :: e in expired ==> e in timers;
      ghost var s := View();
      timers := timers[k..];
      EraseActive(expired, s);
    }

    /** Re-inserts a called timer if it repeats and was not cancelled, and deletes it otherwise. */
    method ResetTimer(e: Entry, at: nat)
      requires Valid() && Enabled(View(), ResetNext) && e == batch[next] && at == now
      modifies this
      ensures Valid() && history == old(history) + [ResetNext]
      ensures View() == Next(old(View()), ResetNext)
      ensures (stage, batch, now, next) == old((stage, batch, now, next + 1))
      ensures e.addr in old(heap)
      ensures var timer := old(heap)[e.addr];
              if timer.interval > 0.0 && (e.addr, timer.sequence) !in cancelingTimers then
                var later := Timer(at + Micros(timer.interval), timer.interval, timer.sequence);
                && heap == old(heap)[e.addr := later] && activeTimers == old(activeTimers) + {(e.addr, timer.sequence)}
                && (forall x :: x in timers <==> x in old(timers) || x == Entry(later.expiration, e.addr))
              else heap == old(heap) - {e.addr} && (timers, activeTimers) == old((timers, activeTimers))
    {
      hide Legal, Run, Next, Insert, TimerQueue.Valid, P.Inv, TimerCalls.Bounds;
      Sound();
      TimerFates.ResetEffectOnTimer(View());
      RestartOrDelete(e, at);
    }

    method RestartOrDelete(e: Entry, at: nat)
      requires Valid() && Enabled(View(), ResetNext) && e == batch[next] && at == now
      modifies this
      ensures Valid() && history == old(history) + [ResetNext]
      ensures View() == Next(old(View()), ResetNext)
      ensures (stage, batch, now, next) == old((stage, batch, now, next + 1))
    {
      hide Insert, AddTime, Legal, Run;
      ghost var before := View();
      PendingAllocated();
      assert e in P.Pending(before);
      var addr := e.addr;
      var t := heap[addr];
      next := next + 1;
      if t.Repeat() && (addr, t.sequence) !in cancelingTimers {
        heap := heap[addr := t.(expiration := AddTime(at, t.interval))];
        var _ := InsertTimer(addr);
      } else {
        heap := heap - {addr};
      }
      Record(before, ResetNext);
    }

    lemma PendingAllocated()
      requires Valid()
      ensures forall e :: e in P.Pending(View()) ==> Absent(heap, timers, activeTimers, e.addr)
    {
      Sound();
      P.HeldInHeap(View());
      P.PendingAbsent(View());
    }

    /** Re-inserts the timers that repeat and were not cancelled, deletes the others, and re-arms the descriptor. */
    method Reset(expired: seq<Entry>, at: nat)
      requires Valid() && stage == Resetting && next == 0 && expired == batch && at == now
      modifies this
      ensures Valid() && stage == Idle && history == old(history) + ResetEvents(|expired|) + [Rearm]
    {
      hide Legal, Run;
      var i := 0;
      while i < |expired|
        invariant Valid() && stage == Resetting && expired == batch && at == now && i == next <= |expired|
        invariant history == old(history) + ResetEvents(i)
      {
        ResetTimer(expired[i], at);
        i := i + 1;
      }
      RearmTimerfd();
    }

    method RearmTimerfd()
      requires Valid() && Enabled(View(), Rearm)
      modifies this
      ensures Valid() && history == old(history) + [Rearm] && stage == Idle
      ensures View() == Next(old(View()), Rearm)
    {
      hide Legal, Run;
      ghost var before := View();
      IndexedAllocated();
      stage := Idle;
      if timers != [] {
        assert timers[0] in timers;
        var nextExpire := heap[timers[0].addr].expiration;
        if nextExpire > 0 {
          ResetTimerfd(nextExpire);
        }
      }
      Record(before, Rearm);
    }

    lemma IndexedAllocated()
      requires Valid()
      ensures forall e :: e in timers ==> e.addr in heap
    {
      Sound();
    }

    /** One callback: any number of additions at free addresses, cancellations and passing of time. */
    method RunCallback(script: seq<Action>) returns (ghost trace: seq<Event>)
      requires Valid() && stage == Calling && forall a :: a in script ==> Possible(a)
      modifies this
      ensures Valid() && history == old(history) + trace && Performs(script, trace)
      ensures (stage, batch, now, next) == old((stage, batch, now, next))
    {
      hide Legal, Run, Performs;
      trace := [];
      PerformsNothing();
      for i := 0 to |script|
        invariant Valid() && stage == Calling && history == old(history) + trace && Performs(script[..i], trace)
        invariant (stage, batch, now, next) == old((stage, batch, now, next))
      {
        assert script[i] in script && script[..i + 1] == script[..i] + [script[i]];
        var done := Perform(script[i]);
        PerformsOneMore(script[..i], trace, script[i], done);
        trace := trace + done;
      }
      assert script[..|script|] == script;
    }

    method Perform(a: Action) returns (ghost done: seq<Event>)
      requires Valid() && stage == Calling && Possible(a)
      modifies this
      ensures Valid() && history == old(history) + done && Done(a, done)
      ensures (stage, batch, now, next) == old((stage, batch, now, next))
    {
      hide Legal, Run;
      match a
      case AddTimer(when, interval) =>
        ghost var bound := UpperBound(heap.Keys);
        assert bound !in heap;
        var addr: Addr :| addr !in heap;
        var _ := NewTimer(when, interval, addr);
        AddTimerInLoop(addr);
        done := [New(addr, when, interval), AddInLoop(addr)];
      case CancelTimer(id) =>
        CancelInLoop(id);
        done := [Cancel(id)];
      case Pass(time) =>
        done := [];
        if clock <= time {
          PassTime(time);
          done := [Tick(time)];
        }
    }

    /**
     * The handler of the timer descriptor: takes the expired timers, calls each of their callbacks in turn, whatever
     * they do (`scripts[i]` is what the i-th does), and then re-inserts or deletes the timers called.
     */
    method HandleRead(scripts: seq<seq<Action>>) returns (ghost traces: seq<seq<Event>>)
      requires Valid() && stage == Idle
      requires forall i, j :: 0 <= i < |scripts| && 0 <= j < |scripts[i]| ==> Possible(scripts[i][j])
      modifies this
      ensures Valid() && stage == Idle && history == old(history) + BatchEvents(traces)
      ensures |traces| == |AfterBegin(old(View())).batch|
      ensures forall i :: 0 <= i < |traces| ==> Performs(if i < |scripts| then scripts[i] else [], traces[i])
    {
      hide TimerQueue.Valid, CallEvents, Performs, AfterBegin;
      var at := clock;
      var expired := BeginHandling();
      traces := CallExpired(expired, scripts);
      EndCalling();
      Reset(expired, at);
    }

    /** Calls the timers of a batch from the first to the last. */
    method CallExpired(expired: seq<Entry>, scripts: seq<seq<Action>>) returns (ghost traces: seq<seq<Event>>)
      requires Valid() && stage == Calling && batch == expired && next == 0
      requires forall i, j :: 0 <= i < |scripts| && 0 <= j < |scripts[i]| ==> Possible(scripts[i][j])
      modifies this
      ensures Valid() && history == old(history) + CallEvents(traces) && |traces| == |expired|
      ensures (stage, batch, now, next) == old((stage, batch, now, |expired|))
      ensures forall i :: 0 <= i < |traces| ==> Performs(if i < |scripts| then scripts[i] else [], traces[i])
    {
      hide TimerQueue.Valid, Performs;
      traces := [];
      var i := 0;
      while i < |expired|
        invariant Valid() && i == |traces| <= |expired| && (stage, batch, now, next) == old((stage, batch, now, i))
        invariant history == old(history) + CallEvents(traces)
        invariant forall k :: 0 <= k < i ==> Performs(if k < |scripts| then scripts[k] else [], traces[k])
      {
        ghost var trace := CallOne(expired[i], if i < |scripts| then scripts[i] else []);
        CallEventsPush(traces, trace);
        traces := traces + [trace];
        i := i + 1;
      }
    }

    /** One timer of the batch, and what its callback does. */
    method CallOne(e: Entry, script: seq<Action>) returns (ghost trace: seq<Event>)
      requires Valid() && Enabled(View(), CallNext) && e == batch[next] && forall a :: a in script ==> Possible(a)
      modifies this
      ensures Valid() && history == old(history) + [CallNext] + trace && Performs(script, trace)
      ensures (stage, batch, now, next) == old((stage, batch, now, next + 1))
    {
      hide Legal, Run, Performs;
      CallTimer(e);
      trace := RunCallback(script);
    }

    method EndCalling()
      requires Valid() && Enabled(View(), EndCalls)
      modifies this
      ensures Valid() && history == old(history) + [EndCalls]
      ensures View() == Next(old(View()), EndCalls)
      ensures (stage, batch, now, next) == old((Resetting, batch, now, 0))
    {
      hide Legal, Run;
      ghost var before := View();
      callingExpiredTimers := false;
      stage, next := Resetting, 0;
      Record(before, EndCalls);
    }

    /** Reads the descriptor, takes the expired timers and clears the marks of the last batch. */
    method BeginHandling() returns (expired: seq<Entry>)
      requires Valid() && stage == Idle
      modifies this
      ensures Valid() && history == old(history) + [Begin]
      ensures View() == Next(old(View()), Begin)
      ensures stage == Calling && batch == expired == AfterBegin(old(View())).batch && now == old(clock) && next == 0
      ensures |timers| == |activeTimers|
    {
      hide AfterBegin, Legal, Run;
      ghost var before := View();
      IndexedAllocated();
      expired := TakeBatch();
      Record(before, Begin);
      AgreeingSizes();
    }

    /** Follows the pointer of the next timer of the batch; its callback runs after this. */
    method CallTimer(e: Entry)
      requires Valid() && Enabled(View(), CallNext) && e == batch[next]
      modifies this
      ensures Valid() && history == old(history) + [CallNext]
      ensures (stage, batch, now, next) == old((stage, batch, now, next + 1))
      ensures View() == Next(old(View()), CallNext)
    {
      hide Legal, Run;
      ghost var before := View();
      PendingAllocated();
      assert e in P.Pending(before);
      ghost var t := heap[e.addr];
      next, log := next + 1, log + [Call.Call(t.sequence, t.interval, t.expiration, now, batches)];
      Record(before, CallNext);
    }

    /** Reads the descriptor; if it has not fired, the read fails and changes nothing. */
    method ReadTimerfd()
      modifies this`timerfd
      ensures timerfd == if old(timerfd).Fired? then Disarmed else old(timerfd)
    {
      if timerfd.Fired? {
        timerfd := Disarmed;
      }
    }

    method TakeBatch() returns (expired: seq<Entry>)
      requires stage == Idle && forall e :: e in timers ==> e.addr in heap
      modifies this
      ensures View() == AfterBegin(old(View())) && history == old(history) && callingExpiredTimers
      ensures stage == Calling && batch == expired && now == old(clock) && next == 0
    {
      hide AfterBegin, Dangling;
      ghost var before := View();
      ReadTimerfd();
      ghost var read := View();
      BeginInParts(before, read);
      expired := GetExpired();
      assert View() == read.(timers := AfterBegin(read).timers, active := AfterBegin(read).active);
      MarkCalling(expired);
    }

    /** From here to the end of the batch, cancellations of its timers are marked. */
    method MarkCalling(expired: seq<Entry>)
      modifies this`callingExpiredTimers, this`cancelingTimers,
               this`stage, this`batch, this`now, this`next, this`batches
      ensures View() == old(View()).(canceling := {}, stage := Calling, batch := expired, now := clock, next := 0,
                                     batches := old(batches) + 1)
      ensures callingExpiredTimers
    {
      callingExpiredTimers := true;
      cancelingTimers := {};
      EnterBatch(expired);
    }

    ghost method EnterBatch(expired: seq<Entry>)
      modifies this`stage, this`batch, this`now, this`next, this`batches
      ensures View() == old(View()).(stage := Calling, batch := expired, now := clock, next := 0,
                                     batches := old(batches) + 1)
    {
      stage, batch, now, next, batches := Calling, expired, clock, 0, batches + 1;
    }
  }

  lemma PerformsNothing()
    ensures Performs([], [])
  {
  }

  lemma PerformsOneMore(script: seq<Action>, es: seq<Event>, a: Action, done: seq<Event>)
    requires Performs(script, es) && Done(a, done)
    ensures Performs(script + [a], es + done)
  {
    hide Done;
    var all, longer := es + done, script + [a];
    assert longer[..|longer| - 1] == script && longer[|longer| - 1] == a;
    assert all[|es|..] == done && all[..|es|] == es;
  }

  lemma CallEventsPush(traces: seq<seq<Event>>, last: seq<Event>)
    ensures CallEvents(traces + [last]) == CallEvents(traces) + [CallNext] + last
  {
    assert (traces + [last])[..|traces|] == traces;
  }

  /**
   * The fields that the begin of a batch sets, and that reading the descriptor first makes no difference to the
   * others.
   */
  lemma BeginInParts(s: State, read: State)
    requires read == s.(descriptor := if s.descriptor.Fired? then Disarmed else s.descriptor)
    ensures var after := AfterBegin(read);
            AfterBegin(s) == read.(timers := after.timers, active := after.active, canceling := {}, stage := Calling,
                                   batch := after.batch, now := s.clock, next := 0, batches := s.batches + 1,
                                   faulty := s.faulty || Dangling(read, after.batch))
  {
    SameHeapSameIds(s, read, s.timers[..LowerBound(s.timers, s.clock)]);
    hide LowerBound, IdsOf, Dangling;
  }

  lemma {:induction false} UpperBound(used: set<nat>) returns (bound: nat)
    ensures forall x :: x in used ==> x < bound
  {
    if used == {} {
      bound := 0;
    } else {
      var x :| x in used;
      var others := UpperBound(used - {x});
      bound := Max(others, x + 1);
      assert forall y :: y in used ==> y == x || y in used - {x};
    }
  }
}
