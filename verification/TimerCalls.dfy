/** When callbacks of timers run: over whole runs, for repeating timers too. */
module TimerCalls {
  import opened Bytes
  import opened TimerSpec
  import opened TimerProofs

  // The ranges of times

  predicate InRange(t: Timer) {
    t.expiration < TWO_64 && -TWO_63 <= Micros(t.interval) < TWO_63
  }

  predicate Bounds(s: State) {
    && 0 < s.clock < TWO_63 && s.now <= s.clock
    && (forall a :: a in s.heap ==> InRange(s.heap[a]))
  }

  lemma StepKeepsBounds(s: State, e: Event)
    requires Bounds(s) && Enabled(s, e)
    ensures Bounds(Next(s, e))
  {
    hide Micros, Insert, Erase, LowerBound, IdsOf, HowMuchTime;
  }

  // The calls

  /** No callback runs at or before the expiration of its timer. */
  predicate CallsDue(log: seq<Call>) {
    forall i :: 0 <= i < |log| ==> log[i].expiration < log[i].now
  }

  /** The pause a timer keeps after a call: its interval in microseconds, nothing if it has none. */
  function Pause(interval: real): nat {
    Max(0, Micros(interval))
  }

  /** Two calls of the same timer are made for times more than its interval apart. */
  predicate CallsSpaced(log: seq<Call>) {
    forall i, j :: 0 <= i < j < |log| && log[i].sequence == log[j].sequence ==>
      log[i].now + Pause(log[i].interval) < log[j].now
  }

  /** Within a batch all callbacks run for the same time, in the order of their expirations. */
  predicate CallsOrdered(log: seq<Call>) {
    forall i, j :: 0 <= i < j < |log| && log[i].batch == log[j].batch ==>
      log[i].now == log[j].now && log[i].expiration <= log[j].expiration
  }

  predicate GoodLog(log: seq<Call>) {
    CallsDue(log) && CallsSpaced(log) && CallsOrdered(log)
  }

  /** The entries of the current batch whose callbacks have run, as far as they are still pending. */
  function Called(s: State): seq<Entry> {
    match s.stage
    case Idle => []
    case Calling => if s.next <= |s.batch| then s.batch[..s.next] else []
    case Resetting => Pending(s)
  }

  predicate Contains(entries: seq<Entry>, a: Addr) {
    exists e :: e in entries && e.addr == a
  }

  /**
   * A timer that has run before is due its interval after that call, or it is pending and that call was in this
   * batch.
   */
  predicate Rested(c: Call, t: Timer, called: bool, now: nat) {
    c.interval == t.interval && (c.now + Pause(c.interval) <= t.expiration || (called && c.now == now))
  }

  predicate PastCalls(heap: Heap, log: seq<Call>, called: seq<Entry>, now: nat, created: nat) {
    && (forall c :: c in log ==> c.sequence < created)
    && (forall c, a :: c in log && a in heap && heap[a].sequence == c.sequence ==>
          Rested(c, heap[a], Contains(called, a), now))
  }

  /** The calls already made in the batch being called come before those still to make. */
  predicate BatchInOrder(s: State) {
    && (forall c :: c in s.log ==> c.batch <= s.batches)
    && (s.stage == Calling ==> forall c :: c in s.log && c.batch == s.batches ==> c.now == s.now)
    && (s.stage == Calling ==> forall c, i :: c in s.log && c.batch == s.batches && s.next <= i < |s.batch| ==>
          c.expiration <= s.batch[i].when)
  }

  predicate CallInv(s: State) {
    && Inv(s) && Bounds(s)
    && GoodLog(s.log) && BatchInOrder(s)
    && PastCalls(s.heap, s.log, Called(s), s.now, s.created)
  }

  lemma LogPush(log: seq<Call>, c: Call)
    requires GoodLog(log) && c.expiration < c.now
    requires forall d :: d in log && d.sequence == c.sequence ==> d.now + Pause(d.interval) < c.now
    requires forall d :: d in log && d.batch == c.batch ==> d.now == c.now && d.expiration <= c.expiration
    ensures GoodLog(log + [c])
  {
    hide Pause;
    var longer := log + [c];
    forall i, j | 0 <= i < j < |longer| && longer[i].sequence == longer[j].sequence
      ensures longer[i].now + Pause(longer[i].interval) < longer[j].now
    {
      if j == |log| {
        assert log[i] in log;
      }
    }
    forall i, j | 0 <= i < j < |longer| && longer[i].batch == longer[j].batch
      ensures longer[i].now == longer[j].now && longer[i].expiration <= longer[j].expiration
    {
      if j == |log| {
        assert log[i] in log;
      }
    }
  }

  /**
   * The next callback of the batch: the timer it belongs to is due, and was never called before its interval was
   * over.
   */
  lemma CallKeepsLog(s: State)
    requires CallInv(s) && Enabled(s, CallNext)
    ensures GoodLog(Next(s, CallNext).log) && BatchInOrder(Next(s, CallNext))
    ensures var after := Next(s, CallNext);
            PastCalls(after.heap, after.log, Called(after), after.now, after.created)
  {
    hide Pause, Indexes, GoodLog;
    var e := s.batch[s.next];
    var after := Next(s, CallNext);
    HeldInHeap(s);
    assert e in Pending(s);
    var t := s.heap[e.addr];
    var c := Call.Call(t.sequence, t.interval, t.expiration, s.now, s.batches);
    assert after.log == s.log + [c];
    assert !Contains(Called(s), e.addr) by {
      NotYetCalled(s);
    }
    LogPush(s.log, c);
    assert Called(after) == Called(s) + [e];
    SequenceIdentifies(s, e.addr);
    forall d, a | d in after.log && a in after.heap && after.heap[a].sequence == d.sequence
      ensures Rested(d, after.heap[a], Contains(Called(after), a), after.now)
    {
      if d == c {
        assert a == e.addr && e in Called(after);
      } else if Contains(Called(s), a) {
        var x :| x in Called(s) && x.addr == a;
        assert x in Called(after);
      }
    }
    SortedFrom(s.batch, s.next);
  }

  lemma SortedFrom(ts: seq<Entry>, k: nat)
    requires Sorted(ts) && k < |ts|
    ensures forall i :: k <= i < |ts| ==> ts[k].when <= ts[i].when
  {
    forall i | k < i < |ts|
      ensures ts[k].when <= ts[i].when
    {
      assert Before(ts[k], ts[i]);
    }
  }

  lemma NotYetCalled(s: State)
    requires Inv(s) && Enabled(s, CallNext)
    ensures !Contains(Called(s), s.batch[s.next].addr)
  {
    hide Indexes;
    assert Distinct(s.batch);
    forall e | e in Called(s)
      ensures e.addr != s.batch[s.next].addr
    {
      var i :| 0 <= i < s.next && s.batch[i] == e;
    }
  }

  lemma SequenceIdentifies(s: State, a: Addr)
    requires Inv(s) && a in s.heap
    ensures forall b :: b in s.heap && s.heap[b].sequence == s.heap[a].sequence ==> b == a
    ensures s.heap[a].sequence < s.created
  {
    hide Indexes, Held, Owned;
  }

  /** What a restart makes of the pause a timer needs after its calls. */
  lemma RestartRested(c: Call, t: Timer, called: bool, now: nat)
    requires Rested(c, t, called, now) && t.expiration < now < TWO_63 && t.Repeat() && InRange(t)
    ensures AddTime(now, t.interval) == now + Pause(t.interval)
    ensures Rested(c, t.(expiration := AddTime(now, t.interval)), false, now)
  {
    assert t.interval * 1000000.0 >= 0.0;
  }

  /** The effect of one step of the reset on everything the calls depend on. */
  lemma ResetEffect(s: State)
    requires Inv(s) && Enabled(s, ResetNext)
    ensures var a, after := s.batch[s.next].addr, Next(s, ResetNext);
            && after.log == s.log && after.now == s.now && after.created == s.created
            && Pending(s) == [s.batch[s.next]] + Pending(after)
            && Called(s) == Pending(s) && Called(after) == Pending(after)
            && (forall b :: b in after.heap ==> b in s.heap && (b != a ==> after.heap[b] == s.heap[b]))
            && (a in after.heap ==> s.heap[a].Repeat()
                                    && after.heap[a] == s.heap[a].(expiration := AddTime(s.now, s.heap[a].interval)))
  {
    hide Indexes, Owners, Sorted, AddTime, Insert;
    var after := Next(s, ResetNext);
    assert Called(after) == s.batch[s.next + 1..] && Called(s) == s.batch[s.next..];
    HeldInHeap(s);
    assert s.batch[s.next] in Pending(s);
  }

  lemma ResetKeepsPast(s: State)
    requires CallInv(s) && Enabled(s, ResetNext)
    ensures var after := Next(s, ResetNext);
            PastCalls(after.heap, after.log, Called(after), after.now, after.created)
  {
    var e := s.batch[s.next];
    var after := Next(s, ResetNext);
    ResetEffect(s);
    HeldInHeap(s);
    assert e in Pending(s);
    hide Pause, Inv, GoodLog, AddTime, Rested, Next, BatchInOrder, Called, Pending;
    assert forall x :: x in Called(s) <==> x == e || x in Called(after);
    forall c, a | c in after.log && a in after.heap && after.heap[a].sequence == c.sequence
      ensures Rested(c, after.heap[a], Contains(Called(after), a), after.now)
    {
      assert s.heap[a].sequence == c.sequence;
      assert Rested(c, s.heap[a], Contains(Called(s), a), s.now);
      if a != e.addr {
        assert Contains(Called(s), a) == Contains(Called(after), a);
      } else {
        RestartRested(c, s.heap[a], Contains(Called(s), a), s.now);
        RestedWeakens(c, after.heap[a], Contains(Called(after), a), s.now);
      }
    }
  }

  lemma RestedWeakens(c: Call, t: Timer, called: bool, now: nat)
    requires Rested(c, t, false, now)
    ensures Rested(c, t, called, now)
  {
  }

  lemma OthersKeepOrder(s: State, e: Event)
    requires BatchInOrder(s) && Enabled(s, e) && !e.CallNext?
    ensures Next(s, e).log == s.log && BatchInOrder(Next(s, e))
  {
    hide Insert, Erase, LowerBound, IdsOf, Pause, HowMuchTime, AddTime;
  }

  /** Away from calls and resets a timer in the heap stays as it was, unless it is new. */
  lemma OthersEffect(s: State, e: Event)
    requires Inv(s) && Enabled(s, e) && !e.CallNext? && !e.ResetNext?
    ensures var after := Next(s, e);
            && after.log == s.log && Called(after) == Called(s) && s.created <= after.created
            && (Called(s) != [] ==> after.now == s.now)
            && (forall a :: a in after.heap ==>
                  if a in s.heap then after.heap[a] == s.heap[a] else after.heap[a].sequence == s.created)
  {
    hide Indexes, Owners, Sorted, Insert, Erase, LowerBound, IdsOf, Pause, HowMuchTime;
    if e.EndCalls? || e.Rearm? {
      CalledAtTurns(s, e);
    } else {
      assert Pending(Next(s, e)) == Pending(s) || e.Begin?;
    }
  }

  lemma OthersKeepPast(s: State, e: Event)
    requires CallInv(s) && Enabled(s, e) && !e.CallNext? && !e.ResetNext?
    ensures var after := Next(s, e);
            PastCalls(after.heap, after.log, Called(after), after.now, after.created)
  {
    var after := Next(s, e);
    OthersEffect(s, e);
    hide Inv, Bounds, GoodLog, BatchInOrder, Next, Called, Pause;
    forall c, a | c in after.log && a in after.heap && after.heap[a].sequence == c.sequence
      ensures Rested(c, after.heap[a], Contains(Called(after), a), after.now)
    {
      assert c.sequence < s.created;
      assert Rested(c, s.heap[a], Contains(Called(s), a), s.now);
    }
  }

  lemma CalledAtTurns(s: State, e: Event)
    requires Inv(s) && Enabled(s, e) && (e.EndCalls? || e.Rearm?)
    ensures Called(Next(s, e)) == Called(s)
  {
  }

  lemma StepKeepsCalls(s: State, e: Event)
    requires CallInv(s) && Enabled(s, e)
    ensures CallInv(Next(s, e))
  {
    StepKeepsInv(s, e);
    StepKeepsBounds(s, e);
    if e.CallNext? {
      CallKeepsLog(s);
    } else if e.ResetNext? {
      ResetKeepsPast(s);
      OthersKeepOrder(s, e);
    } else {
      OthersKeepPast(s, e);
      OthersKeepOrder(s, e);
    }
    hide Next, Inv, Bounds, GoodLog, BatchInOrder, PastCalls, Called;
  }

  lemma {:induction false} AlwaysCallInv(clock: nat, es: seq<Event>)
    requires 0 < clock < TWO_63 && Legal(Initial(clock), es)
    ensures CallInv(Run(Initial(clock), es))
  {
    if es != [] {
      AlwaysCallInv(clock, es[..|es| - 1]);
      StepKeepsCalls(Run(Initial(clock), es[..|es| - 1]), es[|es| - 1]);
    }
  }

  /**
   * Over every run, with callbacks adding and cancelling timers in the middle of batches: no callback runs at or before
   * the expiration of its timer, callbacks of a batch run in order of expiration, and two calls of a repeating timer
   * are made for times more than its interval apart.
   */
  lemma CallsOfEveryRun(clock: nat, es: seq<Event>)
    requires 0 < clock < TWO_63 && Legal(Initial(clock), es)
    ensures CallsDue(Run(Initial(clock), es).log)
    ensures CallsSpaced(Run(Initial(clock), es).log)
    ensures forall i, j :: 0 <= i < j < |Run(Initial(clock), es).log| ==>
              var c, d := Run(Initial(clock), es).log[i], Run(Initial(clock), es).log[j];
              c.sequence == d.sequence ==> c.now + Micros(c.interval) < d.now
    ensures CallsOrdered(Run(Initial(clock), es).log)
  {
    AlwaysCallInv(clock, es);
  }
}
