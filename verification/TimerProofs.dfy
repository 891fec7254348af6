/** What holds of the timer queue in every state that any run can reach. */
module TimerProofs {
  import opened TimerSpec

  // Who owns which timer

  /** The entries of the batch that the handler still has to re-insert or delete. */
  function Pending(s: State): seq<Entry> {
    match s.stage
    case Idle => []
    case Calling => s.batch
    case Resetting => if s.next <= |s.batch| then s.batch[s.next..] else []
  }

  /** The two indexes describe the same timers, under their current expirations. */
  predicate Indexes(heap: Heap, timers: seq<Entry>, active: set<Id>) {
    && Sorted(timers) && |timers| == |active|
    && (forall e :: e in timers ==>
          e.addr in heap && heap[e.addr].expiration == e.when && (e.addr, heap[e.addr].sequence) in active)
    && (forall id :: id in active ==>
          id.0 in heap && heap[id.0].sequence == id.1 && Entry(heap[id.0].expiration, id.0) in timers)
  }

  predicate Distinct(entries: seq<Entry>) {
    forall i, j :: 0 <= i < j < |entries| ==> entries[i].addr != entries[j].addr
  }

  /** The entries of the batch are outside both indexes, with the expirations they were taken for. */
  predicate Held(heap: Heap, active: set<Id>, queued: set<Addr>, pending: seq<Entry>, now: nat) {
    && Distinct(pending)
    && (forall e :: e in pending ==>
          && e.addr in heap && heap[e.addr].expiration == e.when < now
          && (e.addr, heap[e.addr].sequence) !in active && e.addr !in queued)
  }

  predicate Queued(heap: Heap, active: set<Id>, queued: set<Addr>) {
    forall a :: a in queued ==> a in heap && (a, heap[a].sequence) !in active
  }

  predicate Owned(heap: Heap, active: set<Id>, queued: set<Addr>, pending: seq<Entry>) {
    forall a :: a in heap ==>
      a in queued || (a, heap[a].sequence) in active || Entry(heap[a].expiration, a) in pending
  }

  predicate Unique(heap: Heap, created: nat) {
    && (forall a :: a in heap ==> heap[a].sequence < created)
    && (forall a, b :: a in heap && b in heap && a != b ==> heap[a].sequence != heap[b].sequence)
  }

  /** Each timer in the heap is in exactly one of the queue of additions, the indexes, and the batch being handled. */
  predicate Owners(heap: Heap, active: set<Id>, queued: set<Addr>, pending: seq<Entry>, now: nat, created: nat) {
    && Held(heap, active, queued, pending, now)
    && Queued(heap, active, queued)
    && Owned(heap, active, queued, pending)
    && Unique(heap, created)
  }

  /** The two indexes agree, every timer has one owner, and no pointer outside the heap was ever followed or deleted. */
  predicate Inv(s: State) {
    && !s.faulty && s.next <= |s.batch| && Sorted(s.batch)
    && Indexes(s.heap, s.timers, s.active)
    && Owners(s.heap, s.active, s.queued, Pending(s), s.now, s.created)
  }

  lemma InsertKeepsIndexes(heap: Heap, timers: seq<Entry>, active: set<Id>, a: Addr)
    requires Indexes(heap, timers, active) && a in heap && (a, heap[a].sequence) !in active
    ensures Indexes(heap, Insert(timers, Entry(heap[a].expiration, a)), active + {(a, heap[a].sequence)})
  {
    var e := Entry(heap[a].expiration, a);
    InsertSorted(timers, e);
    hide Insert, Sorted;
    assert e !in timers;
  }

  lemma EraseKeepsIndexes(heap: Heap, timers: seq<Entry>, active: set<Id>, id: Id)
    requires Indexes(heap, timers, active) && id in active
    ensures Indexes(heap - {id.0}, Erase(timers, Entry(heap[id.0].expiration, id.0)), active - {id})
  {
    EraseSorted(timers, Entry(heap[id.0].expiration, id.0));
    hide Erase, Sorted;
  }

  /** The indexes do not depend on timers outside them. */
  lemma IndexesIgnoreOthers(heap: Heap, changed: Heap, timers: seq<Entry>, active: set<Id>, a: Addr)
    requires Indexes(heap, timers, active) && (a in heap ==> (a, heap[a].sequence) !in active)
    requires forall b :: b != a ==> (b in heap <==> b in changed) && (b in heap ==> heap[b] == changed[b])
    ensures Indexes(changed, timers, active)
  {
    hide Sorted;
  }

  lemma IndexedInHeap(heap: Heap, timers: seq<Entry>, active: set<Id>)
    requires Indexes(heap, timers, active)
    ensures forall id :: id in active ==> id.0 in heap && heap[id.0].sequence == id.1
    ensures forall e :: e in timers ==> e.addr in heap && heap[e.addr].expiration == e.when
  {
  }

  lemma NewOwners(heap: Heap, active: set<Id>, queued: set<Addr>, pending: seq<Entry>, now: nat, t: Timer, a: Addr)
    requires Owners(heap, active, queued, pending, now, t.sequence) && a !in heap
    requires forall id :: id in active ==> id.0 in heap
    ensures Owners(heap[a := t], active, queued + {a}, pending, now, t.sequence + 1)
  {
  }

  lemma NewKeeps(s: State, e: Event)
    requires Inv(s) && Enabled(s, e) && e.New?
    ensures Inv(Next(s, e))
  {
    var after := Next(s, e);
    hide Indexes, Owners, Sorted;
    IndexesIgnoreOthers(s.heap, after.heap, s.timers, s.active, e.addr);
    IndexedInHeap(s.heap, s.timers, s.active);
    NewOwners(s.heap, s.active, s.queued, Pending(s), s.now, after.heap[e.addr], e.addr);
    assert Pending(after) == Pending(s);
  }

  lemma AddOwners(heap: Heap, active: set<Id>, queued: set<Addr>, pending: seq<Entry>, now: nat, created: nat, a: Addr)
    requires Owners(heap, active, queued, pending, now, created) && a in queued
    ensures a in heap && (a, heap[a].sequence) !in active
    ensures Owners(heap, active + {(a, heap[a].sequence)}, queued - {a}, pending, now, created)
  {
  }

  lemma AddKeeps(s: State, addr: Addr)
    requires Inv(s) && Enabled(s, AddInLoop(addr))
    ensures Inv(Next(s, AddInLoop(addr)))
  {
    hide Indexes, Owners, Sorted, Insert;
    AddOwners(s.heap, s.active, s.queued, Pending(s), s.now, s.created, addr);
    InsertKeepsIndexes(s.heap, s.timers, s.active, addr);
    assert Pending(Next(s, AddInLoop(addr))) == Pending(s);
  }

  lemma CancelOwners(heap: Heap, active: set<Id>, queued: set<Addr>, pending: seq<Entry>, now: nat, created: nat,
                     id: Id)
    requires Owners(heap, active, queued, pending, now, created) && id in active
    requires id.0 in heap && heap[id.0].sequence == id.1
    ensures Owners(heap - {id.0}, active - {id}, queued, pending, now, created)
  {
    assert forall e :: e in pending ==> e.addr != id.0;
  }

  lemma CancelKeeps(s: State, id: Id)
    requires Inv(s) && Enabled(s, Cancel(id))
    ensures Inv(Next(s, Cancel(id)))
  {
    hide Indexes, Owners, Sorted, Erase;
    IndexedInHeap(s.heap, s.timers, s.active);
    if id in s.active {
      EraseKeepsIndexes(s.heap, s.timers, s.active, id);
      CancelOwners(s.heap, s.active, s.queued, Pending(s), s.now, s.created, id);
    }
    assert Pending(Next(s, Cancel(id))) == Pending(s);
  }

  lemma {:induction false} CountIds(s: State, batch: seq<Entry>)
    requires Distinct(batch)
    ensures |IdsOf(s, batch)| == |batch|
  {
    if batch != [] {
      CountIds(s, batch[1..]);
      assert batch == [batch[0]] + batch[1..];
      var first := IdAt(s, batch[0].addr);
      assert IdsOf(s, batch) == {first} + IdsOf(s, batch[1..]);
      assert first !in IdsOf(s, batch[1..]);
    }
  }

  lemma FirstIsEarliest(ts: seq<Entry>)
    requires Sorted(ts)
    ensures forall e :: e in ts ==> ts[0].when <= e.when
  {
    forall i | 0 < i < |ts|
      ensures ts[0].when <= ts[i].when
    {
      assert Before(ts[0], ts[i]);
    }
  }

  lemma SplitSorted(ts: seq<Entry>, now: nat)
    requires Sorted(ts)
    ensures var early, late := ts[..LowerBound(ts, now)], ts[LowerBound(ts, now)..];
            && early + late == ts && Sorted(early) && Sorted(late)
            && (forall e :: e in ts ==> (e in early <==> e.when < now))
            && (forall e :: e in ts ==> (e in late <==> now <= e.when))
            && ((late == [] || now < late[0].when) <==> !exists e :: e in ts && e.when == now)
  {
    LowerBoundSplits(ts, now);
    var k := LowerBound(ts, now);
    hide LowerBound;
    var early, late := ts[..k], ts[k..];
    assert ts == early + late;
    assert Sorted(early) && Sorted(late);
    assert forall e :: e in early ==> e.when < now;
    assert forall e :: e in late ==> now <= e.when;
    FirstIsEarliest(late);
    hide Sorted;
    assert late != [] ==> late[0] in ts;
  }

  /**
   * The batch is exactly the timers due before now, in order, and what stays is due at or after now. So the assert that
   * follows the search in the source holds exactly if no timer is due just now.
   */
  lemma ExpiredExactly(s: State)
    requires Sorted(s.timers)
    ensures var after := AfterBegin(s);
            && after.batch + after.timers == s.timers && Sorted(after.batch) && Sorted(after.timers)
            && (forall e :: e in s.timers ==> (e in after.batch <==> e.when < s.clock))
            && (forall e :: e in s.timers ==> (e in after.timers <==> s.clock <= e.when))
            && ((after.timers == [] || s.clock < after.timers[0].when) <==>
                !exists e :: e in s.timers && e.when == s.clock)
  {
    SplitSorted(s.timers, s.clock);
  }

  /** And a timer can be due just now: one that is added for the time the clock shows. */
  lemma DueJustNow(clock: nat)
    requires clock < TWO_64
    ensures var es := [New(1, clock, 0.0), AddInLoop(1)];
            && Legal(Initial(clock), es)
            && var s := Run(Initial(clock), es);
               Enabled(s, Begin) && AfterBegin(s).timers != [] && AfterBegin(s).timers[0].when == s.clock
  {
    var s, add, insert := Initial(clock), New(1, clock, 0.0), AddInLoop(1);
    assert Micros(0.0) == 0;
    assert Legal(s, []) && Run(s, []) == s;
    RunPush(s, [], add);
    RunPush(s, [add], insert);
    assert [] + [add] == [add] && [add] + [insert] == [add, insert];
  }

  lemma DistinctAddresses(heap: Heap, timers: seq<Entry>, active: set<Id>)
    requires Indexes(heap, timers, active)
    ensures Distinct(timers)
  {
    forall i, j | 0 <= i < j < |timers|
      ensures timers[i].addr != timers[j].addr
    {
      assert timers[i] in timers && timers[j] in timers;
      assert Before(timers[i], timers[j]);
    }
  }

  /** An entry is taken out of one index exactly if its id is taken out of the other. */
  lemma TakenTogether(s: State, e: Entry)
    requires Indexes(s.heap, s.timers, s.active) && e in s.timers
    ensures var batch := AfterBegin(s).batch;
            IdAt(s, e.addr) in IdsOf(s, batch) <==> e in batch
  {
    ExpiredExactly(s);
    var batch := AfterBegin(s).batch;
    IndexedInHeap(s.heap, s.timers, s.active);
    hide AfterBegin, Indexes, Sorted;
    if IdAt(s, e.addr) in IdsOf(s, batch) {
      var x :| x in batch && IdAt(s, x.addr) == IdAt(s, e.addr);
      assert x in s.timers;
      assert x == e;
    }
  }

  lemma BatchIds(s: State)
    requires Indexes(s.heap, s.timers, s.active)
    ensures var batch := AfterBegin(s).batch;
            Distinct(batch) && IdsOf(s, batch) <= s.active && |IdsOf(s, batch)| == |batch|
  {
    DistinctAddresses(s.heap, s.timers, s.active);
    var batch := AfterBegin(s).batch;
    assert forall i :: 0 <= i < |batch| ==> batch[i] == s.timers[i];
    CountIds(s, batch);
    assert forall e :: e in batch ==> e in s.timers;
    hide AfterBegin, Sorted;
    forall e | e in batch
      ensures IdAt(s, e.addr) in s.active
    {
      assert e in s.timers && e.addr in s.heap;
    }
  }

  lemma TakeKeepsIndexes(s: State)
    requires Indexes(s.heap, s.timers, s.active)
    ensures Indexes(s.heap, AfterBegin(s).timers, AfterBegin(s).active)
  {
    SortedIndexes(s.heap, s.timers, s.active);
    ExpiredExactly(s);
    BatchIds(s);
    var after := AfterBegin(s);
    assert after.active == s.active - IdsOf(s, after.batch);
    forall e | e in s.timers
      ensures (e.addr, s.heap[e.addr].sequence) in IdsOf(s, after.batch) <==> e in after.batch
    {
      TakenTogether(s, e);
    }
    hide AfterBegin, IdsOf, Sorted, Indexes;
    assert forall e :: e in s.timers <==> e in after.timers || e in after.batch;
    DropFromIndexes(s.heap, s.timers, s.active, after.timers, IdsOf(s, after.batch));
  }

  lemma DropFromIndexes(heap: Heap, timers: seq<Entry>, active: set<Id>, late: seq<Entry>, ids: set<Id>)
    requires Indexes(heap, timers, active) && Sorted(late) && ids <= active && |late| == |timers| - |ids|
    requires forall e :: e in late ==> e in timers
    requires forall e :: e in timers ==> ((e.addr, heap[e.addr].sequence) in ids <==> e !in late)
    ensures Indexes(heap, late, active - ids)
  {
    hide Sorted;
  }

  lemma BeginOwners(s: State)
    requires Indexes(s.heap, s.timers, s.active) && Owners(s.heap, s.active, s.queued, [], s.now, s.created)
    ensures var after := AfterBegin(s);
            Owners(s.heap, after.active, s.queued, after.batch, s.clock, s.created)
  {
    ExpiredExactly(s);
    BatchIds(s);
    var after := AfterBegin(s);
    assert after.active == s.active - IdsOf(s, after.batch);
    hide AfterBegin, Sorted;
    IndexedInHeap(s.heap, s.timers, s.active);
    forall e | e in after.batch
      ensures e.addr in s.heap && s.heap[e.addr].expiration == e.when < s.clock && e.addr !in s.queued
      ensures (e.addr, s.heap[e.addr].sequence) !in after.active
    {
      assert e in s.timers;
      assert IdAt(s, e.addr) in IdsOf(s, after.batch) && IdAt(s, e.addr) in s.active;
    }
    forall a | a in s.heap && (a, s.heap[a].sequence) in s.active && (a, s.heap[a].sequence) !in after.active
      ensures Entry(s.heap[a].expiration, a) in after.batch
    {
      TakenTogether(s, Entry(s.heap[a].expiration, a));
      assert IdAt(s, a) in IdsOf(s, after.batch);
    }
  }

  lemma BeginKeeps(s: State)
    requires Inv(s) && Enabled(s, Begin)
    ensures Inv(Next(s, Begin))
  {
    hide Indexes, Owners, Sorted, LowerBound, IdsOf;
    TakeKeepsIndexes(s);
    BeginOwners(s);
    ExpiredExactly(s) by {
      SortedIndexes(s.heap, s.timers, s.active);
    }
    IndexedInHeap(s.heap, s.timers, s.active);
    assert forall e :: e in AfterBegin(s).batch ==> e in s.timers;
  }

  lemma SortedIndexes(heap: Heap, timers: seq<Entry>, active: set<Id>)
    requires Indexes(heap, timers, active)
    ensures Sorted(timers)
  {
  }

  /** Re-inserting the first pending timer with a new expiration, or deleting it. */
  lemma ResetOwners(heap: Heap, active: set<Id>, queued: set<Addr>, pending: seq<Entry>, now: nat, created: nat,
                    t: Timer)
    requires Owners(heap, active, queued, pending, now, created) && pending != []
    requires forall id :: id in active ==> id.0 in heap && heap[id.0].sequence == id.1
    ensures var a := pending[0].addr;
            && a in heap && (forall id :: id in active ==> id.0 != a)
            && Owners(heap - {a}, active, queued, pending[1..], now, created)
            && (t.sequence == heap[a].sequence ==>
                  Owners(heap[a := t], active + {(a, t.sequence)}, queued, pending[1..], now, created))
  {
    var rest := pending[1..];
    var a := pending[0].addr;
    RestOfPending(pending);
    hide Distinct;
  }

  lemma RestOfPending(pending: seq<Entry>)
    requires pending != [] && Distinct(pending)
    ensures Distinct(pending[1..])
    ensures forall e :: e in pending[1..] ==> e in pending && e.addr != pending[0].addr
    ensures forall e :: e in pending ==> e == pending[0] || e in pending[1..]
    ensures pending[0] in pending
  {
    var rest := pending[1..];
    assert forall i :: 0 <= i < |rest| ==> rest[i] == pending[i + 1];
  }

  lemma ResetKeeps(s: State)
    requires Inv(s) && Enabled(s, ResetNext)
    ensures Inv(Next(s, ResetNext))
  {
    hide Indexes, Owners, Sorted, Insert, AddTime;
    var a, after := s.batch[s.next].addr, Next(s, ResetNext);
    var pending := Pending(s);
    assert pending[0] == s.batch[s.next] && pending[1..] == Pending(after);
    IndexedInHeap(s.heap, s.timers, s.active);
    var restarted := At(s, a).(expiration := AddTime(s.now, At(s, a).interval));
    ResetOwners(s.heap, s.active, s.queued, pending, s.now, s.created, restarted);
    IndexesIgnoreOthers(s.heap, after.heap, s.timers, s.active, a);
    if restarted.Repeat() && IdAt(s, a) !in s.canceling {
      InsertKeepsIndexes(after.heap, s.timers, s.active, a);
    }
  }

  lemma HeldInHeap(s: State)
    requires Owners(s.heap, s.active, s.queued, Pending(s), s.now, s.created)
    ensures forall e :: e in Pending(s) ==>
              e.addr in s.heap && s.heap[e.addr].expiration == e.when < s.now && IdAt(s, e.addr) !in s.active
  {
  }

  /** A pending timer is in neither index. */
  lemma PendingAbsent(s: State)
    requires Inv(s)
    ensures Sorted(s.timers)
    ensures forall e, x :: e in Pending(s) && x in s.timers ==> x.addr != e.addr
    ensures forall e :: e in Pending(s) ==> e.addr in s.heap && (e.addr, s.heap[e.addr].sequence) !in s.active
  {
    hide Sorted, Pending;
  }

  lemma CallKeeps(s: State)
    requires Inv(s) && Enabled(s, CallNext)
    ensures Inv(Next(s, CallNext))
  {
    HeldInHeap(s);
    hide Indexes, Owners, Sorted;
    assert s.batch[s.next] in Pending(s);
    assert Pending(Next(s, CallNext)) == Pending(s);
  }

  lemma RearmKeeps(s: State)
    requires Inv(s) && Enabled(s, Rearm)
    ensures Inv(Next(s, Rearm))
  {
    if s.timers != [] {
      IndexedInHeap(s.heap, s.timers, s.active);
      assert s.timers[0] in s.timers;
    }
    hide Indexes, Owners, Sorted, HowMuchTime;
    assert Pending(Next(s, Rearm)) == Pending(s);
  }

  lemma OthersKeep(s: State, e: Event)
    requires Inv(s) && Enabled(s, e) && (e.EndCalls? || e.Tick?)
    ensures Inv(Next(s, e))
  {
    hide Indexes, Owners, Sorted;
    assert Pending(Next(s, e)) == Pending(s);
  }

  lemma StepKeepsInv(s: State, e: Event)
    requires Inv(s) && Enabled(s, e)
    ensures Inv(Next(s, e))
  {
    hide Inv, Next;
    match e
    case New(_, _, _) => NewKeeps(s, e);
    case AddInLoop(addr) => AddKeeps(s, addr);
    case Cancel(id) => CancelKeeps(s, id);
    case Begin => BeginKeeps(s);
    case ResetNext => ResetKeeps(s);
    case CallNext => CallKeeps(s);
    case Rearm => RearmKeeps(s);
    case _ => OthersKeep(s, e);
  }

  /** Two-index agreement and single ownership, in every reachable state. */
  lemma {:induction false} IndexesAlwaysAgree(clock: nat, es: seq<Event>)
    requires Legal(Initial(clock), es)
    ensures Inv(Run(Initial(clock), es))
  {
    if es != [] {
      IndexesAlwaysAgree(clock, es[..|es| - 1]);
      StepKeepsInv(Run(Initial(clock), es[..|es| - 1]), es[|es| - 1]);
    }
  }
}
