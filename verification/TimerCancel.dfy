/** What a cancellation does to every later step, and what it leaves alone. */
module TimerCancel {
  import opened TimerSpec
  import opened TimerProofs
  import opened TimerCalls

  // Cancelling a timer that is active, or in the batch being called

  /** The id belongs to a timer of the two indexes. */
  predicate IsActive(s: State, id: Id) {
    id in s.active
  }

  /** The id belongs to a timer of the batch whose callbacks are being called. */
  predicate IsBeingCalled(s: State, id: Id) {
    s.stage == Calling && exists e :: e in s.batch && IdAt(s, e.addr) == id
  }

  /**
   * A cancelled timer is gone, or it waits in its batch, marked, to be deleted by the reset; `n` counts the calls so
   * far.
   */
  predicate Doomed(s: State, id: Id, batch: nat, n: nat) {
    && id.1 < s.created && n <= |s.log|
    && (forall a :: a in s.heap && s.heap[a].sequence == id.1 ==>
          a == id.0 && s.batches == batch && Entry(s.heap[a].expiration, a) in Pending(s) && id in s.canceling)
    && (forall i :: n <= i < |s.log| && s.log[i].sequence == id.1 ==> s.log[i].batch == batch)
  }

  lemma CancelDooms(s: State, id: Id)
    requires Inv(s) && Enabled(s, Cancel(id)) && (IsActive(s, id) || IsBeingCalled(s, id))
    ensures Doomed(Next(s, Cancel(id)), id, s.batches, |s.log|)
  {
    hide Owners, Sorted, Insert, Erase;
    IndexedInHeap(s.heap, s.timers, s.active);
    HeldInHeap(s);
    hide Indexes;
    if IsActive(s, id) {
      SequenceIdentifies(s, id.0);
    } else {
      var e :| e in s.batch && IdAt(s, e.addr) == id;
      assert e in Pending(s);
      SequenceIdentifies(s, e.addr);
      assert e == Entry(s.heap[e.addr].expiration, e.addr);
      assert Pending(Next(s, Cancel(id))) == Pending(s);
    }
  }

  lemma StepKeepsDoomed(s: State, e: Event, id: Id, batch: nat, n: nat)
    requires Inv(s) && Enabled(s, e) && Doomed(s, id, batch, n)
    ensures Doomed(Next(s, e), id, batch, n)
  {
    var after := Next(s, e);
    if e.CallNext? {
      HeldInHeap(s);
      hide Indexes, Owners, Sorted;
      assert s.batch[s.next] in Pending(s);
      assert Pending(after) == Pending(s);
    } else if e.ResetNext? {
      ResetKeepsDoomed(s, id, batch, n);
    } else {
      OthersKeepDoomed(s, e, id, batch, n);
    }
  }

  lemma ResetKeepsDoomed(s: State, id: Id, batch: nat, n: nat)
    requires Inv(s) && Enabled(s, ResetNext) && Doomed(s, id, batch, n)
    ensures Doomed(Next(s, ResetNext), id, batch, n)
  {
    ResetEffect(s);
    HeldInHeap(s);
    var e, after := s.batch[s.next], Next(s, ResetNext);
    assert e in Pending(s);
    assert e.addr in after.heap ==> IdAt(s, e.addr) !in s.canceling by {
      hide Indexes, Owners, Sorted, Insert, AddTime;
    }
    assert after.canceling == s.canceling && after.batches == s.batches by {
      hide Indexes, Owners, Sorted, Insert, AddTime;
    }
    hide Inv, Next, Pending, AddTime;
  }

  lemma OthersKeepDoomed(s: State, e: Event, id: Id, batch: nat, n: nat)
    requires Inv(s) && Enabled(s, e) && Doomed(s, id, batch, n) && !e.CallNext? && !e.ResetNext?
    ensures Doomed(Next(s, e), id, batch, n)
  {
    var after := Next(s, e);
    OthersEffect(s, e);
    PendingStays(s, e);
    hide Inv, Next, Pending, Called;
  }

  /** Away from the reset, pending entries stay pending, and their marks stay. */
  lemma PendingStays(s: State, e: Event)
    requires Enabled(s, e) && !e.ResetNext? && s.next <= |s.batch|
    ensures var after := Next(s, e);
            Pending(s) == []
            || (Pending(after) == Pending(s) && after.batches == s.batches && s.canceling <= after.canceling)
    ensures !e.Begin? ==> Pending(Next(s, e)) == Pending(s)
  {
    hide Insert, Erase, LowerBound, IdsOf, HowMuchTime;
  }

  lemma {:induction false} StaysDoomed(s: State, es: seq<Event>, id: Id, batch: nat, n: nat)
    requires Inv(s) && Legal(s, es) && Doomed(s, id, batch, n)
    ensures Inv(Run(s, es)) && Doomed(Run(s, es), id, batch, n)
  {
    hide Inv, Doomed, Next, Enabled;
    if es != [] {
      var before := es[..|es| - 1];
      StaysDoomed(s, before, id, batch, n);
      StepKeepsInv(Run(s, before), es[|es| - 1]);
      StepKeepsDoomed(Run(s, before), es[|es| - 1], id, batch, n);
    }
  }

  /**
   * Once a cancellation runs for an active timer, its callback never runs again. Once it runs for a timer of the batch
   * being called, repeating or not, its callback runs at most in the rest of that batch and never in a later one.
   */
  lemma CancelIsFinal(clock: nat, before: seq<Event>, id: Id, rest: seq<Event>)
    requires 0 < clock < TWO_63 && Legal(Initial(clock), before)
    requires var s := Run(Initial(clock), before);
             && Enabled(s, Cancel(id)) && (IsActive(s, id) || IsBeingCalled(s, id))
             && Legal(Next(s, Cancel(id)), rest)
    ensures var s := Run(Initial(clock), before);
            var end := Run(Next(s, Cancel(id)), rest);
            forall i :: |s.log| <= i < |end.log| && end.log[i].sequence == id.1 ==>
              !IsActive(s, id) && end.log[i].batch == s.batches
  {
    IndexesAlwaysAgree(clock, before);
    var s := Run(Initial(clock), before);
    var cancelled := Next(s, Cancel(id));
    StepKeepsInv(s, Cancel(id));
    CancelDooms(s, id);
    StaysDoomed(cancelled, rest, id, s.batches, |s.log|);
    if IsActive(s, id) {
      var none := s.batches + 1;
      assert Doomed(cancelled, id, none, |s.log|) by {
        GoneFromHeap(s, id);
      }
      StaysDoomed(cancelled, rest, id, none, |s.log|);
    }
  }

  /**
   * Cancelling a timer of the batch being called takes nothing out of the batch: if its callback has not run, it is
   * called all the same.
   */
  lemma CancelledInBatchIsStillCalled(s: State, i: nat)
    requires Inv(s) && s.stage == Calling && s.next <= i < |s.batch|
    ensures var after := Next(s, Cancel(IdAt(s, s.batch[i].addr)));
            && (after.stage, after.batch, after.next, after.heap) == (Calling, s.batch, s.next, s.heap)
            && (i == s.next ==> Enabled(after, CallNext)
                                && AfterCall(after).log == s.log + AfterCall(after).log[|s.log|..]
                                && AfterCall(after).log[|s.log|].sequence == At(s, s.batch[i].addr).sequence)
  {
    assert s.batch[i] in Pending(s);
    hide Indexes, Sorted, Erase;
  }

  lemma GoneFromHeap(s: State, id: Id)
    requires Inv(s) && IsActive(s, id) && Enabled(s, Cancel(id))
    ensures forall a :: a in Next(s, Cancel(id)).heap ==> Next(s, Cancel(id)).heap[a].sequence != id.1
  {
    hide Owners, Sorted, Erase;
    IndexedInHeap(s.heap, s.timers, s.active);
    hide Indexes;
    SequenceIdentifies(s, id.0);
  }

  /** No batch calls a timer twice, so the rest of the batch holds at most one call of a cancelled timer. */
  lemma OneCallPerBatch(clock: nat, es: seq<Event>, i: nat, j: nat)
    requires 0 < clock < TWO_63 && Legal(Initial(clock), es)
    requires i < j < |Run(Initial(clock), es).log|
    ensures var log := Run(Initial(clock), es).log;
            log[i].batch == log[j].batch ==> log[i].sequence != log[j].sequence
  {
    CallsOfEveryRun(clock, es);
  }

  // Cancelling a timer that is gone, whose address may belong to a newer one

  /** Two states that differ in cancellation marks only, and in none of a pending timer. */
  predicate SameButMarks(s: State, t: State) {
    && t == s.(canceling := t.canceling)
    && (forall e :: e in Pending(s) ==> (IdAt(s, e.addr) in s.canceling <==> IdAt(s, e.addr) in t.canceling))
  }

  lemma BeginIgnoresMarks(s: State, t: State)
    requires t == s.(canceling := t.canceling)
    ensures AfterBegin(t) == AfterBegin(s)
  {
    SameHeapSameIds(s, t, s.timers[..LowerBound(s.timers, s.clock)]);
    hide LowerBound, IdsOf, Dangling;
  }

  lemma ResetIgnoresOtherMarks(s: State, t: State)
    requires SameButMarks(s, t) && Enabled(s, ResetNext)
    ensures AfterReset(t) == AfterReset(s).(canceling := t.canceling)
  {
    assert s.batch[s.next] in Pending(s);
    hide Insert, AddTime;
  }

  lemma AddIgnoresMarks(s: State, t: State, a: Addr)
    requires t == s.(canceling := t.canceling)
    ensures AfterAdd(t, a) == AfterAdd(s, a).(canceling := t.canceling)
  {
    hide Insert, HowMuchTime;
  }

  lemma CancelIgnoresMarks(s: State, t: State, id: Id)
    requires t == s.(canceling := t.canceling)
    ensures AfterCancel(t, id) == AfterCancel(s, id).(canceling := AfterCancel(t, id).canceling)
  {
    hide Erase;
  }

  lemma CallAndRearmIgnoreMarks(s: State, t: State)
    requires t == s.(canceling := t.canceling)
    ensures AfterRearm(t) == AfterRearm(s).(canceling := t.canceling)
    ensures Enabled(s, CallNext) ==> AfterCall(t) == AfterCall(s).(canceling := t.canceling)
  {
    hide HowMuchTime;
  }

  /** Only the reset of a timer looks at its mark. */
  lemma StepIgnoresMarks(s: State, t: State, e: Event)
    requires SameButMarks(s, t) && Enabled(s, e)
    ensures Enabled(t, e) && Next(t, e) == Next(s, e).(canceling := Next(t, e).canceling)
  {
    if e.ResetNext? {
      ResetIgnoresOtherMarks(s, t);
    }
    BeginIgnoresMarks(s, t);
    CallAndRearmIgnoreMarks(s, t);
    AddIgnoresMarks(s, t, if e.AddInLoop? then e.addr else 0);
    CancelIgnoresMarks(s, t, if e.Cancel? then e.id else (0, 0));
    hide AfterAdd, AfterCancel, AfterCall, AfterRearm, AfterReset, AfterBegin;
  }

  lemma MarksAfter(s: State, t: State, e: Event, id: Id)
    requires s.stage == t.stage && s.active == t.active && Enabled(s, e) && Enabled(t, e)
    requires id in s.canceling <==> id in t.canceling
    ensures id in Next(s, e).canceling <==> id in Next(t, e).canceling
  {
    hide Next;
    CancelingAfter(s, e);
    CancelingAfter(t, e);
  }

  /** Only a cancellation in the middle of a batch adds a mark, and only the next batch removes the marks. */
  lemma CancelingAfter(s: State, e: Event)
    requires Enabled(s, e)
    ensures Next(s, e).canceling ==
            if e.Begin? then {}
            else if e.Cancel? && e.id !in s.active && s.stage == Calling then s.canceling + {e.id}
            else s.canceling
  {
    hide Insert, Erase, LowerBound, IdsOf, HowMuchTime, AddTime;
  }

  lemma StepKeepsSame(s: State, t: State, e: Event)
    requires Inv(s) && SameButMarks(s, t) && Enabled(s, e)
    ensures Enabled(t, e) && SameButMarks(Next(s, e), Next(t, e))
  {
    StepIgnoresMarks(s, t, e);
    var after := Next(s, e);
    if e.Begin? {
      assert after.canceling == {} == Next(t, e).canceling;
    } else {
      PendingIdsStay(s, e);
      hide Inv, Next, Enabled, Pending;
      forall x | x in Pending(after)
        ensures IdAt(after, x.addr) in after.canceling <==> IdAt(after, x.addr) in Next(t, e).canceling
      {
        MarksAfter(s, t, e, IdAt(s, x.addr));
      }
    }
  }

  lemma PendingIdsStay(s: State, e: Event)
    requires Inv(s) && Enabled(s, e) && !e.Begin?
    ensures forall x :: x in Pending(Next(s, e)) ==> x in Pending(s) && IdAt(Next(s, e), x.addr) == IdAt(s, x.addr)
  {
    var after := Next(s, e);
    StepKeepsInv(s, e);
    HeldInHeap(s);
    HeldInHeap(after);
    if e.ResetNext? {
      ResetEffect(s);
    } else if e.CallNext? {
      PendingStays(s, e);
      assert after.heap == s.heap by {
        hide Inv;
      }
    } else {
      PendingStays(s, e);
      OthersEffect(s, e);
    }
    hide Inv, Next, Pending, Called;
  }

  lemma {:induction false} StaysSame(s: State, t: State, es: seq<Event>)
    requires Inv(s) && SameButMarks(s, t) && Legal(s, es)
    ensures Legal(t, es) && Inv(Run(s, es)) && SameButMarks(Run(s, es), Run(t, es))
  {
    hide Inv, SameButMarks, Next, Enabled;
    if es != [] {
      var before := es[..|es| - 1];
      StaysSame(s, t, before);
      StepKeepsInv(Run(s, before), es[|es| - 1]);
      StepKeepsSame(Run(s, before), Run(t, before), es[|es| - 1]);
    }
  }

  /**
   * Cancelling an id whose timer is gone, even if its address has been reused by a newer timer, changes nothing that
   * any later run could tell: every run stays possible, and heap, indexes, batches, calls and descriptor are the same.
   */
  lemma StaleCancelIsInvisible(clock: nat, before: seq<Event>, id: Id, rest: seq<Event>)
    requires Legal(Initial(clock), before)
    requires var s := Run(Initial(clock), before);
             && Enabled(s, Cancel(id)) && (id.0 in s.heap ==> s.heap[id.0].sequence != id.1)
             && Legal(s, rest)
    ensures var s := Run(Initial(clock), before);
            var cancelled := Next(s, Cancel(id));
            Legal(cancelled, rest) && Run(cancelled, rest) == Run(s, rest).(canceling := Run(cancelled, rest).canceling)
  {
    IndexesAlwaysAgree(clock, before);
    var s := Run(Initial(clock), before);
    IndexedInHeap(s.heap, s.timers, s.active);
    HeldInHeap(s);
    assert SameButMarks(s, Next(s, Cancel(id))) by {
      hide Inv;
    }
    StaysSame(s, Next(s, Cancel(id)), rest);
  }
}
