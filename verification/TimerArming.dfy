/** The one timer descriptor is always armed early enough for the earliest timer. */
module TimerArming {
  import opened Bytes
  import opened TimerSpec
  import opened TimerProofs
  import opened TimerCalls

  /**
   * With timers outstanding, the descriptor has fired and not been read, or it is armed for a time no later than the
   * earliest expiration; an expiration less than 100 microseconds away when it was armed counts as 100 away.
   */
  predicate Covered(s: State) {
    s.timers != [] ==>
      s.descriptor.Fired?
      || (s.descriptor.Armed? && s.descriptor.deadline <= Max(s.timers[0].when, s.descriptor.at + 100))
  }

  /** The handler may leave the descriptor unarmed until its end, unless an expiration of zero stands first. */
  predicate ArmingInv(s: State) {
    s.stage == Idle || (s.timers != [] && s.timers[0].when == 0) ==> Covered(s)
  }

  lemma ArmedForCovers(s: State, expiration: nat)
    requires s.clock < TWO_63 && expiration < TWO_64
    requires s.timers != [] ==> expiration <= s.timers[0].when
    ensures Covered(ArmedFor(s, expiration))
  {
  }

  lemma AddKeepsArming(s: State, a: Addr)
    requires Inv(s) && Bounds(s) && ArmingInv(s) && Enabled(s, AddInLoop(a))
    ensures ArmingInv(Next(s, AddInLoop(a)))
  {
    SortedIndexes(s.heap, s.timers, s.active);
    AddOwners(s.heap, s.active, s.queued, Pending(s), s.now, s.created, a);
    InsertSorted(s.timers, Entry(s.heap[a].expiration, a));
    hide Inv, Insert, Sorted, HowMuchTime;
    var when, added := s.heap[a].expiration, Inserted(s, a).(queued := s.queued - {a});
    if s.timers == [] || when < s.timers[0].when {
      ArmedForCovers(added, when);
    } else {
      assert added.timers[0].when == s.timers[0].when;
    }
  }

  lemma CancelKeepsArming(s: State, id: Id)
    requires Inv(s) && ArmingInv(s) && Enabled(s, Cancel(id))
    ensures ArmingInv(Next(s, Cancel(id)))
  {
    SortedIndexes(s.heap, s.timers, s.active);
    var after := Next(s, Cancel(id));
    if id in s.active {
      var gone := Entry(At(s, id.0).expiration, id.0);
      EraseSorted(s.timers, gone);
      FirstIsEarliest(s.timers);
      assert after.timers == Erase(s.timers, gone) && after.descriptor == s.descriptor && after.stage == s.stage;
      assert after.timers != [] ==> after.timers[0] in s.timers;
    }
    hide Inv, Next, Erase, Sorted;
  }

  lemma BeginKeepsArming(s: State)
    requires Inv(s) && Bounds(s) && Enabled(s, Begin)
    ensures ArmingInv(Next(s, Begin))
  {
    hide Owners, Indexes, LowerBound, IdsOf;
    SortedIndexes(s.heap, s.timers, s.active);
    ExpiredExactly(s);
    var after := Next(s, Begin);
    assert after.stage == Calling && after == AfterBegin(s);
    hide Next, AfterBegin, Sorted, Inv;
    if after.timers != [] {
      assert after.timers[0] in after.timers;
      assert after.timers[0] in after.batch + after.timers;
    }
  }

  lemma ResetKeepsArming(s: State)
    requires Inv(s) && Bounds(s) && ArmingInv(s) && Enabled(s, ResetNext)
    ensures ArmingInv(Next(s, ResetNext))
  {
    SortedIndexes(s.heap, s.timers, s.active);
    HeldInHeap(s);
    var e, after := s.batch[s.next], Next(s, ResetNext);
    assert e in Pending(s);
    var t := s.heap[e.addr];
    if t.Repeat() && IdAt(s, e.addr) !in s.canceling {
      PositiveRestart(t, s.now);
      var entry := Entry(AddTime(s.now, t.interval), e.addr);
      InsertSorted(s.timers, entry);
      assert after.timers == Insert(s.timers, entry);
    } else {
      assert after.timers == s.timers;
    }
    assert after.descriptor == s.descriptor && after.stage == Resetting;
    hide Inv, Next, Insert, Sorted, AddTime, Pending;
  }

  lemma PositiveRestart(t: Timer, now: nat)
    requires InRange(t) && t.Repeat() && t.expiration < now < TWO_63
    ensures AddTime(now, t.interval) >= now
  {
    assert t.interval * 1000000.0 >= 0.0;
  }

  lemma RearmCovers(s: State)
    requires Inv(s) && Bounds(s) && ArmingInv(s) && Enabled(s, Rearm)
    ensures ArmingInv(Next(s, Rearm))
  {
    IndexedInHeap(s.heap, s.timers, s.active);
    if s.timers != [] {
      assert s.timers[0] in s.timers;
      hide Inv, HowMuchTime;
      ArmedForCovers(s.(stage := Idle), s.timers[0].when);
    }
  }

  lemma StepKeepsArming(s: State, e: Event)
    requires Inv(s) && Bounds(s) && ArmingInv(s) && Enabled(s, e)
    ensures ArmingInv(Next(s, e))
  {
    match e
    case AddInLoop(a) => AddKeepsArming(s, a);
    case Cancel(id) => CancelKeepsArming(s, id);
    case Begin => BeginKeepsArming(s);
    case ResetNext => ResetKeepsArming(s);
    case Rearm => RearmCovers(s);
    case _ =>
      hide Inv, Bounds;
  }

  /**
   * Whenever the loop goes back to polling, through any mix of additions, cancellations of the earliest timer, spurious
   * wake-ups and re-insertions, the descriptor wakes it up early enough.
   */
  lemma {:induction false} AlwaysArmedInTime(clock: nat, es: seq<Event>)
    requires 0 < clock < TWO_63 && Legal(Initial(clock), es)
    ensures ArmingInv(Run(Initial(clock), es))
    ensures Run(Initial(clock), es).stage == Idle ==> Covered(Run(Initial(clock), es))
  {
    if es != [] {
      var before := es[..|es| - 1];
      AlwaysArmedInTime(clock, before);
      AlwaysCallInv(clock, before);
      hide Inv, Bounds, Next, Covered;
      StepKeepsArming(Run(Initial(clock), before), es[|es| - 1]);
    }
  }
}
