/**
 * The asynchronous logger as a state machine over the contents of its buffers: producers append under the lock, one
 * backend collects, writes and recycles. A slot without a buffer is `None`, as a moved-from owner is null.
 */
module LoggingSpec {
  import opened Bytes
  import opened FixedBuffers

  type Text = seq<Byte>
  type Slot = Option<Text>

  /** The backend is about to take the lock, or outside it with collected buffers to write. */
  datatype Stage = AtLock | Writing

  datatype State = State(
    // Shared, under the lock
    current: Slot,
    spare: Slot,
    full: seq<Slot>,
    // The backend's locals
    stage: Stage,
    first: Slot,
    second: Slot,
    collected: seq<Slot>,
    next: nat,
    // History: the bytes given to the log file, the lines a buffer can hold, and whether null or an empty vector was
    // used
    written: Text,
    logged: Text,
    faulty: bool)

  datatype Event = Append(line: Text) | Collect | WriteNext | Recycle

  const INITIAL := State(Some([]), Some([]), [], AtLock, Some([]), Some([]), [], 0, [], [], false)

  predicate Enabled(s: State, e: Event) {
    match e
    case Append(_) => true
    case Collect => s.stage == AtLock
    case WriteNext => s.stage == Writing && s.next < |s.collected|
    case Recycle => s.stage == Writing && s.next >= |s.collected|
  }

  function TextOf(slot: Slot): Text {
    match slot
    case Some(text) => text
    case None => []
  }

  /** The contents an append finds or leaves never exceed the size; a null buffer would be a fault. */
  function Filled(slot: Slot, line: Text): Slot {
    if |TextOf(slot)| <= LARGE_BUFFER then Some(Appended(LARGE_BUFFER, TextOf(slot), line)) else slot
  }

  function AfterAppend(s: State, line: Text): State {
    var accepted := s.(faulty := s.faulty || s.current.None?,
                       logged := if |line| < LARGE_BUFFER then s.logged + line else s.logged);
    if LARGE_BUFFER - |TextOf(s.current)| > |line| then accepted.(current := Filled(s.current, line))
    else accepted.(full := s.full + [s.current],
                   current := Filled(if s.spare.Some? then s.spare else Some([]), line),
                   spare := None)
  }

  function AfterCollect(s: State): State {
    var taken := s.(collected := s.full + [s.current], full := s.collected, current := s.first, first := None,
                    stage := Writing, next := 0);
    if s.spare.None? then taken.(spare := s.second, second := None) else taken
  }

  /** Refills one of the backend's slots with the last collected buffer, emptied; an empty vector would be a fault. */
  function Refilled(slot: Slot, from: seq<Slot>): (Slot, seq<Slot>, bool) {
    if slot.Some? then (slot, from, false)
    else if from == [] then (None, [], true)
    else (if from[|from| - 1].Some? then Some([]) else None, from[..|from| - 1], from[|from| - 1].None?)
  }

  function AfterRecycle(s: State): State {
    var kept := if |s.collected| > 2 then s.collected[..2] else s.collected;
    var (first, rest, fault1) := Refilled(s.first, kept);
    var (second, _, fault2) := Refilled(s.second, rest);
    s.(first := first, second := second, collected := [], next := 0, stage := AtLock,
       faulty := s.faulty || fault1 || fault2)
  }

  function Next(s: State, e: Event): State
    requires Enabled(s, e)
  {
    match e
    case Append(line) => AfterAppend(s, line)
    case Collect => AfterCollect(s)
    case WriteNext =>
      s.(written := s.written + TextOf(s.collected[s.next]), next := s.next + 1,
         faulty := s.faulty || s.collected[s.next].None?)
    case Recycle => AfterRecycle(s)
  }

  predicate Legal(s: State, es: seq<Event>)
    decreases |es|, 0
  {
    es == [] || (Legal(s, es[..|es| - 1]) && Enabled(Run(s, es[..|es| - 1]), es[|es| - 1]))
  }

  function Run(s: State, es: seq<Event>): State
    requires Legal(s, es)
    decreases |es|, 1
  {
    if es == [] then s else Next(Run(s, es[..|es| - 1]), es[|es| - 1])
  }

  // Conservation

  function Texts(slots: seq<Slot>): Text {
    if slots == [] then [] else TextOf(slots[0]) + Texts(slots[1..])
  }

  lemma {:induction false} TextsPush(slots: seq<Slot>, last: Slot)
    ensures Texts(slots + [last]) == Texts(slots) + TextOf(last)
  {
    var longer := slots + [last];
    if slots == [] {
      assert longer[0] == last && longer[1..] == [];
    } else {
      assert longer[0] == slots[0] && longer[1..] == slots[1..] + [last];
      TextsPush(slots[1..], last);
      hide TextOf;
      AppendAssociates(TextOf(slots[0]), Texts(slots[1..]), TextOf(last));
    }
  }

  lemma AppendAssociates(a: Text, b: Text, c: Text)
    ensures a + (b + c) == a + b + c
  {
  }

  /** Everything logged is written, or collected, or full, or current, in the order of the lock. */
  predicate Conserved(s: State) {
    && s.next <= |s.collected|
    && s.written + Texts(s.collected[s.next..]) + Texts(s.full) + TextOf(s.current) == s.logged
  }

  // Buffers

  predicate AllPresent(slots: seq<Slot>) {
    forall i :: 0 <= i < |slots| ==> slots[i].Some? && |slots[i].value| <= LARGE_BUFFER
  }

  predicate EmptyIfPresent(slot: Slot) {
    slot.Some? ==> slot.value == []
  }

  /**
   * Every spare buffer is empty. At the lock the backend has both of its own; outside it lacks the first, and if it
   * also lacks the second it has collected at least two. The shared spare is missing only if a buffer is full.
   */
  predicate Stocked(s: State) {
    && !s.faulty
    && s.current.Some? && |s.current.value| <= LARGE_BUFFER && AllPresent(s.full) && AllPresent(s.collected)
    && EmptyIfPresent(s.spare) && EmptyIfPresent(s.first) && EmptyIfPresent(s.second)
    && (s.spare.None? ==> s.full != [])
    && match s.stage
       case AtLock => s.first.Some? && s.second.Some? && s.collected == []
       case Writing => s.first.None? && |s.collected| >= if s.second.Some? then 1 else 2
  }

  predicate Inv(s: State) {
    Stocked(s) && Conserved(s)
  }

  lemma AppendConserves(s: State, line: Text)
    requires Inv(s)
    ensures Conserved(AfterAppend(s, line))
  {
    TextsPush(s.full, s.current);
    hide Texts;
    var text, before := s.current.value, s.written + Texts(s.collected[s.next..]);
    if LARGE_BUFFER - |text| > |line| {
      assert before + Texts(s.full) + (text + line) == before + Texts(s.full) + text + line;
    } else {
      assert before + (Texts(s.full) + text) + [] == before + Texts(s.full) + text;
      assert |line| < LARGE_BUFFER ==> [] + line == line;
      assert before + (Texts(s.full) + text) + line == before + Texts(s.full) + text + line;
    }
  }

  lemma BackendConserves(s: State, e: Event)
    requires Inv(s) && Enabled(s, e) && !e.Append?
    ensures Conserved(Next(s, e))
  {
    if e.Collect? {
      TextsPush(s.full, s.current);
      var collected := s.full + [s.current];
      assert s.collected[s.next..] == [] && collected[0..] == collected;
      assert Texts([]) == [];
      assert s.written + [] + Texts(s.full) + TextOf(s.current)
          == s.written + (Texts(s.full) + TextOf(s.current)) + [] + [];
    } else if e.WriteNext? {
      var rest, text := s.collected[s.next..], TextOf(s.collected[s.next]);
      assert rest[1..] == s.collected[s.next + 1..];
      assert s.written + (text + Texts(rest[1..])) == s.written + text + Texts(rest[1..]);
    } else {
      assert s.collected[s.next..] == [] && Next(s, e).collected[0..] == [];
    }
  }

  lemma StepKeepsStock(s: State, e: Event)
    requires Stocked(s) && Enabled(s, e)
    ensures Stocked(Next(s, e))
  {
    match e
    case Append(line) =>
    case Recycle => RecycleKeepsStock(s);
    case _ =>
  }

  lemma RecycleKeepsStock(s: State)
    requires Stocked(s) && Enabled(s, Recycle)
    ensures Stocked(AfterRecycle(s))
  {
    var kept := if |s.collected| > 2 then s.collected[..2] else s.collected;
    assert |kept| >= 1 && kept[|kept| - 1].Some?;
    var rest := kept[..|kept| - 1];
    assert s.second.None? ==> |rest| >= 1 && rest[|rest| - 1].Some?;
  }

  lemma StepKeepsInv(s: State, e: Event)
    requires Inv(s) && Enabled(s, e)
    ensures Inv(Next(s, e))
  {
    StepKeepsStock(s, e);
    if e.Append? {
      AppendConserves(s, e.line);
    } else {
      BackendConserves(s, e);
    }
    hide Stocked, Conserved;
  }

  /** What the backend takes at the lock, after what is written, is everything logged so far. */
  lemma CollectTakesAll(s: State)
    requires Inv(s) && Enabled(s, Collect)
    ensures var t := Next(s, Collect);
            t.written + Texts(t.collected[t.next..]) == t.logged == s.logged
  {
    StepKeepsInv(s, Collect);
    var t := Next(s, Collect);
    assert t.full == [] && TextOf(t.current) == [] && Texts([]) == [];
    assert t.written + Texts(t.collected[t.next..]) + [] + [] == t.written + Texts(t.collected[t.next..]);
  }

  lemma WriteMovesOn(s: State)
    requires Enabled(s, WriteNext)
    ensures var t := Next(s, WriteNext);
            t.written + Texts(t.collected[t.next..]) == s.written + Texts(s.collected[s.next..])
  {
    var rest, text := s.collected[s.next..], TextOf(s.collected[s.next]);
    assert rest[1..] == s.collected[s.next + 1..];
    assert s.written + (text + Texts(rest[1..])) == s.written + text + Texts(rest[1..]);
  }

  /** What is written is a prefix of what was logged. */
  lemma WrittenIsPrefix(s: State)
    requires Conserved(s)
    ensures s.written <= s.logged
  {
    hide Texts, TextOf;
    assert s.written + (Texts(s.collected[s.next..]) + Texts(s.full) + TextOf(s.current)) == s.logged;
  }

  // What the events of a run decide

  /** A line a buffer of four million bytes can hold with a byte to spare; longer ones are dropped. */
  function Kept(line: Text): Text {
    if |line| < 4_000_000 then line else []
  }

  /** The lines that were appended and kept, one after the other. */
  function LinesOf(es: seq<Event>): Text {
    if es == [] then []
    else LinesOf(es[..|es| - 1]) + match es[|es| - 1] case Append(line) => Kept(line) case _ => []
  }

  lemma {:induction false} LoggedIsLines(es: seq<Event>)
    requires Legal(INITIAL, es)
    ensures Run(INITIAL, es).logged == LinesOf(es)
  {
    if es != [] {
      LoggedIsLines(es[..|es| - 1]);
      StepLogs(Run(INITIAL, es[..|es| - 1]), es[|es| - 1]);
      hide Next;
    }
  }

  lemma StepLogs(s: State, e: Event)
    requires Enabled(s, e)
    ensures Next(s, e).logged == s.logged + match e case Append(line) => Kept(line) case _ => []
  {
    assert s.logged + [] == s.logged;
  }

  /** Producers can append at any time, and the backend can always go on. */
  lemma WhatCanHappen(s: State, line: Text)
    ensures Enabled(s, Append(line))
    ensures if s.stage == AtLock then Enabled(s, Collect)
            else if s.next < |s.collected| then Enabled(s, WriteNext)
            else Enabled(s, Recycle)
  {
  }

  /** An append goes behind the current contents, or, if no byte would stay free, into the spare or a new buffer. */
  lemma AppendEffect(s: State, line: Text)
    requires Stocked(s)
    ensures var t, text := Next(s, Append(line)), s.current.value;
            && t.logged == s.logged + Kept(line) && t.written == s.written
            && (t.stage, t.first, t.second, t.collected, t.next) == (s.stage, s.first, s.second, s.collected, s.next)
            && if |text| + |line| < 4_000_000 then
                 t.current == Some(text + line) && t.full == s.full && t.spare == s.spare
               else
                 t.current == Some(Kept(line)) && t.full == s.full + [Some(text)] && t.spare == None
  {
    assert s.logged + [] == s.logged && [] + line == line;
  }

  /** The exchange leaves the producers two empty buffers and takes everything else, in order. */
  lemma CollectEffect(s: State)
    requires Stocked(s) && s.stage == AtLock
    ensures var t := Next(s, Collect);
            && t.stage == Writing && t.next == 0 && t.collected == s.full + [s.current]
            && t.current == Some([]) && t.full == [] && t.spare == Some([])
            && t.first == None && t.second == (if s.spare.Some? then Some([]) else None)
            && t.written == s.written && t.logged == s.logged
  {
  }

  /** A null buffer that is used, and a buffer taken out of an empty vector, are faults, whatever the state. */
  lemma FaultsAreNoticed(s: State, line: Text)
    ensures Next(s, Append(line)).faulty <==> s.faulty || s.current.None?
    ensures s.stage == AtLock ==> Next(s, Collect).faulty == s.faulty
    ensures s.stage == Writing && s.next < |s.collected| ==>
              (Next(s, WriteNext).faulty <==> s.faulty || s.collected[s.next].None?)
    ensures s.stage == Writing && s.next >= |s.collected| ==>
              var kept := if |s.collected| < 2 then |s.collected| else 2;
              var needed := (if s.first.None? then 1 else 0) + (if s.second.None? then 1 else 0);
              && (needed > kept ==> Next(s, Recycle).faulty)
              && (needed > 0 && kept > 0 && s.collected[kept - 1].None? ==> Next(s, Recycle).faulty)
  {
  }

  /** One buffer is written after the other, each of them once. */
  lemma WriteEffect(s: State)
    requires Stocked(s) && s.stage == Writing && s.next < |s.collected|
    ensures Next(s, WriteNext) == s.(written := s.written + s.collected[s.next].value, next := s.next + 1)
  {
  }

  /** The backend goes back to the lock with two empty buffers and nothing else. */
  lemma RecycleEffect(s: State)
    requires Stocked(s) && s.stage == Writing && s.next >= |s.collected|
    ensures Next(s, Recycle) == s.(first := Some([]), second := Some([]), collected := [], next := 0, stage := AtLock)
  {
    RecycleKeepsStock(s);
  }

  /**
   * Under every interleaving of appends with the steps of the backend no line is lost, doubled or reordered, the
   * backend never takes a buffer out of an empty vector nor uses a null one, and every buffer it hands over is empty.
   */
  lemma {:induction false} LoggerConserves(es: seq<Event>)
    requires Legal(INITIAL, es)
    ensures Stocked(Run(INITIAL, es)) && Conserved(Run(INITIAL, es))
    ensures Run(INITIAL, es).written <= Run(INITIAL, es).logged == LinesOf(es)
  {
    LoggedIsLines(es);
    if es == [] {
      assert INITIAL.collected[0..] == [];
    } else {
      LoggerConserves(es[..|es| - 1]);
      hide Stocked, Conserved;
      StepKeepsInv(Run(INITIAL, es[..|es| - 1]), es[|es| - 1]);
    }
    WrittenIsPrefix(Run(INITIAL, es));
  }
}
