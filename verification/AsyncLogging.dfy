/** The logger object: owned buffers that move between producers and backend, and the files their bytes end up in. */
module AsyncLogging {
  import opened Bytes
  import opened FixedBuffers
  import opened LoggingSpec
  import opened Chunks
  import L = LogFile

  /** Where a buffer is held. One buffer has one place, so no two slots can hold the same buffer. */
  datatype Place = Current | Spare | First | Second | Full(i: nat) | Collected(i: nat)

  // Ownership, apart from the heap

  /** The owners of buffers: those under the lock, and those of the backend. */
  datatype Owners = Owners(
    current: FixedBuffer?, spare: FixedBuffer?, full: seq<FixedBuffer>,
    first: FixedBuffer?, second: FixedBuffer?, collected: seq<FixedBuffer>)

  type Places = map<FixedBuffer, Place>
  type Contents = map<FixedBuffer, Text>

  ghost predicate Lies(b: FixedBuffer?, p: Place, places: Places) {
    b != null ==> b in places && places[b] == p
  }

  ghost predicate Placed(o: Owners, places: Places) {
    && Lies(o.current, Current, places) && Lies(o.spare, Spare, places)
    && Lies(o.first, First, places) && Lies(o.second, Second, places)
    && (forall i :: 0 <= i < |o.full| ==> Lies(o.full[i], Full(i), places))
    && (forall i :: 0 <= i < |o.collected| ==> Lies(o.collected[i], Collected(i), places))
  }

  ghost function SlotOf(b: FixedBuffer?, texts: Contents): Slot {
    if b != null && b in texts then Some(texts[b]) else None
  }

  ghost function SlotsOf(bs: seq<FixedBuffer>, texts: Contents): (slots: seq<Slot>) {
    seq(|bs|, i requires 0 <= i < |bs| => SlotOf(bs[i], texts))
  }

  /** The slots as the state machine has them; what is not about buffers is as in the initial state. */
  ghost function Seen(o: Owners, texts: Contents): State {
    INITIAL.(current := SlotOf(o.current, texts), spare := SlotOf(o.spare, texts), full := SlotsOf(o.full, texts),
             first := SlotOf(o.first, texts), second := SlotOf(o.second, texts),
             collected := SlotsOf(o.collected, texts))
  }

  /** No buffer is held by two slots. */
  lemma Exclusive(o: Owners, places: Places)
    requires Placed(o, places)
    ensures forall i, j :: 0 <= i < j < |o.full| ==> o.full[i] != o.full[j]
    ensures forall i, j :: 0 <= i < j < |o.collected| ==> o.collected[i] != o.collected[j]
    ensures forall i, j :: 0 <= i < |o.full| && 0 <= j < |o.collected| ==> o.full[i] != o.collected[j]
    ensures forall b :: b in [o.current, o.spare, o.first, o.second] && b != null ==> b !in o.full && b !in o.collected
    ensures var single := [o.current, o.spare, o.first, o.second];
            forall i, j :: 0 <= i < j < 4 && single[i] != null ==> single[i] != single[j]
  {
  }

  /** The contents of a buffer show only where it is held. */
  lemma SeenElsewhere(bs: seq<FixedBuffer>, texts: Contents, b: FixedBuffer, text: Text)
    requires b !in bs
    ensures SlotsOf(bs, texts[b := text]) == SlotsOf(bs, texts)
  {
  }

  lemma CurrentChanges(o: Owners, places: Places, texts: Contents, text: Text)
    requires Placed(o, places) && o.current != null
    ensures Seen(o, texts[o.current := text]) == Seen(o, texts).(current := Some(text))
  {
    Exclusive(o, places);
    SeenElsewhere(o.full, texts, o.current, text);
    SeenElsewhere(o.collected, texts, o.current, text);
    hide SlotsOf;
  }

  lemma Initially(a: FixedBuffer, b: FixedBuffer, c: FixedBuffer, d: FixedBuffer)
    requires a != b && a != c && a != d && b != c && b != d && c != d
    ensures var o := Owners(a, b, [], c, d, []);
            && Placed(o, map[a := Current, b := Spare, c := First, d := Second])
            && Seen(o, map[a := [], b := [], c := [], d := []]) == INITIAL
  {
  }

  ghost function Retired(o: Owners, replacement: FixedBuffer): Owners
    requires o.current != null
  {
    var current: FixedBuffer := o.current;
    o.(full := o.full + [current], current := replacement, spare := null)
  }

  lemma RetiredPlaced(o: Owners, places: Places, replacement: FixedBuffer)
    requires o.current != null && Placed(o, places) && (o.spare == replacement || replacement !in places)
    ensures Placed(Retired(o, replacement), places[o.current := Full(|o.full|)][replacement := Current])
  {
    Exclusive(o, places);
    var after := places[o.current := Full(|o.full|)][replacement := Current];
    assert forall i :: 0 <= i < |o.full| ==> Lies(o.full[i], Full(i), places);
    assert forall i :: 0 <= i < |o.collected| ==> Lies(o.collected[i], Collected(i), places);
  }

  lemma RetiredSeen(o: Owners, texts: Contents, replacement: FixedBuffer)
    requires o.current != null && replacement in texts
    requires o.spare == replacement || (o.spare == null && texts[replacement] == [])
    ensures Seen(Retired(o, replacement), texts) ==
            var s := Seen(o, texts);
            s.(full := s.full + [s.current], current := if s.spare.Some? then s.spare else Some([]), spare := None)
  {
    var current: FixedBuffer := o.current;
    assert SlotsOf(o.full + [current], texts) == SlotsOf(o.full, texts) + [SlotOf(current, texts)];
  }

  /** Adding a buffer nobody holds changes nothing that is seen. */
  lemma AddedSeen(o: Owners, places: Places, texts: Contents, b: FixedBuffer)
    requires Placed(o, places) && b !in places
    ensures Seen(o, texts[b := []]) == Seen(o, texts)
  {
    SeenElsewhere(o.full, texts, b, []);
    SeenElsewhere(o.collected, texts, b, []);
    hide SlotsOf;
  }

  ghost function CollectedBy(o: Owners): Owners
    requires o.current != null
  {
    var current: FixedBuffer := o.current;
    var taken := o.(collected := o.full + [current], full := o.collected, current := o.first, first := null);
    if o.spare == null then taken.(spare := o.second, second := null) else taken
  }

  ghost function PlacesCollected(o: Owners, places: Places): Places {
    map b | b in places ::
      match places[b]
      case Full(i) => Collected(i)
      case Current => Collected(|o.full|)
      case First => Current
      case Second => if o.spare == null then Spare else Second
      case p => p
  }

  lemma CollectedPlaced(o: Owners, places: Places)
    requires o.current != null && Placed(o, places) && o.collected == []
    ensures Placed(CollectedBy(o), PlacesCollected(o, places)) && PlacesCollected(o, places).Keys == places.Keys
  {
    var after := PlacesCollected(o, places);
    assert forall i :: 0 <= i < |o.full| ==> Lies(o.full[i], Full(i), places);
  }

  lemma CollectedSeen(o: Owners, places: Places, texts: Contents)
    requires o.current != null && Placed(o, places) && places.Keys == texts.Keys
    ensures Seen(CollectedBy(o), texts) == AfterCollect(Seen(o, texts)).(stage := AtLock)
  {
    assert SlotsOf(o.full + [o.current], texts) == SlotsOf(o.full, texts) + [SlotOf(o.current, texts)];
  }

  /** Of the collected buffers only the first are kept. */
  lemma KeptSeen(o: Owners, places: Places, texts: Contents, n: nat)
    requires Placed(o, places) && n <= |o.collected|
    ensures Placed(o.(collected := o.collected[..n]), places)
    ensures Seen(o.(collected := o.collected[..n]), texts) == var s := Seen(o, texts); s.(collected := s.collected[..n])
  {
    assert SlotsOf(o.collected[..n], texts) == SlotsOf(o.collected, texts)[..n];
  }

  /** The last collected buffer, emptied, moves to a slot of the backend that is null. */
  ghost function Refill(o: Owners, slot: Place): Owners
    requires o.collected != []
  {
    var last := |o.collected| - 1;
    if slot == First then o.(first := o.collected[last], collected := o.collected[..last])
    else o.(second := o.collected[last], collected := o.collected[..last])
  }

  lemma RefillKeeps(o: Owners, places: Places, texts: Contents, slot: Place)
    requires Placed(o, places) && o.collected != []
    requires (slot == First && o.first == null) || (slot == Second && o.second == null)
    ensures var buffer := o.collected[|o.collected| - 1];
            buffer in places && Placed(Refill(o, slot), places[buffer := slot])
    ensures |Seen(o, texts).collected| == |o.collected|
    ensures var buffer, s := o.collected[|o.collected| - 1], Seen(o, texts);
            var shorter := s.(collected := s.collected[..|o.collected| - 1]);
            Seen(Refill(o, slot), texts[buffer := []]) ==
            if slot == First then shorter.(first := Some([])) else shorter.(second := Some([]))
  {
    hide Placed, Seen;
    RefillPlaced(o, places, slot);
    RefillSeen(o, places, texts, slot);
  }

  lemma RefillPlaced(o: Owners, places: Places, slot: Place)
    requires Placed(o, places) && o.collected != [] && (slot == First || slot == Second)
    ensures var buffer := o.collected[|o.collected| - 1];
            buffer in places && Placed(Refill(o, slot), places[buffer := slot])
  {
    Exclusive(o, places);
    assert forall i :: 0 <= i < |o.full| ==> Lies(o.full[i], Full(i), places);
  }

  lemma RefillSeen(o: Owners, places: Places, texts: Contents, slot: Place)
    requires Placed(o, places) && o.collected != []
    requires (slot == First && o.first == null) || (slot == Second && o.second == null)
    ensures |Seen(o, texts).collected| == |o.collected|
    ensures var buffer, s := o.collected[|o.collected| - 1], Seen(o, texts);
            var shorter := s.(collected := s.collected[..|o.collected| - 1]);
            Seen(Refill(o, slot), texts[buffer := []]) ==
            if slot == First then shorter.(first := Some([])) else shorter.(second := Some([]))
  {
    Exclusive(o, places);
    var last := |o.collected| - 1;
    var buffer := o.collected[last];
    SeenElsewhere(o.full, texts, buffer, []);
    SeenElsewhere(o.collected[..last], texts, buffer, []);
    assert SlotsOf(o.collected[..last], texts) == SlotsOf(o.collected, texts)[..last];
    hide Lies;
  }

  // The object

  ghost function WithoutLast(s: State): State
    requires s.collected != []
  {
    s.(collected := s.collected[..|s.collected| - 1])
  }

  ghost function Appends(lines: seq<Text>): seq<Event> {
    seq(|lines|, i requires 0 <= i < |lines| => Append(lines[i]))
  }

  /**
   * What happens around the backend, by the number of the write: what the clock shows, what producers append before it,
   * and how the library answers.
   */
  datatype World = World(clock: nat -> nat, produced: nat -> seq<Text>, answers: nat -> seq<L.WriteResult>)

  /** The clock never steps back. */
  ghost predicate Steady(w: World) {
    forall i, j :: i <= j ==> w.clock(i) <= w.clock(j)
  }

  ghost predicate NoFailure(w: World) {
    forall i: nat, j :: 0 <= j < |w.answers(i)| ==> !w.answers(i)[j].err
  }

  /** What is kept of the lines. */
  ghost function KeptOf(lines: seq<Text>): Text {
    if lines == [] then [] else KeptOf(lines[..|lines| - 1]) + Kept(lines[|lines| - 1])
  }

  lemma KeptPush(lines: seq<Text>, line: Text)
    ensures KeptOf(lines + [line]) == KeptOf(lines) + Kept(line)
  {
    assert (lines + [line])[..|lines|] == lines;
  }

  /** What is kept of all the lines produced from one time to another. */
  ghost function Produced(w: World, from: nat, to: nat): Text {
    if to <= from then [] else Produced(w, from, to - 1) + KeptOf(w.produced(to - 1))
  }

  lemma NothingProduced(w: World, tick: nat)
    ensures Produced(w, tick, tick) == []
  {
  }

  lemma {:induction false} ProducedConcat(w: World, a: nat, b: nat, c: nat)
    requires a <= b <= c
    ensures Produced(w, a, c) == Produced(w, a, b) + Produced(w, b, c)
  {
    hide KeptOf;
    if b < c {
      ProducedConcat(w, a, b, c - 1);
    }
  }

  lemma ProducedStep(w: World, from: nat, to: nat)
    requires from <= to
    ensures Produced(w, from, to + 1) == Produced(w, from, to) + KeptOf(w.produced(to))
  {
  }

  lemma ProducedAround(w: World, from: nat, to: nat)
    requires from < to
    ensures Produced(w, from, to + 1)
            == KeptOf(w.produced(from)) + Produced(w, from + 1, to) + KeptOf(w.produced(to))
  {
    hide KeptOf, Produced;
    ProducedStep(w, from, to);
    ProducedConcat(w, from, from + 1, to);
    NothingProduced(w, from);
    ProducedStep(w, from, from);
  }

  lemma LaterClock(w: World, tick: nat)
    requires Steady(w)
    ensures w.clock(tick) <= w.clock(tick + 1)
  {
  }

  /** The buffers exist apart from each other, and each holds its text. */
  ghost predicate Holds(texts: Contents, repr: set<object>)
    reads repr
  {
    && (forall b :: b in texts ==> b in repr && b.data in repr)
    && (forall b :: b in texts ==> b.Valid() && b.data.Length == LARGE_BUFFER && b.Contents() == texts[b])
    && (forall b, c :: b in texts && c in texts && b != c ==> b.data != c.data)
  }

  lemma HoldsNothing()
    ensures Holds(map[], {}) && Legal(INITIAL, []) && Run(INITIAL, []) == INITIAL
  {
  }

  method NewBuffer(ghost texts: Contents, ghost repr: set<object>) returns (buffer: FixedBuffer, ghost more: Contents)
    requires Holds(texts, repr)
    ensures fresh(buffer) && fresh(buffer.data) && buffer !in texts && more == texts[buffer := []]
    ensures Holds(more, repr + {buffer, buffer.data})
  {
    buffer := new FixedBuffer(LARGE_BUFFER);
    more := texts[buffer := []];
  }

  method NewPair(ghost texts: Contents, ghost repr: set<object>)
    returns (a: FixedBuffer, b: FixedBuffer, ghost more: Contents, ghost footprint: set<object>)
    requires Holds(texts, repr)
    ensures a !in texts && b !in texts && a != b && more == texts[a := []][b := []]
    ensures Holds(more, footprint) && fresh(footprint - repr)
  {
    hide Holds;
    a, more := NewBuffer(texts, repr);
    footprint := repr + {a, a.data};
    b, more := NewBuffer(more, footprint);
    footprint := footprint + {b, b.data};
  }

  class AsyncLogging {
    var currentBuffer: FixedBuffer?
    var nextBuffer: FixedBuffer?
    var buffers: seq<FixedBuffer>
    // The locals of the backend
    var newBuffer1: FixedBuffer?
    var newBuffer2: FixedBuffer?
    var buffersToWrite: seq<FixedBuffer>
    var stage: Stage
    var next: nat
    ghost var places: Places
    ghost var texts: Contents
    ghost var repr: set<object>
    ghost var written: Text
    ghost var logged: Text
    ghost var history: seq<Event>

    ghost function Held(): Owners
      reads this
    {
      Owners(currentBuffer, nextBuffer, buffers, newBuffer1, newBuffer2, buffersToWrite)
    }

    ghost function View(): State
      reads this
    {
      Seen(Held(), texts).(stage := stage, next := next, written := written, logged := logged)
    }

    ghost predicate Owned()
      reads this, repr
    {
      this !in repr && Holds(texts, repr) && Placed(Held(), places) && places.Keys == texts.Keys
    }

    /** Every buffer is where it is said to be, and the state is the one its history leads to. */
    ghost predicate Valid()
      reads this, repr
    {
      Owned() && Legal(INITIAL, history) && View() == Run(INITIAL, history)
    }

    constructor ()
      ensures Valid() && View() == INITIAL && history == []
    {
      hide Holds, Placed, Seen, Legal, Run;
      HoldsNothing();
      var a, b, shared, footprint := NewPair(map[], {});
      var c, d, contents, wider := NewPair(shared, footprint);
      assert contents == map[a := [], b := [], c := [], d := []];
      Initially(a, b, c, d);
      currentBuffer, nextBuffer, newBuffer1, newBuffer2 := a, b, c, d;
      texts, repr := contents, wider;
      buffers, buffersToWrite, stage, next := [], [], AtLock, 0;
      places := map[a := Current, b := Spare, c := First, d := Second];
      written, logged, history := [], [], [];
    }

    ghost method Record(before: State, e: Event)
      requires Owned() && Legal(INITIAL, history) && before == Run(INITIAL, history)
      requires Enabled(before, e) && View() == Next(before, e)
      modifies this`history
      ensures Valid() && history == old(history) + [e] && View() == old(View())
    {
      hide Holds, Next, Placed, Seen;
      assert (history + [e])[..|history|] == history;
      history := history + [e];
    }

    /** In every state the object reaches, buffers are stocked, and what is written is a prefix of what was logged. */
    lemma Sound()
      requires Valid()
      ensures Stocked(View()) && Conserved(View()) && written <= logged == LinesOf(history)
    {
      hide Holds;
      LoggerConserves(history);
    }

    lemma Present()
      requires Valid()
      ensures currentBuffer != null && currentBuffer in texts
      ensures |texts[currentBuffer]| <= LARGE_BUFFER
      ensures (nextBuffer == null) == View().spare.None?
      ensures (newBuffer1 == null) == View().first.None? && (newBuffer2 == null) == View().second.None?
      ensures this !in repr && View().stage == stage && View().next == next
      ensures View().stage == AtLock ==> buffersToWrite == []
      ensures SlotsOf(buffersToWrite, texts) == View().collected && |View().collected| == |buffersToWrite|
    {
      Sound();
      hide Holds, Legal, Run, Conserved;
    }

    /** A producer appends a line; the lock makes this one step. */
    method AppendLine(line: Text)
      requires Valid()
      modifies this, repr
      ensures Valid() && history == old(history) + [Append(line)] && View() == Next(old(View()), Append(line))
      ensures fresh(repr - old(repr))
      ensures logged == old(logged) + Kept(line) && written == old(written)
    {
      hide Legal, Run, AsyncLogging.Owned, AsyncLogging.View, AfterAppend;
      ghost var before := View();
      Present();
      HeldPresent();
      ViewFields();
      AppendUnderLock(line);
      StepLogs(before, Append(line));
      Record(before, Append(line));
      ViewFields();
    }

    method AppendUnderLock(line: Text)
      requires Owned() && currentBuffer != null
      modifies this`currentBuffer, this`nextBuffer, this`buffers, this`places, this`texts, this`repr, this`logged,
               currentBuffer, currentBuffer.data, nextBuffer, (if nextBuffer == null then {} else {nextBuffer.data})
      ensures Owned() && View() == AfterAppend(old(View()), line)
      ensures fresh(repr - old(repr))
    {
      hide AsyncLogging.View, AsyncLogging.Owned, AsyncLogging.Valid, Legal, Run;
      CurrentSeen();
      if currentBuffer.Avail() > |line| {
        AppendToCurrent(line);
      } else {
        RetireCurrent();
        AppendToCurrent(line);
      }
      Log(line);
    }

    ghost method Log(line: Text)
      modifies this`logged
      ensures View() == old(View()).(logged := if |line| < LARGE_BUFFER then old(logged) + line else old(logged))
      ensures old(Owned()) ==> Owned()
    {
      logged := if |line| < LARGE_BUFFER then logged + line else logged;
    }

    lemma HeldPresent()
      requires Owned()
      ensures currentBuffer != null ==> currentBuffer in texts && currentBuffer in repr && currentBuffer.data in repr
      ensures nextBuffer != null ==> nextBuffer in texts && nextBuffer in repr && nextBuffer.data in repr
    {
    }

    lemma CurrentSeen()
      requires Owned() && currentBuffer != null
      ensures currentBuffer.Valid() && currentBuffer.data.Length == LARGE_BUFFER
      ensures currentBuffer in texts && texts[currentBuffer] == currentBuffer.Contents()
      ensures View().current == Some(currentBuffer.Contents()) && !View().faulty && View().logged == logged
    {
    }

    method AppendToCurrent(line: Text)
      requires Owned() && currentBuffer != null
      modifies this`texts, currentBuffer, currentBuffer.data
      ensures Owned()
      ensures View() == old(View()).(current := Filled(old(View()).current, line))
    {
      hide Placed, Seen, Holds;
      HeldPresent();
      CurrentSeen();
      CurrentChanges(Held(), places, texts, Appended(LARGE_BUFFER, texts[currentBuffer], line));
      FillCurrent(line);
    }

    method FillCurrent(line: Text)
      requires Holds(texts, repr) && currentBuffer != null && currentBuffer in texts
      modifies this`texts, currentBuffer, currentBuffer.data
      ensures |old(texts)[currentBuffer]| <= LARGE_BUFFER && Holds(texts, repr)
      ensures texts == old(texts)[currentBuffer := Appended(LARGE_BUFFER, old(texts)[currentBuffer], line)]
    {
      currentBuffer.Append(line);
      texts := texts[currentBuffer := currentBuffer.Contents()];
    }

    /** Moves the current buffer to the full ones and puts the spare one, or a new one, in its place. */
    method RetireCurrent()
      requires Owned() && currentBuffer != null
      modifies this`currentBuffer, this`nextBuffer, this`buffers, this`places, this`texts, this`repr
      ensures Owned() && currentBuffer != null
      ensures var s := old(View());
              View() == s.(full := s.full + [s.current], spare := None,
                           current := if s.spare.Some? then s.spare else Some([]))
      ensures currentBuffer == old(nextBuffer) || (fresh(currentBuffer) && fresh(currentBuffer.data))
      ensures fresh(repr - old(repr))
    {
      hide Placed, Seen, Holds, Retired;
      ghost var o := Held();
      HeldPresent();
      ReplaceCurrent();
      if o.spare == null {
        AddedSeen(o, places, old(texts), currentBuffer);
      }
      RetiredPlaced(o, places, currentBuffer);
      RetiredSeen(o, texts, currentBuffer);
      places := places[o.current := Full(|o.full|)][currentBuffer := Current];
    }

    method ReplaceCurrent()
      requires currentBuffer != null && this !in repr && Holds(texts, repr)
      modifies this`currentBuffer, this`nextBuffer, this`buffers, this`texts, this`repr
      ensures currentBuffer != null && Held() == Retired(old(Held()), currentBuffer)
      ensures this !in repr && Holds(texts, repr)
      ensures old(nextBuffer) != null ==> (currentBuffer, texts, repr) == old((nextBuffer, texts, repr))
      ensures old(nextBuffer) == null ==>
                && fresh(currentBuffer) && fresh(currentBuffer.data) && fresh(repr - old(repr))
                && texts == old(texts)[currentBuffer := []]
    {
      hide Holds;
      buffers := buffers + [currentBuffer];
      currentBuffer := null;
      if nextBuffer != null {
        currentBuffer := nextBuffer;
        nextBuffer := null;
      } else {
        currentBuffer, texts := NewBuffer(texts, repr);
        repr := repr + {currentBuffer, currentBuffer.data};
      }
    }

    /** The backend's critical section: takes what is full and current, and gives spare buffers in exchange. */
    method CollectBuffers()
      requires Valid() && Enabled(View(), Collect)
      modifies this
      ensures Valid() && history == old(history) + [Collect] && View() == Next(old(View()), Collect)
      ensures texts == old(texts) && repr == old(repr)
    {
      hide Legal, Run, AsyncLogging.Owned, AsyncLogging.View, AfterCollect;
      ghost var before := View();
      Present();
      ExchangeBuffers();
      Record(before, Collect);
    }

    method ExchangeBuffers()
      requires Owned() && currentBuffer != null && buffersToWrite == []
      modifies this`currentBuffer, this`nextBuffer, this`buffers, this`newBuffer1, this`newBuffer2, this`buffersToWrite,
               this`stage, this`next, this`places
      ensures Owned() && View() == AfterCollect(old(View())) && stage == Writing && next == 0
    {
      hide Holds, Placed, Seen, PlacesCollected, CollectedBy;
      CollectedPlaced(Held(), places);
      CollectedSeen(Held(), places, texts);
      places := PlacesCollected(Held(), places);
      SwapBuffers();
      stage, next := Writing, 0;
    }

    method SwapBuffers()
      requires currentBuffer != null
      modifies this`currentBuffer, this`nextBuffer, this`buffers, this`newBuffer1, this`newBuffer2, this`buffersToWrite
      ensures Held() == CollectedBy(old(Held()))
    {
      buffers := buffers + [currentBuffer];
      currentBuffer := newBuffer1;
      newBuffer1 := null;
      buffersToWrite, buffers := buffers, buffersToWrite;
      if nextBuffer == null {
        nextBuffer := newBuffer2;
        newBuffer2 := null;
      }
    }

    /** The backend gives the contents of the next collected buffer to the log file. */
    method WriteBuffer() returns (chunk: Text)
      requires Valid() && Enabled(View(), WriteNext)
      modifies this`next, this`written, this`history
      ensures Valid() && history == old(history) + [WriteNext] && View() == Next(old(View()), WriteNext)
      ensures written == old(written) + chunk && repr == old(repr)
    {
      hide Legal, Run, Seen, Placed, Holds;
      ghost var before := View();
      Present();
      NextCollected();
      var buffer := buffersToWrite[next];
      chunk := buffer.data[..buffer.cur];
      next, written := next + 1, written + chunk;
      Record(before, WriteNext);
    }

    lemma NextCollected()
      requires Owned() && next < |buffersToWrite|
      ensures var buffer := buffersToWrite[next];
              buffer.Valid() && View().collected[next] == Some(buffer.Contents())
    {
      assert Lies(buffersToWrite[next], Collected(next), places);
    }

    /** Takes the last collected buffer, and empties it, for one of the backend's slots. */
    method TakeLast() returns (buffer: FixedBuffer)
      requires Owned() && buffersToWrite != []
      modifies this`buffersToWrite, this`texts, buffersToWrite[|buffersToWrite| - 1]
      ensures buffersToWrite == old(buffersToWrite[..|buffersToWrite| - 1])
      ensures buffer == old(buffersToWrite[|buffersToWrite| - 1]) && buffer in old(texts)
      ensures Holds(texts, repr) && texts == old(texts)[buffer := []]
    {
      var last := |buffersToWrite| - 1;
      assert Lies(buffersToWrite[last], Collected(last), places);
      hide Placed;
      buffer := buffersToWrite[last];
      buffersToWrite := buffersToWrite[..last];
      buffer.Reset();
      texts := texts[buffer := []];
    }

    method RefillFirst()
      requires Owned() && (newBuffer1 == null ==> buffersToWrite != [])
      modifies this`newBuffer1, this`buffersToWrite, this`texts, this`places, repr
      ensures Owned()
      ensures buffersToWrite == if old(newBuffer1) == null then old(buffersToWrite[..|buffersToWrite| - 1])
                                else old(buffersToWrite)
      ensures if old(newBuffer1) != null then View() == old(View())
              else |old(View()).collected| > 0 && View() == WithoutLast(old(View())).(first := Some([]))
    {
      hide Holds, Placed, Seen;
      if newBuffer1 == null {
        RefillKeeps(Held(), places, texts, First);
        LastPresent();
        newBuffer1 := TakeLast();
        places := places[newBuffer1 := First];
      }
    }

    method RefillSecond()
      requires Owned() && (newBuffer2 == null ==> buffersToWrite != [])
      modifies this`newBuffer2, this`buffersToWrite, this`texts, this`places, repr
      ensures Owned()
      ensures buffersToWrite == if old(newBuffer2) == null then old(buffersToWrite[..|buffersToWrite| - 1])
                                else old(buffersToWrite)
      ensures if old(newBuffer2) != null then View() == old(View())
              else |old(View()).collected| > 0 && View() == WithoutLast(old(View())).(second := Some([]))
    {
      hide Holds, Placed, Seen;
      if newBuffer2 == null {
        RefillKeeps(Held(), places, texts, Second);
        LastPresent();
        newBuffer2 := TakeLast();
        places := places[newBuffer2 := Second];
      }
    }

    /** The backend keeps two of the collected buffers, emptied, for its own slots that are null. */
    method RecycleBuffers()
      requires Valid() && Enabled(View(), Recycle)
      modifies this, repr
      ensures Valid() && history == old(history) + [Recycle] && View() == Next(old(View()), Recycle)
      ensures repr == old(repr)
    {
      hide Legal, Run, AsyncLogging.Owned, AsyncLogging.View, AfterRecycle;
      ghost var before := View();
      Present();
      Sound();
      KeepAndRefill();
      Record(before, Recycle);
    }

    method KeepAndRefill()
      requires Owned() && Stocked(View()) && stage == Writing
      modifies this`newBuffer1, this`newBuffer2, this`buffersToWrite, this`stage, this`next, this`texts,
               this`places, repr
      ensures Owned() && View() == AfterRecycle(old(View())) && stage == AtLock
    {
      hide AsyncLogging.Owned, AsyncLogging.View, AsyncLogging.Held, AsyncLogging.Valid;
      SlotsPresent();
      if |buffersToWrite| > 2 {
        Keep(2);
      }
      RefillFirst();
      RefillSecond();
      Discard();
    }

    method Discard()
      requires Owned()
      modifies this`buffersToWrite, this`stage, this`next
      ensures Owned() && View() == old(View()).(collected := [], stage := AtLock, next := 0) && stage == AtLock
    {
      Keep(0);
      hide Holds, Placed, Seen;
      stage, next := AtLock, 0;
    }

    method Keep(n: nat)
      requires Owned() && n <= |buffersToWrite|
      modifies this`buffersToWrite
      ensures Owned() && buffersToWrite == old(buffersToWrite[..n])
      ensures |old(View()).collected| == |old(buffersToWrite)|
      ensures View() == old(View()).(collected := old(View()).collected[..n])
    {
      KeptSeen(Held(), places, texts, n);
      hide Holds, Placed, SlotsOf, SlotOf;
      buffersToWrite := buffersToWrite[..n];
    }

    lemma LastPresent()
      requires Owned() && buffersToWrite != []
      ensures buffersToWrite[|buffersToWrite| - 1] in texts && buffersToWrite[|buffersToWrite| - 1] in repr
    {
      var last := |buffersToWrite| - 1;
      assert Lies(buffersToWrite[last], Collected(last), places);
    }

    lemma SlotsPresent()
      requires Owned()
      ensures this !in repr && View().stage == stage && |View().collected| == |buffersToWrite|
      ensures (newBuffer1 == null) == View().first.None? && (newBuffer2 == null) == View().second.None?
    {
    }

    // The backend with its file

    /** The file is apart from the buffers, and what was written has been offered to it chunk by chunk. */
    ghost predicate Feeds(output: L.LogFile)
      reads this, repr, output, output.file
    {
      && Valid() && output.Valid() && written == WholeOf(output.offered)
      && output !in repr && output.file !in repr
    }

    /** The files in the order of their creation hold the part of each chunk that was taken, one after the other. */
    lemma FilesHoldTakenParts(output: L.LogFile)
      requires Feeds(output)
      ensures Fits(output.offered) && L.Contents(output.closed) + output.file.contents == TakenOf(output.offered)
      ensures WholeOf(output.offered) == written <= logged
    {
      Sound();
    }

    /**
     * They hold a prefix of what was logged as long as no write has failed, or nothing was taken after the first chunk
     * that was cut short; without a failure they hold all that was written.
     */
    lemma FilesHoldPrefix(output: L.LogFile)
      requires Feeds(output)
      ensures Unbroken(output.offered) ==> L.Contents(output.closed) + output.file.contents <= logged
      ensures Complete(output.offered) ==> L.Contents(output.closed) + output.file.contents == written
    {
      FilesHoldTakenParts(output);
      if Unbroken(output.offered) {
        UnbrokenIsPrefix(output.offered);
      }
      if Complete(output.offered) {
        CompleteIsUnbroken(output.offered);
      }
    }

    lemma ViewFields()
      requires Valid()
      ensures (View().stage, View().next, View().written, View().logged) == (stage, next, written, logged)
      ensures |View().collected| == |buffersToWrite|
    {
    }

    /** What the backend has yet to write of its collected buffers, after what it has written. */
    ghost function Due(): Text
      requires Valid()
      reads this, repr
    {
      written + Texts(View().collected[Min(next, |View().collected|)..])
    }

    /** Producers append while the backend is elsewhere. */
    method AppendLines(lines: seq<Text>, ghost output: L.LogFile)
      requires Feeds(output)
      modifies this, repr
      ensures Feeds(output) && fresh(repr - old(repr))
      ensures (stage, next, |buffersToWrite|) == old((stage, next, |buffersToWrite|))
      ensures history == old(history) + Appends(lines) && logged == old(logged) + KeptOf(lines)
      ensures written == old(written) && Due() == old(Due())
    {
      hide AsyncLogging.Valid, AsyncLogging.View, AsyncLogging.Due, L.LogFile.Valid, WholeOf, Kept;
      assert logged + [] == logged;
      for i := 0 to |lines|
        invariant Feeds(output) && fresh(repr - old(repr))
        invariant (stage, next, |buffersToWrite|) == old((stage, next, |buffersToWrite|))
        invariant history == old(history) + Appends(lines[..i]) && logged == old(logged) + KeptOf(lines[..i])
        invariant written == old(written) && Due() == old(Due())
      {
        assert lines[..i + 1] == lines[..i] + [lines[i]];
        KeptPush(lines[..i], lines[i]);
        AppendOne(lines[i], output);
      }
      assert lines[..|lines|] == lines;
    }

    method AppendOne(line: Text, ghost output: L.LogFile)
      requires Feeds(output)
      modifies this, repr
      ensures Feeds(output) && fresh(repr - old(repr))
      ensures (stage, next, |buffersToWrite|) == old((stage, next, |buffersToWrite|))
      ensures history == old(history) + [Append(line)] && logged == old(logged) + Kept(line)
      ensures written == old(written) && Due() == old(Due())
    {
      hide AsyncLogging.Valid, AsyncLogging.View, L.LogFile.Valid, Texts, WholeOf, Kept;
      ViewFields();
      AppendLine(line);
      ViewFields();
    }

    /** Writes every collected buffer to the file, while producers go on appending. */
    method WriteBuffers(output: L.LogFile, w: World, tick: nat) returns (now: nat)
      requires Feeds(output) && Steady(w) && stage == Writing && output.clock <= w.clock(tick)
      modifies this, repr, output, output.file
      ensures Feeds(output) && stage == Writing && next >= |buffersToWrite| && output.clock <= w.clock(now)
      ensures written == old(Due()) && tick <= now && logged == old(logged) + Produced(w, tick, now)
      ensures NoFailure(w) && old(Complete(output.offered)) ==> Complete(output.offered)
      ensures fresh(repr - old(repr)) && (output.file == old(output.file) || fresh(output.file))
    {
      hide AsyncLogging.Feeds, AsyncLogging.Valid, AsyncLogging.Due, KeptOf, Produced, Complete;
      now := tick;
      FeedsIsValid(output);
      NothingProduced(w, tick);
      assert logged + [] == logged;
      while next < |buffersToWrite|
        invariant Feeds(output) && Valid() && stage == Writing && output.clock <= w.clock(now)
        invariant Due() == old(Due()) && tick <= now && logged == old(logged) + Produced(w, tick, now)
        invariant NoFailure(w) && old(Complete(output.offered)) ==> Complete(output.offered)
        invariant fresh(repr - old(repr)) && (output.file == old(output.file) || fresh(output.file))
        decreases |buffersToWrite| - next
      {
        LaterClock(w, now);
        ProducedStep(w, tick, now);
        AppendAndWrite(output, w, now);
        FeedsIsValid(output);
        now := now + 1;
      }
      AllWritten(output);
    }

    lemma AllWritten(output: L.LogFile)
      requires Feeds(output) && next >= |buffersToWrite|
      ensures Due() == written
    {
      ViewFields();
      assert Texts([]) == [] && written + [] == written;
    }

    lemma FeedsIsValid(output: L.LogFile)
      requires Feeds(output)
      ensures Valid() && written <= logged
    {
      Sound();
    }

    method AppendAndWrite(output: L.LogFile, w: World, now: nat)
      requires Feeds(output) && stage == Writing && next < |buffersToWrite|
      requires output.clock <= w.clock(now) <= w.clock(now + 1)
      modifies this, repr, output, output.file
      ensures Feeds(output) && (stage, next, |buffersToWrite|) == old((stage, next + 1, |buffersToWrite|))
      ensures output.clock == w.clock(now + 1) && Due() == old(Due())
      ensures logged == old(logged) + KeptOf(w.produced(now))
      ensures NoFailure(w) && old(Complete(output.offered)) ==> Complete(output.offered)
      ensures fresh(repr - old(repr)) && (output.file == old(output.file) || fresh(output.file))
    {
      hide AsyncLogging.Valid, AsyncLogging.Due, L.LogFile.Valid, KeptOf, WholeOf;
      AppendLines(w.produced(now), output);
      WriteToFile(output, w.answers(now), w.clock(now), w.clock(now + 1));
    }

    /** Gives the next collected buffer to the file, which takes as much of it as the library does. */
    method WriteToFile(output: L.LogFile, results: seq<L.WriteResult>, checkTime: nat, rollTime: nat)
      requires Feeds(output) && stage == Writing && next < |buffersToWrite| && output.clock <= checkTime <= rollTime
      modifies this`next, this`written, this`history, output, output.file
      ensures Feeds(output) && (stage, next, |buffersToWrite|) == old((stage, next + 1, |buffersToWrite|))
      ensures output.clock == rollTime && Due() == old(Due()) && (logged, repr) == old((logged, repr))
      ensures |output.offered| == |old(output.offered)| + 1 && old(output.offered) <= output.offered
      ensures (forall i :: 0 <= i < |results| ==> !results[i].err) ==>
                var last := output.offered[|output.offered| - 1];
                last.taken == |last.text|
      ensures output.file == old(output.file) || fresh(output.file)
    {
      hide AsyncLogging.Valid, AsyncLogging.View, L.LogFile.Valid, L.Next, Texts, WholeOf, TakenOf;
      ViewFields();
      WriteMovesOn(View());
      OfferedFits(output);
      var chunk := WriteBuffer();
      ViewFields();
      var taken, _ := output.AppendUnlocked(chunk, results, checkTime, rollTime);
      PushChunk(old(output.offered), Chunk(chunk, taken));
    }

    lemma OfferedFits(output: L.LogFile)
      requires output.Valid()
      ensures Fits(output.offered)
    {
    }

    /** One round of the backend after another, with producers appending in between. */
    method ThreadFunc(output: L.LogFile, w: World, rounds: nat) returns (now: nat)
      requires Feeds(output) && Steady(w) && stage == AtLock && output.clock <= w.clock(0)
      modifies this, repr, output, output.file
      ensures Feeds(output) && stage == AtLock && logged == old(logged) + Produced(w, 0, now)
      ensures rounds > 0 ==> old(logged) + KeptOf(w.produced(0)) <= written
      ensures NoFailure(w) && old(Complete(output.offered)) ==> Complete(output.offered)
    {
      hide AsyncLogging.Valid, AsyncLogging.View, L.LogFile.Valid, L.Next, WholeOf, KeptOf, Produced;
      var i := 0;
      now := 0;
      NothingProduced(w, 0);
      assert logged + [] == logged;
      while i < rounds
        invariant Feeds(output) && stage == AtLock && output.clock <= w.clock(now)
        invariant logged == old(logged) + Produced(w, 0, now)
        invariant i == 0 ==> now == 0 && logged == old(logged)
        invariant i > 0 ==> old(logged) + KeptOf(w.produced(0)) <= written
        invariant NoFailure(w) && old(Complete(output.offered)) ==> Complete(output.offered)
        invariant fresh(repr - old(repr)) && (output.file == old(output.file) || fresh(output.file))
      {
        ghost var before := now;
        now := Round(output, w, now);
        ProducedConcat(w, 0, before, now);
        i := i + 1;
      }
    }

    /** A round writes everything logged before it, and what producers append before its exchange. */
    method Round(output: L.LogFile, w: World, tick: nat) returns (now: nat)
      requires Feeds(output) && Steady(w) && stage == AtLock && output.clock <= w.clock(tick)
      modifies this, repr, output, output.file
      ensures Feeds(output) && stage == AtLock && output.clock <= w.clock(now) && tick <= now
      ensures logged == old(logged) + Produced(w, tick, now)
      ensures written == old(logged) + KeptOf(w.produced(tick)) && old(written) <= written
      ensures NoFailure(w) && old(Complete(output.offered)) ==> Complete(output.offered)
      ensures fresh(repr - old(repr)) && (output.file == old(output.file) || fresh(output.file))
    {
      hide AsyncLogging.Feeds, AsyncLogging.Valid, AsyncLogging.Due, KeptOf, Produced, Complete;
      FeedsIsValid(output);
      AppendAndCollect(w.produced(tick), output);
      LaterClock(w, tick);
      now := WriteBuffers(output, w, tick + 1);
      AppendAndRecycle(w.produced(now), output);
      ProducedAround(w, tick, now);
      LaterClock(w, now);
      now := now + 1;
    }

    method AppendAndCollect(lines: seq<Text>, ghost output: L.LogFile)
      requires Feeds(output) && stage == AtLock
      modifies this, repr
      ensures Feeds(output) && stage == Writing && Due() == logged == old(logged) + KeptOf(lines)
      ensures output !in old(repr) && output.file !in old(repr) && fresh(repr - old(repr))
    {
      hide AsyncLogging.Valid, AsyncLogging.Due, L.LogFile.Valid, WholeOf, KeptOf;
      AppendLines(lines, output);
      CollectAll();
    }

    method AppendAndRecycle(lines: seq<Text>, ghost output: L.LogFile)
      requires Feeds(output) && stage == Writing && next >= |buffersToWrite|
      modifies this, repr
      ensures Feeds(output) && stage == AtLock && logged == old(logged) + KeptOf(lines) && written == old(written)
      ensures output !in old(repr) && output.file !in old(repr) && fresh(repr - old(repr))
    {
      hide AsyncLogging.Valid, AsyncLogging.View, AsyncLogging.Due, L.LogFile.Valid, WholeOf, KeptOf;
      AppendLines(lines, output);
      ViewFields();
      RecycleBuffers();
      ViewFields();
    }

    /** What is collected is everything logged so far that is not written. */
    method CollectAll()
      requires Valid() && stage == AtLock
      modifies this
      ensures Valid() && history == old(history) + [Collect] && stage == Writing && Due() == logged == old(logged)
      ensures repr == old(repr) && written == old(written)
    {
      hide AsyncLogging.View, Legal, Run, Texts;
      Sound();
      ViewFields();
      CollectTakesAll(View());
      CollectBuffers();
      ViewFields();
    }
  }
}
