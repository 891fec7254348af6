/**
 * The timer queue as a state machine over values. Timers live in a heap of addresses that are reused after a delete;
 * callbacks may add and cancel timers between any two calls of a batch.
 */
module TimerSpec {
  import opened Bytes

  type Addr = nat

  const TWO_63: int := 0x8000_0000_0000_0000
  const TWO_64: int := 0x1_0000_0000_0000_0000

  // Times, in microseconds

  /** The conversion of seconds to whole microseconds, towards zero. */
  function Micros(seconds: real): int {
    var us := seconds * 1000000.0;
    if us >= 0.0 then us.Floor else -(-us).Floor
  }

  /** A second has a million of them; a part of one is dropped. */
  lemma MicrosOfSeconds(seconds: real)
    ensures seconds >= 0.0 ==>
              Micros(seconds) as real <= seconds * 1000000.0 < Micros(seconds) as real + 1.0
    ensures seconds <= 0.0 ==>
              Micros(seconds) as real - 1.0 < seconds * 1000000.0 <= Micros(seconds) as real
  {
  }

  /** A timestamp is an unsigned 64-bit number. */
  function AddTime(t: nat, seconds: real): (r: nat)
    ensures r < TWO_64
    ensures 0 <= t + Micros(seconds) < TWO_64 ==> r == t + Micros(seconds)
  {
    (t + Micros(seconds)) % TWO_64
  }

  /** The difference of two timestamps as a signed 64-bit number, at least 100. */
  function HowMuchTime(when: nat, clock: nat): (us: int)
    ensures us >= 100
    ensures when < TWO_64 && clock < TWO_63 ==> us <= Max(when - clock, 100)
    ensures when < TWO_64 && clock < TWO_63 ==>
              us == if 100 <= when - clock < 0x8000_0000_0000_0000 then when - clock else 100
  {
    var difference := (when - clock) % TWO_64;
    var microseconds := if difference < TWO_63 then difference else difference - TWO_64;
    if microseconds < 100 then 100 else microseconds
  }

  // Timers, entries and the sorted set of entries

  datatype Timer = Timer(expiration: nat, interval: real, sequence: nat) {
    predicate Repeat() {
      interval > 0.0
    }
  }

  datatype Entry = Entry(when: nat, addr: Addr)
  type Heap = map<Addr, Timer>
  type Id = (Addr, nat)

  predicate Before(a: Entry, b: Entry) {
    a.when < b.when || (a.when == b.when && a.addr < b.addr)
  }

  predicate Sorted(ts: seq<Entry>) {
    forall i, j :: 0 <= i < j < |ts| ==> Before(ts[i], ts[j])
  }

  function Insert(ts: seq<Entry>, e: Entry): seq<Entry> {
    if ts == [] || Before(e, ts[0]) then [e] + ts
    else if e == ts[0] then ts
    else [ts[0]] + Insert(ts[1..], e)
  }

  function Erase(ts: seq<Entry>, e: Entry): seq<Entry> {
    if ts == [] then [] else if ts[0] == e then ts[1..] else [ts[0]] + Erase(ts[1..], e)
  }

  /** How many entries come before the sentry `(now, null)`. */
  function LowerBound(ts: seq<Entry>, now: nat): (k: nat)
    ensures k <= |ts|
  {
    if ts == [] || now <= ts[0].when then 0 else 1 + LowerBound(ts[1..], now)
  }

  lemma {:induction false} InsertSorted(ts: seq<Entry>, e: Entry)
    requires Sorted(ts)
    ensures var r := Insert(ts, e);
            && Sorted(r)
            && (forall x :: x in r <==> x == e || x in ts)
            && (e !in ts ==> |r| == |ts| + 1)
            && r[0] == (if ts == [] || Before(e, ts[0]) then e else ts[0])
  {
    if ts != [] && !Before(e, ts[0]) && e != ts[0] {
      InsertSorted(ts[1..], e);
      assert ts == [ts[0]] + ts[1..];
      var rest := Insert(ts[1..], e);
      forall j | 0 <= j < |rest|
        ensures Before(ts[0], rest[j])
      {
        assert rest[j] in rest;
        if rest[j] != e {
          var k :| 0 <= k < |ts[1..]| && ts[1..][k] == rest[j];
          assert Before(ts[0], ts[k + 1]);
        }
      }
    }
  }

  lemma {:induction false} EraseSorted(ts: seq<Entry>, e: Entry)
    requires Sorted(ts)
    ensures var r := Erase(ts, e);
            && Sorted(r)
            && (forall x :: x in r <==> x != e && x in ts)
            && (e in ts ==> |r| == |ts| - 1)
  {
    if ts != [] {
      assert ts == [ts[0]] + ts[1..];
      forall x | x in ts[1..]
        ensures Before(ts[0], x)
      {
        var k :| 0 <= k < |ts[1..]| && ts[1..][k] == x;
        assert Before(ts[0], ts[k + 1]);
      }
      if ts[0] != e {
        EraseSorted(ts[1..], e);
        forall j | 0 <= j < |Erase(ts[1..], e)|
          ensures Before(ts[0], Erase(ts[1..], e)[j])
        {
          assert Erase(ts[1..], e)[j] in ts[1..];
        }
      }
    }
  }

  lemma {:induction false} LowerBoundSplits(ts: seq<Entry>, now: nat)
    requires Sorted(ts)
    ensures var k := LowerBound(ts, now);
            && (forall i :: 0 <= i < k ==> ts[i].when < now)
            && (forall i :: k <= i < |ts| ==> now <= ts[i].when)
  {
    if ts != [] {
      assert forall i :: 0 < i < |ts| ==> Before(ts[0], ts[i]);
      if ts[0].when < now {
        LowerBoundSplits(ts[1..], now);
        var k := LowerBound(ts[1..], now);
        forall i | 0 <= i < |ts|
          ensures i < k + 1 ==> ts[i].when < now
          ensures k + 1 <= i ==> now <= ts[i].when
        {
          if i > 0 {
            assert ts[i] == ts[1..][i - 1];
          }
        }
      }
    }
  }

  // The state

  /** The timer descriptor: armed at some time for a deadline, or expired and not yet read. */
  datatype Descriptor = Disarmed | Armed(at: nat, deadline: nat) | Fired

  /** Where the handler of the timer descriptor is: not running, running callbacks, or re-inserting and deleting. */
  datatype Stage = Idle | Calling | Resetting

  /** One call of a timer's callback. */
  datatype Call = Call(sequence: nat, interval: real, expiration: nat, now: nat, batch: nat)

  datatype State = State(
    heap: Heap,
    timers: seq<Entry>,
    active: set<Id>,
    canceling: set<Id>,
    // The handler: its batch of expired entries, the time it was taken for, and the entry that is next
    stage: Stage,
    batch: seq<Entry>,
    now: nat,
    next: nat,
    // Timers allocated by addTimer whose addTimerInLoop has not run yet, and how many were ever created
    queued: set<Addr>,
    created: nat,
    // The environment
    clock: nat,
    descriptor: Descriptor,
    // History: the callbacks run, the batches begun, and whether a dangling pointer was ever followed or deleted
    log: seq<Call>,
    batches: nat,
    faulty: bool)

  datatype Event =
    | New(addr: Addr, when: nat, interval: real)
    | AddInLoop(addr: Addr)
    | Cancel(id: Id)
    | Begin
    | CallNext
    | EndCalls
    | ResetNext
    | Rearm
    | Tick(time: nat)

  function Initial(clock: nat): State {
    State(map[], [], {}, {}, Idle, [], 0, 0, {}, 0, clock, Disarmed, [], 0, false)
  }

  /**
   * Timers are handled when the loop runs functors or callbacks, not inside the reset. A new timer gets an address that
   * is free; the conversion of its interval is defined; the clock is positive, never steps back and fits 63 bits.
   */
  predicate Enabled(s: State, e: Event) {
    match e
    case New(addr, when, interval) => addr !in s.heap && when < TWO_64 && -TWO_63 <= Micros(interval) < TWO_63
    case AddInLoop(addr) => s.stage != Resetting && addr in s.queued
    case Cancel(_) => s.stage != Resetting
    case Begin => s.stage == Idle
    case CallNext => s.stage == Calling && s.next < |s.batch|
    case EndCalls => s.stage == Calling && s.next >= |s.batch|
    case ResetNext => s.stage == Resetting && s.next < |s.batch|
    case Rearm => s.stage == Resetting && s.next >= |s.batch|
    case Tick(time) => s.clock <= time < TWO_63
  }

  /** Following a pointer: outside the heap it finds a timer of no meaning, and `Follow` records the fault. */
  function At(s: State, addr: Addr): Timer {
    if addr in s.heap then s.heap[addr] else Timer(0, 0.0, 0)
  }

  function IdAt(s: State, addr: Addr): Id {
    (addr, At(s, addr).sequence)
  }

  function Follow(s: State, addr: Addr): State {
    s.(faulty := s.faulty || addr !in s.heap)
  }

  function Deleted(s: State, addr: Addr): State {
    Follow(s, addr).(heap := s.heap - {addr})
  }

  function Inserted(s: State, addr: Addr): State {
    Follow(s, addr).(timers := Insert(s.timers, Entry(At(s, addr).expiration, addr)),
                     active := s.active + {IdAt(s, addr)})
  }

  function ArmedFor(s: State, expiration: nat): State {
    s.(descriptor := Armed(s.clock, s.clock + HowMuchTime(expiration, s.clock)))
  }

  function AfterAdd(s: State, addr: Addr): State {
    var when := At(s, addr).expiration;
    var earliestChanged := s.timers == [] || when < s.timers[0].when;
    var added := Inserted(s, addr).(queued := s.queued - {addr});
    if earliestChanged then ArmedFor(added, when) else added
  }

  function AfterCancel(s: State, id: Id): State {
    if id in s.active then
      Deleted(s.(timers := Erase(s.timers, Entry(At(s, id.0).expiration, id.0)), active := s.active - {id}), id.0)
    else if s.stage == Calling then s.(canceling := s.canceling + {id})
    else s
  }

  function IdsOf(s: State, batch: seq<Entry>): set<Id> {
    set e | e in batch :: IdAt(s, e.addr)
  }

  predicate Dangling(s: State, batch: seq<Entry>) {
    exists e :: e in batch && e.addr !in s.heap
  }

  lemma SameHeapSameIds(s: State, t: State, batch: seq<Entry>)
    requires s.heap == t.heap
    ensures IdsOf(s, batch) == IdsOf(t, batch) && Dangling(s, batch) == Dangling(t, batch)
  {
  }

  function AfterBegin(s: State): State {
    var k := LowerBound(s.timers, s.clock);
    var batch := s.timers[..k];
    s.(descriptor := if s.descriptor.Fired? then Disarmed else s.descriptor,
       timers := s.timers[k..],
       active := s.active - IdsOf(s, batch),
       canceling := {},
       stage := Calling,
       batch := batch,
       now := s.clock,
       next := 0,
       batches := s.batches + 1,
       faulty := s.faulty || Dangling(s, batch))
  }

  function AfterCall(s: State): State
    requires Enabled(s, CallNext)
  {
    var addr := s.batch[s.next].addr;
    var t := At(s, addr);
    Follow(s, addr).(next := s.next + 1,
                     log := s.log + [Call(t.sequence, t.interval, t.expiration, s.now, s.batches)])
  }

  function AfterReset(s: State): State
    requires Enabled(s, ResetNext)
  {
    var addr := s.batch[s.next].addr;
    var t := At(s, addr);
    if t.Repeat() && IdAt(s, addr) !in s.canceling then
      var restarted := t.(expiration := AddTime(s.now, t.interval));
      Inserted(Follow(s, addr).(heap := s.heap[addr := restarted], next := s.next + 1), addr)
    else Deleted(s.(next := s.next + 1), addr)
  }

  function AfterRearm(s: State): State {
    var idle := s.(stage := Idle);
    if s.timers == [] then idle
    else
      var next := At(s, s.timers[0].addr).expiration;
      var read := Follow(idle, s.timers[0].addr);
      if next > 0 then ArmedFor(read, next) else read
  }

  function Next(s: State, e: Event): State
    requires Enabled(s, e)
  {
    match e
    case New(addr, when, interval) =>
      s.(heap := s.heap[addr := Timer(when, interval, s.created)], queued := s.queued + {addr},
         created := s.created + 1)
    case AddInLoop(addr) => AfterAdd(s, addr)
    case Cancel(id) => AfterCancel(s, id)
    case Begin => AfterBegin(s)
    case CallNext => AfterCall(s)
    case EndCalls => s.(stage := Resetting, next := 0)
    case ResetNext => AfterReset(s)
    case Rearm => AfterRearm(s)
    case Tick(time) =>
      s.(clock := time,
         descriptor := if s.descriptor.Armed? && s.descriptor.deadline <= time then Fired else s.descriptor)
  }

  predicate Legal(s: State, es: seq<Event>)
    decreases |es|, 0
  {
    es == [] || (Legal(s, es[..|es| - 1]) && Enabled(Run(s, es[..|es| - 1]), es[|es| - 1]))
  }

  function Run(s: State, es: seq<Event>): State
    requires Legal(s, es)
    decreases |es|, 1
  {
    if es == [] then s else Next(Run(s, es[..|es| - 1]), es[|es| - 1])
  }

  lemma RunPush(s: State, es: seq<Event>, e: Event)
    requires Legal(s, es) && Enabled(Run(s, es), e)
    ensures Legal(s, es + [e]) && Run(s, es + [e]) == Next(Run(s, es), e)
  {
    assert (es + [e])[..|es|] == es;
  }
}
