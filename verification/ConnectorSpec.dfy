/**
 * The connector as a state machine: one attempt to connect after another, with a growing pause between them, until a
 * connected socket is handed over. Its retry timers live in a timer queue, its resets and starts in the queue of the
 * loop, and both may still run after the connector has been stopped or started again.
 */
module ConnectorSpec {
  import opened Bytes
  import P = Poller

  const INIT_RETRY_DELAY_MS: nat := 500
  const MAX_RETRY_DELAY_MS: nat := 30 * 1000

  datatype ConnectState = Disconnected | Connecting | Connected

  datatype Errno =
    | NoError | EInProgress | EIntr | EIsConn
    | EAgain | EAddrInUse | EAddrNotAvail | EConnRefused | ENetUnreach
    | EAcces | EPerm | EAfNoSupport | EAlready | EBadF | EFault | ENotSock | Other

  datatype Outcome = Proceeding | Retryable | Fatal

  function OutcomeOf(errno: Errno): Outcome {
    match errno
    case NoError | EInProgress | EIntr | EIsConn => Proceeding
    case EAgain | EAddrInUse | EAddrNotAvail | EConnRefused | ENetUnreach => Retryable
    case _ => Fatal
  }

  /** What the kernel answers to one attempt, if there is one: a descriptor, and how connecting it went. */
  datatype Attempt = Attempt(fd: int, errno: Errno)

  /** What the socket answers when its channel reports that it is writable. */
  datatype Answer = Answer(error: bool, selfConnect: bool)

  /** What the connector queues in the loop: the reset of a channel, and a start from another thread. */
  datatype Functor = QueuedReset | QueuedStart

  datatype State = State(
    state: ConnectState,
    connect: bool,
    channel: Option<int>,
    watching: bool,
    retryDelayMs: nat,
    // The loop: functors queued, retry timers waiting, retry timers of the batch being called that are still to be
    // called, timers to be cancelled for another thread; a timer is known by how many there were before it
    functors: seq<Functor>,
    timers: set<nat>,
    due: set<nat>,
    cancels: set<nat>,
    created: nat,
    // History: descriptors made, closed and handed over, the pauses since the last restart, whether the last attempt
    // ended in an error that is not retried, and whether an assertion failed or a null channel was used
    made: seq<int>,
    closed: seq<int>,
    handed: seq<int>,
    delays: seq<nat>,
    gaveUp: bool,
    faulty: bool)

  datatype Event =
    | Start(inLoop: bool, a: Attempt)
    | Restart(a: Attempt)
    | Stop(inLoop: bool)
    | RunFunctor(a: Attempt)
    | RunCancel(id: nat)
    | BatchBegins(ids: set<nat>)
    | TimerFires(id: nat, a: Attempt)
    | ChannelEvent(revents: P.Mask, answer: Answer)

  const INITIAL := State(
    Disconnected, false, None, false, INIT_RETRY_DELAY_MS, [], {}, {}, {}, 0, [], [], [], [], false, false)

  // The operations

  /** The socket is closed; another attempt follows after the pause, unless the connector was stopped. */
  function AfterRetry(s: State, fd: int): State {
    var dropped := s.(closed := s.closed + [fd], state := Disconnected);
    if s.connect then
      dropped.(timers := s.timers + {s.created}, created := s.created + 1, delays := s.delays + [s.retryDelayMs],
               retryDelayMs := Min(s.retryDelayMs * 2, MAX_RETRY_DELAY_MS))
    else dropped
  }

  function AfterConnecting(s: State, fd: int): State {
    s.(state := Connecting, channel := Some(fd), watching := true, faulty := s.faulty || s.channel.Some?)
  }

  function Attempted(s: State, a: Attempt): State {
    s.(made := s.made + [a.fd], gaveUp := OutcomeOf(a.errno) == Fatal)
  }

  function AfterConnect(s: State, a: Attempt): State {
    var noted := Attempted(s, a);
    match OutcomeOf(a.errno)
    case Proceeding => AfterConnecting(noted, a.fd)
    case Retryable => AfterRetry(noted, a.fd)
    case Fatal => noted.(closed := noted.closed + [a.fd])
  }

  function AfterStartInLoop(s: State, a: Attempt): State {
    var checked := s.(faulty := s.faulty || s.state != Disconnected);
    if s.connect then AfterConnect(checked, a) else checked
  }

  /** The channel is silenced; it goes away when the loop runs the queued reset. */
  function AfterRemove(s: State): State {
    s.(watching := false, functors := s.functors + [QueuedReset], faulty := s.faulty || s.channel.None?)
  }

  function AfterHandleError(s: State): State {
    if s.channel.None? then s.(faulty := true)
    else AfterRetry(AfterRemove(s.(faulty := s.faulty || s.state != Connecting)), s.channel.value)
  }

  function AfterHandleWrite(s: State, answer: Answer): State {
    if s.state != Connecting then s
    else if s.channel.None? then s.(faulty := true)
    else
      var fd, removed := s.channel.value, AfterRemove(s);
      if answer.error || answer.selfConnect then AfterRetry(removed, fd)
      else if s.connect then removed.(state := Connected, handed := s.handed + [fd])
      else removed.(state := Connected, closed := s.closed + [fd])
  }

  const CALLBACKS: set<P.Callback> := {P.ErrorCallback, P.WriteCallback}

  /** The callbacks of one event of the channel, one after another. */
  function AfterCalls(s: State, calls: seq<P.Callback>, answer: Answer): State {
    if calls == [] then s
    else
      var rest, c := AfterCalls(s, calls[..|calls| - 1], answer), calls[|calls| - 1];
      match c
      case ErrorCallback => AfterHandleError(rest)
      case WriteCallback => AfterHandleWrite(rest, answer)
      case _ => rest
  }

  /** The timer the connector remembers: the last one it made. */
  function Remembered(s: State): set<nat> {
    if s.created == 0 then {} else {s.created - 1}
  }

  /** Cancelling takes a waiting timer out; a timer of the batch being called is called all the same. */
  function AfterStop(s: State, inLoop: bool): State {
    var unwanted := s.(connect := false);
    if inLoop then unwanted.(timers := s.timers - Remembered(s))
    else unwanted.(cancels := s.cancels + Remembered(s))
  }

  function AfterFunctor(s: State, a: Attempt): State
    requires s.functors != []
  {
    var rest := s.(functors := s.functors[1..]);
    match s.functors[0]
    case QueuedReset => rest.(channel := None)
    case QueuedStart => AfterStartInLoop(rest, a)
  }

  /** While a batch of timers is being called, the loop runs neither functors nor channel events. */
  predicate Enabled(s: State, e: Event) {
    match e
    case RunFunctor(_) => s.due == {} && s.functors != []
    case RunCancel(id) => s.due == {} && id in s.cancels
    case BatchBegins(ids) => s.due == {} && ids <= s.timers
    case TimerFires(id, _) => id in s.due
    case ChannelEvent(_, _) => s.due == {} && s.watching
    case _ => true
  }

  function Next(s: State, e: Event): State
    requires Enabled(s, e)
  {
    match e
    case Start(inLoop, a) =>
      var wanted := s.(connect := true);
      if inLoop then AfterStartInLoop(wanted, a)
      else wanted.(functors := s.functors + [QueuedStart], gaveUp := false)
    case Restart(a) =>
      AfterStartInLoop(s.(state := Disconnected, retryDelayMs := INIT_RETRY_DELAY_MS, delays := [], connect := true), a)
    case Stop(inLoop) => AfterStop(s, inLoop)
    case RunFunctor(a) => AfterFunctor(s, a)
    case RunCancel(id) => s.(timers := s.timers - {id}, cancels := s.cancels - {id})
    case BatchBegins(ids) => s.(timers := s.timers - ids, due := ids)
    case TimerFires(id, a) => AfterStartInLoop(s.(due := s.due - {id}), a)
    case ChannelEvent(revents, answer) => AfterCalls(s, P.Dispatch(revents, CALLBACKS), answer)
  }

  // Starting safely

  /** No other start is on its way: no retry timer waits or is about to be called, and none is queued. */
  predicate NoOtherStart(s: State) {
    s.timers == {} && s.due == {} && QueuedStart !in s.functors
  }

  /** An attempt made now cannot collide with another one, or with the channel of the last one. */
  predicate RoomFor(s: State, a: Attempt) {
    match OutcomeOf(a.errno)
    case Proceeding => NoOtherStart(s) && s.channel.None?
    case Retryable => NoOtherStart(s)
    case Fatal => true
  }

  /** The starts that no assertion fails after, now or later. */
  predicate SafeStart(s: State, e: Event) {
    match e
    case Start(true, a) => s.state == Disconnected && RoomFor(s, a)
    case Start(false, _) => s.state == Disconnected && NoOtherStart(s)
    case Restart(a) => s.state != Connecting && RoomFor(s, a)
    case _ => true
  }

  /** What the connector relies on: safe starts, and a loop that runs a queued reset before it calls a retry timer. */
  predicate Orderly(s: State, e: Event) {
    SafeStart(s, e) && (e.BatchBegins? && e.ids != {} ==> QueuedReset !in s.functors)
  }

  predicate Legal(s: State, es: seq<Event>)
    decreases |es|, 0
  {
    es == [] ||
    (Legal(s, es[..|es| - 1]) &&
     var before := Run(s, es[..|es| - 1]);
     Enabled(before, es[|es| - 1]) && Orderly(before, es[|es| - 1]))
  }

  function Run(s: State, es: seq<Event>): State
    requires Legal(s, es)
    decreases |es|, 1
  {
    if es == [] then s else Next(Run(s, es[..|es| - 1]), es[|es| - 1])
  }

  lemma RunPush(s: State, es: seq<Event>, e: Event)
    requires Legal(s, es) && Enabled(Run(s, es), e) && Orderly(Run(s, es), e)
    ensures Legal(s, es + [e]) && Run(s, es + [e]) == Next(Run(s, es), e)
  {
    assert (es + [e])[..|es|] == es;
  }

  // The invariant: sockets, pauses and progress

  function Pow2(k: nat): nat {
    if k == 0 then 1 else 2 * Pow2(k - 1)
  }

  /** The k-th pause since the last restart, counted from 0. */
  function Delay(k: nat): nat {
    Min(INIT_RETRY_DELAY_MS * Pow2(k), MAX_RETRY_DELAY_MS)
  }

  /** The pauses so far, and the next one, double from the first to the longest. */
  predicate Doubling(delays: seq<nat>, next: nat) {
    next == Delay(|delays|) && forall k :: 0 <= k < |delays| ==> delays[k] == Delay(k)
  }

  function Holding(s: State): multiset<int> {
    if s.state == Connecting && s.channel.Some? then multiset{s.channel.value} else multiset{}
  }

  /** Every socket made is closed once, or handed over once, or still held; a number may come again for a new socket. */
  predicate Settled(made: seq<int>, closed: seq<int>, handed: seq<int>, held: multiset<int>) {
    multiset(made) == multiset(closed) + multiset(handed) + held
  }

  predicate EachOnce(s: State) {
    Settled(s.made, s.closed, s.handed, Holding(s))
  }

  predicate InOrder(functors: seq<Functor>) {
    functors in {[], [QueuedReset], [QueuedStart], [QueuedReset, QueuedStart]}
  }

  function Pending(s: State): set<nat> {
    s.timers + s.due
  }

  predicate Timers(s: State) {
    && Pending(s) <= Remembered(s) && s.timers !! s.due
    && (forall id :: id in s.cancels ==> id < s.created)
  }

  /**
   * There is one chain of attempts: an attempt under way, or a timer, or a queued start, and a channel until its
   * reset.
   */
  predicate Consistent(s: State) {
    && !s.faulty && InOrder(s.functors) && Timers(s)
    && (s.state == Connecting ==> s.channel.Some? && s.watching && s.functors == [] && Pending(s) == {})
    && (s.state != Connecting ==> !s.watching && (s.channel.Some? <==> QueuedReset in s.functors))
    && (Pending(s) != {} ==> s.state == Disconnected && QueuedStart !in s.functors)
    && (QueuedStart in s.functors ==> s.state == Disconnected)
    && (s.due != {} ==> QueuedReset !in s.functors)
  }

  /**
   * While a connection is wanted, and there is none, another attempt is under way, unless the last error forbade it.
   */
  predicate Progresses(s: State) {
    && (s.connect && s.state == Disconnected ==> Pending(s) != {} || QueuedStart in s.functors || s.gaveUp)
    && (s.connect && Pending(s) * s.cancels != {} ==> s.gaveUp)
  }

  predicate Sound(s: State) {
    Consistent(s) && EachOnce(s) && Doubling(s.delays, s.retryDelayMs)
  }

  predicate Inv(s: State) {
    Sound(s) && Progresses(s)
  }

  lemma Settle(made: seq<int>, closed: seq<int>, handed: seq<int>, fd: int)
    requires Settled(made, closed, handed, multiset{fd})
    ensures Settled(made, closed + [fd], handed, multiset{}) && Settled(made, closed, handed + [fd], multiset{})
  {
  }

  lemma NewSocket(made: seq<int>, closed: seq<int>, handed: seq<int>, fd: int)
    requires Settled(made, closed, handed, multiset{})
    ensures Settled(made + [fd], closed, handed, multiset{fd})
    ensures Settled(made + [fd], closed + [fd], handed, multiset{})
  {
  }

  lemma Doubles(delays: seq<nat>, next: nat)
    requires Doubling(delays, next)
    ensures Doubling(delays + [next], Min(next * 2, MAX_RETRY_DELAY_MS))
  {
  }

  lemma NoDelays()
    ensures Doubling([], INIT_RETRY_DELAY_MS)
  {
  }
}
