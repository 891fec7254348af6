/** A connection as a state machine over values: every event the loop can bring, with the kernel's answers as inputs. */
module Connection {
  import opened Bytes
  import opened Codec
  import opened Poller

  datatype State = Connecting | Connected | Disconnected

  datatype Conn = Conn(
    state: State,
    events: Mask,
    registered: bool,
    input: seq<Byte>,
    output: seq<Byte>,
    // What the peer can see: the bytes the kernel took, and the bytes that were on the wire at each shutdown of the
    // write side
    wire: seq<Byte>,
    fins: seq<seq<Byte>>,
    // History: the bytes handed to the sender, the messages decoded, and whether reading or writing was given up
    accepted: seq<Byte>,
    delivered: seq<Message>,
    detached: bool)

  /** `result` is what `write` or `read` returned, negative for an error; `incoming` is what the descriptor holds. */
  datatype Event =
    | Establish
    | Send(message: seq<Byte>, result: int)
    | RunQueuedSend(message: seq<Byte>, result: int)
    | Readable(incoming: seq<Byte>, result: int)
    | Writable(result: int)
    | HangUp
    | Shutdown
    | ShutdownElsewhere
    | RunQueuedShutdown
    | Destroy

  const INITIAL := Conn(Connecting, {}, false, [], [], [], [], [], [], false)

  predicate IsWriting(c: Conn) {
    c.events * WRITE != {}
  }

  /** A changed mask registers the channel if it is not registered, and otherwise unregisters it if nothing is left. */
  function Updated(c: Conn, events: Mask): Conn {
    c.(events := events, registered := !c.registered || events != {})
  }

  /**
   * The asserts of the source, and the kernel's contract for its results. The destruction disables every event and then
   * removes the channel, which has to be registered at that moment, and so must not be before.
   */
  predicate Enabled(c: Conn, e: Event) {
    match e
    case Establish => c.state == Connecting
    case Send(message, result) => result <= |message|
    case RunQueuedSend(message, result) => result <= |message|
    case Readable(incoming, result) => result <= |incoming| && (result == 0 ==> c.state == Connected)
    case Writable(result) => result <= |c.output|
    case HangUp => c.state == Connected
    case Destroy => c.state == Connected && !c.registered
    case _ => true
  }

  /** Writes directly when nothing is waiting; what the kernel does not take waits in the output buffer. */
  function AfterSend(c: Conn, message: seq<Byte>, result: int): Conn
    requires result <= |message|
  {
    var direct := !IsWriting(c) && c.output == [];
    var nwrote := if direct && result >= 0 then result else 0;
    var written := c.(wire := c.wire + message[..nwrote], accepted := c.accepted + message);
    if nwrote < |message| then AfterAwait(written, message[nwrote..]) else written
  }

  /** The rest waits in the output buffer, with write interest on. */
  function AfterAwait(c: Conn, rest: seq<Byte>): Conn {
    var waiting := c.(output := c.output + rest);
    if IsWriting(c) then waiting else Updated(waiting, c.events + WRITE)
  }

  function AfterShutdownInLoop(c: Conn): Conn {
    if IsWriting(c) then c else c.(fins := c.fins + [c.wire])
  }

  function AfterShutdown(c: Conn): Conn {
    if c.state == Connected then AfterShutdownInLoop(c.(state := Disconnected)) else c
  }

  function AfterWrite(c: Conn, result: int): Conn
    requires result <= |c.output|
  {
    if IsWriting(c) && result > 0 then
      var written := c.(wire := c.wire + c.output[..result], output := c.output[result..]);
      if written.output != [] then written
      else
        var quiet := Updated(written, c.events - WRITE);
        if c.state == Disconnected then AfterShutdownInLoop(quiet) else quiet
    else c
  }

  function AfterClose(c: Conn): Conn {
    Updated(c, {}).(detached := true)
  }

  /** Reads into the input buffer and decodes it; the end of the stream closes, a bad length shuts the write side. */
  function AfterRead(c: Conn, incoming: seq<Byte>, result: int): Conn
    requires result <= |incoming|
  {
    if result > 0 then
      var p := Parse(c.input + incoming[..result]);
      var taken := c.(input := p.rest, delivered := c.delivered + p.messages);
      if p.bad then AfterShutdown(taken) else taken
    else if result == 0 then AfterClose(c)
    else c
  }

  function Next(c: Conn, e: Event): Conn
    requires Enabled(c, e)
  {
    match e
    case Establish => Updated(c.(state := Connected), c.events + READ)
    case Send(message, result) => if c.state == Connected then AfterSend(c, message, result) else c
    case RunQueuedSend(message, result) => AfterSend(c, message, result)
    case Readable(incoming, result) => AfterRead(c, incoming, result)
    case Writable(result) => AfterWrite(c, result)
    case HangUp => AfterClose(c)
    case Shutdown => AfterShutdown(c)
    case ShutdownElsewhere => if c.state == Connected then c.(state := Disconnected) else c
    case RunQueuedShutdown => AfterShutdownInLoop(c)
    case Destroy => AfterClose(c).(state := Disconnected, registered := false)
  }

  predicate Legal(c: Conn, es: seq<Event>)
    decreases |es|, 0
  {
    es == [] || (Legal(c, es[..|es| - 1]) && Enabled(Run(c, es[..|es| - 1]), es[|es| - 1]))
  }

  function Run(c: Conn, es: seq<Event>): Conn
    requires Legal(c, es)
    decreases |es|, 1
  {
    if es == [] then c else Next(Run(c, es[..|es| - 1]), es[|es| - 1])
  }

  // Conservation of the outgoing stream

  /** No byte is lost, doubled or reordered on the way out, and write interest is on exactly while bytes wait. */
  predicate Conserved(c: Conn) {
    && c.wire + c.output == c.accepted
    && (!c.detached ==> (IsWriting(c) <==> c.output != []))
  }

  lemma AwaitConserves(c: Conn, rest: seq<Byte>)
    requires c.wire + c.output + rest == c.accepted && rest != []
    ensures Conserved(AfterAwait(c, rest))
  {
    assert Out in c.events + WRITE && Out in (c.events + WRITE) * WRITE;
    assert c.wire + (c.output + rest) == c.wire + c.output + rest;
  }

  lemma SendConserves(c: Conn, message: seq<Byte>, result: int)
    requires Conserved(c) && result <= |message|
    ensures Conserved(AfterSend(c, message, result))
  {
    hide AfterAwait;
    var nwrote := if !IsWriting(c) && c.output == [] && result >= 0 then result else 0;
    var written := c.(wire := c.wire + message[..nwrote], accepted := c.accepted + message);
    SentInTwoParts(c, message, nwrote);
    if nwrote < |message| {
      AwaitConserves(written, message[nwrote..]);
    }
  }

  lemma SentInTwoParts(c: Conn, message: seq<Byte>, n: nat)
    requires c.wire + c.output == c.accepted && n <= |message| && (n > 0 ==> c.output == [])
    ensures c.wire + message[..n] + c.output + message[n..] == c.accepted + message
    ensures n == |message| ==> c.wire + message[..n] + c.output == c.accepted + message
  {
    assert message == message[..n] + message[n..];
    if n > 0 {
      assert c.wire + message[..n] + [] + message[n..] == c.wire + (message[..n] + message[n..]);
      assert c.wire + [] == c.wire && c.wire + message[..n] + [] == c.wire + message[..n];
    } else {
      assert c.wire + [] + c.output + message == c.wire + c.output + message;
      assert c.wire + [] + c.output == c.wire + c.output;
    }
  }

  lemma WriteConserves(c: Conn, result: int)
    requires Conserved(c) && result <= |c.output|
    ensures Conserved(AfterWrite(c, result))
  {
    if IsWriting(c) && result > 0 {
      assert c.wire + c.output[..result] + c.output[result..] == c.wire + c.output;
      assert (c.events - WRITE) * WRITE == {};
    }
  }

  lemma StepConserves(c: Conn, e: Event)
    requires Conserved(c) && Enabled(c, e)
    ensures Conserved(Next(c, e))
  {
    match e
    case Send(message, result) => SendConserves(c, message, result);
    case RunQueuedSend(message, result) => SendConserves(c, message, result);
    case Writable(result) => WriteConserves(c, result);
    case Establish => assert (c.events + READ) * WRITE == c.events * WRITE;
    case _ =>
  }

  /** Over every run, sends queued by other threads and failing writes included. */
  lemma {:induction false} OutboundConservation(es: seq<Event>)
    requires Legal(INITIAL, es)
    ensures Conserved(Run(INITIAL, es))
  {
    if es != [] {
      OutboundConservation(es[..|es| - 1]);
      StepConserves(Run(INITIAL, es[..|es| - 1]), es[|es| - 1]);
    }
  }

  // Shutting the write side

  predicate OnLoopThread(es: seq<Event>) {
    forall i :: 0 <= i < |es| ==> !es[i].RunQueuedSend? && !es[i].ShutdownElsewhere? && !es[i].RunQueuedShutdown?
  }

  /** The write side is shut once, as soon as the shutdown was asked for and everything accepted is on the wire. */
  predicate ShutOnceDrained(c: Conn) {
    c.fins == if c.state == Disconnected && c.output == [] then [c.accepted] else []
  }

  lemma StepShutsOnceDrained(c: Conn, e: Event)
    requires Conserved(c) && ShutOnceDrained(c) && Enabled(c, e) && OnLoopThread([e]) && !Next(c, e).detached
    ensures ShutOnceDrained(Next(c, e))
  {
    StepConserves(c, e);
    assert [e][0] == e;
    match e
    case Writable(result) =>
      if IsWriting(c) && result > 0 {
        assert (c.events - WRITE) * WRITE == {};
        assert c.wire + c.output[..result] + c.output[result..] == c.wire + c.output;
        var after := Next(c, e);
        if after.output == [] {
          assert after.wire + [] == after.wire;
        }
      }
    case Send(_, _) =>
    case _ =>
      assert c.output == [] ==> c.wire + c.output == c.wire;
  }

  /**
   * With `send` and `shutdown` called on the loop thread and no close yet: the write side is never shut while an
   * accepted byte waits, it is shut at most once, and never left open once a requested shutdown could happen.
   */
  lemma {:induction false} WriteSideShutExactlyWhenDrained(es: seq<Event>)
    requires Legal(INITIAL, es) && OnLoopThread(es) && !Run(INITIAL, es).detached
    ensures ShutOnceDrained(Run(INITIAL, es))
    ensures Run(INITIAL, es).fins != [] ==>
              Run(INITIAL, es).wire == Run(INITIAL, es).accepted == Run(INITIAL, es).fins[0]
  {
    OutboundConservation(es);
    if es != [] {
      var before, e := es[..|es| - 1], es[|es| - 1];
      DetachedForGood(Run(INITIAL, before), e);
      WriteSideShutExactlyWhenDrained(before);
      OutboundConservation(before);
      assert [e][0] == e;
      StepShutsOnceDrained(Run(INITIAL, before), e);
    }
    var c := Run(INITIAL, es);
    assert c.output == [] ==> c.wire + c.output == c.wire;
  }

  lemma DetachedForGood(c: Conn, e: Event)
    requires Enabled(c, e)
    ensures c.detached ==> Next(c, e).detached
  {
  }

  // The end of a connection

  /**
   * What takes a connection out of the connected state: a shutdown asked for here, elsewhere or by a bad length, or
   * the end.
   */
  predicate Ends(c: Conn, e: Event) {
    match e
    case Shutdown => true
    case ShutdownElsewhere => true
    case Destroy => true
    case Readable(incoming, result) => 0 < result <= |incoming| && Parse(c.input + incoming[..result]).bad
    case _ => false
  }

  /** The connection was established, and nothing has ended it since. */
  predicate StillOpen(es: seq<Event>)
    requires Legal(INITIAL, es)
  {
    && es != []
    && (es[|es| - 1].Establish? || (StillOpen(es[..|es| - 1]) && !Ends(Run(INITIAL, es[..|es| - 1]), es[|es| - 1])))
  }

  lemma StepOnState(c: Conn, e: Event)
    requires Enabled(c, e)
    ensures Next(c, e).state == Connected <==> e.Establish? || (c.state == Connected && !Ends(c, e))
  {
    hide Parse;
  }

  /**
   * The asserts that guard the end of the peer's stream and a hang-up hold exactly if the connection was established
   * and no shutdown, bad length or destruction has come since. So after a local shutdown neither can follow.
   */
  lemma {:induction false} ClosesExactlyIfStillOpen(es: seq<Event>, incoming: seq<Byte>)
    requires Legal(INITIAL, es)
    ensures Enabled(Run(INITIAL, es), HangUp) <==> StillOpen(es)
    ensures Enabled(Run(INITIAL, es), Readable(incoming, 0)) <==> StillOpen(es)
  {
    if es != [] {
      ClosesExactlyIfStillOpen(es[..|es| - 1], incoming);
      StepOnState(Run(INITIAL, es[..|es| - 1]), es[|es| - 1]);
      hide Next, Ends;
    }
  }

  lemma {:induction false} NeverOpenAgain(es: seq<Event>, more: seq<Event>)
    requires Legal(INITIAL, es + more) && Legal(INITIAL, es) && Run(INITIAL, es).state == Disconnected
    ensures Run(INITIAL, es + more).state == Disconnected && !StillOpen(es + more)
  {
    hide Next, Ends;
    if more == [] {
      assert es + more == es;
    } else {
      var before := es + more[..|more| - 1];
      assert (es + more)[..|es + more| - 1] == before;
      NeverOpenAgain(es, more[..|more| - 1]);
      StaysDisconnected(Run(INITIAL, before), more[|more| - 1]);
    }
    ClosesExactlyIfStillOpen(es + more, []);
  }

  lemma StaysDisconnected(c: Conn, e: Event)
    requires Enabled(c, e) && c.state == Disconnected
    ensures Next(c, e).state == Disconnected
  {
    hide Parse;
  }

  // The registration of the channel

  predicate Closes(e: Event) {
    e.HangUp? || (e.Readable? && e.result == 0)
  }

  /** A send of which something must wait while write interest is off, so that it is switched on. */
  predicate StartsWaiting(c: Conn, e: Event) {
    && ((e.Send? && c.state == Connected) || e.RunQueuedSend?)
    && !IsWriting(c) && |e.message| > if c.output == [] && e.result >= 0 then e.result else 0
  }

  predicate Drains(c: Conn, e: Event) {
    e.Writable? && IsWriting(c) && 0 < e.result && e.result == |c.output|
  }

  /** The channel watches for reading: the connection was established, and neither closed nor destroyed since. */
  predicate Reading(es: seq<Event>) {
    && es != []
    && (es[|es| - 1].Establish? || (Reading(es[..|es| - 1]) && !Closes(es[|es| - 1]) && !es[|es| - 1].Destroy?))
  }

  /** What a run leaves the channel: a close takes the registration away, or makes one that is not there. */
  predicate LeavesRegistered(es: seq<Event>)
    requires Legal(INITIAL, es)
  {
    es != [] &&
    var before, e := es[..|es| - 1], es[|es| - 1];
    if e.Establish? then true
    else if e.Destroy? then false
    else if Closes(e) then !LeavesRegistered(before)
    else if StartsWaiting(Run(INITIAL, before), e) then true
    else if Drains(Run(INITIAL, before), e) then Reading(before)
    else LeavesRegistered(before)
  }

  /** The mask holds what the channel watches for, and no mask is left without a registration. */
  predicate Watches(c: Conn, reading: bool) {
    && c.events == (if reading then READ else {}) + (if IsWriting(c) then WRITE else {})
    && (!c.registered ==> c.events == {})
  }

  /** Whether the channel is registered after a step. */
  predicate RegisteredAfter(c: Conn, e: Event, reading: bool) {
    if e.Establish? then true
    else if e.Destroy? then false
    else if Closes(e) then !c.registered
    else if StartsWaiting(c, e) then true
    else if Drains(c, e) then reading
    else c.registered
  }

  lemma SendOnRegistration(c: Conn, message: seq<Byte>, result: int, reading: bool)
    requires Watches(c, reading) && result <= |message|
    ensures var after, e := AfterSend(c, message, result), RunQueuedSend(message, result);
            Watches(after, reading) && (after.registered <==> RegisteredAfter(c, e, reading))
  {
    assert (c.events + WRITE) * WRITE == WRITE;
  }

  lemma WriteOnRegistration(c: Conn, result: int, reading: bool)
    requires Watches(c, reading) && result <= |c.output|
    ensures var after := AfterWrite(c, result);
            Watches(after, reading) && (after.registered <==> RegisteredAfter(c, Writable(result), reading))
  {
    assert (c.events - WRITE) * WRITE == {} && READ * WRITE == {};
    assert c.events - WRITE == if reading then READ else {};
  }

  lemma StepOnRegistration(c: Conn, e: Event, reading: bool)
    requires Enabled(c, e) && Watches(c, reading)
    ensures Watches(Next(c, e), e.Establish? || (reading && !Closes(e) && !e.Destroy?))
    ensures Next(c, e).registered <==> RegisteredAfter(c, e, reading)
  {
    hide Parse, AfterSend, AfterWrite;
    match e
    case Send(message, result) => SendOnRegistration(c, message, result, reading);
    case RunQueuedSend(message, result) => SendOnRegistration(c, message, result, reading);
    case Writable(result) => WriteOnRegistration(c, result, reading);
    case _ => assert (c.events + READ) * WRITE == c.events * WRITE;
  }

  lemma {:induction false} RegistrationOfRun(es: seq<Event>)
    requires Legal(INITIAL, es)
    ensures Watches(Run(INITIAL, es), Reading(es))
    ensures Run(INITIAL, es).registered <==> LeavesRegistered(es)
  {
    if es != [] {
      var before := es[..|es| - 1];
      RegistrationOfRun(before);
      hide Next, Watches, Enabled, StartsWaiting, Drains;
      StepOnRegistration(Run(INITIAL, before), es[|es| - 1], Reading(before));
    }
  }

  /**
   * Every assert on the way of the destruction holds exactly if the connection is still open and its channel is left
   * unregistered, as it is by one close with nothing that has to wait after it.
   */
  lemma DestroysExactlyIf(es: seq<Event>)
    requires Legal(INITIAL, es)
    ensures Enabled(Run(INITIAL, es), Destroy) <==> StillOpen(es) && !LeavesRegistered(es)
  {
    RegistrationOfRun(es);
    ClosesExactlyIfStillOpen(es, []);
  }

  /** After the close of a registered connection, whatever does not have to wait leaves it ready for its destruction. */
  lemma {:induction false} CloseLeavesUnregistered(es: seq<Event>, more: seq<Event>)
    requires Legal(INITIAL, es) && Run(INITIAL, es).registered && Enabled(Run(INITIAL, es), HangUp)
    requires Legal(INITIAL, es + [HangUp] + more)
    requires forall i :: 0 <= i < |more| ==>
               !more[i].Establish? && !Closes(more[i]) && !more[i].Send? && !more[i].RunQueuedSend?
    ensures !LeavesRegistered(es + [HangUp] + more)
  {
    var all := es + [HangUp] + more;
    if more == [] {
      assert all[..|all| - 1] == es && all[|all| - 1] == HangUp;
      RegistrationOfRun(es);
    } else {
      var before := es + [HangUp] + more[..|more| - 1];
      assert all[..|all| - 1] == before && all[|all| - 1] == more[|more| - 1];
      CloseLeavesUnregistered(es, more[..|more| - 1]);
      RegistrationOfRun(before);
      hide Next;
    }
  }

  /**
   * Runs that are open and that the destruction fails after: no close, two closes, a send that has to wait after one.
   */
  lemma DestroyFailsAfter(message: seq<Byte>)
    requires message != []
    ensures forall es :: es in [[Establish], [Establish, HangUp, HangUp], [Establish, HangUp, Send(message, -1)]] ==>
              Legal(INITIAL, es) && StillOpen(es) && LeavesRegistered(es) && !Enabled(Run(INITIAL, es), Destroy)
  {
    var one, two, three := [Establish], [Establish, HangUp, HangUp], [Establish, HangUp, Send(message, -1)];
    var closed := [Establish, HangUp];
    assert one[..0] == [] && closed[..1] == one && two[..2] == closed && three[..2] == closed;
    assert Legal(INITIAL, []) && Run(INITIAL, []) == INITIAL;
    assert Legal(INITIAL, one) && Run(INITIAL, one).state == Connected;
    assert Legal(INITIAL, closed) && Run(INITIAL, closed).state == Connected && Run(INITIAL, closed).events == {};
    DestroysExactlyIf(one);
    DestroysExactlyIf(two);
    DestroysExactlyIf(three);
  }
}
