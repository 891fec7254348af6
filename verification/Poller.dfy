/** Channels, their event masks, and how the poller mirrors them in the interest list of the kernel. */
module Poller {
  import opened Bytes

  datatype EventBit = In | Pri | Out | Err | Hup | Nval | RdHup
  type Mask = set<EventBit>

  const READ: Mask := {In, Pri}
  const WRITE: Mask := {Out}

  /** The two values of a channel's index. */
  const NEW: int := -1
  const ADDED: int := 1

  // Registration as values: every channel of a loop, and the interest list

  datatype Registered = Registered(events: Mask, index: int)
  datatype Registry = Registry(channels: map<int, Registered>, interest: map<int, Mask>)

  datatype Action = Add | Modify | Delete

  /** The kernel refuses to add a descriptor twice, or to change or delete one it does not know. */
  function Control(interest: map<int, Mask>, action: Action, fd: int, mask: Mask): Option<map<int, Mask>> {
    match action
    case Add => if fd in interest then None else Some(interest[fd := mask])
    case Modify => if fd in interest then Some(interest[fd := mask]) else None
    case Delete => if fd in interest then Some(interest - {fd}) else None
  }

  datatype Op =
    | Open(fd: int)
    | Enable(fd: int, bits: Mask)
    | Disable(fd: int, bits: Mask)
    | DisableAll(fd: int)
    | Remove(fd: int)
    | Forget(fd: int)

  /** What the asserts and the object lifetimes of the source demand of a caller. */
  predicate Enabled(s: Registry, op: Op) {
    match op
    case Open(fd) => fd !in s.channels
    case Remove(fd) => fd in s.channels && s.channels[fd].events == {} && s.channels[fd].index == ADDED
    case Forget(fd) => fd in s.channels && s.channels[fd].index == NEW
    case _ => op.fd in s.channels
  }

  function EventsAfter(events: Mask, op: Op): Mask {
    match op
    case Enable(_, bits) => events + bits
    case Disable(_, bits) => events - bits
    case DisableAll(_) => {}
    case _ => events
  }

  /** The request an update makes, decided by the index and the new mask. */
  function UpdateAction(index: int, events: Mask): Action {
    if index == NEW then Add else if events == {} then Delete else Modify
  }

  function IndexAfter(index: int, events: Mask): int {
    if UpdateAction(index, events) == Delete then NEW else ADDED
  }

  /** The request to the kernel that a step makes, if any. */
  function Request(s: Registry, op: Op): Option<Action>
    requires Enabled(s, op)
  {
    match op
    case Open(_) => None
    case Forget(_) => None
    case Remove(_) => Some(Delete)
    case _ => Some(UpdateAction(s.channels[op.fd].index, EventsAfter(s.channels[op.fd].events, op)))
  }

  /** The interest list after a request; a refused one is only logged. */
  function Applied(interest: map<int, Mask>, action: Action, fd: int, mask: Mask): map<int, Mask> {
    match Control(interest, action, fd, mask)
    case Some(changed) => changed
    case None => interest
  }

  function Next(s: Registry, op: Op): Registry
    requires Enabled(s, op)
  {
    match op
    case Open(fd) => s.(channels := s.channels[fd := Registered({}, NEW)])
    case Forget(fd) => s.(channels := s.channels - {fd})
    case _ =>
      var fd := op.fd;
      var events, action := EventsAfter(s.channels[fd].events, op), Request(s, op).value;
      Registry(s.channels[fd := Registered(events, if action == Delete then NEW else ADDED)],
               Applied(s.interest, action, fd, events))
  }

  predicate Legal(s: Registry, ops: seq<Op>)
    decreases |ops|, 0
  {
    ops == [] || (Legal(s, ops[..|ops| - 1]) && Enabled(Run(s, ops[..|ops| - 1]), ops[|ops| - 1]))
  }

  function Run(s: Registry, ops: seq<Op>): Registry
    requires Legal(s, ops)
    decreases |ops|, 1
  {
    if ops == [] then s else Next(Run(s, ops[..|ops| - 1]), ops[|ops| - 1])
  }

  lemma RunPush(s: Registry, ops: seq<Op>, op: Op)
    requires Legal(s, ops)
    ensures Legal(s, ops + [op]) <==> Enabled(Run(s, ops), op)
    ensures Legal(s, ops + [op]) ==> Run(s, ops + [op]) == Next(Run(s, ops), op)
  {
    assert (ops + [op])[..|ops|] == ops;
  }

  const EMPTY := Registry(map[], map[])

  /** The interest list holds exactly the channels marked as added, each with its own mask. */
  predicate Mirror(s: Registry) {
    && (forall fd :: fd in s.interest ==> fd in s.channels)
    && (forall fd :: fd in s.channels ==>
          var c := s.channels[fd];
          if fd in s.interest then c.index == ADDED && s.interest[fd] == c.events
          else c.index == NEW && c.events == {})
  }

  lemma MirrorStep(s: Registry, op: Op)
    requires Mirror(s) && Enabled(s, op)
    ensures Mirror(Next(s, op))
    ensures var request := Request(s, op);
            request.Some? ==> Control(s.interest, request.value, op.fd, EventsAfter(s.channels[op.fd].events, op)).Some?
  {
  }

  /** Over any legal sequence of calls the mirror holds, and the kernel never refuses the next request. */
  lemma {:induction false} MirrorAlways(ops: seq<Op>)
    requires Legal(EMPTY, ops)
    ensures Mirror(Run(EMPTY, ops))
    ensures forall op :: Enabled(Run(EMPTY, ops), op) && Request(Run(EMPTY, ops), op).Some? ==>
              Control(Run(EMPTY, ops).interest, Request(Run(EMPTY, ops), op).value, op.fd,
                      EventsAfter(Run(EMPTY, ops).channels[op.fd].events, op)).Some?
  {
    if ops != [] {
      MirrorAlways(ops[..|ops| - 1]);
      MirrorStep(Run(EMPTY, ops[..|ops| - 1]), ops[|ops| - 1]);
    }
    var s := Run(EMPTY, ops);
    forall op | Enabled(s, op)
      ensures Request(s, op).Some? ==>
                Control(s.interest, Request(s, op).value, op.fd, EventsAfter(s.channels[op.fd].events, op)).Some?
    {
      MirrorStep(s, op);
    }
  }

  /** What a call on an existing channel does to its mask and to its registration; the others are untouched. */
  lemma OpEffect(s: Registry, fd: int, bits: Mask)
    requires Mirror(s) && fd in s.channels
    ensures var events := s.channels[fd].events;
            && MaskChanged(s, Next(s, Enable(fd, bits)), fd, events + bits)
            && MaskChanged(s, Next(s, Disable(fd, bits)), fd, events - bits)
            && MaskChanged(s, Next(s, DisableAll(fd)), fd, {})
    ensures s.channels[fd] == Registered({}, ADDED) ==>
              Next(s, Remove(fd)) == Registry(s.channels[fd := Registered({}, NEW)], s.interest - {fd})
  {
    MirrorStep(s, Enable(fd, bits));
    MirrorStep(s, Disable(fd, bits));
    MirrorStep(s, DisableAll(fd));
  }

  /** The mask is the new one; the channel stays registered, or becomes so, unless it was and nothing is left. */
  predicate MaskChanged(s: Registry, t: Registry, fd: int, events: Mask) {
    && t.channels.Keys == s.channels.Keys && fd in t.channels && t.channels[fd].events == events
    && t.interest == (if fd in s.interest && events == {} then s.interest - {fd} else s.interest[fd := events])
    && (forall other :: other in s.channels && other != fd ==> t.channels[other] == s.channels[other])
  }

  /** Disabling everything on a channel that is not registered registers it again, with an empty mask. */
  lemma DisableAllToggles(s: Registry, fd: int)
    requires Mirror(s) && fd in s.channels
    ensures var after := Next(s, DisableAll(fd));
            && (fd in s.interest <==> fd !in after.interest)
            && (fd in after.interest ==> after.interest[fd] == {})
  {
  }

  /**
   * Removing a channel right after disabling everything, as the end of a connection does, meets the asserts of the
   * removal exactly when the channel was not registered before; then it ends unregistered.
   */
  lemma DisableAndRemoveIffUnregistered(s: Registry, fd: int)
    requires Mirror(s) && fd in s.channels
    ensures Legal(s, [DisableAll(fd), Remove(fd)]) <==> fd !in s.interest
    ensures fd !in s.interest ==> Run(s, [DisableAll(fd), Remove(fd)]) == s
  {
    var ops := [DisableAll(fd), Remove(fd)];
    RunPush(s, [], DisableAll(fd));
    RunPush(s, [DisableAll(fd)], Remove(fd));
    assert [] + [DisableAll(fd)] == [DisableAll(fd)] && [DisableAll(fd)] + [Remove(fd)] == ops;
    if fd !in s.interest {
      DisableThenRemove(s, fd);
    }
  }

  lemma DisableThenRemove(s: Registry, fd: int)
    requires Mirror(s) && fd in s.channels && fd !in s.interest
    ensures Enabled(Next(s, DisableAll(fd)), Remove(fd))
    ensures Next(Next(s, DisableAll(fd)), Remove(fd)) == s
  {
    var end := Next(Next(s, DisableAll(fd)), Remove(fd));
    assert end.channels == s.channels;
    assert end.interest == s.interest;
  }

  predicate OnOthers(ops: seq<Op>, fd: int) {
    forall i :: 0 <= i < |ops| ==> ops[i].fd != fd
  }

  lemma {:induction false} OthersLeaveAlone(s: Registry, fd: int, ops: seq<Op>)
    requires Mirror(s) && fd in s.channels && Legal(s, ops) && OnOthers(ops, fd)
    ensures var t := Run(s, ops);
            && Mirror(t) && fd in t.channels && t.channels[fd] == s.channels[fd]
            && (fd in t.interest <==> fd in s.interest)
  {
    if ops != [] {
      OthersLeaveAlone(s, fd, ops[..|ops| - 1]);
      MirrorStep(Run(s, ops[..|ops| - 1]), ops[|ops| - 1]);
    }
  }

  lemma {:induction false} LegalConcat(s: Registry, ops: seq<Op>, more: seq<Op>)
    requires Legal(s, ops)
    ensures Legal(s, ops + more) <==> Legal(Run(s, ops), more)
    ensures Legal(s, ops + more) ==> Run(s, ops + more) == Run(Run(s, ops), more)
  {
    if more == [] {
      assert ops + more == ops;
    } else {
      LegalConcat(s, ops, more[..|more| - 1]);
      assert (ops + more)[..|ops + more| - 1] == ops + more[..|more| - 1];
    }
  }

  /**
   * A connection is closed, any other channels go on, and later the connection is destroyed: every assert is met, the
   * channel ends unregistered, and for everything else it is as if the destruction had not happened.
   */
  lemma CloseOthersDestroy(s: Registry, fd: int, ops: seq<Op>)
    requires Mirror(s) && fd in s.interest
    requires Legal(Next(s, DisableAll(fd)), ops) && OnOthers(ops, fd)
    ensures var close, destroy := [DisableAll(fd)], [DisableAll(fd), Remove(fd)];
            && Legal(s, close + ops + destroy)
            && Run(s, close + ops + destroy) == Run(Next(s, DisableAll(fd)), ops)
            && fd !in Run(s, close + ops + destroy).interest
            && Run(s, close + ops + destroy).channels[fd] == Registered({}, NEW)
  {
    MirrorStep(s, DisableAll(fd));
    OthersLeaveAlone(Next(s, DisableAll(fd)), fd, ops);
    DestroyIffUnregistered(s, fd, ops);
  }

  /**
   * Whatever comes between the close and the destruction, the asserts of the destruction are met exactly if it leaves
   * the channel unregistered.
   */
  lemma DestroyIffUnregistered(s: Registry, fd: int, ops: seq<Op>)
    requires Mirror(s) && fd in s.interest && Legal(Next(s, DisableAll(fd)), ops)
    requires fd in Run(Next(s, DisableAll(fd)), ops).channels
    ensures var t, destroy := Run(Next(s, DisableAll(fd)), ops), [DisableAll(fd), Remove(fd)];
            && (Legal(s, [DisableAll(fd)] + ops + destroy) <==> fd !in t.interest)
            && (fd !in t.interest ==> Run(s, [DisableAll(fd)] + ops + destroy) == t)
  {
    var close := [DisableAll(fd)];
    RunPush(s, [], DisableAll(fd));
    assert [] + close == close;
    LegalConcat(s, close, ops);
    LegalConcat(s, close + ops, [DisableAll(fd), Remove(fd)]);
    MirrorStep(s, DisableAll(fd));
    MirrorKept(Next(s, DisableAll(fd)), ops);
    DisableAndRemoveIffUnregistered(Run(Next(s, DisableAll(fd)), ops), fd);
  }

  lemma {:induction false} MirrorKept(s: Registry, ops: seq<Op>)
    requires Mirror(s) && Legal(s, ops)
    ensures Mirror(Run(s, ops))
  {
    if ops != [] {
      MirrorKept(s, ops[..|ops| - 1]);
      MirrorStep(Run(s, ops[..|ops| - 1]), ops[|ops| - 1]);
    }
  }

  /** Write interest switched on after the close registers the channel again, and the destruction hits its assert. */
  lemma CloseWriteDestroyFails(s: Registry, fd: int)
    requires Mirror(s) && fd in s.interest
    ensures !Legal(s, [DisableAll(fd)] + [Enable(fd, WRITE)] + [DisableAll(fd), Remove(fd)])
  {
    var closed, write := Next(s, DisableAll(fd)), Enable(fd, WRITE);
    MirrorStep(s, DisableAll(fd));
    RunPush(closed, [], write);
    assert [] + [write] == [write];
    DestroyIffUnregistered(s, fd, [write]);
    MirrorStep(closed, write);
    assert Out in WRITE && Out in Next(closed, write).channels[fd].events;
  }

  // The callbacks of one event

  datatype Callback = CloseCallback | ErrorCallback | ReadCallback | WriteCallback

  predicate Fires(c: Callback, revents: Mask) {
    match c
    case CloseCallback => Hup in revents && In !in revents
    case ErrorCallback => Err in revents || Nval in revents
    case ReadCallback => In in revents || Pri in revents || RdHup in revents
    case WriteCallback => Out in revents
  }

  /** Which bits of an event ask for which callback. */
  lemma FiresExactly(revents: Mask)
    ensures Fires(CloseCallback, revents) <==> Hup in revents && EventBit.In !in revents
    ensures Fires(ErrorCallback, revents) <==> revents * {Err, Nval} != {}
    ensures Fires(ReadCallback, revents) <==> revents * {EventBit.In, Pri, RdHup} != {}
    ensures Fires(WriteCallback, revents) <==> Out in revents
  {
    assert forall b :: b in revents && b in {Err, Nval} ==> b in revents * {Err, Nval};
    assert forall b :: b in revents && b in {EventBit.In, Pri, RdHup} ==> b in revents * {EventBit.In, Pri, RdHup};
  }

  /** The callbacks that are set and asked for, in the fixed order close, error, read, write. */
  function Dispatch(revents: Mask, set_: set<Callback>): (calls: seq<Callback>)
    ensures forall c :: c in calls <==> c in set_ && Fires(c, revents)
    ensures forall i, j :: 0 <= i < j < |calls| ==> Rank(calls[i]) < Rank(calls[j])
  {
    Call(CloseCallback, revents, set_) + Call(ErrorCallback, revents, set_)
      + Call(ReadCallback, revents, set_) + Call(WriteCallback, revents, set_)
  }

  function Call(c: Callback, revents: Mask, set_: set<Callback>): seq<Callback> {
    if c in set_ && Fires(c, revents) then [c] else []
  }

  function Rank(c: Callback): nat {
    match c
    case CloseCallback => 0
    case ErrorCallback => 1
    case ReadCallback => 2
    case WriteCallback => 3
  }

  // The objects

  class Channel {
    const fd: int
    var events: Mask
    var revents: Mask
    var index: int
    var callbacks: set<Callback>
    var eventHandling: bool

    constructor (fd: int)
      ensures this.fd == fd && events == {} && index == NEW && callbacks == {} && !eventHandling
    {
      this.fd, events, revents, index, callbacks, eventHandling := fd, {}, {}, NEW, {}, false;
    }

    predicate IsNoneEvent()
      reads this
    {
      events == {}
    }

    predicate IsWriting()
      reads this
    {
      events * WRITE != {}
    }

    ghost predicate ListedIn(poller: EPoller)
      reads poller, poller.Objects()
    {
      poller.Valid() && fd in poller.channels && poller.channels[fd] == this
    }

    method EnableReading(poller: EPoller)
      requires ListedIn(poller)
      modifies poller`interest, this
      ensures ListedIn(poller) && poller.channels == old(poller.channels)
      ensures poller.View() == Next(old(poller.View()), Enable(fd, READ))
      ensures events == old(events) + READ && index == IndexAfter(old(index), events)
    {
      ghost var before := poller.View();
      assert forall f :: f in poller.channels && f != fd ==> poller.channels[f] != this;
      events := events + READ;
      assert poller.View().channels == before.channels[fd := Registered(events, index)];
      poller.UpdateChannel(this, before, Enable(fd, READ));
    }

    method EnableWriting(poller: EPoller)
      requires ListedIn(poller)
      modifies poller`interest, this
      ensures ListedIn(poller) && poller.channels == old(poller.channels)
      ensures poller.View() == Next(old(poller.View()), Enable(fd, WRITE))
      ensures events == old(events) + WRITE && index == IndexAfter(old(index), events)
    {
      ghost var before := poller.View();
      assert forall f :: f in poller.channels && f != fd ==> poller.channels[f] != this;
      events := events + WRITE;
      assert poller.View().channels == before.channels[fd := Registered(events, index)];
      poller.UpdateChannel(this, before, Enable(fd, WRITE));
    }

    method DisableWriting(poller: EPoller)
      requires ListedIn(poller)
      modifies poller`interest, this
      ensures ListedIn(poller) && poller.channels == old(poller.channels)
      ensures poller.View() == Next(old(poller.View()), Disable(fd, WRITE))
      ensures events == old(events) - WRITE && index == IndexAfter(old(index), events)
    {
      ghost var before := poller.View();
      assert forall f :: f in poller.channels && f != fd ==> poller.channels[f] != this;
      events := events - WRITE;
      assert poller.View().channels == before.channels[fd := Registered(events, index)];
      poller.UpdateChannel(this, before, Disable(fd, WRITE));
    }

    method DisableAllEvents(poller: EPoller)
      requires ListedIn(poller)
      modifies poller`interest, this
      ensures ListedIn(poller) && poller.channels == old(poller.channels)
      ensures poller.View() == Next(old(poller.View()), DisableAll(fd))
      ensures events == {} && index == IndexAfter(old(index), events)
    {
      ghost var before := poller.View();
      assert forall f :: f in poller.channels && f != fd ==> poller.channels[f] != this;
      events := {};
      assert poller.View().channels == before.channels[fd := Registered(events, index)];
      poller.UpdateChannel(this, before, DisableAll(fd));
    }

    /** Runs the callbacks of the event mask the poller stored; the result lists the calls made. */
    method HandleEvent() returns (calls: seq<Callback>)
      modifies this`eventHandling
      ensures !eventHandling && calls == Dispatch(revents, callbacks)
      ensures CloseCallback in calls <==> CloseCallback in callbacks && Hup in revents && EventBit.In !in revents
      ensures ErrorCallback in calls <==> ErrorCallback in callbacks && (Err in revents || Nval in revents)
      ensures ReadCallback in calls <==>
              ReadCallback in callbacks && (EventBit.In in revents || Pri in revents || RdHup in revents)
      ensures WriteCallback in calls <==> WriteCallback in callbacks && Out in revents
    {
      hide Dispatch;
      FiresExactly(revents);
      calls := RunCallbacks();
    }

    method RunCallbacks() returns (calls: seq<Callback>)
      modifies this`eventHandling
      ensures !eventHandling && calls == Dispatch(revents, callbacks)
    {
      eventHandling := true;
      var close, error, read, write := [], [], [], [];
      if Hup in revents && EventBit.In !in revents {
        close := Invoke(CloseCallback);
      }
      calls := close;
      if Err in revents || Nval in revents {
        error := Invoke(ErrorCallback);
      }
      calls := calls + error;
      if EventBit.In in revents || Pri in revents || RdHup in revents {
        read := Invoke(ReadCallback);
      }
      calls := calls + read;
      if Out in revents {
        write := Invoke(WriteCallback);
      }
      calls := calls + write;
      eventHandling := false;
    }

    /** Calls a callback if it is set. */
    method Invoke(c: Callback) returns (calls: seq<Callback>)
      ensures calls == if c in callbacks then [c] else []
    {
      calls := if c in callbacks then [c] else [];
    }
  }

  class EPoller {
    /** The interest list, which the kernel keeps. */
    var interest: map<int, Mask>
    /** The channels that exist in this loop, by descriptor. */
    ghost var channels: map<int, Channel>

    ghost function Objects(): set<Channel>
      reads this
    {
      set fd | fd in channels :: channels[fd]
    }

    ghost function View(): Registry
      reads this, Objects()
    {
      Registry(map fd | fd in channels :: Registered(channels[fd].events, channels[fd].index), interest)
    }

    ghost predicate Keyed()
      reads this
    {
      forall fd :: fd in channels ==> channels[fd].fd == fd
    }

    ghost predicate Valid()
      reads this, Objects()
    {
      Keyed() && Mirror(View())
    }

    constructor ()
      ensures Valid() && View() == EMPTY
    {
      interest, channels := map[], map[];
    }

    method NewChannel(fd: int) returns (c: Channel)
      requires Valid() && fd !in channels
      modifies this
      ensures Valid() && fresh(c) && c.fd == fd && channels == old(channels)[fd := c]
      ensures View() == Next(old(View()), Open(fd))
      ensures c.events == {} && c.callbacks == {}
    {
      ghost var before := View();
      c := new Channel(fd);
      channels := channels[fd := c];
      assert View().channels == Next(before, Open(fd)).channels;
      MirrorStep(before, Open(fd));
    }

    /**
     * Registers, changes or unregisters a channel whose mask `op` has just changed; `before` was the state before
     * that.
     */
    method UpdateChannel(channel: Channel, ghost before: Registry, ghost op: Op)
      requires Keyed() && channel.fd in channels && channels[channel.fd] == channel
      requires Mirror(before) && (op.Enable? || op.Disable? || op.DisableAll?) && op.fd == channel.fd
      requires channel.fd in before.channels
      requires channel.events == EventsAfter(before.channels[channel.fd].events, op)
      requires View() == before.(channels := before.channels[channel.fd := Registered(channel.events, channel.index)])
      requires channel.index == before.channels[channel.fd].index
      modifies this`interest, channel`index
      ensures Valid() && View() == Next(before, op) && channel.index == IndexAfter(old(channel.index), channel.events)
    {
      assert forall f :: f in channels && f != channel.fd ==> channels[f] != channel;
      MirrorStep(before, op);
      assert if channel.index == NEW then channel.fd !in interest else channel.index == ADDED && channel.fd in interest;
      hide Mirror, Control;
      RequestUpdate(channel);
      assert View().channels == before.channels[channel.fd := Registered(channel.events, channel.index)];
    }

    /** One request, and the index that goes with it; which request it is follows from the index and the mask. */
    method RequestUpdate(channel: Channel)
      requires if channel.index == NEW then channel.fd !in interest
               else channel.index == ADDED && channel.fd in interest
      modifies this`interest, channel`index
      ensures var action := UpdateAction(old(channel.index), channel.events);
              && Some(interest) == Control(old(interest), action, channel.fd, channel.events)
              && channel.index == IndexAfter(old(channel.index), channel.events)
    {
      if channel.index == NEW {
        channel.index := ADDED;
        Update(Add, channel);
      } else {
        assert channel.index == ADDED;
        if channel.IsNoneEvent() {
          Update(Delete, channel);
          channel.index := NEW;
        } else {
          Update(Modify, channel);
        }
      }
    }

    /** An unregistered channel makes no further calls; its descriptor is free for another channel. */
    ghost method ForgetChannel(channel: Channel)
      requires channel.ListedIn(this) && channel.index == NEW
      modifies this`channels
      ensures Valid() && channels == old(channels) - {channel.fd}
      ensures View() == Next(old(View()), Forget(channel.fd))
    {
      ghost var before := View();
      MirrorStep(before, Forget(channel.fd));
      channels := channels - {channel.fd};
      assert View().channels == before.channels - {channel.fd};
    }

    /** Unregisters a channel for good; the preconditions are the asserts of the source. */
    method RemoveChannel(channel: Channel)
      requires Valid() && channel.fd in channels && channels[channel.fd] == channel
      requires channel.IsNoneEvent() && channel.index == ADDED
      modifies this`interest, channel`index
      ensures Valid() && View() == Next(old(View()), Remove(channel.fd)) && channel.index == NEW
    {
      ghost var before := View();
      assert forall f :: f in channels && f != channel.fd ==> channels[f] != channel;
      MirrorStep(before, Remove(channel.fd));
      assert channel.fd in interest;
      hide Mirror;
      Update(Delete, channel);
      channel.index := NEW;
      assert View().channels == Next(before, Remove(channel.fd)).channels;
    }

    /** The request to the kernel; that it is never refused is a precondition, which every caller here meets. */
    method Update(action: Action, channel: Channel)
      requires Control(interest, action, channel.fd, channel.events).Some?
      modifies this`interest
      ensures Some(interest) == Control(old(interest), action, channel.fd, channel.events)
    {
      match action
      case Add => interest := interest[channel.fd := channel.events];
      case Modify => interest := interest[channel.fd := channel.events];
      case Delete => interest := interest - {channel.fd};
    }
  }
}
