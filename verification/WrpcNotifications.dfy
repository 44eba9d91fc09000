/** What every run of the driver keeps about notifications and those who wait
    for them. */
module WrpcNotifications {
  import opened Common
  import opened WrpcTypes
  import opened WrpcDriver

  function Frames(handed: seq<Handed>): (frames: seq<Frame>)
    ensures |frames| == |handed| && forall i :: 0 <= i < |handed| ==> frames[i] == handed[i].frame
  {
    seq(|handed|, i requires 0 <= i < |handed| => handed[i].frame)
  }

  function Served(handed: seq<Handed>): (waiters: seq<WaiterId>)
    ensures |waiters| == |handed| && forall i :: 0 <= i < |handed| ==> waiters[i] == handed[i].waiter
  {
    seq(|handed|, i requires 0 <= i < |handed| => handed[i].waiter)
  }

  function Told(failed: seq<(WaiterId, NetworkError)>): (waiters: seq<WaiterId>)
    ensures |waiters| == |failed| && forall i :: 0 <= i < |failed| ==> waiters[i] == failed[i].0
  {
    seq(|failed|, i requires 0 <= i < |failed| => failed[i].0)
  }

  lemma HandedAppend(handed: seq<Handed>, h: Handed)
    ensures Frames(handed + [h]) == Frames(handed) + [h.frame]
    ensures Served(handed + [h]) == Served(handed) + [h.waiter]
  {
  }

  lemma ToldAppend(failed: seq<(WaiterId, NetworkError)>, waiter: WaiterId, error: NetworkError)
    ensures Told(failed + [(waiter, error)]) == Told(failed) + [waiter]
  {
  }

  // ----- The invariant -----

  /** A waiter is still waiting, was handed a frame, was told of an error, or
      stopped listening; never two of these. */
  ghost predicate WaitersKept(d: Driver) {
    multiset(d.waitersAccepted)
      == multiset(d.waiters) + multiset(Served(d.handed)) + multiset(Told(d.waitersFailed)) + multiset(d.waitersGone)
  }

  /** As long as none failed or left, waiters are served first come first served. */
  ghost predicate FirstComeFirstServed(d: Driver) {
    d.waitersFailed == [] && d.waitersGone == [] ==> d.waitersAccepted == Served(d.handed) + d.waiters
  }

  ghost predicate NotesKept(d: Driver) {
    && (d.notifications == [] || d.waiters == [])
    && |d.notifications| <= MAX_QUEUED_NOTIFICATIONS
    && WaitersKept(d) && FirstComeFirstServed(d)
  }

  predicate Among(waiter: WaiterId, live: Option<set<WaiterId>>) {
    live.Some? ==> waiter in live.value
  }

  predicate Listen(live: Option<set<WaiterId>>, listening: set<WaiterId>) {
    live.Some? ==> live.value <= listening
  }

  /** There are waiters that always listen, everyone who asks is among them,
      and so far nobody left. */
  ghost predicate AllHeard(d: Driver, live: Option<set<WaiterId>>) {
    && live.Some? && (forall i :: 0 <= i < |d.waiters| ==> d.waiters[i] in live.value)
    && (forall i :: 0 <= i < |d.handed| ==> d.handed[i].heard)
    && d.waitersGone == []
  }

  predicate SameNotes(d: Driver, e: Driver) {
    && d.notifications == e.notifications && d.waiters == e.waiters && d.handed == e.handed
    && d.waitersAccepted == e.waitersAccepted && d.waitersFailed == e.waitersFailed && d.waitersGone == e.waitersGone
  }

  /** What one step keeps: the invariant, and, for waiters that all listen,
      that they are all heard. */
  ghost predicate Keeps(d: Driver, e: Driver, live: Option<set<WaiterId>>) {
    NotesKept(d) ==> NotesKept(e) && (AllHeard(d, live) ==> AllHeard(e, live))
  }

  lemma SameKeeps(d: Driver, e: Driver, live: Option<set<WaiterId>>)
    requires SameNotes(d, e)
    ensures Keeps(d, e, live)
  {
  }

  lemma KeepsOn(d: Driver, e: Driver, f: Driver, live: Option<set<WaiterId>>)
    requires Keeps(d, e, live) && Keeps(e, f, live)
    ensures Keeps(d, f, live)
  {
  }

  // ----- Steps on waiters -----

  /** Moves on the first waiter, keeping the partition. */
  lemma FirstServed(d: Driver, frame: Frame, heard: bool)
    requires NotesKept(d) && d.waiters != []
    ensures NotesKept(d.(waiters := d.waiters[1..], handed := d.handed + [Handed(frame, d.waiters[0], heard)]))
  {
    hide Frames, Served, Told;
    HandedAppend(d.handed, Handed(frame, d.waiters[0], heard));
    assert d.waiters == [d.waiters[0]] + d.waiters[1..];
  }

  lemma FirstGone(d: Driver)
    requires NotesKept(d) && d.waiters != []
    ensures NotesKept(d.(waiters := d.waiters[1..], waitersGone := d.waitersGone + [d.waiters[0]]))
  {
    hide Frames, Served, Told;
    assert d.waiters == [d.waiters[0]] + d.waiters[1..];
  }

  lemma FirstTold(d: Driver, error: NetworkError)
    requires NotesKept(d) && d.waiters != []
    ensures NotesKept(d.(waiters := d.waiters[1..], waitersFailed := d.waitersFailed + [(d.waiters[0], error)]))
  {
    hide Frames, Served, Told;
    ToldAppend(d.waitersFailed, d.waiters[0], error);
    assert d.waiters == [d.waiters[0]] + d.waiters[1..];
  }

  lemma {:induction false} WaitersToldKeeps(d: Driver, error: NetworkError, live: Option<set<WaiterId>>)
    ensures Keeps(d, FailAllNotificationWaiters(d, error), live)
    decreases |d.waiters|
  {
    if d.waiters != [] {
      var next := d.(waiters := d.waiters[1..], waitersFailed := d.waitersFailed + [(d.waiters[0], error)]);
      if NotesKept(d) {
        FirstTold(d, error);
        assert AllHeard(d, live) ==> AllHeard(next, live);
      }
      hide NotesKept, AllHeard;
      WaitersToldKeeps(next, error, live);
      KeepsOn(d, next, FailAllNotificationWaiters(d, error), live);
    }
  }

  lemma {:induction false} OfferLeaves(d: Driver, frame: Frame, listening: set<WaiterId>)
    ensures var (e, taken) := Offer(d, frame, listening);
            e.notifications == d.notifications && (!taken ==> e.waiters == [] && e.handed == d.handed)
    decreases |d.waiters|
  {
    if d.waiters != [] && d.waiters[0] !in listening {
      OfferLeaves(d.(waiters := d.waiters[1..], waitersGone := d.waitersGone + [d.waiters[0]]), frame, listening);
    }
  }

  lemma {:induction false} OfferKeeps(d: Driver, frame: Frame, listening: set<WaiterId>, live: Option<set<WaiterId>>)
    requires Listen(live, listening)
    ensures Keeps(d, Offer(d, frame, listening).0, live)
    decreases |d.waiters|
  {
    if d.waiters == [] || !NotesKept(d) {
    } else if d.waiters[0] in listening {
      FirstServed(d, frame, true);
      var e := Offer(d, frame, listening).0;
      assert AllHeard(d, live) ==> AllHeard(e, live);
    } else {
      var next := d.(waiters := d.waiters[1..], waitersGone := d.waitersGone + [d.waiters[0]]);
      FirstGone(d);
      assert !AllHeard(d, live);
      OfferKeeps(next, frame, listening, live);
    }
  }

  /** Under the invariant there is never anything to dispatch. */
  lemma DispatchIsIdle(d: Driver, listening: set<WaiterId>)
    requires NotesKept(d)
    ensures DispatchQueuedNotifications(d, listening) == d
  {
  }

  lemma QueueOrDeliverKeeps(d: Driver, frame: Frame, listening: set<WaiterId>, live: Option<set<WaiterId>>)
    requires Listen(live, listening)
    ensures Keeps(d, QueueOrDeliver(d, frame, listening).0, live)
  {
    hide Offer, Served, Told;
    OfferKeeps(d, frame, listening, live);
    OfferLeaves(d, frame, listening);
  }

  lemma AskKept(d: Driver, waiter: WaiterId, heard: bool)
    requires NotesKept(d) && d.notifications != []
    ensures NotesKept(d.(waitersAccepted := d.waitersAccepted + [waiter], notifications := d.notifications[1..],
                         handed := d.handed + [Handed(d.notifications[0], waiter, heard)]))
  {
    hide Frames, Served, Told;
    HandedAppend(d.handed, Handed(d.notifications[0], waiter, heard));
    assert d.notifications == [d.notifications[0]] + d.notifications[1..];
    assert Served(d.handed) + [waiter] + [] == Served(d.handed) + [] + [waiter];
  }

  lemma WaitKept(d: Driver, waiter: WaiterId)
    requires NotesKept(d) && d.notifications == []
    ensures NotesKept(d.(waitersAccepted := d.waitersAccepted + [waiter], waiters := d.waiters + [waiter]))
  {
    hide Frames, Served, Told;
    assert Served(d.handed) + d.waiters + [waiter] == Served(d.handed) + (d.waiters + [waiter]);
  }

  lemma CommandKeeps(d: Driver, command: Command, listening: set<WaiterId>, live: Option<set<WaiterId>>)
    requires Listen(live, listening) && (command.NextNotification? ==> Among(command.waiter, live))
    ensures Keeps(d, HandleCommand(d, command, listening), live)
  {
    if command.NextNotification? {
      hide WaitersKept, FirstComeFirstServed;
      if NotesKept(d) {
        if d.notifications != [] {
          AskKept(d, command.waiter, command.waiter in listening);
        } else {
          WaitKept(d, command.waiter);
        }
      }
    } else {
      SameKeeps(d, HandleCommand(d, command, listening), live);
    }
  }

  // ----- Steps on streams and calls -----

  lemma {:induction false} AwaitKeeps(d: Driver, requestId: nat, frames: seq<Frame>, fault: NetworkError, listening: set<WaiterId>, live: Option<set<WaiterId>>)
    requires Listen(live, listening)
    ensures Keeps(d, AwaitReplay(d, requestId, frames, fault, listening).0, live)
    decreases frames
  {
    hide QueueOrDeliver, NotesKept, AllHeard;
    if frames != [] {
      QueueOrDeliverKeeps(d, frames[0], listening, live);
      var queued := QueueOrDeliver(d, frames[0], listening).0;
      AwaitKeeps(queued, requestId, frames[1..], fault, listening, live);
      KeepsOn(d, queued, AwaitReplay(queued, requestId, frames[1..], fault, listening).0, live);
    }
  }

  lemma ReplayOneKeeps(d: Driver, stream: Stream, payload: seq<byte>, replay: Replay, listening: set<WaiterId>, live: Option<set<WaiterId>>)
    requires Listen(live, listening)
    ensures Keeps(d, ReplayOne(d, stream, payload, replay, listening).0, live)
  {
    hide AwaitReplay, NotesKept, AllHeard;
    var numbered := d.(nextRequest := d.nextRequest + 1);
    SameKeeps(d, numbered, live);
    var (put, _) := Put(numbered, stream, Sent(d.nextRequest, Subscribe, payload, None));
    SameKeeps(d, put, live);
    AwaitKeeps(put, d.nextRequest, replay.frames, replay.fault, listening, live);
    KeepsOn(d, put, AwaitReplay(put, d.nextRequest, replay.frames, replay.fault, listening).0, live);
  }

  lemma {:induction false} ReplayKeeps(d: Driver, stream: Stream, payloads: seq<seq<byte>>, replays: seq<Replay>, listening: set<WaiterId>, live: Option<set<WaiterId>>)
    requires Listen(live, listening)
    ensures Keeps(d, ReplaySubscriptions(d, stream, payloads, replays, listening).0, live)
    decreases payloads
  {
    hide ReplayOne, NotesKept, AllHeard;
    if payloads != [] {
      var replay := if replays == [] then NO_REPLAY else replays[0];
      ReplayOneKeeps(d, stream, payloads[0], replay, listening, live);
      var (next, made) := ReplayOne(d, stream, payloads[0], replay, listening);
      if made.Ok? {
        var later := if replays == [] then [] else replays[1..];
        ReplayKeeps(next, made.value, payloads[1..], later, listening, live);
        KeepsOn(d, next, ReplaySubscriptions(next, made.value, payloads[1..], later, listening).0, live);
      }
    }
  }

  lemma EstablishKeeps(d: Driver, t: Turn, live: Option<set<WaiterId>>)
    requires Listen(live, t.listening)
    ensures Keeps(d, EstablishStream(d, t).0, live)
  {
    if t.connected.Ok? {
      ReplayKeeps(d, Stream([], 0), d.subscriptions, t.replays, t.listening, live);
    } else {
      SameKeeps(d, d, live);
    }
  }

  lemma {:induction false} FailQueuedSame(d: Driver, error: NetworkError)
    ensures SameNotes(d, FailAllQueuedCalls(d, error))
    decreases |d.queued|
  {
    if d.queued != [] {
      FailQueuedSame(Resolve(d.(queued := d.queued[1..]), d.queued[0].call, Failed(error)), error);
    }
  }

  lemma StartSame(d: Driver, t: Turn)
    ensures SameNotes(d, StartNextQueuedCall(d, t).0)
  {
  }

  lemma ResponseSame(d: Driver, frame: Frame, id: nat)
    ensures SameNotes(d, HandleResponse(d, frame, id).0)
  {
  }

  lemma LoseKeeps(d: Driver, error: NetworkError, live: Option<set<WaiterId>>)
    ensures Keeps(d, LoseStream(d, error), live)
  {
    hide NotesKept, AllHeard, FailAllNotificationWaiters;
    var failed := FailActiveCall(d, error);
    var told := FailAllNotificationWaiters(failed, error);
    SameKeeps(d, failed, live);
    WaitersToldKeeps(failed, error, live);
    KeepsOn(d, failed, told, live);
    SameKeeps(told, LoseStream(d, error), live);
    KeepsOn(d, told, LoseStream(d, error), live);
  }

  lemma FinishKeeps(d: Driver, live: Option<set<WaiterId>>)
    ensures Keeps(d, Finish(d), live)
  {
    hide NotesKept, AllHeard, FailAllNotificationWaiters, FailAllQueuedCalls;
    var failed := FailActiveCall(d, ConnectionFailed);
    FailQueuedSame(failed, ConnectionFailed);
    var empty := FailAllQueuedCalls(failed, ConnectionFailed);
    SameKeeps(d, empty, live);
    WaitersToldKeeps(empty, ConnectionFailed, live);
    KeepsOn(d, empty, Finish(d), live);
  }

  lemma FrameKeeps(d: Driver, frame: Frame, listening: set<WaiterId>, live: Option<set<WaiterId>>)
    requires Listen(live, listening)
    ensures Keeps(d, HandleReceivedFrame(d, frame, listening).0, live)
  {
    hide NotesKept, AllHeard, HandleResponse, QueueOrDeliver;
    SameKeeps(d, d, live);
    if frame.decoded.Ok? {
      if frame.decoded.value.id.Some? {
        ResponseSame(d, frame, frame.decoded.value.id.value);
        SameKeeps(d, HandleResponse(d, frame, frame.decoded.value.id.value).0, live);
      } else {
        QueueOrDeliverKeeps(d, frame, listening, live);
      }
    }
  }

  /** Whoever asks in this turn is live, and the live listen. */
  predicate AllListen(t: Turn, live: Option<set<WaiterId>>) {
    && Listen(live, t.listening)
    && (t.event.Commanded? && t.event.command.NextNotification? ==> Among(t.event.command.waiter, live))
  }

  lemma SelectKeeps(d: Driver, t: Turn, live: Option<set<WaiterId>>)
    requires AllListen(t, live)
    ensures Keeps(d, Select(d, t).0, live)
  {
    hide NotesKept, AllHeard, HandleReceivedFrame, LoseStream, Finish, HandleCommand;
    SameKeeps(d, d, live);
    match t.event
    case Shutdown => FinishKeeps(d, live);
    case CommandsClosed => FinishKeeps(d, live);
    case Commanded(command) => CommandKeeps(d, command, t.listening, live);
    case Arrived(frame) =>
      FrameKeeps(d, frame, t.listening, live);
      var (handled, done) := HandleReceivedFrame(d, frame, t.listening);
      if done.Err? {
        LoseKeeps(handled, done.error, live);
        KeepsOn(d, handled, LoseStream(handled, done.error), live);
      }
    case Fault(error) => LoseKeeps(d, error, live);
    case Deadline => LoseKeeps(d, ResponseTimeout, live);
  }

  lemma RestKeeps(d: Driver, t: Turn, live: Option<set<WaiterId>>)
    requires AllListen(t, live)
    ensures Keeps(d, Rest(d, t).0, live)
  {
    hide NotesKept, AllHeard, Select, StartNextQueuedCall, FailAllNotificationWaiters;
    var (started, done) := StartNextQueuedCall(d, t);
    StartSame(d, t);
    SameKeeps(d, started, live);
    if done.Err? {
      WaitersToldKeeps(started, done.error, live);
      var told := FailAllNotificationWaiters(started, done.error);
      SameKeeps(told, Rest(d, t).0, live);
      KeepsOn(d, started, told, live);
      KeepsOn(d, told, Rest(d, t).0, live);
    } else {
      SelectKeeps(started, t, live);
      KeepsOn(d, started, Rest(d, t).0, live);
    }
  }

  lemma ConnectKeeps(d: Driver, t: Turn, live: Option<set<WaiterId>>)
    requires AllListen(t, live)
    ensures Keeps(d, Connect(d, t).0, live)
  {
    hide NotesKept, AllHeard, EstablishStream, FailAllQueuedCalls, FailAllNotificationWaiters;
    SameKeeps(d, d, live);
    if ShouldEstablish(d) {
      EstablishKeeps(d, t, live);
      var (e, made) := EstablishStream(d, t);
      if made.Err? {
        FailQueuedSame(e, made.error);
        var empty := FailAllQueuedCalls(e, made.error);
        SameKeeps(e, empty, live);
        WaitersToldKeeps(empty, made.error, live);
        KeepsOn(d, e, empty, live);
        KeepsOn(d, empty, Connect(d, t).0, live);
      } else {
        SameKeeps(e, Connect(d, t).0, live);
        KeepsOn(d, e, Connect(d, t).0, live);
      }
    }
  }

  lemma NumberedKeeps(d: Driver, t: Turn, live: Option<set<WaiterId>>)
    requires NotesKept(d)
    ensures Keeps(d, DispatchQueuedNotifications(d.(nextRequest := d.nextRequest + t.idsUsedElsewhere), t.listening), live)
  {
    var numbered := d.(nextRequest := d.nextRequest + t.idsUsedElsewhere);
    SameKeeps(d, numbered, live);
    DispatchIsIdle(numbered, t.listening);
  }

  lemma TurnKeeps(d: Driver, t: Turn, live: Option<set<WaiterId>>)
    requires NotesKept(d) && AllListen(t, live)
    ensures Keeps(d, TurnOnce(d, t).0, live)
  {
    hide NotesKept, AllHeard, AllListen, Keeps, Connect, Rest, Finish, DispatchQueuedNotifications;
    if t.stop {
      FinishKeeps(d, live);
    } else {
      NumberedKeeps(d, t, live);
      var dispatched := DispatchQueuedNotifications(d.(nextRequest := d.nextRequest + t.idsUsedElsewhere), t.listening);
      ConnectKeeps(dispatched, t, live);
      var ready := Connect(dispatched, t).0;
      KeepsOn(d, dispatched, ready, live);
      RestKeeps(ready, t, live);
      KeepsOn(d, ready, Rest(ready, t).0, live);
    }
  }

  lemma {:induction false} RunKeeps(d: Driver, turns: seq<Turn>, live: Option<set<WaiterId>>)
    requires NotesKept(d) && (forall i :: 0 <= i < |turns| ==> AllListen(turns[i], live))
    ensures Keeps(d, Run(d, turns), live)
    decreases turns
  {
    hide TurnOnce, NotesKept, AllHeard;
    SameKeeps(d, d, live);
    if turns != [] {
      TurnKeeps(d, turns[0], live);
      var (next, goesOn) := TurnOnce(d, turns[0]);
      if goesOn {
        RunKeeps(next, turns[1..], live);
        KeepsOn(d, next, Run(next, turns[1..]), live);
      }
    }
  }

  lemma IdleKept()
    ensures NotesKept(IDLE)
  {
  }
}
