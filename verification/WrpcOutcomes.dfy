/** What becomes of calls and waiters when something fails, event by event, and
    the order in which calls are answered. */
module WrpcOutcomes {
  import opened Common
  import opened WrpcTypes
  import opened WrpcDriver
  import opened WrpcCalls
  import opened WrpcNotifications

  function IdsOf(queued: seq<QueuedCall>): (ids: seq<CallId>)
    ensures |ids| == |queued|
  {
    seq(|queued|, i requires 0 <= i < |queued| => queued[i].call)
  }

  function ActiveId(d: Driver): seq<CallId> {
    if d.active.Some? then [d.active.value.call] else []
  }

  /** The calls, each ended by the same error. */
  function Failures(calls: seq<CallId>, error: NetworkError): (r: seq<Resolution>)
    ensures |r| == |calls|
  {
    seq(|calls|, i requires 0 <= i < |calls| => Resolution(calls[i], Failed(error)))
  }

  /** The waiters, each told the same error. */
  function Informed(waiters: seq<WaiterId>, error: NetworkError): seq<(WaiterId, NetworkError)> {
    seq(|waiters|, i requires 0 <= i < |waiters| => (waiters[i], error))
  }

  /** All who wait for a notification have been told the error. */
  function WaitersTold(d: Driver, error: NetworkError): Driver {
    d.(waiters := [], waitersFailed := d.waitersFailed + Informed(d.waiters, error))
  }

  /** The call on the wire has failed, and no other. */
  function ActiveEnded(d: Driver, error: NetworkError): Driver {
    d.(active := None, resolved := d.resolved + Failures(ActiveId(d), error))
  }

  /** All queued calls have failed, in their order. */
  function QueueEnded(d: Driver, error: NetworkError): Driver {
    d.(queued := [], resolved := d.resolved + Failures(IdsOf(d.queued), error))
  }

  // ----- The loops that tell everyone -----

  lemma {:induction false} WaitersAreTold(d: Driver, error: NetworkError)
    ensures FailAllNotificationWaiters(d, error) == WaitersTold(d, error)
    decreases |d.waiters|
  {
    if d.waiters == [] {
      assert d.waitersFailed + Informed(d.waiters, error) == d.waitersFailed;
    } else {
      WaitersAreTold(d.(waiters := d.waiters[1..], waitersFailed := d.waitersFailed + [(d.waiters[0], error)]), error);
      assert Informed(d.waiters, error) == [(d.waiters[0], error)] + Informed(d.waiters[1..], error);
    }
  }

  lemma {:induction false} QueuedAreEnded(d: Driver, error: NetworkError)
    ensures FailAllQueuedCalls(d, error) == QueueEnded(d, error)
    decreases |d.queued|
  {
    if d.queued == [] {
      assert d.resolved + Failures(IdsOf(d.queued), error) == d.resolved;
    } else {
      QueuedAreEnded(Resolve(d.(queued := d.queued[1..]), d.queued[0].call, Failed(error)), error);
      assert Failures(IdsOf(d.queued), error)
          == [Resolution(d.queued[0].call, Failed(error))] + Failures(IdsOf(d.queued[1..]), error);
    }
  }

  lemma ActiveIsEnded(d: Driver, error: NetworkError)
    ensures FailActiveCall(d, error) == ActiveEnded(d, error)
  {
    if d.active.None? { assert d.resolved + Failures([], error) == d.resolved; }
  }

  // ----- What breaks a stream -----

  /** The frame is a notification that nobody takes and that has no room. */
  predicate HasNoRoom(d: Driver, frame: Frame, listening: set<WaiterId>) {
    && frame.decoded.Ok? && frame.decoded.value.id == None && frame.decoded.value.kind == Notification
    && |d.notifications| >= MAX_QUEUED_NOTIFICATIONS
    && forall i :: 0 <= i < |d.waiters| ==> d.waiters[i] !in listening
  }

  /** What is wrong with a frame that arrives now, if anything is. */
  function FrameFault(d: Driver, frame: Frame, listening: set<WaiterId>): Option<NetworkError> {
    match frame.decoded
    case Err(error) => Some(error)
    case Ok(decoded) =>
      if decoded.id.Some? && d.active.Some? && decoded.id.value == d.active.value.requestId then None
      else if decoded.id.Some? && d.active.Some? then Some(MismatchedRequestId(d.active.value.requestId, decoded.id.value))
      else if decoded.id.Some? || decoded.kind != Notification || HasNoRoom(d, frame, listening) then Some(UnexpectedResponse)
      else None
  }

  /** Why this event costs the live stream, if it does. */
  function BreakOf(d: Driver, t: Turn): Option<NetworkError> {
    match t.event
    case Fault(error) => Some(error)
    case Deadline => if d.active.Some? then Some(ResponseTimeout) else None
    case Arrived(frame) => FrameFault(d, frame, t.listening)
    case _ => None
  }

  /** Without its stream, its active call and its waiters, all of them told why. */
  function Broken(d: Driver, error: NetworkError): Driver {
    WaitersTold(ActiveEnded(d, error), error).(stream := None)
  }

  /** Waiters found gone while a notification looked for one that listens. */
  function WaitersFound(d: Driver, t: Turn): Driver {
    if t.event.Arrived? && HasNoRoom(d, t.event.frame, t.listening)
    then d.(waiters := [], waitersGone := d.waitersGone + d.waiters)
    else d
  }

  lemma LosingIsBreaking(d: Driver, error: NetworkError)
    ensures LoseStream(d, error) == Broken(d, error)
  {
    hide FailAllNotificationWaiters;
    ActiveIsEnded(d, error);
    WaitersAreTold(ActiveEnded(d, error), error);
  }

  lemma {:induction false} NobodyTakes(d: Driver, frame: Frame, listening: set<WaiterId>)
    ensures !Offer(d, frame, listening).1 <==> forall i :: 0 <= i < |d.waiters| ==> d.waiters[i] !in listening
    ensures !Offer(d, frame, listening).1 ==>
              Offer(d, frame, listening).0 == d.(waiters := [], waitersGone := d.waitersGone + d.waiters)
    ensures Offer(d, frame, listening).0.waitersFailed == d.waitersFailed
    ensures SameCalls(d, Offer(d, frame, listening).0)
    decreases |d.waiters|
  {
    if d.waiters == [] {
      assert d.waitersGone + d.waiters == d.waitersGone;
    } else if d.waiters[0] !in listening {
      var rest := d.(waiters := d.waiters[1..], waitersGone := d.waitersGone + [d.waiters[0]]);
      NobodyTakes(rest, frame, listening);
      assert forall i :: 1 <= i < |d.waiters| ==> d.waiters[i] == rest.waiters[i - 1];
      assert rest.waitersGone + rest.waiters == d.waitersGone + d.waiters;
    }
  }

  /** A frame that comes while no call is on the wire, or without an id. */
  lemma UnaskedFrame(d: Driver, frame: Frame, listening: set<WaiterId>)
    requires frame.decoded.Ok? && (frame.decoded.value.id.None? || d.active.None?)
    ensures var (e, done) := HandleReceivedFrame(d, frame, listening);
            match FrameFault(d, frame, listening)
            case Some(error) =>
              done == Err(error)
              && e == if HasNoRoom(d, frame, listening) then d.(waiters := [], waitersGone := d.waitersGone + d.waiters) else d
            case None => done.Ok? && e.stream == d.stream && e.waitersFailed == d.waitersFailed
  {
    hide Offer;
    NobodyTakes(d, frame, listening);
  }

  /** A response to somebody else fails the call; any other is for the call. */
  lemma ResponseBreaks(d: Driver, t: Turn)
    requires t.event.Arrived? && t.event.frame.decoded.Ok? && t.event.frame.decoded.value.id.Some? && d.active.Some?
    ensures var (e, done) := HandleReceivedFrame(d, t.event.frame, t.listening);
            match BreakOf(d, t)
            case Some(error) => done == Err(error) && LoseStream(e, error) == Broken(d, error)
            case None => done.Ok? && e.stream == d.stream && e.waitersFailed == d.waitersFailed
  {
    hide FailAllNotificationWaiters, ValidateResponse;
    var (e, done) := HandleReceivedFrame(d, t.event.frame, t.listening);
    if done.Err? {
      LosingIsBreaking(e, done.error);
      assert e.resolved + Failures([], done.error) == e.resolved;
    }
  }

  lemma SelectBreaks(d: Driver, t: Turn)
    requires d.stream.Some? && !t.event.Shutdown? && !t.event.CommandsClosed?
    ensures match BreakOf(d, t)
            case Some(error) => Select(d, t) == (Broken(WaitersFound(d, t), error), true)
            case None =>
              && Select(d, t).0.stream == d.stream && Select(d, t).0.waitersFailed == d.waitersFailed && Select(d, t).1
              && (t.event.Deadline? ==> Select(d, t).0 == d)
  {
    hide LoseStream, HandleReceivedFrame, Broken, FrameFault;
    match t.event
    case Arrived(frame) =>
      var (e, done) := HandleReceivedFrame(d, frame, t.listening);
      if frame.decoded.Err? {
        UndecodedFrame(d, frame, t.listening);
        LosingIsBreaking(d, frame.decoded.error);
      } else if frame.decoded.value.id.Some? && d.active.Some? {
        ResponseBreaks(d, t);
        NoRoomIsNoAnswer(d, frame, t.listening);
      } else {
        UnaskedFrame(d, frame, t.listening);
        if done.Err? { LosingIsBreaking(e, done.error); }
      }
    case Fault(error) => LosingIsBreaking(d, error);
    case Deadline => LosingIsBreaking(d, ResponseTimeout);
    case Commanded(_) =>
  }

  lemma UndecodedFrame(d: Driver, frame: Frame, listening: set<WaiterId>)
    requires frame.decoded.Err?
    ensures HandleReceivedFrame(d, frame, listening) == (d, Err(frame.decoded.error))
    ensures FrameFault(d, frame, listening) == Some(frame.decoded.error) && !HasNoRoom(d, frame, listening)
  {
  }

  lemma NoRoomIsNoAnswer(d: Driver, frame: Frame, listening: set<WaiterId>)
    requires frame.decoded.Ok? && frame.decoded.value.id.Some?
    ensures !HasNoRoom(d, frame, listening)
  {
  }

  // ----- Main results: one turn -----

  /** An event costs the live stream exactly when `BreakOf` names a reason; then
      the call on the wire and every waiter get that reason, queued calls stay,
      and the driver goes on without a stream. */
  lemma StreamBreaksExactly(d: Driver, t: Turn)
    requires AtEvent(d, t).Some? && AtEvent(d, t).value.stream.Some?
    requires !t.event.Shutdown? && !t.event.CommandsClosed?
    ensures var before := AtEvent(d, t).value;
            match BreakOf(before, t)
            case Some(error) => TurnOnce(d, t) == (Broken(WaitersFound(before, t), error), true)
            case None =>
              TurnOnce(d, t).1 && TurnOnce(d, t).0.stream == before.stream && TurnOnce(d, t).0.waitersFailed == before.waitersFailed
  {
    hide TurnOnce, AtEvent, Select, Broken, BreakOf;
    TurnFromEvent(d, t);
    SelectBreaks(AtEvent(d, t).value, t);
  }

  /** A call whose answer is too late fails with a timeout, and so does everyone
      who waits; its stream is given up, and the calls behind it stay queued. */
  lemma DeadlineFailsTheCall(d: Driver, t: Turn)
    requires AtEvent(d, t).Some? && t.event.Deadline?
    requires AtEvent(d, t).value.stream.Some? && AtEvent(d, t).value.active.Some?
    ensures var before, (e, goesOn) := AtEvent(d, t).value, TurnOnce(d, t);
            && goesOn && e.stream.None? && e.active.None? && e.waiters == [] && e.queued == before.queued
            && e.resolved == before.resolved + [Resolution(before.active.value.call, Failed(ResponseTimeout))]
            && e.waitersFailed == before.waitersFailed + Informed(before.waiters, ResponseTimeout)
  {
    hide TurnOnce, AtEvent;
    StreamBreaksExactly(d, t);
  }

  /** Without a stream, or with no call to time out, such events do nothing. */
  lemma NothingToBreak(d: Driver, t: Turn)
    requires AtEvent(d, t).Some? && (t.event.Arrived? || t.event.Fault? || t.event.Deadline?)
    requires AtEvent(d, t).value.stream.None? || (t.event.Deadline? && AtEvent(d, t).value.active.None?)
    ensures TurnOnce(d, t) == (AtEvent(d, t).value, true)
  {
    hide TurnOnce, AtEvent;
    TurnFromEvent(d, t);
  }

  /** A driver told to stop fails everyone: the call on the wire, then the queued
      ones in their order, and all who wait. */
  function AllEnded(d: Driver): Driver {
    WaitersTold(QueueEnded(ActiveEnded(d, ConnectionFailed), ConnectionFailed), ConnectionFailed)
  }

  lemma FinishingEndsAll(d: Driver)
    ensures Finish(d) == AllEnded(d)
  {
    hide FailAllNotificationWaiters, FailAllQueuedCalls;
    ActiveIsEnded(d, ConnectionFailed);
    QueuedAreEnded(ActiveEnded(d, ConnectionFailed), ConnectionFailed);
    WaitersAreTold(QueueEnded(ActiveEnded(d, ConnectionFailed), ConnectionFailed), ConnectionFailed);
  }

  lemma StoppingFailsEveryone(d: Driver, t: Turn)
    requires t.stop || (AtEvent(d, t).Some? && (t.event.Shutdown? || t.event.CommandsClosed?))
    ensures TurnOnce(d, t) == (AllEnded(if t.stop then d else AtEvent(d, t).value), false)
  {
    TurnFromEvent(d, t);
    FinishingEndsAll(d);
    if !t.stop {
      FinishingEndsAll(AtEvent(d, t).value);
      hide TurnOnce, AtEvent, Finish, AllEnded;
    }
  }

  // ----- Connecting -----

  /** The turn's state with the request ids that others took since. */
  function Numbered(d: Driver, t: Turn): Driver {
    d.(nextRequest := d.nextRequest + t.idsUsedElsewhere)
  }

  /** A needed stream that cannot be made, for want of a connection or because a
      subscription could not be replayed on it: all queued calls fail in their
      order, then all who still wait, and there is no stream. */
  lemma FailedConnectionFailsTheQueue(d: Driver, t: Turn)
    requires CallsAccounted(d) && NotesKept(d)
    requires !t.stop && ShouldEstablish(d) && EstablishStream(Numbered(d, t), t).1.Err?
    ensures var (tried, made) := EstablishStream(Numbered(d, t), t);
            var (e, goesOn) := TurnOnce(d, t);
            && goesOn && e.stream.None? && e.active.None? && e.queued == [] && e.waiters == []
            && e.resolved == d.resolved + Failures(IdsOf(d.queued), made.error)
            && e.waitersFailed == d.waitersFailed + Informed(tried.waiters, made.error)
            && (t.connected.Err? ==> made.error == t.connected.error && tried.waiters == d.waiters)
  {
    hide CallsAccounted, FailAllNotificationWaiters, FailAllQueuedCalls, NotesKept, ReplaySubscriptions;
    var numbered := Numbered(d, t);
    NumberedIsIdle(d, t);
    var (tried, made) := EstablishStream(numbered, t);
    NextIdAccounted(d, t.idsUsedElsewhere);
    EstablishTellsNobody(numbered, t);
    QueuedAreEnded(tried, made.error);
    WaitersAreTold(QueueEnded(tried, made.error), made.error);
    NoActiveWithoutStream(d);
  }

  lemma NoActiveWithoutStream(d: Driver)
    requires CallsAccounted(d) && d.stream.None?
    ensures d.active.None?
  {
  }

  lemma NumberedIsIdle(d: Driver, t: Turn)
    requires NotesKept(d)
    ensures DispatchQueuedNotifications(Numbered(d, t), t.listening) == Numbered(d, t)
  {
  }

  lemma {:induction false} AwaitTellsNobody(d: Driver, requestId: nat, frames: seq<Frame>, fault: NetworkError, listening: set<WaiterId>)
    ensures var e := AwaitReplay(d, requestId, frames, fault, listening).0;
            SameCalls(d, e) && e.waitersFailed == d.waitersFailed
    decreases frames
  {
    hide Offer, ValidateResponse;
    if frames != [] {
      NobodyTakes(d, frames[0], listening);
      AwaitTellsNobody(QueueOrDeliver(d, frames[0], listening).0, requestId, frames[1..], fault, listening);
    }
  }

  /** Replaying answers no call and fails no waiter. */
  lemma {:induction false} ReplayTellsNobody(d: Driver, stream: Stream, payloads: seq<seq<byte>>, replays: seq<Replay>, listening: set<WaiterId>)
    ensures var e := ReplaySubscriptions(d, stream, payloads, replays, listening).0;
            && e.queued == d.queued && e.resolved == d.resolved && e.active == d.active && e.stream == d.stream
            && e.accepted == d.accepted && e.waitersFailed == d.waitersFailed
    decreases payloads
  {
    hide AwaitReplay;
    if payloads != [] {
      var replay := if replays == [] then NO_REPLAY else replays[0];
      var put := Put(d.(nextRequest := d.nextRequest + 1), stream, Sent(d.nextRequest, Subscribe, payloads[0], None)).0;
      AwaitTellsNobody(put, d.nextRequest, replay.frames, replay.fault, listening);
      var (next, made) := ReplayOne(d, stream, payloads[0], replay, listening);
      if made.Ok? {
        ReplayTellsNobody(next, made.value, payloads[1..], if replays == [] then [] else replays[1..], listening);
      }
    }
  }

  lemma EstablishTellsNobody(d: Driver, t: Turn)
    ensures var e := EstablishStream(d, t).0;
            && e.queued == d.queued && e.resolved == d.resolved && e.active == d.active && e.stream == d.stream
            && e.accepted == d.accepted && e.waitersFailed == d.waitersFailed
  {
    hide ReplaySubscriptions;
    if t.connected.Ok? { ReplayTellsNobody(d, Stream([], 0), d.subscriptions, t.replays, t.listening); }
  }

  // ----- The next call -----

  /** The turn's state once its stream is there or not needed. */
  function Connected(d: Driver, t: Turn): Option<Driver> {
    var (ready, connected) := Connect(DispatchQueuedNotifications(Numbered(d, t), t.listening), t);
    if t.stop || connected.Err? then None else Some(ready)
  }

  /** Connecting leaves calls as they are, and a stream for those that are queued. */
  lemma ConnectedKeepsCalls(d: Driver, t: Turn)
    requires Connected(d, t).Some?
    ensures var ready := Connected(d, t).value;
            && ready.queued == d.queued && ready.active == d.active && ready.resolved == d.resolved
            && ready.accepted == d.accepted && ready.waitersFailed == d.waitersFailed
            && (d.stream.Some? ==> ready.stream == d.stream) && (d.queued != [] ==> ready.stream.Some?)
  {
    hide EstablishStream, DispatchQueuedNotifications;
    var numbered := Numbered(d, t);
    DispatchSame(numbered, t.listening);
    DispatchTellsNobody(numbered, t.listening);
    var dispatched := DispatchQueuedNotifications(numbered, t.listening);
    EstablishTellsNobody(dispatched, t);
  }

  /** A turn that can connect has a stream exactly when it had one or somebody
      waits for one, with a call or for a notification. */
  lemma StreamIsMadeWhenNeeded(d: Driver, t: Turn)
    requires NotesKept(d) && Connected(d, t).Some?
    ensures Connected(d, t).value.stream.Some? <==> d.stream.Some? || d.queued != [] || d.waiters != []
  {
    hide EstablishStream, DispatchQueuedNotifications, NotesKept;
    NumberedIsIdle(d, t);
    EstablishTellsNobody(Numbered(d, t), t);
  }

  lemma {:induction false} DispatchTellsNobody(d: Driver, listening: set<WaiterId>)
    ensures DispatchQueuedNotifications(d, listening).waitersFailed == d.waitersFailed
    decreases |d.notifications|
  {
    if d.notifications != [] && d.waiters != [] {
      NobodyTakes(d, d.notifications[0], listening);
      var (offered, taken) := Offer(d, d.notifications[0], listening);
      if taken { DispatchTellsNobody(offered.(notifications := d.notifications[1..]), listening); }
    }
  }

  /** When no call is on the wire, the one that has waited longest goes there; if
      it cannot be encoded it is dropped and if it cannot be sent it fails, and
      either costs the stream and is told to all who wait for a notification. */
  lemma LongestQueuedIsNext(d: Driver, t: Turn)
    requires Connected(d, t).Some? && d.active.None? && d.queued != []
    ensures var ready, first := Connected(d, t).value, d.queued[0];
            var sent := Sent(ready.nextRequest, first.operation, first.payload, Some(first.call));
            var rest := ready.(queued := d.queued[1..], nextRequest := ready.nextRequest + 1);
            if !t.encoded then
              TurnOnce(d, t)
              == (WaitersTold(rest.(stream := None, resolved := d.resolved + [Resolution(first.call, Dropped)]), InvalidLength), true)
            else if !t.sent then
              TurnOnce(d, t)
              == (WaitersTold(rest.(stream := None, wire := ready.wire + [sent],
                                    resolved := d.resolved + [Resolution(first.call, Failed(SendFailed))]), SendFailed), true)
            else
              && AtEvent(d, t).Some? && AtEvent(d, t).value.queued == d.queued[1..]
              && AtEvent(d, t).value.active == Some(ActiveCall(sent.requestId, first.call, first.operation, first.payload))
              && AtEvent(d, t).value.wire == ready.wire + [sent] && AtEvent(d, t).value.stream.Some?
              && AtEvent(d, t).value.stream.value.sent == ready.stream.value.sent + [sent]
              && AtEvent(d, t).value.resolved == d.resolved && AtEvent(d, t).value.waitersFailed == d.waitersFailed
  {
    hide Connect, FailAllNotificationWaiters, DispatchQueuedNotifications, Select;
    ConnectedKeepsCalls(d, t);
    var ready := Connected(d, t).value;
    StartCases(ready, t);
    var (started, done) := StartNextQueuedCall(ready, t);
    if done.Err? { WaitersAreTold(started, done.error); }
  }

  // ----- The order of answers -----

  function EndedIds(resolved: seq<Resolution>): (ids: seq<CallId>)
    ensures |ids| == |resolved|
  {
    seq(|resolved|, k requires 0 <= k < |resolved| => resolved[k].call)
  }

  /** The calls accepted are those answered, then the one on the wire, then those
      queued, in the very order in which they came. */
  predicate InOrder(d: Driver) {
    d.accepted == EndedIds(d.resolved) + ActiveId(d) + IdsOf(d.queued)
  }

  lemma EndedOn(resolved: seq<Resolution>, more: seq<Resolution>)
    ensures EndedIds(resolved + more) == EndedIds(resolved) + EndedIds(more)
  {
  }

  lemma EndedFailures(calls: seq<CallId>, error: NetworkError)
    ensures EndedIds(Failures(calls, error)) == calls
  {
  }

  lemma FirstQueued(queued: seq<QueuedCall>)
    requires queued != []
    ensures IdsOf(queued) == [queued[0].call] + IdsOf(queued[1..])
  {
  }

  /** Ending the active call, whatever the answer. */
  lemma EndingActiveInOrder(d: Driver, outcome: Outcome)
    requires InOrder(d) && d.active.Some?
    ensures InOrder(Resolve(d.(active := None), d.active.value.call, outcome))
  {
    EndedOn(d.resolved, [Resolution(d.active.value.call, outcome)]);
    assert EndedIds([Resolution(d.active.value.call, outcome)]) == ActiveId(d);
  }

  lemma ActiveEndedInOrder(d: Driver, error: NetworkError)
    requires InOrder(d)
    ensures InOrder(ActiveEnded(d, error))
  {
    hide EndedIds, Failures;
    EndedOn(d.resolved, Failures(ActiveId(d), error));
    EndedFailures(ActiveId(d), error);
  }

  lemma QueueEndedInOrder(d: Driver, error: NetworkError)
    requires InOrder(d) && d.active.None?
    ensures InOrder(QueueEnded(d, error))
  {
    hide EndedIds, Failures;
    EndedOn(d.resolved, Failures(IdsOf(d.queued), error));
    EndedFailures(IdsOf(d.queued), error);
  }

  lemma StartedInOrder(d: Driver, t: Turn)
    requires InOrder(d)
    ensures InOrder(StartNextQueuedCall(d, t).0)
    ensures StartNextQueuedCall(d, t).1.Err? ==> StartNextQueuedCall(d, t).0.active.None?
  {
    hide EndedIds, IdsOf;
    if d.active.None? && d.stream.Some? && d.queued != [] {
      var first := d.queued[0];
      FirstQueued(d.queued);
      StartCases(d, t);
      EndedOn(d.resolved, [Resolution(first.call, Dropped)]);
      EndedOn(d.resolved, [Resolution(first.call, Failed(SendFailed))]);
      assert EndedIds([Resolution(first.call, Dropped)]) == [first.call]
          && EndedIds([Resolution(first.call, Failed(SendFailed))]) == [first.call] by { OneEnded(first.call); }
    }
  }

  lemma OneEnded(call: CallId)
    ensures forall outcome :: EndedIds([Resolution(call, outcome)]) == [call]
  {
  }

  lemma FrameInOrder(d: Driver, frame: Frame, listening: set<WaiterId>)
    requires InOrder(d)
    ensures InOrder(HandleReceivedFrame(d, frame, listening).0)
  {
    hide ValidateResponse, QueueOrDeliver, EndedIds, IdsOf;
    if frame.decoded.Ok? {
      if frame.decoded.value.id.None? {
        QueueSame(d, frame, listening);
      } else if d.active.Some? {
        var active := d.active.value;
        EndingActiveInOrder(d, Failed(MismatchedRequestId(active.requestId, frame.decoded.value.id.value)));
        var valid := ValidateResponse(frame, active.requestId, active.operation);
        EndingActiveInOrder(d, if valid.Ok? then Replied(valid.value, frame) else Failed(valid.error));
      }
    }
  }

  lemma AllEndedInOrder(d: Driver)
    requires InOrder(d)
    ensures InOrder(AllEnded(d))
  {
    hide EndedIds, Failures, Informed;
    ActiveEndedInOrder(d, ConnectionFailed);
    QueueEndedInOrder(ActiveEnded(d, ConnectionFailed), ConnectionFailed);
  }

  lemma CommandInOrder(d: Driver, command: Command, listening: set<WaiterId>)
    requires InOrder(d)
    ensures InOrder(HandleCommand(d, command, listening))
  {
    hide EndedIds;
    if command.Call? {
      var call := QueuedCall(command.call, command.operation, command.payload);
      assert IdsOf(d.queued + [call]) == IdsOf(d.queued) + [command.call];
    }
  }

  lemma SelectInOrder(d: Driver, t: Turn)
    requires InOrder(d)
    ensures InOrder(Select(d, t).0)
  {
    hide HandleReceivedFrame, HandleCommand, LoseStream, Finish, InOrder, AllEnded;
    AllEndedInOrder(d);
    FinishingEndsAll(d);
    match t.event
    case Commanded(command) => CommandInOrder(d, command, t.listening);
    case Arrived(frame) =>
      FrameInOrder(d, frame, t.listening);
      var (e, done) := HandleReceivedFrame(d, frame, t.listening);
      if done.Err? { LosingInOrder(e, done.error); }
    case Fault(error) => LosingInOrder(d, error);
    case Deadline => LosingInOrder(d, ResponseTimeout);
    case _ =>
  }

  lemma LosingInOrder(d: Driver, error: NetworkError)
    requires InOrder(d)
    ensures InOrder(LoseStream(d, error))
  {
    hide LoseStream, Failures, EndedIds, Informed, IdsOf;
    LosingIsBreaking(d, error);
    ActiveEndedInOrder(d, error);
  }

  lemma ConnectInOrder(d: Driver, t: Turn)
    requires InOrder(d) && (d.active.Some? ==> d.stream.Some?)
    ensures InOrder(Connect(d, t).0)
  {
    hide EstablishStream, FailAllQueuedCalls, FailAllNotificationWaiters, Failures, EndedIds, Informed, IdsOf;
    if ShouldEstablish(d) {
      EstablishTellsNobody(d, t);
      var (e, made) := EstablishStream(d, t);
      if made.Err? {
        QueuedAreEnded(e, made.error);
        QueueEndedInOrder(e, made.error);
        WaitersAreTold(QueueEnded(e, made.error), made.error);
      }
    }
  }

  lemma TurnInOrder(d: Driver, t: Turn)
    requires CallsAccounted(d) && InOrder(d)
    ensures InOrder(TurnOnce(d, t).0)
  {
    hide CallsAccounted, Connect, StartNextQueuedCall, Select, Finish, AllEnded, FailAllNotificationWaiters, EndedIds, IdsOf,
      DispatchQueuedNotifications;
    if t.stop {
      FinishingEndsAll(d);
      AllEndedInOrder(d);
    } else {
      var numbered := Numbered(d, t);
      DispatchSame(numbered, t.listening);
      var dispatched := DispatchQueuedNotifications(numbered, t.listening);
      ActiveHasStream(d);
      ConnectInOrder(dispatched, t);
      var (ready, connected) := Connect(dispatched, t);
      if connected.Ok? {
        StartedInOrder(ready, t);
        var (started, done) := StartNextQueuedCall(ready, t);
        if done.Err? { WaitersAreTold(started, done.error); } else { SelectInOrder(started, t); }
      }
    }
  }

  lemma ActiveHasStream(d: Driver)
    requires CallsAccounted(d)
    ensures d.active.Some? ==> d.stream.Some?
  {
  }

  lemma {:induction false} RunInOrder(d: Driver, turns: seq<Turn>)
    requires CallsAccounted(d) && InOrder(d)
    ensures InOrder(Run(d, turns))
    decreases turns
  {
    hide CallsAccounted, InOrder, TurnOnce;
    if turns != [] {
      TurnInOrder(d, turns[0]);
      TurnAccounted(d, turns[0]);
      RunInOrder(TurnOnce(d, turns[0]).0, turns[1..]);
    }
  }

  /** Over every run calls are answered in the order in which they were accepted:
      those answered come first, then the one on the wire, then those queued. */
  lemma AnsweredInOrderOverEveryRun(turns: seq<Turn>)
    ensures var d := Run(IDLE, turns);
            && |d.accepted| == |d.resolved| + |ActiveId(d)| + |d.queued|
            && (forall k :: 0 <= k < |d.resolved| ==> d.resolved[k].call == d.accepted[k])
            && (d.active.Some? ==> d.accepted[|d.resolved|] == d.active.value.call)
            && (forall i :: 0 <= i < |d.queued| ==> d.queued[i].call == d.accepted[|d.resolved| + |ActiveId(d)| + i])
  {
    RunInOrder(IDLE, turns);
    hide Run;
  }
}
