/** The driver task in its own, imperative form, refining `WrpcDriver`. */
module WrpcTask {
  import opened Common
  import opened WrpcTypes
  import opened WrpcDriver

  /** The variables of the driver loop. What the driver tells others is only
      recorded. */
  class Task {
    var stream: Option<Stream>
    var queued: seq<QueuedCall>
    var active: Option<ActiveCall>
    var notifications: seq<Frame>
    var waiters: seq<WaiterId>
    var subscriptions: seq<seq<byte>>
    var nextRequest: nat
    ghost var history: Driver

    ghost function View(): Driver
      reads this
    {
      history.(stream := stream, queued := queued, active := active, notifications := notifications,
               waiters := waiters, subscriptions := subscriptions, nextRequest := nextRequest)
    }

    constructor ()
      ensures View() == IDLE
    {
      stream, queued, active, notifications, waiters, subscriptions, nextRequest := None, [], None, [], [], [], 1;
      history := IDLE;
    }

    method Tell(call: CallId, outcome: Outcome)
      modifies this`history
      ensures View() == Resolve(old(View()), call, outcome)
    {
      history := Resolve(history, call, outcome);
    }

    method FailActive(error: NetworkError)
      modifies this
      ensures View() == FailActiveCall(old(View()), error)
    {
      if active.Some? {
        var call := active.value.call;
        active := None;
        Tell(call, Failed(error));
      }
    }

    method FailQueued(error: NetworkError)
      modifies this
      ensures View() == FailAllQueuedCalls(old(View()), error)
    {
      while queued != []
        invariant FailAllQueuedCalls(View(), error) == FailAllQueuedCalls(old(View()), error)
        decreases |queued|
      {
        var call := queued[0];
        queued := queued[1..];
        Tell(call.call, Failed(error));
      }
    }

    method FailWaiters(error: NetworkError)
      modifies this
      ensures View() == FailAllNotificationWaiters(old(View()), error)
    {
      while waiters != []
        invariant FailAllNotificationWaiters(View(), error) == FailAllNotificationWaiters(old(View()), error)
        decreases |waiters|
      {
        var waiter := waiters[0];
        waiters := waiters[1..];
        history := history.(waitersFailed := history.waitersFailed + [(waiter, error)]);
      }
    }

    /** Pops waiters until one still listens. */
    method OfferFrame(frame: Frame, listening: set<WaiterId>) returns (taken: bool)
      modifies this`waiters, this`history
      ensures (View(), taken) == Offer(old(View()), frame, listening)
    {
      while waiters != []
        invariant Offer(View(), frame, listening) == Offer(old(View()), frame, listening)
        decreases |waiters|
      {
        var waiter := waiters[0];
        waiters := waiters[1..];
        if waiter in listening {
          history := history.(handed := history.handed + [Handed(frame, waiter, true)]);
          return true;
        }
        history := history.(waitersGone := history.waitersGone + [waiter]);
      }
      taken := false;
    }

    method QueueOrDeliverFrame(frame: Frame, listening: set<WaiterId>) returns (done: Result<(), NetworkError>)
      modifies this`waiters, this`history, this`notifications
      ensures (View(), done) == QueueOrDeliver(old(View()), frame, listening)
    {
      hide Offer;
      OfferLeavesQueue(View(), frame, listening);
      var taken := OfferFrame(frame, listening);
      if !taken {
        if |notifications| >= MAX_QUEUED_NOTIFICATIONS {
          return Err(UnexpectedResponse);
        }
        notifications := notifications + [frame];
      }
      done := Ok(());
    }

    /** Serves queued notifications while both queues are in use. */
    method Dispatch(listening: set<WaiterId>)
      modifies this
      ensures View() == DispatchQueuedNotifications(old(View()), listening)
    {
      while notifications != [] && waiters != []
        invariant DispatchQueuedNotifications(View(), listening) == DispatchQueuedNotifications(old(View()), listening)
        decreases |notifications|
      {
        hide Offer;
        ghost var before := View();
        OfferLeavesQueue(before, notifications[0], listening);
        var frame := notifications[0];
        notifications := notifications[1..];
        OfferIgnoresQueue(before, frame, listening, notifications);
        var delivered := OfferFrame(frame, listening);
        if !delivered {
          notifications := [frame] + notifications;
          assert notifications == before.notifications;
          return;
        }
      }
    }

    method Handle(command: Command, listening: set<WaiterId>)
      modifies this
      ensures View() == HandleCommand(old(View()), command, listening)
    {
      match command
      case Call(call, operation, payload) =>
        queued := queued + [QueuedCall(call, operation, payload)];
        history := history.(accepted := history.accepted + [call]);
      case NextNotification(waiter) =>
        history := history.(waitersAccepted := history.waitersAccepted + [waiter]);
        if notifications != [] {
          var frame := notifications[0];
          notifications := notifications[1..];
          history := history.(handed := history.handed + [Handed(frame, waiter, waiter in listening)]);
        } else {
          waiters := waiters + [waiter];
        }
    }

    /** Waits for the acknowledgement of one replayed subscription. */
    method AwaitAcknowledgement(requestId: nat, frames: seq<Frame>, fault: NetworkError, listening: set<WaiterId>)
      returns (done: Result<(), NetworkError>)
      modifies this`waiters, this`history, this`notifications
      ensures (View(), done) == AwaitReplay(old(View()), requestId, frames, fault, listening)
    {
      hide QueueOrDeliver, ValidateResponse;
      var at := 0;
      while at < |frames|
        invariant 0 <= at <= |frames|
        invariant AwaitReplay(View(), requestId, frames[at..], fault, listening) == AwaitReplay(old(View()), requestId, frames, fault, listening)
      {
        var frame := frames[at];
        assert frames[at..][0] == frame && frames[at..][1..] == frames[at + 1..];
        if frame.decoded.Err? {
          return Err(frame.decoded.error);
        }
        var decoded := frame.decoded.value;
        if decoded.id.None? {
          if !decoded.kind.Notification? {
            return Err(UnexpectedResponse);
          }
          done := QueueOrDeliverFrame(frame, listening);
          if done.Err? {
            return;
          }
          at := at + 1;
        } else {
          var valid := ValidateResponse(frame, requestId, Subscribe);
          done := if valid.Err? then Err(valid.error) else Ok(());
          return;
        }
      }
      done := Err(fault);
    }

    /** Sends one remembered subscription again. */
    method ReplaySubscription(connected: Stream, payload: seq<byte>, replay: Replay, listening: set<WaiterId>)
      returns (made: Result<Stream, NetworkError>)
      modifies this`nextRequest, this`waiters, this`history, this`notifications
      ensures (View(), made) == ReplayOne(old(View()), connected, payload, replay, listening)
    {
      hide AwaitReplay;
      var requestId := nextRequest;
      nextRequest := nextRequest + 1;
      if !replay.encoded {
        return Err(InvalidLength);
      }
      var sent := Sent(requestId, Subscribe, payload, None);
      history := history.(wire := history.wire + [sent]);
      var grown := connected.(sent := connected.sent + [sent]);
      if !replay.sent {
        return Err(SendFailed);
      }
      var done := AwaitAcknowledgement(requestId, replay.frames, replay.fault, listening);
      made := if done.Err? then Err(done.error) else Ok(grown.(replayed := grown.replayed + 1));
    }

    /** Connects and replays what is remembered, in order. */
    method Establish(t: Turn) returns (made: Result<Stream, NetworkError>)
      modifies this`nextRequest, this`waiters, this`history, this`notifications
      ensures (View(), made) == EstablishStream(old(View()), t)
    {
      if t.connected.Err? {
        return Err(t.connected.error);
      }
      hide ReplayOne;
      var connected := Stream([], 0);
      var at, left := 0, t.replays;
      while at < |subscriptions|
        invariant 0 <= at <= |subscriptions|
        invariant ReplaySubscriptions(View(), connected, subscriptions[at..], left, t.listening) == EstablishStream(old(View()), t)
      {
        assert subscriptions[at..][0] == subscriptions[at] && subscriptions[at..][1..] == subscriptions[at + 1..];
        made := ReplaySubscription(connected, subscriptions[at], if left == [] then NO_REPLAY else left[0], t.listening);
        if made.Err? {
          return;
        }
        connected, left, at := made.value, if left == [] then [] else left[1..], at + 1;
      }
      made := Ok(connected);
    }

    method StartNext(t: Turn) returns (done: Result<(), NetworkError>)
      modifies this
      ensures (View(), done) == StartNextQueuedCall(old(View()), t)
    {
      if active.Some? || stream.None? || queued == [] {
        return Ok(());
      }
      var call, requestId := queued[0], nextRequest;
      queued, nextRequest := queued[1..], nextRequest + 1;
      if !t.encoded {
        Tell(call.call, Dropped);
        return Err(InvalidLength);
      }
      var sent := Sent(requestId, call.operation, call.payload, Some(call.call));
      history, stream := history.(wire := history.wire + [sent]), Some(stream.value.(sent := stream.value.sent + [sent]));
      if !t.sent {
        Tell(call.call, Failed(SendFailed));
        return Err(SendFailed);
      }
      active := Some(ActiveCall(requestId, call.call, call.operation, call.payload));
      done := Ok(());
    }

    /** Demultiplexes one frame: a notification, or the response to the active call. */
    method HandleFrame(frame: Frame, listening: set<WaiterId>) returns (done: Result<(), NetworkError>)
      modifies this
      ensures (View(), done) == HandleReceivedFrame(old(View()), frame, listening)
    {
      hide QueueOrDeliver;
      if frame.decoded.Err? {
        return Err(frame.decoded.error);
      }
      var decoded := frame.decoded.value;
      if decoded.id.None? {
        if !decoded.kind.Notification? {
          return Err(UnexpectedResponse);
        }
        done := QueueOrDeliverFrame(frame, listening);
        return;
      }
      if active.None? {
        return Err(UnexpectedResponse);
      }
      var call := active.value;
      active := None;
      if decoded.id.value != call.requestId {
        var error := MismatchedRequestId(call.requestId, decoded.id.value);
        Tell(call.call, Failed(error));
        return Err(error);
      }
      var valid := ValidateResponse(frame, call.requestId, call.operation);
      if valid.Ok? {
        if call.operation == Subscribe {
          history := history.(acknowledged := history.acknowledged + [call.payload]);
          if call.payload !in subscriptions {
            subscriptions := subscriptions + [call.payload];
          }
        }
        Tell(call.call, Replied(valid.value, frame));
      } else {
        Tell(call.call, Failed(valid.error));
      }
      done := Ok(());
    }

    method Drop(error: NetworkError)
      modifies this
      ensures View() == LoseStream(old(View()), error)
    {
      FailActive(error);
      FailWaiters(error);
      stream := None;
    }

    method Stop()
      modifies this
      ensures View() == Finish(old(View()))
    {
      FailActive(ConnectionFailed);
      FailQueued(ConnectionFailed);
      FailWaiters(ConnectionFailed);
    }

    method Await(t: Turn) returns (goesOn: bool)
      modifies this
      ensures (View(), goesOn) == Select(old(View()), t)
    {
      hide HandleReceivedFrame, LoseStream, Finish, HandleCommand;
      match t.event
      case Shutdown => Stop(); return false;
      case CommandsClosed => Stop(); return false;
      case Commanded(command) => Handle(command, t.listening); return true;
      case Arrived(frame) =>
        if stream.Some? {
          var done := HandleFrame(frame, t.listening);
          if done.Err? { Drop(done.error); }
        }
        return true;
      case Fault(error) =>
        if stream.Some? { Drop(error); }
        return true;
      case Deadline =>
        if stream.Some? && active.Some? { Drop(ResponseTimeout); }
        return true;
    }

    /** One pass through the loop. */
    method Turn(t: Turn) returns (goesOn: bool)
      modifies this
      ensures (View(), goesOn) == TurnOnce(old(View()), t)
    {
      hide Finish, DispatchQueuedNotifications, EstablishStream, FailAllQueuedCalls, FailAllNotificationWaiters, StartNextQueuedCall, Select;
      if t.stop {
        Stop();
        return false;
      }
      nextRequest := nextRequest + t.idsUsedElsewhere;
      Dispatch(t.listening);
      if stream.None? && (queued != [] || waiters != []) {
        var made := Establish(t);
        if made.Err? {
          FailQueued(made.error);
          FailWaiters(made.error);
          return true;
        }
        stream := Some(made.value);
      }
      var done := StartNext(t);
      if done.Err? {
        FailWaiters(done.error);
        stream := None;
        return true;
      }
      goesOn := Await(t);
    }
  }

  lemma {:induction false} OfferLeavesQueue(d: Driver, frame: Frame, listening: set<WaiterId>)
    ensures Offer(d, frame, listening).0.notifications == d.notifications
    decreases |d.waiters|
  {
    if d.waiters != [] && d.waiters[0] !in listening {
      OfferLeavesQueue(d.(waiters := d.waiters[1..], waitersGone := d.waitersGone + [d.waiters[0]]), frame, listening);
    }
  }

  lemma {:induction false} OfferIgnoresQueue(d: Driver, frame: Frame, listening: set<WaiterId>, other: seq<Frame>)
    ensures var (e, taken) := Offer(d, frame, listening);
            Offer(d.(notifications := other), frame, listening) == (e.(notifications := other), taken)
    decreases |d.waiters|
  {
    if d.waiters != [] && d.waiters[0] !in listening {
      OfferIgnoresQueue(d.(waiters := d.waiters[1..], waitersGone := d.waitersGone + [d.waiters[0]]), frame, listening, other);
    }
  }

  /** The driver task, from its start until it stops or the turns end. */
  method RunDriver(turns: seq<Turn>) returns (task: Task)
    ensures fresh(task) && task.View() == Run(IDLE, turns)
  {
    hide TurnOnce;
    task := new Task();
    var at := 0;
    assert turns[0..] == turns;
    while at < |turns|
      invariant 0 <= at <= |turns| && fresh(task)
      invariant Run(task.View(), turns[at..]) == Run(IDLE, turns)
    {
      assert turns[at..][0] == turns[at] && turns[at..][1..] == turns[at + 1..];
      var goesOn := task.Turn(turns[at]);
      if !goesOn {
        return;
      }
      at := at + 1;
    }
  }
}
